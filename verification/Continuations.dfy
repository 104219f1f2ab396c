/** What the tasks go on to do. */
module Continuations {
  // What the tasks of a VM make of the accounts when their own steps go on: an independent measure of
  // whether a state is sound, and the proof that the invariant is just that.

  import opened Tables
  import opened Ledger
  import opened Protocol
  import opened ProtocolInv
  import opened StepKeeps
  import opened Keeps
  import opened Runs

  /** Steps of tasks of VM `v` alone. */
  predicate OwnStep(s: State, v: nat, l: Label) {
    TaskOf(l).Some? && !l.ClaimDst? && TaskOf(l).value in s.tasks && s.tasks[TaskOf(l).value].vm == v
  }

  predicate OwnSteps(s: State, v: nat, ls: seq<Label>) { forall k | 0 <= k < |ls| :: OwnStep(s, v, ls[k]) }

  /** Every mounted device is on the host that the row of its VM names. */
  ghost predicate DevicesInPlace(s: State) {
    forall dev | dev in s.devices && s.devices[dev].vm.Some? ::
      s.devices[dev].vm.value in s.vms && s.vms[s.devices[dev].vm.value].host == Some(s.devices[dev].host)
  }

  ghost predicate Sound(s: State) { Books(s) && DevicesInPlace(s) }

  /** However the tasks of VM `v` go on, without giving anything back twice, the books balance and
      devices are where their VMs are. */
  ghost predicate StaysSound(s: State, v: nat) {
    forall ls | OwnSteps(s, v, ls) && Exec(s, ls).Some? && Harmless(s, ls) :: Sound(Exec(s, ls).value)
  }

  lemma InvStaysSound(s: State, v: nat)
    requires Inv(s)
    ensures StaysSound(s, v)
  {
    forall ls | OwnSteps(s, v, ls) && Exec(s, ls).Some? && Harmless(s, ls) ensures Sound(Exec(s, ls).value) {
      ExecKeeps(s, ls);
      DevicesOfInv(Exec(s, ls).value);
    }
  }

  lemma DevicesOfInv(s: State)
    requires Inv(s)
    ensures DevicesInPlace(s)
  {
    forall dev | dev in s.devices && s.devices[dev].vm.Some?
      ensures s.devices[dev].vm.value in s.vms && s.vms[s.devices[dev].vm.value].host == Some(s.devices[dev].host)
    {
      assert DeviceOk(s, dev);
    }
  }

  lemma SoundNow(s: State, v: nat)
    requires StaysSound(s, v)
    ensures Sound(s)
  {
    assert Exec(s, []) == Some(s) && Harmless(s, []) && OwnSteps(s, v, []);
  }

  /** A state from which one own step leads to an unsound future has an unsound future. */
  lemma OneStepOn(s: State, v: nat, l: Label)
    requires OwnStep(s, v, l) && Next(s, l).Some? && !Harmful(s, l) && StaysSound(s, v)
    ensures StaysSound(Next(s, l).value, v)
  {
    var s' := Next(s, l).value;
    Exec1(s, l);
    forall ls | OwnSteps(s', v, ls) && Exec(s', ls).Some? && Harmless(s', ls) ensures Sound(Exec(s', ls).value) {
      ExecConcat(s, [l], ls);
      assert Harmless(s, []) && [l][..0] == [];
      HarmlessConcat(s, [l], ls);
      OwnStepsBefore(s, v, l, ls);
    }
  }

  lemma OwnStepsBefore(s: State, v: nat, l: Label, ls: seq<Label>)
    requires OwnStep(s, v, l) && Next(s, l).Some? && OwnSteps(Next(s, l).value, v, ls)
    ensures OwnSteps(s, v, [l] + ls)
  {
    var t := TaskOf(l).value;
    TaskNextOf(s, l, t);
    TaskForm(s, l, t);
    AfterKeepsVm(s, l, t);
    forall k | 0 <= k < |[l] + ls| ensures OwnStep(s, v, ([l] + ls)[k]) {
      if k > 0 { assert ([l] + ls)[k] == ls[k - 1]; }
    }
  }

  lemma AfterKeepsVm(s: State, l: Label, t: nat)
    requires TaskNext(s, l, t).Some? && TaskOf(l) == Some(t) && !l.ClaimDst?
    ensures TaskAfter(s, l, t).vm == s.tasks[t].vm
  {
    if OnlyMarks(l) { MarksOweTheSame(s.tasks[t], l, LetsThrough(s, l, t), RowOf(s, s.tasks[t].vm)); }
  }

  // ---------- moving the VM ----------

  /** The steps of the task find a row of its VM, and its hosts. */
  predicate MayGoOn(s: State, t: nat) {
    && t in s.tasks && s.tasks[t].vm in s.vms
    && s.vms[s.tasks[t].vm].vcpu > 0 && s.vms[s.tasks[t].vm].mem > 0
    && s.tasks[t].src in s.hosts && s.tasks[t].dst in s.hosts && s.tasks[t].src != s.tasks[t].dst
  }

  /** The task has a claim, and what is left to do is to move the VM. */
  predicate Underway(task: Task) {
    && task.Expecting() && !task.dstCounted && !task.srcTaken && !task.srcUncounted && task.vcpu > 0 && task.mem > 0
    && (task.status == Draft || (task.tag == Live && (task.status == Waiting || task.status == InProcess)))
    && (task.status != Waiting ==> task.worker == Running)
  }

  lemma ExpectingIsUnderway(task: Task)
    requires FlagsOk(task) && StatusOk(task) && task.Expecting()
    ensures Underway(task)
  {
  }

  /** The next step on the way to moving the VM. */
  function TowardsSwitch(task: Task, t: nat): Label {
    if task.status == Waiting then PickUp(t) else if task.status == Unmoved(task) then SwitchHost(t) else SaveTask(t)
  }

  /** Moving the row keeps the books if and only if the VM stands, in full size, where the task
      took it from. */
  lemma SwitchExactly(s: State, t: nat)
    requires Books(s) && MayGoOn(s, t) && Underway(s.tasks[t])
    ensures Books(Switched(s, t)) <==> InPlace(s, s.tasks[t])
  {
    var task, after := s.tasks[t], Switched(s, t);
    if InPlace(s, task) {
      SwitchedBooks(s, t);
    } else if Shifted(s, after, task.vm, t, task.src) {
      Unbalanced(s, after, task.vm, t, task.dst);
    } else {
      Unbalanced(s, after, task.vm, t, task.src);
    }
  }

  lemma SwitchedBooks(s: State, t: nat)
    requires Books(s) && MayGoOn(s, t) && Underway(s.tasks[t]) && InPlace(s, s.tasks[t])
    ensures Books(Switched(s, t))
  {
    Rebalance(s, Switched(s, t), s.tasks[t].vm, t);
  }

  lemma MarkedBooks(s: State, t: nat, task: Task)
    requires Books(s) && t in s.tasks && SameDebt(s.tasks[t], task)
    ensures Books(WithTask(s, t, task))
  {
    Rebalance(s, WithTask(s, t, task), task.vm, t);
  }

  /** The task after the next step towards moving. */
  function NearerTask(s: State, t: nat): Task
    requires MayGoOn(s, t)
  {
    After(s.tasks[t], TowardsSwitch(s.tasks[t], t), false, Some(s.vms[s.tasks[t].vm]))
  }

  lemma Nearer(s: State, t: nat)
    requires MayGoOn(s, t) && Underway(s.tasks[t]) && s.tasks[t].status != Unmoved(s.tasks[t])
    ensures var l := TowardsSwitch(s.tasks[t], t);
      && OwnStep(s, s.tasks[t].vm, l) && Next(s, l) == Some(WithTask(s, t, NearerTask(s, t))) && !Harmful(s, l)
    ensures SameDebt(s.tasks[t], NearerTask(s, t)) && Underway(NearerTask(s, t))
    ensures Phase(NearerTask(s, t)) < Phase(s.tasks[t])
  {
    var l := TowardsSwitch(s.tasks[t], t);
    MarkForm(s, l, t);
    MarksOweTheSame(s.tasks[t], l, false, Some(s.vms[s.tasks[t].vm]));
  }

  lemma Moves(s: State, t: nat)
    requires MayGoOn(s, t) && Underway(s.tasks[t]) && s.tasks[t].status == Unmoved(s.tasks[t])
    ensures OwnStep(s, s.tasks[t].vm, SwitchHost(t)) && Next(s, SwitchHost(t)) == Some(Switched(s, t))
    ensures !Harmful(s, SwitchHost(t))
  {
  }

  /** A device of the VM that will not be where the task takes the VM. */
  predicate LeftBehind(s: State, t: nat, dev: nat)
    requires t in s.tasks
  {
    dev in s.devices && s.devices[dev].vm == Some(s.tasks[t].vm) && s.devices[dev].host != s.tasks[t].dst
  }

  lemma NotSoundAfterSwitch(s: State, t: nat)
    requires Books(s) && MayGoOn(s, t) && Underway(s.tasks[t])
    requires !InPlace(s, s.tasks[t]) || exists dev :: LeftBehind(s, t, dev)
    ensures !Sound(Switched(s, t))
  {
    SwitchExactly(s, t);
    if dev :| LeftBehind(s, t, dev) { assert Switched(s, t).devices[dev].vm == Some(s.tasks[t].vm); }
  }

  /** A task that may still move its VM, and does not find it in place, or takes it away from a
      device, has an unsound future. */
  lemma {:induction false} MoveBreaks(s: State, t: nat)
    requires Books(s) && MayGoOn(s, t) && Underway(s.tasks[t])
    requires !InPlace(s, s.tasks[t]) || exists dev :: LeftBehind(s, t, dev)
    ensures !StaysSound(s, s.tasks[t].vm)
    decreases Phase(s.tasks[t])
  {
    var v := s.tasks[t].vm;
    if StaysSound(s, v) {
      if s.tasks[t].status == Unmoved(s.tasks[t]) {
        Moves(s, t);
        OneStepOn(s, v, SwitchHost(t));
        SoundNow(Switched(s, t), v);
        NotSoundAfterSwitch(s, t);
      } else {
        Nearer(s, t);
        var s' := WithTask(s, t, NearerTask(s, t));
        OneStepOn(s, v, TowardsSwitch(s.tasks[t], t));
        MarkedBooks(s, t, NearerTask(s, t));
        if dev :| LeftBehind(s, t, dev) { assert LeftBehind(s', t, dev); }
        MoveBreaks(s', t);
      }
    }
  }

  /** The thread of a VM that was deleted goes on: the destination is charged for nothing. */
  lemma MoveOfNobodyBreaks(s: State, t: nat)
    requires Books(s) && t in s.tasks && Underway(s.tasks[t]) && s.tasks[t].status == InProcess
    requires s.tasks[t].vm !in s.vms && s.tasks[t].src in s.hosts
        && s.tasks[t].src != s.tasks[t].dst
    ensures !StaysSound(s, s.tasks[t].vm)
  {
    var v := s.tasks[t].vm;
    var after := WithTask(s, t, s.tasks[t].(switched := true));
    assert Next(s, SwitchHost(t)) == Some(after);
    Unbalanced(s, after, v, t, s.tasks[t].src);
    if StaysSound(s, v) {
      OneStepOn(s, v, SwitchHost(t));
      SoundNow(after, v);
    }
  }

  /** Two tasks that may still move one VM have an unsound future: once one of them has moved it, the
      other does not find it in place. */
  lemma {:induction false} TwoMoversBreak(s: State, x: nat, y: nat)
    requires Books(s) && MayGoOn(s, x) && MayGoOn(s, y) && x != y && s.tasks[x].vm == s.tasks[y].vm
    requires Underway(s.tasks[x]) && Underway(s.tasks[y])
    ensures !StaysSound(s, s.tasks[x].vm)
    decreases Phase(s.tasks[x])
  {
    var v := s.tasks[x].vm;
    if !InPlace(s, s.tasks[x]) {
      MoveBreaks(s, x);
    } else if !InPlace(s, s.tasks[y]) {
      MoveBreaks(s, y);
    } else if s.tasks[x].status == Unmoved(s.tasks[x]) {
      Moves(s, x);
      SwitchExactly(s, x);
      MovedAway(s, x, y);
      MoveBreaks(Switched(s, x), y);
      if StaysSound(s, v) { OneStepOn(s, v, SwitchHost(x)); }
    } else {
      Nearer(s, x);
      MarkedBooks(s, x, NearerTask(s, x));
      TwoMoversBreak(WithTask(s, x, NearerTask(s, x)), x, y);
      if StaysSound(s, v) { OneStepOn(s, v, TowardsSwitch(s.tasks[x], x)); }
    }
  }

  lemma MovedAway(s: State, x: nat, y: nat)
    requires MayGoOn(s, x) && MayGoOn(s, y) && x != y && InPlace(s, s.tasks[x]) && InPlace(s, s.tasks[y])
    requires s.tasks[x].vm == s.tasks[y].vm && Underway(s.tasks[x])
    ensures Switched(s, x).tasks[y] == s.tasks[y] && MayGoOn(Switched(s, x), y)
    ensures !InPlace(Switched(s, x), s.tasks[y])
  {
  }

  // ---------- a clean-up at another size ----------

  /** A live task that has moved its VM and still has the source to release. */
  predicate ToRelease(task: Task) {
    && task.tag == Live && task.switched && !task.srcTaken && !task.srcFree && task.vcpu > 0 && task.mem > 0
    && ((task.status == InProcess && task.worker == Running)
        || (task.status == SomeTodo && (task.worker == Running || task.worker == Crashed)))
  }

  lemma MeasuredIsToRelease(task: Task)
    requires FlagsOk(task) && StatusOk(task) && task.Measured() && !task.Expecting()
    ensures ToRelease(task)
  {
  }

  /** The next step towards a clean-up by a later request, after the thread died. */
  function TowardsCleanUp(task: Task, t: nat): Label {
    if task.status == InProcess then (if task.dstCounted then MarkTodo(t) else CountDst(t))
    else if task.worker == Running then Crash(t)
    else CleanFree(t)
  }

  function CountedTask(s: State, t: nat): State
    requires MayGoOn(s, t)
  {
    WithTask(Counted(s, s.tasks[t].dst, 1), t, s.tasks[t].(dstCounted := true))
  }

  lemma CountedBooks(s: State, t: nat)
    requires Books(s) && MayGoOn(s, t) && s.tasks[t].switched && !s.tasks[t].dstCounted
    ensures Books(CountedTask(s, t))
  {
    Rebalance(s, CountedTask(s, t), s.tasks[t].vm, t);
  }

  /** The size in the row is not the one that was claimed. */
  predicate OtherSize(s: State, t: nat)
    requires MayGoOn(s, t)
  {
    !SizeIs(s.vms[s.tasks[t].vm], s.tasks[t])
  }

  /** The source was released at the size that the row shows. */
  function CleanedAtRowSize(s: State, t: nat): State
    requires MayGoOn(s, t)
  {
    var vm := s.vms[s.tasks[t].vm];
    Freed(s, t, s.tasks[t].src, (vm.vcpu, vm.mem), s.tasks[t].(worker := Cleaning(true), srcTaken := true))
  }

  lemma CleanUpReached(s: State, t: nat)
    requires Books(s) && MayGoOn(s, t) && ToRelease(s.tasks[t])
    requires s.tasks[t].status == SomeTodo && s.tasks[t].worker == Crashed
    ensures OwnStep(s, s.tasks[t].vm, CleanFree(t)) && !Harmful(s, CleanFree(t))
    ensures Next(s, CleanFree(t)) == Some(CleanedAtRowSize(s, t))
  {
    NeverRefused(s, s.tasks[t].src, (s.vms[s.tasks[t].vm].vcpu, s.vms[s.tasks[t].vm].mem));
    assert TaskNext(s, CleanFree(t), t).value.tasks == CleanedAtRowSize(s, t).tasks;
  }

  lemma CleanUpAtOtherSize(s: State, t: nat)
    requires Books(s) && MayGoOn(s, t) && ToRelease(s.tasks[t]) && OtherSize(s, t)
    ensures !Books(CleanedAtRowSize(s, t))
  {
    Unbalanced(s, CleanedAtRowSize(s, t), s.tasks[t].vm, t, s.tasks[t].src);
  }

  /** The task one step nearer to the clean-up. */
  function NearerCleanUp(task: Task): Task {
    if task.status == InProcess && !task.dstCounted then task.(dstCounted := true)
    else if task.status == InProcess then task.(srcUndefined := true, status := SomeTodo)
    else task.(worker := Crashed)
  }

  lemma NearerIsToRelease(task: Task, t: nat)
    requires ToRelease(task) && !TowardsCleanUp(task, t).CleanFree?
    ensures ToRelease(NearerCleanUp(task)) && Rank(NearerCleanUp(task)) < Rank(task)
  {
  }

  lemma NearerSameVm(task: Task)
    ensures var task' := NearerCleanUp(task);
      && task'.vm == task.vm && task'.src == task.src && task'.dst == task.dst
      && task'.vcpu == task.vcpu && task'.mem == task.mem
  {
    if task.status == InProcess && !task.dstCounted {
      assert NearerCleanUp(task) == task.(dstCounted := true);
    } else if task.status == InProcess {
      assert NearerCleanUp(task) == task.(srcUndefined := true, status := SomeTodo);
    } else {
      assert NearerCleanUp(task) == task.(worker := Crashed);
    }
  }

  /** The state one step nearer. */
  function NearerState(s: State, t: nat): State
    requires MayGoOn(s, t)
  {
    WithTask(if TowardsCleanUp(s.tasks[t], t).CountDst? then Counted(s, s.tasks[t].dst, 1) else s,
             t, NearerCleanUp(s.tasks[t]))
  }

  lemma NearsCleanUp(s: State, t: nat)
    requires Books(s) && MayGoOn(s, t) && ToRelease(s.tasks[t]) && !TowardsCleanUp(s.tasks[t], t).CleanFree?
    ensures var l := TowardsCleanUp(s.tasks[t], t);
      OwnStep(s, s.tasks[t].vm, l) && Next(s, l) == Some(NearerState(s, t)) && !Harmful(s, l)
    ensures Books(NearerState(s, t))
  {
    var l := TowardsCleanUp(s.tasks[t], t);
    if l.CountDst? {
      CountedBooks(s, t);
    } else {
      MarkForm(s, l, t);
      MarkedBooks(s, t, NearerCleanUp(s.tasks[t]));
    }
  }

  lemma CleanUpBreaks(s: State, t: nat)
    requires Books(s) && MayGoOn(s, t) && ToRelease(s.tasks[t]) && OtherSize(s, t)
    requires s.tasks[t].status == SomeTodo && s.tasks[t].worker == Crashed
    ensures !StaysSound(s, s.tasks[t].vm)
  {
    if StaysSound(s, s.tasks[t].vm) {
      CleanUpReached(s, t);
      OneStepOn(s, s.tasks[t].vm, CleanFree(t));
      CleanUpAtOtherSize(s, t);
      SoundNow(CleanedAtRowSize(s, t), s.tasks[t].vm);
    }
  }

  lemma StillOtherSize(s: State, t: nat)
    requires MayGoOn(s, t) && OtherSize(s, t)
    ensures NearerState(s, t).tasks[t].vm == s.tasks[t].vm
    ensures MayGoOn(NearerState(s, t), t) && OtherSize(NearerState(s, t), t)
  {
    NearerSameVm(s.tasks[t]);
    assert NearerState(s, t).tasks[t] == NearerCleanUp(s.tasks[t]);
  }

  /** A task that will be cleaned up at another size than it claimed has an unsound future. */
  lemma {:induction false} ResizeBreaks(s: State, t: nat)
    requires Books(s) && MayGoOn(s, t) && ToRelease(s.tasks[t]) && OtherSize(s, t)
    ensures !StaysSound(s, s.tasks[t].vm)
    decreases Rank(s.tasks[t])
  {
    var l := TowardsCleanUp(s.tasks[t], t);
    if l.CleanFree? {
      CleanUpBreaks(s, t);
    } else {
      NearsCleanUp(s, t);
      NearerIsToRelease(s.tasks[t], t);
      StillOtherSize(s, t);
      ResizeBreaks(NearerState(s, t), t);
      if StaysSound(s, s.tasks[t].vm) { OneStepOn(s, s.tasks[t].vm, l); }
    }
  }

  // ---------- every harmful step has an unsound future ----------

  /** A careless step leaves the books balanced for the time being. */
  lemma CarelessBooks(s: State, l: Label)
    requires Inv(s) && Next(s, l).Some? && Careless(s, l)
    ensures Books(Next(s, l).value)
  {
    if l.ClaimDst? {
      ClaimBooks(s, l);
    } else if l.Resize? {
      ResizeBooks(s, l);
    } else {
      TiedDownBooks(s, l);
    }
  }

  lemma TiedDownBooks(s: State, l: Label)
    requires Inv(s) && Next(s, l).Some? && (l.DeleteRow? || l.BeginShelve? || l.MountDevice?)
    ensures Books(Next(s, l).value)
  {
    assert ChargeOf(Next(s, l).value, VmOwner(l.v)) == ChargeOf(s, VmOwner(l.v));
    RebalanceVm(s, Next(s, l).value, l.v);
  }

  lemma ResizeBooks(s: State, l: Label)
    requires Inv(s) && Next(s, l).Some? && l.Resize?
    ensures Books(Next(s, l).value)
  {
    assert RowOk(s, l.v);
    Covered(s, VmOwner(l.v), s.vms[l.v].host.value);
    RebalanceVm(s, Next(s, l).value, l.v);
  }

  lemma ClaimBooks(s: State, l: Label)
    requires Inv(s) && Next(s, l).Some? && l.ClaimDst?
    ensures Books(Next(s, l).value)
  {
    assert RowOk(s, l.v);
    Covered(s, DstOwner(l.t), l.dst);
    Rebalance(s, Next(s, l).value, l.v, l.t);
  }

  /** A task that a careless step concerns. */
  predicate Concerned(s: State, l: Label, u: nat) {
    && (l.DeleteRow? || l.BeginShelve? || l.ClaimDst? || l.MountDevice? || l.Resize?)
    && u in s.tasks && s.tasks[u].vm == l.v && s.tasks[u].Measured() && (!l.Resize? ==> s.tasks[u].Expecting())
    && (l.DeleteRow? ==> s.tasks[u].status == InProcess)
  }

  lemma ConcernedGoesOn(s: State, l: Label, u: nat)
    requires Inv(s) && Next(s, l).Some? && Careless(s, l) && Concerned(s, l, u)
    ensures var s' := Next(s, l).value;
      && u in s'.tasks && s'.tasks[u] == s.tasks[u] && s.tasks[u].src in s'.hosts
      && s.tasks[u].src != s.tasks[u].dst && (!l.DeleteRow? ==> MayGoOn(s', u))
  {
    assert TaskOk(s, u) && RowOk(s, l.v);
  }

  lemma DeleteBreaks(s: State, l: Label, u: nat)
    requires Inv(s) && Next(s, l).Some? && Careless(s, l) && Concerned(s, l, u) && l.DeleteRow?
    ensures !StaysSound(Next(s, l).value, l.v)
  {
    assert TaskOk(s, u);
    ConcernedGoesOn(s, l, u);
    CarelessBooks(s, l);
    ExpectingIsUnderway(s.tasks[u]);
    MoveOfNobodyBreaks(Next(s, l).value, u);
  }

  lemma ClaimBreaks(s: State, l: Label, u: nat)
    requires Inv(s) && Next(s, l).Some? && Careless(s, l) && Concerned(s, l, u) && l.ClaimDst?
    ensures !StaysSound(Next(s, l).value, l.v)
  {
    assert TaskOk(s, u) && RowOk(s, l.v);
    ConcernedGoesOn(s, l, u);
    CarelessBooks(s, l);
    ExpectingIsUnderway(s.tasks[u]);
    TwoMoversBreak(Next(s, l).value, u, l.t);
  }

  lemma TiedDownBreaks(s: State, l: Label, u: nat)
    requires Inv(s) && Next(s, l).Some? && Careless(s, l) && Concerned(s, l, u) && (l.BeginShelve? || l.MountDevice?)
    ensures !StaysSound(Next(s, l).value, l.v)
  {
    assert TaskOk(s, u);
    ConcernedGoesOn(s, l, u);
    CarelessBooks(s, l);
    ExpectingIsUnderway(s.tasks[u]);
    if l.MountDevice? { assert LeftBehind(Next(s, l).value, u, l.dev); }
    MoveBreaks(Next(s, l).value, u);
  }

  lemma OtherSizeBreaks(s: State, l: Label, u: nat)
    requires Inv(s) && Next(s, l).Some? && Careless(s, l) && Concerned(s, l, u) && l.Resize?
    ensures !StaysSound(Next(s, l).value, l.v)
  {
    assert TaskOk(s, u);
    ConcernedGoesOn(s, l, u);
    CarelessBooks(s, l);
    if s.tasks[u].Expecting() {
      ExpectingIsUnderway(s.tasks[u]);
      MoveBreaks(Next(s, l).value, u);
    } else {
      MeasuredIsToRelease(s.tasks[u]);
      ResizeBreaks(Next(s, l).value, u);
    }
  }

  lemma CarelessBreaks(s: State, l: Label)
    requires Inv(s) && Next(s, l).Some? && Careless(s, l)
    ensures !StaysSound(Next(s, l).value, l.v)
  {
    var u :| u in s.tasks && s.tasks[u].vm == l.v && s.tasks[u].Measured() && (!l.Resize? ==> s.tasks[u].Expecting())
             && (l.DeleteRow? ==> s.tasks[u].status == InProcess);
    assert Concerned(s, l, u);
    if l.DeleteRow? {
      DeleteBreaks(s, l, u);
    } else if l.ClaimDst? {
      ClaimBreaks(s, l, u);
    } else if l.Resize? {
      OtherSizeBreaks(s, l, u);
    } else {
      TiedDownBreaks(s, l, u);
    }
  }

  ghost predicate AllStaySound(s: State) { forall v :: StaysSound(s, v) }

  /** A step keeps the invariant if and only if it is not harmful; and that is just when, however the
      tasks of any one VM go on without giving anything back twice, the books balance and devices are
      where their VMs are. So the invariant asks for no more than that. */
  lemma StepExactly(s: State, l: Label)
    requires Inv(s) && Next(s, l).Some?
    ensures Inv(Next(s, l).value) <==> !Harmful(s, l)
    ensures AllStaySound(Next(s, l).value) <==> !Harmful(s, l)
  {
    NextKeepsExactly(s, l);
    if !Harmful(s, l) {
      forall v ensures StaysSound(Next(s, l).value, v) { InvStaysSound(Next(s, l).value, v); }
    } else if Careless(s, l) {
      CarelessBreaks(s, l);
    } else {
      var t := TaskOf(l).value;
      TaskNextOf(s, l, t);
      if Releases(l) { RepeatHarms(s, l, t); } else { SwitchHarms(s, l, t); }
      if StaysSound(Next(s, l).value, 0) { SoundNow(Next(s, l).value, 0); }
    }
  }
}
