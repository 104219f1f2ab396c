/** Each step of the protocol by itself keeps the invariant, as long as it is not harmful. The steps of a task come in
    three kinds: those that only mark what was done, those that count or move the VM, and the releases. */
module StepKeeps {
  import opened Tables
  import opened Ledger
  import opened Protocol
  import opened ProtocolInv

  // ---------- steps of a VM ----------

  lemma BeginCreateKeeps(s: State, v: nat, ip: nat, vcpu: int, mem: int)
    requires Inv(s) && BeginCreateStep(s, v, ip, vcpu, mem).Some?
    ensures Inv(BeginCreateStep(s, v, ip, vcpu, mem).value)
  {
    var s' := BeginCreateStep(s, v, ip, vcpu, mem).value;
    assert RowOk(s, v) && OpOk(s, v);
    NotMounted(s, v);
    VmStepShape(s, s', v);
    AddressTaken(s, s', v, ip);
    RebalanceVm(s, s', v);
  }

  lemma BeginUnshelveKeeps(s: State, v: nat, ip: nat)
    requires Inv(s) && BeginUnshelveStep(s, v, ip).Some?
    ensures Inv(BeginUnshelveStep(s, v, ip).value)
  {
    var s' := BeginUnshelveStep(s, v, ip).value;
    assert RowOk(s, v) && OpOk(s, v);
    NotMounted(s, v);
    forall u | u in s.tasks && s.tasks[u].vm == v ensures RowFits(s', s.tasks[u]) { assert TaskOk(s, u); }
    VmStepShape(s, s', v);
    AddressTaken(s, s', v, ip);
    RebalanceVm(s, s', v);
  }

  lemma ClaimHostKeeps(s: State, v: nat, h: nat)
    requires Inv(s) && ClaimHostStep(s, v, h).Some?
    ensures Inv(ClaimHostStep(s, v, h).value)
  {
    var s' := ClaimHostStep(s, v, h).value;
    assert RowOk(s, v) && OpOk(s, v);
    InOpAlone(s, v);
    Covered(s, VmOwner(v), h);
    OpFits(s, s', v);
    VmStepShape(s, s', v);
    AddressesSame(s, s', v);
    RebalanceVm(s, s', v);
  }

  lemma SaveRowKeeps(s: State, v: nat)
    requires Inv(s) && SaveRowStep(s, v).Some?
    ensures Inv(SaveRowStep(s, v).value)
  {
    var s' := SaveRowStep(s, v).value;
    assert RowOk(s, v) && OpOk(s, v);
    InOpAlone(s, v);
    OpFits(s, s', v);
    VmStepShape(s, s', v);
    AddressesSame(s, s', v);
    RebalanceVm(s, s', v);
  }

  lemma DropRowKeeps(s: State, v: nat)
    requires Inv(s) && DropRowStep(s, v).Some?
    ensures Inv(DropRowStep(s, v).value)
  {
    var s' := DropRowStep(s, v).value;
    assert RowOk(s, v) && OpOk(s, v);
    InOpAlone(s, v);
    OpFits(s, s', v);
    VmStepShape(s, s', v);
    AddressesSame(s, s', v);
    RebalanceVm(s, s', v);
  }

  lemma CountVmKeeps(s: State, v: nat)
    requires Inv(s) && CountVmStep(s, v).Some?
    ensures Inv(CountVmStep(s, v).value)
  {
    var s' := CountVmStep(s, v).value;
    assert RowOk(s, v) && OpOk(s, v);
    InOpAlone(s, v);
    OpFits(s, s', v);
    VmStepShape(s, s', v);
    AddressesSame(s, s', v);
    RebalanceVm(s, s', v);
  }

  lemma DeleteRowKeeps(s: State, v: nat)
    requires Inv(s) && DeleteRowStep(s, v).Some? && !BeingMoved(s, v)
    ensures Inv(DeleteRowStep(s, v).value)
  {
    var s' := DeleteRowStep(s, v).value;
    assert RowOk(s, v) && OpOk(s, v);
    forall u | u in s.tasks && s.tasks[u].vm == v ensures RowFits(s', s.tasks[u]) { assert TaskOk(s, u); }
    VmStepShape(s, s', v);
    AddressesSame(s, s', v);
    RebalanceVm(s, s', v);
  }

  lemma BeginShelveKeeps(s: State, v: nat)
    requires Inv(s) && BeginShelveStep(s, v).Some? && !Expected(s, v)
    ensures Inv(BeginShelveStep(s, v).value)
  {
    var s' := BeginShelveStep(s, v).value;
    assert RowOk(s, v) && OpOk(s, v);
    forall u | u in s.tasks && s.tasks[u].vm == v ensures RowFits(s', s.tasks[u]) { assert TaskOk(s, u); }
    VmStepShape(s, s', v);
    AddressesSame(s, s', v);
    RebalanceVm(s, s', v);
  }

  lemma ShelveRowKeeps(s: State, v: nat)
    requires Inv(s) && ShelveRowStep(s, v).Some?
    ensures Inv(ShelveRowStep(s, v).value)
  {
    var s' := ShelveRowStep(s, v).value;
    assert RowOk(s, v) && OpOk(s, v);
    InOpAlone(s, v);
    OpFits(s, s', v);
    VmStepShape(s, s', v);
    AddressesSame(s, s', v);
    RebalanceVm(s, s', v);
  }

  lemma UncountVmKeeps(s: State, v: nat)
    requires Inv(s) && UncountVmStep(s, v).Some?
    ensures Inv(UncountVmStep(s, v).value)
  {
    var s' := UncountVmStep(s, v).value;
    assert RowOk(s, v) && OpOk(s, v);
    InOpAlone(s, v);
    OpFits(s, s', v);
    VmStepShape(s, s', v);
    AddressesSame(s, s', v);
    RebalanceVm(s, s', v);
  }

  lemma ReleaseIpKeeps(s: State, v: nat)
    requires Inv(s) && ReleaseIpStep(s, v).Some?
    ensures Inv(ReleaseIpStep(s, v).value)
  {
    var s' := ReleaseIpStep(s, v).value;
    assert RowOk(s, v) && OpOk(s, v);
    InOpAlone(s, v);
    OpFits(s, s', v);
    VmStepShape(s, s', v);
    AddressFreed(s, s', v, s.ops[v].ip);
    RebalanceVm(s, s', v);
  }

  lemma ReleaseHostKeeps(s: State, v: nat)
    requires Inv(s) && ReleaseHostStep(s, v).Some?
    ensures Inv(ReleaseHostStep(s, v).value)
  {
    ShareGivenBack(s, v);
    ShareBackShape(s, v);
    AddressesSame(s, ShareBack(s, v), v);
    ReleaseSucceeds(s, VmOwner(v));
    RebalanceVm(s, ShareBack(s, v), v);
  }

  /** The operation has given its share of the host back. */
  function ShareBack(s: State, v: nat): State
    requires v in s.ops && s.ops[v].host in s.hosts
  {
    var op := s.ops[v];
    var row := s.hosts[op.host];
    WithOp(WithHost(s, op.host, row.(vcpu := row.vcpu - op.vcpu, mem := row.mem - op.mem)), v, op.(charged := false))
  }

  lemma ShareGivenBack(s: State, v: nat)
    requires Inv(s) && ReleaseHostStep(s, v).Some?
    ensures ReleaseHostStep(s, v) == Some(ShareBack(s, v)) && s.ops[v].vcpu > 0 && s.ops[v].mem > 0
  {
    assert OpOk(s, v);
    ReleaseSucceeds(s, VmOwner(v));
  }

  lemma ShareBackShape(s: State, v: nat)
    requires Inv(s) && ReleaseHostStep(s, v).Some?
    ensures Shape(ShareBack(s, v))
  {
    assert RowOk(s, v) && OpOk(s, v);
    InOpAlone(s, v);
    OpFits(s, ShareBack(s, v), v);
    VmStepShape(s, ShareBack(s, v), v);
  }

  lemma EndOpKeeps(s: State, v: nat)
    requires Inv(s) && EndOpStep(s, v).Some?
    ensures Inv(EndOpStep(s, v).value)
  {
    var s' := EndOpStep(s, v).value;
    assert RowOk(s, v) && OpOk(s, v);
    InOpAlone(s, v);
    OpFits(s, s', v);
    VmStepShape(s, s', v);
    AddressesSame(s, s', v);
    RebalanceVm(s, s', v);
  }

  lemma ResizeKeeps(s: State, v: nat, vcpu: int, mem: int)
    requires Inv(s) && ResizeStep(s, v, vcpu, mem).Some?
    requires IsMeasured(s, v) ==> SameSize(s.vms[v], vcpu, mem)
    ensures Inv(ResizeStep(s, v, vcpu, mem).value)
  {
    var s' := ResizeStep(s, v, vcpu, mem).value;
    assert RowOk(s, v) && OpOk(s, v);
    Covered(s, VmOwner(v), s.vms[v].host.value);
    ResizeFits(s, v, vcpu, mem);
    VmStepShape(s, s', v);
    AddressesSame(s, s', v);
    RebalanceVm(s, s', v);
  }

  lemma ResizeFits(s: State, v: nat, vcpu: int, mem: int)
    requires Inv(s) && ResizeStep(s, v, vcpu, mem).Some?
    requires IsMeasured(s, v) ==> SameSize(s.vms[v], vcpu, mem)
    ensures var s' := ResizeStep(s, v, vcpu, mem).value;
      RowOk(s', v) && forall u | u in s.tasks && s.tasks[u].vm == v :: RowFits(s', s.tasks[u])
  {
    var s' := ResizeStep(s, v, vcpu, mem).value;
    assert RowOk(s, v);
    Covered(s, VmOwner(v), s.vms[v].host.value);
    forall u | u in s.tasks && s.tasks[u].vm == v ensures RowFits(s', s.tasks[u]) { assert TaskOk(s, u); }
  }

  lemma ClaimDstKeeps(s: State, t: nat, v: nat, dst: nat, tag: Tag)
    requires Inv(s) && ClaimDstStep(s, t, v, dst, tag).Some? && !Expected(s, v)
    ensures Inv(ClaimDstStep(s, t, v, dst, tag).value)
  {
    var s' := ClaimDstStep(s, t, v, dst, tag).value;
    assert RowOk(s, v) && OpOk(s, v);
    Covered(s, DstOwner(t), dst);
    TaskStepShape(s, s', t);
    AddressesSame(s, s', v);
    Rebalance(s, s', v, t);
  }

  // ---------- steps of a task ----------

  /** The steps that neither release anything nor move a VM nor count one. */
  predicate OnlyMarks(l: Label) {
    TaskOf(l).Some? && !l.ClaimDst? && !Releases(l) && !l.SwitchHost? && !l.CountDst? && !l.UncountSrc?
  }

  /** What the task knows of itself stays right. */
  lemma MarksOk(task: Task, l: Label, vm: Option<Vm>)
    requires FlagsOk(task) && StatusOk(task) && Ready(task, l) && OnlyMarks(l)
    requires l.PickUp? && vm.Some? ==>
               vm.value.vcpu > 0 && vm.value.mem > 0 && (task.Expecting() ==> SizeIs(vm.value, task))
    ensures FlagsOk(After(task, l, false, vm)) && StatusOk(After(task, l, false, vm))
    ensures After(task, l, false, vm).Expecting() ==> task.Expecting() && (l.PickUp? ==> vm.Some?)
    ensures After(task, l, false, vm).Measured() ==> task.Measured()
    ensures After(task, l, false, vm).Expecting() && After(task, l, false, vm).status == InProcess ==>
              task.status == InProcess || l.PickUp?
  {
  }

  /** The task owes the same as before. */
  predicate SameDebt(task: Task, task': Task) {
    && task'.vm == task.vm && task'.src == task.src && task'.dst == task.dst && task'.tag == task.tag
    && task'.vcpu == task.vcpu && task'.mem == task.mem
    && task'.dstTaken == task.dstTaken && task'.switched == task.switched && task'.dstCounted == task.dstCounted
    && task'.srcUncounted == task.srcUncounted && task'.freeTried == task.freeTried && task'.srcTaken == task.srcTaken
  }

  lemma MarksOweTheSame(task: Task, l: Label, freed: bool, vm: Option<Vm>)
    requires OnlyMarks(l)
    ensures SameDebt(task, After(task, l, freed, vm))
  {
    match l
    case SaveTask(_) =>
    case HandOver(_) =>
    case DropMark(_) =>
    case PickUp(_) =>
    case FailMark(_) =>
    case MarkTodo(_) =>
    case SaveLog(_) =>
    case MarkSrc(_) =>
    case FinishTask(_, _) =>
    case CleanMark(_) =>
    case CleanDone(_) =>
    case Crash(_) =>
    case _ =>
  }

  /** Only the counters and task `t` changed, and the task counts on the VM no more than before. */
  ghost predicate TaskRowStep(s: State, s': State, t: nat) {
    && t in s.tasks && t in s'.tasks && s' == s.(hosts := s'.hosts, tasks := s.tasks[t := s'.tasks[t]]) && Fixed(s, s')
    && s'.tasks[t].vm == s.tasks[t].vm && s'.tasks[t].src == s.tasks[t].src && s'.tasks[t].dst == s.tasks[t].dst
    && s'.tasks[t].vcpu == s.tasks[t].vcpu && s'.tasks[t].mem == s.tasks[t].mem
    && FlagsOk(s'.tasks[t]) && StatusOk(s'.tasks[t])
    && (s'.tasks[t].Expecting() ==> s.tasks[t].Expecting())
    && (s'.tasks[t].Measured() ==> s.tasks[t].Measured())
    && (s'.tasks[t].Expecting() && s'.tasks[t].status == InProcess ==>
          s.tasks[t].status == InProcess || s.tasks[t].vm in s.vms)
  }

  lemma TaskRowShape(s: State, s': State, t: nat)
    requires Shape(s) && TaskRowStep(s, s', t)
    ensures Shape(s') && (AddressesOk(s) ==> AddressesOk(s'))
  {
    assert TaskOk(s, t);
    TaskStepShape(s, s', t);
    if AddressesOk(s) { AddressesSame(s, s', s.tasks[t].vm); }
  }

  lemma MarkKeeps(s: State, l: Label, t: nat)
    requires Inv(s) && TaskNext(s, l, t).Some? && OnlyMarks(l)
    ensures Inv(TaskNext(s, l, t).value)
  {
    var v := s.tasks[t].vm;
    assert TaskOk(s, t) && RowOk(s, v);
    MarksOk(s.tasks[t], l, RowOf(s, v));
    MarksOweTheSame(s.tasks[t], l, false, RowOf(s, v));
    MarkedKeeps(s, t, After(s.tasks[t], l, false, RowOf(s, v)));
  }

  lemma MarkedKeeps(s: State, t: nat, task: Task)
    requires Inv(s) && t in s.tasks && TaskRowStep(s, WithTask(s, t, task), t) && SameDebt(s.tasks[t], task)
    ensures Inv(WithTask(s, t, task))
  {
    TaskRowShape(s, WithTask(s, t, task), t);
    Rebalance(s, WithTask(s, t, task), task.vm, t);
  }

  /** The one host that a step touches moves by as much as the task owes less, or more, to it. */
  lemma TouchedKeeps(s: State, t: nat, task: Task, h: nat, row: Host)
    requires Inv(s) && t in s.tasks && h in s.hosts
    requires TaskRowStep(s, WithTask(WithHost(s, h, row), t, task), t)
    requires row.WithinTotals()
    requires var s' := WithTask(WithHost(s, h, row), t, task);
      && (forall k: nat, d | k != h :: ChargeOf(s', DstOwner(t)).On(k, d) == ChargeOf(s, DstOwner(t)).On(k, d)
                                       && ChargeOf(s', SrcOwner(t)).On(k, d) == ChargeOf(s, SrcOwner(t)).On(k, d))
      && Shifted(s, s', task.vm, t, h)
    ensures Inv(WithTask(WithHost(s, h, row), t, task))
  {
    var s' := WithTask(WithHost(s, h, row), t, task);
    TaskRowShape(s, s', t);
    forall k | k in s.hosts ensures Shifted(s, s', task.vm, t, k) {
      if k != h { assert ChargeOf(s', VmOwner(task.vm)) == ChargeOf(s, VmOwner(task.vm)); }
    }
    Rebalance(s, s', task.vm, t);
  }

  lemma CountKeeps(s: State, l: Label, t: nat)
    requires Inv(s) && TaskNext(s, l, t).Some? && (l.CountDst? || l.UncountSrc?)
    ensures Inv(TaskNext(s, l, t).value)
  {
    if l.CountDst? { CountDstKeeps(s, t); } else { UncountSrcKeeps(s, t); }
  }

  lemma CountDstKeeps(s: State, t: nat)
    requires Inv(s) && t in s.tasks && Ready(s.tasks[t], CountDst(t)) && s.tasks[t].dst in s.hosts
    ensures Inv(WithTask(Counted(s, s.tasks[t].dst, 1), t, s.tasks[t].(dstCounted := true)))
  {
    var task := s.tasks[t];
    assert TaskOk(s, t) && BookOk(s, task.dst);
    TouchedKeeps(s, t, task.(dstCounted := true), task.dst, s.hosts[task.dst].CountBy(1));
  }

  lemma UncountSrcKeeps(s: State, t: nat)
    requires Inv(s) && t in s.tasks && Ready(s.tasks[t], UncountSrc(t)) && s.tasks[t].src in s.hosts
    ensures Inv(WithTask(Counted(s, s.tasks[t].src, -1), t, s.tasks[t].(srcUndefined := true, srcUncounted := true)))
  {
    var task := s.tasks[t];
    assert TaskOk(s, t) && BookOk(s, task.src);
    TouchedKeeps(s, t, task.(srcUndefined := true, srcUncounted := true), task.src, s.hosts[task.src].CountBy(-1));
  }

  lemma SwitchKeeps(s: State, l: Label, t: nat)
    requires Inv(s) && TaskNext(s, l, t).Some? && l.SwitchHost? && !s.tasks[t].dstTaken
    ensures Inv(TaskNext(s, l, t).value)
  {
    assert TaskOk(s, t);
    SwitchedKeeps(s, t);
  }

  /** The row of the VM names the destination, and the task knows. */
  function Switched(s: State, t: nat): State
    requires t in s.tasks && s.tasks[t].vm in s.vms
  {
    var task := s.tasks[t];
    WithTask(s.(vms := s.vms[task.vm := s.vms[task.vm].(host := Some(task.dst))]), t, task.(switched := true))
  }

  lemma SwitchedKeeps(s: State, t: nat)
    requires Inv(s) && t in s.tasks && s.tasks[t].Expecting() && s.tasks[t].worker == Running
    requires s.tasks[t].status == Unmoved(s.tasks[t]) && s.tasks[t].vm in s.vms
    ensures Inv(Switched(s, t))
  {
    var s' := Switched(s, t);
    var v := s.tasks[t].vm;
    assert TaskOk(s, t) && RowOk(s, v);
    NotMounted(s, v);
    TaskStepShape(s, s', t);
    AddressesSame(s, s', v);
    Rebalance(s, s', v, t);
  }

  // ---------- releases ----------

  /** How much a release takes off. */
  function SizeOf(s: State, l: Label, t: nat): (int, int)
    requires t in s.tasks
  {
    var task, vm := s.tasks[t], RowOf(s, s.tasks[t].vm);
    if ReadsRow(task, l) && vm.Some? then (vm.value.vcpu, vm.value.mem) else (task.knownVcpu, task.knownMem)
  }

  /** No release, harmful or not, is ever refused. */
  lemma LetThrough(s: State, l: Label, t: nat)
    requires Inv(s) && TaskNext(s, l, t).Some? && Releases(l)
    ensures HostOf(s.tasks[t], l).Some? && HostOf(s.tasks[t], l).value in s.hosts
    ensures SizeOf(s, l, t).0 > 0 && SizeOf(s, l, t).1 > 0 && LetsThrough(s, l, t)
    ensures var row := s.hosts[HostOf(s.tasks[t], l).value];
      Touched(row, s.tasks[t], l, RowOf(s, s.tasks[t].vm))
      == Some(row.(vcpu := row.vcpu - SizeOf(s, l, t).0, mem := row.mem - SizeOf(s, l, t).1))
  {
    assert TaskOk(s, t) && RowOk(s, s.tasks[t].vm);
    var h := HostOf(s.tasks[t], l).value;
    assert Touched(s.hosts[h], s.tasks[t], l, RowOf(s, s.tasks[t].vm))
           == s.hosts[h].Free(SizeOf(s, l, t).0, SizeOf(s, l, t).1);
    NeverRefused(s, h, SizeOf(s, l, t));
  }

  /** It takes its size off one host and changes no other. */
  lemma ReleaseIsReal(s: State, l: Label, t: nat)
    requires Inv(s) && TaskNext(s, l, t).Some? && Releases(l)
    ensures HostOf(s.tasks[t], l).Some? && HostOf(s.tasks[t], l).value in s.hosts && LetsThrough(s, l, t)
    ensures SizeOf(s, l, t).0 > 0 && SizeOf(s, l, t).1 > 0
    ensures TaskNext(s, l, t).value == Freed(s, t, HostOf(s.tasks[t], l).value, SizeOf(s, l, t),
                                             After(s.tasks[t], l, true, RowOf(s, s.tasks[t].vm)))
  {
    LetThrough(s, l, t);
  }

  function Freed(s: State, t: nat, h: nat, size: (int, int), task: Task): State
    requires h in s.hosts
  {
    WithTask(WithHost(s, h, s.hosts[h].(vcpu := s.hosts[h].vcpu - size.0, mem := s.hosts[h].mem - size.1)), t, task)
  }

  lemma NeverRefused(s: State, h: nat, size: (int, int))
    requires Books(s) && h in s.hosts && size.0 > 0 && size.1 > 0
    ensures s.hosts[h].Free(size.0, size.1)
            == Some(s.hosts[h].(vcpu := s.hosts[h].vcpu - size.0, mem := s.hosts[h].mem - size.1))
  {
    assert BookOk(s, h);
  }

  /** A first release takes off what was claimed. */
  lemma ReleaseAsClaimed(s: State, l: Label, t: nat)
    requires Inv(s) && TaskNext(s, l, t).Some? && Releases(l) && !Repeats(s, l) && TaskOf(l) == Some(t)
    ensures SizeOf(s, l, t) == (s.tasks[t].vcpu, s.tasks[t].mem)
    ensures ChargeOf(s, if l.DropFree? || l.FailFree? then DstOwner(t) else SrcOwner(t))
            == Charge(HostOf(s.tasks[t], l).value, s.tasks[t].vcpu, s.tasks[t].mem,
                      if l.DropFree? || l.FailFree? || s.tasks[t].srcUncounted then 0 else 1)
    ensures !s.tasks[t].dstTaken && !s.tasks[t].srcTaken
  {
    assert TaskOk(s, t);
  }

  lemma ReleaseOk(task: Task, l: Label, vm: Option<Vm>)
    requires FlagsOk(task) && StatusOk(task) && Ready(task, l) && Releases(l) && !task.dstTaken && !task.srcTaken
    ensures FlagsOk(After(task, l, true, vm)) && StatusOk(After(task, l, true, vm))
    ensures !After(task, l, true, vm).Expecting() && !After(task, l, true, vm).Measured()
  {
  }

  lemma ReleaseKeeps(s: State, l: Label, t: nat)
    requires Inv(s) && TaskNext(s, l, t).Some? && Releases(l) && !Repeats(s, l) && TaskOf(l) == Some(t)
    ensures Inv(TaskNext(s, l, t).value)
  {
    assert TaskOk(s, t);
    ReleaseIsReal(s, l, t);
    ReleaseAsClaimed(s, l, t);
    ReleaseOk(s.tasks[t], l, RowOf(s, s.tasks[t].vm));
    ReleasedKeeps(s, t, After(s.tasks[t], l, true, RowOf(s, s.tasks[t].vm)), l.DropFree? || l.FailFree?);
  }

  /** The claim on the destination, or else the share of the source, was given back. */
  lemma ReleasedKeeps(s: State, t: nat, task: Task, ofDst: bool)
    requires Inv(s) && t in s.tasks && !s.tasks[t].dstTaken && !s.tasks[t].srcTaken && s.tasks[t].switched == !ofDst
    requires task == s.tasks[t].(worker := task.worker, freeTried := task.freeTried,
                                 dstTaken := ofDst, srcTaken := !ofDst)
    requires FlagsOk(task) && StatusOk(task) && !task.Expecting() && !task.Measured()
    requires s.tasks[t].src in s.hosts && s.tasks[t].dst in s.hosts
    ensures var h := if ofDst then task.dst else task.src;
      Inv(WithTask(WithHost(s, h, s.hosts[h].(vcpu := s.hosts[h].vcpu - task.vcpu, mem := s.hosts[h].mem - task.mem)),
                   t, task))
  {
    var h := if ofDst then task.dst else task.src;
    assert TaskOk(s, t);
    ReleaseSucceeds(s, if ofDst then DstOwner(t) else SrcOwner(t));
    ReleasedCharges(s, t, task, ofDst);
    TouchedKeeps(s, t, task, h, s.hosts[h].(vcpu := s.hosts[h].vcpu - task.vcpu, mem := s.hosts[h].mem - task.mem));
  }

  lemma ReleasedCharges(s: State, t: nat, task: Task, ofDst: bool)
    requires t in s.tasks && !s.tasks[t].dstTaken && !s.tasks[t].srcTaken && s.tasks[t].switched == !ofDst
    requires task == s.tasks[t].(worker := task.worker, freeTried := task.freeTried,
                                 dstTaken := ofDst, srcTaken := !ofDst)
    ensures forall hosts :: var s' := WithTask(s.(hosts := hosts), t, task); var was := s.tasks[t];
      && ChargeOf(s', VmOwner(task.vm)) == ChargeOf(s, VmOwner(task.vm))
      && (ofDst ==> && ChargeOf(s, DstOwner(t)) == Charge(task.dst, task.vcpu, task.mem, 0)
                    && ChargeOf(s', DstOwner(t)) == NOTHING && ChargeOf(s', SrcOwner(t)) == ChargeOf(s, SrcOwner(t)))
      && (!ofDst ==> && ChargeOf(s', DstOwner(t)) == ChargeOf(s, DstOwner(t))
                     && ChargeOf(s', SrcOwner(t)) == ChargeOf(s, SrcOwner(t)).(vcpu := 0, mem := 0))
  {
  }

  lemma TaskKeeps(s: State, l: Label, t: nat)
    requires Inv(s) && TaskNext(s, l, t).Some? && TaskOf(l) == Some(t) && !l.ClaimDst? && !Repeats(s, l)
    ensures Inv(TaskNext(s, l, t).value)
  {
    if Releases(l) {
      ReleaseKeeps(s, l, t);
    } else if l.SwitchHost? {
      SwitchKeeps(s, l, t);
    } else if l.CountDst? || l.UncountSrc? {
      CountKeeps(s, l, t);
    } else {
      MarkKeeps(s, l, t);
    }
  }

  // ---------- addresses and devices ----------

  lemma ReserveAttachKeeps(s: State, v: nat, ip: nat)
    requires Inv(s) && ReserveAttachStep(s, v, ip).Some?
    ensures Inv(ReserveAttachStep(s, v, ip).value)
  {
    var s' := ReserveAttachStep(s, v, ip).value;
    OtherStepShape(s, s');
    AddressTaken(s, s', v, ip);
  }

  lemma SaveAttachKeeps(s: State, ip: nat)
    requires Inv(s) && SaveAttachStep(s, ip).Some?
    ensures Inv(SaveAttachStep(s, ip).value)
  {
    var s' := SaveAttachStep(s, ip).value;
    OtherStepShape(s, s');
    AddressesSame(s, s', 0);
  }

  lemma FreeAttachKeeps(s: State, ip: nat)
    requires Inv(s) && FreeAttachStep(s, ip).Some?
    ensures Inv(FreeAttachStep(s, ip).value)
  {
    var s' := FreeAttachStep(s, ip).value;
    OtherStepShape(s, s');
    AddressFreed(s, s', s.attached[ip].vm, ip);
  }

  lemma DropAttachKeeps(s: State, ip: nat)
    requires Inv(s) && DropAttachStep(s, ip).Some?
    ensures Inv(DropAttachStep(s, ip).value)
  {
    var s' := DropAttachStep(s, ip).value;
    OtherStepShape(s, s');
    AddressesSame(s, s', 0);
  }

  lemma MountDeviceKeeps(s: State, v: nat, dev: nat)
    requires Inv(s) && MountDeviceStep(s, v, dev).Some? && !Expected(s, v)
    ensures Inv(MountDeviceStep(s, v, dev).value)
  {
    var s' := MountDeviceStep(s, v, dev).value;
    OtherStepShape(s, s');
    AddressesSame(s, s', v);
  }

  lemma UmountDeviceKeeps(s: State, dev: nat)
    requires Inv(s) && UmountDeviceStep(s, dev).Some?
    ensures Inv(UmountDeviceStep(s, dev).value)
  {
    var s' := UmountDeviceStep(s, dev).value;
    OtherStepShape(s, s');
    AddressesSame(s, s', 0);
  }
}
