/** What holds of whole runs. */
module Runs {
  // Each claim is released once, tasks only move forward, a VM is not disturbed by steps of other VMs,
  // and what recounting a host does to all that.

  import opened Tables
  import opened Ledger
  import opened Protocol
  import opened ProtocolInv
  import opened StepKeeps
  import opened Keeps

  // ---------- what a step does to one task ----------

  lemma TaskForm(s: State, l: Label, t: nat)
    requires TaskNext(s, l, t).Some?
    ensures var s' := TaskNext(s, l, t).value; var task := s.tasks[t];
      && s'.tasks == s.tasks[t := TaskAfter(s, l, t)] && Ready(task, l)
      && s'.ops == s.ops && s'.vms.Keys == s.vms.Keys
          && (forall w | w in s.vms && w != task.vm :: s'.vms[w] == s.vms[w])
  {
  }

  lemma TaskNextOf(s: State, l: Label, t: nat)
    requires Next(s, l).Some? && TaskOf(l) == Some(t) && !l.ClaimDst?
    ensures TaskNext(s, l, t) == Next(s, l)
  {
  }

  lemma OtherTasksKept(s: State, l: Label, t: nat)
    requires Next(s, l).Some? && TaskOf(l) != Some(t)
    ensures var s' := Next(s, l).value;
            (t in s'.tasks <==> t in s.tasks) && (t in s.tasks ==> s'.tasks[t] == s.tasks[t])
  {
    if TaskOf(l).Some? && !l.ClaimDst? {
      TaskNextOf(s, l, TaskOf(l).value);
      TaskForm(s, l, TaskOf(l).value);
    } else if TaskOf(l).None? {
      TasksKept(s, l);
    }
  }

  lemma TasksKept(s: State, l: Label)
    requires Next(s, l).Some? && TaskOf(l).None?
    ensures Next(s, l).value.tasks == s.tasks
  {
    if OfStarting(l) { StartingTasksKept(s, l); }
  }

  lemma StartingTasksKept(s: State, l: Label)
    requires Next(s, l).Some? && OfStarting(l)
    ensures Next(s, l).value.tasks == s.tasks
  {
  }

  /** Step `l` gives the destination claim of task `t` back to its host. */
  predicate FreesDst(l: Label, t: nat) { l == DropFree(t) || l == FailFree(t) }

  /** Step `l` gives the source charge of task `t` back to its host. */
  predicate FreesSrc(l: Label, t: nat) { l == FreeSrc(t) || l == CleanFree(t) }

  lemma TakenByRelease(task: Task, l: Label, t: nat, vm: Option<Vm>)
    requires FlagsOk(task) && StatusOk(task) && Ready(task, l) && TaskOf(l) == Some(t) && Releases(l)
    ensures After(task, l, true, vm).dstTaken <==> task.dstTaken || FreesDst(l, t)
    ensures After(task, l, true, vm).srcTaken <==> task.srcTaken || FreesSrc(l, t)
    ensures FreesDst(l, t) && task.dstTaken ==> l.FailFree?
    ensures FreesSrc(l, t) && task.srcTaken ==> l.CleanFree?
  {
  }

  lemma TakenOtherwise(task: Task, l: Label, freed: bool, vm: Option<Vm>)
    requires TaskOf(l).Some? && !l.ClaimDst? && !Releases(l)
    ensures After(task, l, freed, vm).dstTaken == task.dstTaken && After(task, l, freed, vm).srcTaken == task.srcTaken
  {
    if !l.SwitchHost? && !l.CountDst? && !l.UncountSrc? { MarksOweTheSame(task, l, freed, vm); }
  }

  lemma ReleasesOfTask(s: State, l: Label, t: nat)
    requires Inv(s) && TaskNext(s, l, t).Some? && TaskOf(l) == Some(t) && !l.ClaimDst?
    ensures TaskAfter(s, l, t).dstTaken <==> s.tasks[t].dstTaken || FreesDst(l, t)
    ensures TaskAfter(s, l, t).srcTaken <==> s.tasks[t].srcTaken || FreesSrc(l, t)
    ensures FreesDst(l, t) && s.tasks[t].dstTaken <==> l.FailFree? && Repeats(s, l)
    ensures FreesSrc(l, t) && s.tasks[t].srcTaken <==> l.CleanFree? && Repeats(s, l)
  {
    assert TaskOk(s, t);
    if Releases(l) {
      LetThrough(s, l, t);
      TakenByRelease(s.tasks[t], l, t, RowOf(s, s.tasks[t].vm));
    } else {
      TakenOtherwise(s.tasks[t], l, LetsThrough(s, l, t), RowOf(s, s.tasks[t].vm));
    }
  }

  /** A release by a task is never refused, so what was taken is what was tried; and it is one
      too many exactly when the step repeats one. */
  lemma ReleasesOfStep(s: State, l: Label, t: nat)
    requires Inv(s) && Next(s, l).Some? && TaskOf(l) == Some(t)
    ensures var s' := Next(s, l).value;
      && t in s'.tasks
      && (t !in s.tasks ==> !FreesDst(l, t) && !FreesSrc(l, t) && !s'.tasks[t].dstTaken && !s'.tasks[t].srcTaken)
      && (t in s.tasks ==>
           && (s'.tasks[t].dstTaken <==> s.tasks[t].dstTaken || FreesDst(l, t))
           && (s'.tasks[t].srcTaken <==> s.tasks[t].srcTaken || FreesSrc(l, t))
           && (FreesDst(l, t) && s.tasks[t].dstTaken <==> l.FailFree? && Repeats(s, l))
           && (FreesSrc(l, t) && s.tasks[t].srcTaken <==> l.CleanFree? && Repeats(s, l)))
  {
    if !l.ClaimDst? {
      TaskNextOf(s, l, t);
      ReleasesOfTask(s, l, t);
    }
  }

  // ---------- released exactly once ----------

  function Bit(b: bool): nat { if b then 1 else 0 }

  /** How often a run gives back the destination claim of task `t`. */
  function DstReleases(ls: seq<Label>, t: nat): nat {
    if ls == [] then 0
    else DstReleases(ls[..|ls| - 1], t) + Bit(FreesDst(ls[|ls| - 1], t))
  }

  /** How often a run gives back the source charge of task `t`. */
  function SrcReleases(ls: seq<Label>, t: nat): nat {
    if ls == [] then 0
    else SrcReleases(ls[..|ls| - 1], t) + Bit(FreesSrc(ls[|ls| - 1], t))
  }

  /** As often as the charges of task `t` are gone in state `s`. */
  predicate CountedAs(s: State, t: nat, dst: nat, src: nat) {
    dst == Bit(t in s.tasks && s.tasks[t].dstTaken) && src == Bit(t in s.tasks && s.tasks[t].srcTaken)
  }

  lemma CountedStep(s: State, l: Label, t: nat, dst: nat, src: nat)
    requires Inv(s) && Next(s, l).Some? && CountedAs(s, t, dst, src) && !Repeats(s, l)
    ensures CountedAs(Next(s, l).value, t, dst + Bit(FreesDst(l, t)), src + Bit(FreesSrc(l, t)))
  {
    if TaskOf(l) == Some(t) { ReleasesOfStep(s, l, t); } else { OtherTasksKept(s, l, t); }
  }

  /** Along every harmless run that contains the whole life of a task, its destination claim and
      its source charge were given back as often as they are gone: once or never. */
  lemma {:induction false} ReleasedAsTaken(s0: State, ls: seq<Label>, t: nat)
    requires Inv(s0) && t !in s0.tasks && Exec(s0, ls).Some? && Harmless(s0, ls)
    ensures CountedAs(Exec(s0, ls).value, t, DstReleases(ls, t), SrcReleases(ls, t))
    decreases |ls|
  {
    if ls == [] {
    } else {
      var before, l := ls[..|ls| - 1], ls[|ls| - 1];
      ReleasedAsTaken(s0, before, t);
      ExecKeeps(s0, before);
      CountedStep(Exec(s0, before).value, l, t, DstReleases(before, t), SrcReleases(before, t));
    }
  }

  /** After a harmless run, one more step gives something back a second time if and only if it
      repeats a release: of a claim that was given back without a record. */
  lemma {:induction false} ReleasedTwiceExactly(s0: State, ls: seq<Label>, l: Label, t: nat)
    requires Inv(s0) && t !in s0.tasks && Harmless(s0, ls) && Exec(s0, ls).Some?
    requires Next(Exec(s0, ls).value, l).Some? && TaskOf(l) == Some(t)
    ensures DstReleases(ls + [l], t) == 2 <==> l.FailFree? && Repeats(Exec(s0, ls).value, l)
    ensures SrcReleases(ls + [l], t) == 2 <==> l.CleanFree? && Repeats(Exec(s0, ls).value, l)
  {
    assert (ls + [l])[..|ls|] == ls;
    ReleasedAsTaken(s0, ls, t);
    ExecKeeps(s0, ls);
    ReleasesOfStep(Exec(s0, ls).value, l, t);
  }

  /** FAILED: the destination was given back once, the source never. COMPLETE (for a static
      task: after its thread is done): the source once, the destination never. */
  ghost predicate GivenBackOnce(task: Task, dst: nat, src: nat) {
    && (task.status == Failed ==> dst == 1 && src == 0)
    && (task.status == Complete && (task.tag == Live || task.worker == Resting) ==> dst == 0 && src == 1)
    && dst + src <= 1
  }

  /** For every run without a harmful step. */
  lemma {:induction false} ReleasedExactlyOnce(s0: State, ls: seq<Label>, t: nat)
    requires Inv(s0) && t !in s0.tasks && Exec(s0, ls).Some? && Harmless(s0, ls) && t in Exec(s0, ls).value.tasks
    ensures GivenBackOnce(Exec(s0, ls).value.tasks[t], DstReleases(ls, t), SrcReleases(ls, t))
  {
    ReleasedAsTaken(s0, ls, t);
    ExecKeeps(s0, ls);
    assert TaskOk(Exec(s0, ls).value, t);
  }

  // ---------- releases without a record ----------

  /** A thread dies, or the migration thread slips in, after a release and before the record that
      would keep others from repeating it. */
  predicate LosesRecord(s: State, l: Label) {
    && (l.Crash? || l.PickUp?)
    && l.t in s.tasks && s.tasks[l.t].InWindow()
  }

  /** No record is lost in the run, and no VM is taken away, resized or tied down while a migration
      counts on it. */
  predicate Careful(s: State, ls: seq<Label>)
    decreases |ls|
  {
    ls == [] || (Careful(s, ls[..|ls| - 1]) && Exec(s, ls[..|ls| - 1]).Some?
                 && !LosesRecord(Exec(s, ls[..|ls| - 1]).value, ls[|ls| - 1])
                 && !Careless(Exec(s, ls[..|ls| - 1]).value, ls[|ls| - 1]))
  }

  /** The stored row still asks for a release that was made, and nobody is about to correct that. */
  predicate Damaged(task: Task) {
    || (task.dstTaken && ((task.status == Waiting && task.worker == Crashed)
                          || (task.status == InProcess && task.worker == Running)))
    || (task.srcTaken && !task.srcFree && task.status == SomeTodo && task.worker == Crashed)
  }

  ghost predicate Whole(s: State) { forall t | t in s.tasks :: !Damaged(s.tasks[t]) }

  lemma StaysUndamaged(task: Task, l: Label, freed: bool, vm: Option<Vm>)
    requires FlagsOk(task) && StatusOk(task) && Ready(task, l) && !Damaged(task) && (Releases(l) ==> freed)
    requires !((l.Crash? || l.PickUp?) && task.InWindow())
    ensures !Damaged(After(task, l, freed, vm))
    ensures (l.FailFree? || l.SwitchHost? ==> !task.dstTaken) && (l.CleanFree? ==> !task.srcTaken)
  {
  }

  lemma TaskStaysUndamaged(s: State, l: Label, t: nat)
    requires Inv(s) && TaskNext(s, l, t).Some? && TaskOf(l) == Some(t) && !Damaged(s.tasks[t]) && !LosesRecord(s, l)
    ensures !Repeats(s, l) && !Damaged(TaskAfter(s, l, t))
  {
    assert TaskOk(s, t);
    if Releases(l) { LetThrough(s, l, t); }
    StaysUndamaged(s.tasks[t], l, LetsThrough(s, l, t), RowOf(s, s.tasks[t].vm));
  }

  lemma StaysWhole(s: State, l: Label)
    requires Inv(s) && Whole(s) && Next(s, l).Some? && !LosesRecord(s, l) && !Careless(s, l)
    ensures !Harmful(s, l) && Whole(Next(s, l).value)
  {
    if TaskOf(l).Some? && !l.ClaimDst? {
      TaskNextOf(s, l, TaskOf(l).value);
      TaskStaysWhole(s, l, TaskOf(l).value);
    } else if l.ClaimDst? {
      NewTaskUndamaged(s, l);
    } else {
      TasksKept(s, l);
    }
  }

  lemma TaskStaysWhole(s: State, l: Label, t: nat)
    requires Inv(s) && Whole(s) && TaskNext(s, l, t).Some? && TaskOf(l) == Some(t) && !l.ClaimDst? && !LosesRecord(s, l)
    ensures !Repeats(s, l) && Whole(TaskNext(s, l, t).value)
  {
    TaskForm(s, l, t);
    TaskStaysUndamaged(s, l, t);
  }

  lemma NewTaskUndamaged(s: State, l: Label)
    requires Whole(s) && Next(s, l).Some? && l.ClaimDst?
    ensures Whole(Next(s, l).value)
  {
  }

  /** Threads may die anywhere else: then no run is harmful, and every claim is released once. */
  lemma {:induction false} CarefulRunsAreHarmless(s: State, ls: seq<Label>)
    requires Inv(s) && Whole(s) && Exec(s, ls).Some? && Careful(s, ls)
    ensures Harmless(s, ls) && Whole(Exec(s, ls).value)
    decreases |ls|
  {
    if ls == [] {
    } else {
      CarefulRunsAreHarmless(s, ls[..|ls| - 1]);
      ExecKeeps(s, ls[..|ls| - 1]);
      StaysWhole(Exec(s, ls[..|ls| - 1]).value, ls[|ls| - 1]);
    }
  }

  /** The next request that handles the task. */
  function NextHandling(task: Task, t: nat): Label { if task.status == Waiting then FailFree(t) else CleanFree(t) }

  /** After a death in a window the invariant still holds. But the next request that handles the
      task, if the VM is still there, breaks it. */
  lemma DeathInWindowHarms(s: State, t: nat)
    requires Inv(s) && t in s.tasks && s.tasks[t].InWindow() && s.tasks[t].vm in s.vms
    ensures TaskNext(s, Crash(t), t).Some? && Inv(TaskNext(s, Crash(t), t).value)
    ensures var dead := TaskNext(s, Crash(t), t).value; var l := NextHandling(s.tasks[t], t);
      TaskNext(dead, l, t).Some? && !Books(TaskNext(dead, l, t).value)
  {
    assert TaskOk(s, t);
    MarkForm(s, Crash(t), t);
    MarkKeeps(s, Crash(t), t);
    NextHandlingHarms(WithTask(s, t, s.tasks[t].(worker := Crashed)), t);
  }

  lemma NextHandlingHarms(s: State, t: nat)
    requires Inv(s) && t in s.tasks && s.tasks[t].worker == Crashed && s.tasks[t].vm in s.vms
    requires (s.tasks[t].status == Waiting && s.tasks[t].dstTaken)
             || (s.tasks[t].status == SomeTodo && s.tasks[t].srcTaken && !s.tasks[t].srcFree)
    ensures var l := NextHandling(s.tasks[t], t); TaskNext(s, l, t).Some? && !Books(TaskNext(s, l, t).value)
  {
    assert TaskOk(s, t);
    RepeatHarms(s, NextHandling(s.tasks[t], t), t);
  }

  /** A thread that picks up a task whose claim was given back does harm, whether its migration
      works or not. */
  lemma PickUpHarms(s: State, t: nat)
    requires Inv(s) && t in s.tasks && s.tasks[t].status == Waiting && s.tasks[t].dstTaken && s.tasks[t].vm in s.vms
    ensures TaskNext(s, PickUp(t), t).Some? && Inv(TaskNext(s, PickUp(t), t).value)
    ensures var s1 := TaskNext(s, PickUp(t), t).value;
      && TaskNext(s1, FailFree(t), t).Some? && !Books(TaskNext(s1, FailFree(t), t).value)
      && TaskNext(s1, SwitchHost(t), t).Some? && !Books(TaskNext(s1, SwitchHost(t), t).value)
  {
    MarkKeeps(s, PickUp(t), t);
    assert TaskOk(s, t);
    PickedUpHarms(TaskNext(s, PickUp(t), t).value, t);
  }

  lemma PickedUpHarms(s: State, t: nat)
    requires Inv(s) && t in s.tasks && s.tasks[t].status == InProcess && s.tasks[t].worker == Running
        && s.tasks[t].dstTaken
    ensures TaskNext(s, FailFree(t), t).Some? && !Books(TaskNext(s, FailFree(t), t).value)
    ensures TaskNext(s, SwitchHost(t), t).Some? && !Books(TaskNext(s, SwitchHost(t), t).value)
  {
    assert TaskOk(s, t);
    RepeatHarms(s, FailFree(t), t);
    SwitchHarms(s, SwitchHost(t), t);
  }

  /** The thread has released the source and died before storing that. */
  function DiedAfterRelease(s: State, t: nat): State
    requires t in s.tasks && s.tasks[t].src in s.hosts
  {
    Freed(s, t, s.tasks[t].src, (s.tasks[t].vcpu, s.tasks[t].mem),
          s.tasks[t].(freeTried := true, srcTaken := true, worker := Crashed))
  }

  lemma MarkForm(s: State, l: Label, t: nat)
    requires t in s.tasks && Ready(s.tasks[t], l) && OnlyMarks(l)
        && (NeedsRow(s.tasks[t], l) ==> s.tasks[t].vm in s.vms)
    ensures TaskNext(s, l, t) == Some(WithTask(s, t, After(s.tasks[t], l, false, RowOf(s, s.tasks[t].vm))))
  {
  }

  lemma ReleaseReached(s: State, t: nat)
    requires Inv(s) && t in s.tasks && s.tasks[t].status == SomeTodo && s.tasks[t].worker == Running
    requires s.tasks[t].srcUncounted && !s.tasks[t].freeTried
    ensures s.tasks[t].src in s.hosts
    ensures var released := Freed(s, t, s.tasks[t].src, (s.tasks[t].vcpu, s.tasks[t].mem),
                                  s.tasks[t].(freeTried := true, srcTaken := true, worker := Marking));
      TaskNext(s, FreeSrc(t), t) == Some(released) && Inv(released)
  {
    assert TaskOk(s, t);
    ReleaseIsReal(s, FreeSrc(t), t);
    ReleaseKeeps(s, FreeSrc(t), t);
  }

  lemma DeathReached(s: State, t: nat)
    requires Inv(s) && t in s.tasks && s.tasks[t].status == SomeTodo && s.tasks[t].worker == Running
    requires s.tasks[t].srcUncounted && !s.tasks[t].freeTried
    ensures s.tasks[t].src in s.hosts && TaskNext(s, FreeSrc(t), t).Some?
    ensures TaskNext(TaskNext(s, FreeSrc(t), t).value, Crash(t), t) == Some(DiedAfterRelease(s, t))
    ensures Inv(DiedAfterRelease(s, t))
  {
    ReleaseReached(s, t);
    ThenDied(s, t, Freed(s, t, s.tasks[t].src, (s.tasks[t].vcpu, s.tasks[t].mem),
                         s.tasks[t].(freeTried := true, srcTaken := true, worker := Marking)));
  }

  lemma ThenDied(s: State, t: nat, released: State)
    requires Inv(released) && t in s.tasks && s.tasks[t].src in s.hosts
    requires released == Freed(s, t, s.tasks[t].src, (s.tasks[t].vcpu, s.tasks[t].mem),
                               s.tasks[t].(freeTried := true, srcTaken := true, worker := Marking))
    ensures TaskNext(released, Crash(t), t) == Some(DiedAfterRelease(s, t)) && Inv(DiedAfterRelease(s, t))
  {
    DeathForm(s, t, released);
    MarkKeeps(released, Crash(t), t);
  }

  lemma DeathForm(s: State, t: nat, released: State)
    requires t in s.tasks && s.tasks[t].src in s.hosts
    requires released == Freed(s, t, s.tasks[t].src, (s.tasks[t].vcpu, s.tasks[t].mem),
                               s.tasks[t].(freeTried := true, srcTaken := true, worker := Marking))
    ensures TaskNext(released, Crash(t), t) == Some(DiedAfterRelease(s, t))
  {
    MarkForm(released, Crash(t), t);
    FreedThen(s, t, s.tasks[t].src, (s.tasks[t].vcpu, s.tasks[t].mem), released.tasks[t],
        DiedAfterRelease(s, t).tasks[t]);
  }

  lemma FreedThen(s: State, t: nat, h: nat, size: (int, int), a: Task, b: Task)
    requires h in s.hosts
    ensures WithTask(Freed(s, t, h, size, a), t, b) == Freed(s, t, h, size, b)
  {
    assert s.tasks[t := a][t := b] == s.tasks[t := b];
  }

  /** The source lost the size of the task twice. */
  function FreedTwice(s: State, t: nat, task: Task): State
    requires t in s.tasks && s.tasks[t].src in s.hosts
  {
    Freed(s, t, s.tasks[t].src, (2 * s.tasks[t].vcpu, 2 * s.tasks[t].mem), task)
  }

  lemma MarkedAgain(s: State, l: Label, t: nat, task: Task)
    requires t in s.tasks && s.tasks[t].src in s.hosts && s.tasks[t].vm in s.vms && task.vm == s.tasks[t].vm
    requires Ready(task, l) && OnlyMarks(l)
    ensures TaskNext(FreedTwice(s, t, task), l, t)
            == Some(FreedTwice(s, t, After(task, l, false, Some(s.vms[task.vm]))))
  {
    var before, after := FreedTwice(s, t, task), After(task, l, false, Some(s.vms[task.vm]));
    MarkForm(before, l, t);
    assert before.tasks[t := after] == s.tasks[t := after];
  }

  /** The migration thread dies between `src_host.free` and storing `src_is_free`. A later request
      then cleans up and stores COMPLETE: the source lost the size of the VM twice. */
  lemma DeathAfterRelease(s: State, t: nat)
    requires Inv(s) && t in s.tasks && s.tasks[t].status == SomeTodo && s.tasks[t].worker == Running
    requires s.tasks[t].srcUncounted && !s.tasks[t].freeTried && s.tasks[t].src in s.hosts && s.tasks[t].vm in s.vms
    ensures var dead := DiedAfterRelease(s, t); var task := dead.tasks[t];
      && Inv(dead)
      && TaskNext(dead, CleanFree(t), t) == Some(FreedTwice(s, t, task.(worker := Cleaning(true))))
      && TaskNext(FreedTwice(s, t, task.(worker := Cleaning(true))), CleanMark(t), t)
         == Some(FreedTwice(s, t, task.(worker := Resting, srcFree := true)))
      && TaskNext(FreedTwice(s, t, task.(worker := Resting, srcFree := true)), CleanDone(t), t)
         == Some(FreedTwice(s, t, task.(worker := Resting, srcFree := true, status := Complete)))
  {
    DeathReached(s, t);
    CleanedAgain(s, t);
    var task := DiedAfterRelease(s, t).tasks[t];
    MarkedAgain(s, CleanMark(t), t, task.(worker := Cleaning(true)));
    assert TaskOk(s, t);
    MarkedAgain(s, CleanDone(t), t, task.(worker := Resting, srcFree := true));
  }

  lemma CleanedAgain(s: State, t: nat)
    requires Inv(s) && t in s.tasks && s.tasks[t].status == SomeTodo && s.tasks[t].worker == Running
    requires !s.tasks[t].freeTried && s.tasks[t].src in s.hosts && s.tasks[t].vm in s.vms
    requires Inv(DiedAfterRelease(s, t))
    ensures TaskNext(DiedAfterRelease(s, t), CleanFree(t), t)
            == Some(FreedTwice(s, t, DiedAfterRelease(s, t).tasks[t].(worker := Cleaning(true))))
  {
    var dead := DiedAfterRelease(s, t);
    assert TaskOk(s, t) && SizeIs(s.vms[s.tasks[t].vm], s.tasks[t]);
    assert Ready(dead.tasks[t], CleanFree(t));
    ReleaseIsReal(dead, CleanFree(t), t);
    var twice := FreedTwice(s, t, dead.tasks[t].(worker := Cleaning(true)));
    assert TaskNext(dead, CleanFree(t), t).value.hosts == twice.hosts;
    assert TaskNext(dead, CleanFree(t), t).value.tasks == twice.tasks;
  }

  // ---------- tasks move forward ----------

  function Phase(task: Task): nat {
    match task.status
    case Draft => 5
    case Waiting => 4
    case InProcess => 3
    case SomeTodo => if task.worker == Running || task.worker == Marking then 2 else 1
    case Complete => if task.worker == Running || task.worker == Marking then 2 else 0
    case Failed => 0
    case Dropped => 0
  }

  /** Decreases with every step that changes the task. */
  function Rank(task: Task): nat {
    2 * Phase(task) + Bit(task.worker.Active())
    + 2 * (Bit(!task.switched) + Bit(!task.dstCounted) + Bit(!task.srcUndefined) + Bit(!task.srcUncounted)
           + Bit(!task.freeTried) + Bit(!task.dstTaken) + Bit(!task.srcTaken) + Bit(!task.srcFree))
  }

  lemma RankAfterRelease(task: Task, l: Label, vm: Option<Vm>)
    requires FlagsOk(task) && StatusOk(task) && Ready(task, l) && Releases(l) && !task.dstTaken && !task.srcTaken
    ensures Rank(After(task, l, true, vm)) < Rank(task)
  {
  }

  lemma RankAfter(task: Task, l: Label, freed: bool, vm: Option<Vm>)
    requires FlagsOk(task) && StatusOk(task) && Ready(task, l) && !Releases(l)
    ensures Rank(After(task, l, freed, vm)) < Rank(task)
  {
  }

  lemma RankOfTask(s: State, l: Label, t: nat)
    requires Inv(s) && TaskNext(s, l, t).Some? && TaskOf(l) == Some(t) && !Repeats(s, l) && !l.ClaimDst?
    ensures Rank(TaskAfter(s, l, t)) < Rank(s.tasks[t])
  {
    assert TaskOk(s, t);
    if Releases(l) {
      LetThrough(s, l, t);
      ReleaseAsClaimed(s, l, t);
      RankAfterRelease(s.tasks[t], l, RowOf(s, s.tasks[t].vm));
    } else {
      RankAfter(s.tasks[t], l, LetsThrough(s, l, t), RowOf(s, s.tasks[t].vm));
    }
  }

  lemma RankFalls(s: State, l: Label, t: nat)
    requires Inv(s) && Next(s, l).Some? && t in s.tasks && !Harmful(s, l)
    ensures var s' := Next(s, l).value;
            t in s'.tasks && (s'.tasks[t] == s.tasks[t] || Rank(s'.tasks[t]) < Rank(s.tasks[t]))
  {
    if TaskOf(l) != Some(t) {
      OtherTasksKept(s, l, t);
    } else {
      TaskNextOf(s, l, t);
      RankOfTask(s, l, t);
    }
  }

  /** How many steps of a run change task `t`. */
  function Changes(s: State, ls: seq<Label>, t: nat): nat
    requires Exec(s, ls).Some?
  {
    if ls == [] then 0
    else
      var s1 := Exec(s, ls[..|ls| - 1]).value;
      var s2 := Next(s1, ls[|ls| - 1]).value;
      Changes(s, ls[..|ls| - 1], t) + Bit(t in s1.tasks && t in s2.tasks && s1.tasks[t] != s2.tasks[t])
  }

  /** However long a harmless run is, it changes a task at most as often as the task's rank. */
  lemma {:induction false} ChangesBounded(s: State, ls: seq<Label>, t: nat)
    requires Inv(s) && t in s.tasks && Exec(s, ls).Some? && Harmless(s, ls)
    ensures t in Exec(s, ls).value.tasks
    ensures Changes(s, ls, t) + Rank(Exec(s, ls).value.tasks[t]) <= Rank(s.tasks[t])
    decreases |ls|
  {
    if ls == [] {
    } else {
      ChangesBounded(s, ls[..|ls| - 1], t);
      ExecKeeps(s, ls[..|ls| - 1]);
      RankFalls(Exec(s, ls[..|ls| - 1]).value, ls[|ls| - 1], t);
    }
  }

  function Order(status: TaskStatus): nat {
    match status
    case Draft => 0
    case Waiting => 1
    case InProcess => 2
    case SomeTodo => 3
    case Complete => 4
    case Failed => 4
    case Dropped => 4
  }

  predicate StoresStatus(l: Label) {
    l.SaveTask? || l.DropMark? || l.PickUp? || l.FailMark? || l.MarkTodo? || l.SaveLog? || l.FinishTask? || l.CleanDone?
  }

  lemma StatusKept(task: Task, l: Label, freed: bool, vm: Option<Vm>)
    requires !StoresStatus(l)
    ensures After(task, l, freed, vm).status == task.status
  {
    match l
    case HandOver(_) =>
    case DropFree(_) =>
    case FailFree(_) =>
    case SwitchHost(_) =>
    case CountDst(_) =>
    case UncountSrc(_) =>
    case FreeSrc(_) =>
    case MarkSrc(_) =>
    case CleanFree(_) =>
    case CleanMark(_) =>
    case Crash(_) =>
    case _ =>
  }

  lemma OrderAfter(task: Task, l: Label, freed: bool, vm: Option<Vm>)
    requires FlagsOk(task) && StatusOk(task) && Ready(task, l)
    ensures Order(After(task, l, freed, vm).status) < Order(task.status)
            <==> task.tag == Static && l.FinishTask? && l.todo && task.status == Complete
    ensures Order(After(task, l, freed, vm).status) == Order(task.status) ==>
              After(task, l, freed, vm).status == task.status
  {
    if !StoresStatus(l) { StatusKept(task, l, freed, vm); }
  }

  /** The stored status moves backwards in exactly one case: a static log is first stored as
      COMPLETE and then ends SOME_TODO. A live task never goes back. */
  lemma StatusForward(s: State, l: Label, t: nat)
    requires Inv(s) && Next(s, l).Some? && t in s.tasks
    ensures var s' := Next(s, l).value;
      t in s'.tasks
      && (Order(s'.tasks[t].status) < Order(s.tasks[t].status)
          <==> s.tasks[t].tag == Static && l == FinishTask(t, true) && s.tasks[t].status == Complete)
      && (Order(s'.tasks[t].status) == Order(s.tasks[t].status) ==> s'.tasks[t].status == s.tasks[t].status)
  {
    if TaskOf(l) != Some(t) {
      OtherTasksKept(s, l, t);
    } else {
      TaskNextOf(s, l, t);
      TaskForm(s, l, t);
      assert TaskOk(s, t);
      OrderAfter(s.tasks[t], l, LetsThrough(s, l, t), RowOf(s, s.tasks[t].vm));
    }
  }

  // ---------- steps of other VMs ----------

  /** The VM whose row, operation, attachments or devices a step is about. */
  function VmOf(s: State, l: Label): Option<nat> {
    match l
    case BeginCreate(v, _, _, _) => Some(v)
    case BeginUnshelve(v, _) => Some(v)
    case ClaimHost(v, _) => Some(v)
    case SaveRow(v) => Some(v)
    case DropRow(v) => Some(v)
    case CountVm(v) => Some(v)
    case DeleteRow(v) => Some(v)
    case BeginShelve(v) => Some(v)
    case ShelveRow(v) => Some(v)
    case UncountVm(v) => Some(v)
    case ReleaseIp(v) => Some(v)
    case ReleaseHost(v) => Some(v)
    case EndOp(v) => Some(v)
    case Resize(v, _, _) => Some(v)
    case ClaimDst(_, v, _, _) => Some(v)
    case ReserveAttach(v, _) => Some(v)
    case SaveAttach(ip) => if ip in s.attached then Some(s.attached[ip].vm) else None
    case FreeAttach(ip) => if ip in s.attached then Some(s.attached[ip].vm) else None
    case DropAttach(ip) => if ip in s.attached then Some(s.attached[ip].vm) else None
    case MountDevice(v, _) => Some(v)
    case UmountDevice(dev) => if dev in s.devices then s.devices[dev].vm else None
    case _ => None
  }

  /** Step `l` is about VM `v`, or about a task of it. */
  predicate Concerns(s: State, l: Label, v: nat) {
    VmOf(s, l) == Some(v) || (TaskOf(l).Some? && TaskOf(l).value in s.tasks && s.tasks[TaskOf(l).value].vm == v)
  }

  /** The two states agree on the row, the operation and the tasks of VM `v`. */
  ghost predicate SameVm(s: State, s': State, v: nat) {
    && (v in s.vms <==> v in s'.vms) && (v in s.vms ==> s'.vms[v] == s.vms[v])
    && (v in s.ops <==> v in s'.ops) && (v in s.ops ==> s'.ops[v] == s.ops[v])
    && (forall t | t in s.tasks && s.tasks[t].vm == v :: t in s'.tasks && s'.tasks[t] == s.tasks[t])
  }

  /** A step concerns the VM that it names, the VM of the task that it names, or the VM that has the
      address or the device; all other steps may come in between. */
  lemma ConcernsOnFields(s: State, l: Label, v: nat)
    ensures TaskOf(l).None? && !l.SaveAttach? && !l.FreeAttach? && !l.DropAttach? && !l.UmountDevice? ==>
      (Concerns(s, l, v) <==> l.v == v)
    ensures TaskOf(l).Some? && !l.ClaimDst? ==>
      (Concerns(s, l, v) <==> TaskOf(l).value in s.tasks && s.tasks[TaskOf(l).value].vm == v)
    ensures l.ClaimDst? && l.t !in s.tasks ==> (Concerns(s, l, v) <==> l.v == v)
    ensures l.SaveAttach? || l.FreeAttach? || l.DropAttach? ==>
      (Concerns(s, l, v) <==> l.ip in s.attached && s.attached[l.ip].vm == v)
    ensures l.UmountDevice? ==> (Concerns(s, l, v) <==> l.dev in s.devices && s.devices[l.dev].vm == Some(v))
  {
  }

  /** Hosts, addresses, devices, and all that belongs to another VM `u`, may be anything afterwards. */
  lemma OthersAreFree(s: State, s': State, v: nat, u: nat, row: Vm, op: Op, t: nat, task: Task)
    requires u != v && task.vm != v && (t in s.tasks ==> s.tasks[t].vm != v)
    requires s'.vms == s.vms[u := row] && s'.ops == s.ops[u := op] && s'.tasks == s.tasks[t := task]
    ensures SameVm(s, s', v)
  {
  }

  lemma Undisturbed(s: State, l: Label, v: nat)
    requires Next(s, l).Some? && !Concerns(s, l, v)
    ensures SameVm(s, Next(s, l).value, v)
  {
    var s' := Next(s, l).value;
    forall t | t in s.tasks && s.tasks[t].vm == v ensures t in s'.tasks && s'.tasks[t] == s.tasks[t] {
      OtherTasksKept(s, l, t);
    }
    RowUndisturbed(s, l, v);
  }

  lemma RowUndisturbed(s: State, l: Label, v: nat)
    requires Next(s, l).Some? && !Concerns(s, l, v)
    ensures var s' := Next(s, l).value;
            && (v in s.vms <==> v in s'.vms) && (v in s.vms ==> s'.vms[v] == s.vms[v])
            && (v in s.ops <==> v in s'.ops) && (v in s.ops ==> s'.ops[v] == s.ops[v])
  {
    if TaskOf(l).Some? {
      TaskStepRows(s, l, v);
    } else if OfAddressOrDevice(l) {
      AddressOrDeviceStep(s, l);
    } else {
      VmStepRows(s, l, v);
      VmStepOps(s, l, v);
    }
  }

  lemma TaskStepRows(s: State, l: Label, v: nat)
    requires Next(s, l).Some? && TaskOf(l).Some? && !Concerns(s, l, v)
    ensures var s' := Next(s, l).value;
            s'.ops == s.ops && (v in s.vms <==> v in s'.vms) && (v in s.vms ==> s'.vms[v] == s.vms[v])
  {
    if !l.ClaimDst? {
      TaskNextOf(s, l, TaskOf(l).value);
      TaskForm(s, l, TaskOf(l).value);
    }
  }

  lemma AddressOrDeviceStep(s: State, l: Label)
    requires Next(s, l).Some? && OfAddressOrDevice(l)
    ensures Next(s, l).value.vms == s.vms && Next(s, l).value.ops == s.ops
  {
  }

  lemma VmStepRows(s: State, l: Label, v: nat)
    requires Next(s, l).Some? && TaskOf(l).None? && !OfAddressOrDevice(l) && !Concerns(s, l, v)
    ensures var s' := Next(s, l).value; (v in s.vms <==> v in s'.vms) && (v in s.vms ==> s'.vms[v] == s.vms[v])
  {
  }

  lemma VmStepOps(s: State, l: Label, v: nat)
    requires Next(s, l).Some? && TaskOf(l).None? && !OfAddressOrDevice(l) && !Concerns(s, l, v)
    ensures var s' := Next(s, l).value; (v in s.ops <==> v in s'.ops) && (v in s.ops ==> s'.ops[v] == s.ops[v])
  {
    if OfStarting(l) { StartingOps(s, l, v); }
  }

  lemma StartingOps(s: State, l: Label, v: nat)
    requires Next(s, l).Some? && OfStarting(l) && !Concerns(s, l, v)
    ensures var s' := Next(s, l).value; (v in s.ops <==> v in s'.ops) && (v in s.ops ==> s'.ops[v] == s.ops[v])
  {
    if !l.BeginCreate? && !l.BeginUnshelve? { StartedOps(s, l, v); }
  }

  lemma StartedOps(s: State, l: Label, v: nat)
    requires Next(s, l).Some? && (l.ClaimHost? || l.SaveRow? || l.DropRow? || l.CountVm?) && !Concerns(s, l, v)
    ensures var s' := Next(s, l).value; (v in s.ops <==> v in s'.ops) && (v in s.ops ==> s'.ops[v] == s.ops[v])
  {
  }

  // ---------- a task whose VM is gone ----------

  /** The VM was deleted and nobody is at work on the task: a later request that looks for the VM
      of the task finds none. */
  predicate Orphan(s: State, t: nat) {
    t in s.tasks && !s.tasks[t].worker.Active() && s.tasks[t].vm !in s.vms && s.tasks[t].vm !in s.ops
  }

  /** All that can still happen to the task is that its thread looks for the VM and dies. The VM does
      not come back: ids of new VMs are new. */
  lemma OrphanSteps(s: State, l: Label, t: nat)
    requires Orphan(s, t) && Next(s, l).Some?
    ensures TaskOf(l) == Some(t) ==> l.PickUp?
    ensures VmOf(s, l) == Some(s.tasks[t].vm) ==> OfAddressOrDevice(l)
  {
    if TaskOf(l) == Some(t) {
      if !l.ClaimDst? { TaskNextOf(s, l, t); }
    } else if VmOf(s, l) == Some(s.tasks[t].vm) && !OfAddressOrDevice(l) {
      assert HasTask(s, s.tasks[t].vm);
      NotOfNobody(s, l, s.tasks[t].vm);
    }
  }

  /** Nothing starts on a VM that has neither row nor operation, except creating one with a new id. */
  lemma NotOfNobody(s: State, l: Label, v: nat)
    requires VmOf(s, l) == Some(v) && !OfAddressOrDevice(l) && v !in s.vms && v !in s.ops && HasTask(s, v)
    ensures Next(s, l).None?
  {
    if OfStarting(l) { NotStartedForNobody(s, l, v); }
  }

  lemma NotStartedForNobody(s: State, l: Label, v: nat)
    requires VmOf(s, l) == Some(v) && OfStarting(l) && v !in s.vms && v !in s.ops && HasTask(s, v)
    ensures Next(s, l).None?
  {
  }

  lemma OrphanPickedUp(s: State, l: Label, t: nat)
    requires Orphan(s, t) && TaskNext(s, l, t).Some? && l.PickUp?
    ensures Orphan(TaskNext(s, l, t).value, t) && SameDebt(s.tasks[t], TaskNext(s, l, t).value.tasks[t])
  {
  }

  lemma OrphanOwnStep(s: State, l: Label, t: nat)
    requires Orphan(s, t) && Next(s, l).Some? && TaskOf(l) == Some(t)
    ensures l.PickUp? && Orphan(Next(s, l).value, t) && SameDebt(s.tasks[t], Next(s, l).value.tasks[t])
  {
    OrphanSteps(s, l, t);
    TaskNextOf(s, l, t);
    OrphanPickedUp(s, l, t);
  }

  lemma OrphanOtherStep(s: State, l: Label, t: nat)
    requires Orphan(s, t) && Next(s, l).Some? && TaskOf(l) != Some(t)
    ensures Orphan(Next(s, l).value, t) && Next(s, l).value.tasks[t] == s.tasks[t]
  {
    OrphanSteps(s, l, t);
    OtherTasksKept(s, l, t);
    OrphanStaysAway(s, l, t);
  }

  lemma OrphanStaysAway(s: State, l: Label, t: nat)
    requires Orphan(s, t) && Next(s, l).Some? && TaskOf(l) != Some(t)
    requires VmOf(s, l) == Some(s.tasks[t].vm) ==> OfAddressOrDevice(l)
    ensures s.tasks[t].vm !in Next(s, l).value.vms && s.tasks[t].vm !in Next(s, l).value.ops
  {
    if OfAddressOrDevice(l) {
      AddressOrDeviceStep(s, l);
    } else if TaskOf(l).Some? {
      TaskRowsKept(s, l);
    } else {
      RowUndisturbed(s, l, s.tasks[t].vm);
    }
  }

  lemma TaskRowsKept(s: State, l: Label)
    requires Next(s, l).Some? && TaskOf(l).Some?
    ensures Next(s, l).value.vms.Keys == s.vms.Keys && Next(s, l).value.ops == s.ops
  {
    if !l.ClaimDst? {
      TaskNextOf(s, l, TaskOf(l).value);
      TaskForm(s, l, TaskOf(l).value);
    }
  }

  /** Then no run, harmful or not, ever gives anything back that the task still owes. */
  lemma {:induction false} OrphanNeverFreed(s: State, ls: seq<Label>, t: nat)
    requires Orphan(s, t) && Exec(s, ls).Some?
    ensures Orphan(Exec(s, ls).value, t) && SameDebt(s.tasks[t], Exec(s, ls).value.tasks[t])
    ensures DstReleases(ls, t) == 0 && SrcReleases(ls, t) == 0
    decreases |ls|
  {
    if ls == [] {
    } else {
      OrphanNeverFreed(s, ls[..|ls| - 1], t);
      if TaskOf(ls[|ls| - 1]) == Some(t) {
        OrphanOwnStep(Exec(s, ls[..|ls| - 1]).value, ls[|ls| - 1], t);
      } else {
        OrphanOtherStep(Exec(s, ls[..|ls| - 1]).value, ls[|ls| - 1], t);
      }
    }
  }

  /** What all owners but `o` owe to host `h`. */
  ghost function OthersOwe(s: State, o: Owner, h: nat, d: Dim): int {
    SumOver(Owners(s) - {o}, Charges(s), h, d)
  }

  lemma OthersAndOwner(s: State, o: Owner, h: nat, d: Dim)
    requires o in Owners(s)
    ensures Load(Charges(s), h, d) == ChargeOf(s, o).On(h, d) + OthersOwe(s, o, h, d)
  {
    SumSplit(Owners(s), Charges(s), o, h, d);
  }

  /** For every later harmless run, the counters of the host stay above what the remaining owners
      owe, by exactly the size that the task had claimed there. */
  lemma {:induction false} OrphanLeaks(s: State, ls: seq<Label>, t: nat)
    requires Inv(s) && Orphan(s, t) && Exec(s, ls).Some? && Harmless(s, ls)
    ensures var end, task := Exec(s, ls).value, s.tasks[t];
      && (task.switched && !task.srcTaken ==> LeftOver(end, SrcOwner(t), task.src, task))
      && (!task.switched && !task.dstTaken ==> LeftOver(end, DstOwner(t), task.dst, task))
  {
    OrphanNeverFreed(s, ls, t);
    ExecKeeps(s, ls);
    var end, task := Exec(s, ls).value, s.tasks[t];
    assert TaskOk(end, t);
    if task.switched && !task.srcTaken { LeftOverBy(end, SrcOwner(t), task.src, task); }
    if !task.switched && !task.dstTaken { LeftOverBy(end, DstOwner(t), task.dst, task); }
  }

  ghost predicate LeftOver(s: State, o: Owner, h: nat, task: Task) {
    && h in s.hosts
    && s.hosts[h].vcpu == OthersOwe(s, o, h, Vcpu) + task.vcpu
    && s.hosts[h].mem == OthersOwe(s, o, h, Mem) + task.mem
  }

  lemma LeftOverBy(s: State, o: Owner, h: nat, task: Task)
    requires Inv(s) && o in Owners(s) && h in s.hosts
    requires ChargeOf(s, o).host == h && ChargeOf(s, o).vcpu == task.vcpu && ChargeOf(s, o).mem == task.mem
    ensures LeftOver(s, o, h, task)
  {
    OthersAndOwner(s, o, h, Vcpu);
    OthersAndOwner(s, o, h, Mem);
    assert BookOk(s, h);
  }

  // ---------- an operation whose thread is gone ----------

  /** What the tables show of VM `v` is all that its operation holds. */
  predicate ShownByRow(s: State, v: nat)
    requires v in s.ops
  {
    var op := s.ops[v];
    if IsNormal(s, v) then op.charged && op.counted && op.ipHeld
    else !op.charged && !op.counted && !op.ipHeld
  }

  /** When the thread of an operation dies, the next operation on that VM knows only the tables.
      They tell the truth exactly when the operation had changed nothing yet. */
  lemma LostThread(s: State, v: nat)
    requires Inv(s) && v in s.ops
    ensures Inv(s.(ops := s.ops - {v})) <==> ShownByRow(s, v)
  {
    var s' := s.(ops := s.ops - {v});
    var op := s.ops[v];
    assert RowOk(s, v) && OpOk(s, v);
    InOpAlone(s, v);
    forall u | u in s.tasks && s.tasks[u].vm == v ensures RowFits(s', s.tasks[u]) { assert TaskOk(s, u); }
    VmStepShape(s, s', v);
    if ShownByRow(s, v) {
      AddressesSame(s, s', v);
      RebalanceVm(s, s', v);
    } else if IsNormal(s, v) != op.ipHeld {
      AddressLost(s, v);
    } else {
      var h := op.host;
      assert SameGroup(s, op.ip, h) || (!op.charged && !op.counted);
      Unbalanced(s, s', v, 0, h);
    }
  }

  lemma AddressLost(s: State, v: nat)
    requires Inv(s) && v in s.ops && IsNormal(s, v) != s.ops[v].ipHeld
    ensures !AddressOk(s.(ops := s.ops - {v}), s.ops[v].ip)
  {
    var s', ip := s.(ops := s.ops - {v}), s.ops[v].ip;
    assert AddressOk(s, ip) && OpOk(s, v);
    forall w | w != v ensures OwnsIp(s', w, ip) == OwnsIp(s, w, ip) { ApartOwns(s, s', v, w, ip); }
    if s.ops[v].ipHeld {
      assert OwnsIp(s, v, ip) && forall w :: !OwnsIp(s', w, ip);
    } else {
      assert OwnsIp(s', v, ip) && !OwnsIp(s, v, ip);
    }
  }

  // ---------- recounting a host ----------

  /** What the stored NORMAL rows alone put on a host: the recount reads nothing else. */
  function RowCharge(s: State, o: Owner): Charge {
    if o.VmOwner? && IsNormal(s, o.vm) then Charge(s.vms[o.vm].host.value, s.vms[o.vm].vcpu, s.vms[o.vm].mem, 1)
    else NOTHING
  }

  ghost function OpOwners(s: State): set<Owner> { set v | v in s.ops :: VmOwner(v) }
  ghost function IdleOwners(s: State): set<Owner> { set v | v in s.vms.Keys - s.ops.Keys :: VmOwner(v) }
  ghost function TaskOwners(s: State): set<Owner> {
    (set t | t in s.tasks :: DstOwner(t)) + (set t | t in s.tasks :: SrcOwner(t))
  }

  ghost function RowCharges(s: State): map<Owner, Charge> {
    map o | o in IdleOwners(s) + OpOwners(s) :: RowCharge(s, o)
  }

  ghost function RowLoad(s: State, h: nat, d: Dim): int { Load(RowCharges(s), h, d) }

  /** What operations and tasks owe to host `h` beyond what the rows show. */
  ghost function InFlight(s: State, h: nat, d: Dim): int {
    SumOver(OpOwners(s), Charges(s), h, d) - SumOver(OpOwners(s), RowCharges(s), h, d)
    + SumOver(TaskOwners(s), Charges(s), h, d)
  }

  /** The forced recount of one host (the server calls it after a static migration). */
  ghost function Recounted(s: State, h: nat): State
    requires h in s.hosts
  {
    WithHost(s, h, s.hosts[h].(vcpu := RowLoad(s, h, Vcpu), mem := RowLoad(s, h, Mem),
                               vmCreated := RowLoad(s, h, Count)))
  }

  lemma ChargesInThree(s: State, h: nat, d: Dim)
    ensures Load(Charges(s), h, d) == SumOver(IdleOwners(s), Charges(s), h, d) + SumOver(OpOwners(s), Charges(s), h, d)
                                      + SumOver(TaskOwners(s), Charges(s), h, d)
  {
    assert Charges(s).Keys == (IdleOwners(s) + OpOwners(s)) + TaskOwners(s);
    SumUnion(IdleOwners(s) + OpOwners(s), TaskOwners(s), Charges(s), h, d);
    SumUnion(IdleOwners(s), OpOwners(s), Charges(s), h, d);
  }

  lemma RowsInTwo(s: State, h: nat, d: Dim)
    ensures RowLoad(s, h, d) == SumOver(IdleOwners(s), RowCharges(s), h, d) + SumOver(OpOwners(s), RowCharges(s), h, d)
  {
    assert RowCharges(s).Keys == IdleOwners(s) + OpOwners(s);
    SumUnion(IdleOwners(s), OpOwners(s), RowCharges(s), h, d);
  }

  lemma BooksAreRowsAndFlight(s: State, h: nat, d: Dim)
    ensures Load(Charges(s), h, d) == RowLoad(s, h, d) + InFlight(s, h, d)
  {
    ChargesInThree(s, h, d);
    RowsInTwo(s, h, d);
    SumSame(IdleOwners(s), Charges(s), RowCharges(s), h, d);
  }

  /** The recount drops (or adds) just what is in flight. */
  lemma RecountAmounts(s: State, h: nat)
    requires Inv(s) && h in s.hosts
    ensures RowLoad(s, h, Vcpu) == s.hosts[h].vcpu - InFlight(s, h, Vcpu)
    ensures RowLoad(s, h, Mem) == s.hosts[h].mem - InFlight(s, h, Mem)
    ensures RowLoad(s, h, Count) == s.hosts[h].vmCreated - InFlight(s, h, Count)
  {
    BooksAreRowsAndFlight(s, h, Vcpu);
    BooksAreRowsAndFlight(s, h, Mem);
    BooksAreRowsAndFlight(s, h, Count);
    assert BookOk(s, h);
  }

  /** So it agrees with the incremental counters of a host exactly when nothing is in flight on it. */
  lemma RecountKeepsExactly(s: State, h: nat)
    requires Inv(s) && h in s.hosts
    ensures Recounted(s, h) == s <==> forall d :: InFlight(s, h, d) == 0
  {
    RecountAmounts(s, h);
    RecountedIsSame(s, h);
    if Recounted(s, h) == s {
      forall d ensures InFlight(s, h, d) == 0 { match d case Vcpu => case Mem => case Count => }
    }
  }

  lemma RecountedIsSame(s: State, h: nat)
    requires h in s.hosts
    ensures Recounted(s, h) == s <==> && s.hosts[h].vcpu == RowLoad(s, h, Vcpu) && s.hosts[h].mem == RowLoad(s, h, Mem)
                                      && s.hosts[h].vmCreated == RowLoad(s, h, Count)
  {
    var row := s.hosts[h].(vcpu := RowLoad(s, h, Vcpu), mem := RowLoad(s, h, Mem), vmCreated := RowLoad(s, h, Count));
    assert row == s.hosts[h] ==> s.hosts[h := row] == s.hosts;
    assert Recounted(s, h).hosts[h] == row;
  }

  lemma SameCharges(s: State, s': State)
    requires s' == s.(hosts := s'.hosts)
    ensures Charges(s') == Charges(s)
  {
    assert Owners(s') == Owners(s);
    forall o ensures ChargeOf(s', o) == ChargeOf(s, o) { }
  }

  /** And it breaks the ledger exactly when something is in flight: what operations and tasks
      will give back later is no longer there. */
  lemma RecountBreaksExactly(s: State, h: nat)
    requires Inv(s) && h in s.hosts
    ensures Inv(Recounted(s, h)) <==> forall d :: InFlight(s, h, d) == 0
  {
    RecountKeepsExactly(s, h);
    RecountAmounts(s, h);
    var s' := Recounted(s, h);
    if Inv(s') {
      assert BookOk(s, h) && BookOk(s', h);
      SameCharges(s, s');
      forall d ensures InFlight(s, h, d) == 0 { match d case Vcpu => case Mem => case Count => }
    }
  }

  /** No operation has anything or any row on host `h`, and no task owes anything there: claims
      handed over, sources released and undefined. */
  ghost predicate Quiet(s: State, h: nat) {
    && (forall v | v in s.ops :: (s.ops[v].charged || s.ops[v].counted ==> s.ops[v].host != h)
                                 && !(IsNormal(s, v) && s.vms[v].host == Some(h)))
    && (forall t | t in s.tasks ::
         && (s.tasks[t].dst == h ==> s.tasks[t].dstTaken || s.tasks[t].dstCounted)
         && (s.tasks[t].src == h && s.tasks[t].switched ==> s.tasks[t].srcTaken && s.tasks[t].srcUncounted))
  }

  /** On a quiet host the recount changes nothing: the fast counters refine the simple one. */
  lemma QuietRecount(s: State, h: nat)
    requires Inv(s) && h in s.hosts && Quiet(s, h)
    ensures Recounted(s, h) == s
  {
    forall d ensures InFlight(s, h, d) == 0 {
      forall o | o in OpOwners(s) ensures Owed(Charges(s), o).On(h, d) == 0 && Owed(RowCharges(s), o).On(h, d) == 0 {
        assert OpOk(s, o.vm);
      }
      forall o | o in TaskOwners(s) ensures Owed(Charges(s), o).On(h, d) == 0 {
        assert TaskOk(s, o.task);
      }
      SumOfNothing(OpOwners(s), Charges(s), h, d);
      SumOfNothing(OpOwners(s), RowCharges(s), h, d);
      SumOfNothing(TaskOwners(s), Charges(s), h, d);
    }
    RecountKeepsExactly(s, h);
  }
}
