/** The thread of a live migration, with other requests at any point in between. */
module MigrateThread {
  import opened Tables
  import opened Ledger
  import opened Protocol
  import opened ProtocolInv
  import opened StepKeeps
  import opened Keeps
  import opened Runs
  import opened Databases

  // ---------- other requests meanwhile ----------

  method Store(db: Database, s: State)
    modifies db
    ensures db.Snapshot() == s
  {
    db.hosts, db.vlans, db.ips, db.vms := s.hosts, s.vlans, s.ips, s.vms;
    db.tasks, db.attached, db.devices, db.ops := s.tasks, s.attached, s.devices, s.ops;
  }

  /** Any number of harmless steps of other VMs, in any order. */
  method Interfere(db: Database, v: nat)
    requires Inv(db.Snapshot())
    modifies db
    ensures Inv(db.Snapshot()) && SameVm(old(db.Snapshot()), db.Snapshot(), v)
  {
    var n: nat :| n >= 0;
    for i := 0 to n
      invariant Inv(db.Snapshot()) && SameVm(old(db.Snapshot()), db.Snapshot(), v)
    {
      var l: Label := *;
      var s := db.Snapshot();
      var next := Next(s, l);
      if next.Some? && !Concerns(s, l, v) && !Harmful(s, l) {
        NextKeeps(s, l);
        Undisturbed(s, l, v);
        Store(db, next.value);
      }
    }
  }

  // ---------- the migration thread ----------

  /** Which stores of the task row work: FAILED, the flag after the release, and the final status
      (which stores the flag as well). The last two errors are dropped. */
  datatype Saves = Saves(failed: bool, flag: bool, done: bool)

  function Completed(task: Task): Task {
    task.(status := Complete, worker := Resting, switched := true, dstCounted := true, srcUndefined := true,
          srcUncounted := true, freeTried := true, srcTaken := true, srcFree := true)
  }

  /** The VM has moved and the source is free; the row says so as far as it could be stored. */
  function Ended(task: Task, saves: Saves): Task {
    if saves.done then Completed(task)
    else Completed(task).(status := SomeTodo, worker := Crashed, srcFree := saves.flag)
  }

  /** The claim is back; where that could not be stored, the row says nothing of it. */
  function GivenUp(task: Task, saves: bool): Task {
    if saves then task.(status := Failed, worker := Resting, dstClaim := false, dstTaken := true)
    else task.(worker := Crashed, dstTaken := true)
  }

  /** How a task ends, on its fields. */
  lemma EndedOnFields(task: Task, saves: Saves)
    ensures var end := Ended(task, saves);
      && end.status == (if saves.done then Complete else SomeTodo)
      && end.worker == (if saves.done then Resting else Crashed) && end.srcFree == (saves.done || saves.flag)
      && end.switched && end.dstCounted && end.srcUndefined && end.srcUncounted && end.freeTried && end.srcTaken
      && end.dstClaim == task.dstClaim && end.dstTaken == task.dstTaken
      && (end.vm, end.src, end.dst, end.tag) == (task.vm, task.src, task.dst, task.tag)
      && (end.vcpu, end.mem) == (task.vcpu, task.mem)
    ensures var end := GivenUp(task, saves.failed);
      && end.dstTaken && end.status == (if saves.failed then Failed else task.status)
      && end.worker == (if saves.failed then Resting else Crashed)
      && end.dstClaim == (if saves.failed then false else task.dstClaim)
      && end.switched == task.switched && end.dstCounted == task.dstCounted
      && end.srcTaken == task.srcTaken && end.srcFree == task.srcFree
      && (end.vm, end.src, end.dst, end.tag) == (task.vm, task.src, task.dst, task.tag)
  {
  }

  predicate IsWaiting(s: State, t: nat) { t in s.tasks && s.tasks[t].status == Waiting }

  /** The thread of a live migration. Whatever harmless steps other requests take in the meantime,
      the task ends FAILED with its claim given back and the VM where it was, or COMPLETE with the
      source released and the VM on the destination; no release ever fails, and the row keeps behind
      that only as far as it could not be stored. A task whose VM is gone kills the thread. A task
      whose claim was given back already is `PickUpHarms`. */
  method LiveMigrateVmTask(db: Database, t: nat, connects: bool, migrates: bool, saves: Saves)
    requires Inv(db.Snapshot()) && (IsWaiting(db.Snapshot(), t) ==> !db.tasks[t].dstTaken)
    modifies db
    ensures Inv(db.Snapshot())
    ensures t in old(db.tasks) && old(db.tasks)[t].status == Waiting && old(db.tasks)[t].vm in old(db.vms) ==>
      var was := old(db.tasks)[t];
      && t in db.tasks && was.vm in db.vms
      && if connects && migrates then
           db.tasks[t] == Ended(was, saves) && db.vms[was.vm] == old(db.vms)[was.vm].(host := Some(was.dst))
         else
           && db.tasks[t] == GivenUp(was.(status := InProcess), saves.failed)
           && db.vms[was.vm] == old(db.vms)[was.vm]
    ensures t in old(db.tasks) && old(db.tasks)[t].status == Waiting && old(db.tasks)[t].vm !in old(db.vms) ==>
      db.Snapshot() == WithTask(old(db.Snapshot()), t, old(db.tasks)[t].(status := InProcess, worker := Crashed))
    ensures t !in old(db.tasks) || old(db.tasks)[t].status != Waiting ==> db.Snapshot() == old(db.Snapshot())
  {
    if !IsWaiting(db.Snapshot(), t) {
      return;
    }
    var task := db.tasks[t];
    PickUpKeeps(db.Snapshot(), t);
    if task.vm !in db.vms {
      db.tasks := db.tasks[t := task.(status := InProcess, worker := Crashed)];
      return;
    }
    db.tasks := db.tasks[t := task.(status := InProcess, worker := Running)];
    MoveVm(db, t, connects, migrates, saves);
  }

  /** The size in the VM object that is loaded is the size that was claimed. */
  lemma PickUpKeeps(s: State, t: nat)
    requires Inv(s) && IsWaiting(s, t) && !s.tasks[t].dstTaken
    ensures !s.tasks[t].switched
    ensures Inv(WithTask(s, t, s.tasks[t].(status := InProcess,
                                           worker := if s.tasks[t].vm in s.vms then Running else Crashed)))
  {
    assert TaskOk(s, t);
    MarkForm(s, PickUp(t), t);
    MarkKeeps(s, PickUp(t), t);
  }

  /** The part after the task was picked up. */
  method MoveVm(db: Database, t: nat, connects: bool, migrates: bool, saves: Saves)
    requires Inv(db.Snapshot()) && t in db.tasks && db.tasks[t].status == InProcess && db.tasks[t].worker == Running
    requires !db.tasks[t].switched && !db.tasks[t].dstTaken
    modifies db
    ensures Inv(db.Snapshot()) && t in db.tasks
    ensures var was := old(db.tasks)[t];
      && was.vm in old(db.vms) && was.vm in db.vms
      && if connects && migrates then
           db.tasks[t] == Ended(was, saves) && db.vms[was.vm] == old(db.vms)[was.vm].(host := Some(was.dst))
         else
           db.tasks[t] == GivenUp(was, saves.failed) && db.vms[was.vm] == old(db.vms)[was.vm]
  {
    var v := db.tasks[t].vm;
    assert TaskOk(db.Snapshot(), t);
    Interfere(db, v);
    if !connects || !migrates {
      GiveUp(db, t, saves.failed);
      return;
    }
    Arrive(db, t);
    Interfere(db, v);
    Leave(db, t, saves);
  }

  /** What the claim, or the share of the source, comes to when it is released by the thread. */
  lemma ThreadReleases(s: State, t: nat, l: Label)
    requires Inv(s) && t in s.tasks && TaskOf(l) == Some(t) && Ready(s.tasks[t], l)
    requires (l.FailFree? && s.tasks[t].status == InProcess && !s.tasks[t].dstTaken) || l.FreeSrc?
    ensures var task := s.tasks[t]; var h := if l.FailFree? then task.dst else task.src;
      && h in s.hosts
      && s.hosts[h].Free(task.knownVcpu, task.knownMem)
         == Some(s.hosts[h].(vcpu := s.hosts[h].vcpu - task.vcpu, mem := s.hosts[h].mem - task.mem))
      && Inv(Freed(s, t, h, (task.vcpu, task.mem), After(task, l, true, None)))
  {
    assert TaskOk(s, t);
    NeverRefused(s, if l.FailFree? then s.tasks[t].dst
        else s.tasks[t].src, (s.tasks[t].knownVcpu, s.tasks[t].knownMem));
    ReleaseOk(s.tasks[t], l, None);
    ReleasedKeeps(s, t, After(s.tasks[t], l, true, None), l.FailFree?);
  }

  method FreeClaim(db: Database, t: nat) returns (freed: bool)
    requires Inv(db.Snapshot()) && t in db.tasks && db.tasks[t].status == InProcess && db.tasks[t].worker == Running
    requires !db.tasks[t].switched && !db.tasks[t].dstTaken
    modifies db`hosts, db`tasks
    ensures freed && Inv(db.Snapshot())
    ensures db.tasks == old(db.tasks)[t := old(db.tasks)[t].(worker := Failing(true), dstTaken := true)]
  {
    var task := db.tasks[t];
    ThreadReleases(db.Snapshot(), t, FailFree(t));
    freed := FreeHost(db, task.dst, task.knownVcpu, task.knownMem);
    db.tasks := db.tasks[t := task.(worker := Failing(freed), dstTaken := task.dstTaken || freed)];
  }

  /** The domain did not move: the claim goes back, then the task is FAILED. */
  method GiveUp(db: Database, t: nat, saves: bool)
    requires Inv(db.Snapshot()) && t in db.tasks && db.tasks[t].status == InProcess && db.tasks[t].worker == Running
    requires !db.tasks[t].switched && !db.tasks[t].dstTaken
    modifies db
    ensures Inv(db.Snapshot()) && t in db.tasks && db.tasks[t] == GivenUp(old(db.tasks)[t], saves)
    ensures var v := old(db.tasks)[t].vm; v in old(db.vms) && v in db.vms && db.vms[v] == old(db.vms)[v]
  {
    var v := db.tasks[t].vm;
    assert TaskOk(db.Snapshot(), t);
    var freed := FreeClaim(db, t);
    Interfere(db, v);
    if saves {
      MarkedFailed(db.Snapshot(), t);
      var dstClaim := db.tasks[t].dstClaim && !freed;
      db.tasks := db.tasks[t := db.tasks[t].(status := Failed, worker := Resting, dstClaim := dstClaim)];
    } else {
      ThreadDied(db.Snapshot(), t);
      db.tasks := db.tasks[t := db.tasks[t].(worker := Crashed)];
    }
  }

  lemma MarkedFailed(s: State, t: nat)
    requires Inv(s) && t in s.tasks && s.tasks[t].worker == Failing(true)
    ensures Inv(WithTask(s, t, s.tasks[t].(status := Failed, worker := Resting, dstClaim := false)))
  {
    assert TaskOk(s, t);
    MarkForm(s, FailMark(t), t);
    MarkKeeps(s, FailMark(t), t);
  }

  lemma ThreadDied(s: State, t: nat)
    requires Inv(s) && t in s.tasks && s.tasks[t].worker.Active()
    ensures Inv(WithTask(s, t, s.tasks[t].(worker := Crashed)))
  {
    MarkForm(s, Crash(t), t);
    MarkKeeps(s, Crash(t), t);
  }

  /** First half after the hypervisor has moved the VM: row, counter of the destination, and the
      mark that the rest is still to do. */
  method Arrive(db: Database, t: nat)
    requires Inv(db.Snapshot()) && t in db.tasks && db.tasks[t].tag == Live && db.tasks[t].status == InProcess
    requires db.tasks[t].worker == Running && !db.tasks[t].switched && !db.tasks[t].dstTaken
    modifies db
    ensures Inv(db.Snapshot()) && t in db.tasks
    ensures db.tasks[t]
        == old(db.tasks)[t].(switched := true, dstCounted := true, srcUndefined := true, status := SomeTodo)
    ensures var was := old(db.tasks)[t];
      was.vm in old(db.vms) && was.vm in db.vms && db.vms[was.vm] == old(db.vms)[was.vm].(host := Some(was.dst))
  {
    var was := db.tasks[t];
    var v := was.vm;
    assert TaskOk(db.Snapshot(), t);
    SwitchedKeeps(db.Snapshot(), t);
    db.vms := db.vms[v := db.vms[v].(host := Some(was.dst))];
    db.tasks := db.tasks[t := was.(switched := true)];

    Interfere(db, v);
    ArriveRest(db, t);
  }

  method ArriveRest(db: Database, t: nat)
    requires Inv(db.Snapshot()) && t in db.tasks && db.tasks[t].tag == Live && db.tasks[t].status == InProcess
    requires db.tasks[t].worker == Running && db.tasks[t].switched && !db.tasks[t].dstCounted
    requires db.tasks[t].vm in db.vms
    modifies db
    ensures Inv(db.Snapshot()) && t in db.tasks
    ensures db.tasks[t] == old(db.tasks)[t].(dstCounted := true, srcUndefined := true, status := SomeTodo)
    ensures var v := old(db.tasks)[t].vm; v in db.vms && db.vms[v] == old(db.vms)[v]
  {
    var task := db.tasks[t];
    assert TaskOk(db.Snapshot(), t);
    CountDstKeeps(db.Snapshot(), t);
    AddVmCreated(db, task.dst, 1);
    db.tasks := db.tasks[t := task.(dstCounted := true)];

    Interfere(db, task.vm);
    MarkForm(db.Snapshot(), MarkTodo(t), t);
    MarkKeeps(db.Snapshot(), MarkTodo(t), t);
    db.tasks := db.tasks[t := db.tasks[t].(srcUndefined := true, status := SomeTodo)];
  }

  /** Second half: counter and share of the source, the record of it, and the final mark. */
  method Leave(db: Database, t: nat, saves: Saves)
    requires Inv(db.Snapshot()) && t in db.tasks && db.tasks[t].tag == Live && db.tasks[t].status == SomeTodo
    requires db.tasks[t].worker == Running && !db.tasks[t].srcUncounted && !db.tasks[t].freeTried
    requires db.tasks[t].vm in db.vms
    modifies db
    ensures Inv(db.Snapshot()) && t in db.tasks
    ensures var was := old(db.tasks)[t];
      && was.vm in db.vms && db.vms[was.vm] == old(db.vms)[was.vm]
      && db.tasks[t] == Ended(was, saves)
  {
    var v := db.tasks[t].vm;
    assert TaskOk(db.Snapshot(), t);
    UncountSource(db, t);
    Interfere(db, v);
    ReleaseSource(db, t, saves.flag);
    Interfere(db, v);
    Finish(db, t, saves.done);
  }

  method UncountSource(db: Database, t: nat)
    requires Inv(db.Snapshot()) && t in db.tasks && db.tasks[t].tag == Live && db.tasks[t].status == SomeTodo
    requires db.tasks[t].worker == Running && !db.tasks[t].srcUncounted && !db.tasks[t].freeTried
    modifies db`hosts, db`tasks
    ensures Inv(db.Snapshot())
    ensures db.tasks == old(db.tasks)[t := old(db.tasks)[t].(srcUncounted := true)]
  {
    assert TaskOk(db.Snapshot(), t);
    UncountSrcKeeps(db.Snapshot(), t);
    AddVmCreated(db, db.tasks[t].src, -1);
    db.tasks := db.tasks[t := db.tasks[t].(srcUncounted := true)];
    assert old(db.tasks)[t].srcUndefined;
  }

  /** The final store writes the whole row, the flag as well. Where it fails nobody comes back to it. */
  method Finish(db: Database, t: nat, done: bool)
    requires Inv(db.Snapshot()) && t in db.tasks && db.tasks[t].tag == Live && db.tasks[t].status == SomeTodo
    requires db.tasks[t].freeTried && (db.tasks[t].worker == Running || db.tasks[t].worker == Marking)
    modifies db`tasks
    ensures Inv(db.Snapshot())
    ensures var task := old(db.tasks)[t];
      db.tasks == old(db.tasks)[t := if done then task.(status := Complete, worker := Resting, srcFree := true)
                                     else task.(worker := Crashed)]
  {
    var task := db.tasks[t];
    if !done {
      ThreadDied(db.Snapshot(), t);
      db.tasks := db.tasks[t := task.(worker := Crashed)];
      return;
    }
    assert TaskOk(db.Snapshot(), t);
    if task.worker == Marking {
      MarkForm(db.Snapshot(), MarkSrc(t), t);
      MarkKeeps(db.Snapshot(), MarkSrc(t), t);
      db.tasks := db.tasks[t := task.(srcFree := true, worker := Running)];
    }
    MarkForm(db.Snapshot(), FinishTask(t, false), t);
    MarkKeeps(db.Snapshot(), FinishTask(t, false), t);
    db.tasks := db.tasks[t := task.(status := Complete, worker := Resting, srcFree := true)];
  }

  /** The release, at the size that the thread knows, and the record of it, with other requests in
      between. */
  method ReleaseSource(db: Database, t: nat, flag: bool)
    requires Inv(db.Snapshot()) && t in db.tasks && db.tasks[t].tag == Live && db.tasks[t].status == SomeTodo
    requires db.tasks[t].worker == Running && db.tasks[t].srcUncounted && !db.tasks[t].freeTried
    requires db.tasks[t].vm in db.vms
    modifies db
    ensures Inv(db.Snapshot()) && t in db.tasks
    ensures var was := old(db.tasks)[t];
      && was.vm in db.vms && db.vms[was.vm] == old(db.vms)[was.vm]
      && db.tasks[t] == was.(freeTried := true, srcTaken := true, srcFree := flag,
                             worker := if flag then Running else Marking)
  {
    var v := db.tasks[t].vm;
    assert TaskOk(db.Snapshot(), t);
    var freed := FreeSource(db, t);
    Interfere(db, v);
    if freed && flag {
      MarkForm(db.Snapshot(), MarkSrc(t), t);
      MarkKeeps(db.Snapshot(), MarkSrc(t), t);
      db.tasks := db.tasks[t := db.tasks[t].(srcFree := true, worker := Running)];
    }
  }

  method FreeSource(db: Database, t: nat) returns (freed: bool)
    requires Inv(db.Snapshot()) && t in db.tasks && db.tasks[t].tag == Live && db.tasks[t].status == SomeTodo
    requires db.tasks[t].worker == Running && db.tasks[t].srcUncounted && !db.tasks[t].freeTried
    modifies db`hosts, db`tasks
    ensures freed && Inv(db.Snapshot())
    ensures db.tasks == old(db.tasks)[t := old(db.tasks)[t].(freeTried := true, srcTaken := true, worker := Marking)]
  {
    var task := db.tasks[t];
    ThreadReleases(db.Snapshot(), t, FreeSrc(t));
    freed := FreeHost(db, task.src, task.knownVcpu, task.knownMem);
    db.tasks := db.tasks[t := task.(freeTried := true, srcTaken := task.srcTaken || freed,
                                    worker := if freed then Marking else Running)];
  }

  // ---------- the row of the VM is not stored ----------

  /** Storing the new host failed, which is only logged: the thread goes on to its end. */
  function MoveLost(s: State, t: nat): State
    requires t in s.tasks && s.tasks[t].src in s.hosts && s.tasks[t].dst in s.hosts
  {
    var task := s.tasks[t];
    var src := s.hosts[task.src];
    WithTask(s, t, Completed(task)).(
      hosts := s.hosts[task.dst := s.hosts[task.dst].CountBy(1)]
                      [task.src := src.(vcpu := src.vcpu - task.knownVcpu, mem := src.mem - task.knownMem,
                                        vmCreated := src.vmCreated - 1)])
  }

  /** The migration ends COMPLETE, the row still names the source, and the books do not balance; nor is
      there any step left that would look at the task again. */
  lemma MoveLostBreaks(s: State, t: nat)
    requires Inv(s) && t in s.tasks && s.tasks[t].status == InProcess && s.tasks[t].Expecting()
    ensures s.tasks[t].src in s.hosts && s.tasks[t].dst in s.hosts && !Books(MoveLost(s, t))
    ensures forall l :: TaskOf(l) == Some(t) ==> !Ready(MoveLost(s, t).tasks[t], l)
  {
    assert TaskOk(s, t);
    Unbalanced(s, MoveLost(s, t), s.tasks[t].vm, t, s.tasks[t].src);
    NothingMore(s.tasks[t]);
  }

  lemma NothingMore(task: Task)
    ensures forall l :: TaskOf(l).Some? ==> !Ready(Completed(task), l)
  {
  }
}
