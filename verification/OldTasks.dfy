/** Older migrations of a VM. */
module OldTasks {
  // What a request finds of them: failing a waiting task, cleaning up a SOME_TODO one, and the check
  // before a live migration.

  import opened Tables
  import opened Ledger
  import opened Protocol
  import opened ProtocolInv
  import opened StepKeeps
  import opened Keeps
  import opened Runs
  import opened Databases
  import opened Scheduler
  import opened MigrateThread

  // ---------- releases at the size in the row ----------

  /** The VM of the task and the host are there. */
  predicate Known(s: State, t: nat, h: nat) { t in s.tasks && s.tasks[t].vm in s.vms && h in s.hosts }
  predicate DstKnown(s: State, t: nat) { t in s.tasks && Known(s, t, s.tasks[t].dst) }
  predicate SrcKnown(s: State, t: nat) { t in s.tasks && Known(s, t, s.tasks[t].src) }

  function RowSize(s: State, t: nat): (int, int)
    requires t in s.tasks && s.tasks[t].vm in s.vms
  {
    (s.vms[s.tasks[t].vm].vcpu, s.vms[s.tasks[t].vm].mem)
  }

  /** What `free` returns for that size. */
  predicate Frees(s: State, t: nat, h: nat)
    requires Known(s, t, h)
  {
    s.hosts[h].Free(RowSize(s, t).0, RowSize(s, t).1).Some?
  }

  function FreedAtRowSize(s: State, t: nat, h: nat): State
    requires Known(s, t, h)
  {
    Released(s, h, RowSize(s, t).0, RowSize(s, t).1)
  }

  /** No host is above its totals. */
  ghost predicate Bounded(s: State) {
    forall h | h in s.hosts :: s.hosts[h].vcpu <= s.hosts[h].vcpuTotal && s.hosts[h].mem <= s.hosts[h].memTotal
  }

  lemma InvBounded(s: State)
    requires Inv(s)
    ensures Bounded(s)
  {
    forall h | h in s.hosts ensures s.hosts[h].vcpu <= s.hosts[h].vcpuTotal && s.hosts[h].mem <= s.hosts[h].memTotal {
      assert BookOk(s, h);
    }
  }

  lemma AtRowSize(s: State, t: nat, h: nat, task: Task)
    requires Bounded(s) && Known(s, t, h) && RowSize(s, t).0 > 0 && RowSize(s, t).1 > 0
    ensures Frees(s, t, h)
    ensures WithTask(FreedAtRowSize(s, t, h), t, task) == Freed(s, t, h, RowSize(s, t), task)
  {
  }

  // ---------- failing a waiting task ----------

  function FailedRow(task: Task, freed: bool, saves: bool): Task {
    if saves then task.(status := Failed, worker := Resting, dstTaken := task.dstTaken || freed,
                        dstClaim := task.dstClaim && !freed)
    else task.(worker := Crashed, dstTaken := task.dstTaken || freed)
  }

  /** The state after a waiting task was failed; `saves` is false when FAILED cannot be stored, which
      raises. Then the claim is back and the row still waits. */
  function FailedTask(s: State, t: nat, saves: bool): State
    requires DstKnown(s, t)
  {
    WithTask(FreedAtRowSize(s, t, s.tasks[t].dst), t, FailedRow(s.tasks[t], Frees(s, t, s.tasks[t].dst), saves))
  }

  lemma FailedForm(s: State, t: nat, saves: bool)
    requires Bounded(s) && DstKnown(s, t) && RowSize(s, t).0 > 0 && RowSize(s, t).1 > 0
    ensures FailedTask(s, t, saves)
            == Freed(s, t, s.tasks[t].dst, RowSize(s, t), FailedRow(s.tasks[t], true, saves))
  {
    AtRowSize(s, t, s.tasks[t].dst, FailedRow(s.tasks[t], true, saves));
  }

  /** Failing a waiting task keeps the invariant, and the books, exactly when its claim was not given
      back before. */
  lemma FailedExactly(s: State, t: nat, saves: bool)
    requires Inv(s) && IsWaiting(s, t) && s.tasks[t].vm in s.vms
    ensures DstKnown(s, t)
    ensures Inv(FailedTask(s, t, saves)) <==> !s.tasks[t].dstTaken
    ensures Books(FailedTask(s, t, saves)) <==> !s.tasks[t].dstTaken
  {
    assert TaskOk(s, t) && RowOk(s, s.tasks[t].vm);
    InvBounded(s);
    FailedForm(s, t, saves);
    if s.tasks[t].dstTaken {
      Unbalanced(s, FailedTask(s, t, saves), s.tasks[t].vm, t, s.tasks[t].dst);
    } else {
      FailedFirst(s, t, saves);
    }
  }

  lemma FailedFirst(s: State, t: nat, saves: bool)
    requires Inv(s) && IsWaiting(s, t) && s.tasks[t].vm in s.vms && !s.tasks[t].dstTaken
    requires s.tasks[t].dst in s.hosts
    ensures Inv(Freed(s, t, s.tasks[t].dst, RowSize(s, t), FailedRow(s.tasks[t], true, saves)))
  {
    assert TaskOk(s, t);
    var task, size := s.tasks[t], RowSize(s, t);
    var failing := task.(worker := Failing(true), dstTaken := true);
    ReleasedKeeps(s, t, failing, true);
    var s1 := Freed(s, t, task.dst, size, failing);
    if saves { MarkedFailed(s1, t); } else { ThreadDied(s1, t); }
    FreedThen(s, t, task.dst, size, failing, FailedRow(task, true, saves));
  }

  /** On the fields: the claim comes off the destination; FAILED and the flag are stored or not. */
  lemma FailedOnFields(s: State, t: nat, saves: bool)
    requires Bounded(s) && DstKnown(s, t) && s.vms[s.tasks[t].vm].vcpu > 0 && s.vms[s.tasks[t].vm].mem > 0
    ensures var after, was, vm := FailedTask(s, t, saves), s.tasks[t], s.vms[s.tasks[t].vm];
      var row := s.hosts[was.dst];
      && after.hosts == s.hosts[was.dst := row.(vcpu := row.vcpu - vm.vcpu, mem := row.mem - vm.mem)]
      && after.vms == s.vms
      && after.tasks == s.tasks[t := was.(dstTaken := true, dstClaim := was.dstClaim && !saves,
                                          status := if saves then Failed else was.status,
                                          worker := if saves then Resting else Crashed)]
  {
    FailedForm(s, t, saves);
  }

  method DoTaskFailed(db: Database, t: nat, saves: bool) returns (ok: bool)
    requires DstKnown(db.Snapshot(), t)
    modifies db`hosts, db`tasks
    ensures ok == saves && db.Snapshot() == FailedTask(old(db.Snapshot()), t, saves)
  {
    var task := db.tasks[t];
    var vm := db.vms[task.vm];
    var freed := FreeHost(db, task.dst, vm.vcpu, vm.mem);
    var dstClaim := task.dstClaim;
    if freed {
      dstClaim := false;
    }
    if !saves {
      db.tasks := db.tasks[t := task.(worker := Crashed, dstTaken := task.dstTaken || freed)];
      return false;
    }
    db.tasks := db.tasks[t := task.(status := Failed, worker := Resting, dstTaken := task.dstTaken || freed,
                                    dstClaim := dstClaim)];
    return true;
  }

  // ---------- clean-up of a SOME_TODO task ----------

  /** Where the domain is found, when the row names another host than the task. */
  datatype Where = AtRowHost | AtDst | Nowhere | Unreachable

  predicate IsSomeTodo(s: State, t: nat) { t in s.tasks && s.tasks[t].status == SomeTodo }

  /** The row of the VM names another host than the task moved it to. */
  predicate Astray(s: State, t: nat)
    requires t in s.tasks && s.tasks[t].vm in s.vms
  {
    s.vms[s.tasks[t].vm].host != Some(s.tasks[t].dst)
  }

  /** The VM is there, and a host was found for it. */
  predicate Reaches(s: State, t: nat, where: Where)
    requires t in s.tasks
  {
    s.tasks[t].vm in s.vms && (Astray(s, t) ==> where == AtRowHost || where == AtDst)
  }

  /** The row is pointed back to the host that the task moved the VM to; no counter follows. */
  predicate Repairs(s: State, t: nat, where: Where)
    requires t in s.tasks
  {
    s.tasks[t].vm in s.vms && Astray(s, t) && where == AtDst
  }

  function Repaired(s: State, t: nat, where: Where): State
    requires t in s.tasks
  {
    var v := s.tasks[t].vm;
    if Repairs(s, t, where) then s.(vms := s.vms[v := s.vms[v].(host := Some(s.tasks[t].dst))]) else s
  }

  /** What a clean-up makes of the task. It does not notice a thread that is at work. */
  function CleanedTask(task: Task, freed: bool, saves: Saves): Task {
    if task.srcFree then ClosedTask(task, saves)
    else if !freed then task
    else ClosedTask(TakenTask(task, saves), saves)
  }

  function TakenTask(task: Task, saves: Saves): Task {
    task.(srcTaken := true, srcFree := saves.flag,
          worker := if task.worker.Active() then task.worker else if saves.flag then Resting else Crashed)
  }

  function ClosedTask(task: Task, saves: Saves): Task {
    if task.srcUndefined && saves.done
    then task.(status := Complete, srcFree := true, worker := if task.worker.Active() then task.worker else Resting)
    else task
  }

  /** The state after a clean-up. */
  function CleanedUp(s: State, t: nat, saves: Saves, where: Where): State
    requires t in s.tasks && s.tasks[t].src in s.hosts
  {
    if !Reaches(s, t, where) then s
    else
      var m := Repaired(s, t, where);
      if s.tasks[t].srcFree then WithTask(m, t, CleanedTask(s.tasks[t], false, saves))
      else WithTask(FreedAtRowSize(m, t, s.tasks[t].src), t,
                    CleanedTask(s.tasks[t], Frees(m, t, s.tasks[t].src), saves))
  }

  /** The task can be closed: a VM and its host are found, no domain is left on the source, and
      nothing is left to give back. */
  predicate Closes(s: State, t: nat, where: Where)
    requires t in s.tasks && s.tasks[t].src in s.hosts
  {
    Reaches(s, t, where) && s.tasks[t].srcUndefined && (s.tasks[t].srcFree || Frees(s, t, s.tasks[t].src))
  }

  /** Clean-up by a later request. It raises when no host of the VM is found. */
  method HandleSomeTodo(db: Database, t: nat, saves: Saves, where: Where) returns (r: Result<bool>)
    requires IsSomeTodo(db.Snapshot(), t) && db.tasks[t].src in db.hosts
    modifies db`hosts, db`tasks, db`vms
    ensures db.Snapshot() == CleanedUp(old(db.Snapshot()), t, saves, where)
    ensures r == Ok(true) <==> Closes(old(db.Snapshot()), t, where)
    ensures var s := old(db.Snapshot()); var was := s.tasks[t];
      r == Raised <==> && was.vm in s.vms && s.vms[was.vm].host != Some(was.dst)
                       && (where == Nowhere || where == Unreachable)
    ensures r == Raised ==> db.Snapshot() == old(db.Snapshot())
    ensures old(db.tasks)[t].vm !in old(db.vms) ==> r == Ok(false) && db.Snapshot() == old(db.Snapshot())
  {
    var task := db.tasks[t];
    if task.vm !in db.vms {
      return Ok(false);
    }
    if db.vms[task.vm].host != Some(task.dst) {
      match where {
        case AtRowHost =>
        case AtDst =>
          db.vms := db.vms[task.vm := db.vms[task.vm].(host := Some(task.dst))];
        case Nowhere =>
          return Raised;
        case Unreachable =>
          return Raised;
      }
    }
    var ok := ReleaseAndClose(db, t, saves);
    return Ok(ok);
  }

  method ReleaseAndClose(db: Database, t: nat, saves: Saves) returns (ok: bool)
    requires IsSomeTodo(db.Snapshot(), t) && SrcKnown(db.Snapshot(), t)
    modifies db`hosts, db`tasks
    ensures var s := old(db.Snapshot()); var task := s.tasks[t];
      && ok == (task.srcUndefined && (task.srcFree || Frees(s, t, task.src)))
      && db.Snapshot() == if task.srcFree then WithTask(s, t, CleanedTask(task, false, saves))
                          else WithTask(FreedAtRowSize(s, t, task.src), t,
                              CleanedTask(task, Frees(s, t, task.src), saves))
  {
    var task := db.tasks[t];
    ok := true;
    if !task.srcUndefined {
      ok := false;
    }
    if !task.srcFree {
      var freed := FreeHost(db, task.src, db.vms[task.vm].vcpu, db.vms[task.vm].mem);
      if freed {
        task := TakenTask(task, saves);
      } else {
        ok := false;
      }
    }
    if ok && saves.done {
      task := ClosedTask(task, saves);
    }
    db.tasks := db.tasks[t := task];
  }

  /** Nobody but the thread of the task is at work on the VM. */
  predicate RowAtRest(s: State, t: nat)
    requires t in s.tasks
  {
    s.tasks[t].vm in s.vms ==> IsNormal(s, s.tasks[t].vm) && s.tasks[t].vm !in s.ops
  }

  /** A release that is still to come always succeeds, at the size that was claimed. */
  lemma TodoReleases(s: State, t: nat)
    requires Inv(s) && IsSomeTodo(s, t)
    ensures s.tasks[t].src in s.hosts && s.tasks[t].switched
    ensures s.tasks[t].vm in s.vms && !s.tasks[t].srcFree ==> SrcKnown(s, t) && Frees(s, t, s.tasks[t].src)
    ensures s.tasks[t].vm in s.vms && !s.tasks[t].srcTaken ==> RowSize(s, t) == (s.tasks[t].vcpu, s.tasks[t].mem)
  {
    assert TaskOk(s, t) && RowOk(s, s.tasks[t].vm);
    InvBounded(s);
    if SrcKnown(s, t) { AtRowSize(s, t, s.tasks[t].src, s.tasks[t]); }
  }

  lemma CleanedForm(s: State, t: nat, saves: Saves, where: Where)
    requires Bounded(s) && SrcKnown(s, t) && RowSize(s, t).0 > 0 && RowSize(s, t).1 > 0
    requires Reaches(s, t, where) && !s.tasks[t].srcFree
    ensures CleanedUp(s, t, saves, where)
            == Freed(Repaired(s, t, where), t, s.tasks[t].src, RowSize(s, t), CleanedTask(s.tasks[t], true, saves))
  {
    AtRowSize(Repaired(s, t, where), t, s.tasks[t].src, CleanedTask(s.tasks[t], true, saves));
  }

  function Thinned(row: Host, size: (int, int)): Host { row.(vcpu := row.vcpu - size.0, mem := row.mem - size.1) }

  function CleanedHosts(s: State, t: nat): map<nat, Host>
    requires SrcKnown(s, t)
  {
    var src := s.tasks[t].src;
    if s.tasks[t].srcFree then s.hosts else s.hosts[src := Thinned(s.hosts[src], RowSize(s, t))]
  }

  lemma CleanedShape(s: State, t: nat, saves: Saves, where: Where)
    requires Bounded(s) && SrcKnown(s, t) && RowSize(s, t).0 > 0 && RowSize(s, t).1 > 0 && Reaches(s, t, where)
    ensures CleanedUp(s, t, saves, where)
            == s.(hosts := CleanedHosts(s, t), tasks := s.tasks[t := CleanedTask(s.tasks[t], true, saves)],
                  vms := Repaired(s, t, where).vms)
    ensures CleanedHosts(s, t).Keys == s.hosts.Keys
  {
    assert Repaired(s, t, where) == s.(vms := Repaired(s, t, where).vms);
    if s.tasks[t].srcFree {
      assert CleanedTask(s.tasks[t], true, saves) == CleanedTask(s.tasks[t], false, saves);
    } else {
      CleanedForm(s, t, saves, where);
    }
  }

  /** On the fields: the row is pointed back where the domain was found at the destination, the source
      loses the size of the VM unless the flag says that it did, and flag and status are stored or not. */
  lemma CleanedOnFields(s: State, t: nat, saves: Saves, where: Where)
    requires Bounded(s) && SrcKnown(s, t) && s.vms[s.tasks[t].vm].vcpu > 0 && s.vms[s.tasks[t].vm].mem > 0
    requires s.vms[s.tasks[t].vm].host == Some(s.tasks[t].dst) || where == AtRowHost || where == AtDst
    ensures var after, was, vm := CleanedUp(s, t, saves, where), s.tasks[t], s.vms[s.tasks[t].vm];
      var row := s.hosts[was.src];
      && after.hosts == (if was.srcFree then s.hosts
                         else s.hosts[was.src := row.(vcpu := row.vcpu - vm.vcpu, mem := row.mem - vm.mem)])
      && after.vms == (if where == AtDst then s.vms[was.vm := vm.(host := Some(was.dst))]
                       else s.vms)
      && after.tasks == s.tasks[t := CleanedTask(was, true, saves)]
    ensures Closes(s, t, where) <==> s.tasks[t].srcUndefined
  {
    CleanedShape(s, t, saves, where);
    AtRowSize(s, t, s.tasks[t].src, s.tasks[t]);
    if s.vms[s.tasks[t].vm].host == Some(s.tasks[t].dst) {
      assert s.vms[s.tasks[t].vm := s.vms[s.tasks[t].vm]] == s.vms;
    }
  }

  lemma CleanedTaskOnFields(task: Task, saves: Saves)
    ensures var task' := CleanedTask(task, true, saves);
      task' == task.(status := if task.srcUndefined && saves.done then Complete else task.status,
                     srcFree := task.srcFree || saves.flag || (task.srcUndefined && saves.done),
                     srcTaken := task.srcTaken || !task.srcFree, worker := task'.worker)
  {
  }

  /** The clean-up gives nothing back twice, now or when the thread goes on, and does not move the
      VM. */
  predicate CleansWell(s: State, t: nat, where: Where)
    requires t in s.tasks
  {
    !Reaches(s, t, where)
    || (!Repairs(s, t, where) && (s.tasks[t].srcFree || (!s.tasks[t].srcTaken && !s.tasks[t].worker.Active())))
  }

  /** Clean-up keeps the invariant if and only if it does not move the row, no thread is at work that
      will release the source itself, and the row records what was really given back. It leaves a
      row that does not, if and only if it had to release and could store neither the flag nor the
      status. */
  lemma CleanUpExactly(s: State, t: nat, saves: Saves, where: Where)
    requires Inv(s) && IsSomeTodo(s, t) && RowAtRest(s, t)
    ensures s.tasks[t].src in s.hosts
    ensures Inv(CleanedUp(s, t, saves, where)) <==> CleansWell(s, t, where)
    ensures CleansWell(s, t, where) && !Damaged(s.tasks[t]) ==>
      (Damaged(CleanedUp(s, t, saves, where).tasks[t])
       <==> Reaches(s, t, where) && !s.tasks[t].srcFree && !saves.flag && !(s.tasks[t].srcUndefined && saves.done))
  {
    assert TaskOk(s, t) && RowOk(s, s.tasks[t].vm);
    TodoReleases(s, t);
    InvBounded(s);
    if Reaches(s, t, where) {
      CleanedShape(s, t, saves, where);
      if CleansWell(s, t, where) { DamageLeft(s.tasks[t], saves); }
    }
    if Repairs(s, t, where) {
      RepairBreaks(s, t, saves, where);
    } else if Reaches(s, t, where) {
      if s.tasks[t].srcFree {
        CleanUpDone(s, t, saves, where);
      } else if s.tasks[t].srcTaken {
        CleanedAgainBreaks(s, t, saves, where);
      } else if s.tasks[t].worker.Active() {
        assert !FlagsOk(CleanedTask(s.tasks[t], true, saves));
        assert !TaskOk(CleanedUp(s, t, saves, where), t);
      } else {
        CleanUpReleases(s, t, saves, where);
      }
    }
  }

  lemma DamageLeft(task: Task, saves: Saves)
    requires FlagsOk(task) && StatusOk(task) && task.status == SomeTodo && !Damaged(task)
    requires task.srcFree || (!task.srcTaken && !task.worker.Active())
    ensures Damaged(CleanedTask(task, true, saves))
            <==> !task.srcFree && !saves.flag && !(task.srcUndefined && saves.done)
  {
  }

  /** Pointing a row back that was right moves the charge of the VM, and no counter. */
  lemma RepairBreaks(s: State, t: nat, saves: Saves, where: Where)
    requires Inv(s) && IsSomeTodo(s, t) && RowAtRest(s, t) && Repairs(s, t, where) && s.tasks[t].src in s.hosts
    ensures !Books(CleanedUp(s, t, saves, where))
  {
    assert TaskOk(s, t) && RowOk(s, s.tasks[t].vm);
    InvBounded(s);
    if !s.tasks[t].srcFree { CleanedForm(s, t, saves, where); }
    Unbalanced(s, CleanedUp(s, t, saves, where), s.tasks[t].vm, t, s.tasks[t].dst);
  }

  /** The row of VM `v` names host `h`. */
  function RowAt(s: State, v: nat, h: nat): State
    requires v in s.vms
  {
    s.(vms := s.vms[v := s.vms[v].(host := Some(h))])
  }

  /** That is what it is for: where only the new host could not be stored, which leaves the books
      unbalanced, the clean-up does just what it would have done with the host stored. */
  lemma RepairRestores(s: State, t: nat, h: nat, saves: Saves, where: Where)
    requires Inv(s) && IsSomeTodo(s, t) && RowAtRest(s, t) && s.tasks[t].vm in s.vms
    requires s.vms[s.tasks[t].vm].host == Some(s.tasks[t].dst) && h != s.tasks[t].dst
    ensures s.tasks[t].src in s.hosts && !Books(RowAt(s, s.tasks[t].vm, h))
    ensures CleanedUp(RowAt(s, s.tasks[t].vm, h), t, saves, AtDst) == CleanedUp(s, t, saves, where)
  {
    assert TaskOk(s, t) && RowOk(s, s.tasks[t].vm);
    var lost := RowAt(s, s.tasks[t].vm, h);
    Unbalanced(s, lost, s.tasks[t].vm, t, s.tasks[t].dst);
    assert Repaired(lost, t, AtDst).vms == s.vms;
    assert Repaired(lost, t, AtDst) == s && Repaired(s, t, where) == s;
  }

  lemma CleanedAgainBreaks(s: State, t: nat, saves: Saves, where: Where)
    requires Inv(s) && IsSomeTodo(s, t) && Reaches(s, t, where) && !Repairs(s, t, where) && s.tasks[t].src in s.hosts
    requires !s.tasks[t].srcFree && s.tasks[t].srcTaken
    ensures !Books(CleanedUp(s, t, saves, where))
  {
    assert TaskOk(s, t) && RowOk(s, s.tasks[t].vm);
    InvBounded(s);
    CleanedForm(s, t, saves, where);
    Unbalanced(s, CleanedUp(s, t, saves, where), s.tasks[t].vm, t, s.tasks[t].src);
  }

  lemma CleanUpDone(s: State, t: nat, saves: Saves, where: Where)
    requires Inv(s) && IsSomeTodo(s, t) && Reaches(s, t, where) && !Repairs(s, t, where) && s.tasks[t].src in s.hosts
    requires s.tasks[t].srcFree
    ensures Inv(CleanedUp(s, t, saves, where))
  {
    assert TaskOk(s, t);
    MarkedKeeps(s, t, CleanedTask(s.tasks[t], false, saves));
  }

  lemma CleanUpReleases(s: State, t: nat, saves: Saves, where: Where)
    requires Inv(s) && IsSomeTodo(s, t) && Reaches(s, t, where) && !Repairs(s, t, where) && s.tasks[t].src in s.hosts
    requires !s.tasks[t].srcTaken && !s.tasks[t].srcFree && !s.tasks[t].worker.Active()
    ensures Inv(CleanedUp(s, t, saves, where))
  {
    assert TaskOk(s, t) && RowOk(s, s.tasks[t].vm);
    InvBounded(s);
    TodoReleases(s, t);
    CleanedForm(s, t, saves, where);
    var task, size := s.tasks[t], RowSize(s, t);
    var cleaning := task.(worker := Cleaning(true), srcTaken := true);
    ReleasedKeeps(s, t, cleaning, false);
    var s1 := Freed(s, t, task.src, size, cleaning);
    CleanedIsMark(task, saves);
    MarkedKeeps(s1, t, CleanedTask(task, true, saves));
    FreedThen(s, t, task.src, size, cleaning, CleanedTask(task, true, saves));
  }

  lemma CleanedIsMark(task: Task, saves: Saves)
    requires FlagsOk(task) && StatusOk(task) && task.status == SomeTodo
    requires !task.srcTaken && !task.srcFree && !task.worker.Active()
    ensures var cleaning, cleaned := task.(worker := Cleaning(true), srcTaken := true), CleanedTask(task, true, saves);
      && SameDebt(cleaning, cleaned) && FlagsOk(cleaned) && StatusOk(cleaned)
      && !cleaned.Expecting() && !cleaned.Measured()
  {
  }

  /** Repeating a stored clean-up changes nothing more. */
  lemma CleanUpTwice(s: State, t: nat, saves: Saves, where: Where)
    requires Inv(s) && IsSomeTodo(s, t) && saves.flag && saves.done
    ensures s.tasks[t].src in s.hosts
    ensures var s1 := CleanedUp(s, t, saves, where);
      && t in s1.tasks && s1.tasks[t].src in s1.hosts
      && (s1.tasks[t].status == SomeTodo ==> CleanedUp(s1, t, saves, where) == s1)
  {
    assert TaskOk(s, t) && RowOk(s, s.tasks[t].vm);
    InvBounded(s);
    if Reaches(s, t, where) {
      CleanedShape(s, t, saves, where);
      CleanedTwice(s.tasks[t], saves);
      var s1 := CleanedUp(s, t, saves, where);
      if s1.tasks[t].status == SomeTodo { NothingLeft(s1, t, saves, where); }
    }
  }

  lemma NothingLeft(s: State, t: nat, saves: Saves, where: Where)
    requires t in s.tasks && s.tasks[t].src in s.hosts && s.tasks[t].srcFree && !Repairs(s, t, where)
    requires CleanedTask(s.tasks[t], false, saves) == s.tasks[t]
    ensures CleanedUp(s, t, saves, where) == s
  {
    assert s.tasks[t := s.tasks[t]] == s.tasks;
  }

  lemma CleanedTwice(task: Task, saves: Saves)
    requires saves.flag && saves.done
    ensures forall freed | freed || task.srcFree ::
              var task' := CleanedTask(task, freed, saves);
              && task'.vm == task.vm && task'.src == task.src && task'.dst == task.dst && task'.srcFree
              && (task'.status == SomeTodo ==> CleanedTask(task', false, saves) == task')
  {
  }

  // ---------- clean-up under a running thread ----------

  predicate AtWork(s: State, t: nat) {
    t in s.tasks && s.tasks[t].tag == Live && s.tasks[t].status == SomeTodo
    && (s.tasks[t].worker == Running || s.tasks[t].worker == Marking)
  }

  /** The steps that the thread of a live migration still takes. */
  function RestOfThread(task: Task, t: nat): seq<Label> {
    if task.srcFree then [FinishTask(t, false)]
    else if task.freeTried then [MarkSrc(t)] + [FinishTask(t, false)]
    else if task.srcUncounted then [FreeSrc(t)] + ([MarkSrc(t)] + [FinishTask(t, false)])
    else [UncountSrc(t)] + ([FreeSrc(t)] + ([MarkSrc(t)] + [FinishTask(t, false)]))
  }

  /** What the thread still takes off the source, and what becomes of the task. The thread reads
      neither its row nor that of the VM again. */
  function ThreadHost(row: Host, task: Task): Host {
    row.(vcpu := row.vcpu - if task.freeTried then 0 else task.knownVcpu,
         mem := row.mem - if task.freeTried then 0 else task.knownMem,
         vmCreated := row.vmCreated - if task.srcUncounted then 0 else 1)
  }

  function ThreadTask(task: Task): Task {
    task.(srcUncounted := true, freeTried := true, srcTaken := true, srcFree := true, status := Complete,
          worker := Resting)
  }

  function ThreadFinishes(s: State, t: nat): State
    requires t in s.tasks && s.tasks[t].src in s.hosts
  {
    WithTask(WithHost(s, s.tasks[t].src, ThreadHost(s.hosts[s.tasks[t].src], s.tasks[t])), t, ThreadTask(s.tasks[t]))
  }

  /** The same end is reached from every state on the way. */
  lemma SameEnd(s: State, t: nat, row: Host, task: Task)
    requires t in s.tasks && s.tasks[t].src in s.hosts && task.src == s.tasks[t].src
    requires ThreadHost(row, task) == ThreadHost(s.hosts[task.src], s.tasks[t])
        && ThreadTask(task) == ThreadTask(s.tasks[t])
    ensures ThreadFinishes(WithTask(WithHost(s, task.src, row), t, task), t) == ThreadFinishes(s, t)
  {
    var s1, src := WithTask(WithHost(s, task.src, row), t, task), task.src;
    assert s1.hosts[src := ThreadHost(row, task)] == s.hosts[src := ThreadHost(row, task)];
    assert s1.tasks[t := ThreadTask(task)] == s.tasks[t := ThreadTask(task)];
  }

  lemma ThreadEnds(s: State, t: nat)
    requires Inv(s) && AtWork(s, t) && s.tasks[t].srcFree
    ensures s.tasks[t].src in s.hosts
    ensures Exec(s, RestOfThread(s.tasks[t], t)) == Some(ThreadFinishes(s, t)) && Inv(ThreadFinishes(s, t))
  {
    assert TaskOk(s, t);
    MarkForm(s, FinishTask(t, false), t);
    MarkKeeps(s, FinishTask(t, false), t);
    assert s.hosts[s.tasks[t].src := s.hosts[s.tasks[t].src]] == s.hosts;
    Exec1(s, FinishTask(t, false));
  }

  lemma ThreadMarks(s: State, t: nat)
    requires Inv(s) && AtWork(s, t) && !s.tasks[t].srcFree && s.tasks[t].freeTried
    ensures s.tasks[t].src in s.hosts
    ensures Exec(s, RestOfThread(s.tasks[t], t)) == Some(ThreadFinishes(s, t)) && Inv(ThreadFinishes(s, t))
  {
    assert TaskOk(s, t);
    var task := s.tasks[t].(srcFree := true, worker := Running);
    MarkForm(s, MarkSrc(t), t);
    MarkKeeps(s, MarkSrc(t), t);
    assert s.hosts[task.src := s.hosts[task.src]] == s.hosts;
    SameEnd(s, t, s.hosts[task.src], task);
    ThreadEnds(WithTask(s, t, task), t);
    ExecThen(s, MarkSrc(t), WithTask(s, t, task), [FinishTask(t, false)]);
  }

  function FreedTask(task: Task): Task { task.(freeTried := true, srcTaken := true, worker := Marking) }

  /** The thread has released the source. */
  function ThreadFreed(s: State, t: nat): State
    requires t in s.tasks && s.tasks[t].src in s.hosts
  {
    Freed(s, t, s.tasks[t].src, (s.tasks[t].vcpu, s.tasks[t].mem), FreedTask(s.tasks[t]))
  }

  lemma FreedSameEnd(s: State, t: nat)
    requires t in s.tasks && s.tasks[t].src in s.hosts && !s.tasks[t].freeTried
    requires s.tasks[t].knownVcpu == s.tasks[t].vcpu && s.tasks[t].knownMem == s.tasks[t].mem
    ensures ThreadFinishes(ThreadFreed(s, t), t) == ThreadFinishes(s, t)
  {
    var src, row := s.tasks[t].src, s.hosts[s.tasks[t].src];
    FreedTaskEnds(s.tasks[t], row);
    SameEnd(s, t, Thinned(row, (s.tasks[t].vcpu, s.tasks[t].mem)), FreedTask(s.tasks[t]));
  }

  lemma FreedTaskEnds(task: Task, row: Host)
    requires !task.freeTried && task.knownVcpu == task.vcpu && task.knownMem == task.mem
    ensures FreedTask(task).src == task.src && ThreadTask(FreedTask(task)) == ThreadTask(task)
    ensures ThreadHost(Thinned(row, (task.vcpu, task.mem)), FreedTask(task)) == ThreadHost(row, task)
  {
  }

  lemma ThreadFrees(s: State, t: nat)
    requires Inv(s) && AtWork(s, t) && !s.tasks[t].freeTried && s.tasks[t].srcUncounted
    ensures s.tasks[t].src in s.hosts
    ensures Exec(s, RestOfThread(s.tasks[t], t)) == Some(ThreadFinishes(s, t)) && Inv(ThreadFinishes(s, t))
  {
    assert TaskOk(s, t);
    ReleaseReached(s, t);
    TaskNextIs(s, FreeSrc(t), t, ThreadFreed(s, t));
    FreedSameEnd(s, t);
    ThreadMarks(ThreadFreed(s, t), t);
    ExecThen(s, FreeSrc(t), ThreadFreed(s, t), [MarkSrc(t)] + [FinishTask(t, false)]);
  }

  lemma TaskNextIs(s: State, l: Label, t: nat, s': State)
    requires TaskOf(l) == Some(t) && !l.ClaimDst? && TaskNext(s, l, t) == Some(s')
    ensures Next(s, l) == Some(s')
  {
  }

  /** From any point of its work, the rest of the thread is a run of the protocol that leads there and
      keeps the invariant. */
  lemma ThreadRuns(s: State, t: nat)
    requires Inv(s) && AtWork(s, t)
    ensures s.tasks[t].src in s.hosts
    ensures Exec(s, RestOfThread(s.tasks[t], t)) == Some(ThreadFinishes(s, t)) && Inv(ThreadFinishes(s, t))
  {
    assert TaskOk(s, t);
    if s.tasks[t].srcFree {
      ThreadEnds(s, t);
    } else if s.tasks[t].freeTried {
      ThreadMarks(s, t);
    } else if s.tasks[t].srcUncounted {
      ThreadFrees(s, t);
    } else {
      ThreadUncounts(s, t);
    }
  }

  lemma ThreadUncounts(s: State, t: nat)
    requires Inv(s) && AtWork(s, t) && !s.tasks[t].srcUncounted && !s.tasks[t].freeTried && !s.tasks[t].srcFree
    ensures s.tasks[t].src in s.hosts
    ensures Exec(s, RestOfThread(s.tasks[t], t)) == Some(ThreadFinishes(s, t)) && Inv(ThreadFinishes(s, t))
  {
    assert TaskOk(s, t);
    var task := s.tasks[t].(srcUndefined := true, srcUncounted := true);
    var row := s.hosts[task.src].CountBy(-1);
    UncountSrcKeeps(s, t);
    SameEnd(s, t, row, task);
    ThreadFrees(WithTask(WithHost(s, task.src, row), t, task), t);
    ExecThen(s, UncountSrc(t), WithTask(WithHost(s, task.src, row), t, task),
             [FreeSrc(t)] + ([MarkSrc(t)] + [FinishTask(t, false)]));
  }

  lemma UnderThreadTask(task: Task, saves: Saves)
    requires task.worker.Active()
    ensures var cleaned := CleanedTask(task, true, saves);
      && ThreadTask(cleaned) == ThreadTask(task) && cleaned.src == task.src
      && (forall row :: ThreadHost(row, cleaned) == ThreadHost(row, task))
  {
  }

  /** The thread goes on after the clean-up: the task ends the same, the row is where the clean-up put
      it, and the source lost the size of the VM once more, unless it was free. */
  lemma UnderThread(s: State, t: nat, saves: Saves, where: Where)
    requires Inv(s) && AtWork(s, t) && Reaches(s, t, where) && s.tasks[t].src in s.hosts
    ensures t in CleanedUp(s, t, saves, where).tasks && CleanedUp(s, t, saves, where).tasks[t].src == s.tasks[t].src
    ensures s.tasks[t].src in CleanedUp(s, t, saves, where).hosts
    ensures var src := s.tasks[t].src;
      ThreadFinishes(CleanedUp(s, t, saves, where), t)
      == ThreadFinishes(s, t).(vms := Repaired(s, t, where).vms,
                               hosts := s.hosts[src := ThreadHost(CleanedHosts(s, t)[src], s.tasks[t])])
  {
    assert TaskOk(s, t) && RowOk(s, s.tasks[t].vm);
    InvBounded(s);
    CleanedShape(s, t, saves, where);
    UnderThreadTask(s.tasks[t], saves);
    FinishesFrom(s, t, CleanedUp(s, t, saves, where), CleanedTask(s.tasks[t], true, saves));
  }

  lemma FinishesFrom(s: State, t: nat, m: State, task: Task)
    requires SrcKnown(s, t) && task.src == s.tasks[t].src && ThreadTask(task) == ThreadTask(s.tasks[t])
    requires forall row :: ThreadHost(row, task) == ThreadHost(row, s.tasks[t])
    requires m == s.(tasks := s.tasks[t := task], hosts := CleanedHosts(s, t), vms := m.vms)
    ensures task.src in m.hosts
    ensures ThreadFinishes(m, t)
            == ThreadFinishes(s, t).(vms := m.vms,
                                     hosts := s.hosts[task.src := ThreadHost(m.hosts[task.src], s.tasks[t])])
  {
    assert m.hosts[task.src := ThreadHost(m.hosts[task.src], task)]
        == s.hosts[task.src := ThreadHost(m.hosts[task.src], task)];
    assert m.tasks[t := ThreadTask(task)] == s.tasks[t := ThreadTask(task)];
  }

  /** Clean-up under a thread at work, and then the rest of the thread, keep the invariant if and only
      if the clean-up did nothing, or the thread had stored its release before and the row stays;
      otherwise the books do not balance. */
  lemma CleanUpUnderThread(s: State, t: nat, saves: Saves, where: Where)
    requires Inv(s) && AtWork(s, t) && RowAtRest(s, t)
    ensures s.tasks[t].src in s.hosts
    ensures var m := CleanedUp(s, t, saves, where);
      && t in m.tasks && m.tasks[t].src in m.hosts
      && (Inv(ThreadFinishes(m, t)) <==> !Reaches(s, t, where) || (!Repairs(s, t, where) && s.tasks[t].srcFree))
      && (Books(ThreadFinishes(m, t)) <==> Inv(ThreadFinishes(m, t)))
  {
    ThreadRuns(s, t);
    if Reaches(s, t, where) {
      if Repairs(s, t, where) || !s.tasks[t].srcFree {
        UnderThreadBreaks(s, t, saves, where);
      } else {
        NothingTaken(s, t, saves, where);
      }
    }
  }

  lemma NothingTaken(s: State, t: nat, saves: Saves, where: Where)
    requires Inv(s) && AtWork(s, t) && Reaches(s, t, where) && !Repairs(s, t, where) && s.tasks[t].srcFree
    ensures s.tasks[t].src in s.hosts
    ensures var m := CleanedUp(s, t, saves, where);
      t in m.tasks && m.tasks[t].src in m.hosts && ThreadFinishes(m, t) == ThreadFinishes(s, t)
  {
    assert TaskOk(s, t);
    UnderThread(s, t, saves, where);
  }

  lemma UnderThreadBreaks(s: State, t: nat, saves: Saves, where: Where)
    requires Inv(s) && AtWork(s, t) && RowAtRest(s, t) && Reaches(s, t, where) && s.tasks[t].src in s.hosts
    requires Books(ThreadFinishes(s, t)) && (Repairs(s, t, where) || !s.tasks[t].srcFree)
    ensures var m := CleanedUp(s, t, saves, where);
      t in m.tasks && m.tasks[t].src in m.hosts && !Books(ThreadFinishes(m, t))
  {
    assert TaskOk(s, t) && RowOk(s, s.tasks[t].vm);
    UnderThread(s, t, saves, where);
    var bad := ThreadFinishes(CleanedUp(s, t, saves, where), t);
    if Repairs(s, t, where) {
      RowMoved(ThreadFinishes(s, t), bad, s.tasks[t].vm, t, s.tasks[t].dst);
    } else {
      TakenOff(ThreadFinishes(s, t), bad, s.tasks[t].src);
    }
  }

  lemma RowMoved(good: State, bad: State, v: nat, t: nat, dst: nat)
    requires Books(good) && IsNormal(good, v) && v !in good.ops && good.vms[v].host != Some(dst)
    requires bad == good.(hosts := bad.hosts, vms := good.vms[v := good.vms[v].(host := Some(dst))])
    requires dst in good.hosts && dst in bad.hosts && bad.hosts[dst] == good.hosts[dst]
    ensures !Books(bad)
  {
    Unbalanced(good, bad, v, t, dst);
  }

  lemma TakenOff(good: State, bad: State, h: nat)
    requires Books(good) && bad == good.(hosts := bad.hosts)
    requires h in good.hosts && h in bad.hosts && bad.hosts[h].vcpu != good.hosts[h].vcpu
    ensures !Books(bad)
  {
    SameCharges(good, bad);
    assert BookOk(good, h) && !BookOk(bad, h);
  }

  // ---------- the check before a live migration ----------

  /** The filter on unfinished tasks as it is written: only tasks older than five minutes count
      (the set `stale`), although its comment asks for those within five minutes. */
  predicate Blocked(s: State, v: nat, stale: set<nat>) {
    exists t | t in s.tasks ::
      s.tasks[t].vm == v && t in stale && (s.tasks[t].status == InProcess || s.tasks[t].status == Waiting)
  }

  /** So as long as no task of the VM was abandoned, a migration that waits, or is in process and may
      still move the VM, blocks another one exactly when it is old. */
  lemma FilterBlocksOldOnly(s: State, t: nat, stale: set<nat>)
    requires Inv(s) && t in s.tasks && s.tasks[t].Expecting()
    requires s.tasks[t].status == InProcess || s.tasks[t].status == Waiting
    requires forall u | u in s.tasks && s.tasks[u].vm == s.tasks[t].vm
                        && (s.tasks[u].status == InProcess || s.tasks[u].status == Waiting) :: s.tasks[u].Expecting()
    ensures Blocked(s, s.tasks[t].vm, stale) <==> t in stale
  {
    forall u | u in s.tasks && s.tasks[u].vm == s.tasks[t].vm
               && (s.tasks[u].status == InProcess || s.tasks[u].status == Waiting)
      ensures u == t
    {
      assert Exclusive(s, u, t);
    }
  }

  predicate IsTodo(s: State, v: nat, t: nat) { IsSomeTodo(s, t) && s.tasks[t].vm == v }
  predicate WaitsFor(s: State, v: nat, t: nat) { IsWaiting(s, t) && s.tasks[t].vm == v }
  function Waits(s: State, v: nat): set<nat> { set t | t in s.tasks && WaitsFor(s, v, t) }
  ghost predicate OneTodo(s: State, v: nat) { forall t, u | IsTodo(s, v, t) && IsTodo(s, v, u) :: t == u }

  /** A task that may still move the VM, and that the check does not see. */
  predicate Unseen(s: State, v: nat) {
    exists t | t in s.tasks :: s.tasks[t].vm == v && s.tasks[t].Expecting() && s.tasks[t].status != Waiting
  }

  // ---------- giving back too often ----------

  ghost predicate NotAbove(s: State, h: nat) { h in s.hosts ==> s.hosts[h].vcpu <= Load(Charges(s), h, Vcpu) }
  ghost predicate Below(s: State, h: nat) { h in s.hosts && s.hosts[h].vcpu < Load(Charges(s), h, Vcpu) }

  /** The counter of host `h` moved by no more than what `v` and `t` owe to it. */
  predicate Sinks(s: State, s': State, v: nat, t: nat, h: nat) {
    h in s.hosts && h in s'.hosts
    && s'.hosts[h].vcpu - s.hosts[h].vcpu <= OwedBy(s', v, t, h, Vcpu) - OwedBy(s, v, t, h, Vcpu)
  }

  lemma StaysBelow(s: State, s': State, v: nat, t: nat, h: nat)
    requires Apart(s, s', v, t) && Sinks(s, s', v, t, h)
    ensures NotAbove(s, h) ==> NotAbove(s', h)
    ensures Below(s, h) ==> Below(s', h)
    ensures NotAbove(s, h) && !Sinks(s', s, v, t, h) ==> Below(s', h)
  {
    LoadMoves(s, s', v, t, h, Vcpu);
  }

  lemma BelowBreaks(s: State, h: nat)
    requires Below(s, h)
    ensures !Books(s)
  {
    assert !BookOk(s, h);
  }

  /** The row of a host after some releases. */
  predicate Lower(row: Host, row': Host) {
    row' == row.(vcpu := row'.vcpu, mem := row'.mem) && row'.vcpu <= row.vcpu && row'.mem <= row.mem
  }

  /** The tables after the waiting tasks `done` were failed. */
  ghost predicate CancelledTables(s: State, m: State, done: set<nat>) {
    && m == s.(hosts := m.hosts, tasks := m.tasks)
    && m.hosts.Keys == s.hosts.Keys && (forall h | h in s.hosts :: Lower(s.hosts[h], m.hosts[h]))
    && m.tasks.Keys == s.tasks.Keys
    && (forall t | t in s.tasks :: m.tasks[t] == if t in done then FailedRow(s.tasks[t], true, true) else s.tasks[t])
  }

  ghost predicate AllHeld(s: State, done: set<nat>) { forall t | t in done && t in s.tasks :: !s.tasks[t].dstTaken }

  /** And what that makes of the books. */
  ghost predicate CancelledBooks(s: State, m: State, done: set<nat>) {
    (forall h :: NotAbove(m, h)) && (if AllHeld(s, done) then Inv(m) else exists h :: Below(m, h))
  }

  ghost predicate Cancelled(s: State, m: State, done: set<nat>) {
    CancelledTables(s, m, done) && CancelledBooks(s, m, done)
  }

  lemma CancelledNone(s: State)
    requires Inv(s)
    ensures Cancelled(s, s, {})
  {
    forall h ensures NotAbove(s, h) { if h in s.hosts { assert BookOk(s, h); } }
  }

  lemma CancelledBounded(s: State, m: State, done: set<nat>)
    requires Inv(s) && CancelledTables(s, m, done)
    ensures Bounded(m)
  {
    InvBounded(s);
    forall h | h in m.hosts ensures m.hosts[h].vcpu <= m.hosts[h].vcpuTotal && m.hosts[h].mem <= m.hosts[h].memTotal {
      assert Lower(s.hosts[h], m.hosts[h]);
    }
  }

  lemma CancelForm(s: State, m: State, done: set<nat>, t: nat)
    requires Inv(s) && CancelledTables(s, m, done) && IsWaiting(s, t) && t !in done && s.tasks[t].vm in s.vms
    ensures DstKnown(m, t) && m.tasks[t] == s.tasks[t] && RowSize(m, t) == RowSize(s, t)
    ensures RowSize(s, t).0 > 0 && RowSize(s, t).1 > 0
    ensures FailedTask(m, t, true)
            == Freed(m, t, s.tasks[t].dst, RowSize(s, t), FailedRow(s.tasks[t], true, true))
    ensures CancelledTables(s, FailedTask(m, t, true), done + {t})
  {
    assert TaskOk(s, t) && RowOk(s, s.tasks[t].vm);
    CancelledBounded(s, m, done);
    FailedForm(m, t, true);
  }

  /** Failing a task takes off its destination what it claimed there, or once more what was given back
      before. */
  lemma FailedSinks(m: State, t: nat, h: nat, size: (int, int))
    requires IsWaiting(m, t) && !m.tasks[t].switched && h in m.hosts && m.tasks[t].dst in m.hosts
    requires !m.tasks[t].dstTaken ==> size.0 == m.tasks[t].vcpu
    requires size.0 > 0
    ensures var after := Freed(m, t, m.tasks[t].dst, size, FailedRow(m.tasks[t], true, true));
      && Apart(m, after, m.tasks[t].vm, t) && Sinks(m, after, m.tasks[t].vm, t, h)
      && (h == m.tasks[t].dst && m.tasks[t].dstTaken ==> !Sinks(after, m, m.tasks[t].vm, t, h))
  {
    var after := Freed(m, t, m.tasks[t].dst, size, FailedRow(m.tasks[t], true, true));
    assert ChargeOf(after, VmOwner(m.tasks[t].vm)) == ChargeOf(m, VmOwner(m.tasks[t].vm));
    assert ChargeOf(after, SrcOwner(t)) == ChargeOf(m, SrcOwner(t)) == NOTHING;
  }

  lemma CancelSinks(s: State, m: State, done: set<nat>, t: nat, h: nat)
    requires Inv(s) && CancelledTables(s, m, done) && IsWaiting(s, t) && t !in done && s.tasks[t].vm in s.vms
    requires h in s.hosts && DstKnown(m, t)
    ensures var after := FailedTask(m, t, true);
      && (NotAbove(m, h) ==> NotAbove(after, h)) && (Below(m, h) ==> Below(after, h))
      && (NotAbove(m, h) && h == s.tasks[t].dst && s.tasks[t].dstTaken ==> Below(after, h))
  {
    CancelForm(s, m, done, t);
    assert TaskOk(s, t);
    FailedSinks(m, t, h, RowSize(s, t));
    StaysBelow(m, FailedTask(m, t, true), s.tasks[t].vm, t, h);
  }

  lemma CancelNotAbove(s: State, m: State, done: set<nat>, t: nat)
    requires Inv(s) && CancelledTables(s, m, done) && IsWaiting(s, t) && t !in done && s.tasks[t].vm in s.vms
    requires DstKnown(m, t) && forall h :: NotAbove(m, h)
    ensures forall h :: NotAbove(FailedTask(m, t, true), h)
  {
    forall h ensures NotAbove(FailedTask(m, t, true), h) {
      assert NotAbove(m, h);
      if h in s.hosts { CancelSinks(s, m, done, t, h); }
    }
  }

  lemma CancelOneMore(s: State, m: State, done: set<nat>, t: nat)
    requires Inv(s) && Cancelled(s, m, done) && IsWaiting(s, t) && t !in done && s.tasks[t].vm in s.vms
    ensures DstKnown(m, t) && Cancelled(s, FailedTask(m, t, true), done + {t})
  {
    CancelForm(s, m, done, t);
    CancelNotAbove(s, m, done, t);
    HeldOneMore(s, done, t);
    if !AllHeld(s, done) {
      var h :| Below(m, h);
      CancelSinks(s, m, done, t, h);
    } else if s.tasks[t].dstTaken {
      assert TaskOk(s, t);
      CancelSinks(s, m, done, t, s.tasks[t].dst);
    } else {
      FailedExactly(m, t, true);
    }
  }

  lemma HeldOneMore(s: State, done: set<nat>, t: nat)
    requires t in s.tasks
    ensures AllHeld(s, done + {t}) <==> AllHeld(s, done) && !s.tasks[t].dstTaken
  {
  }

  // ---------- settling ----------

  ghost predicate Lists(list: seq<nat>, s: State, v: nat) {
    && (forall t :: t in list <==> IsTodo(s, v, t) || WaitsFor(s, v, t))
    && (forall i, j | 0 <= i < j < |list| :: list[i] != list[j])
  }

  ghost predicate ListsTodo(todo: seq<nat>, s: State, v: nat) {
    && (forall t :: t in todo <==> IsTodo(s, v, t))
    && (forall i, j | 0 <= i < j < |todo| :: todo[i] != todo[j])
  }

  method CancelOne(db: Database, ghost s: State, ghost done: set<nat>, t: nat, saves: bool) returns (ok: bool)
    requires Inv(s) && Cancelled(s, db.Snapshot(), done) && IsWaiting(s, t) && t !in done && s.tasks[t].vm in s.vms
    modifies db`hosts, db`tasks
    ensures ok == saves
    ensures ok ==> Cancelled(s, db.Snapshot(), done + {t})
    ensures !ok && old(db.Snapshot()) == s ==> DstKnown(s, t) && db.Snapshot() == FailedTask(s, t, false)
  {
    CancelOneMore(s, db.Snapshot(), done, t);
    assert db.tasks[t] == s.tasks[t];
    ok := DoTaskFailed(db, t, saves);
  }

  /** Fails the waiting tasks of the list and returns the others. Where FAILED cannot be stored the
      first one is given back and the rest is left alone. */
  method CancelWaiting(db: Database, v: nat, list: seq<nat>, saves: bool) returns (ok: bool, todo: seq<nat>)
    requires Inv(db.Snapshot()) && Lists(list, db.Snapshot(), v) && v in db.vms
    modifies db`hosts, db`tasks
    ensures ok <==> saves || Waits(old(db.Snapshot()), v) == {}
    ensures ok ==> ListsTodo(todo, old(db.Snapshot()), v)
                   && Cancelled(old(db.Snapshot()), db.Snapshot(), Waits(old(db.Snapshot()), v))
    ensures !ok ==> exists t | WaitsFor(old(db.Snapshot()), v, t) ::
              DstKnown(old(db.Snapshot()), t) && db.Snapshot() == FailedTask(old(db.Snapshot()), t, false)
  {
    ghost var s := db.Snapshot();
    ghost var done: set<nat> := {};
    todo := [];
    CancelledNone(s);
    for i := 0 to |list|
      invariant forall t :: t in todo <==> t in list[..i] && IsTodo(s, v, t)
      invariant forall t :: t in done <==> t in list[..i] && WaitsFor(s, v, t)
      invariant forall j, k | 0 <= j < k < |todo| :: todo[j] != todo[k]
      invariant Cancelled(s, db.Snapshot(), done) && (done == {} ==> db.Snapshot() == s) && (!saves ==> done == {})
    {
      var t := list[i];
      assert t in list && t !in list[..i] && list[..i + 1] == list[..i] + [t];
      if db.tasks[t].status == Waiting {
        var failed := CancelOne(db, s, done, t, saves);
        if !failed {
          return false, [];
        }
        done := done + {t};
      } else {
        todo := todo + [t];
      }
    }
    assert list[..|list|] == list;
    assert done == Waits(s, v);
    return true, todo;
  }

  /** The check gives back once more what was given back without a record of it, or moves the row. */
  ghost predicate SpoilsWaiting(s: State, v: nat) {
    exists t | t in s.tasks :: WaitsFor(s, v, t) && s.tasks[t].dstTaken
  }

  ghost predicate SpoilsTodo(s: State, v: nat, where: Where) {
    OneTodo(s, v) && exists t | t in s.tasks :: IsTodo(s, v, t) && !CleansWell(s, t, where)
  }

  ghost predicate TodoCloses(s: State, v: nat, where: Where) {
    OneTodo(s, v) && forall t | IsTodo(s, v, t) :: s.tasks[t].srcUndefined && Reaches(s, t, where)
  }

  lemma TodoLength(todo: seq<nat>, s: State, v: nat)
    requires ListsTodo(todo, s, v)
    ensures |todo| <= 1 <==> OneTodo(s, v)
    ensures |todo| == 1 ==> IsTodo(s, v, todo[0]) && forall u :: IsTodo(s, v, u) <==> u == todo[0]
    ensures |todo| == 0 ==> forall u :: !IsTodo(s, v, u)
  {
    if |todo| > 1 {
      assert todo[0] in todo && todo[1] in todo;
    }
    if |todo| == 1 {
      assert todo[0] in todo;
    }
  }

  /** The clean-up finds what it would have found without the cancel. */
  lemma TodoForm(s: State, m: State, v: nat, t: nat, saves: Saves, where: Where)
    requires Inv(s) && CancelledTables(s, m, Waits(s, v)) && IsTodo(s, v, t)
    ensures m.tasks[t] == s.tasks[t] && m.vms == s.vms && s.tasks[t].src in s.hosts && s.tasks[t].src in m.hosts
    ensures v in s.vms ==> SrcKnown(m, t) && Frees(m, t, s.tasks[t].src) && RowSize(m, t) == RowSize(s, t)
    ensures v in s.vms ==> RowSize(m, t).0 > 0 && RowSize(m, t).1 > 0 && Bounded(m)
    ensures v in s.vms ==> (Closes(m, t, where) <==> s.tasks[t].srcUndefined && Reaches(s, t, where))
  {
    assert TaskOk(s, t) && RowOk(s, v);
    CancelledBounded(s, m, Waits(s, v));
    if v in s.vms { AtRowSize(m, t, s.tasks[t].src, s.tasks[t]); }
  }

  /** A clean-up that does not move the row takes off the source what the task owes there, or once more
      what was given back before. */
  lemma CleanedSinks(m: State, t: nat, h: nat, saves: Saves)
    requires SrcKnown(m, t) && h in m.hosts && m.tasks[t].switched && RowSize(m, t).0 > 0
    requires !m.tasks[t].srcTaken ==> RowSize(m, t).0 == m.tasks[t].vcpu
    requires m.tasks[t].srcFree ==> m.tasks[t].srcTaken
    ensures var task := CleanedTask(m.tasks[t], true, saves);
      var after := WithTask(m.(hosts := CleanedHosts(m, t)), t, task);
      && Apart(m, after, m.tasks[t].vm, t) && Sinks(m, after, m.tasks[t].vm, t, h)
  {
    CleanedOwes(m.tasks[t], saves);
    var after := WithTask(m.(hosts := CleanedHosts(m, t)), t, CleanedTask(m.tasks[t], true, saves));
    assert ChargeOf(after, VmOwner(m.tasks[t].vm)) == ChargeOf(m, VmOwner(m.tasks[t].vm));
    assert ChargeOf(after, DstOwner(t)) == ChargeOf(m, DstOwner(t));
  }

  lemma CleanedOwes(task: Task, saves: Saves)
    ensures var task' := CleanedTask(task, true, saves);
      && SameDebt(task, task'.(srcTaken := task.srcTaken)) && (task'.srcTaken <==> task.srcTaken || !task.srcFree)
  {
  }

  lemma CleanedIs(m: State, t: nat, saves: Saves, where: Where)
    requires Bounded(m) && SrcKnown(m, t) && RowSize(m, t).0 > 0 && RowSize(m, t).1 > 0
    requires Reaches(m, t, where) && !Repairs(m, t, where)
    ensures CleanedUp(m, t, saves, where)
            == WithTask(m.(hosts := CleanedHosts(m, t)), t, CleanedTask(m.tasks[t], true, saves))
  {
    CleanedShape(m, t, saves, where);
  }

  lemma CleanedStaysBelow(m: State, t: nat, h: nat, saves: Saves, where: Where)
    requires Bounded(m) && SrcKnown(m, t) && RowSize(m, t).0 > 0 && RowSize(m, t).1 > 0 && Below(m, h)
    requires Reaches(m, t, where) && !Repairs(m, t, where) && m.tasks[t].switched
    requires !m.tasks[t].srcTaken ==> RowSize(m, t).0 == m.tasks[t].vcpu
    requires m.tasks[t].srcFree ==> m.tasks[t].srcTaken
    ensures !Books(CleanedUp(m, t, saves, where))
  {
    CleanedIs(m, t, saves, where);
    CleanedSinks(m, t, h, saves);
    StaysBelow(m, CleanedUp(m, t, saves, where), m.tasks[t].vm, t, h);
    BelowBreaks(CleanedUp(m, t, saves, where), h);
  }

  /** Once the books show too little, a clean-up does not put that right. */
  lemma CleanedBelow(s: State, m: State, v: nat, t: nat, saves: Saves, where: Where)
    requires Inv(s) && Cancelled(s, m, Waits(s, v)) && !AllHeld(s, Waits(s, v)) && IsTodo(s, v, t) && v in s.vms
    requires Reaches(s, t, where) && !Repairs(s, t, where) && t in m.tasks && s.tasks[t].src in m.hosts
    ensures m.tasks[t] == s.tasks[t] && !Books(CleanedUp(m, t, saves, where))
  {
    TodoForm(s, m, v, t, saves, where);
    TodoReleases(s, t);
    assert TaskOk(s, t);
    var h :| Below(m, h);
    CleanedStaysBelow(m, t, h, saves, where);
  }

  lemma RepairedSinks(m: State, after: State, v: nat, t: nat, dst: nat)
    requires IsNormal(m, v) && v !in m.ops && m.vms[v].vcpu > 0 && m.vms[v].host != Some(dst)
    requires t in m.tasks && t in after.tasks && m.tasks[t].switched && after.tasks[t].switched
    requires m.tasks[t].src != dst && after.tasks[t].src != dst && m.tasks[t].vm == v
    requires Apart(m, after, v, t) && after.ops == m.ops && after.vms == m.vms[v := m.vms[v].(host := Some(dst))]
    requires dst in m.hosts && dst in after.hosts && after.hosts[dst] == m.hosts[dst] && NotAbove(m, dst)
    ensures !Books(after)
  {
    assert OwedBy(after, v, t, dst, Vcpu) == OwedBy(m, v, t, dst, Vcpu) + m.vms[v].vcpu;
    StaysBelow(m, after, v, t, dst);
    BelowBreaks(after, dst);
  }

  lemma RepairedBelow(s: State, m: State, v: nat, t: nat, saves: Saves, where: Where)
    requires Inv(s) && Cancelled(s, m, Waits(s, v)) && IsTodo(s, v, t) && IsNormal(s, v) && v !in s.ops
    requires Repairs(s, t, where) && t in m.tasks && s.tasks[t].src in m.hosts
    ensures m.tasks[t] == s.tasks[t] && !Books(CleanedUp(m, t, saves, where))
  {
    TodoForm(s, m, v, t, saves, where);
    assert TaskOk(s, t) && RowOk(s, v) && NotAbove(m, s.tasks[t].dst);
    RepairedForm(m, t, saves, where);
    RepairedSinks(m, CleanedUp(m, t, saves, where), v, t, s.tasks[t].dst);
  }

  lemma RepairedForm(m: State, t: nat, saves: Saves, where: Where)
    requires Bounded(m) && SrcKnown(m, t) && RowSize(m, t).0 > 0 && RowSize(m, t).1 > 0 && Repairs(m, t, where)
    ensures var v, task, after := m.tasks[t].vm, m.tasks[t], CleanedUp(m, t, saves, where);
      && Apart(m, after, v, t) && after.ops == m.ops && after.vms == m.vms[v := m.vms[v].(host := Some(task.dst))]
      && t in after.tasks && after.tasks[t].switched == task.switched && after.tasks[t].src == task.src
      && (task.dst in m.hosts && task.dst != task.src ==>
            task.dst in after.hosts && after.hosts[task.dst] == m.hosts[task.dst])
  {
    CleanedShape(m, t, saves, where);
    CleanedOwes(m.tasks[t], saves);
  }

  /** Whatever the cancel and the clean-up gave back too often, one does not make good for the other. */
  lemma CleanedOnCancelled(s: State, m: State, v: nat, t: nat, saves: Saves, where: Where)
    requires Inv(s) && Cancelled(s, m, Waits(s, v)) && IsTodo(s, v, t) && IsNormal(s, v) && v !in s.ops
    ensures t in m.tasks && m.tasks[t].src in m.hosts
    ensures Inv(CleanedUp(m, t, saves, where)) <==> AllHeld(s, Waits(s, v)) && CleansWell(s, t, where)
  {
    TodoForm(s, m, v, t, saves, where);
    if AllHeld(s, Waits(s, v)) {
      CleanUpExactly(m, t, saves, where);
    } else if !Reaches(s, t, where) {
      var h :| Below(m, h);
      BelowBreaks(m, h);
    } else if Repairs(s, t, where) {
      RepairedBelow(s, m, v, t, saves, where);
    } else {
      CleanedBelow(s, m, v, t, saves, where);
    }
  }

  /** The tables after the check: waiting tasks of the VM are failed, SOME_TODO ones may have changed,
      the row of the VM may name another host. */
  ghost predicate SettledTables(s: State, after: State, v: nat) {
    && after == s.(hosts := after.hosts, tasks := after.tasks, vms := after.vms)
    && after.hosts.Keys == s.hosts.Keys && after.tasks.Keys == s.tasks.Keys
    && (forall t | t in s.tasks && !IsTodo(s, v, t) ::
          after.tasks[t] == if WaitsFor(s, v, t) then FailedRow(s.tasks[t], true, true) else s.tasks[t])
    && (forall t | IsTodo(s, v, t) :: after.tasks[t].vm == v && !after.tasks[t].Expecting())
    && v in s.vms && v in after.vms && after.vms - {v} == s.vms - {v}
    && after.vms[v] == s.vms[v].(host := after.vms[v].host) && (s.vms[v].host.Some? ==> after.vms[v].host.Some?)
  }

  /** And what that makes of the books. */
  ghost predicate Settled(s: State, after: State, v: nat, where: Where) {
    SettledTables(s, after, v) && (Inv(after) <==> !SpoilsWaiting(s, v) && !SpoilsTodo(s, v, where))
  }

  /** A single SOME_TODO task whose VM is reached is cleaned up, and the row is pointed back where the
      domain stands at its destination; more than one are left alone. */
  ghost predicate TodoSettled(s: State, after: State, v: nat, saves: Saves, where: Where) {
    && (forall t | IsTodo(s, v, t) ::
          && t in after.tasks
          && after.tasks[t] == (if OneTodo(s, v) && Reaches(s, t, where) then CleanedTask(s.tasks[t], true, saves)
                                else s.tasks[t])
          && after.vms == if OneTodo(s, v) then Repaired(s, t, where).vms else s.vms)
    && ((forall t :: !IsTodo(s, v, t)) ==> after.vms == s.vms)
  }

  lemma SettledTodo(s: State, m: State, v: nat, t: nat, saves: Saves, where: Where)
    requires Inv(s) && Cancelled(s, m, Waits(s, v)) && IsNormal(s, v)
    requires IsTodo(s, v, t) && forall u :: IsTodo(s, v, u) <==> u == t
    ensures t in m.tasks && m.tasks[t].src in m.hosts && SettledTables(s, CleanedUp(m, t, saves, where), v)
  {
    TodoForm(s, m, v, t, saves, where);
    TodoNotExpecting(s, t, saves);
    if Reaches(m, t, where) {
      CleanedShape(m, t, saves, where);
      SettledBy(s, m, CleanedUp(m, t, saves, where), v, t, CleanedTask(s.tasks[t], true, saves), s.tasks[t].dst);
    } else {
      assert m.tasks[t := m.tasks[t]] == m.tasks;
      SettledBy(s, m, m, v, t, s.tasks[t], s.tasks[t].dst);
    }
  }

  lemma TodoCleaned(s: State, m: State, v: nat, t: nat, saves: Saves, where: Where)
    requires Inv(s) && CancelledTables(s, m, Waits(s, v)) && v in s.vms
    requires IsTodo(s, v, t) && forall u :: IsTodo(s, v, u) <==> u == t
    ensures t in m.tasks && m.tasks[t].src in m.hosts
    ensures TodoSettled(s, CleanedUp(m, t, saves, where), v, saves, where)
  {
    TodoForm(s, m, v, t, saves, where);
    CleanedRows(m, t, saves, where);
    assert OneTodo(s, v);
  }

  lemma CleanedRows(m: State, t: nat, saves: Saves, where: Where)
    requires Bounded(m) && SrcKnown(m, t) && RowSize(m, t).0 > 0 && RowSize(m, t).1 > 0
    ensures var after := CleanedUp(m, t, saves, where);
      && t in after.tasks && after.vms == Repaired(m, t, where).vms
      && after.tasks[t] == if Reaches(m, t, where) then CleanedTask(m.tasks[t], true, saves) else m.tasks[t]
  {
    if Reaches(m, t, where) { CleanedShape(m, t, saves, where); }
  }

  lemma TodoNotExpecting(s: State, t: nat, saves: Saves)
    requires Inv(s) && IsSomeTodo(s, t)
    ensures !s.tasks[t].Expecting()
    ensures CleanedTask(s.tasks[t], true, saves).vm == s.tasks[t].vm
        && !CleanedTask(s.tasks[t], true, saves).Expecting()
  {
    assert TaskOk(s, t);
    CleanedOwes(s.tasks[t], saves);
  }

  lemma SettledBy(s: State, m: State, after: State, v: nat, t: nat, task: Task, dst: nat)
    requires CancelledTables(s, m, Waits(s, v)) && IsTodo(s, v, t) && forall u :: IsTodo(s, v, u) <==> u == t
    requires after == m.(hosts := after.hosts, tasks := m.tasks[t := task], vms := after.vms)
    requires after.hosts.Keys == m.hosts.Keys && task.vm == v && !task.Expecting() && v in s.vms
    requires after.vms == s.vms || after.vms == s.vms[v := s.vms[v].(host := Some(dst))]
    ensures SettledTables(s, after, v)
  {
  }

  lemma SettledOne(s: State, m: State, v: nat, t: nat, saves: Saves, where: Where)
    requires Inv(s) && Cancelled(s, m, Waits(s, v)) && IsNormal(s, v) && v !in s.ops
    requires IsTodo(s, v, t) && forall u :: IsTodo(s, v, u) <==> u == t
    ensures t in m.tasks && m.tasks[t].src in m.hosts && Settled(s, CleanedUp(m, t, saves, where), v, where)
    ensures TodoSettled(s, CleanedUp(m, t, saves, where), v, saves, where)
    ensures Closes(m, t, where) <==> TodoCloses(s, v, where)
  {
    TodoForm(s, m, v, t, saves, where);
    SettledTodo(s, m, v, t, saves, where);
    TodoCleaned(s, m, v, t, saves, where);
    CleanedOnCancelled(s, m, v, t, saves, where);
    OnlyTodo(s, v, t, where);
  }

  lemma OnlyTodo(s: State, v: nat, t: nat, where: Where)
    requires IsTodo(s, v, t) && forall u :: IsTodo(s, v, u) <==> u == t
    ensures AllHeld(s, Waits(s, v)) <==> !SpoilsWaiting(s, v)
    ensures CleansWell(s, t, where) <==> !SpoilsTodo(s, v, where)
    ensures TodoCloses(s, v, where) <==> s.tasks[t].srcUndefined && Reaches(s, t, where)
  {
  }

  lemma SettledNone(s: State, m: State, v: nat, saves: Saves, where: Where)
    requires Inv(s) && Cancelled(s, m, Waits(s, v)) && v in s.vms && (OneTodo(s, v) ==> forall t :: !IsTodo(s, v, t))
    ensures Settled(s, m, v, where) && TodoSettled(s, m, v, saves, where)
  {
    if h :| Below(m, h) { BelowBreaks(m, h); }
    NoneToSettle(s, m, v);
  }

  lemma NoneToSettle(s: State, m: State, v: nat)
    requires Inv(s) && CancelledTables(s, m, Waits(s, v)) && v in s.vms
    ensures SettledTables(s, m, v) && (AllHeld(s, Waits(s, v)) <==> !SpoilsWaiting(s, v))
  {
    forall t | IsTodo(s, v, t) ensures !s.tasks[t].Expecting() { assert TaskOk(s, t); }
  }

  /** More than one SOME_TODO task is refused; a single one is cleaned up. */
  method SettleTodo(db: Database, ghost s: State, v: nat, todo: seq<nat>, saves: Saves, where: Where) returns (ok: bool)
    requires Inv(s) && Cancelled(s, db.Snapshot(), Waits(s, v)) && IsNormal(s, v) && v !in s.ops
        && ListsTodo(todo, s, v)
    modifies db`hosts, db`tasks, db`vms
    ensures Settled(s, db.Snapshot(), v, where) && TodoSettled(s, db.Snapshot(), v, saves, where)
    ensures ok <==> TodoCloses(s, v, where)
  {
    TodoLength(todo, s, v);
    if |todo| != 1 {
      SettledNone(s, db.Snapshot(), v, saves, where);
      return |todo| == 0;
    }
    SettledOne(s, db.Snapshot(), v, todo[0], saves, where);
    var cleaned := HandleSomeTodo(db, todo[0], saves, where);
    return cleaned == Ok(true);
  }

  /** What the check leaves that may still move the VM is just what it did not see. */
  lemma SettledExactly(s: State, after: State, v: nat)
    requires Inv(s) && SettledTables(s, after, v)
    ensures Expected(after, v) <==> Unseen(s, v)
  {
    forall t | t in s.tasks && s.tasks[t].vm == v
      ensures after.tasks[t].Expecting() && after.tasks[t].vm == v
              <==> s.tasks[t].Expecting() && s.tasks[t].status != Waiting
    {
      if IsTodo(s, v, t) { assert TaskOk(s, t); }
    }
  }

  /** What the check makes of state `s`. */
  ghost predicate Checked(s: State, after: State, v: nat, stale: set<nat>, saves: Saves, where: Where) {
    if Blocked(s, v, stale) then after == s
    else if !saves.failed && Waits(s, v) != {} then
      exists t | WaitsFor(s, v, t) :: DstKnown(s, t) && after == FailedTask(s, t, false)
    else Settled(s, after, v, where)
  }

  /** When the check passes, on the fields of the rows. */
  ghost predicate Passes(s: State, v: nat, stale: set<nat>, saves: Saves, where: Where) {
    !Blocked(s, v, stale) && (saves.failed || Waits(s, v) == {}) && TodoCloses(s, v, where)
  }

  lemma ChecksOnFields(s: State, v: nat, stale: set<nat>, saves: Saves, where: Where)
    requires v in s.vms
    ensures Blocked(s, v, stale)
      <==> exists t | t in s.tasks ::
             s.tasks[t].vm == v && t in stale && (s.tasks[t].status == InProcess || s.tasks[t].status == Waiting)
    ensures Passes(s, v, stale, saves, where)
      <==> && (forall t | t in s.tasks && s.tasks[t].vm == v && t in stale ::
                 s.tasks[t].status != InProcess && s.tasks[t].status != Waiting)
           && (saves.failed || forall t | t in s.tasks && s.tasks[t].vm == v :: s.tasks[t].status != Waiting)
           && (forall t, u | t in s.tasks && s.tasks[t].vm == v && s.tasks[t].status == SomeTodo
                             && u in s.tasks && s.tasks[u].vm == v && s.tasks[u].status == SomeTodo :: t == u)
           && (forall t | t in s.tasks && s.tasks[t].vm == v && s.tasks[t].status == SomeTodo ::
                 && s.tasks[t].srcUndefined
                 && (s.vms[v].host == Some(s.tasks[t].dst) || where == AtRowHost || where == AtDst))
  {
    WaitsOnFields(s, v);
    TodoOnFields(s, v, where);
  }

  lemma WaitsOnFields(s: State, v: nat)
    ensures Waits(s, v) == {} <==> forall t | t in s.tasks && s.tasks[t].vm == v :: s.tasks[t].status != Waiting
  {
    if t :| t in Waits(s, v) { assert s.tasks[t].status == Waiting; }
    if t :| t in s.tasks && s.tasks[t].vm == v && s.tasks[t].status == Waiting { assert t in Waits(s, v); }
  }

  lemma TodoOnFields(s: State, v: nat, where: Where)
    requires v in s.vms
    ensures TodoCloses(s, v, where)
      <==> && (forall t, u | t in s.tasks && s.tasks[t].vm == v && s.tasks[t].status == SomeTodo
                             && u in s.tasks && s.tasks[u].vm == v && s.tasks[u].status == SomeTodo :: t == u)
           && (forall t | t in s.tasks && s.tasks[t].vm == v && s.tasks[t].status == SomeTodo ::
                 && s.tasks[t].srcUndefined
                 && (s.vms[v].host == Some(s.tasks[t].dst) || where == AtRowHost || where == AtDst))
  {
    forall t ensures IsTodo(s, v, t) <==> t in s.tasks && s.tasks[t].vm == v && s.tasks[t].status == SomeTodo { }
  }

  /** What a check that passes makes of the tasks of the VM, on their fields: a waiting one is FAILED with
      its claim back, a SOME_TODO one has its source back and is COMPLETE, as far as that could be stored,
      and all others are as before. The row names another host than before only where the domain was found
      on the destination of the SOME_TODO task. */
  lemma PassedOnFields(s: State, after: State, v: nat, saves: Saves, where: Where)
    requires Inv(s) && v in s.vms && SettledTables(s, after, v) && TodoSettled(s, after, v, saves, where)
    requires TodoCloses(s, v, where)
    ensures forall t | t in s.tasks && s.tasks[t].vm == v ::
      var was, task := s.tasks[t], if t in after.tasks then after.tasks[t] else s.tasks[t];
      if was.status == Waiting then task.status == Failed && task.dstTaken && !task.dstClaim
      else if was.status == SomeTodo then
        && task.status == (if saves.done then Complete else SomeTodo) && task.srcTaken
        && task.srcFree == (was.srcFree || saves.flag || saves.done)
      else task == was
    ensures forall t | t in s.tasks && s.tasks[t].vm != v :: t in after.tasks && after.tasks[t] == s.tasks[t]
    ensures forall t | t in s.tasks && s.tasks[t].vm == v && s.tasks[t].status == SomeTodo ::
      after.vms == if where == AtDst then s.vms[v := s.vms[v].(host := Some(s.tasks[t].dst))] else s.vms
    ensures (forall t | t in s.tasks && s.tasks[t].vm == v :: s.tasks[t].status != SomeTodo) ==> after.vms == s.vms
  {
    forall t | IsTodo(s, v, t)
      ensures && after.tasks[t].status == (if saves.done then Complete else SomeTodo) && after.tasks[t].srcTaken
              && after.tasks[t].srcFree == (s.tasks[t].srcFree || saves.flag || saves.done)
              && after.vms == if where == AtDst then s.vms[v := s.vms[v].(host := Some(s.tasks[t].dst))] else s.vms
    {
      assert TaskOk(s, t);
      assert s.vms[v := s.vms[v]] == s.vms;
    }
  }

  /** Cancels the waiting tasks of `v` and cleans up after a SOME_TODO one. The invariant survives
      exactly when the check gives nothing back a second time and does not move the row. If it passes,
      no task may move the VM any more exactly when all that could were seen, which the filter does
      not see to: a recent migration in process is passed over. */
  method OldTaskCheck(db: Database, v: nat, stale: set<nat>, saves: Saves, where: Where) returns (ok: bool)
    requires Inv(db.Snapshot()) && IsNormal(db.Snapshot(), v) && v !in db.ops
    modifies db`hosts, db`tasks, db`vms
    ensures var s := old(db.Snapshot());
      && (ok <==> && (forall t | t in s.tasks && s.tasks[t].vm == v && t in stale ::
                        s.tasks[t].status != InProcess && s.tasks[t].status != Waiting)
                  && (saves.failed || forall t | t in s.tasks && s.tasks[t].vm == v :: s.tasks[t].status != Waiting)
                  && (forall t, u | t in s.tasks && s.tasks[t].vm == v && s.tasks[t].status == SomeTodo
                                    && u in s.tasks && s.tasks[u].vm == v && s.tasks[u].status == SomeTodo :: t == u)
                  && (forall t | t in s.tasks && s.tasks[t].vm == v && s.tasks[t].status == SomeTodo ::
                        && s.tasks[t].srcUndefined
                        && (s.vms[v].host == Some(s.tasks[t].dst) || where == AtRowHost || where == AtDst)))
      && ((exists t | t in s.tasks :: s.tasks[t].vm == v && t in stale
                                      && (s.tasks[t].status == InProcess || s.tasks[t].status == Waiting))
          ==> !ok && db.Snapshot() == s)
      && Checked(s, db.Snapshot(), v, stale, saves, where)
      && (ok ==> TodoSettled(s, db.Snapshot(), v, saves, where) && (Expected(db.Snapshot(), v) <==> Unseen(s, v)))
  {
    ghost var s := db.Snapshot();
    ChecksOnFields(s, v, stale, saves, where);
    if t :| t in db.tasks && db.tasks[t].vm == v && t in stale
            && (db.tasks[t].status == InProcess || db.tasks[t].status == Waiting)
    {
      return false;
    }
    assert !Blocked(s, v, stale);
    ok := CancelAndSettle(db, v, saves, where);
  }

  /** The waiting tasks first, and then what is left to do. */
  method CancelAndSettle(db: Database, v: nat, saves: Saves, where: Where) returns (ok: bool)
    requires Inv(db.Snapshot()) && IsNormal(db.Snapshot(), v) && v !in db.ops
    modifies db`hosts, db`tasks, db`vms
    ensures var s := old(db.Snapshot());
      && (ok <==> (saves.failed || Waits(s, v) == {}) && TodoCloses(s, v, where))
      && (if !saves.failed && Waits(s, v) != {} then
            exists t | WaitsFor(s, v, t) :: DstKnown(s, t) && db.Snapshot() == FailedTask(s, t, false)
          else Settled(s, db.Snapshot(), v, where))
      && (ok ==> TodoSettled(s, db.Snapshot(), v, saves, where) && (Expected(db.Snapshot(), v) <==> Unseen(s, v)))
  {
    ghost var s := db.Snapshot();
    var list := Listed(set t | t in db.tasks && db.tasks[t].vm == v
                               && (db.tasks[t].status == SomeTodo || db.tasks[t].status == Waiting));
    var todo;
    ok, todo := CancelWaiting(db, v, list, saves.failed);
    if !ok {
      return;
    }
    ok := SettleTodo(db, s, v, todo, saves, where);
    SettledExactly(s, db.Snapshot(), v);
  }
}
