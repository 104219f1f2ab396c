/** Starting a live migration. */
module Migrate {
  import opened Tables
  import opened Ledger
  import opened Protocol
  import opened ProtocolInv
  import opened StepKeeps
  import opened Keeps
  import opened Runs
  import opened Continuations
  import opened Databases
  import opened Scheduler
  import opened MigrateThread
  import opened OldTasks

  /** The destination can be used for VM `v`: it exists, is another host of the same group, and
      `v` has neither PCI devices nor further addresses. */
  predicate MayMove(s: State, v: nat, dst: nat) {
    && IsNormal(s, v) && dst in s.hosts && s.vms[v].host.value in s.hosts && dst != s.vms[v].host.value
    && s.hosts[dst].group == s.hosts[s.vms[v].host.value].group
    && NoDevice(s, v) && NoAttachment(s, v)
  }

  function DraftTask(s: State, v: nat, dst: nat, tag: Tag): Task
    requires IsNormal(s, v)
  {
    NewTask(v, s.vms[v].host.value, dst, tag, s.vms[v].vcpu, s.vms[v].mem)
  }

  function WaitingTask(s: State, v: nat, dst: nat): Task
    requires IsNormal(s, v)
  {
    DraftTask(s, v, dst, Live).(status := Waiting, worker := Resting)
  }

  /** The destination is claimed for VM `v`. */
  function DstClaimed(s: State, v: nat, dst: nat): State
    requires IsNormal(s, v) && dst in s.hosts
  {
    var host := s.hosts[dst];
    WithHost(s, dst, host.(vcpu := host.vcpu + s.vms[v].vcpu, mem := host.mem + s.vms[v].mem))
  }

  /** And the task object exists. */
  function ClaimedFor(s: State, t: nat, v: nat, dst: nat, tag: Tag): State
    requires IsNormal(s, v) && dst in s.hosts
  {
    WithTask(DstClaimed(s, v, dst), t, DraftTask(s, v, dst, tag))
  }

  function Started(s: State, t: nat, v: nat, dst: nat): State
    requires IsNormal(s, v) && dst in s.hosts
  {
    WithTask(DstClaimed(s, v, dst), t, WaitingTask(s, v, dst))
  }

  /** A task `t` for VM `v` can be made. */
  predicate CanStart(s: State, t: nat, v: nat, dst: nat) {
    t !in s.tasks && v !in s.ops && MayMove(s, v, dst) && Fits(s, dst, s.vms[v].vcpu, s.vms[v].mem)
    && s.vms[v].vcpu > 0 && s.vms[v].mem > 0
  }

  lemma ClaimedForm(s: State, t: nat, v: nat, dst: nat, tag: Tag)
    requires CanStart(s, t, v, dst)
    ensures Next(s, ClaimDst(t, v, dst, tag)) == Some(ClaimedFor(s, t, v, dst, tag))
  {
  }

  lemma ClaimedInv(s: State, t: nat, v: nat, dst: nat, tag: Tag)
    requires Inv(s) && CanStart(s, t, v, dst) && !Expected(s, v)
    ensures Inv(ClaimedFor(s, t, v, dst, tag))
  {
    ClaimedForm(s, t, v, dst, tag);
    NextKeeps(s, ClaimDst(t, v, dst, tag));
  }

  lemma StartedInv(s: State, t: nat, v: nat, dst: nat)
    requires Inv(s) && CanStart(s, t, v, dst) && !Expected(s, v)
    ensures Inv(Started(s, t, v, dst))
  {
    ClaimedInv(s, t, v, dst, Live);
    var draft := DraftTask(s, v, dst, Live);
    var stored, claimed := draft.(status := Waiting), ClaimedFor(s, t, v, dst, Live);
    MarkForm(claimed, SaveTask(t), t);
    MarkKeeps(claimed, SaveTask(t), t);
    WithTaskTwice(DstClaimed(s, v, dst), t, draft, stored);
    var saved := WithTask(DstClaimed(s, v, dst), t, stored);
    MarkForm(saved, HandOver(t), t);
    MarkKeeps(saved, HandOver(t), t);
    WithTaskTwice(DstClaimed(s, v, dst), t, stored, WaitingTask(s, v, dst));
  }

  lemma WithTaskTwice(s: State, t: nat, a: Task, b: Task)
    ensures WithTask(WithTask(s, t, a), t, b) == WithTask(s, t, b)
  {
    assert s.tasks[t := a][t := b] == s.tasks[t := b];
  }

  /** The task of this migration, at any stage before it moves the VM. */
  predicate OnTheWay(s: State, v: nat, dst: nat, task: Task)
    requires IsNormal(s, v)
  {
    SameDebt(DraftTask(s, v, dst, Live), task) && Underway(task)
  }

  lemma ClaimedBooks(s: State, t: nat, v: nat, dst: nat, tag: Tag)
    requires Inv(s) && CanStart(s, t, v, dst)
    ensures Books(ClaimedFor(s, t, v, dst, tag))
  {
    var after := ClaimedFor(s, t, v, dst, tag);
    assert ChargeOf(after, VmOwner(v)) == ChargeOf(s, VmOwner(v));
    assert ChargeOf(after, DstOwner(t)) == Charge(dst, s.vms[v].vcpu, s.vms[v].mem, 0);
    assert ChargeOf(after, SrcOwner(t)) == NOTHING;
    assert BookOk(s, dst);
    Rebalance(s, after, v, t);
  }

  /** The claim balances the books, whatever other tasks there are. */
  lemma StartedBooks(s: State, t: nat, v: nat, dst: nat, task: Task)
    requires Inv(s) && CanStart(s, t, v, dst) && OnTheWay(s, v, dst, task)
    ensures Books(WithTask(DstClaimed(s, v, dst), t, task))
  {
    ClaimedBooks(s, t, v, dst, Live);
    MarkedBooks(ClaimedFor(s, t, v, dst, Live), t, task);
    WithTaskTwice(DstClaimed(s, v, dst), t, DraftTask(s, v, dst, Live), task);
  }

  lemma MayGoOnBoth(s: State, t: nat, v: nat, dst: nat, task: Task, u: nat)
    requires Inv(s) && CanStart(s, t, v, dst) && OnTheWay(s, v, dst, task)
    requires u in s.tasks && s.tasks[u].vm == v && s.tasks[u].Expecting()
    ensures var both := WithTask(DstClaimed(s, v, dst), t, task);
      && MayGoOn(both, t) && InPlace(both, task) && both.tasks[u] == s.tasks[u] && u != t
      && MayGoOn(both, u) && Underway(s.tasks[u]) && InPlace(both, s.tasks[u])
  {
    assert TaskOk(s, u) && RowOk(s, v);
    ExpectingIsUnderway(s.tasks[u]);
  }

  function TaskInProcess(s: State, v: nat, dst: nat): Task
    requires IsNormal(s, v)
  {
    DraftTask(s, v, dst, Live).(status := InProcess)
  }

  /** The new migration was picked up by its thread. */
  function InBoth(s: State, t: nat, v: nat, dst: nat): State
    requires IsNormal(s, v) && dst in s.hosts
  {
    WithTask(DstClaimed(s, v, dst), t, TaskInProcess(s, v, dst))
  }

  lemma StartedToBoth(s: State, t: nat, v: nat, dst: nat)
    requires CanStart(s, t, v, dst)
    ensures var started := Started(s, t, v, dst);
      OwnStep(started, v, PickUp(t)) && Next(started, PickUp(t)) == Some(InBoth(s, t, v, dst))
          && !Harmful(started, PickUp(t))
  {
    MarkForm(Started(s, t, v, dst), PickUp(t), t);
    WithTaskTwice(DstClaimed(s, v, dst), t, WaitingTask(s, v, dst), TaskInProcess(s, v, dst));
  }

  /** No request but this one looks at the tasks of a VM, and this one does not see all of them.
      Starting a migration keeps the invariant if and only if no other task may still move the VM; and
      that is just when no later step of its tasks unbalances the books. */
  lemma StartedExactly(s: State, t: nat, v: nat, dst: nat)
    requires Inv(s) && CanStart(s, t, v, dst)
    ensures Inv(Started(s, t, v, dst)) <==> !Expected(s, v)
    ensures StaysSound(Started(s, t, v, dst), v) <==> !Expected(s, v)
  {
    if Expected(s, v) {
      var u :| u in s.tasks && s.tasks[u].vm == v && s.tasks[u].Expecting();
      MayGoOnBoth(s, t, v, dst, WaitingTask(s, v, dst), u);
      StartedBooks(s, t, v, dst, WaitingTask(s, v, dst));
      TwoMoversBreak(Started(s, t, v, dst), t, u);
    } else {
      StartedInv(s, t, v, dst);
    }
    if Inv(Started(s, t, v, dst)) { InvStaysSound(Started(s, t, v, dst), v); }
  }

  /** What two migrations of one VM do to the accounts: the first moves it, then the second, which
      began before that, moves it as well. The books do not balance any more, even if both go to the
      same host. */
  lemma SecondMigrationBreaksBooks(s: State, u: nat, t: nat, v: nat, dst: nat)
    requires Inv(s) && CanStart(s, t, v, dst) && u in s.tasks && s.tasks[u].vm == v
    requires s.tasks[u].status == InProcess && s.tasks[u].Expecting()
    ensures Next(Started(s, t, v, dst), PickUp(t)) == Some(InBoth(s, t, v, dst))
    ensures var both := InBoth(s, t, v, dst);
      && MayGoOn(both, u) && Next(both, SwitchHost(u)) == Some(Switched(both, u)) && Books(Switched(both, u))
      && MayGoOn(Switched(both, u), t)
      && Next(Switched(both, u), SwitchHost(t)) == Some(Switched(Switched(both, u), t))
      && !Books(Switched(Switched(both, u), t))
  {
    var both := InBoth(s, t, v, dst);
    StartedToBoth(s, t, v, dst);
    MayGoOnBoth(s, t, v, dst, TaskInProcess(s, v, dst), u);
    StartedBooks(s, t, v, dst, TaskInProcess(s, v, dst));
    Moves(both, u);
    SwitchExactly(both, u);
    MovedAway(both, u, t);
    Moves(Switched(both, u), t);
    SwitchExactly(Switched(both, u), t);
  }

  function DroppedTask(task: Task): Task {
    task.(status := Dropped, worker := Resting, dstClaim := false, dstTaken := true)
  }

  /** A dropped task owes nothing and stops nobody. */
  lemma DroppedInv(s: State, t: nat, v: nat, dst: nat, tag: Tag, task: Task)
    requires Inv(s) && CanStart(s, t, v, dst)
    requires task == DraftTask(s, v, dst, tag) || (tag == Live && task == WaitingTask(s, v, dst).(worker := Running))
    ensures Inv(WithTask(s, t, DroppedTask(task)))
  {
    var after := WithTask(s, t, DroppedTask(task));
    TaskStepShape(s, after, t);
    AddressesSame(s, after, v);
    Rebalance(s, after, v, t);
  }

  /** Gives the claim of a task back that never started; then the task goes. */
  method DropTask(db: Database, ghost s: State, t: nat, v: nat, dst: nat)
    requires CanStart(s, t, v, dst) && t in db.tasks && db.tasks[t].dst == dst && !db.tasks[t].dstTaken
    requires db.Snapshot() == WithTask(DstClaimed(s, v, dst), t, db.tasks[t])
    modifies db`hosts, db`tasks
    ensures db.Snapshot() == WithTask(s, t, DroppedTask(old(db.tasks)[t]))
  {
    var task := db.tasks[t];
    var freed := FreeHost(db, dst, db.vms[v].vcpu, db.vms[v].mem);
    assert freed && db.hosts == s.hosts;
    db.tasks := db.tasks[t := task.(status := Dropped, worker := Resting, dstClaim := false, dstTaken := freed)];
    assert db.tasks == s.tasks[t := DroppedTask(task)];
  }

  datatype LiveWorks =
    LiveWorks(localDisk: bool, running: bool, dstUp: bool, claim: bool, save: bool, thread: bool, where: Where)

  /** Starts a live migration. `checked` is the state after old tasks were settled. On success the
      destination is claimed and the task waits; on failure host counters and VMs are as in
      `checked`, whichever step failed. When it starts, the invariant holds exactly when no other
      task may move the VM: exactly when the check could see all of them. */
  method LiveMigrateVm(db: Database, t: nat, v: nat, dst: nat, stale: set<nat>, saves: Saves, w: LiveWorks)
    returns (ok: bool, ghost passed: bool, ghost checked: State)
    requires Inv(db.Snapshot()) && IsNormal(db.Snapshot(), v) && v !in db.ops && t !in db.tasks
    modifies db`hosts, db`tasks, db`vms
    ensures var s := old(db.Snapshot());
      && (if w.localDisk then checked == s else Checked(s, checked, v, stale, saves, w.where))
      && (passed ==> TodoSettled(s, checked, v, saves, w.where) && (Expected(checked, v) <==> Unseen(s, v)))
    ensures var s := old(db.Snapshot());
      passed <==> && !w.localDisk
                  && (forall u | u in s.tasks && s.tasks[u].vm == v && u in stale ::
                        s.tasks[u].status != InProcess && s.tasks[u].status != Waiting)
                  && (saves.failed || forall u | u in s.tasks && s.tasks[u].vm == v :: s.tasks[u].status != Waiting)
                  && (forall x, y | x in s.tasks && s.tasks[x].vm == v && s.tasks[x].status == SomeTodo
                                    && y in s.tasks && s.tasks[y].vm == v && s.tasks[y].status == SomeTodo :: x == y)
                  && (forall u | u in s.tasks && s.tasks[u].vm == v && s.tasks[u].status == SomeTodo ::
                        && s.tasks[u].srcUndefined
                        && (s.vms[v].host == Some(s.tasks[u].dst) || w.where == AtRowHost || w.where == AtDst))
    ensures (exists u | u in old(db.tasks) ::
               old(db.tasks)[u].vm == v && u in stale
               && (old(db.tasks)[u].status == InProcess || old(db.tasks)[u].status == Waiting))
      ==> !ok && db.Snapshot() == old(db.Snapshot())
    ensures v in checked.vms
    ensures var row := checked.vms[v];
      ok <==> && passed && w.running && w.dstUp && w.claim && w.save && w.thread
              && row.host.Some? && row.host.value in checked.hosts && dst in checked.hosts && dst != row.host.value
              && checked.hosts[dst].group == checked.hosts[row.host.value].group
              && (forall dev | dev in checked.devices :: checked.devices[dev].vm != Some(v))
              && (forall ip | ip in checked.attached :: checked.attached[ip].vm != v)
              && checked.hosts[dst].vmCreated < checked.hosts[dst].vmLimit
              && checked.hosts[dst].vcpu + row.vcpu <= checked.hosts[dst].vcpuTotal
              && checked.hosts[dst].mem + row.mem <= checked.hosts[dst].memTotal
    ensures ok ==> IsNormal(checked, v) && dst in checked.hosts && db.Snapshot() == Started(checked, t, v, dst)
    ensures !ok ==> db.Snapshot() == checked.(tasks := db.tasks)
                    && db.tasks - {t} == checked.tasks && (t in db.tasks ==> db.tasks[t].status == Dropped)
    ensures Inv(checked) ==> (Inv(db.Snapshot()) <==> (ok ==> !Expected(checked, v)))
  {
    ok, passed, checked := false, false, db.Snapshot();
    assert db.tasks - {t} == db.tasks;
    if w.localDisk {
      return;
    }
    assert RowOk(checked, v);
    var settled := OldTaskCheck(db, v, stale, saves, w.where);
    CheckedKeeps(checked, db.Snapshot(), t, v, stale, saves, w.where);
    passed, checked := settled, db.Snapshot();
    if !settled {
      assert db.tasks - {t} == db.tasks;
      return;
    }
    ok := MoveIfAllowed(db, t, v, dst, w);
  }

  /** Past the check: the destination is looked at, claimed, and the task queued. */
  method MoveIfAllowed(db: Database, t: nat, v: nat, dst: nat, w: LiveWorks) returns (ok: bool)
    requires IsNormal(db.Snapshot(), v) && v !in db.ops && t !in db.tasks && db.vms[v].vcpu > 0 && db.vms[v].mem > 0
    modifies db`hosts, db`tasks
    ensures var s := old(db.Snapshot()); var row := s.vms[v];
      ok <==> && w.running && w.dstUp && w.claim && w.save && w.thread
              && row.host.Some? && row.host.value in s.hosts && dst in s.hosts && dst != row.host.value
              && s.hosts[dst].group == s.hosts[row.host.value].group
              && (forall dev | dev in s.devices :: s.devices[dev].vm != Some(v))
              && (forall ip | ip in s.attached :: s.attached[ip].vm != v)
              && s.hosts[dst].vmCreated < s.hosts[dst].vmLimit
              && s.hosts[dst].vcpu + row.vcpu <= s.hosts[dst].vcpuTotal
              && s.hosts[dst].mem + row.mem <= s.hosts[dst].memTotal
    ensures var s := old(db.Snapshot());
      && (ok ==> dst in s.hosts && db.Snapshot() == Started(s, t, v, dst))
      && (!ok ==> db.Snapshot() == s.(tasks := db.tasks)
                  && db.tasks - {t} == s.tasks && (t in db.tasks ==> db.tasks[t].status == Dropped))
      && (Inv(s) ==> (Inv(db.Snapshot()) <==> (ok ==> !Expected(s, v))))
  {
    MayMoveOnFields(db.Snapshot(), v, dst);
    assert db.tasks - {t} == db.tasks;
    if !w.running || !MayMove(db.Snapshot(), v, dst) || !w.dstUp {
      return false;
    }
    ok := ClaimAndQueue(db, t, v, dst, w);
  }

  /** When a VM may be moved, and what a started migration is, on the fields of the rows. */
  lemma MayMoveOnFields(s: State, v: nat, dst: nat)
    requires IsNormal(s, v)
    ensures var row := s.vms[v];
      MayMove(s, v, dst) && Fits(s, dst, row.vcpu, row.mem)
      <==> && row.host.Some? && row.host.value in s.hosts && dst in s.hosts && dst != row.host.value
           && s.hosts[dst].group == s.hosts[row.host.value].group
           && (forall dev | dev in s.devices :: s.devices[dev].vm != Some(v))
           && (forall ip | ip in s.attached :: s.attached[ip].vm != v)
           && s.hosts[dst].vmCreated < s.hosts[dst].vmLimit
           && s.hosts[dst].vcpu + row.vcpu <= s.hosts[dst].vcpuTotal
           && s.hosts[dst].mem + row.mem <= s.hosts[dst].memTotal
  {
  }

  lemma StartedOnFields(s: State, t: nat, v: nat, dst: nat)
    requires IsNormal(s, v) && dst in s.hosts
    ensures var after, row, host := Started(s, t, v, dst), s.vms[v], s.hosts[dst];
      && after == s.(hosts := s.hosts[dst := host.(vcpu := host.vcpu + row.vcpu, mem := host.mem + row.mem)],
                     tasks := s.tasks[t := after.tasks[t]])
      && after.tasks[t].vm == v && Some(after.tasks[t].src) == row.host && after.tasks[t].dst == dst
      && after.tasks[t].tag == Live && after.tasks[t].status == Waiting && after.tasks[t].dstClaim
      && after.tasks[t].vcpu == row.vcpu && after.tasks[t].mem == row.mem
      && !after.tasks[t].srcUndefined && !after.tasks[t].srcFree
  {
  }

  /** The check makes no tasks, and leaves the size of the VM as it is. */
  lemma CheckedKeeps(s: State, after: State, t: nat, v: nat, stale: set<nat>, saves: Saves, where: Where)
    requires Checked(s, after, v, stale, saves, where) && v in s.vms
    ensures t in after.tasks ==> t in s.tasks
    ensures v in after.vms && after.vms[v].vcpu == s.vms[v].vcpu && after.vms[v].mem == s.vms[v].mem
    ensures after.ops == s.ops
  {
    if Blocked(s, v, stale) {
    } else if !saves.failed && Waits(s, v) != {} {
      var u :| WaitsFor(s, v, u) && DstKnown(s, u) && after == FailedTask(s, u, false);
      FailedTables(s, u);
    } else {
      SettledKeeps(s, after, v);
    }
  }

  lemma FailedTables(s: State, u: nat)
    requires DstKnown(s, u)
    ensures var after := FailedTask(s, u, false);
      after.tasks.Keys == s.tasks.Keys && after.vms == s.vms && after.ops == s.ops
  {
  }

  lemma SettledKeeps(s: State, after: State, v: nat)
    requires SettledTables(s, after, v)
    ensures after.tasks.Keys == s.tasks.Keys && after.ops == s.ops && v in after.vms
    ensures after.vms[v].vcpu == s.vms[v].vcpu && after.vms[v].mem == s.vms[v].mem
  {
  }

  /** The destination is claimed and the task queued, or the claim given back. */
  method ClaimAndQueue(db: Database, t: nat, v: nat, dst: nat, w: LiveWorks) returns (ok: bool)
    requires MayMove(db.Snapshot(), v, dst) && v !in db.ops && t !in db.tasks && db.vms[v].vcpu > 0 && db.vms[v].mem > 0
    modifies db`hosts, db`tasks
    ensures var s := old(db.Snapshot());
      && (ok <==> Fits(s, dst, s.vms[v].vcpu, s.vms[v].mem) && w.claim && w.save && w.thread)
      && (ok ==> db.Snapshot() == Started(s, t, v, dst))
      && (!ok ==> db.Snapshot() == s.(tasks := db.tasks)
                  && db.tasks - {t} == s.tasks && (t in db.tasks ==> db.tasks[t].status == Dropped))
      && (Inv(s) ==> (Inv(db.Snapshot()) <==> (ok ==> !Expected(s, v))))
  {
    ghost var s := db.Snapshot();
    assert db.tasks - {t} == db.tasks;
    var claimed := ClaimFromHost(db, dst, db.vms[v].vcpu, db.vms[v].mem, w.claim);
    if claimed == Raised {
      return false;
    }
    if Inv(s) { QueuedExactly(s, t, v, dst); }
    ok := QueueTask(db, s, t, v, dst, w);
  }

  predicate QueuedTask(s: State, v: nat, dst: nat, task: Task)
    requires IsNormal(s, v)
  {
    task == DraftTask(s, v, dst, Live) || task == WaitingTask(s, v, dst).(worker := Running)
  }

  /** Either outcome, as far as the invariant goes. */
  lemma QueuedExactly(s: State, t: nat, v: nat, dst: nat)
    requires Inv(s) && CanStart(s, t, v, dst)
    ensures Inv(Started(s, t, v, dst)) <==> !Expected(s, v)
    ensures forall task | QueuedTask(s, v, dst, task) :: Inv(WithTask(s, t, DroppedTask(task)))
  {
    StartedExactly(s, t, v, dst);
    forall task | QueuedTask(s, v, dst, task) ensures Inv(WithTask(s, t, DroppedTask(task))) {
      DroppedInv(s, t, v, dst, Live, task);
    }
  }

  /** Stores the task as WAITING and hands it to a thread; otherwise gives the claim back. */
  method QueueTask(db: Database, ghost s: State, t: nat, v: nat, dst: nat, w: LiveWorks) returns (ok: bool)
    requires CanStart(s, t, v, dst) && db.Snapshot() == DstClaimed(s, v, dst)
    modifies db`hosts, db`tasks
    ensures ok == (w.save && w.thread)
    ensures ok ==> db.Snapshot() == Started(s, t, v, dst)
    ensures !ok ==> exists task | QueuedTask(s, v, dst, task) ::
              db.Snapshot() == WithTask(s, t, DroppedTask(task)) && db.tasks - {t} == s.tasks
  {
    var row := db.vms[v];
    var task := NewTask(v, row.host.value, dst, Live, row.vcpu, row.mem);
    if w.save {
      task := task.(status := Waiting);
    }
    db.tasks := db.tasks[t := task];
    assert db.Snapshot() == WithTask(DstClaimed(s, v, dst), t, task);
    if !w.save || !w.thread {
      DropTask(db, s, t, v, dst);
      assert db.tasks - {t} == s.tasks;
      return false;
    }
    db.tasks := db.tasks[t := task.(worker := Resting)];
    return true;
  }
}
