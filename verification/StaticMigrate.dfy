/** Static migration: the VM is switched off and defined anew on another host. */
module StaticMigrate {
  import opened Tables
  import opened Ledger
  import opened Protocol
  import opened ProtocolInv
  import opened StepKeeps
  import opened Keeps
  import opened Runs
  import opened Continuations
  import opened Databases
  import opened Scheduler
  import opened Instance
  import opened Migrate

  datatype PowerState = PoweredOn | PoweredOff | Absent | HostUnreachable | Unreadable

  /** What undefining the domain on the source did: it worked, it returned False, or it raised. */
  datatype SourceUndefine = Gone | Kept | Raises

  /** `rebuilt`: the XML of the running domain could not be read and is built from the row, so
      disks must be attached again; `diskFails`: one of them cannot be attached. */
  datatype StaticWorks = StaticWorks(localDisk: bool, power: PowerState, dstAlive: bool, stuck: set<nat>, claim: bool,
                                     rebuilt: bool, buildXml: bool, define: bool, save: bool,
                                     diskFails: bool, undefine: SourceUndefine)
  {
    predicate PowerOk(force: bool) {
      match power
      case PoweredOn => force
      case HostUnreachable => force
      case Unreadable => false
      case _ => true
    }

    predicate CreateOk() { (rebuilt ==> buildXml) && define && save }

    /** Something was written to the migration log. */
    predicate Logged() { (rebuilt && diskFails) || undefine == Raises }
  }

  predicate NoneStuck(s: State, v: nat, stuck: set<nat>) {
    forall dev | dev in s.devices :: s.devices[dev].vm == Some(v) ==> dev !in stuck
  }

  /** Exactly when the checks pass. */
  predicate Passes(s: State, v: nat, dst: nat, force: bool, w: StaticWorks) {
    && IsNormal(s, v) && !w.localDisk && w.PowerOk(force) && MayMove(s.(devices := map[]), v, dst) && w.dstAlive
    && (NoDevice(s, v) || (force && NoneStuck(s, v, w.stuck)))
  }

  /** The finished log record. */
  function DoneTask(s: State, v: nat, dst: nat, gone: bool, todo: bool): Task
    requires IsNormal(s, v)
  {
    DraftTask(s, v, dst, Static).(switched := true, dstCounted := true, srcUndefined := gone, srcUncounted := gone,
                                  freeTried := true, srcTaken := true, srcFree := true, worker := Resting,
                                  status := if todo then SomeTodo else Complete)
  }

  /** The VM is charged on the destination only. The source counter stays up when the domain on
      the source was not undefined. */
  function Migrated(s: State, t: nat, v: nat, dst: nat, gone: bool, todo: bool): State
    requires IsNormal(s, v) && dst in s.hosts && s.vms[v].host.value in s.hosts
  {
    var row := s.vms[v];
    var src := row.host.value;
    var d, r := s.hosts[dst], s.hosts[src];
    WithTask(s, t, DoneTask(s, v, dst, gone, todo)).(
      vms := s.vms[v := row.(host := Some(dst))],
      hosts := s.hosts[dst := d.(vcpu := d.vcpu + row.vcpu, mem := d.mem + row.mem, vmCreated := d.vmCreated + 1)]
                      [src := r.(vcpu := r.vcpu - row.vcpu, mem := r.mem - row.mem,
                                 vmCreated := r.vmCreated - if gone then 1 else 0)])
  }

  /** Stored on the destination and counted there; the source still holds its share. */
  function Arrived(s: State, t: nat, v: nat, dst: nat): State
    requires IsNormal(s, v) && dst in s.hosts && s.vms[v].host.value in s.hosts
  {
    var row := s.vms[v];
    var d := s.hosts[dst];
    WithTask(s, t, DraftTask(s, v, dst, Static).(switched := true, dstCounted := true, status := Complete)).(
      vms := s.vms[v := row.(host := Some(dst))],
      hosts := s.hosts[dst := d.(vcpu := d.vcpu + row.vcpu, mem := d.mem + row.mem, vmCreated := d.vmCreated + 1)])
  }

  /** On the way there: the row names the destination, and then the VM is counted there. */
  function ArrivedTask(s: State, v: nat, dst: nat, counted: bool): Task
    requires IsNormal(s, v)
  {
    DraftTask(s, v, dst, Static).(switched := true, dstCounted := counted)
  }

  function Arriving(s: State, t: nat, v: nat, dst: nat, counted: bool): State
    requires IsNormal(s, v) && dst in s.hosts
  {
    var m := if counted then Counted(DstClaimed(s, v, dst), dst, 1) else DstClaimed(s, v, dst);
    WithTask(m, t, ArrivedTask(s, v, dst, counted)).(vms := s.vms[v := s.vms[v].(host := Some(dst))])
  }

  lemma ArrivingForms(s: State, t: nat, v: nat, dst: nat)
    requires CanStart(s, t, v, dst)
    ensures Switched(ClaimedFor(s, t, v, dst, Static), t) == Arriving(s, t, v, dst, false)
    ensures var m := Arriving(s, t, v, dst, false);
      WithTask(Counted(m, dst, 1), t, m.tasks[t].(dstCounted := true)) == Arriving(s, t, v, dst, true)
    ensures WithTask(Arriving(s, t, v, dst, true), t, ArrivedTask(s, v, dst, true).(status := Complete))
            == Arrived(s, t, v, dst)
  {
    var draft, switched := DraftTask(s, v, dst, Static), ArrivedTask(s, v, dst, false);
    assert s.tasks[t := draft][t := switched] == s.tasks[t := switched];
    var counted := ArrivedTask(s, v, dst, true);
    assert s.tasks[t := switched][t := counted] == s.tasks[t := counted];
    assert s.tasks[t := counted][t := counted.(status := Complete)] == s.tasks[t := counted.(status := Complete)];
    assert Arriving(s, t, v, dst, true).hosts == Arrived(s, t, v, dst).hosts;
  }

  lemma ArrivingInv(s: State, t: nat, v: nat, dst: nat)
    requires Inv(s) && CanStart(s, t, v, dst) && !Expected(s, v)
    ensures Inv(Arriving(s, t, v, dst, false))
  {
    ArrivingForms(s, t, v, dst);
    ClaimedInv(s, t, v, dst, Static);
    SwitchedKeeps(ClaimedFor(s, t, v, dst, Static), t);
  }

  /** Claim, row, counter and log, as steps. */
  lemma ArrivedInv(s: State, t: nat, v: nat, dst: nat)
    requires Inv(s) && CanStart(s, t, v, dst) && !Expected(s, v)
    ensures Inv(Arrived(s, t, v, dst))
  {
    ArrivingForms(s, t, v, dst);
    ArrivingInv(s, t, v, dst);
    CountDstKeeps(Arriving(s, t, v, dst, false), t);
    LogSaved(Arriving(s, t, v, dst, true), t);
  }

  lemma LogSaved(s: State, t: nat)
    requires Inv(s) && t in s.tasks && s.tasks[t].tag == Static && s.tasks[t].status == Draft
    requires s.tasks[t].worker == Running && s.tasks[t].dstCounted
    ensures Inv(WithTask(s, t, s.tasks[t].(status := Complete)))
  {
    MarkForm(s, SaveLog(t), t);
    MarkKeeps(s, SaveLog(t), t);
  }

  /** The source counter lowered, if the domain there is gone. */
  function Uncounted(s: State, t: nat, v: nat, dst: nat, gone: bool): State
    requires IsNormal(s, v) && dst in s.hosts && s.vms[v].host.value in s.hosts && dst != s.vms[v].host.value
  {
    var a := Arrived(s, t, v, dst);
    if !gone then a
    else WithTask(Counted(a, s.vms[v].host.value, -1), t, a.tasks[t].(srcUndefined := true, srcUncounted := true))
  }

  lemma UncountedInv(s: State, t: nat, v: nat, dst: nat, gone: bool)
    requires Inv(s) && CanStart(s, t, v, dst) && !Expected(s, v)
    ensures Inv(Uncounted(s, t, v, dst, gone))
  {
    ArrivedInv(s, t, v, dst);
    if gone { UncountSrcKeeps(Arrived(s, t, v, dst), t); }
  }

  predicate SourceHeld(s: State, t: nat) {
    && t in s.tasks && s.tasks[t].src in s.hosts
    && s.hosts[s.tasks[t].src].Free(s.tasks[t].knownVcpu, s.tasks[t].knownMem).Some?
  }

  function ClosedLog(task: Task, logged: bool): Task {
    task.(freeTried := true, srcFree := true, worker := Resting, srcTaken := true,
          status := if logged then SomeTodo else Complete)
  }

  /** The source released and the log closed. */
  function Closed(s: State, t: nat, logged: bool): State
    requires SourceHeld(s, t)
  {
    var task := s.tasks[t];
    WithTask(WithHost(s, task.src, s.hosts[task.src].Free(task.knownVcpu, task.knownMem).value), t,
             ClosedLog(task, logged))
  }

  function FreedLog(task: Task): Task { task.(worker := Marking, freeTried := true, srcTaken := true) }

  lemma SourceFreed(s: State, t: nat)
    requires Inv(s) && t in s.tasks && s.tasks[t].tag == Static && s.tasks[t].status == Complete
    requires s.tasks[t].worker == Running && s.tasks[t].switched && !s.tasks[t].srcTaken && !s.tasks[t].freeTried
    ensures SourceHeld(s, t)
    ensures Inv(Freed(s, t, s.tasks[t].src, (s.tasks[t].vcpu, s.tasks[t].mem), FreedLog(s.tasks[t])))
    ensures var size := (s.tasks[t].vcpu, s.tasks[t].mem); var row := s.hosts[s.tasks[t].src];
      row.Free(s.tasks[t].knownVcpu, s.tasks[t].knownMem)
      == Some(row.(vcpu := row.vcpu - size.0, mem := row.mem - size.1))
  {
    assert TaskOk(s, t);
    NeverRefused(s, s.tasks[t].src, (s.tasks[t].vcpu, s.tasks[t].mem));
    ReleasedKeeps(s, t, FreedLog(s.tasks[t]), false);
  }

  lemma ClosedInv(s: State, t: nat, logged: bool)
    requires Inv(s) && t in s.tasks && s.tasks[t].tag == Static && s.tasks[t].status == Complete
    requires s.tasks[t].worker == Running && s.tasks[t].switched && !s.tasks[t].srcTaken && !s.tasks[t].freeTried
    ensures SourceHeld(s, t) && Inv(Closed(s, t, logged))
  {
    SourceFreed(s, t);
    var task, size := s.tasks[t], (s.tasks[t].vcpu, s.tasks[t].mem);
    var s1 := Freed(s, t, task.src, size, FreedLog(task));
    MarkForm(s1, FinishTask(t, logged), t);
    MarkKeeps(s1, FinishTask(t, logged), t);
    FreedThen(s, t, task.src, size, FreedLog(task), ClosedLog(task, logged));
  }

  lemma MigratedIsClosed(s: State, t: nat, v: nat, dst: nat, gone: bool, todo: bool)
    requires Releasable(s, v) && dst in s.hosts && dst != s.vms[v].host.value
    ensures SourceHeld(Uncounted(s, t, v, dst, gone), t)
    ensures Closed(Uncounted(s, t, v, dst, gone), t, todo) == Migrated(s, t, v, dst, gone, todo)
  {
    var m := Uncounted(s, t, v, dst, gone);
    assert m.tasks[t := ClosedLog(m.tasks[t], todo)] == s.tasks[t := DoneTask(s, v, dst, gone, todo)];
    ClosedHosts(s, t, v, dst, gone, todo);
  }

  lemma ClosedHosts(s: State, t: nat, v: nat, dst: nat, gone: bool, todo: bool)
    requires Releasable(s, v) && dst in s.hosts && dst != s.vms[v].host.value
    ensures SourceHeld(Uncounted(s, t, v, dst, gone), t)
    ensures Closed(Uncounted(s, t, v, dst, gone), t, todo).hosts == Migrated(s, t, v, dst, gone, todo).hosts
  {
  }

  lemma MigratedInv(s: State, t: nat, v: nat, dst: nat, gone: bool, todo: bool)
    requires Inv(s) && CanStart(s, t, v, dst) && !Expected(s, v)
    requires Releasable(s, v)
    ensures Inv(Migrated(s, t, v, dst, gone, todo))
  {
    UncountedInv(s, t, v, dst, gone);
    MigratedIsClosed(s, t, v, dst, gone, todo);
    ClosedInv(Uncounted(s, t, v, dst, gone), t, todo);
  }

  lemma MigratedCharges(s: State, t: nat, v: nat, dst: nat, gone: bool, todo: bool)
    requires CanStart(s, t, v, dst)
    ensures var after, src, row := Migrated(s, t, v, dst, gone, todo), s.vms[v].host.value, s.vms[v];
      && ChargeOf(s, VmOwner(v)) == Charge(src, row.vcpu, row.mem, 1)
      && ChargeOf(s, DstOwner(t)) == NOTHING && ChargeOf(s, SrcOwner(t)) == NOTHING
      && ChargeOf(after, VmOwner(v)) == Charge(dst, row.vcpu, row.mem, 1)
      && ChargeOf(after, DstOwner(t)) == Charge(dst, 0, 0, 0)
      && ChargeOf(after, SrcOwner(t)) == Charge(src, 0, 0, if gone then 0 else 1)
  {
  }

  lemma MigratedBooks(s: State, t: nat, v: nat, dst: nat, gone: bool, todo: bool)
    requires Inv(s) && CanStart(s, t, v, dst) && Releasable(s, v)
    ensures Books(Migrated(s, t, v, dst, gone, todo))
  {
    var after := Migrated(s, t, v, dst, gone, todo);
    MigratedCharges(s, t, v, dst, gone, todo);
    assert BookOk(s, dst);
    ReleaseSucceeds(s, VmOwner(v));
    Rebalance(s, after, v, t);
  }

  /** Static migration does not look at other migrations of the VM at all: it keeps the invariant if
      and only if no task may still move the VM; and that is just when no later step of its tasks
      unbalances the books. */
  lemma MigratedExactly(s: State, t: nat, v: nat, dst: nat, gone: bool, todo: bool)
    requires Inv(s) && CanStart(s, t, v, dst) && Releasable(s, v)
    ensures Inv(Migrated(s, t, v, dst, gone, todo)) <==> !Expected(s, v)
    ensures StaysSound(Migrated(s, t, v, dst, gone, todo), v) <==> !Expected(s, v)
  {
    var after := Migrated(s, t, v, dst, gone, todo);
    if Expected(s, v) {
      var u :| u in s.tasks && s.tasks[u].vm == v && s.tasks[u].Expecting();
      MigratedUnder(s, t, v, dst, gone, todo, u);
    } else {
      MigratedInv(s, t, v, dst, gone, todo);
    }
    if Inv(after) { InvStaysSound(after, v); }
  }

  lemma MigratedUnder(s: State, t: nat, v: nat, dst: nat, gone: bool, todo: bool, u: nat)
    requires Inv(s) && CanStart(s, t, v, dst) && Releasable(s, v)
    requires u in s.tasks && s.tasks[u].vm == v && s.tasks[u].Expecting()
    ensures !StaysSound(Migrated(s, t, v, dst, gone, todo), v)
  {
    assert TaskOk(s, u);
    ExpectingIsUnderway(s.tasks[u]);
    MigratedBooks(s, t, v, dst, gone, todo);
    MoveBreaks(Migrated(s, t, v, dst, gone, todo), u);
  }

  /** When the checks pass, on the fields of the rows. */
  lemma PassesOnFields(s: State, v: nat, dst: nat, force: bool, w: StaticWorks)
    requires Inv(s)
    ensures Passes(s, v, dst, force, w)
      <==> && v in s.vms && s.vms[v].status == Normal && !w.localDisk && w.power != Unreadable
           && (w.power == PoweredOn || w.power == HostUnreachable ==> force)
           && s.vms[v].host.Some? && s.vms[v].host.value in s.hosts && dst in s.hosts
           && dst != s.vms[v].host.value && s.hosts[dst].group == s.hosts[s.vms[v].host.value].group && w.dstAlive
           && (forall ip | ip in s.attached :: s.attached[ip].vm != v)
           && (forall dev | dev in s.devices && s.devices[dev].vm == Some(v) :: force && dev !in w.stuck)
  {
    assert RowOk(s, v);
  }

  /** What a finished migration makes of the rows. */
  lemma MigratedOnFields(s: State, t: nat, v: nat, dst: nat, gone: bool, todo: bool)
    requires Releasable(s, v) && dst in s.hosts && dst != s.vms[v].host.value
    ensures var after, row, src := Migrated(s, t, v, dst, gone, todo), s.vms[v], s.vms[v].host.value;
      && after.vms == s.vms[v := row.(host := Some(dst))] && after.hosts.Keys == s.hosts.Keys
      && after.hosts[dst] == s.hosts[dst].(vcpu := s.hosts[dst].vcpu + row.vcpu, mem := s.hosts[dst].mem + row.mem,
                                           vmCreated := s.hosts[dst].vmCreated + 1)
      && after.hosts[src] == s.hosts[src].(vcpu := s.hosts[src].vcpu - row.vcpu, mem := s.hosts[src].mem - row.mem,
                                           vmCreated := s.hosts[src].vmCreated - if gone then 1 else 0)
      && (forall h | h in s.hosts && h != src && h != dst :: after.hosts[h] == s.hosts[h])
      && after.tasks[t].status == (if todo then SomeTodo else Complete) && after.tasks[t].srcUndefined == gone
      && after.tasks[t].srcFree && after.tasks[t].dstClaim
      && (after.tasks[t].vm, after.tasks[t].src, after.tasks[t].dst, after.tasks[t].tag) == (v, src, dst, Static)
      && after == s.(vms := after.vms, hosts := after.hosts, tasks := s.tasks[t := after.tasks[t]])
  {
  }

  /** The checks before anything is claimed; a forced migration takes the devices off. */
  method PreStaticMigrate(db: Database, v: nat, dst: nat, force: bool, w: StaticWorks) returns (ok: bool)
    requires Inv(db.Snapshot())
    modifies db`devices
    ensures Inv(db.Snapshot())
    ensures var s := old(db.Snapshot());
      ok <==> && v in s.vms && s.vms[v].status == Normal && !w.localDisk && w.power != Unreadable
              && (w.power == PoweredOn || w.power == HostUnreachable ==> force)
              && s.vms[v].host.Some? && s.vms[v].host.value in s.hosts && dst in s.hosts
              && dst != s.vms[v].host.value && s.hosts[dst].group == s.hosts[s.vms[v].host.value].group && w.dstAlive
              && (forall ip | ip in s.attached :: s.attached[ip].vm != v)
              && (forall dev | dev in s.devices && s.devices[dev].vm == Some(v) :: force && dev !in w.stuck)
    ensures ok ==> MayMove(db.Snapshot(), v, dst) && db.devices == Detached(old(db.devices), v)
    ensures DevicesOff(old(db.devices), db.devices, v)
  {
    PassesOnFields(db.Snapshot(), v, dst, force, w);
    if !IsNormal(db.Snapshot(), v) || w.localDisk || !w.PowerOk(force)
       || !MayMove(db.Snapshot().(devices := map[], attached := map[]), v, dst) || !w.dstAlive
    {
      return false;
    }
    if !NoDevice(db.Snapshot(), v) {
      if !force {
        return false;
      }
      var off := UmountAll(db, v, w.stuck);
      DevicesOffInv(old(db.Snapshot()), db.devices, v);
      if !off {
        return false;
      }
    }
    assert db.devices == Detached(old(db.devices), v);
    return NoAttachment(db.Snapshot(), v);
  }

  lemma DevicesAside(s: State, devices: map<nat, Device>, t: nat, v: nat, dst: nat, gone: bool, todo: bool)
    requires Releasable(s, v) && dst in s.hosts
    ensures Migrated(s.(devices := devices), t, v, dst, gone, todo)
            == Migrated(s, t, v, dst, gone, todo).(devices := devices)
  {
  }

  /** Moves the VM. On error, counters and placement are as before (forced device removal aside);
      on success the VM is charged on the destination only, what the two hosts have allocated
      together is unchanged, and the log ends SOME_TODO exactly when something was logged. */
  method StaticMigrate(db: Database, t: nat, v: nat, dst: nat, force: bool, w: StaticWorks) returns (ok: bool)
    requires Inv(db.Snapshot()) && v !in db.ops && t !in db.tasks
    modifies db
    ensures Inv(db.Snapshot()) <==> (ok ==> !Expected(old(db.Snapshot()), v))
    ensures var s := old(db.Snapshot());
      ok <==> && v in s.vms && s.vms[v].status == Normal && !w.localDisk && w.power != Unreadable
              && (w.power == PoweredOn || w.power == HostUnreachable ==> force)
              && s.vms[v].host.Some? && s.vms[v].host.value in s.hosts && dst in s.hosts
              && dst != s.vms[v].host.value && s.hosts[dst].group == s.hosts[s.vms[v].host.value].group && w.dstAlive
              && (forall ip | ip in s.attached :: s.attached[ip].vm != v)
              && (forall dev | dev in s.devices && s.devices[dev].vm == Some(v) :: force && dev !in w.stuck)
              && s.hosts[dst].vmCreated < s.hosts[dst].vmLimit
              && s.hosts[dst].vcpu + s.vms[v].vcpu <= s.hosts[dst].vcpuTotal
              && s.hosts[dst].mem + s.vms[v].mem <= s.hosts[dst].memTotal
              && w.claim && (w.rebuilt ==> w.buildXml) && w.define && w.save
    ensures ok ==> IsNormal(old(db.Snapshot()), v)
    ensures !ok ==> && db.Snapshot() == old(db.Snapshot()).(devices := db.devices, tasks := db.tasks)
                    && DevicesOff(old(db.devices), db.devices, v)
                    && db.tasks - {t} == old(db.tasks) && (t in db.tasks ==> db.tasks[t].status == Dropped)
    ensures ok ==>
      var s := old(db.Snapshot()); var src := s.vms[v].host.value;
      && src in s.hosts && dst in s.hosts && src != dst
      && db.Snapshot() == Migrated(s, t, v, dst, w.undefine == Gone, w.Logged()).(devices := Detached(s.devices, v))
      && db.vms == s.vms[v := s.vms[v].(host := Some(dst))]
      && db.hosts[src].vcpu + db.hosts[dst].vcpu == s.hosts[src].vcpu + s.hosts[dst].vcpu
      && db.hosts[src].mem + db.hosts[dst].mem == s.hosts[src].mem + s.hosts[dst].mem
      && db.hosts[dst].vcpu == s.hosts[dst].vcpu + s.vms[v].vcpu && db.hosts[dst].mem == s.hosts[dst].mem + s.vms[v].mem
      && (db.tasks[t].status == SomeTodo <==> (w.rebuilt && w.diskFails) || w.undefine == Raises)
  {
    assert db.tasks - {t} == db.tasks;
    ok := PreStaticMigrate(db, v, dst, force, w);
    if !ok {
      return;
    }
    ghost var s := db.Snapshot();
    RowReleasable(s, v);
    RowReleasable(old(db.Snapshot()), v);
    assert RowOk(s, v);
    MigratedOnFields(s, t, v, dst, w.undefine == Gone, w.Logged());
    DevicesAside(old(db.Snapshot()), db.devices, t, v, dst, w.undefine == Gone, w.Logged());
    ok := ClaimAndMove(db, t, v, dst, w);
  }

  /** Claims the destination, defines the VM there and moves it over. */
  method ClaimAndMove(db: Database, t: nat, v: nat, dst: nat, w: StaticWorks) returns (ok: bool)
    requires Inv(db.Snapshot()) && v !in db.ops && t !in db.tasks
    requires MayMove(db.Snapshot(), v, dst) && Releasable(db.Snapshot(), v)
    modifies db`hosts, db`tasks, db`vms
    ensures Inv(db.Snapshot()) <==> (ok ==> !Expected(old(db.Snapshot()), v))
    ensures ok <==> Fits(old(db.Snapshot()), dst, old(db.vms)[v].vcpu, old(db.vms)[v].mem) && w.claim && w.CreateOk()
    ensures ok ==> db.Snapshot() == Migrated(old(db.Snapshot()), t, v, dst, w.undefine == Gone, w.Logged())
    ensures !ok ==> && db.hosts == old(db.hosts) && db.vms == old(db.vms)
                    && db.tasks - {t} == old(db.tasks) && (t in db.tasks ==> db.tasks[t].status == Dropped)
  {
    ghost var s := db.Snapshot();
    assert db.tasks - {t} == db.tasks;
    var row := db.vms[v];
    var claimed := ClaimFromHost(db, dst, row.vcpu, row.mem, w.claim);
    if claimed == Raised {
      return false;
    }
    db.tasks := db.tasks[t := NewTask(v, row.host.value, dst, Static, row.vcpu, row.mem)];
    assert db.Snapshot() == ClaimedFor(s, t, v, dst, Static);
    if !w.CreateOk() {
      DropTask(db, s, t, v, dst);
      DroppedInv(s, t, v, dst, Static, DraftTask(s, v, dst, Static));
      assert db.tasks - {t} == s.tasks;
      return false;
    }
    MigratedExactly(s, t, v, dst, w.undefine == Gone, w.Logged());
    MoveOver(db, s, t, v, dst, w);
    return true;
  }

  /** After the domain stands on the destination: row, counters, source, log. */
  method MoveOver(db: Database, ghost s: State, t: nat, v: nat, dst: nat, w: StaticWorks)
    requires Releasable(s, v) && dst in s.hosts && dst != s.vms[v].host.value
    requires db.Snapshot() == ClaimedFor(s, t, v, dst, Static)
    modifies db`hosts, db`tasks, db`vms
    ensures db.Snapshot() == Migrated(s, t, v, dst, w.undefine == Gone, w.Logged())
  {
    var row := db.vms[v];
    db.vms := db.vms[v := row.(host := Some(dst))];
    AddVmCreated(db, dst, 1);
    var task := db.tasks[t].(switched := true, dstCounted := true, status := Complete);
    db.tasks := db.tasks[t := task];
    assert db.tasks == Arrived(s, t, v, dst).tasks && db.hosts == Arrived(s, t, v, dst).hosts;
    LeaveSource(db, s, t, v, dst, w);
  }

  /** Undefines the domain on the source, releases the source, and closes the log. */
  method LeaveSource(db: Database, ghost s: State, t: nat, v: nat, dst: nat, w: StaticWorks)
    requires Releasable(s, v) && dst in s.hosts && dst != s.vms[v].host.value
    requires db.Snapshot() == Arrived(s, t, v, dst)
    modifies db`hosts, db`tasks
    ensures db.Snapshot() == Migrated(s, t, v, dst, w.undefine == Gone, w.Logged())
  {
    ghost var mid := Uncounted(s, t, v, dst, w.undefine == Gone);
    var undefined := UndefineSource(db, db.tasks[t].src, w);
    db.tasks := db.tasks[t := db.tasks[t].(srcUndefined := w.undefine == Gone, srcUncounted := w.undefine == Gone)];
    assert db.tasks == mid.tasks;
    MigratedIsClosed(s, t, v, dst, w.undefine == Gone, w.Logged());
    CloseLog(db, t, (w.rebuilt && w.diskFails) || !undefined);
  }

  /** Releases the source; the log ends COMPLETE when nothing was logged. */
  method CloseLog(db: Database, t: nat, logged: bool)
    requires SourceHeld(db.Snapshot(), t)
    modifies db`hosts, db`tasks
    ensures db.Snapshot() == Closed(old(db.Snapshot()), t, logged)
  {
    var task := db.tasks[t];
    var freed := FreeHost(db, task.src, task.knownVcpu, task.knownMem);
    db.tasks := db.tasks[t := task.(freeTried := true, srcTaken := task.srcTaken || freed, srcFree := freed,
                                    worker := Resting,
                                    status := if logged || !freed then SomeTodo else Complete)];
  }

  /** The counter falls when the domain is gone. Only a failure that raises is logged. */
  method UndefineSource(db: Database, src: nat, w: StaticWorks) returns (undefined: bool)
    requires src in db.hosts
    modifies db`hosts
    ensures undefined == (w.undefine != Raises)
    ensures db.hosts == if w.undefine == Gone then Counted(old(db.Snapshot()), src, -1).hosts else old(db.hosts)
  {
    match w.undefine {
      case Gone =>
        AddVmCreated(db, src, -1);
        return true;
      case Kept =>
        return true;
      case Raises =>
        return false;
    }
  }
}
