/** Deleting and shelving a VM. */
module Instance {
  import opened Tables
  import opened Ledger
  import opened Protocol
  import opened ProtocolInv
  import opened StepKeeps
  import opened Keeps
  import opened Runs
  import opened Continuations
  import opened Databases
  import opened Scheduler
  import opened Builder
  import opened VmBuilder

  datatype Undefining = Undefined | NotUndefined | HostDown

  /** Which outside calls work: reading the state and powering off, deleting snapshots,
      archiving, undefining the domain, deleting the row. */
  datatype DeleteWorks = DeleteWorks(off: bool, snapshots: bool, archive: bool, undefine: Undefining, row: bool)

  /** Host `h` without VM row `row`. */
  function Vacated(s: State, row: Vm): State
    requires row.host.Some? && row.host.value in s.hosts && row.ip.Some? && row.ip.value in s.ips
  {
    var h := row.host.value;
    WithHost(WithIp(s, row.ip.value, false), h,
             s.hosts[h].(vcpu := s.hosts[h].vcpu - row.vcpu, mem := s.hosts[h].mem - row.mem,
                         vmCreated := s.hosts[h].vmCreated - 1))
  }

  function Deleted(s: State, v: nat): State
    requires IsNormal(s, v) && s.vms[v].host.value in s.hosts && s.vms[v].ip.value in s.ips
  {
    Vacated(s, s.vms[v]).(vms := s.vms - {v}, devices := Detached(s.devices, v))
  }

  function ShelvedRow(row: Vm): Vm {
    row.(status := Shelved, host := None, ip := None, lastIp := row.ip)
  }

  function AfterShelve(s: State, v: nat): State
    requires IsNormal(s, v) && s.vms[v].host.value in s.hosts && s.vms[v].ip.value in s.ips
  {
    Vacated(s, s.vms[v]).(vms := s.vms[v := ShelvedRow(s.vms[v])])
  }

  /** What a deletion leaves, on the fields: the row is gone, its address free, its host smaller by the VM,
      and its devices free. */
  lemma DeletedOnFields(s: State, v: nat)
    requires IsNormal(s, v) && s.vms[v].host.value in s.hosts && s.vms[v].ip.value in s.ips
    ensures var row, after := s.vms[v], Deleted(s, v); var h, ip := row.host.value, row.ip.value;
      && after.vms == s.vms - {v} && after.ips == s.ips[ip := s.ips[ip].(used := false)]
      && after.hosts == s.hosts[h := s.hosts[h].(vcpu := s.hosts[h].vcpu - row.vcpu, mem := s.hosts[h].mem - row.mem,
                                                 vmCreated := s.hosts[h].vmCreated - 1)]
      && after.devices.Keys == s.devices.Keys
      && (forall dev | dev in s.devices ::
            after.devices[dev] == if s.devices[dev].vm == Some(v) then s.devices[dev].(vm := None) else s.devices[dev])
      && after.vlans == s.vlans && after.ops == s.ops && after.tasks == s.tasks && after.attached == s.attached
  {
  }

  /** And what shelving leaves: the same, except that the row stays, with its size, without host and
      address, and with the address noted as the last one. Devices are not touched here. */
  lemma ShelvedOnFields(s: State, v: nat)
    requires IsNormal(s, v) && s.vms[v].host.value in s.hosts && s.vms[v].ip.value in s.ips
    ensures var row, after := s.vms[v], AfterShelve(s, v); var h, ip := row.host.value, row.ip.value;
      && after.vms == s.vms[v := Vm(Shelved, None, None, Some(ip), row.vcpu, row.mem)]
      && after.ips == s.ips[ip := s.ips[ip].(used := false)]
      && after.hosts == s.hosts[h := s.hosts[h].(vcpu := s.hosts[h].vcpu - row.vcpu, mem := s.hosts[h].mem - row.mem,
                                                 vmCreated := s.hosts[h].vmCreated - 1)]
      && after.vlans == s.vlans && after.ops == s.ops && after.tasks == s.tasks && after.attached == s.attached
      && after.devices == s.devices
  {
  }

  /** What must be known of the host to take a VM off it. */
  predicate Releasable(s: State, v: nat) {
    && IsNormal(s, v) && s.vms[v].host.value in s.hosts && s.vms[v].ip.value in s.ips
    && s.vms[v].vcpu > 0 && s.vms[v].mem > 0
    && s.hosts[s.vms[v].host.value].Free(s.vms[v].vcpu, s.vms[v].mem).Some?
  }

  /** A NORMAL row has an existing host and address, and what it is charged can be released. */
  lemma RowReleasable(s: State, v: nat)
    requires Inv(s) && IsNormal(s, v) && v !in s.ops
    ensures Releasable(s, v)
    ensures var row := s.vms[v]; var h := row.host.value;
      && s.hosts[h].Free(row.vcpu, row.mem)
          == Some(s.hosts[h].(vcpu := s.hosts[h].vcpu - row.vcpu, mem := s.hosts[h].mem - row.mem))
      && s.hosts[h].WithinTotals()
  {
    assert RowOk(s, v) && BookOk(s, s.vms[v].host.value);
    ReleaseSucceeds(s, VmOwner(v));
  }

  /** The row is gone; address, count and share of the host are still held. */
  function RowDeleted(s: State, v: nat): State
    requires IsNormal(s, v)
  {
    var row := s.vms[v];
    WithOp(s, v, Op(Deleting, row.vcpu, row.mem, row.host.value, true, true, row.ip.value, true, false)).(
      vms := s.vms - {v}, devices := Detached(s.devices, v))
  }

  /** And the counter is lowered. */
  function Leaving(s: State, v: nat): State
    requires IsNormal(s, v) && s.vms[v].host.value in s.hosts
  {
    WithOp(Counted(RowDeleted(s, v), s.vms[v].host.value, -1), v, RowDeleted(s, v).ops[v].(counted := false))
  }

  lemma DeleteRun(s: State, v: nat)
    requires Releasable(s, v) && v !in s.ops && NoAttachment(s, v)
    ensures Next(s, DeleteRow(v)) == Some(RowDeleted(s, v))
        && Next(RowDeleted(s, v), UncountVm(v)) == Some(Leaving(s, v))
    ensures Exec(Leaving(s, v), [ReleaseIp(v)] + [ReleaseHost(v), EndOp(v)]) == Some(Deleted(s, v))
  {
    var m, h := Leaving(s, v), s.vms[v].host.value;
    GivenBack(m, v, Deleted(s, v).hosts[h]);
    assert m.ops - {v} == s.ops && m.hosts[h := Deleted(s, v).hosts[h]] == Deleted(s, v).hosts;
  }

  lemma DeletedInv(s: State, v: nat)
    requires Inv(s) && Releasable(s, v) && v !in s.ops && NoAttachment(s, v) && !BeingMoved(s, v)
    ensures Inv(Deleted(s, v))
  {
    DeleteRun(s, v);
    NextKeeps(s, DeleteRow(v));
    NextKeeps(RowDeleted(s, v), UncountVm(v));
    GentleRunKeeps(Leaving(s, v), [ReleaseIp(v)] + [ReleaseHost(v), EndOp(v)]);
  }

  lemma DeletedBooks(s: State, v: nat)
    requires Inv(s) && Releasable(s, v) && v !in s.ops
    ensures Books(Deleted(s, v))
  {
    ReleaseSucceeds(s, VmOwner(v));
    RebalanceVm(s, Deleted(s, v), v);
  }

  /** No request looks at migration tasks. Deleting a VM keeps the invariant if and only if no thread
      is at work on moving it; and that is just when no later step of its tasks unbalances the books. */
  lemma DeletedExactly(s: State, v: nat)
    requires Inv(s) && IsNormal(s, v) && v !in s.ops && NoAttachment(s, v)
    ensures Releasable(s, v)
    ensures Inv(Deleted(s, v)) <==> !BeingMoved(s, v)
    ensures StaysSound(Deleted(s, v), v) <==> !BeingMoved(s, v)
  {
    RowReleasable(s, v);
    if BeingMoved(s, v) {
      var t :| t in s.tasks && s.tasks[t].vm == v && s.tasks[t].Expecting() && s.tasks[t].status == InProcess;
      assert TaskOk(s, t);
      ExpectingIsUnderway(s.tasks[t]);
      DeletedBooks(s, v);
      MoveOfNobodyBreaks(Deleted(s, v), t);
      if Inv(Deleted(s, v)) { InvStaysSound(Deleted(s, v), v); }
    } else {
      DeletedInv(s, v);
      InvStaysSound(Deleted(s, v), v);
    }
  }

  /** A task that waits, or that its dead thread left to be cleaned up, loses its VM with the deletion.
      Then nothing ever gives back what it still holds: in every later harmless run the counters of
      that host stay above what all others owe, by exactly the size of the VM. */
  lemma {:induction false} DeletedUnderTask(s: State, v: nat, t: nat, ls: seq<Label>)
    requires Inv(s) && Releasable(s, v) && v !in s.ops && NoAttachment(s, v) && !BeingMoved(s, v)
    requires t in s.tasks && s.tasks[t].vm == v && !s.tasks[t].worker.Active()
    requires Exec(Deleted(s, v), ls).Some? && Harmless(Deleted(s, v), ls)
    ensures DstReleases(ls, t) == 0 && SrcReleases(ls, t) == 0
    ensures var end, task := Exec(Deleted(s, v), ls).value, s.tasks[t];
      && (task.status == Waiting && !task.dstTaken ==> LeftOver(end, DstOwner(t), task.dst, task))
      && (task.status == SomeTodo && !task.srcTaken ==> LeftOver(end, SrcOwner(t), task.src, task))
  {
    DeletedInv(s, v);
    assert TaskOk(s, t);
    OrphanNeverFreed(Deleted(s, v), ls, t);
    OrphanLeaks(Deleted(s, v), ls, t);
  }

  /** Shelving, step by step: the operation has begun, the address is back, the share of the host is
      back, the counter is lowered. */
  function ShelveBegun(s: State, v: nat): State
    requires IsNormal(s, v)
  {
    var row := s.vms[v];
    WithOp(s, v, Op(Shelving, row.vcpu, row.mem, row.host.value, true, true, row.ip.value, true, false))
  }

  function ShelvingNoHost(s: State, v: nat): State
    requires Releasable(s, v)
  {
    var m, h := IpGivenBack(ShelveBegun(s, v), v), s.vms[v].host.value;
    WithOp(WithHost(m, h, s.hosts[h].Free(s.vms[v].vcpu, s.vms[v].mem).value), v, m.ops[v].(charged := false))
  }

  function ShelvingUncounted(s: State, v: nat): State
    requires Releasable(s, v)
  {
    var m := ShelvingNoHost(s, v);
    WithOp(Counted(m, s.vms[v].host.value, -1), v, m.ops[v].(counted := false))
  }

  lemma ShelveSteps(s: State, v: nat)
    requires Releasable(s, v) && v !in s.ops && NoAttachment(s, v) && NoDevice(s, v)
    ensures Next(s, BeginShelve(v)) == Some(ShelveBegun(s, v))
    ensures Next(ShelveBegun(s, v), ReleaseIp(v)) == Some(IpGivenBack(ShelveBegun(s, v), v))
    ensures Next(IpGivenBack(ShelveBegun(s, v), v), ReleaseHost(v)) == Some(ShelvingNoHost(s, v))
    ensures Next(ShelvingNoHost(s, v), UncountVm(v)) == Some(ShelvingUncounted(s, v))
  {
  }

  lemma ShelveEnds(s: State, v: nat)
    requires Releasable(s, v) && v !in s.ops
    ensures Next(ShelvingUncounted(s, v), ShelveRow(v)) == Some(AfterShelve(s, v))
  {
    ShelvedHosts(s, v);
    assert ShelvingUncounted(s, v).ops - {v} == s.ops;
  }

  lemma ShelvedHosts(s: State, v: nat)
    requires Releasable(s, v)
    ensures ShelvingUncounted(s, v).hosts == AfterShelve(s, v).hosts
  {
  }

  lemma ShelvedInv(s: State, v: nat)
    requires Inv(s) && Releasable(s, v) && v !in s.ops && NoAttachment(s, v) && NoDevice(s, v) && !Expected(s, v)
    ensures Inv(AfterShelve(s, v))
  {
    ShelveSteps(s, v);
    ShelveEnds(s, v);
    NextKeeps(s, BeginShelve(v));
    NextKeeps(ShelveBegun(s, v), ReleaseIp(v));
    NextKeeps(IpGivenBack(ShelveBegun(s, v), v), ReleaseHost(v));
    NextKeeps(ShelvingNoHost(s, v), UncountVm(v));
    NextKeeps(ShelvingUncounted(s, v), ShelveRow(v));
  }

  lemma ShelvedBooks(s: State, v: nat)
    requires Inv(s) && Releasable(s, v) && v !in s.ops
    ensures Books(AfterShelve(s, v))
  {
    ReleaseSucceeds(s, VmOwner(v));
    RebalanceVm(s, AfterShelve(s, v), v);
  }

  /** Shelving keeps the invariant if and only if no task may still move the VM; and that is just when
      no later step of its tasks unbalances the books. */
  lemma ShelvedExactly(s: State, v: nat)
    requires Inv(s) && IsNormal(s, v) && v !in s.ops && NoAttachment(s, v) && NoDevice(s, v)
    ensures Releasable(s, v)
    ensures Inv(AfterShelve(s, v)) <==> !Expected(s, v)
    ensures StaysSound(AfterShelve(s, v), v) <==> !Expected(s, v)
  {
    RowReleasable(s, v);
    if Expected(s, v) {
      var t :| t in s.tasks && s.tasks[t].vm == v && s.tasks[t].Expecting();
      assert TaskOk(s, t);
      ExpectingIsUnderway(s.tasks[t]);
      ShelvedBooks(s, v);
      MoveBreaks(AfterShelve(s, v), t);
      if Inv(AfterShelve(s, v)) { InvStaysSound(AfterShelve(s, v), v); }
    } else {
      ShelvedInv(s, v);
      InvStaysSound(AfterShelve(s, v), v);
    }
  }

  /** Deletes a VM for good (not forced). A host that is down at undefining does not stop it. */
  method Delete(db: Database, v: nat, w: DeleteWorks) returns (ok: bool)
    requires Inv(db.Snapshot()) && v !in db.ops
    modifies db
    ensures ok <==> && v in old(db.vms) && old(db.vms)[v].status == Normal
                    && (forall ip | ip in old(db.attached) :: old(db.attached)[ip].vm != v)
                    && w.off && w.snapshots && w.archive && w.undefine != NotUndefined && w.row
    ensures ok ==>
      && IsNormal(old(db.Snapshot()), v)
      && old(db.vms)[v].host.value in old(db.hosts) && old(db.vms)[v].ip.value in old(db.ips)
      && db.Snapshot() == Deleted(old(db.Snapshot()), v)
    ensures !ok ==> db.Snapshot() == old(db.Snapshot())
    ensures Inv(db.Snapshot()) <==> (ok ==> !BeingMoved(old(db.Snapshot()), v))
  {
    ghost var s := db.Snapshot();
    assert RowOk(s, v);
    if !IsNormal(db.Snapshot(), v) || !w.off || !NoAttachment(db.Snapshot(), v)
       || !w.snapshots || !w.archive || w.undefine == NotUndefined || !w.row
    {
      return false;
    }
    DeletedExactly(s, v);
    DeleteRowOf(db, v);
    return true;
  }

  /** The row goes, its devices with it, and then the counter, the address and the share of the host. */
  method DeleteRowOf(db: Database, v: nat)
    requires Releasable(db.Snapshot(), v)
    modifies db`vms, db`devices, db`hosts, db`ips
    ensures db.Snapshot() == Deleted(old(db.Snapshot()), v)
  {
    var row := db.vms[v];
    db.vms, db.devices := db.vms - {v}, Detached(db.devices, v);
    AddVmCreated(db, row.host.value, -1);
    var ipFreed := FreeUsedIp(db, row.ip.value);
    var hostFreed := FreeHost(db, row.host.value, row.vcpu, row.mem);
    assert db.hosts == Deleted(old(db.Snapshot()), v).hosts;
  }

  /** Devices of VM `v` came off, and nothing else changed. */
  ghost predicate DevicesOff(devices: map<nat, Device>, devices': map<nat, Device>, v: nat) {
    devices'.Keys == devices.Keys
    && forall dev | dev in devices' :: devices'[dev] == devices[dev]
                                       || (devices[dev].vm == Some(v) && devices'[dev] == devices[dev].(vm := None))
  }

  lemma DevicesOffInv(s: State, devices': map<nat, Device>, v: nat)
    requires Inv(s) && DevicesOff(s.devices, devices', v)
    ensures Inv(s.(devices := devices'))
  {
    var s' := s.(devices := devices');
    forall dev | dev in s'.devices ensures s'.devices[dev] == s.devices[dev] || DeviceOk(s', dev) {}
    OtherStepShape(s, s');
    AddressesSame(s, s', 0);
  }

  /** Takes every device off the VM until one cannot be taken off. */
  method UmountAll(db: Database, v: nat, stuck: set<nat>) returns (ok: bool)
    modifies db`devices
    ensures ok <==> forall dev | dev in old(db.devices) && old(db.devices)[dev].vm == Some(v) :: dev !in stuck
    ensures ok ==> db.devices == Detached(old(db.devices), v)
    ensures DevicesOff(old(db.devices), db.devices, v)
  {
    var list := Listed(set dev | dev in db.devices && db.devices[dev].vm == Some(v));
    for i := 0 to |list|
      invariant DevicesOff(old(db.devices), db.devices, v)
      invariant forall j | 0 <= j < i :: list[j] !in stuck && list[j] in db.devices && db.devices[list[j]].vm == None
    {
      assert list[i] in list;
      if list[i] in stuck {
        return false;
      }
      db.devices := db.devices[list[i] := db.devices[list[i]].(vm := None)];
    }
    assert forall dev | dev in db.devices && old(db.devices)[dev].vm == Some(v) :: dev in list;
    return true;
  }

  /** Which outside calls work for shelving; `stuck` devices cannot be taken off. */
  datatype ShelveWorks = ShelveWorks(running: bool, localDisk: bool, stuck: set<nat>, undefine: Undefining)

  predicate OnlyPortable(s: State, v: nat) {
    forall dev | dev in s.devices :: s.devices[dev].vm == Some(v)
        ==> s.devices[dev].kind == Gpu || s.devices[dev].kind == NetworkCard
  }

  /** Shelves a VM: host share and address go back, size and row stay. A refused request changes
      nothing but devices that were already taken off. */
  method Shelve(db: Database, v: nat, w: ShelveWorks) returns (ok: bool)
    requires Inv(db.Snapshot()) && v !in db.ops
    modifies db
    ensures ok <==> && v in old(db.vms) && old(db.vms)[v].status == Normal && !w.running && !w.localDisk
                    && (forall dev | dev in old(db.devices) && old(db.devices)[dev].vm == Some(v) ::
                          && dev !in w.stuck
                          && (old(db.devices)[dev].kind == Gpu || old(db.devices)[dev].kind == NetworkCard))
                    && (forall ip | ip in old(db.attached) :: old(db.attached)[ip].vm != v)
                    && w.undefine == Undefined
    ensures ok ==>
      var s := old(db.Snapshot());
      && IsNormal(s, v) && s.vms[v].host.value in s.hosts && s.vms[v].ip.value in s.ips
      && db.Snapshot() == AfterShelve(s, v).(devices := Detached(s.devices, v))
    ensures !ok ==> db.Snapshot() == old(db.Snapshot()).(devices := db.devices)
    ensures db.devices.Keys == old(db.devices).Keys
      && forall dev | dev in db.devices ::
           || db.devices[dev] == old(db.devices)[dev]
           || (old(db.devices)[dev].vm == Some(v) && db.devices[dev] == old(db.devices)[dev].(vm := None))
    ensures Inv(db.Snapshot()) <==> (ok ==> !Expected(old(db.Snapshot()), v))
  {
    assert RowOk(db.Snapshot(), v);
    ok := PreShelve(db, v, w);
    DevicesOffInv(old(db.Snapshot()), db.devices, v);
    if ok {
      ShelveChecked(db, v);
    }
  }

  /** The rest, once no device and no further address is left. */
  method ShelveChecked(db: Database, v: nat)
    requires Inv(db.Snapshot()) && v !in db.ops && IsNormal(db.Snapshot(), v)
    requires NoAttachment(db.Snapshot(), v) && NoDevice(db.Snapshot(), v)
    modifies db`ips, db`hosts, db`vms
    ensures old(Releasable(db.Snapshot(), v)) && db.Snapshot() == AfterShelve(old(db.Snapshot()), v)
    ensures Inv(db.Snapshot()) <==> !Expected(old(db.Snapshot()), v)
  {
    ShelvedExactly(db.Snapshot(), v);
    ShelveRowOf(db, v);
  }

  /** The checks; devices come off in between. */
  method PreShelve(db: Database, v: nat, w: ShelveWorks) returns (ok: bool)
    modifies db`devices
    ensures ok <==> && IsNormal(old(db.Snapshot()), v) && !w.running && !w.localDisk
                    && OnlyPortable(old(db.Snapshot()), v)
                    && (forall dev | dev in old(db.devices) && old(db.devices)[dev].vm == Some(v) :: dev !in w.stuck)
                    && NoAttachment(old(db.Snapshot()), v) && w.undefine == Undefined
    ensures ok ==> db.devices == Detached(old(db.devices), v) && NoDevice(db.Snapshot(), v)
    ensures DevicesOff(old(db.devices), db.devices, v)
  {
    if !IsNormal(db.Snapshot(), v) || w.running || w.localDisk || !OnlyPortable(db.Snapshot(), v) {
      return false;
    }
    var off := UmountAll(db, v, w.stuck);
    return off && NoAttachment(db.Snapshot(), v) && w.undefine == Undefined;
  }

  method ShelveRowOf(db: Database, v: nat)
    requires Releasable(db.Snapshot(), v)
    modifies db`ips, db`hosts, db`vms
    ensures db.Snapshot() == AfterShelve(old(db.Snapshot()), v)
  {
    var row := db.vms[v];
    var ipFreed := FreeUsedIp(db, row.ip.value);
    var hostFreed := FreeHost(db, row.host.value, row.vcpu, row.mem);
    AddVmCreated(db, row.host.value, -1);
    db.vms := db.vms[v := row.(status := Shelved, host := None, ip := None, lastIp := row.ip)];
    assert db.hosts == AfterShelve(old(db.Snapshot()), v).hosts;
  }

  /** Shelving and unshelving is a round trip: the size is kept and the total allocation comes
      back, on whichever host; on the old place everything is as before except the remembered
      address. */
  lemma ShelveRoundTrip(s: State, v: nat, h: nat, ip: nat)
    requires Inv(s) && IsNormal(s, v) && v !in s.ops
    requires s.vms[v].host.value in s.hosts && s.vms[v].ip.value in s.ips
    requires Suits(AfterShelve(s, v), h, ip, s.vms[v].vcpu, s.vms[v].mem)
    ensures var shelved := AfterShelve(s, v);
      var back := Placed(shelved, v, h, ip, shelved.vms[v].(status := Normal, host := Some(h), ip := Some(ip)));
      var old_h := s.vms[v].host.value;
      && back.vms == s.vms[v := s.vms[v].(host := Some(h), ip := Some(ip), lastIp := s.vms[v].ip)]
      && (h == old_h ==> back.hosts == s.hosts)
      && (h != old_h ==>
            back.hosts[h].vcpu + back.hosts[old_h].vcpu == s.hosts[h].vcpu + s.hosts[old_h].vcpu
            && back.hosts[h].mem + back.hosts[old_h].mem == s.hosts[h].mem + s.hosts[old_h].mem
            && back.hosts[h].vmCreated + back.hosts[old_h].vmCreated == s.hosts[h].vmCreated + s.hosts[old_h].vmCreated
            && forall k | k in s.hosts && k != h && k != old_h :: back.hosts[k] == s.hosts[k])
      && (ip == s.vms[v].ip.value ==> back.ips == s.ips)
  {
    assert AddressOk(s, s.vms[v].ip.value);
    assert OwnsIp(s, v, s.vms[v].ip.value);
  }
}
