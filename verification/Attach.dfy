/** Further addresses and PCI devices of a VM. */
module Attach {
  import opened Tables
  import opened Protocol
  import opened ProtocolInv
  import opened StepKeeps
  import opened Keeps
  import opened Continuations
  import opened Databases

  /** What plugging into, or unplugging from, the domain did. */
  datatype Plug = Done | NotDone | Error

  /** There is an attachment row for the address, of whatever VM. */
  predicate HasRow(s: State, ip: nat) { ip in s.attached && s.attached[ip].stage != Reserved }

  function WithAttachment(s: State, v: nat, ip: nat): State
    requires ip in s.ips
  {
    WithIp(s, ip, true).(attached := s.attached[ip := Attachment(v, Stored)])
  }

  function WithoutAttachment(s: State, ip: nat): State
    requires ip in s.ips
  {
    WithIp(s, ip, false).(attached := s.attached - {ip})
  }

  predicate CanAttach(s: State, v: nat, ip: nat) {
    IsNormal(s, v) && !HasRow(s, ip) && ip in s.ips && s.ips[ip].CanUsed()
  }

  lemma AttachInv(s: State, v: nat, ip: nat)
    requires Inv(s) && v !in s.ops && CanAttach(s, v, ip)
    ensures Inv(WithAttachment(s, v, ip))
  {
    assert AddressOk(s, ip);
    ReserveAttachKeeps(s, v, ip);
    var s1 := ReserveAttachStep(s, v, ip).value;
    SaveAttachKeeps(s1, ip);
    assert SaveAttachStep(s1, ip).value.attached == WithAttachment(s, v, ip).attached;
  }

  /** Taking a row away keeps the invariant, except when another request has just freed the address,
      has not yet deleted the row, and the address was taken again in between. */
  lemma DetachedExactly(s: State, ip: nat)
    requires Inv(s) && HasRow(s, ip) && ip in s.ips
    ensures Inv(WithoutAttachment(s, ip)) <==> !(s.attached[ip].stage == Closing && s.ips[ip].used)
    ensures AddressOk(WithoutAttachment(s, ip), ip) <==> !(s.attached[ip].stage == Closing && s.ips[ip].used)
  {
    var after := WithoutAttachment(s, ip);
    assert AddressOk(s, ip);
    forall w ensures OwnsIp(after, w, ip) == OwnsIp(s, w, ip) {}
    if s.attached[ip].stage == Stored {
      FreeAttachKeeps(s, ip);
      var s1 := FreeAttachStep(s, ip).value;
      DropAttachKeeps(s1, ip);
      assert DropAttachStep(s1, ip).value.attached == after.attached;
      assert AddressOk(after, ip);
    } else if !s.ips[ip].used {
      DropAttachKeeps(s, ip);
      assert after.ips == s.ips;
      assert AddressOk(after, ip);
    } else {
      assert !AddressOk(after, ip);
    }
  }

  /** Takes the address and stores the attachment row. When storing fails, the code frees the copy of
      the address that the request has loaded. If that copy reads "free", this does nothing, and the
      address stays taken. */
  method AddIpToVm(db: Database, v: nat, ip: nat, copyUsed: bool, saves: bool) returns (ok: bool)
    requires IsNormal(db.Snapshot(), v)
    modifies db`ips, db`attached
    ensures ok <==> && (ip in old(db.attached) ==> old(db.attached)[ip].stage == Reserved)
                    && ip in old(db.ips) && old(db.ips)[ip].enabled && !old(db.ips)[ip].used && saves
    ensures var s := old(db.Snapshot());
      db.Snapshot() == if ok then WithAttachment(s, v, ip)
                       else if CanAttach(s, v, ip) && !copyUsed then WithIp(s, ip, true)
                       else s
  {
    if HasRow(db.Snapshot(), ip) {
      return false;
    }
    var taken := ApplyForIp(db, ip);
    if taken == None {
      return false;
    }
    if !saves {
      if copyUsed {
        db.ips := db.ips[ip := db.ips[ip].(used := false)];
        assert db.ips == old(db.ips);
      }
      return false;
    }
    db.attached := db.attached[ip := Attachment(v, Stored)];
    return true;
  }

  /** The address is free, its row is still there. */
  function RowLeft(s: State, ip: nat): State
    requires ip in s.ips && ip in s.attached
  {
    WithIp(s, ip, false).(attached := s.attached[ip := s.attached[ip].(stage := Closing)])
  }

  /** The row is found by its address alone. Where deleting it fails, the address is free already. */
  method DetachIpToVm(db: Database, ip: nat, deletes: bool) returns (ok: bool)
    modifies db`ips, db`attached
    ensures ok <==> ip in old(db.attached) && old(db.attached)[ip].stage != Reserved && ip in old(db.ips) && deletes
    ensures var s := old(db.Snapshot());
      db.Snapshot() == if !HasRow(s, ip) || ip !in s.ips then s
                       else if deletes then WithoutAttachment(s, ip)
                       else RowLeft(s, ip)
  {
    if !HasRow(db.Snapshot(), ip) {
      return false;
    }
    var freed := FreeUsedIp(db, ip);
    if !freed {
      return false;
    }
    if !deletes {
      db.attached := db.attached[ip := db.attached[ip].(stage := Closing)];
      return false;
    }
    db.attached := db.attached - {ip};
    return true;
  }

  /** Attaches a further address. It is stored and used exactly when it was free and the domain
      took it; otherwise nothing has changed, unless storing the row itself failed. */
  method AttachIp(db: Database, v: nat, ip: nat, saves: bool, plug: Plug) returns (ok: bool)
    requires Inv(db.Snapshot()) && IsNormal(db.Snapshot(), v) && v !in db.ops
    modifies db`ips, db`attached
    ensures ok <==> && (ip in old(db.attached) ==> old(db.attached)[ip].stage == Reserved)
                    && ip in old(db.ips) && old(db.ips)[ip].enabled && !old(db.ips)[ip].used
                    && saves && plug == Done
    ensures ok ==> && db.ips == old(db.ips)[ip := old(db.ips)[ip].(used := true)]
                   && db.attached == old(db.attached)[ip := Attachment(v, Stored)]
    ensures !ok && (saves || !CanAttach(old(db.Snapshot()), v, ip)) ==> db.Snapshot() == old(db.Snapshot())
    ensures Inv(db.Snapshot()) <==> saves || !CanAttach(old(db.Snapshot()), v, ip)
  {
    ghost var s := db.Snapshot();
    assert AddressOk(s, ip);
    ok := AddIpToVm(db, v, ip, ip in db.ips && db.ips[ip].used, saves);
    if !ok {
      if !saves && CanAttach(s, v, ip) { TakenWithoutOwner(s, ip); }
      return;
    }
    AttachInv(s, v, ip);
    if plug != Done {
      var undone := DetachIpToVm(db, ip, true);
      assert db.attached == s.attached && db.ips == s.ips;
      return false;
    }
  }

  /** An address marked used that nobody owns breaks the address book. */
  lemma TakenWithoutOwner(s: State, ip: nat)
    requires Inv(s) && ip in s.ips && s.ips[ip].CanUsed()
    ensures !Inv(WithIp(s, ip, true))
  {
    var s' := WithIp(s, ip, true);
    assert AddressOk(s, ip);
    forall w ensures !OwnsIp(s', w, ip) { assert !OwnsIp(s, w, ip); }
    assert !AddressOk(s', ip);
  }

  // ---------- detaching ----------

  /** The request takes the row of the address away: nobody asks whose row it is. */
  predicate Takes(s: State, v: nat, ip: nat)
    requires v in s.vms
  {
    HasRow(s, ip) && ip in s.ips && s.vms[v].ip != Some(ip)
  }

  /** Which stores work: deleting the row, and storing it anew after a domain error. */
  datatype Stores = Stores(delete: bool, back: bool)

  /** The state after a detach through VM `v`. */
  function AfterDetach(s: State, v: nat, ip: nat, plug: Plug, w: Stores): State
    requires v in s.vms
  {
    if !Takes(s, v, ip) then s
    else if !w.delete then RowLeft(s, ip)
    else if plug != Error || !s.ips[ip].enabled then WithoutAttachment(s, ip)
    else if w.back then WithAttachment(WithoutAttachment(s, ip), v, ip)
    else if s.ips[ip].used then WithoutAttachment(s, ip)
    else WithIp(WithoutAttachment(s, ip), ip, true)
  }

  /** On the fields: the request does something if and only if there is a stored row for the address, of
      whatever VM, and the address is not the main one of `v`. Then the address is freed first, and the row
      deleted next. */
  lemma AfterDetachOnFields(s: State, v: nat, ip: nat, plug: Plug, w: Stores)
    requires v in s.vms
    ensures Takes(s, v, ip)
      <==> ip in s.attached && s.attached[ip].stage != Reserved && ip in s.ips && s.vms[v].ip != Some(ip)
    ensures !Takes(s, v, ip) ==> AfterDetach(s, v, ip, plug, w) == s
    ensures Takes(s, v, ip) && (!w.delete || plug != Error || !s.ips[ip].enabled) ==>
      AfterDetach(s, v, ip, plug, w)
      == s.(ips := s.ips[ip := s.ips[ip].(used := false)],
            attached := if w.delete then s.attached - {ip} else s.attached[ip := s.attached[ip].(stage := Closing)])
  {
  }

  /** A domain error makes the row one of `v` again if the address is enabled; where that cannot be stored
      the row is gone, and the address is used if and only if it was not before. */
  lemma DetachErrorOnFields(s: State, v: nat, ip: nat, w: Stores)
    requires v in s.vms && Takes(s, v, ip) && w.delete && s.ips[ip].enabled
    ensures AfterDetach(s, v, ip, Error, w)
      == s.(ips := s.ips[ip := s.ips[ip].(used := w.back || !s.ips[ip].used)],
            attached := if w.back then s.attached[ip := Attachment(v, Stored)] else s.attached - {ip})
  {
    var after := AfterDetach(s, v, ip, Error, w);
    assert after.ips == s.ips[ip := s.ips[ip].(used := w.back || !s.ips[ip].used)];
    if w.back {
      assert after.attached == s.attached[ip := Attachment(v, Stored)];
    }
  }

  /** The address had been freed by another request, is taken again to attach it anew, and then that
      cannot be stored. */
  predicate Strands(s: State, v: nat, ip: nat, plug: Plug, w: Stores)
    requires v in s.vms
  {
    Takes(s, v, ip) && w.delete && plug == Error && s.ips[ip].enabled && !w.back && !s.ips[ip].used
  }

  /** Detaches a further address through VM `v`, whoever has it. An error of the domain attaches it
      again, to `v`, if the address is enabled; when the domain merely reports failure the row is
      gone. The invariant survives unless another request had just freed the address, and it was taken
      again in between or is stranded now. */
  method DetachIp(db: Database, v: nat, ip: nat, plug: Plug, w: Stores) returns (ok: bool)
    requires Inv(db.Snapshot()) && IsNormal(db.Snapshot(), v) && v !in db.ops
    modifies db`ips, db`attached
    ensures ok <==> && ip in old(db.attached) && old(db.attached)[ip].stage != Reserved && ip in old(db.ips)
                    && old(db.vms)[v].ip != Some(ip) && w.delete && plug == Done
    ensures db.Snapshot() == AfterDetach(old(db.Snapshot()), v, ip, plug, w)
    ensures var s := old(db.Snapshot());
      Inv(db.Snapshot()) <==>
        !(Takes(s, v, ip)
          && ((s.attached[ip].stage == Closing && s.ips[ip].used)
              || (w.delete && plug == Error && s.ips[ip].enabled && !w.back && !s.ips[ip].used)))
  {
    ghost var s := db.Snapshot();
    if db.vms[v].ip == Some(ip) {
      return false;
    }
    var copyUsed := ip in db.ips && db.ips[ip].used;
    ok := DetachIpToVm(db, ip, w.delete);
    if !ok {
      if Takes(s, v, ip) { RowLeftExactly(s, ip); }
      return false;
    }
    DetachedExactly(s, ip);
    if plug == Error {
      AttachedAgain(s, v, ip);
      if Strands(s, v, ip, plug, w) { TakenWithoutOwner(WithoutAttachment(s, ip), ip); }
      var back := AddIpToVm(db, v, ip, copyUsed, w.back);
      return false;
    }
    return plug == Done;
  }

  /** Freeing the address alone breaks the invariant exactly when it was free already and taken again. */
  lemma RowLeftExactly(s: State, ip: nat)
    requires Inv(s) && HasRow(s, ip) && ip in s.ips
    ensures Inv(RowLeft(s, ip)) <==> !(s.attached[ip].stage == Closing && s.ips[ip].used)
  {
    var after := RowLeft(s, ip);
    assert AddressOk(s, ip);
    if s.attached[ip].stage == Stored {
      FreeAttachKeeps(s, ip);
    } else if !s.ips[ip].used {
      assert after.ips == s.ips && after.attached == s.attached;
    } else {
      var o :| OwnsIp(s, o, ip);
      assert OwnsIp(after, o, ip) && !AddressOk(after, ip);
    }
  }

  lemma AttachedAgain(s: State, v: nat, ip: nat)
    requires Inv(s) && IsNormal(s, v) && v !in s.ops && Takes(s, v, ip)
    ensures CanAttach(WithoutAttachment(s, ip), v, ip) <==> s.ips[ip].enabled
    ensures s.ips[ip].enabled ==>
      (Inv(WithAttachment(WithoutAttachment(s, ip), v, ip)) <==> Inv(WithoutAttachment(s, ip)))
  {
    DetachedExactly(s, ip);
    var without := WithoutAttachment(s, ip);
    if s.ips[ip].enabled {
      var again := WithAttachment(without, v, ip);
      if Inv(without) {
        AttachInv(without, v, ip);
      } else {
        assert AddressOk(s, ip);
        var w :| OwnsIp(s, w, ip);
        assert OwnsIp(again, w, ip) && IsAttached(again, ip);
        assert !AddressOk(again, ip);
      }
    }
  }

  /** A domain error leaves the tables as they were if and only if there was nothing to detach, or
      the row was this VM's own and the address is still enabled. */
  lemma DetachErrorUndoneExactly(s: State, v: nat, ip: nat)
    requires Inv(s) && IsNormal(s, v)
    ensures AfterDetach(s, v, ip, Error, Stores(true, true)) == s <==>
      || !HasRow(s, ip) || ip !in s.ips || s.vms[v].ip == Some(ip)
      || (s.attached[ip] == Attachment(v, Stored) && s.ips[ip].enabled)
  {
    assert AddressOk(s, ip);
    if Takes(s, v, ip) {
      var after := AfterDetach(s, v, ip, Error, Stores(true, true));
      if s.attached[ip] == Attachment(v, Stored) && s.ips[ip].enabled {
        assert after.attached == s.attached && after.ips == s.ips;
      } else {
        assert ip !in after.attached || after.attached[ip] != s.attached[ip];
      }
    }
  }

  /** So an address of VM `u` can be detached through VM `v`: a domain error hands it over to `v`,
      anything else frees it, and the invariant does not notice. */
  lemma DetachThroughAnotherVm(s: State, v: nat, u: nat, ip: nat, plug: Plug, w: Stores)
    requires Inv(s) && IsNormal(s, v) && v !in s.ops && u != v
    requires ip in s.attached && s.attached[ip] == Attachment(u, Stored)
    ensures ip in s.ips && Takes(s, v, ip) && Inv(AfterDetach(s, v, ip, plug, w))
    ensures var after := AfterDetach(s, v, ip, plug, w);
      if w.delete && plug == Error && s.ips[ip].enabled && w.back
      then ip in after.attached && after.attached[ip] == Attachment(v, Stored)
      else !after.ips[ip].used && (w.delete ==> ip !in after.attached)
  {
    assert AddressOk(s, ip) && !OwnsIp(s, v, ip);
    DetachedExactly(s, ip);
    RowLeftExactly(s, ip);
    AttachedAgain(s, v, ip);
  }

  // ---------- PCI devices ----------

  predicate CanMount(s: State, v: nat, dev: nat) {
    && IsNormal(s, v) && dev in s.devices && s.devices[dev].enabled && s.devices[dev].vm.None?
    && s.devices[dev].kind != Unknown && s.vms[v].host == Some(s.devices[dev].host)
  }

  function Mounted(s: State, v: nat, dev: nat): State
    requires dev in s.devices
  {
    s.(devices := s.devices[dev := s.devices[dev].(vm := Some(v))])
  }

  /** A task that may still move the VM will leave the device behind. */
  lemma MountedUnder(s: State, v: nat, dev: nat, t: nat)
    requires Inv(s) && v !in s.ops && CanMount(s, v, dev)
    requires t in s.tasks && s.tasks[t].vm == v && s.tasks[t].Expecting()
    ensures !StaysSound(Mounted(s, v, dev), v)
  {
    assert TaskOk(s, t) && RowOk(s, v);
    ExpectingIsUnderway(s.tasks[t]);
    RebalanceVm(s, Mounted(s, v, dev), v);
    assert LeftBehind(Mounted(s, v, dev), t, dev);
    MoveBreaks(Mounted(s, v, dev), t);
  }

  /** Nobody asks for migrations. Mounting a device keeps the invariant if and only if no task may still
      move the VM; and that is just when no later step of its tasks leaves a device on another host. */
  lemma MountedExactly(s: State, v: nat, dev: nat)
    requires Inv(s) && v !in s.ops && CanMount(s, v, dev)
    ensures Inv(Mounted(s, v, dev)) <==> !Expected(s, v)
    ensures StaysSound(Mounted(s, v, dev), v) <==> !Expected(s, v)
  {
    if Expected(s, v) {
      var t :| t in s.tasks && s.tasks[t].vm == v && s.tasks[t].Expecting();
      MountedUnder(s, v, dev, t);
    } else {
      MountDeviceKeeps(s, v, dev);
    }
    if Inv(Mounted(s, v, dev)) { InvStaysSound(Mounted(s, v, dev), v); }
  }

  /** Mounts a device on a VM that is switched off: only a free, enabled device of a known kind on
      the VM's own host, and only if the domain takes it. */
  method MountToVm(db: Database, v: nat, dev: nat, off: bool, plug: Plug) returns (ok: bool)
    requires Inv(db.Snapshot()) && IsNormal(db.Snapshot(), v) && v !in db.ops
    modifies db`devices
    ensures ok <==> && off && dev in old(db.devices) && old(db.devices)[dev].enabled && old(db.devices)[dev].vm.None?
                    && old(db.devices)[dev].kind != Unknown
                    && old(db.vms)[v].host == Some(old(db.devices)[dev].host) && plug == Done
    ensures db.devices == if ok then old(db.devices)[dev := old(db.devices)[dev].(vm := Some(v))] else old(db.devices)
    ensures Inv(db.Snapshot()) <==> (ok ==> !Expected(old(db.Snapshot()), v))
  {
    if !off || dev !in db.devices || db.devices[dev].vm.Some? || db.devices[dev].kind == Unknown {
      return false;
    }
    if db.vms[v].host != Some(db.devices[dev].host) || !db.devices[dev].enabled {
      return false;
    }
    MountedExactly(db.Snapshot(), v, dev);
    db.devices := db.devices[dev := db.devices[dev].(vm := Some(v))];
    if plug != Done {
      db.devices := db.devices[dev := db.devices[dev].(vm := None)];
      assert db.devices == old(db.devices);
      return false;
    }
    return true;
  }

  /** Unmounts a device; it stays mounted when the domain or the database refuses. */
  method UmountFromVm(db: Database, dev: nat, plug: Plug, saves: bool) returns (ok: bool)
    requires Inv(db.Snapshot()) && dev in db.devices
    modifies db`devices
    ensures ok <==> old(db.devices)[dev].kind != Unknown && (old(db.devices)[dev].vm.None? || (plug == Done && saves))
    ensures db.devices == if ok then old(db.devices)[dev := old(db.devices)[dev].(vm := None)] else old(db.devices)
    ensures Inv(db.Snapshot())
  {
    if db.devices[dev].kind == Unknown {
      return false;
    }
    if db.devices[dev].vm.None? {
      assert db.devices == db.devices[dev := db.devices[dev].(vm := None)];
      return true;
    }
    if plug != Done || !saves {
      return false;
    }
    UmountDeviceKeeps(db.Snapshot(), dev);
    db.devices := db.devices[dev := db.devices[dev].(vm := None)];
    return true;
  }
}
