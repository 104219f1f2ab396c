/** Creating, unshelving, deleting and shelving a VM, with other requests between any two commits. */
module Among {
  import opened Tables
  import opened Ledger
  import opened Protocol
  import opened ProtocolInv
  import opened StepKeeps
  import opened Keeps
  import opened Runs
  import opened Guards
  import opened Databases
  import opened Builder
  import opened MigrateThread

  /** One commit of this request. */
  method Take(db: Database, l: Label)
    requires Inv(db.Snapshot()) && Next(db.Snapshot(), l).Some? && !Harmful(db.Snapshot(), l)
    modifies db
    ensures Inv(db.Snapshot()) && Some(db.Snapshot()) == Next(old(db.Snapshot()), l)
  {
    NextKeeps(db.Snapshot(), l);
    Store(db, Next(db.Snapshot(), l).value);
  }

  /** One commit, and then whatever other requests do. */
  method TakeAmong(db: Database, v: nat, l: Label)
    requires Inv(db.Snapshot()) && Next(db.Snapshot(), l).Some? && !Harmful(db.Snapshot(), l)
    modifies db
    ensures Inv(db.Snapshot()) && SameVm(Next(old(db.Snapshot()), l).value, db.Snapshot(), v)
  {
    Take(db, l);
    Interfere(db, v);
  }

  /** VM `v` is there, with address and charge. */
  ghost predicate AllThere(s: State, v: nat, h: nat, ip: nat, vcpu: int, mem: int) {
    && v !in s.ops && IsNormal(s, v) && s.vms[v].host == Some(h) && s.vms[v].vcpu == vcpu && s.vms[v].mem == mem
    && ip in s.ips && s.ips[ip].used && OwnsIp(s, v, ip)
    && ChargeOf(s, VmOwner(v)) == Charge(h, vcpu, mem, 1)
  }

  /** VM `v` has neither address nor charge, and no request works on it. */
  ghost predicate NothingThere(s: State, v: nat) {
    && v !in s.ops && !IsNormal(s, v) && (forall ip: nat :: !OwnsIp(s, v, ip))
    && ChargeOf(s, VmOwner(v)) == NOTHING
  }

  lemma PlacedIsThere(s: State, v: nat)
    requires Inv(s) && IsNormal(s, v) && v !in s.ops
    ensures AllThere(s, v, s.vms[v].host.value, s.vms[v].ip.value, s.vms[v].vcpu, s.vms[v].mem)
  {
    assert AddressOk(s, s.vms[v].ip.value) && OwnsIp(s, v, s.vms[v].ip.value) && RowOk(s, v);
    assert !IsAttached(s, s.vms[v].ip.value);
  }

  // ---------- starting ----------

  /** Which outside calls work: the image, storing the row, defining the domain. */
  datatype StartWorks = StartWorks(image: bool, save: bool, define: bool)

  /** The request has taken the address, and perhaps a share of a host; the row is as it was. */
  ghost predicate Holds(s: State, v: nat, kind: OpKind, ip: nat, vcpu: int, mem: int, charged: bool, h: nat) {
    v in s.ops && s.ops[v] == Op(kind, vcpu, mem, h, charged, false, ip, true, false)
  }

  ghost predicate SameRow(s: State, s': State, v: nat) {
    (v in s.vms <==> v in s'.vms) && (v in s.vms ==> s'.vms[v] == s.vms[v])
  }

  /** Creates a VM, or brings a shelved one back, on a host of the list. Whatever other requests do
      between its commits, in the end the VM, its address and its charge are all there, or all was
      given back and the row is as before. `seen` are the states in which the hosts were tried: the host
      taken had room in all three respects then, and every host passed over lacked it or is of another
      group. Nothing else is refused but an address that is not free. */
  method StartVm(db: Database, v: nat, kind: OpKind, ip: nat, hosts: seq<nat>, vcpu: int, mem: int, w: StartWorks)
    returns (r: Option<nat>, ghost seen: seq<State>)
    requires Inv(db.Snapshot()) && MayStart(db.Snapshot(), v, kind, vcpu, mem)
    modifies db
    ensures Inv(db.Snapshot())
    ensures v !in db.ops
    ensures r.Some? ==>
      && r.value in hosts && AllThere(db.Snapshot(), v, r.value, ip, vcpu, mem)
      && db.vms[v] == Vm(Normal, Some(r.value), Some(ip), if v in old(db.vms) then old(db.vms)[v].lastIp else None,
                         vcpu, mem)
      && ip in db.ips && db.ips[ip].used
    ensures r.None? ==>
      && NothingThere(db.Snapshot(), v) && (v in db.vms <==> v in old(db.vms))
      && (v in db.vms ==> db.vms[v] == old(db.vms)[v])
    ensures var usable := ip in old(db.ips) && old(db.ips)[ip].enabled && !old(db.ips)[ip].used;
      && (r.Some? ==> usable && w.image && w.save && w.define)
      && (r.None? && usable && w.image && w.save && w.define ==> |seen| == |hosts|)
    ensures |seen| <= |hosts|
    ensures forall k | 0 <= k < |seen| && (k < |seen| - 1 || (r.None? && w.image && w.save && w.define)) ::
      !(&& ip in seen[k].ips && seen[k].ips[ip].vlan in seen[k].vlans && hosts[k] in seen[k].hosts
        && seen[k].vlans[seen[k].ips[ip].vlan].group == seen[k].hosts[hosts[k]].group
        && seen[k].hosts[hosts[k]].vmCreated < seen[k].hosts[hosts[k]].vmLimit
        && seen[k].hosts[hosts[k]].vcpu + vcpu <= seen[k].hosts[hosts[k]].vcpuTotal
        && seen[k].hosts[hosts[k]].mem + mem <= seen[k].hosts[hosts[k]].memTotal)
    ensures r.Some? ==>
      && |seen| > 0 && hosts[|seen| - 1] == r.value && r.value in seen[|seen| - 1].hosts
      && var host := seen[|seen| - 1].hosts[r.value];
         && host.vmCreated < host.vmLimit && host.vcpu + vcpu <= host.vcpuTotal && host.mem + mem <= host.memTotal
  {
    ghost var s := db.Snapshot();
    assert RowOk(s, v);
    seen := [];
    if ip !in db.ips || !db.ips[ip].CanUsed() {
      return None, seen;
    }
    TakeAmong(db, v, Begin(kind, v, ip, vcpu, mem));
    r, seen := StartWithIp(db, v, kind, ip, hosts, vcpu, mem, w);
  }

  /** The address is taken. */
  method StartWithIp(db: Database, v: nat, kind: OpKind, ip: nat, hosts: seq<nat>, vcpu: int, mem: int, w: StartWorks)
    returns (r: Option<nat>, ghost seen: seq<State>)
    requires Inv(db.Snapshot()) && Holds(db.Snapshot(), v, kind, ip, vcpu, mem, false, 0)
    requires kind == Creating || kind == Unshelving
    modifies db
    ensures Inv(db.Snapshot())
    ensures r.Some? ==> r.value in hosts && AllThere(db.Snapshot(), v, r.value, ip, vcpu, mem)
                        && db.vms[v] == PlacedRow(old(db.Snapshot()), v, r.value, ip, vcpu, mem)
    ensures r.None? ==> NothingThere(db.Snapshot(), v) && SameRow(old(db.Snapshot()), db.Snapshot(), v)
    ensures |seen| <= |hosts| && (r.Some? ==> w.image && w.save && w.define)
    ensures r.None? && w.image && w.save && w.define ==> |seen| == |hosts|
    ensures forall k | 0 <= k < |seen| && (k < |seen| - 1 || (r.None? && w.image && w.save && w.define)) ::
      !(&& ip in seen[k].ips && seen[k].ips[ip].vlan in seen[k].vlans && hosts[k] in seen[k].hosts
        && seen[k].vlans[seen[k].ips[ip].vlan].group == seen[k].hosts[hosts[k]].group
        && seen[k].hosts[hosts[k]].vmCreated < seen[k].hosts[hosts[k]].vmLimit
        && seen[k].hosts[hosts[k]].vcpu + vcpu <= seen[k].hosts[hosts[k]].vcpuTotal
        && seen[k].hosts[hosts[k]].mem + mem <= seen[k].hosts[hosts[k]].memTotal)
    ensures r.Some? ==>
      && |seen| > 0 && hosts[|seen| - 1] == r.value && r.value in seen[|seen| - 1].hosts
      && var host := seen[|seen| - 1].hosts[r.value];
         && host.vmCreated < host.vmLimit && host.vcpu + vcpu <= host.vcpuTotal && host.mem + mem <= host.memTotal
  {
    r, seen := ClaimSome(db, v, kind, ip, hosts, vcpu, mem);
    if r.None? {
      GiveAllBack(db, v);
      return;
    }
    var ok := StoreAndDefine(db, v, kind, ip, r.value, vcpu, mem, w);
    if !ok {
      r := None;
    }
  }

  /** With address and share in hand: image, row, domain and counter, or everything back. */
  method StoreAndDefine(db: Database, v: nat, kind: OpKind, ip: nat, h: nat, vcpu: int, mem: int, w: StartWorks)
    returns (ok: bool)
    requires Inv(db.Snapshot()) && Holds(db.Snapshot(), v, kind, ip, vcpu, mem, true, h)
    requires kind == Creating || kind == Unshelving
    modifies db
    ensures Inv(db.Snapshot()) && ok == (w.image && w.save && w.define)
    ensures ok ==> AllThere(db.Snapshot(), v, h, ip, vcpu, mem)
                   && db.vms[v] == PlacedRow(old(db.Snapshot()), v, h, ip, vcpu, mem)
    ensures !ok ==> NothingThere(db.Snapshot(), v) && SameRow(old(db.Snapshot()), db.Snapshot(), v)
  {
    assert OpOk(db.Snapshot(), v) && RowOk(db.Snapshot(), v);
    if !w.image || !w.save {
      GiveAllBack(db, v);
      return false;
    }
    TakeAmong(db, v, SaveRow(v));
    assert OpOk(db.Snapshot(), v);
    if !w.define {
      TakeAmong(db, v, DropRow(v));
      GiveAllBack(db, v);
      return false;
    }
    Take(db, CountVm(v));
    PlacedIsThere(db.Snapshot(), v);
    return true;
  }

  /** The locked test-then-claim, and then whatever others do. */
  method TryHost(db: Database, v: nat, kind: OpKind, ip: nat, h: nat, vcpu: int, mem: int) returns (ok: bool)
    requires Inv(db.Snapshot()) && Holds(db.Snapshot(), v, kind, ip, vcpu, mem, false, 0)
    requires kind == Creating || kind == Unshelving
    modifies db
    ensures Inv(db.Snapshot()) && SameRow(old(db.Snapshot()), db.Snapshot(), v)
    ensures Holds(db.Snapshot(), v, kind, ip, vcpu, mem, ok, if ok then h else 0)
    ensures ok <==> && ip in old(db.ips) && old(db.ips)[ip].vlan in old(db.vlans) && h in old(db.hosts)
                    && old(db.vlans)[old(db.ips)[ip].vlan].group == old(db.hosts)[h].group
                    && old(db.hosts)[h].vmCreated < old(db.hosts)[h].vmLimit
                    && old(db.hosts)[h].vcpu + vcpu <= old(db.hosts)[h].vcpuTotal
                    && old(db.hosts)[h].mem + mem <= old(db.hosts)[h].memTotal
  {
    ClaimHostExactly(db.Snapshot(), v, h);
    ok := Next(db.Snapshot(), ClaimHost(v, h)).Some?;
    if ok {
      TakeAmong(db, v, ClaimHost(v, h));
    } else {
      Interfere(db, v);
    }
  }

  /** Tries one host after the other, while others take and release shares. `seen` are the states in
      which the hosts were tried. */
  method ClaimSome(db: Database, v: nat, kind: OpKind, ip: nat, hosts: seq<nat>, vcpu: int, mem: int)
    returns (r: Option<nat>, ghost seen: seq<State>)
    requires Inv(db.Snapshot()) && Holds(db.Snapshot(), v, kind, ip, vcpu, mem, false, 0)
    requires kind == Creating || kind == Unshelving
    modifies db
    ensures Inv(db.Snapshot()) && SameRow(old(db.Snapshot()), db.Snapshot(), v)
    ensures Holds(db.Snapshot(), v, kind, ip, vcpu, mem, r.Some?, if r.Some? then r.value else 0)
    ensures r.Some? ==> r.value in hosts
    ensures |seen| <= |hosts| && (r.None? ==> |seen| == |hosts|) && (|seen| > 0 ==> seen[0] == old(db.Snapshot()))
    ensures forall k | 0 <= k < |seen| && (r.Some? ==> k < |seen| - 1) ::
      !(&& ip in seen[k].ips && seen[k].ips[ip].vlan in seen[k].vlans && hosts[k] in seen[k].hosts
        && seen[k].vlans[seen[k].ips[ip].vlan].group == seen[k].hosts[hosts[k]].group
        && seen[k].hosts[hosts[k]].vmCreated < seen[k].hosts[hosts[k]].vmLimit
        && seen[k].hosts[hosts[k]].vcpu + vcpu <= seen[k].hosts[hosts[k]].vcpuTotal
        && seen[k].hosts[hosts[k]].mem + mem <= seen[k].hosts[hosts[k]].memTotal)
    ensures r.Some? ==>
      && |seen| > 0 && hosts[|seen| - 1] == r.value && r.value in seen[|seen| - 1].hosts
      && var host := seen[|seen| - 1].hosts[r.value];
         && host.vmCreated < host.vmLimit && host.vcpu + vcpu <= host.vcpuTotal && host.mem + mem <= host.memTotal
  {
    seen := [];
    for i := 0 to |hosts|
      invariant Inv(db.Snapshot()) && Holds(db.Snapshot(), v, kind, ip, vcpu, mem, false, 0)
      invariant SameRow(old(db.Snapshot()), db.Snapshot(), v)
      invariant |seen| == i && (if i > 0 then seen[0] == old(db.Snapshot()) else db.Snapshot() == old(db.Snapshot()))
      invariant forall k | 0 <= k < i ::
        !(&& ip in seen[k].ips && seen[k].ips[ip].vlan in seen[k].vlans && hosts[k] in seen[k].hosts
          && seen[k].vlans[seen[k].ips[ip].vlan].group == seen[k].hosts[hosts[k]].group
          && seen[k].hosts[hosts[k]].vmCreated < seen[k].hosts[hosts[k]].vmLimit
          && seen[k].hosts[hosts[k]].vcpu + vcpu <= seen[k].hosts[hosts[k]].vcpuTotal
          && seen[k].hosts[hosts[k]].mem + mem <= seen[k].hosts[hosts[k]].memTotal)
    {
      seen := seen + [db.Snapshot()];
      var ok := TryHost(db, v, kind, ip, hosts[i], vcpu, mem);
      if ok {
        return Some(hosts[i]), seen;
      }
    }
    return None, seen;
  }

  // ---------- giving back ----------

  method FreeIp(db: Database, v: nat)
    requires Inv(db.Snapshot()) && v in db.ops && db.ops[v].ipHeld && !db.ops[v].saved
    modifies db
    ensures Inv(db.Snapshot()) && SameRow(old(db.Snapshot()), db.Snapshot(), v)
    ensures v in db.ops && db.ops[v] == old(db.ops)[v].(ipHeld := false)
  {
    assert OpOk(db.Snapshot(), v);
    TakeAmong(db, v, ReleaseIp(v));
  }

  method FreeShare(db: Database, v: nat)
    requires Inv(db.Snapshot()) && v in db.ops && db.ops[v].charged && !db.ops[v].saved
    modifies db
    ensures Inv(db.Snapshot()) && SameRow(old(db.Snapshot()), db.Snapshot(), v)
    ensures v in db.ops && db.ops[v] == old(db.ops)[v].(charged := false)
  {
    assert OpOk(db.Snapshot(), v);
    TakeAmong(db, v, ReleaseHost(v));
  }

  method Uncount(db: Database, v: nat)
    requires Inv(db.Snapshot()) && v in db.ops && db.ops[v].counted
    modifies db
    ensures Inv(db.Snapshot()) && SameRow(old(db.Snapshot()), db.Snapshot(), v)
    ensures v in db.ops && db.ops[v] == old(db.ops)[v].(counted := false)
  {
    assert OpOk(db.Snapshot(), v);
    TakeAmong(db, v, UncountVm(v));
  }

  method End(db: Database, v: nat)
    requires Inv(db.Snapshot()) && v in db.ops && HoldsNothing(db.ops[v]) && db.ops[v].kind != Shelving
    modifies db
    ensures Inv(db.Snapshot()) && NothingThere(db.Snapshot(), v) && SameRow(old(db.Snapshot()), db.Snapshot(), v)
  {
    assert OpOk(db.Snapshot(), v) && RowOk(db.Snapshot(), v);
    Take(db, EndOp(v));
  }

  /** Address and share go back, with others in between. */
  method GiveAllBack(db: Database, v: nat)
    requires Inv(db.Snapshot()) && IsStarting(db.Snapshot(), v) && !db.ops[v].saved && db.ops[v].ipHeld
    modifies db
    ensures Inv(db.Snapshot()) && NothingThere(db.Snapshot(), v) && SameRow(old(db.Snapshot()), db.Snapshot(), v)
  {
    assert OpOk(db.Snapshot(), v);
    FreeIp(db, v);
    if db.ops[v].charged {
      FreeShare(db, v);
    }
    End(db, v);
  }

  /** Deletes the row of a VM, and then gives back what it had, with others in between. */
  method DeleteVm(db: Database, v: nat)
    requires Inv(db.Snapshot()) && IsNormal(db.Snapshot(), v) && v !in db.ops && NoAttachment(db.Snapshot(), v)
    requires !BeingMoved(db.Snapshot(), v)
    modifies db
    ensures Inv(db.Snapshot()) && NothingThere(db.Snapshot(), v) && v !in db.vms && v !in db.ops
  {
    TakeAmong(db, v, DeleteRow(v));
    Uncount(db, v);
    FreeIp(db, v);
    FreeShare(db, v);
    End(db, v);
  }

  /** Gives back what a VM has, and then stores the row as shelved, with others in between. The devices
      are off before. */
  method ShelveVm(db: Database, v: nat)
    requires Inv(db.Snapshot()) && IsNormal(db.Snapshot(), v) && v !in db.ops && NoAttachment(db.Snapshot(), v)
    requires NoDevice(db.Snapshot(), v) && !Expected(db.Snapshot(), v)
    modifies db
    ensures Inv(db.Snapshot()) && NothingThere(db.Snapshot(), v) && v in db.vms && v !in db.ops
    ensures var row := old(db.vms)[v]; db.vms[v] == row.(status := Shelved, host := None, ip := None, lastIp := row.ip)
  {
    TakeAmong(db, v, BeginShelve(v));
    FreeIp(db, v);
    FreeShare(db, v);
    Uncount(db, v);
    Take(db, ShelveRow(v));
  }
}
