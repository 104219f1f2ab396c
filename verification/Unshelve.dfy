/** `unshelve_vm` and `unshelve_create_vm`. */
module Unshelve {
  import opened Tables
  import opened Protocol
  import opened ProtocolInv
  import opened StepKeeps
  import opened Keeps
  import opened Databases
  import opened Scheduler
  import opened Builder
  import opened VmBuilder

  /** The ids given by the caller; `xmlGroup` is the group of the bridge named in the stored XML. */
  datatype Wish = Wish(group: Option<nat>, host: Option<nat>, macIp: Option<nat>, xmlGroup: Option<nat>)
  {
    predicate NamesPlace() { group.Some? || host.Some? }
  }

  /** `PlacedNoDisks`: the VM is back, but attaching its disk failed and that is reported. */
  datatype Outcome = Restored(host: nat, ip: nat) | PlacedNoDisks(host: nat, ip: nat) | Refused

  datatype UnshelveWorks = UnshelveWorks(claim: bool, xml: bool, save: bool, define: bool, mount: bool)

  /** The last address of the VM, if it is free and can be taken again. */
  function LastIp(s: State, v: nat): Option<nat> {
    if v in s.vms && s.vms[v].lastIp.Some? && s.vms[v].lastIp.value in s.ips
       && s.ips[s.vms[v].lastIp.value].CanUsed() && s.ips[s.vms[v].lastIp.value].vlan in s.vlans
    then s.vms[v].lastIp
    else None
  }

  function GroupOfIp(s: State, ip: nat): nat
    requires ip in s.ips && s.ips[ip].vlan in s.vlans
  {
    s.vlans[s.ips[ip].vlan].group
  }

  /** The group used when the caller names nothing: that of the last address, else of the XML. */
  function DefaultGroup(s: State, v: nat, wish: Wish): Option<nat> {
    if LastIp(s, v).Some? then Some(GroupOfIp(s, LastIp(s, v).value)) else wish.xmlGroup
  }

  /** Where to look and which address is already decided, as far as it can be told beforehand. */
  function Plan(s: State, v: nat, centers: Centers, user: User, wish: Wish): Result<(Choice, Option<nat>)> {
    var named := Target(None, wish.group, wish.host);
    if wish.macIp.Some? then
      if !AvailableMacIp(s, wish.macIp.value, user, None) then Raised
      else if !wish.NamesPlace() then Ok((Choice([], None), wish.macIp))
      else
        match GroupsHostCheckPerms(s, centers, named, user, Some(s.ips[wish.macIp.value].vlan))
        case Ok(c) => Ok((c, wish.macIp))
        case Raised => Raised
    else if wish.NamesPlace() then
      match GroupsHostCheckPerms(s, centers, named, user, None)
      case Ok(c) => Ok((c, None))
      case Raised => Raised
    else if DefaultGroup(s, v, wish).None? then Raised
    else
      match GroupsHostCheckPerms(s, centers, Target(None, DefaultGroup(s, v, wish), None), user, None)
      case Ok(c) => Ok((c, LastIp(s, v)))
      case Raised => Raised
  }

  /** The one path that loses an address: it takes the last address back and only then finds
      that the user may not use its group. */
  predicate Leaks(s: State, v: nat, centers: Centers, user: User, wish: Wish) {
    && wish.macIp.None? && !wish.NamesPlace() && LastIp(s, v).Some?
    && (GroupOfIp(s, LastIp(s, v).value) !in user.groups || GroupOfIp(s, LastIp(s, v).value) !in centers)
  }

  /** Exactly when a shelved VM comes back. */
  ghost predicate Unshelves(s: State, v: nat, centers: Centers, user: User, wish: Wish, w: UnshelveWorks) {
    && v in s.vms && s.vms[v].status == Shelved
    && Plan(s, v, centers, user, wish).Ok?
    && (var (c, ip) := Plan(s, v, centers, user, wish).value;
        ChoiceServes(s, c, s.vms[v].vcpu, s.vms[v].mem, None, ip.None?, None))
    && w.claim && w.xml && w.save && w.define
  }

  /** The last address can be taken again if and only if it exists, is enabled, is free and lies in a
      network; where the caller names nothing it decides the group, and else the stored XML does. */
  lemma LastIpOnFields(s: State, v: nat, wish: Wish, ip: nat)
    requires v in s.vms
    ensures LastIp(s, v) == Some(ip)
      <==> && s.vms[v].lastIp == Some(ip) && ip in s.ips && s.ips[ip].enabled && !s.ips[ip].used
           && s.ips[ip].vlan in s.vlans
    ensures LastIp(s, v) == Some(ip) ==> DefaultGroup(s, v, wish) == Some(s.vlans[s.ips[ip].vlan].group)
    ensures LastIp(s, v) == None ==> DefaultGroup(s, v, wish) == wish.xmlGroup
  {
  }

  /** The last address is lost if and only if nothing is named, it can be taken, and its group does not
      exist or is closed to the user. */
  lemma LeaksOnFields(s: State, v: nat, centers: Centers, user: User, wish: Wish)
    requires v in s.vms
    ensures Leaks(s, v, centers, user, wish)
      <==> && wish.macIp.None? && wish.group.None? && wish.host.None? && s.vms[v].lastIp.Some?
           && var ip := s.vms[v].lastIp.value;
              && ip in s.ips && s.ips[ip].enabled && !s.ips[ip].used && s.ips[ip].vlan in s.vlans
              && (s.vlans[s.ips[ip].vlan].group !in user.groups || s.vlans[s.ips[ip].vlan].group !in centers)
  {
  }

  /** Host and address can be had if and only if some host that the plan allows has room, with an address
      in its group unless one is decided. */
  lemma PlanHost(s: State, v: nat, centers: Centers, user: User, wish: Wish, w: UnshelveWorks)
    requires v in s.vms
    ensures var r := Plan(s, v, centers, user, wish);
      Unshelves(s, v, centers, user, wish, w)
      <==> && s.vms[v].status == Shelved && w.claim && w.xml && w.save && w.define
           && exists h | h in s.hosts ::
                && r.Ok? && (r.value.0.host.Some? ==> r.value.0.host == Some(h))
                && (r.value.0.host.None? ==> exists g | g in r.value.0.groups :: InGroup(s, h, g))
                && Fits(s, h, s.vms[v].vcpu, s.vms[v].mem)
                && IpAvailable(s, s.hosts[h].group, None, r.value.1.None?, None)
  {
  }

  /** Which hosts a plan allows, on the fields: the named one, or the enabled ones of the named group; and
      of the group of the last address where neither host, group nor address is named. */
  lemma PlanExactly(s: State, v: nat, centers: Centers, user: User, wish: Wish, h: nat)
    requires v in s.vms && h in s.hosts
    ensures (var r := Plan(s, v, centers, user, wish);
             && r.Ok? && (r.value.0.host.Some? ==> r.value.0.host == Some(h))
             && (r.value.0.host.None? ==> exists g | g in r.value.0.groups :: InGroup(s, h, g)))
      <==> && s.hosts[h].group in user.groups
           && (wish.macIp.Some? ==>
                 && wish.macIp.value in s.ips && s.ips[wish.macIp.value].enabled && !s.ips[wish.macIp.value].used
                 && s.ips[wish.macIp.value].vlan in s.vlans
                 && s.vlans[s.ips[wish.macIp.value].vlan].group == s.hosts[h].group)
           && if wish.host.Some? then
                wish.host == Some(h) && (wish.group.Some? ==> wish.group == Some(s.hosts[h].group))
              else
                && s.hosts[h].enabled && s.hosts[h].group in centers
                && if wish.group.Some? then wish.group == Some(s.hosts[h].group)
                   else wish.macIp.None? && DefaultGroup(s, v, wish) == Some(s.hosts[h].group)
    ensures var r := Plan(s, v, centers, user, wish);
      r.Ok? ==> r.value.1 == if wish.macIp.Some? then wish.macIp
                             else if wish.group.Some? || wish.host.Some? then None else LastIp(s, v)
  {
    var named := Target(None, wish.group, wish.host);
    if wish.macIp.Some? {
      if AvailableMacIp(s, wish.macIp.value, user, None) && wish.NamesPlace() {
        ChoiceExactly(s, centers, named, user, Some(s.ips[wish.macIp.value].vlan), h);
      }
    } else if wish.NamesPlace() {
      ChoiceExactly(s, centers, named, user, None, h);
    } else if DefaultGroup(s, v, wish).Some? {
      ChoiceExactly(s, centers, Target(None, DefaultGroup(s, v, wish), None), user, None, h);
    }
  }

  /** When a VM comes back, on the fields: it is shelved, every call works, and some host is allowed by what
      is named, has room for its size, and has an address to give where none is decided. */
  lemma UnshelvesOnFields(s: State, v: nat, centers: Centers, user: User, wish: Wish, w: UnshelveWorks)
    requires v in s.vms
    ensures Unshelves(s, v, centers, user, wish, w)
      <==> && s.vms[v].status == Shelved && w.claim && w.xml && w.save && w.define
           && exists h | h in s.hosts ::
                && s.hosts[h].group in user.groups
                && (wish.macIp.Some? ==>
                      && wish.macIp.value in s.ips && s.ips[wish.macIp.value].enabled && !s.ips[wish.macIp.value].used
                      && s.ips[wish.macIp.value].vlan in s.vlans
                      && s.vlans[s.ips[wish.macIp.value].vlan].group == s.hosts[h].group)
                && (if wish.host.Some? then
                      wish.host == Some(h) && (wish.group.Some? ==> wish.group == Some(s.hosts[h].group))
                    else
                      && s.hosts[h].enabled && s.hosts[h].group in centers
                      && if wish.group.Some? then wish.group == Some(s.hosts[h].group)
                         else wish.macIp.None? && DefaultGroup(s, v, wish) == Some(s.hosts[h].group))
                && s.hosts[h].vmCreated < s.hosts[h].vmLimit
                && s.hosts[h].vcpu + s.vms[v].vcpu <= s.hosts[h].vcpuTotal
                && s.hosts[h].mem + s.vms[v].mem <= s.hosts[h].memTotal
                && (wish.macIp.None? && (wish.group.Some? || wish.host.Some? || LastIp(s, v).None?) ==>
                      exists a | a in s.ips && s.ips[a].vlan in s.vlans ::
                        && s.ips[a].enabled && !s.ips[a].used
                        && s.vlans[s.ips[a].vlan].group == s.hosts[h].group && s.vlans[s.ips[a].vlan].enabled)
  {
    PlanHost(s, v, centers, user, wish, w);
    var need := Plan(s, v, centers, user, wish).Ok? && Plan(s, v, centers, user, wish).value.1.None?;
    forall h | h in s.hosts {
      PlanExactly(s, v, centers, user, wish, h);
    }
    forall h | h in s.hosts {
      IpOnFields(s, s.hosts[h].group, None, need, None);
    }
  }

  /** With a decided address the kind of network asked for plays no part. */
  lemma KindIrrelevant(s: State, c: Choice, vcpu: int, mem: int, public: Option<bool>)
    ensures ChoiceServes(s, c, vcpu, mem, None, false, public) <==> ChoiceServes(s, c, vcpu, mem, None, false, None)
  {
    forall g ensures GroupServes(s, g, vcpu, mem, None, false, public)
        <==> GroupServes(s, g, vcpu, mem, None, false, None) {}
  }

  /** A decided address always lies in the group that is searched. */
  lemma PlanStaysInGroup(s: State, v: nat, centers: Centers, user: User, wish: Wish, h: nat)
    requires Plan(s, v, centers, user, wish).Ok? && Plan(s, v, centers, user, wish).value.1.Some?
    requires var c := Plan(s, v, centers, user, wish).value.0;
             c.host == Some(h) || (c.host.None? && exists g | g in c.groups :: InGroup(s, h, g))
    ensures SameGroup(s, Plan(s, v, centers, user, wish).value.1.value, h)
  {
  }

  /** Schedules with the decided address already taken; gives it back if nothing fits. */
  method Place(db: Database, ghost s: State, choice: Choice, decided: Option<nat>, vcpu: int, mem: int,
               public: Option<bool>, claimWorks: bool) returns (r: Result<(nat, nat)>)
    requires vcpu > 0 && mem > 0
    requires decided.Some? ==> decided.value in s.ips && s.ips[decided.value].CanUsed()
    requires db.Snapshot() == if decided.Some? then WithIp(s, decided.value, true) else s
    requires choice.host.Some? ==> choice.host.value in db.hosts
    modifies db`hosts, db`ips
    ensures r.Ok? <==> && ChoiceServes(old(db.Snapshot()), choice, vcpu, mem, None, decided.None?, public) && claimWorks
    ensures r.Raised? ==> db.Snapshot() == s
    ensures r.Ok? ==>
      var h, ip := r.value.0, r.value.1;
      && Fits(s, h, vcpu, mem) && ip in s.ips && s.ips[ip].CanUsed()
      && (if decided.Some? then ip == decided.value else SameGroup(s, ip, h))
      && (if choice.host.Some? then h == choice.host.value else exists g | g in choice.groups :: InGroup(s, h, g))
      && db.Snapshot() == WithHost(WithIp(s, ip, true), h,
          s.hosts[h].(vcpu := s.hosts[h].vcpu + vcpu, mem := s.hosts[h].mem + mem))
  {
    var scheduler := new HostMacIPScheduler(db);
    var found := scheduler.Schedule(vcpu, mem, choice.groups, choice.host, None, decided.None?, public, claimWorks);
    if !found.Scheduled? {
      if decided.Some? {
        var freed := FreeUsedIp(db, decided.value);
        assert db.ips == s.ips;
      }
      return Raised;
    }
    if choice.host.None? {
      ghost var g :| g in choice.groups && InGroup(old(db.Snapshot()), found.host, g);
      assert InGroup(s, found.host, g);
    }
    return Ok((found.host, if decided.Some? then decided.value else found.macIp.value));
  }

  /** Takes address and host for the shelved VM `v`. */
  method Reallocate(db: Database, centers: Centers, v: nat, user: User, wish: Wish, claimWorks: bool)
    returns (r: Result<(nat, nat)>)
    requires v in db.vms && db.vms[v].vcpu > 0 && db.vms[v].mem > 0
    modifies db`hosts, db`ips
    ensures var s := old(db.Snapshot());
      r.Ok? <==> && Plan(s, v, centers, user, wish).Ok?
                 && (var (c, ip) := Plan(s, v, centers, user, wish).value;
                     ChoiceServes(s, c, s.vms[v].vcpu, s.vms[v].mem, None, ip.None?, None))
                 && claimWorks
    ensures var s := old(db.Snapshot());
      r.Raised? ==> db.Snapshot() == if Leaks(s, v, centers, user, wish) then WithIp(s, LastIp(s, v).value, true) else s
    ensures r.Ok? ==>
      var s, h, ip := old(db.Snapshot()), r.value.0, r.value.1;
      var vcpu, mem := s.vms[v].vcpu, s.vms[v].mem;
      && h in s.hosts && s.hosts[h].group in user.groups
      && (wish.host.Some? ==> wish.host == Some(h)) && (wish.group.Some? ==> wish.group == Some(s.hosts[h].group))
      && (wish.host.None? ==> s.hosts[h].enabled && s.hosts[h].group in centers)
      && ip in s.ips && s.ips[ip].enabled && !s.ips[ip].used && s.ips[ip].vlan in s.vlans
      && s.vlans[s.ips[ip].vlan].group == s.hosts[h].group
      && (wish.macIp.Some? ==> wish.macIp == Some(ip))
      && (wish.host.None? && wish.group.None? && wish.macIp.None? ==>
            if LastIp(s, v).Some? then s.vms[v].lastIp == Some(ip) else wish.xmlGroup == Some(s.hosts[h].group))
      && s.hosts[h].vmCreated < s.hosts[h].vmLimit && s.hosts[h].vcpu + s.vms[v].vcpu <= s.hosts[h].vcpuTotal
      && s.hosts[h].mem + s.vms[v].mem <= s.hosts[h].memTotal
      && db.Snapshot() == WithHost(WithIp(s, ip, true), h,
          s.hosts[h].(vcpu := s.hosts[h].vcpu + vcpu, mem := s.hosts[h].mem + mem))
  {
    ghost var s := db.Snapshot();
    var vcpu, mem := db.vms[v].vcpu, db.vms[v].mem;
    var last := LastIp(db.Snapshot(), v);
    var plan := Plan(db.Snapshot(), v, centers, user, wish);
    if wish.macIp.None? && !wish.NamesPlace() && last.Some? {
      var taken := ApplyForIp(db, last.value);  // taken before the permission check
    }
    if plan.Raised? {
      return Raised;
    }
    var (choice, decided) := plan.value;
    var public := None;
    if decided.Some? {
      if wish.macIp.Some? {
        var taken := ApplyForIp(db, decided.value);
      }
      public := Some(db.vlans[db.ips[decided.value].vlan].public);
      ServesWithoutIp(s, decided.value, choice, vcpu, mem, None, public);
      KindIrrelevant(s, choice, vcpu, mem, public);
    }
    assert db.Snapshot() == if decided.Some? then WithIp(s, decided.value, true) else s;
    r := Place(db, s, choice, decided, vcpu, mem, public, claimWorks);
    if r.Ok? {
      PlanExactly(s, v, centers, user, wish, r.value.0);
    }
  }

  /** Stores host, address and status, then defines the domain; takes the row back if that fails. */
  method CreateVm3(db: Database, v: nat, h: nat, ip: nat, w: UnshelveWorks) returns (ok: bool)
    requires v in db.vms && db.vms[v].status == Shelved && db.vms[v].host.None? && db.vms[v].ip.None?
    modifies db`vms
    ensures ok == (w.xml && w.save && w.define)
    ensures db.vms == if ok then old(db.vms)[v := old(db.vms)[v].(status := Normal, host := Some(h), ip := Some(ip))]
                      else old(db.vms)
  {
    if !w.xml || !w.save {
      return false;
    }
    db.vms := db.vms[v := db.vms[v].(status := Normal, host := Some(h), ip := Some(ip))];
    if !w.define {
      db.vms := db.vms[v := db.vms[v].(status := Shelved, host := None, ip := None)];
      assert db.vms == old(db.vms);
      return false;
    }
    return true;
  }

  /** The part after the allocation. */
  method RebuildVm(db: Database, ghost s: State, v: nat, h: nat, ip: nat, w: UnshelveWorks) returns (ok: bool)
    requires v in s.vms && s.vms[v].status == Shelved && s.vms[v].host.None? && s.vms[v].ip.None?
    requires MayStart(s, v, Unshelving, s.vms[v].vcpu, s.vms[v].mem) && Suits(s, h, ip, s.vms[v].vcpu, s.vms[v].mem)
    requires s.hosts[h].WithinTotals()
    requires db.Snapshot() == Holding(s, v, Unshelving, h, ip, s.vms[v].vcpu, s.vms[v].mem)
    modifies db
    ensures ok == (w.xml && w.save && w.define)
    ensures db.Snapshot()
        == if ok then Placed(s, v, h, ip, s.vms[v].(status := Normal, host := Some(h), ip := Some(ip))) else s
  {
    var vcpu, mem := db.vms[v].vcpu, db.vms[v].mem;
    GiveBackRestores(s, v, Unshelving, h, ip, vcpu, mem);
    ok := CreateVm3(db, v, h, ip, w);
    if !ok {
      GiveBack(db, v, ip, h, vcpu, mem);
      return;
    }
    CountBuilt(db, s, v, Unshelving, h, ip, vcpu, mem);
  }

  /** Begins the operation and rebuilds the VM; both outcomes keep the invariant. */
  method RebuildAndRun(db: Database, ghost s: State, v: nat, h: nat, ip: nat, w: UnshelveWorks) returns (ok: bool)
    requires Inv(s) && v in s.vms && s.vms[v].status == Shelved && v !in s.ops
    requires Suits(s, h, ip, s.vms[v].vcpu, s.vms[v].mem)
    requires db.Snapshot() == WithHost(WithIp(s, ip, true), h,
      s.hosts[h].(vcpu := s.hosts[h].vcpu + s.vms[v].vcpu, mem := s.hosts[h].mem + s.vms[v].mem))
    modifies db
    ensures ok == (w.xml && w.save && w.define)
    ensures db.Snapshot()
        == if ok then Placed(s, v, h, ip, s.vms[v].(status := Normal, host := Some(h), ip := Some(ip))) else s
    ensures Inv(db.Snapshot())
  {
    assert RowOk(s, v);
    HostWithinTotals(s, h);
    var vcpu, mem := db.vms[v].vcpu, db.vms[v].mem;
    db.ops := db.ops[v := Op(Unshelving, vcpu, mem, h, true, false, ip, true, false)];
    ok := RebuildVm(db, s, v, h, ip, w);
    if ok {
      ghost var run := PlacedRun(s, v, Unshelving, h, ip, vcpu, mem);
      GentleRunKeeps(s, run);
    }
  }

  /** Brings a shelved VM back at its old size. A refused VM stays SHELVE, with no host and no
      address, and the ledger is as before; only on the leaking path its last address stays taken. */
  method UnshelveVm(db: Database, centers: Centers, v: nat, user: User, wish: Wish, w: UnshelveWorks)
    returns (r: Outcome)
    requires Inv(db.Snapshot()) && v in db.vms && v !in db.ops
    modifies db
    ensures Inv(db.Snapshot())
        <==> !(old(db.vms)[v].status == Shelved && Leaks(old(db.Snapshot()), v, centers, user, wish))
    ensures !r.Refused? <==> Unshelves(old(db.Snapshot()), v, centers, user, wish, w)
    ensures var s := old(db.Snapshot());
      if r.Refused? then
        db.Snapshot() == if s.vms[v].status == Shelved && Leaks(s, v, centers, user, wish)
                         then WithIp(s, LastIp(s, v).value, true) else s
      else
        r.host in s.hosts && r.ip in s.ips
        && db.Snapshot() == Placed(s, v, r.host, r.ip,
            s.vms[v].(status := Normal, host := Some(r.host), ip := Some(r.ip)))
    ensures var s := old(db.Snapshot());
      !r.Refused? ==>
      && r.host in s.hosts && s.hosts[r.host].group in user.groups
      && (wish.host.Some? ==> wish.host == Some(r.host))
      && (wish.group.Some? ==> wish.group == Some(s.hosts[r.host].group))
      && (wish.host.None? ==> s.hosts[r.host].enabled && s.hosts[r.host].group in centers)
      && r.ip in s.ips && s.ips[r.ip].enabled && !s.ips[r.ip].used && s.ips[r.ip].vlan in s.vlans
      && s.vlans[s.ips[r.ip].vlan].group == s.hosts[r.host].group
      && (wish.macIp.Some? ==> wish.macIp == Some(r.ip))
      && (wish.host.None? && wish.group.None? && wish.macIp.None? ==>
            if LastIp(s, v).Some? then s.vms[v].lastIp == Some(r.ip) else wish.xmlGroup == Some(s.hosts[r.host].group))
      && s.hosts[r.host].vmCreated < s.hosts[r.host].vmLimit
      && s.hosts[r.host].vcpu + s.vms[v].vcpu <= s.hosts[r.host].vcpuTotal
      && s.hosts[r.host].mem + s.vms[v].mem <= s.hosts[r.host].memTotal
    ensures r.Restored? ==> w.mount
    ensures r.PlacedNoDisks? ==> !w.mount
  {
    ghost var s := db.Snapshot();
    assert RowOk(s, v);
    if db.vms[v].status == Normal {
      return Refused;
    }
    var place := Reallocate(db, centers, v, user, wish, w.claim);
    if place.Raised? {
      if Leaks(s, v, centers, user, wish) { LeakBreaksAddresses(s, v, centers, user, wish); }
      return Refused;
    }
    var (h, ip) := place.value;
    var ok := RebuildAndRun(db, s, v, h, ip, w);
    if !ok {
      return Refused;
    }
    return if w.mount then Restored(h, ip) else PlacedNoDisks(h, ip);
  }

  /** A leaked address is used by nobody: the address book is broken. */
  lemma LeakBreaksAddresses(s: State, v: nat, centers: Centers, user: User, wish: Wish)
    requires Inv(s) && Leaks(s, v, centers, user, wish)
    ensures !AddressOk(WithIp(s, LastIp(s, v).value, true), LastIp(s, v).value)
  {
    var ip := LastIp(s, v).value;
    var s' := WithIp(s, ip, true);
    assert AddressOk(s, ip);
    forall w ensures !OwnsIp(s', w, ip) { assert !OwnsIp(s, w, ip); }
  }
}
