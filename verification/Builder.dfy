/** Creating a VM and bringing a shelved one back, with their compensations. */
module Builder {
  import opened Tables
  import opened Protocol
  import opened ProtocolInv
  import opened StepKeeps
  import opened Keeps
  import opened Databases
  import opened Scheduler

  // ---------- choice of group and host ----------

  /** A user may use the resources of these groups; a superuser has all of them. Networks can be
      shielded from a user who is none. */
  datatype User = User(groups: seq<nat>, shielded: set<nat>)

  /** Which center a group belongs to, and whether it is enabled; fixed during a run. */
  datatype GroupRow = GroupRow(center: nat, enabled: bool)
  type Centers = map<nat, GroupRow>

  /** What the request names: an absent id is not given. */
  datatype Target = Target(center: Option<nat>, group: Option<nat>, host: Option<nat>)

  datatype Choice = Choice(groups: seq<nat>, host: Option<nat>)

  function InCenter(groups: seq<nat>, centers: Centers, center: nat): (r: seq<nat>)
    ensures forall g :: g in r <==> g in groups && g in centers && centers[g] == GroupRow(center, true)
  {
    if groups == [] then []
    else
      (if groups[0] in centers && centers[groups[0]] == GroupRow(center, true) then [groups[0]] else [])
      + InCenter(groups[1..], centers, center)
  }

  /** Groups or host to search, the host first; `vlan` is a network the choice must agree with. */
  function GroupsHostCheckPerms(s: State, centers: Centers, target: Target, user: User, vlan: Option<nat>):
      Result<Choice> {
    var vlanGroup := if vlan.Some? && vlan.value in s.vlans then Some(s.vlans[vlan.value].group) else None;
    if target.host.Some? then
      if target.host.value !in s.hosts then Raised
      else
        var g := s.hosts[target.host.value].group;
        if g !in user.groups || (vlanGroup.Some? && g != vlanGroup.value)
           || (target.group.Some? && target.group.value != g)
        then Raised
        else Ok(Choice([], target.host))
    else if target.group.Some? then
      var g := target.group.value;
      if (vlanGroup.Some? && g != vlanGroup.value) || g !in centers || g !in user.groups then Raised
      else Ok(Choice([g], None))
    else if target.center.Some? then
      if vlanGroup.Some? then
        if vlanGroup.value !in centers || centers[vlanGroup.value].center != target.center.value then Raised
        else Ok(Choice([vlanGroup.value], None))
      else Ok(Choice(InCenter(user.groups, centers, target.center.value), None))
    else Raised
  }

  /** Which hosts a choice allows, on the fields: the named one, or the enabled ones of the named group,
      or those of the groups of the named center. A network narrows each of them to its own group, and
      where only the center is named it stands in for the tests on user and group. */
  lemma ChoiceExactly(s: State, centers: Centers, target: Target, user: User, vlan: Option<nat>, h: nat)
    requires h in s.hosts && (vlan.Some? ==> vlan.value in s.vlans)
    ensures (var r := GroupsHostCheckPerms(s, centers, target, user, vlan);
             && r.Ok? && (r.value.host.Some? ==> r.value.host == Some(h))
             && (r.value.host.None? ==> exists g | g in r.value.groups :: InGroup(s, h, g)))
      <==> && (vlan.Some? ==> s.vlans[vlan.value].group == s.hosts[h].group)
           && if target.host.Some? then
                && target.host == Some(h) && s.hosts[h].group in user.groups
                && (target.group.Some? ==> target.group == Some(s.hosts[h].group))
              else if target.group.Some? then
                && target.group == Some(s.hosts[h].group) && s.hosts[h].group in centers
                && s.hosts[h].group in user.groups && s.hosts[h].enabled
              else
                && target.center.Some? && s.hosts[h].group in centers && s.hosts[h].enabled
                && centers[s.hosts[h].group].center == target.center.value
                && (vlan.None? ==> s.hosts[h].group in user.groups && centers[s.hosts[h].group].enabled)
  {
    var r := GroupsHostCheckPerms(s, centers, target, user, vlan);
    if r.Ok? && r.value.host.None? {
      assert s.hosts[h].group in r.value.groups && s.hosts[h].enabled <==>
             exists g | g in r.value.groups :: InGroup(s, h, g);
    }
  }

  /** A choice made for a given network never leaves the group of that network. */
  lemma ChoiceStaysInGroup(s: State, centers: Centers, target: Target, user: User, vlan: nat, h: nat)
    requires vlan in s.vlans && GroupsHostCheckPerms(s, centers, target, user, Some(vlan)).Ok?
    requires var c := GroupsHostCheckPerms(s, centers, target, user, Some(vlan)).value;
             c.host == Some(h) || (c.host.None? && exists g | g in c.groups :: InGroup(s, h, g))
    ensures h in s.hosts && s.hosts[h].group == s.vlans[vlan].group
  {
  }

  /** The address exists, is free, is of the requested kind, and its group is open to the user. */
  predicate AvailableMacIp(s: State, ip: nat, user: User, public: Option<bool>) {
    && ip in s.ips && s.ips[ip].CanUsed() && s.ips[ip].vlan in s.vlans
    && s.vlans[s.ips[ip].vlan].group in user.groups
    && OfKind(s, s.ips[ip].vlan, public)
  }

  /** The scheduler can serve a choice. */
  ghost predicate ChoiceServes(s: State, c: Choice, vcpu: int, mem: int, vlan: Option<nat>, need: bool,
      public: Option<bool>) {
    if c.host.Some? then
      Fits(s, c.host.value, vcpu, mem) && IpAvailable(s, s.hosts[c.host.value].group, vlan, need, public)
    else exists g | g in c.groups :: GroupServes(s, g, vcpu, mem, vlan, need, public)
  }

  // ---------- outcomes ----------

  /** VM `v` stands on host `h` with address `ip`: exactly one charge, one address, one row more. */
  function Placed(s: State, v: nat, h: nat, ip: nat, row: Vm): State
    requires h in s.hosts && ip in s.ips
  {
    var host := s.hosts[h];
    WithHost(WithIp(s, ip, true), h,
             host.(vcpu := host.vcpu + row.vcpu, mem := host.mem + row.mem, vmCreated := host.vmCreated + 1)).(
      vms := s.vms[v := row])
  }

  /** Nothing else than the row, its host and its address is touched. */
  lemma PlacedOnFields(s: State, v: nat, h: nat, ip: nat, row: Vm)
    requires h in s.hosts && ip in s.ips
    ensures var s' := Placed(s, v, h, ip, row);
      && s'.hosts == s.hosts[h := s.hosts[h].(vcpu := s.hosts[h].vcpu + row.vcpu, mem := s.hosts[h].mem + row.mem,
                                              vmCreated := s.hosts[h].vmCreated + 1)]
      && s'.ips == s.ips[ip := s.ips[ip].(used := true)] && s'.vms == s.vms[v := row]
      && s'.vlans == s.vlans && s'.ops == s.ops && s'.tasks == s.tasks
      && s'.attached == s.attached && s'.devices == s.devices
  {
  }

  /** A place that a VM of that size can be given. */
  predicate Suits(s: State, h: nat, ip: nat, vcpu: int, mem: int) {
    Fits(s, h, vcpu, mem) && ip in s.ips && s.ips[ip].CanUsed() && SameGroup(s, ip, h)
  }

  /** State while the row of `v` is not stored yet: address taken, host claimed. */
  function Holding(s: State, v: nat, kind: OpKind, h: nat, ip: nat, vcpu: int, mem: int): State
    requires h in s.hosts && ip in s.ips
  {
    WithOp(WithHost(WithIp(s, ip, true), h, s.hosts[h].(vcpu := s.hosts[h].vcpu + vcpu, mem := s.hosts[h].mem + mem)),
           v, Op(kind, vcpu, mem, h, true, false, ip, true, false))
  }

  function Begin(kind: OpKind, v: nat, ip: nat, vcpu: int, mem: int): Label {
    if kind == Creating then BeginCreate(v, ip, vcpu, mem) else BeginUnshelve(v, ip)
  }

  /** `v` may start to be created, or to be unshelved at its stored size. */
  predicate MayStart(s: State, v: nat, kind: OpKind, vcpu: int, mem: int) {
    && v !in s.ops && vcpu > 0 && mem > 0
    && if kind == Creating then v !in s.vms && !HasTask(s, v)
       else && kind == Unshelving && v in s.vms && s.vms[v].status == Shelved
            && s.vms[v].vcpu == vcpu && s.vms[v].mem == mem
  }

  lemma Started(s: State, v: nat, kind: OpKind, h: nat, ip: nat, vcpu: int, mem: int)
    requires MayStart(s, v, kind, vcpu, mem) && Suits(s, h, ip, vcpu, mem)
    ensures Exec(s, [Begin(kind, v, ip, vcpu, mem), ClaimHost(v, h)]) == Some(Holding(s, v, kind, h, ip, vcpu, mem))
  {
    var l := Begin(kind, v, ip, vcpu, mem);
    Extend(s, [], l);
    assert [] + [l] == [l];
    Extend(s, [l], ClaimHost(v, h));
    assert [l] + [ClaimHost(v, h)] == [l, ClaimHost(v, h)];
    assert SameGroup(Next(s, l).value, ip, h);
    assert Next(Next(s, l).value, ClaimHost(v, h)).value.ops == Holding(s, v, kind, h, ip, vcpu, mem).ops;
  }

  /** The row of a VM that was placed. */
  function PlacedRow(s: State, v: nat, h: nat, ip: nat, vcpu: int, mem: int): Vm {
    Vm(Normal, Some(h), Some(ip), if v in s.vms then s.vms[v].lastIp else None, vcpu, mem)
  }

  lemma StoredAndCounted(s: State, v: nat, kind: OpKind, h: nat, ip: nat, vcpu: int, mem: int)
    requires MayStart(s, v, kind, vcpu, mem) && Suits(s, h, ip, vcpu, mem)
    ensures var held := Holding(s, v, kind, h, ip, vcpu, mem);
      && Next(held, SaveRow(v)).Some?
      && Next(Next(held, SaveRow(v)).value, CountVm(v))
         == Some(Placed(s, v, h, ip, PlacedRow(s, v, h, ip, vcpu, mem)))
  {
    var s1 := SaveRowStep(Holding(s, v, kind, h, ip, vcpu, mem), v).value;
    var s2 := CountVmStep(s1, v).value;
    assert s2.ops == s.ops && s2.hosts == Placed(s, v, h, ip, PlacedRow(s, v, h, ip, vcpu, mem)).hosts;
  }

  lemma Finished(s: State, v: nat, kind: OpKind, h: nat, ip: nat, vcpu: int, mem: int)
    requires MayStart(s, v, kind, vcpu, mem) && Suits(s, h, ip, vcpu, mem)
    ensures Exec(Holding(s, v, kind, h, ip, vcpu, mem), [SaveRow(v), CountVm(v)])
            == Some(Placed(s, v, h, ip, PlacedRow(s, v, h, ip, vcpu, mem)))
  {
    StoredAndCounted(s, v, kind, h, ip, vcpu, mem);
    Exec2(Holding(s, v, kind, h, ip, vcpu, mem), SaveRow(v), CountVm(v));
  }

  lemma HostGivenBack(m: State, v: nat, row: Host)
    requires v in m.ops && m.ops[v].charged && !m.ops[v].ipHeld && !m.ops[v].counted && !m.ops[v].saved
    requires m.ops[v].kind != Shelving && m.ops[v].host in m.hosts
    requires m.hosts[m.ops[v].host].Free(m.ops[v].vcpu, m.ops[v].mem) == Some(row)
    ensures Exec(m, [ReleaseHost(v), EndOp(v)]) == Some(WithHost(m, m.ops[v].host, row).(ops := m.ops - {v}))
  {
    var s1 := WithOp(WithHost(m, m.ops[v].host, row), v, m.ops[v].(charged := false));
    assert ReleaseHostStep(m, v) == Some(s1);
    assert s1.ops - {v} == m.ops - {v};
    Exec2(m, ReleaseHost(v), EndOp(v));
  }

  /** The address of the operation is free again. */
  function IpGivenBack(m: State, v: nat): State
    requires v in m.ops && m.ops[v].ip in m.ips
  {
    WithOp(WithIp(m, m.ops[v].ip, false), v, m.ops[v].(ipHeld := false))
  }

  lemma IpFreed(m: State, v: nat, row: Host)
    requires v in m.ops && m.ops[v].ipHeld && !m.ops[v].saved && m.ops[v].host in m.hosts && m.ops[v].ip in m.ips
    ensures Next(m, ReleaseIp(v)) == Some(IpGivenBack(m, v))
    ensures WithHost(IpGivenBack(m, v), m.ops[v].host, row).(ops := IpGivenBack(m, v).ops - {v})
            == WithHost(WithIp(m, m.ops[v].ip, false), m.ops[v].host, row).(ops := m.ops - {v})
  {
    assert IpGivenBack(m, v).ops - {v} == m.ops - {v};
  }

  /** The common end of an operation that gives its address and its share of a host back. */
  lemma GivenBack(m: State, v: nat, row: Host)
    requires v in m.ops && m.ops[v].charged && m.ops[v].ipHeld && !m.ops[v].counted && !m.ops[v].saved
    requires m.ops[v].kind != Shelving && m.ops[v].host in m.hosts && m.ops[v].ip in m.ips
    requires m.hosts[m.ops[v].host].Free(m.ops[v].vcpu, m.ops[v].mem) == Some(row)
    ensures Exec(m, [ReleaseIp(v)] + [ReleaseHost(v), EndOp(v)])
            == Some(WithHost(WithIp(m, m.ops[v].ip, false), m.ops[v].host, row).(ops := m.ops - {v}))
  {
    var m1, ls := IpGivenBack(m, v), [ReleaseHost(v), EndOp(v)];
    IpFreed(m, v, row);
    ExecThen(m, ReleaseIp(v), m1, ls);
    HostGivenBack(m1, v, row);
  }

  lemma Undone(s: State, v: nat, kind: OpKind, h: nat, ip: nat, vcpu: int, mem: int)
    requires MayStart(s, v, kind, vcpu, mem) && Suits(s, h, ip, vcpu, mem) && s.hosts[h].WithinTotals()
    ensures Exec(Holding(s, v, kind, h, ip, vcpu, mem), [ReleaseIp(v)] + [ReleaseHost(v), EndOp(v)]) == Some(s)
  {
    var held := Holding(s, v, kind, h, ip, vcpu, mem);
    GivenBack(held, v, s.hosts[h]);
    assert held.ops - {v} == s.ops && held.ips[ip := s.ips[ip]] == s.ips && held.hosts[h := s.hosts[h]] == s.hosts;
  }

  /** Defining the domain failed after the row was stored: storing is taken back. */
  lemma SaveUndone(s: State, v: nat, kind: OpKind, h: nat, ip: nat, vcpu: int, mem: int)
    requires MayStart(s, v, kind, vcpu, mem) && Suits(s, h, ip, vcpu, mem)
    requires kind == Unshelving ==> s.vms[v].host.None? && s.vms[v].ip.None?
    ensures Exec(Holding(s, v, kind, h, ip, vcpu, mem), [SaveRow(v), DropRow(v)])
        == Some(Holding(s, v, kind, h, ip, vcpu, mem))
  {
    var held := Holding(s, v, kind, h, ip, vcpu, mem);
    var s1 := SaveRowStep(held, v).value;
    var s2 := DropRowStep(s1, v).value;
    assert s2.ops == held.ops && s2.vms == held.vms;
    Exec2(held, SaveRow(v), DropRow(v));
  }
}
