/** Choice of a host and of an address for a VM. */
module Scheduler {
  import opened Tables
  import opened Protocol
  import opened Databases

  datatype Schedule =
    | Scheduled(host: nat, macIp: Option<nat>)
    | NoHost | NoMacIp | NoHostOrMacIp | NoHostGroup | AcrossGroup | ClaimFailed

  // ---------- when a request can be met ----------

  predicate Fits(s: State, h: nat, vcpu: int, mem: int) {
    h in s.hosts && s.hosts[h].MeetNeeds(vcpu, mem)
  }

  predicate InGroup(s: State, h: nat, g: nat) {
    h in s.hosts && s.hosts[h].enabled && s.hosts[h].group == g
  }

  /** `public` asks for a public or a private network; `None` takes either. */
  predicate OfKind(s: State, vlan: nat, public: Option<bool>) {
    vlan in s.vlans && (public.Some? ==> s.vlans[vlan].public == public.value)
  }

  ghost predicate VlanServes(s: State, vlan: nat, public: Option<bool>) {
    OfKind(s, vlan, public) && exists ip :: FreeIn(s, vlan, ip)
  }

  predicate GroupVlan(s: State, vlan: nat, g: nat) {
    vlan in s.vlans && s.vlans[vlan].enabled && s.vlans[vlan].group == g
  }

  ghost predicate GroupHasIp(s: State, g: nat, public: Option<bool>) {
    exists vlan :: GroupVlan(s, vlan, g) && VlanServes(s, vlan, public)
  }

  /** The group can give what is asked for. A given network must lie in the group and serve;
      the group must have some free address of the kind even then. */
  ghost predicate IpAvailable(s: State, g: nat, vlan: Option<nat>, need: bool, public: Option<bool>) {
    && (vlan.Some? ==> vlan.value in s.vlans && s.vlans[vlan.value].group == g)
    && (need ==> GroupHasIp(s, g, public) && (vlan.Some? ==> VlanServes(s, vlan.value, public)))
  }

  ghost predicate GroupServes(s: State, g: nat, vcpu: int, mem: int, vlan: Option<nat>, need: bool,
      public: Option<bool>) {
    (exists h :: InGroup(s, h, g) && Fits(s, h, vcpu, mem)) && IpAvailable(s, g, vlan, need, public)
  }

  predicate ClaimWrites(writes: bool, vcpu: int, mem: int) { writes || (vcpu <= 0 && mem <= 0) }

  /** What a successful request did: one host claimed, one free address of the host's group and
      of the right kind taken, nothing else touched. */
  ghost predicate Taken(s: State, s': State, h: nat, macIp: Option<nat>, vcpu: int, mem: int,
                        vlan: Option<nat>, need: bool, public: Option<bool>)
  {
    && Fits(s, h, vcpu, mem) && s.hosts[h].ClaimIfMeets(vcpu, mem).Some?
    && (vlan.Some? ==> vlan.value in s.vlans && s.vlans[vlan.value].group == s.hosts[h].group)
    && macIp.Some? == need
    && (need ==>
          var ip := macIp.value;
          && ip in s.ips && s.ips[ip].CanUsed() && SameGroup(s, ip, h) && OfKind(s, s.ips[ip].vlan, public)
          && (vlan.Some? ==> s.ips[ip].vlan == vlan.value))
    && s' == WithHost(if need then WithIp(s, macIp.value, true) else s, h, s.hosts[h].ClaimIfMeets(vcpu, mem).value)
  }

  // ---------- the same on the fields of the rows ----------

  /** A host can take the VM if and only if it is below its VM limit and has room in both resources. It
      need not be enabled for that: only a search in a group looks for enabled hosts. */
  lemma FitsOnFields(s: State, h: nat, g: nat, vcpu: int, mem: int)
    ensures Fits(s, h, vcpu, mem)
      <==> && h in s.hosts && s.hosts[h].vmCreated < s.hosts[h].vmLimit
           && s.hosts[h].vcpu + vcpu <= s.hosts[h].vcpuTotal && s.hosts[h].mem + mem <= s.hosts[h].memTotal
    ensures InGroup(s, h, g) <==> h in s.hosts && s.hosts[h].enabled && s.hosts[h].group == g
  {
  }

  /** A group has an address to give if and only if the named network lies in it and, where an address is
      needed, an enabled network of the group has a free enabled one of the kind, and so has the named
      network, which need not be enabled itself. */
  lemma IpOnFields(s: State, g: nat, vlan: Option<nat>, need: bool, public: Option<bool>)
    ensures IpAvailable(s, g, vlan, need, public)
      <==> && (vlan.Some? ==> vlan.value in s.vlans && s.vlans[vlan.value].group == g)
           && (need ==>
                 exists ip | ip in s.ips && s.ips[ip].vlan in s.vlans ::
                   && s.ips[ip].enabled && !s.ips[ip].used
                   && s.vlans[s.ips[ip].vlan].group == g && s.vlans[s.ips[ip].vlan].enabled
                   && (public.Some? ==> s.vlans[s.ips[ip].vlan].public == public.value))
           && (need && vlan.Some? ==>
                 exists ip | ip in s.ips ::
                   && s.ips[ip].enabled && !s.ips[ip].used && s.ips[ip].vlan == vlan.value
                   && (public.Some? ==> s.vlans[vlan.value].public == public.value))
  {
    forall ip | ip in s.ips && s.ips[ip].vlan in s.vlans && s.ips[ip].enabled && !s.ips[ip].used
                && s.vlans[s.ips[ip].vlan].group == g && s.vlans[s.ips[ip].vlan].enabled
                && (public.Some? ==> s.vlans[s.ips[ip].vlan].public == public.value)
      ensures GroupHasIp(s, g, public) {
      assert FreeIn(s, s.ips[ip].vlan, ip) && GroupVlan(s, s.ips[ip].vlan, g);
    }
    if vlan.Some? {
      forall ip | ip in s.ips && s.ips[ip].enabled && !s.ips[ip].used && s.ips[ip].vlan == vlan.value
        ensures FreeIn(s, vlan.value, ip) {}
    }
  }

  /** What a granted request took, on the fields. */
  lemma TakenOnFields(s: State, s': State, h: nat, ip: Option<nat>, vcpu: int, mem: int,
                      vlan: Option<nat>, need: bool, public: Option<bool>)
    requires vcpu > 0 && mem > 0 && Taken(s, s', h, ip, vcpu, mem, vlan, need, public)
    ensures h in s.hosts && s'.hosts == s.hosts[h := s.hosts[h].(vcpu := s.hosts[h].vcpu + vcpu,
                                                              mem := s.hosts[h].mem + mem)]
    ensures !need ==> ip.None? && s'.ips == s.ips
    ensures need ==>
      && ip.Some? && ip.value in s.ips && s.ips[ip.value].enabled && !s.ips[ip.value].used
      && s.ips[ip.value].vlan in s.vlans && s.vlans[s.ips[ip.value].vlan].group == s.hosts[h].group
      && (public.Some? ==> s.vlans[s.ips[ip.value].vlan].public == public.value)
      && (vlan.Some? ==> s.ips[ip.value].vlan == vlan.value)
      && s'.ips == s.ips[ip.value := s.ips[ip.value].(used := true)]
    ensures s'.vlans == s.vlans && s'.vms == s.vms && s'.ops == s.ops && s'.tasks == s.tasks
            && s'.attached == s.attached && s'.devices == s.devices
  {
  }

  // ---------- lists in arbitrary order ----------

  /** The rows of a query, in whatever order the database returns them. */
  method Listed(rows: set<nat>) returns (list: seq<nat>)
    ensures forall x :: x in list <==> x in rows
    ensures forall i, j | 0 <= i < j < |list| :: list[i] != list[j]
  {
    list := [];
    var rest := rows;
    while rest != {}
      invariant rest <= rows && forall x :: x in list <==> x in rows - rest
      invariant forall i, j | 0 <= i < j < |list| :: list[i] != list[j]
    {
      var x :| x in rest;
      assert x !in list;
      list, rest := list + [x], rest - {x};
    }
  }

  /** Any permutation. */
  method Shuffle(list: seq<nat>) returns (mixed: seq<nat>)
    ensures multiset(mixed) == multiset(list)
    ensures forall x :: x in mixed <==> x in list
  {
    mixed := [];
    var rest := list;
    while rest != []
      invariant multiset(mixed) + multiset(rest) == multiset(list)
      decreases |rest|
    {
      var i :| 0 <= i < |rest|;
      assert rest == rest[..i] + [rest[i]] + rest[i + 1..];
      mixed, rest := mixed + [rest[i]], rest[..i] + rest[i + 1..];
    }
    forall x ensures x in mixed <==> x in list {
      assert x in mixed <==> x in multiset(mixed);
      assert x in list <==> x in multiset(list);
    }
  }

  class HostMacIPScheduler {
    const db: Database
    var host: Option<nat>
    var macIp: Option<nat>
    var vlan: Option<nat>

    constructor (db: Database)
      ensures this.db == db
    {
      this.db := db;
      host, macIp, vlan := None, None, None;
    }

    /** The request succeeds exactly when the given host fits, or some group of the list serves;
        the answer does not depend on any shuffle, and a refused request leaves nothing behind. */
    method Schedule(vcpu: int, mem: int, groups: seq<nat>, given: Option<nat>, onVlan: Option<nat>,
                    need: bool, public: Option<bool>, writes: bool) returns (r: Schedule)
      requires given.Some? ==> given.value in db.hosts
      requires onVlan.Some? ==> onVlan.value in db.vlans
      modifies this, db`hosts, db`ips
      ensures var s := old(db.Snapshot());
        r.Scheduled? <==>
          && ClaimWrites(writes, vcpu, mem)
          && if given.Some? then
               Fits(s, given.value, vcpu, mem) && IpAvailable(s, s.hosts[given.value].group, onVlan, need, public)
             else exists g | g in groups :: GroupServes(s, g, vcpu, mem, onVlan, need, public)
      ensures r.Scheduled? ==>
        && Taken(old(db.Snapshot()), db.Snapshot(), r.host, r.macIp, vcpu, mem, onVlan, need, public)
        && (if given.Some? then r.host == given.value
            else exists g | g in groups :: InGroup(old(db.Snapshot()), r.host, g))
        && host == Some(r.host) && macIp == r.macIp
      ensures !r.Scheduled? ==> db.Snapshot() == old(db.Snapshot())
    {
      if given.Some? {
        r := ScheduleByHostVlan(given.value, vcpu, mem, onVlan, need, public, writes);
      } else if groups == [] {
        r := NoHostGroup;
      } else if |groups| == 1 {
        assert groups[0] in groups && forall g | g in groups :: g == groups[0];
        r := ScheduleByGroupVlan(groups[0], vcpu, mem, onVlan, need, public, writes);
      } else {
        r := ScheduleByGroupListVlan(groups, vcpu, mem, onVlan, need, public, writes);
      }
      if r.Scheduled? {
        host, macIp := Some(r.host), r.macIp;
      }
    }

    method ScheduleByHostVlan(h: nat, vcpu: int, mem: int, onVlan: Option<nat>,
                              need: bool, public: Option<bool>, writes: bool) returns (r: Schedule)
      requires h in db.hosts && (onVlan.Some? ==> onVlan.value in db.vlans)
      modifies this`vlan, db`hosts, db`ips
      ensures var s := old(db.Snapshot());
        r.Scheduled? <==> ClaimWrites(writes, vcpu, mem) && Fits(s, h, vcpu, mem)
                          && IpAvailable(s, s.hosts[h].group, onVlan, need, public)
      ensures r.Scheduled? ==>
        && r.host == h
        && Taken(old(db.Snapshot()), db.Snapshot(), r.host, r.macIp, vcpu, mem, onVlan, need, public)
      ensures !r.Scheduled? ==> db.Snapshot() == old(db.Snapshot())
    {
      if onVlan.Some? && db.hosts[h].group != db.vlans[onVlan.value].group {
        return AcrossGroup;
      }
      if need {
        var ok := HasFreeMacIpInGroup(db.hosts[h].group, public);
        if !ok {
          return NoMacIp;
        }
      }
      r := ScheduleHostsVlan([h], db.hosts[h].group, vcpu, mem, onVlan, need, public, writes);
    }

    method ScheduleByGroupVlan(g: nat, vcpu: int, mem: int, onVlan: Option<nat>,
                               need: bool, public: Option<bool>, writes: bool) returns (r: Schedule)
      requires onVlan.Some? ==> onVlan.value in db.vlans
      modifies this`vlan, db`hosts, db`ips
      ensures r.Scheduled? <==> ClaimWrites(writes, vcpu, mem)
                                && GroupServes(old(db.Snapshot()), g, vcpu, mem, onVlan, need, public)
      ensures r.Scheduled? ==>
        && InGroup(old(db.Snapshot()), r.host, g)
        && Taken(old(db.Snapshot()), db.Snapshot(), r.host, r.macIp, vcpu, mem, onVlan, need, public)
      ensures !r.Scheduled? ==> db.Snapshot() == old(db.Snapshot())
    {
      ghost var s := db.Snapshot();
      if onVlan.Some? && g != db.vlans[onVlan.value].group {
        return AcrossGroup;
      }
      var hostList := Listed(set h | h in db.hosts && InGroup(db.Snapshot(), h, g));
      if hostList == [] {
        assert forall h :: InGroup(s, h, g) ==> h in hostList;
        return NoHost;
      }
      if need {
        var ok := HasFreeMacIpInGroup(g, public);
        if !ok {
          return NoMacIp;
        }
      }
      r := ScheduleHostsVlan(hostList, g, vcpu, mem, onVlan, need, public, writes);
    }

    method ScheduleByGroupListVlan(groups: seq<nat>, vcpu: int, mem: int, onVlan: Option<nat>,
                                   need: bool, public: Option<bool>, writes: bool) returns (r: Schedule)
      requires onVlan.Some? ==> onVlan.value in db.vlans
      modifies this`vlan, db`hosts, db`ips
      ensures r.Scheduled? <==>
        && ClaimWrites(writes, vcpu, mem)
        && exists g | g in groups :: GroupServes(old(db.Snapshot()), g, vcpu, mem, onVlan, need, public)
      ensures r.Scheduled? ==>
        && (exists g | g in groups :: InGroup(old(db.Snapshot()), r.host, g))
        && Taken(old(db.Snapshot()), db.Snapshot(), r.host, r.macIp, vcpu, mem, onVlan, need, public)
      ensures !r.Scheduled? ==> db.Snapshot() == old(db.Snapshot())
    {
      var mixed := Shuffle(groups);
      for i := 0 to |mixed|
        invariant db.Snapshot() == old(db.Snapshot())
        invariant forall j | 0 <= j < i ::
          !(ClaimWrites(writes, vcpu, mem)
              && GroupServes(old(db.Snapshot()), mixed[j], vcpu, mem, onVlan, need, public))
      {
        r := ScheduleByGroupVlan(mixed[i], vcpu, mem, onVlan, need, public, writes);
        if r.Scheduled? {
          assert mixed[i] in groups;
          return;
        }
      }
      r := NoHostOrMacIp;
    }

    /** The first host, in random order, that meets the needs. */
    method FindHost(hostList: seq<nat>, vcpu: int, mem: int) returns (found: Option<nat>)
      requires forall h | h in hostList :: h in db.hosts
      ensures found.Some? <==> exists h | h in hostList :: Fits(db.Snapshot(), h, vcpu, mem)
      ensures found.Some? ==> found.value in hostList && Fits(db.Snapshot(), found.value, vcpu, mem)
    {
      if hostList == [] {
        return None;
      }
      var mixed := Shuffle(hostList);
      for i := 0 to |mixed|
        invariant forall j | 0 <= j < i :: !Fits(db.Snapshot(), mixed[j], vcpu, mem)
      {
        assert mixed[i] in hostList;
        if db.hosts[mixed[i]].MeetNeeds(vcpu, mem) {
          return Some(mixed[i]);
        }
      }
      return None;
    }

    /** All hosts of the list are in group `g`. */
    method ScheduleHostsVlan(hostList: seq<nat>, g: nat, vcpu: int, mem: int, onVlan: Option<nat>,
                             need: bool, public: Option<bool>, writes: bool) returns (r: Schedule)
      requires forall h | h in hostList :: h in db.hosts && db.hosts[h].group == g
      requires onVlan.Some? ==> onVlan.value in db.vlans && db.vlans[onVlan.value].group == g
      modifies this`vlan, db`hosts, db`ips
      ensures var s := old(db.Snapshot());
        r.Scheduled? <==>
          && ClaimWrites(writes, vcpu, mem) && (exists h | h in hostList :: Fits(s, h, vcpu, mem))
          && (need ==> if onVlan.Some? then VlanServes(s, onVlan.value, public) else GroupHasIp(s, g, public))
      ensures r.Scheduled? ==>
        && r.host in hostList
        && Taken(old(db.Snapshot()), db.Snapshot(), r.host, r.macIp, vcpu, mem, onVlan, need, public)
      ensures !r.Scheduled? ==> db.Snapshot() == old(db.Snapshot())
    {
      var found := FindHost(hostList, vcpu, mem);
      if found == None {
        return NoHost;
      }
      var h := found.value;
      var ip := None;
      if need {
        ip := TakeIp(g, onVlan, public);
        if ip == None {
          return NoMacIp;
        }
      }
      var claimed := ClaimFromHost(db, h, vcpu, mem, writes);
      if claimed == Raised {
        if ip.Some? {
          var freed := FreeUsedIp(db, ip.value);
          assert db.ips == old(db.ips);
        }
        return ClaimFailed;
      }
      return Scheduled(h, ip);
    }

    /** Takes a free address in the given network, or else in any of the group. */
    method TakeIp(g: nat, onVlan: Option<nat>, public: Option<bool>) returns (ip: Option<nat>)
      requires onVlan.Some? ==> onVlan.value in db.vlans && db.vlans[onVlan.value].group == g
      modifies this`vlan, db`ips
      ensures var s := old(db.Snapshot());
        ip.Some? <==> if onVlan.Some? then VlanServes(s, onVlan.value, public) else GroupHasIp(s, g, public)
      ensures ip.Some? ==>
        && ip.value in old(db.ips) && old(db.ips)[ip.value].CanUsed()
        && (var on := old(db.ips)[ip.value].vlan;
            on in db.vlans && db.vlans[on].group == g && OfKind(old(db.Snapshot()), on, public)
            && (onVlan.Some? ==> on == onVlan.value))
        && db.Snapshot() == WithIp(old(db.Snapshot()), ip.value, true)
      ensures ip.None? ==> db.Snapshot() == old(db.Snapshot())
    {
      var vlanList;
      if onVlan.Some? {
        vlanList := [onVlan.value];
      } else {
        vlanList := Listed(set v | v in db.vlans && GroupVlan(db.Snapshot(), v, g));
      }
      assert onVlan.None? ==> forall v :: GroupVlan(db.Snapshot(), v, g) ==> v in vlanList;
      ip := GetMacIp(vlanList, public);
    }

    /** Takes a free address in one of the networks that are of the requested kind. */
    method GetMacIp(vlanList: seq<nat>, public: Option<bool>) returns (ip: Option<nat>)
      requires forall v | v in vlanList :: v in db.vlans
      modifies this`vlan, db`ips
      ensures ip.Some? <==> exists v | v in vlanList :: VlanServes(old(db.Snapshot()), v, public)
      ensures ip.Some? ==>
        && ip.value in old(db.ips) && old(db.ips)[ip.value].CanUsed()
        && old(db.ips)[ip.value].vlan in vlanList && OfKind(old(db.Snapshot()), old(db.ips)[ip.value].vlan, public)
        && vlan == Some(old(db.ips)[ip.value].vlan)
        && db.Snapshot() == WithIp(old(db.Snapshot()), ip.value, true)
      ensures ip.None? ==> db.Snapshot() == old(db.Snapshot())
    {
      ip := None;
      var mixed := Shuffle(vlanList);
      for i := 0 to |mixed|
        invariant ip == None && db.Snapshot() == old(db.Snapshot())
        invariant forall j | 0 <= j < i :: !VlanServes(db.Snapshot(), mixed[j], public)
      {
        var v := mixed[i];
        assert v in vlanList;
        if public.Some? && db.vlans[v].public != public.value {
          continue;
        }
        ip := ApplyForFreeIpInVlan(db, v);
        if ip.Some? {
          vlan := Some(v);
          assert FreeIn(old(db.Snapshot()), v, ip.value);
          return;
        }
      }
    }

    method HasFreeMacIpInGroup(g: nat, public: Option<bool>) returns (ok: bool)
      ensures ok <==> GroupHasIp(db.Snapshot(), g, public)
    {
      var vlanList := Listed(set v | v in db.vlans && GroupVlan(db.Snapshot(), v, g));
      for i := 0 to |vlanList|
        invariant forall j | 0 <= j < i :: !VlanServes(db.Snapshot(), vlanList[j], public)
      {
        var v := vlanList[i];
        assert v in vlanList;
        if public.Some? && db.vlans[v].public != public.value {
          continue;
        }
        if ip :| ip in db.ips && FreeIn(db.Snapshot(), v, ip) {
          assert VlanServes(db.Snapshot(), v, public);
          return true;
        }
      }
      assert forall v :: GroupVlan(db.Snapshot(), v, g) ==> v in vlanList;
      return false;
    }
  }
}
