/** `create_vm` and `unshelve_create_vm`: all or nothing. */
module VmBuilder {
  import opened Tables
  import opened Protocol
  import opened ProtocolInv
  import opened StepKeeps
  import opened Keeps
  import opened Databases
  import opened Scheduler
  import opened Builder

  /** An RBD image is known by its pool and its name. */
  datatype ImageId = ImageId(pool: nat, name: string)

  /** The RBD store: what each image holds. */
  class Ceph {
    var images: map<ImageId, nat>

    constructor ()
      ensures images == map[]
    {
      images := map[];
    }

    method Clone(content: nat, id: ImageId, works: bool) returns (ok: bool)
      modifies this
      ensures ok == (works && id !in old(images))
      ensures images == if ok then old(images)[id := content] else old(images)
    {
      if !works || id in images {
        return false;
      }
      images := images[id := content];
      return true;
    }

    method Remove(id: ImageId)
      modifies this
      ensures images == old(images) - {id}
    {
      images := images - {id};
    }
  }

  /** What is asked for. `sysDiskSize` 0 takes the size of the system image. */
  datatype Request = Request(vcpu: int, mem: int, target: Target, ip: Option<nat>, vlan: Option<nat>,
                             public: Option<bool>, sysDiskSize: int, imageSize: int,
                             content: nat, disk: ImageId)
  {
    predicate Valid() {
      && vcpu > 0 && mem > 0
      && (target.center.Some? || target.group.Some? || target.host.Some?)
      && (sysDiskSize == 0 || imageSize <= sysDiskSize <= 5 * 1024)
    }

    /** The network that the choice of group and host has to agree with. */
    function Network(s: State): Option<nat> {
      if ip.Some? then (if ip.value in s.ips then Some(s.ips[ip.value].vlan) else None) else vlan
    }

    /** The named address or network may be used. */
    predicate MayUse(s: State, user: User) {
      if ip.Some? then AvailableMacIp(s, ip.value, user, public)
      else vlan.Some? ==> && vlan.value in s.vlans && vlan.value !in user.shielded
                          && s.vlans[vlan.value].group in user.groups
    }
  }

  /** Which outside calls work: finding the system image, its size and its store, the host claim,
      cloning and resizing the image, building the XML, storing the row, defining the domain. */
  datatype Works = Works(image: bool, claim: bool, clone: bool, resize: bool, xml: bool, save: bool, define: bool)

  /** Exactly when a creation succeeds. */
  ghost predicate Creates(s: State, images: map<ImageId, nat>, centers: Centers, user: User, req: Request, w: Works) {
    req.Valid() && w.image && Allocates(s, centers, user, req) && w.claim && Builds(images, req, w)
  }

  /** Exactly when host and address can be had. */
  ghost predicate Allocates(s: State, centers: Centers, user: User, req: Request) {
    && req.MayUse(s, user) && GroupsHostCheckPerms(s, centers, req.target, user, req.Network(s)).Ok?
    && ChoiceServes(s, GroupsHostCheckPerms(s, centers, req.target, user, req.Network(s)).value,
                    req.vcpu, req.mem, req.Network(s), req.ip.None?, req.public)
  }

  /** And exactly when it does once host and address are there. */
  predicate Builds(images: map<ImageId, nat>, req: Request, w: Works) {
    w.clone && req.disk !in images && (req.sysDiskSize > req.imageSize ==> w.resize) && w.xml && w.save && w.define
  }

  /** Reserving the named address does not change what the scheduler can serve without one. */
  lemma ServesWithoutIp(s: State, ip: nat, c: Choice, vcpu: int, mem: int, vlan: Option<nat>, public: Option<bool>)
    requires ip in s.ips
    ensures ChoiceServes(WithIp(s, ip, true), c, vcpu, mem, vlan, false, public)
        <==> ChoiceServes(s, c, vcpu, mem, vlan, false, public)
  {
    var s1 := WithIp(s, ip, true);
    forall g ensures GroupServes(s1, g, vcpu, mem, vlan, false, public)
        <==> GroupServes(s, g, vcpu, mem, vlan, false, public) {
      assert forall h :: InGroup(s1, h, g) == InGroup(s, h, g) && Fits(s1, h, vcpu, mem) == Fits(s, h, vcpu, mem);
    }
  }

  /** Host and address can be had if and only if some host that the choice allows has room, with the
      address that is wanted in its group. */
  lemma AllocatesHost(s: State, centers: Centers, user: User, req: Request)
    requires req.MayUse(s, user)
    ensures var n := req.Network(s); var r := GroupsHostCheckPerms(s, centers, req.target, user, n);
      Allocates(s, centers, user, req)
      <==> exists h | h in s.hosts ::
             && r.Ok? && (r.value.host.Some? ==> r.value.host == Some(h))
             && (r.value.host.None? ==> exists g | g in r.value.groups :: InGroup(s, h, g))
             && Fits(s, h, req.vcpu, req.mem) && IpAvailable(s, s.hosts[h].group, n, req.ip.None?, req.public)
  {
  }

  /** When host and address can be had, on the fields of the rows: a named address or network may be used,
      and some host is allowed by what the request names, agrees with the network, has room, and has the
      address that is wanted in its group. */
  lemma AllocatesOnFields(s: State, centers: Centers, user: User, req: Request)
    requires req.Valid()
    ensures Allocates(s, centers, user, req)
      <==> && (req.ip.Some? ==>
                 && req.ip.value in s.ips && s.ips[req.ip.value].enabled && !s.ips[req.ip.value].used
                 && s.ips[req.ip.value].vlan in s.vlans && s.vlans[s.ips[req.ip.value].vlan].group in user.groups
                 && (req.public.Some? ==> s.vlans[s.ips[req.ip.value].vlan].public == req.public.value))
           && (req.ip.None? && req.vlan.Some? ==>
                 && req.vlan.value in s.vlans && req.vlan.value !in user.shielded
                 && s.vlans[req.vlan.value].group in user.groups)
           && exists h | h in s.hosts ::
               && s.hosts[h].group in user.groups
               && (if req.target.host.Some? then
                     && req.target.host == Some(h)
                     && (req.target.group.Some? ==> req.target.group == Some(s.hosts[h].group))
                   else if req.target.group.Some? then
                     req.target.group == Some(s.hosts[h].group) && s.hosts[h].group in centers && s.hosts[h].enabled
                   else
                     && req.target.center.Some? && s.hosts[h].group in centers && s.hosts[h].enabled
                     && centers[s.hosts[h].group].center == req.target.center.value
                     && (req.ip.None? && req.vlan.None? ==> centers[s.hosts[h].group].enabled))
               && (req.ip.Some? ==> s.vlans[s.ips[req.ip.value].vlan].group == s.hosts[h].group)
               && (req.ip.None? && req.vlan.Some? ==> s.vlans[req.vlan.value].group == s.hosts[h].group)
               && s.hosts[h].vmCreated < s.hosts[h].vmLimit && s.hosts[h].vcpu + req.vcpu <= s.hosts[h].vcpuTotal
               && s.hosts[h].mem + req.mem <= s.hosts[h].memTotal
               && (req.ip.None? ==>
                     exists a | a in s.ips && s.ips[a].vlan in s.vlans ::
                       && s.ips[a].enabled && !s.ips[a].used && s.vlans[s.ips[a].vlan].group == s.hosts[h].group
                       && s.vlans[s.ips[a].vlan].enabled
                       && (req.public.Some? ==> s.vlans[s.ips[a].vlan].public == req.public.value))
               && (req.ip.None? && req.vlan.Some? ==>
                     exists a | a in s.ips ::
                       && s.ips[a].enabled && !s.ips[a].used && s.ips[a].vlan == req.vlan.value
                       && (req.public.Some? ==> s.vlans[req.vlan.value].public == req.public.value))
  {
    if req.MayUse(s, user) {
      AllocatesHost(s, centers, user, req);
      forall h | h in s.hosts {
        ChoiceExactly(s, centers, req.target, user, req.Network(s), h);
      }
      forall h | h in s.hosts {
        IpOnFields(s, s.hosts[h].group, req.Network(s), req.ip.None?, req.public);
      }
    }
  }

  /** Schedules with the named address already taken; gives it back if nothing fits. */
  method Search(db: Database, ghost s: State, choice: Choice, network: Option<nat>, req: Request, claimWorks: bool)
    returns (r: Result<(nat, nat)>)
    requires req.Valid() && (choice.host.Some? ==> choice.host.value in s.hosts)
    requires network == req.Network(s) && (network.Some? ==> network.value in s.vlans)
    requires req.ip.Some? ==> req.ip.value in s.ips && s.ips[req.ip.value].CanUsed()
                              && OfKind(s, s.ips[req.ip.value].vlan, req.public)
    requires db.Snapshot() == if req.ip.Some? then WithIp(s, req.ip.value, true) else s
    modifies db`hosts, db`ips
    ensures r.Ok? <==> && ChoiceServes(s, choice, req.vcpu, req.mem, network, req.ip.None?, req.public) && claimWorks
    ensures r.Raised? ==> db.Snapshot() == s
    ensures r.Ok? ==>
      var h, ip := r.value.0, r.value.1;
      && (if choice.host.Some? then h == choice.host.value else exists g | g in choice.groups :: InGroup(s, h, g))
      && Suits(s, h, ip, req.vcpu, req.mem) && OfKind(s, s.ips[ip].vlan, req.public)
      && (req.ip.Some? ==> req.ip == Some(ip)) && (network.Some? ==> network == Some(s.ips[ip].vlan))
      && db.Snapshot() == WithHost(WithIp(s, ip, true), h,
                                   s.hosts[h].(vcpu := s.hosts[h].vcpu + req.vcpu, mem := s.hosts[h].mem + req.mem))
  {
    if req.ip.Some? {
      ServesWithoutIp(s, req.ip.value, choice, req.vcpu, req.mem, network, req.public);
    }
    var scheduler := new HostMacIPScheduler(db);
    var found := scheduler.Schedule(req.vcpu, req.mem, choice.groups, choice.host, network,
                                    req.ip.None?, req.public, claimWorks);
    if !found.Scheduled? {
      if req.ip.Some? {
        var freed := FreeUsedIp(db, req.ip.value);
        assert db.ips == s.ips;
      }
      return Raised;
    }
    if choice.host.None? {
      ghost var g :| g in choice.groups && InGroup(old(db.Snapshot()), found.host, g);
      assert InGroup(s, found.host, g);
    }
    return Ok((found.host, if req.ip.Some? then req.ip.value else found.macIp.value));
  }

  /** A creation succeeds if and only if the request is well-formed, every call works, the image name is
      free, and host and address can be had. */
  lemma CreatesOnFields(s: State, images: map<ImageId, nat>, centers: Centers, user: User, req: Request, w: Works)
    ensures Creates(s, images, centers, user, req, w)
      <==> && req.vcpu > 0 && req.mem > 0
           && (req.target.host.Some? || req.target.group.Some? || req.target.center.Some?)
           && (req.sysDiskSize == 0 || (req.imageSize <= req.sysDiskSize && req.sysDiskSize <= 5120))
           && Allocates(s, centers, user, req) && req.disk !in images
           && w.image && w.claim && w.clone && w.xml && w.save && w.define
           && (req.sysDiskSize > req.imageSize ==> w.resize)
  {
  }

  /** Picks group and host, and takes an address and a share of a host. The named address is
      taken first; whatever fails afterwards gives it back. */
  method Allocate(db: Database, centers: Centers, user: User, req: Request, claimWorks: bool)
    returns (r: Result<(nat, nat)>)
    requires req.Valid()
    modifies db`hosts, db`ips
    ensures var s := old(db.Snapshot());
      r.Ok? <==> Allocates(s, centers, user, req) && claimWorks
    ensures r.Raised? ==> db.Snapshot() == old(db.Snapshot())
    ensures r.Ok? ==>
      var s, h, ip := old(db.Snapshot()), r.value.0, r.value.1;
      && h in s.hosts && s.hosts[h].group in user.groups
      && (req.target.host.Some? ==> req.target.host == Some(h))
      && (req.target.group.Some? ==> req.target.group == Some(s.hosts[h].group))
      && (req.target.host.None? ==> s.hosts[h].enabled && s.hosts[h].group in centers)
      && (req.target.host.None? && req.target.group.None? ==>
            && req.target.center == Some(centers[s.hosts[h].group].center)
            && (req.ip.None? && req.vlan.None? ==> centers[s.hosts[h].group].enabled))
      && ip in s.ips && s.ips[ip].enabled && !s.ips[ip].used && (req.ip.Some? ==> req.ip == Some(ip))
      && s.ips[ip].vlan in s.vlans && s.vlans[s.ips[ip].vlan].group == s.hosts[h].group
      && (req.ip.None? && req.vlan.Some? ==> req.vlan == Some(s.ips[ip].vlan) && req.vlan.value !in user.shielded)
      && (req.public.Some? ==> s.vlans[s.ips[ip].vlan].public == req.public.value)
      && s.hosts[h].vmCreated < s.hosts[h].vmLimit && s.hosts[h].vcpu + req.vcpu <= s.hosts[h].vcpuTotal
      && s.hosts[h].mem + req.mem <= s.hosts[h].memTotal
      && db.Snapshot() == WithHost(WithIp(s, ip, true), h,
                                   s.hosts[h].(vcpu := s.hosts[h].vcpu + req.vcpu, mem := s.hosts[h].mem + req.mem))
  {
    ghost var s := db.Snapshot();
    if !req.MayUse(db.Snapshot(), user) {
      return Raised;
    }
    var network := req.Network(db.Snapshot());
    var choice := GroupsHostCheckPerms(db.Snapshot(), centers, req.target, user, network);
    if choice.Raised? {
      return Raised;
    }
    if req.ip.Some? {
      var reserved := ApplyForIp(db, req.ip.value);
    }
    r := Search(db, s, choice.value, network, req, claimWorks);
    if r.Ok? {
      ChoiceExactly(s, centers, req.target, user, network, r.value.0);
    }
  }

  /** Gives back what an operation that cannot go on still holds: first the address, then the
      share of the host. */
  method GiveBack(db: Database, v: nat, ip: nat, h: nat, vcpu: int, mem: int)
    requires h in db.hosts
    modifies db`hosts, db`ips, db`ops
    ensures db.ips == if ip in old(db.ips) then old(db.ips)[ip := old(db.ips)[ip].(used := false)] else old(db.ips)
    ensures db.hosts == Released(old(db.Snapshot()), h, vcpu, mem).hosts
    ensures db.ops == old(db.ops) - {v}
  {
    var ipFreed := FreeUsedIp(db, ip);
    var hostFreed := FreeHost(db, h, vcpu, mem);
    db.ops := db.ops - {v};
  }

  /** Giving back after a full allocation restores the state exactly. */
  lemma GiveBackRestores(s: State, v: nat, kind: OpKind, h: nat, ip: nat, vcpu: int, mem: int)
    requires MayStart(s, v, kind, vcpu, mem) && Suits(s, h, ip, vcpu, mem) && s.hosts[h].WithinTotals()
    ensures var held := Holding(s, v, kind, h, ip, vcpu, mem);
      && held.ips[ip := held.ips[ip].(used := false)] == s.ips
      && Released(held, h, vcpu, mem).hosts == s.hosts
      && held.ops - {v} == s.ops
  {
  }

  /** Stores the row and defines the domain; takes the row back if defining fails. */
  method CreateVm2(db: Database, v: nat, h: nat, ip: nat, vcpu: int, mem: int, w: Works) returns (ok: bool)
    requires v !in db.vms
    modifies db`vms
    ensures ok == (w.xml && w.save && w.define)
    ensures db.vms == if ok then old(db.vms)[v := Vm(Normal, Some(h), Some(ip), None, vcpu, mem)] else old(db.vms)
  {
    if !w.xml || !w.save {
      return false;
    }
    db.vms := db.vms[v := Vm(Normal, Some(h), Some(ip), None, vcpu, mem)];
    if !w.define {
      db.vms := db.vms - {v};
      assert db.vms == old(db.vms);
      return false;
    }
    return true;
  }

  /** The part of `create_vm` after the allocation: image, row, domain, counter; or give all back. */
  method BuildVm(db: Database, ceph: Ceph, ghost s: State, v: nat, h: nat, ip: nat, req: Request, w: Works)
    returns (ok: bool, ghost saved: bool)
    requires MayStart(s, v, Creating, req.vcpu, req.mem) && Suits(s, h, ip, req.vcpu, req.mem)
        && s.hosts[h].WithinTotals()
    requires db.Snapshot() == Holding(s, v, Creating, h, ip, req.vcpu, req.mem)
    modifies db, ceph
    ensures ok == Builds(old(ceph.images), req, w)
    ensures ok ==> && db.Snapshot() == Placed(s, v, h, ip, Vm(Normal, Some(h), Some(ip), None, req.vcpu, req.mem))
                   && ceph.images == old(ceph.images)[req.disk := req.content]
    ensures !ok ==> db.Snapshot() == s && ceph.images == old(ceph.images)
  {
    var cloned := ceph.Clone(req.content, req.disk, w.clone);
    ok := cloned && (req.sysDiskSize <= req.imageSize || w.resize);
    saved := ok && w.xml && w.save;
    if ok {
      ok := CreateVm2(db, v, h, ip, req.vcpu, req.mem, w);
    }
    if !ok {
      UndoBuild(db, ceph, s, v, h, ip, req, cloned);
      assert ceph.images == old(ceph.images);
      return;
    }
    CountBuilt(db, s, v, Creating, h, ip, req.vcpu, req.mem);
  }

  /** The row is stored and the domain defined: what is left is to count the VM. */
  method CountBuilt(db: Database, ghost s: State, v: nat, ghost kind: OpKind, h: nat, ghost ip: nat,
                    ghost vcpu: int, ghost mem: int)
    requires v !in s.ops && h in s.hosts && ip in s.ips && v in db.vms && db.vms[v].vcpu == vcpu && db.vms[v].mem == mem
    requires db.Snapshot() == Holding(s, v, kind, h, ip, vcpu, mem).(vms := s.vms[v := db.vms[v]])
    modifies db`hosts, db`ops
    ensures db.Snapshot() == Placed(s, v, h, ip, old(db.vms)[v])
  {
    AddVmCreated(db, h, 1);
    db.ops := db.ops - {v};
    assert db.ops == s.ops;
  }

  /** The compensation, in its order: address, share of the host, image. */
  method UndoBuild(db: Database, ceph: Ceph, ghost s: State, v: nat, h: nat, ip: nat, req: Request, cloned: bool)
    requires MayStart(s, v, Creating, req.vcpu, req.mem) && Suits(s, h, ip, req.vcpu, req.mem)
    requires s.hosts[h].WithinTotals() && db.Snapshot() == Holding(s, v, Creating, h, ip, req.vcpu, req.mem)
    modifies db, ceph
    ensures db.Snapshot() == s && ceph.images == if cloned then old(ceph.images) - {req.disk} else old(ceph.images)
  {
    GiveBackRestores(s, v, Creating, h, ip, req.vcpu, req.mem);
    GiveBack(db, v, ip, h, req.vcpu, req.mem);
    if cloned {
      ceph.Remove(req.disk);
    }
  }

  lemma HostWithinTotals(s: State, h: nat)
    requires Inv(s) && h in s.hosts
    ensures s.hosts[h].WithinTotals()
  {
    assert BookOk(s, h);
  }

  /** Creates VM `v`. Whatever fails, hosts, addresses, VM rows and images are as before; on
      success there is one charge, one used address, one row and one image more. */
  method CreateVm(db: Database, ceph: Ceph, centers: Centers, v: nat, user: User, req: Request, w: Works)
    returns (r: Result<(nat, nat)>, ghost run: seq<Label>)
    requires Inv(db.Snapshot()) && v !in db.vms && v !in db.ops && !HasTask(db.Snapshot(), v)
    modifies db, ceph
    ensures r.Ok? <==> Creates(old(db.Snapshot()), old(ceph.images), centers, user, req, w)
    ensures r.Raised? ==> db.Snapshot() == old(db.Snapshot()) && ceph.images == old(ceph.images)
    ensures r.Ok? ==>
      var s, h, ip := old(db.Snapshot()), r.value.0, r.value.1;
      && h in s.hosts && s.hosts[h].group in user.groups
      && (req.target.host.Some? ==> req.target.host == Some(h))
      && (req.target.group.Some? ==> req.target.group == Some(s.hosts[h].group))
      && (req.target.host.None? ==> s.hosts[h].enabled && s.hosts[h].group in centers)
      && (req.target.host.None? && req.target.group.None? ==>
            && req.target.center == Some(centers[s.hosts[h].group].center)
            && (req.ip.None? && req.vlan.None? ==> centers[s.hosts[h].group].enabled))
      && ip in s.ips && s.ips[ip].enabled && !s.ips[ip].used && (req.ip.Some? ==> req.ip == Some(ip))
      && s.ips[ip].vlan in s.vlans && s.vlans[s.ips[ip].vlan].group == s.hosts[h].group
      && (req.ip.None? && req.vlan.Some? ==> req.vlan == Some(s.ips[ip].vlan) && req.vlan.value !in user.shielded)
      && (req.public.Some? ==> s.vlans[s.ips[ip].vlan].public == req.public.value)
      && s.hosts[h].vmCreated < s.hosts[h].vmLimit && s.hosts[h].vcpu + req.vcpu <= s.hosts[h].vcpuTotal
      && s.hosts[h].mem + req.mem <= s.hosts[h].memTotal
      && db.Snapshot() == Placed(s, v, h, ip, Vm(Normal, Some(h), Some(ip), None, req.vcpu, req.mem))
      && ceph.images == old(ceph.images)[req.disk := req.content]
    ensures Exec(old(db.Snapshot()), run) == Some(db.Snapshot()) && Inv(db.Snapshot())
  {
    ghost var s := db.Snapshot();
    run := [];
    if !req.Valid() || !w.image {
      return Raised, run;
    }
    var place := Allocate(db, centers, user, req, w.claim);
    if place.Raised? {
      return Raised, run;
    }
    var (h, ip) := place.value;
    var ok;
    ok, run := BuildAndRun(db, ceph, s, v, h, ip, req, w);
    return if ok then Ok((h, ip)) else Raised, run;
  }

  /** Begins the operation and builds; `run` is the steps of the protocol that this takes. */
  method BuildAndRun(db: Database, ceph: Ceph, ghost s: State, v: nat, h: nat, ip: nat, req: Request, w: Works)
    returns (ok: bool, ghost run: seq<Label>)
    requires Inv(s) && MayStart(s, v, Creating, req.vcpu, req.mem) && Suits(s, h, ip, req.vcpu, req.mem)
    requires db.Snapshot() == WithHost(WithIp(s, ip, true), h,
                                 s.hosts[h].(vcpu := s.hosts[h].vcpu + req.vcpu, mem := s.hosts[h].mem + req.mem))
    modifies db, ceph
    ensures ok == Builds(old(ceph.images), req, w)
    ensures ok ==> && db.Snapshot() == Placed(s, v, h, ip, Vm(Normal, Some(h), Some(ip), None, req.vcpu, req.mem))
                   && ceph.images == old(ceph.images)[req.disk := req.content]
    ensures !ok ==> db.Snapshot() == s && ceph.images == old(ceph.images)
    ensures Exec(s, run) == Some(db.Snapshot()) && Inv(db.Snapshot())
  {
    HostWithinTotals(s, h);
    db.ops := db.ops[v := Op(Creating, req.vcpu, req.mem, h, true, false, ip, true, false)];
    ghost var saved;
    ok, saved := BuildVm(db, ceph, s, v, h, ip, req, w);
    run := CreateRun(s, v, h, ip, req, ok, saved);
  }

  /** The steps of a creation that got past the allocation. */
  ghost method CreateRun(s: State, v: nat, h: nat, ip: nat, req: Request, ok: bool, saved: bool)
    returns (run: seq<Label>)
    requires Inv(s) && MayStart(s, v, Creating, req.vcpu, req.mem) && Suits(s, h, ip, req.vcpu, req.mem)
    ensures Exec(s, run) ==
        Some(if ok then Placed(s, v, h, ip, Vm(Normal, Some(h), Some(ip), None, req.vcpu, req.mem)) else s)
    ensures Inv(Exec(s, run).value)
  {
    HostWithinTotals(s, h);
    if ok {
      run := PlacedRun(s, v, Creating, h, ip, req.vcpu, req.mem);
    } else {
      run := FailedRun(s, v, h, ip, req.vcpu, req.mem, saved);
    }
    GentleRunKeeps(s, run);
  }

  ghost method PlacedRun(s: State, v: nat, kind: OpKind, h: nat, ip: nat, vcpu: int, mem: int) returns (run: seq<Label>)
    requires MayStart(s, v, kind, vcpu, mem) && Suits(s, h, ip, vcpu, mem)
    ensures Exec(s, run) == Some(Placed(s, v, h, ip, PlacedRow(s, v, h, ip, vcpu, mem)))
    ensures forall k | 0 <= k < |run| :: Gentle(run[k])
  {
    Started(s, v, kind, h, ip, vcpu, mem);
    Finished(s, v, kind, h, ip, vcpu, mem);
    ExecConcat(s, [Begin(kind, v, ip, vcpu, mem), ClaimHost(v, h)], [SaveRow(v), CountVm(v)]);
    run := [Begin(kind, v, ip, vcpu, mem), ClaimHost(v, h)] + [SaveRow(v), CountVm(v)];
  }

  ghost method FailedRun(s: State, v: nat, h: nat, ip: nat, vcpu: int, mem: int, saved: bool) returns (run: seq<Label>)
    requires MayStart(s, v, Creating, vcpu, mem) && Suits(s, h, ip, vcpu, mem) && s.hosts[h].WithinTotals()
    ensures Exec(s, run) == Some(s) && forall k | 0 <= k < |run| :: Gentle(run[k])
  {
    var start := [BeginCreate(v, ip, vcpu, mem), ClaimHost(v, h)];
    var end := [ReleaseIp(v)] + [ReleaseHost(v), EndOp(v)];
    Started(s, v, Creating, h, ip, vcpu, mem);
    Undone(s, v, Creating, h, ip, vcpu, mem);
    if saved {
      SaveUndone(s, v, Creating, h, ip, vcpu, mem);
      ExecConcat(s, start, [SaveRow(v), DropRow(v)]);
      start := start + [SaveRow(v), DropRow(v)];
    }
    ExecConcat(s, start, end);
    run := start + end;
  }
}
