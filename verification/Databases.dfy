/** The database: its tables as fields that the managers update in place. */
module Databases {
  import opened Tables
  import opened Protocol

  class Database {
    var hosts: map<nat, Host>
    var vlans: map<nat, Vlan>
    var ips: map<nat, Ip>
    var vms: map<nat, Vm>
    var tasks: map<nat, Task>
    var attached: map<nat, Attachment>
    var devices: map<nat, Device>
    /** Not a table: what the request threads in flight have taken so far. */
    var ops: map<nat, Op>

    constructor (s: State)
      ensures Snapshot() == s
    {
      hosts, vlans, ips, vms := s.hosts, s.vlans, s.ips, s.vms;
      tasks, attached, devices, ops := s.tasks, s.attached, s.devices, s.ops;
    }

    function Snapshot(): State
      reads this
    {
      State(hosts, vlans, ips, vms, ops, tasks, attached, devices)
    }
  }

  /** Locked test-then-claim. `writes` is false when the database refuses the update; the
      result is `None` when the host does not exist. */
  method ClaimFromHost(db: Database, hostId: nat, vcpu: int, mem: int, writes: bool) returns (r: Result<Option<nat>>)
    modifies db`hosts
    ensures hostId !in old(db.hosts) ==> r == Ok(None) && db.hosts == old(db.hosts)
    ensures hostId in old(db.hosts) ==>
              match old(db.hosts)[hostId].ClaimIfMeets(vcpu, mem)
              case Some(row) =>
                if writes || (vcpu <= 0 && mem <= 0)
                then r == Ok(Some(hostId)) && db.hosts == old(db.hosts)[hostId := row]
                else r == Raised && db.hosts == old(db.hosts)
              case None => r == Raised && db.hosts == old(db.hosts)
  {
    if hostId !in db.hosts {
      return Ok(None);
    }
    var host := db.hosts[hostId];
    if !host.MeetNeeds(vcpu, mem) {
      return Raised;
    }
    if vcpu <= 0 && mem <= 0 {
      return Ok(Some(hostId));
    }
    var ok := DeductDelta(db, hostId, if vcpu > 0 then vcpu else 0, if mem > 0 then mem else 0, writes);
    return if ok then Ok(Some(hostId)) else Raised;
  }

  /** The guarded UPDATE of one host row. */
  method DeductDelta(db: Database, hostId: nat, vcpuDelta: int, memDelta: int, writes: bool) returns (ok: bool)
    requires hostId in db.hosts
    modifies db`hosts
    ensures var r := old(db.hosts)[hostId].DeductDelta(vcpuDelta, memDelta);
            && ok == (r.Some? && (writes || (vcpuDelta == 0 && memDelta == 0)))
            && db.hosts == if ok then old(db.hosts)[hostId := r.value] else old(db.hosts)
  {
    var host := db.hosts[hostId];
    if vcpuDelta == 0 && memDelta == 0 {
      assert db.hosts == db.hosts[hostId := host];
      return true;
    }
    if vcpuDelta != 0 && !(host.vcpuTotal >= host.vcpu + vcpuDelta) {
      return false;
    }
    if memDelta != 0 && !(host.memTotal >= host.mem + memDelta) {
      return false;
    }
    if !writes {
      return false;
    }
    if vcpuDelta != 0 {
      host := host.(vcpu := host.vcpu + vcpuDelta);
    }
    if memDelta != 0 {
      host := host.(mem := host.mem + memDelta);
    }
    db.hosts := db.hosts[hostId := host];
    return true;
  }

  /** A release that the guard refuses leaves the row alone, and the answer says so. */
  method FreeHost(db: Database, hostId: nat, vcpu: int, mem: int) returns (ok: bool)
    requires hostId in db.hosts
    modifies db`hosts
    ensures ok == old(db.hosts)[hostId].Free(vcpu, mem).Some?
    ensures vcpu > 0 && mem > 0 ==>
      var row := old(db.hosts)[hostId];
      && ok == (row.vcpu - vcpu <= row.vcpuTotal && row.mem - mem <= row.memTotal)
      && db.hosts == if ok then old(db.hosts)[hostId := row.(vcpu := row.vcpu - vcpu, mem := row.mem - mem)]
                     else old(db.hosts)
    ensures db.Snapshot() == Released(old(db.Snapshot()), hostId, vcpu, mem)
  {
    if vcpu <= 0 && mem <= 0 {
      assert db.hosts == db.hosts[hostId := db.hosts[hostId]];
      return true;
    }
    ok := DeductDelta(db, hostId, if vcpu > 0 then -vcpu else 0, if mem > 0 then -mem else 0, true);
  }

  /** `vm_created_num_add_1` and `vm_created_num_sub_1`. */
  method AddVmCreated(db: Database, hostId: nat, n: int)
    requires hostId in db.hosts
    modifies db`hosts
    ensures db.hosts == old(db.hosts)[hostId := old(db.hosts)[hostId].(
                                        vmCreated := old(db.hosts)[hostId].vmCreated + n)]
    ensures db.Snapshot() == Counted(old(db.Snapshot()), hostId, n)
  {
    db.hosts := db.hosts[hostId := db.hosts[hostId].CountBy(n)];
  }

  predicate FreeIn(s: State, vlan: nat, ip: nat) {
    ip in s.ips && s.ips[ip].vlan == vlan && s.ips[ip].CanUsed()
  }

  /** Takes a free, enabled address of a network; `None` exactly when there is none. */
  method ApplyForFreeIpInVlan(db: Database, vlan: nat) returns (r: Option<nat>)
    modifies db`ips
    ensures r.None? <==> forall ip :: !FreeIn(old(db.Snapshot()), vlan, ip)
    ensures r.None? <==> forall ip | ip in old(db.ips) && old(db.ips)[ip].vlan == vlan ::
                           old(db.ips)[ip].used || !old(db.ips)[ip].enabled
    ensures r.None? ==> db.ips == old(db.ips)
    ensures r.Some? ==> r.value in old(db.ips) && old(db.ips)[r.value].vlan == vlan
                        && old(db.ips)[r.value].enabled && !old(db.ips)[r.value].used
                        && db.ips == old(db.ips)[r.value := old(db.ips)[r.value].(used := true)]
    ensures r.Some? ==> FreeIn(old(db.Snapshot()), vlan, r.value)
                        && db.Snapshot() == WithIp(old(db.Snapshot()), r.value, true)
  {
    if ip :| ip in db.ips && FreeIn(db.Snapshot(), vlan, ip) {
      db.ips := db.ips[ip := db.ips[ip].(used := true)];
      return Some(ip);
    }
    return None;
  }

  /** Takes the given address if it exists, is enabled and is free. */
  method ApplyForIp(db: Database, ip: nat) returns (r: Option<nat>)
    modifies db`ips
    ensures r == if ip in old(db.ips) && old(db.ips)[ip].enabled && !old(db.ips)[ip].used then Some(ip) else None
    ensures db.ips == if r.Some? then old(db.ips)[ip := old(db.ips)[ip].(used := true)] else old(db.ips)
  {
    if ip in db.ips && db.ips[ip].CanUsed() {
      db.ips := db.ips[ip := db.ips[ip].(used := true)];
      return Some(ip);
    }
    return None;
  }

  method FreeUsedIp(db: Database, ip: nat) returns (ok: bool)
    modifies db`ips
    ensures ok == (ip in old(db.ips))
    ensures db.ips == if ok then old(db.ips)[ip := old(db.ips)[ip].(used := false)] else old(db.ips)
  {
    if ip !in db.ips {
      return false;
    }
    if !db.ips[ip].used {
      assert db.ips == db.ips[ip := db.ips[ip].(used := false)];
      return true;
    }
    db.ips := db.ips[ip := db.ips[ip].(used := false)];
    return true;
  }
}
