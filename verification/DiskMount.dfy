/** Attaching virtual disks to a VM. */
module DiskMount {
  // The domain and the disk rows agree, and device names are never shared.

  import opened Tables

  /** A disk row: the VM it is mounted on and the device name it has there. */
  datatype Row = Row(vm: Option<nat>, dev: Option<string>, enabled: bool)

  /** One disk of a domain: which virtual disk (none for the system disk or a local disk), and
      under which device name, of whatever bus. */
  datatype Entry = Entry(disk: Option<nat>, dev: string)

  function Names(domain: seq<Entry>): set<string> { set i | 0 <= i < |domain| :: domain[i].dev }

  /** The name of a virtual disk on the virtio bus. */
  function VdiskDev(letter: char): string { "vd" + [letter] }

  predicate IsVdiskDev(dev: string) { |dev| == 3 && 'b' <= dev[2] <= 'z' && dev == VdiskDev(dev[2]) }

  predicate Plugged(domain: seq<Entry>, disk: nat) { exists i | 0 <= i < |domain| :: domain[i].disk == Some(disk) }

  /** Device names on the fields: two fixed letters and one of 25, and a name or disk is in a domain if
      and only if some entry has it. */
  lemma DevOnFields(domain: seq<Entry>, dev: string, disk: nat)
    ensures IsVdiskDev(dev) <==> |dev| == 3 && dev[0] == 'v' && dev[1] == 'd' && 'b' <= dev[2] && dev[2] <= 'z'
    ensures IsVdiskDev(dev) ==> VdiskDev(dev[2]) == dev
    ensures dev in Names(domain) <==> exists e | e in domain :: e.dev == dev
    ensures Plugged(domain, disk) <==> exists e | e in domain :: e.disk == Some(disk)
  {
    if e :| e in domain && e.dev == dev {
      var i :| 0 <= i < |domain| && domain[i] == e;
      assert domain[i].dev in Names(domain);
    }
  }

  /** The first of `vdb` to `vdz` that is not in the list. */
  method NewVdiskDev(devList: seq<string>) returns (dev: Option<string>)
    ensures dev.None? <==> forall c | 'b' <= c <= 'z' :: VdiskDev(c) in devList
    ensures dev.Some? ==> IsVdiskDev(dev.value) && dev.value !in devList
                          && forall c | 'b' <= c < dev.value[2] :: VdiskDev(c) in devList
  {
    for i := 1 to 26
      invariant forall c | 'b' <= c < 'a' + i as char :: VdiskDev(c) in devList
    {
      var letter := 'a' + i as char;
      var name := VdiskDev(letter);
      if name !in devList {
        return Some(name);
      }
    }
    return None;
  }

  /** Disk identifiers and device names of a domain, as read from its XML. */
  method GetVmVdiskDevList(domain: seq<Entry>) returns (diskList: seq<nat>, devList: seq<string>)
    ensures forall d :: d in diskList <==> Plugged(domain, d)
    ensures forall c :: c in devList <==> c in Names(domain)
  {
    diskList, devList := [], [];
    for i := 0 to |domain|
      invariant forall d :: d in diskList <==> exists k | 0 <= k < i :: domain[k].disk == Some(d)
      invariant |devList| == i && forall k | 0 <= k < i :: devList[k] == domain[k].dev
    {
      if domain[i].disk.Some? {
        diskList := diskList + [domain[i].disk.value];
      }
      devList := devList + [domain[i].dev];
    }
    forall c ensures c in devList <==> c in Names(domain) {
      if c in Names(domain) { var k :| 0 <= k < |domain| && domain[k].dev == c; assert devList[k] == c; }
      if c in devList { var k :| 0 <= k < |devList| && devList[k] == c; assert domain[k].dev == c; }
    }
  }

  function Without(domain: seq<Entry>, d: nat): seq<Entry> {
    if domain == [] then []
    else (if domain[0].disk == Some(d) then [] else [domain[0]]) + Without(domain[1..], d)
  }

  ghost predicate DistinctNames(domain: seq<Entry>) {
    forall i, j | 0 <= i < j < |domain| :: domain[i].dev != domain[j].dev
  }

  /** Unplugging takes exactly that disk out, and names stay distinct. */
  lemma {:induction false} WithoutKeeps(domain: seq<Entry>, d: nat)
    ensures forall e :: e in Without(domain, d) <==> e in domain && e.disk != Some(d)
    ensures DistinctNames(domain) ==> DistinctNames(Without(domain, d))
  {
    if domain == [] {
    } else {
      WithoutKeeps(domain[1..], d);
      assert domain == [domain[0]] + domain[1..];
      var rest := Without(domain[1..], d);
      if DistinctNames(domain) {
        assert DistinctNames(domain[1..]);
        forall j | 0 <= j < |rest| ensures rest[j].dev != domain[0].dev { assert rest[j] in domain[1..]; }
      }
    }
  }

  /** Plugging the disk back in under its name restores what the domain holds. */
  lemma Replugged(domain: seq<Entry>, d: nat, entry: Entry)
    requires DistinctNames(domain) && entry in domain && entry.disk == Some(d)
    requires forall e | e in domain && e.disk == Some(d) :: e == entry
    ensures var again := Without(domain, d) + [entry];
            DistinctNames(again) && forall e :: e in again <==> e in domain
  {
    WithoutKeeps(domain, d);
    var k :| 0 <= k < |domain| && domain[k] == entry;
    var rest := Without(domain, d);
    forall j | 0 <= j < |rest| ensures rest[j].dev != entry.dev {
      assert rest[j] in rest;
      var i :| 0 <= i < |domain| && domain[i] == rest[j];
    }
  }

  /** A disk is plugged into the domain of `v`, under some name, exactly when its row says so. */
  ghost predicate Agrees(rows: map<nat, Row>, domain: seq<Entry>, v: nat) {
    forall d, c {:trigger AgreesAt(rows, domain, v, d, c)} :: AgreesAt(rows, domain, v, d, c)
  }

  predicate AgreesAt(rows: map<nat, Row>, domain: seq<Entry>, v: nat, d: nat, c: string) {
    Entry(Some(d), c) in domain <==> d in rows && rows[d].vm == Some(v) && rows[d].dev == Some(c)
  }

  ghost predicate RowFits(row: Row, domains: map<nat, seq<Entry>>) {
    if row.vm.None? then row.dev.None?
    else row.vm.value in domains && row.dev.Some? && IsVdiskDev(row.dev.value)
  }

  ghost predicate Consistent(rows: map<nat, Row>, domains: map<nat, seq<Entry>>) {
    && (forall v {:trigger Agrees(rows, domains[v], v)} | v in domains ::
        DistinctNames(domains[v]) && Agrees(rows, domains[v], v))
    && (forall d {:trigger RowFits(rows[d], domains)} | d in rows :: RowFits(rows[d], domains))
  }

  /** What that says on the fields of rows and domains. */
  lemma ConsistentOnFields(rows: map<nat, Row>, domains: map<nat, seq<Entry>>, v: nat, d: nat, dev: string)
    requires Consistent(rows, domains) && v in domains
    ensures Entry(Some(d), dev) in domains[v] <==> d in rows && rows[d].vm == Some(v) && rows[d].dev == Some(dev)
    ensures forall i, j | 0 <= i < j < |domains[v]| :: domains[v][i].dev != domains[v][j].dev
    ensures d in rows && rows[d].vm.None? ==> rows[d].dev.None?
    ensures d in rows && rows[d].vm.Some? ==>
      && rows[d].vm.value in domains && rows[d].dev.Some? && |rows[d].dev.value| == 3
      && 'b' <= rows[d].dev.value[2] && rows[d].dev.value[2] <= 'z'
  {
    assert Agrees(rows, domains[v], v) && AgreesAt(rows, domains[v], v, d, dev);
    assert d in rows ==> RowFits(rows[d], domains);
  }

  /** Only the row of disk `d` changed, and not to or from VM `w`. */
  lemma AgreesStill(rows: map<nat, Row>, rows': map<nat, Row>, domain: seq<Entry>, w: nat, d: nat)
    requires Agrees(rows, domain, w) && d in rows && d in rows' && rows' == rows[d := rows'[d]]
    requires rows[d].vm != Some(w) && rows'[d].vm != Some(w)
    ensures Agrees(rows', domain, w)
  {
    forall e, c ensures AgreesAt(rows', domain, w, e, c) { assert AgreesAt(rows, domain, w, e, c); }
  }

  lemma MountedConsistent(rows: map<nat, Row>, domains: map<nat, seq<Entry>>, v: nat, d: nat, dev: string)
    requires Consistent(rows, domains) && v in domains && d in rows && rows[d].vm.None?
    requires dev !in Names(domains[v]) && IsVdiskDev(dev)
    ensures Consistent(rows[d := rows[d].(vm := Some(v), dev := Some(dev))],
        domains[v := domains[v] + [Entry(Some(d), dev)]])
  {
    var rows', domains' := rows[d := rows[d].(vm := Some(v), dev := Some(dev))],
        domains[v := domains[v] + [Entry(Some(d), dev)]];
    forall w | w in domains' ensures DistinctNames(domains'[w]) && Agrees(rows', domains'[w], w) {
      assert Agrees(rows, domains[w], w);
      if w != v {
        AgreesStill(rows, rows', domains[w], w, d);
      } else {
        forall i | 0 <= i < |domains[v]| ensures domains[v][i].dev != dev {
          assert domains[v][i].dev in Names(domains[v]);
        }
        forall e, c ensures AgreesAt(rows', domains'[v], v, e, c) { assert AgreesAt(rows, domains[v], v, e, c); }
      }
    }
    forall e | e in rows' ensures RowFits(rows'[e], domains') { if e != d { assert RowFits(rows[e], domains); } }
  }

  lemma UnmountedConsistent(rows: map<nat, Row>, domains: map<nat, seq<Entry>>, v: nat, d: nat)
    requires Consistent(rows, domains) && v in domains && d in rows && rows[d].vm == Some(v)
    ensures Consistent(rows[d := rows[d].(vm := None, dev := None)], domains[v := Without(domains[v], d)])
  {
    var rows', domains' := rows[d := rows[d].(vm := None, dev := None)], domains[v := Without(domains[v], d)];
    WithoutKeeps(domains[v], d);
    forall w | w in domains' ensures DistinctNames(domains'[w]) && Agrees(rows', domains'[w], w) {
      assert Agrees(rows, domains[w], w);
      if w != v {
        AgreesStill(rows, rows', domains[w], w, d);
      } else {
        forall e, c ensures AgreesAt(rows', domains'[v], v, e, c) { assert AgreesAt(rows, domains[v], v, e, c); }
      }
    }
    forall e | e in rows' ensures RowFits(rows'[e], domains') { if e != d { assert RowFits(rows[e], domains); } }
  }

  /** The domain lists the same disks, perhaps in another order. */
  lemma ReorderedConsistent(rows: map<nat, Row>, domains: map<nat, seq<Entry>>, v: nat, again: seq<Entry>)
    requires Consistent(rows, domains) && v in domains && DistinctNames(again)
    requires forall e :: e in again <==> e in domains[v]
    ensures Consistent(rows, domains[v := again])
  {
    var domains' := domains[v := again];
    forall w | w in domains' ensures DistinctNames(domains'[w]) && Agrees(rows, domains'[w], w) {
      assert Agrees(rows, domains[w], w);
      forall e, c ensures AgreesAt(rows, domains'[w], w, e, c) { assert AgreesAt(rows, domains[w], w, e, c); }
    }
    forall e | e in rows ensures RowFits(rows[e], domains') { assert RowFits(rows[e], domains); }
  }

  /** A mounted disk is in its domain, once, under the name of its row. */
  lemma MountedEntry(rows: map<nat, Row>, domains: map<nat, seq<Entry>>, d: nat)
    requires Consistent(rows, domains) && d in rows && rows[d].vm.Some?
    ensures var v := rows[d].vm.value;
      && v in domains && rows[d].dev.Some? && DistinctNames(domains[v])
          && Entry(Some(d), rows[d].dev.value) in domains[v]
      && forall e | e in domains[v] && e.disk == Some(d) :: e == Entry(Some(d), rows[d].dev.value)
  {
    assert RowFits(rows[d], domains);
    var v := rows[d].vm.value;
    assert Agrees(rows, domains[v], v) && AgreesAt(rows, domains[v], v, d, rows[d].dev.value);
    forall e | e in domains[v] && e.disk == Some(d) ensures e == Entry(Some(d), rows[d].dev.value) {
      assert AgreesAt(rows, domains[v], v, d, e.dev);
    }
  }

  class Mounts {
    var rows: map<nat, Row>
    /** The disks each domain really has. */
    var domains: map<nat, seq<Entry>>

    ghost predicate Valid()
      reads this
    {
      Consistent(rows, domains)
    }

    constructor (domains: map<nat, seq<Entry>>, disks: set<nat>)
      requires forall v | v in domains :: DistinctNames(domains[v])
      requires forall v, e | v in domains && e in domains[v] :: e.disk.None?
      ensures Valid()
    {
      this.domains := domains;
      rows := map d | d in disks :: Row(None, None, true);
    }

    /** Row only: refuses a disk that is disabled or mounted elsewhere. */
    method MountToVm(d: nat, v: nat, dev: string, saves: bool) returns (ok: bool)
      modifies this`rows
      ensures ok == (d in old(rows) && (old(rows)[d].vm == Some(v)
                                        || (old(rows)[d].vm.None? && old(rows)[d].enabled && saves)))
      ensures rows == if ok && old(rows)[d].vm.None?
                      then old(rows)[d := old(rows)[d].(vm := Some(v), dev := Some(dev))] else old(rows)
    {
      if d !in rows {
        return false;
      }
      if rows[d].vm.Some? {
        return rows[d].vm == Some(v);
      }
      if !rows[d].enabled || !saves {
        return false;
      }
      rows := rows[d := rows[d].(vm := Some(v), dev := Some(dev))];
      return true;
    }

    method UmountFromVm(d: nat, saves: bool) returns (ok: bool)
      modifies this`rows
      ensures ok == (d in old(rows) && (old(rows)[d].vm.None? || saves))
      ensures rows == if ok && old(rows)[d].vm.Some?
                      then old(rows)[d := old(rows)[d].(vm := None, dev := None)] else old(rows)
    {
      if d !in rows {
        return false;
      }
      if rows[d].vm.None? {
        return true;
      }
      if !saves {
        return false;
      }
      rows := rows[d := rows[d].(vm := None, dev := None)];
      return true;
    }

    /** Attaches disk `d`, whose pool must be in the data center of the VM. A disk that is already
        there is left alone; otherwise it is attached exactly when it is free and enabled, a name
        is left, and domain and database go along.
        With any failure nothing has changed. */
    method MountDisk(v: nat, d: nat, sameCenter: bool, saves: bool, plugs: bool) returns (ok: bool)
      requires Valid() && v in domains
      modifies this
      ensures Valid()
      ensures ok <==> && sameCenter
                      && (|| Plugged(old(domains)[v], d)
                          || (d in old(rows) && old(rows)[d].vm.None? && old(rows)[d].enabled && saves && plugs
                              && !(forall c | 'b' <= c <= 'z' :: VdiskDev(c) in Names(old(domains)[v]))))
      ensures !ok || Plugged(old(domains)[v], d) ==> rows == old(rows) && domains == old(domains)
      ensures ok && !Plugged(old(domains)[v], d) ==>
        exists dev | IsVdiskDev(dev) && dev !in Names(old(domains)[v]) ::
          && (forall c | 'b' <= c < dev[2] :: VdiskDev(c) in Names(old(domains)[v]))
          && rows == old(rows)[d := old(rows)[d].(vm := Some(v), dev := Some(dev))]
          && domains == old(domains)[v := old(domains)[v] + [Entry(Some(d), dev)]]
    {
      if !sameCenter {
        return false;
      }
      var diskList, devList := GetVmVdiskDevList(domains[v]);
      if d in diskList {
        return true;
      }
      var dev := NewVdiskDev(devList);
      if dev.None? {
        return false;
      }
      if d in rows && rows[d].vm == Some(v) {
        MountedEntry(rows, domains, d);
        assert false;
      }
      assert d in rows ==> RowFits(rows[d], domains);
      ok := MountToVm(d, v, dev.value, saves);
      if !ok {
        return;
      }
      if !plugs {
        var undone := UmountFromVm(d, true);
        assert rows == old(rows);
        return false;
      }
      domains := domains[v := domains[v] + [Entry(Some(d), dev.value)]];
      MountedConsistent(old(rows), old(domains), v, d, dev.value);
    }

    /** Detaches disk `d`: it leaves domain and row together or not at all. */
    method UmountDisk(v: nat, d: nat, unplugs: bool, saves: bool) returns (ok: bool)
      requires Valid() && v in domains && d in rows
      modifies this
      ensures Valid()
      ensures ok <==> old(rows)[d].vm == Some(v) && unplugs && saves
      ensures !ok ==> rows == old(rows) && domains.Keys == old(domains).Keys
      ensures !ok ==> forall w, e | w in domains :: e in domains[w] <==> e in old(domains)[w]
      ensures ok ==> rows == old(rows)[d := old(rows)[d].(vm := None, dev := None)]
                     && domains == old(domains)[v := Without(old(domains)[v], d)]
    {
      if rows[d].vm != Some(v) || !unplugs {
        return false;
      }
      MountedEntry(rows, domains, d);
      var entry := Entry(Some(d), rows[d].dev.value);
      domains := domains[v := Without(domains[v], d)];
      ok := UmountFromVm(d, saves);
      if !ok {
        domains := domains[v := domains[v] + [entry]];
        Replugged(old(domains)[v], d, entry);
        ReorderedConsistent(rows, old(domains), v, domains[v]);
        assert domains == old(domains)[v := domains[v]];
      } else {
        UnmountedConsistent(old(rows), old(domains), v, d);
      }
    }
  }
}
