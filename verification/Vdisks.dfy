/** Storage pools of virtual disks: how much of each pool is in use. */
module Vdisks {
  import opened Tables
  import Ledger
  import opened Scheduler

  datatype Quota = Quota(group: nat, total: int, sizeUsed: int, maxVdisk: int, enabled: bool)
  {
    predicate MeetNeeds(size: int) { total - sizeUsed >= size }
    predicate CheckDiskSizeLimit(size: int) { size <= maxVdisk }

    /** A disk of this size can be put into the pool. */
    predicate Takes(size: int) { enabled && CheckDiskSizeLimit(size) && MeetNeeds(size) }
  }

  datatype Vdisk = Vdisk(size: int, quota: nat, deleted: bool)

  // ---------- sums over disk rows ----------

  /** Which rows are summed: all, only those not soft-deleted, or only the soft-deleted. */
  datatype Which = All | Kept | SoftDeleted

  function SizeIn(disk: Vdisk, q: nat, which: Which): int {
    if disk.quota == q && (which == All || (which == SoftDeleted) == disk.deleted) then disk.size else 0
  }

  /** A row counts for its own pool only, and for the rows that are summed. */
  lemma SizeInOnFields(disk: Vdisk, q: nat)
    ensures SizeIn(disk, q, All) == (if disk.quota == q then disk.size else 0)
    ensures SizeIn(disk, q, Kept) == (if disk.quota == q && !disk.deleted then disk.size else 0)
    ensures SizeIn(disk, q, SoftDeleted) == (if disk.quota == q && disk.deleted then disk.size else 0)
  {
  }

  ghost function SizeOver(ids: set<nat>, disks: map<nat, Vdisk>, q: nat, which: Which): int
    requires ids <= disks.Keys
  {
    if ids == {} then 0
    else var id := Ledger.Pick(ids); SizeIn(disks[id], q, which) + SizeOver(ids - {id}, disks, q, which)
  }

  lemma {:induction false} SizeSplit(ids: set<nat>, disks: map<nat, Vdisk>, id: nat, q: nat, which: Which)
    requires ids <= disks.Keys && id in ids
    ensures SizeOver(ids, disks, q, which) == SizeIn(disks[id], q, which) + SizeOver(ids - {id}, disks, q, which)
  {
    var p := Ledger.Pick(ids);
    if p != id {
      SizeSplit(ids - {p}, disks, id, q, which);
      SizeSplit(ids - {id}, disks, p, q, which);
      assert ids - {p} - {id} == ids - {id} - {p};
    }
  }

  lemma {:induction false} SizeSame(ids: set<nat>, a: map<nat, Vdisk>, b: map<nat, Vdisk>, q: nat, which: Which)
    requires ids <= a.Keys && ids <= b.Keys && forall id | id in ids :: a[id] == b[id]
    ensures SizeOver(ids, a, q, which) == SizeOver(ids, b, q, which)
  {
    if ids == {} {
    } else {
      SizeSame(ids - {Ledger.Pick(ids)}, a, b, q, which);
    }
  }

  lemma {:induction false} KeptAndDeleted(ids: set<nat>, disks: map<nat, Vdisk>, q: nat)
    requires ids <= disks.Keys && forall id | id in ids :: disks[id].size > 0
    ensures SizeOver(ids, disks, q, All) == SizeOver(ids, disks, q, Kept) + SizeOver(ids, disks, q, SoftDeleted)
    ensures SizeOver(ids, disks, q, Kept) >= 0 && SizeOver(ids, disks, q, SoftDeleted) >= 0
  {
    if ids == {} {
    } else {
      var id := Ledger.Pick(ids);
      KeptAndDeleted(ids - {id}, disks, q);
      SizeSplit(ids, disks, id, q, All);
      SizeSplit(ids, disks, id, q, Kept);
      SizeSplit(ids, disks, id, q, SoftDeleted);
    }
  }

  ghost function Size(disks: map<nat, Vdisk>, q: nat, which: Which): int { SizeOver(disks.Keys, disks, q, which) }

  /** One row stored, replaced or removed changes a sum by that row only. */
  lemma SizeChange(a: map<nat, Vdisk>, b: map<nat, Vdisk>, id: nat, q: nat, which: Which)
    requires a - {id} == b - {id}
    ensures Size(b, q, which) - Size(a, q, which)
            == (if id in b then SizeIn(b[id], q, which) else 0) - (if id in a then SizeIn(a[id], q, which) else 0)
  {
    if id in a { SizeSplit(a.Keys, a, id, q, which); }
    if id in b { SizeSplit(b.Keys, b, id, q, which); }
    assert a.Keys - {id} == (a - {id}).Keys && b.Keys - {id} == (b - {id}).Keys;
    forall k | k in a.Keys - {id} ensures a[k] == b[k] { assert a[k] == (a - {id})[k] && b[k] == (b - {id})[k]; }
    SizeSame(a.Keys - {id}, a, b, q, which);
    assert id !in a ==> a.Keys - {id} == a.Keys;
    assert id !in b ==> b.Keys - {id} == b.Keys;
  }

  // ---------- the store ----------

  class VdiskStore {
    var quotas: map<nat, Quota>
    var disks: map<nat, Vdisk>

    /** The counter of every pool is the sum of all its rows, soft-deleted ones included, and
        within the pool's total. */
    ghost predicate Valid()
      reads this
    {
      && (forall id | id in disks :: disks[id].size > 0 && disks[id].quota in quotas)
      && (forall q | q in quotas :: PoolOk(q))
    }

    ghost predicate PoolOk(q: nat)
      requires q in quotas
      reads this
    {
      quotas[q].sizeUsed == Size(disks, q, All) && 0 <= quotas[q].sizeUsed <= quotas[q].total
    }

    constructor (quotas: map<nat, Quota>)
      requires forall q | q in quotas :: quotas[q].sizeUsed == 0 && quotas[q].total >= 0
      ensures Valid() && this.quotas == quotas && disks == map[]
    {
      this.quotas, disks := quotas, map[];
    }

    /** The live recount skips soft-deleted rows, so it is smaller than the counter by just those. */
    lemma RecountDiffers(q: nat)
      requires Valid() && q in quotas
      ensures quotas[q].sizeUsed - Size(disks, q, Kept) == Size(disks, q, SoftDeleted)
      ensures 0 <= Size(disks, q, Kept) <= quotas[q].sizeUsed
    {
      assert PoolOk(q);
      KeptAndDeleted(disks.Keys, disks, q);
    }

    method Claim(q: nat, size: int, writes: bool) returns (ok: bool)
      requires q in quotas
      modifies this`quotas
      ensures var was := old(quotas)[q];
        && ok == (was.enabled && (size <= 0 || (size <= was.maxVdisk && was.sizeUsed + size <= was.total && writes)))
        && quotas == if ok && size > 0 then old(quotas)[q := was.(sizeUsed := was.sizeUsed + size)] else old(quotas)
    {
      var quota := quotas[q];
      if !quota.enabled {
        return false;
      }
      if size <= 0 {
        return true;
      }
      if !quota.CheckDiskSizeLimit(size) || !quota.MeetNeeds(size) || !writes {
        return false;
      }
      quotas := quotas[q := quota.(sizeUsed := quota.sizeUsed + size)];
      return true;
    }

    method Free(q: nat, size: int, writes: bool) returns (ok: bool)
      requires q in quotas
      modifies this`quotas
      ensures ok == (size <= 0 || writes)
      ensures quotas == if size <= 0 || !writes then old(quotas)
                        else old(quotas)[q := old(quotas)[q].(sizeUsed := old(quotas)[q].sizeUsed - size)]
    {
      if size <= 0 {
        return true;
      }
      if !writes {
        return false;
      }
      quotas := quotas[q := quotas[q].(sizeUsed := quotas[q].sizeUsed - size)];
      return true;
    }

    /** Searches the pools of the groups; finds one exactly when an enabled one fits both limits. */
    method ScheduleQuota(size: int, groups: set<nat>, writes: bool) returns (r: Option<nat>)
      requires size > 0
      modifies this`quotas
      ensures var was := old(quotas);
        && (r.Some? <==> writes && exists q | q in was ::
              && was[q].group in groups && was[q].enabled
              && size <= was[q].maxVdisk && was[q].sizeUsed + size <= was[q].total)
        && (r.Some? ==>
              && r.value in was && was[r.value].group in groups && was[r.value].enabled
              && size <= was[r.value].maxVdisk && was[r.value].sizeUsed + size <= was[r.value].total)
        && quotas == match r
                     case None => was
                     case Some(q) => was[q := was[q].(sizeUsed := was[q].sizeUsed + size)]
    {
      var list := Listed(set q | q in quotas && quotas[q].group in groups);
      for i := 0 to |list|
        invariant quotas == old(quotas)
        invariant forall j | 0 <= j < i :: list[j] in quotas && !(writes && quotas[list[j]].Takes(size))
      {
        assert list[i] in list;
        if !quotas[list[i]].CheckDiskSizeLimit(size) || !quotas[list[i]].MeetNeeds(size) {
          continue;
        }
        var ok := Claim(list[i], size, writes);
        if ok {
          return Some(list[i]);
        }
      }
      assert forall q | q in quotas && quotas[q].group in groups :: q in list;
      return None;
    }

    /** The given pool, or one found for the groups. */
    method Allocate(size: int, given: Option<nat>, groups: set<nat>, writes: bool) returns (r: Option<nat>)
      requires size > 0
      modifies this`quotas
      ensures var was := old(quotas);
        && (r.Some? <==> writes && exists q | q in was ::
              && (if given.Some? then given == Some(q) else was[q].group in groups)
              && was[q].enabled && size <= was[q].maxVdisk && was[q].sizeUsed + size <= was[q].total)
        && (r.Some? ==>
              && r.value in was && (if given.Some? then r == given else was[r.value].group in groups)
              && was[r.value].enabled
              && size <= was[r.value].maxVdisk && was[r.value].sizeUsed + size <= was[r.value].total)
        && quotas == match r
                     case None => was
                     case Some(q) => was[q := was[q].(sizeUsed := was[q].sizeUsed + size)]
    {
      if given.None? {
        r := ScheduleQuota(size, groups, writes);
        return;
      }
      if given.value !in quotas || !quotas[given.value].CheckDiskSizeLimit(size) ||
          !quotas[given.value].MeetNeeds(size) {
        return None;
      }
      var claimed := Claim(given.value, size, writes);
      return if claimed then given else None;
    }

    /** Creates disk `id` in a given pool, or in a pool of the given groups. Whatever fails, pools
        and rows are as before, unless giving the claimed size back fails as well. */
    method CreateVdisk(id: nat, size: int, given: Option<nat>, groups: set<nat>, allowed: bool,
                       writes: bool, saves: bool, builds: bool, frees: bool) returns (r: Option<nat>)
      requires Valid() && id !in disks
      modifies this
      ensures var was := old(quotas);
        var claimed := size > 0 && allowed && writes && exists q | q in was ::
          && (if given.Some? then given == Some(q) else was[q].group in groups)
          && was[q].enabled && size <= was[q].maxVdisk && was[q].sizeUsed + size <= was[q].total;
        && (r.Some? <==> claimed && saves && builds)
        && (Valid() <==> r.Some? || frees || !claimed)
        && (r.None? ==> disks == old(disks) && (frees || !claimed ==> quotas == was))
      ensures r.Some? ==>
        var was, q := old(quotas), r.value;
        && q in was && (if given.Some? then r == given else was[q].group in groups)
        && was[q].enabled && size <= was[q].maxVdisk && was[q].sizeUsed + size <= was[q].total
        && disks == old(disks)[id := Vdisk(size, q, false)]
        && quotas == was[q := was[q].(sizeUsed := was[q].sizeUsed + size)]
    {
      if size <= 0 || !allowed {
        return None;
      }
      r := Allocate(size, given, groups, writes);
      if r.None? {
        return None;
      }
      var q := r.value;
      var stored := BuildVdisk(id, size, q, saves, builds, frees);
      if stored {
        RowChanged(old(quotas), old(disks), id);
        return;
      }
      r := None;
      if frees {
        assert quotas == old(quotas);
      } else {
        assert old(PoolOk(q)) && !PoolOk(q);
      }
    }

    /** Stores the row and creates the image; gives the claimed size back if either fails. */
    method BuildVdisk(id: nat, size: int, q: nat, saves: bool, builds: bool, frees: bool) returns (ok: bool)
      requires id !in disks && q in quotas && size > 0
      modifies this
      ensures ok == (saves && builds)
      ensures disks == if ok then old(disks)[id := Vdisk(size, q, false)] else old(disks)
      ensures quotas == if ok || !frees then old(quotas)
                        else old(quotas)[q := old(quotas)[q].(sizeUsed := old(quotas)[q].sizeUsed - size)]
    {
      if saves {
        disks := disks[id := Vdisk(size, q, false)];
        if builds {
          return true;
        }
        disks := disks - {id};
        assert disks == old(disks);
      }
      var freed := Free(q, size, frees);
      return false;
    }

    /** Removes the image, gives the size back and deletes the row. That the size could not be
        given back goes unnoticed: then the pool counts a disk that is gone. */
    method DoDelete(id: nat, removes: bool, frees: bool) returns (ok: bool)
      requires Valid() && id in disks
      modifies this
      ensures ok == removes && (Valid() <==> !removes || frees)
      ensures disks == if ok then old(disks) - {id} else old(disks)
      ensures quotas == if ok && frees
                        then var was, disk := old(quotas), old(disks)[id];
                             was[disk.quota := was[disk.quota].(sizeUsed := was[disk.quota].sizeUsed - disk.size)]
                        else old(quotas)
    {
      if !removes {
        return false;
      }
      var q := disks[id].quota;
      var freed := Free(q, disks[id].size, frees);
      disks := disks - {id};
      if freed {
        RowChanged(old(quotas), old(disks), id);
      } else {
        SizeChange(old(disks), disks, id, q, All);
        assert old(PoolOk(q)) && !PoolOk(q);
      }
      return true;
    }

    /** A soft-deleted disk keeps its share of the pool. */
    method SoftDelete(id: nat, saves: bool) returns (ok: bool)
      requires Valid() && id in disks
      modifies this`disks
      ensures Valid() && ok == saves
      ensures disks == if ok then old(disks)[id := old(disks)[id].(deleted := true)] else old(disks)
    {
      if !saves {
        return false;
      }
      disks := disks[id := disks[id].(deleted := true)];
      RowChanged(quotas, old(disks), id);
      return true;
    }

    /** Pools stay in order when one row changed and the counters moved by the sizes of that row. */
    lemma RowChanged(before: map<nat, Quota>, was: map<nat, Vdisk>, id: nat)
      requires (forall k | k in was :: was[k].size > 0 && was[k].quota in before)
      requires forall q | q in before ::
          before[q].sizeUsed == Size(was, q, All) && 0 <= before[q].sizeUsed <= before[q].total
      requires was - {id} == disks - {id} && before.Keys == quotas.Keys
      requires id in disks ==> disks[id].size > 0 && disks[id].quota in quotas
      requires forall q | q in quotas ::
        && quotas[q].total == before[q].total && quotas[q].sizeUsed <= quotas[q].total
        && quotas[q].sizeUsed - before[q].sizeUsed
           == (if id in disks then SizeIn(disks[id], q, All) else 0) -
               (if id in was then SizeIn(was[id], q, All) else 0)
      ensures Valid()
    {
      forall k | k in disks ensures disks[k].size > 0 && disks[k].quota in quotas {
        if k != id { assert k in disks - {id}; assert disks[k] == (was - {id})[k]; }
      }
      forall q | q in quotas ensures PoolOk(q) {
        SizeChange(was, disks, id, q, All);
        KeptAndDeleted(disks.Keys, disks, q);
      }
    }
  }
}
