/** Changing the size of a VM. */
module Resizing {
  import opened Tables
  import opened Ledger
  import opened Protocol
  import opened ProtocolInv
  import opened StepKeeps
  import opened Keeps
  import opened Runs
  import opened Continuations
  import opened Databases
  import opened Scheduler
  import opened VmBuilder
  import opened Instance

  /** The size that the domain is defined with. */
  class Domain {
    var vcpu: int
    var mem: int

    constructor (vcpu: int, mem: int)
      ensures this.vcpu == vcpu && this.mem == mem
    {
      this.vcpu, this.mem := vcpu, mem;
    }
  }

  /** Which outside calls work; `running` is `None` when the state cannot be read, `restore` is
      defining the old domain again. */
  datatype ResizeWorks =
      ResizeWorks(running: Option<bool>, poweroff: bool, xml: bool, define: bool, save: bool, restore: bool)
  {
    predicate Off(force: bool) { running.Some? && (running.value ==> force && poweroff) }
  }

  function SizeDelta(wanted: int, current: int): int {
    if wanted > 0 then wanted - current else 0
  }

  predicate RoomFor(row: Host, vcpuDelta: int, memDelta: int) {
    && (vcpuDelta > 0 ==> row.vcpu + vcpuDelta <= row.vcpuTotal)
    && (memDelta > 0 ==> row.mem + memDelta <= row.memTotal)
  }

  /** Host and row of the VM moved by the same amounts. */
  function Resized(s: State, v: nat, row: Vm, dv: int, dm: int): State
    requires row.host.Some? && row.host.value in s.hosts
  {
    var host := s.hosts[row.host.value];
    WithHost(s, row.host.value, host.(vcpu := host.vcpu + dv, mem := host.mem + dm)).(
      vms := s.vms[v := row.(vcpu := row.vcpu + dv, mem := row.mem + dm)])
  }

  /** The room that the request needs. */
  predicate HasRoom(s: State, v: nat, vcpu: int, mem: int)
    requires IsNormal(s, v) && s.vms[v].host.value in s.hosts
  {
    RoomFor(s.hosts[s.vms[v].host.value], SizeDelta(vcpu, s.vms[v].vcpu), SizeDelta(mem, s.vms[v].mem))
  }

  /** Changes the size of a VM; 0 leaves that resource as it is. On success host, row and domain
      move by exactly the difference, also when one resource grows and the other shrinks; on failure
      nothing has changed, except a domain that could not be defined anew. What grows must fit below
      the total of the host; how many VMs the host has plays no part. */
  method EditVcpuMem(db: Database, dom: Domain, v: nat, vcpu: int, mem: int, force: bool, w: ResizeWorks)
    returns (ok: bool)
    requires Inv(db.Snapshot()) && IsNormal(db.Snapshot(), v) && v !in db.ops
    modifies db, dom
    ensures old(db.vms)[v].host.value in old(db.hosts)
    ensures var row := old(db.vms)[v]; var host := old(db.hosts)[row.host.value];
      ok <==> && vcpu >= 0 && mem >= 0
              && (|| (vcpu == 0 && mem == 0) || (vcpu == row.vcpu && mem == row.mem)
                  || (&& w.running.Some? && (w.running.value ==> force && w.poweroff) && w.xml && w.define && w.save
                      && (vcpu > row.vcpu ==> host.vcpu + (vcpu - row.vcpu) <= host.vcpuTotal)
                      && (mem > row.mem ==> host.mem + (mem - row.mem) <= host.memTotal)))
    ensures var s := old(db.Snapshot()); var row, h := s.vms[v], s.vms[v].host.value; var host := s.hosts[h];
      var vcpu', mem' := if vcpu > 0 then vcpu else row.vcpu, if mem > 0 then mem else row.mem;
      db.Snapshot() == if !ok then s
                       else s.(vms := s.vms[v := row.(vcpu := vcpu', mem := mem')],
                               hosts := s.hosts[h := host.(vcpu := host.vcpu + (vcpu' - row.vcpu),
                                                           mem := host.mem + (mem' - row.mem))])
    ensures var s := old(db.Snapshot()); var row := s.vms[v];
      Inv(db.Snapshot())
      <==> !ok || !IsMeasured(s, v) || ((vcpu == 0 || vcpu == row.vcpu) && (mem == 0 || mem == row.mem))
    ensures ok ==> dom.vcpu == if vcpu > 0 && vcpu != old(db.vms)[v].vcpu then vcpu else old(dom.vcpu)
    ensures ok ==> dom.mem == if mem > 0 && mem != old(db.vms)[v].mem then mem else old(dom.mem)
    ensures !ok && (w.define && !w.save ==> w.restore) ==> dom.vcpu == old(dom.vcpu) && dom.mem == old(dom.mem)
  {
    ghost var s := db.Snapshot();
    assert RowOk(s, v);
    RoomOnFields(s, v, vcpu, mem);
    ResizedOnFields(s, v, vcpu, mem);
    var row := db.vms[v];
    if vcpu < 0 || mem < 0 {
      return false;
    }
    if (vcpu == 0 && mem == 0) || (vcpu == row.vcpu && mem == row.mem) {
      assert s.hosts[row.host.value := s.hosts[row.host.value]] == s.hosts && s.vms[v := row] == s.vms;
      return true;
    }
    if !w.Off(force) || !w.xml {
      return false;
    }
    if HasRoom(s, v, vcpu, mem) { ResizedExactly(s, v, vcpu, mem); }
    ok := TryResize(db, dom, v, vcpu, mem, w);
  }

  /** What there must be room for, on the fields of the host. */
  lemma RoomOnFields(s: State, v: nat, vcpu: int, mem: int)
    requires Inv(s) && IsNormal(s, v) && s.vms[v].host.value in s.hosts
    ensures s.vms[v].vcpu > 0 && s.vms[v].mem > 0
    ensures var row, host := s.vms[v], s.hosts[s.vms[v].host.value];
      HasRoom(s, v, vcpu, mem) <==> && (vcpu > row.vcpu ==> host.vcpu + (vcpu - row.vcpu) <= host.vcpuTotal)
                                    && (mem > row.mem ==> host.mem + (mem - row.mem) <= host.memTotal)
  {
    assert RowOk(s, v);
  }

  /** What a resize makes of row and host. */
  lemma ResizedOnFields(s: State, v: nat, vcpu: int, mem: int)
    requires IsNormal(s, v) && s.vms[v].host.value in s.hosts
    ensures var row, h, host := s.vms[v], s.vms[v].host.value, s.hosts[s.vms[v].host.value];
      var vcpu', mem' := if vcpu > 0 then vcpu else row.vcpu, if mem > 0 then mem else row.mem;
      ResizedTo(s, v, vcpu, mem)
      == s.(vms := s.vms[v := row.(vcpu := vcpu', mem := mem')],
            hosts := s.hosts[h := host.(vcpu := host.vcpu + (vcpu' - row.vcpu), mem := host.mem + (mem' - row.mem))])
  {
  }

  /** The domain is off: looks for room, deducts and stores. */
  method TryResize(db: Database, dom: Domain, v: nat, vcpu: int, mem: int, w: ResizeWorks) returns (ok: bool)
    requires Inv(db.Snapshot()) && IsNormal(db.Snapshot(), v) && v !in db.ops && db.vms[v].host.value in db.hosts
    requires vcpu >= 0 && mem >= 0
    modifies db`hosts, db`vms, dom
    ensures var row := old(db.vms)[v]; var host := old(db.hosts)[row.host.value];
      ok <==> && (vcpu > row.vcpu ==> host.vcpu + (vcpu - row.vcpu) <= host.vcpuTotal)
              && (mem > row.mem ==> host.mem + (mem - row.mem) <= host.memTotal)
              && w.define && w.save
    ensures var s := old(db.Snapshot()); db.Snapshot() == (if ok then ResizedTo(s, v, vcpu, mem) else s)
    ensures ok ==> dom.vcpu == if vcpu > 0 && vcpu != old(db.vms)[v].vcpu then vcpu else old(dom.vcpu)
    ensures ok ==> dom.mem == if mem > 0 && mem != old(db.vms)[v].mem then mem else old(dom.mem)
    ensures !ok && (w.define && !w.save ==> w.restore) ==> dom.vcpu == old(dom.vcpu) && dom.mem == old(dom.mem)
  {
    ghost var s := db.Snapshot();
    var row := db.vms[v];
    var h := row.host.value;
    HostWithinTotals(s, h);
    RoomOnFields(s, v, vcpu, mem);
    var dv, dm := 0, 0;
    if vcpu > 0 && vcpu != row.vcpu {
      dv := vcpu - row.vcpu;
    }
    if mem > 0 && mem != row.mem {
      dm := mem - row.mem;
    }
    if dv > 0 && !db.hosts[h].MeetNeeds(dv, 0, false) {
      return false;
    }
    if dm > 0 && !db.hosts[h].MeetNeeds(0, dm, false) {
      return false;
    }
    ResizeTaken(s, v, vcpu, mem);
    ok := ApplyResize(db, dom, v, row, dv, dm, w);
  }

  /** Deducts, redefines the domain and stores the row; a failure after the deduction undoes it. */
  method ApplyResize(db: Database, dom: Domain, v: nat, row: Vm, dv: int, dm: int, w: ResizeWorks) returns (ok: bool)
    requires row.host.Some? && row.host.value in db.hosts
    requires var host := db.hosts[row.host.value];
      var after := host.(vcpu := host.vcpu + dv, mem := host.mem + dm);
      host.DeductDelta(dv, dm) == Some(after) && after.DeductDelta(-dv, -dm) == Some(host)
    modifies db`hosts, db`vms, dom
    ensures ok == (w.define && w.save)
    ensures db.Snapshot() == if ok then Resized(old(db.Snapshot()), v, row, dv, dm) else old(db.Snapshot())
    ensures ok ==> && dom.vcpu == (if dv != 0 then row.vcpu + dv else old(dom.vcpu))
                   && dom.mem == (if dm != 0 then row.mem + dm else old(dom.mem))
    ensures !ok && (w.define ==> w.restore) ==> dom.vcpu == old(dom.vcpu) && dom.mem == old(dom.mem)
  {
    var h, oldVcpu, oldMem := row.host.value, dom.vcpu, dom.mem;
    ok := DeductDelta(db, h, dv, dm, true);
    if w.define {
      dom.vcpu := if dv != 0 then row.vcpu + dv else dom.vcpu;
      dom.mem := if dm != 0 then row.mem + dm else dom.mem;
    }
    if !w.define || !w.save {
      var undone := DeductDelta(db, h, -dv, -dm, true);
      assert db.hosts == old(db.hosts);
      if w.define && w.restore {
        dom.vcpu, dom.mem := oldVcpu, oldMem;
      }
      return false;
    }
    db.vms := db.vms[v := row.(vcpu := row.vcpu + dv, mem := row.mem + dm)];
  }

  /** Within the host's totals a resize that passes the two checks is deducted and can be undone. */
  lemma ResizeTaken(s: State, v: nat, vcpu: int, mem: int)
    requires Inv(s) && IsNormal(s, v) && v !in s.ops && s.vms[v].host.value in s.hosts && vcpu >= 0 && mem >= 0
    requires RoomFor(s.hosts[s.vms[v].host.value], SizeDelta(vcpu, s.vms[v].vcpu), SizeDelta(mem, s.vms[v].mem))
    ensures var h := s.vms[v].host.value;
      var dv, dm := SizeDelta(vcpu, s.vms[v].vcpu), SizeDelta(mem, s.vms[v].mem);
      && s.hosts[h].DeductDelta(dv, dm) == Some(s.hosts[h].(vcpu := s.hosts[h].vcpu + dv, mem := s.hosts[h].mem + dm))
      && s.hosts[h].DeductDelta(dv, dm).value.DeductDelta(-dv, -dm) == Some(s.hosts[h])
  {
    var h := s.vms[v].host.value;
    HostWithinTotals(s, h);
    DeductThenUndo(s.hosts[h], SizeDelta(vcpu, s.vms[v].vcpu), SizeDelta(mem, s.vms[v].mem));
  }

  function ResizedTo(s: State, v: nat, vcpu: int, mem: int): State
    requires IsNormal(s, v) && s.vms[v].host.value in s.hosts
  {
    Resized(s, v, s.vms[v], SizeDelta(vcpu, s.vms[v].vcpu), SizeDelta(mem, s.vms[v].mem))
  }

  predicate SizeStays(row: Vm, vcpu: int, mem: int) { SizeDelta(vcpu, row.vcpu) == 0 && SizeDelta(mem, row.mem) == 0 }

  lemma ResizeReached(s: State, v: nat, vcpu: int, mem: int)
    requires Inv(s) && IsNormal(s, v) && v !in s.ops && s.vms[v].host.value in s.hosts && vcpu >= 0 && mem >= 0
    requires RoomFor(s.hosts[s.vms[v].host.value], SizeDelta(vcpu, s.vms[v].vcpu), SizeDelta(mem, s.vms[v].mem))
    ensures Next(s, Resize(v, vcpu, mem)) == Some(ResizedTo(s, v, vcpu, mem))
  {
    ResizeTaken(s, v, vcpu, mem);
  }

  lemma ResizedBooks(s: State, v: nat, vcpu: int, mem: int)
    requires Inv(s) && IsNormal(s, v) && v !in s.ops && s.vms[v].host.value in s.hosts && vcpu >= 0 && mem >= 0
    requires RoomFor(s.hosts[s.vms[v].host.value], SizeDelta(vcpu, s.vms[v].vcpu), SizeDelta(mem, s.vms[v].mem))
    ensures Books(ResizedTo(s, v, vcpu, mem))
  {
    assert RowOk(s, v);
    Covered(s, VmOwner(v), s.vms[v].host.value);
    RebalanceVm(s, ResizedTo(s, v, vcpu, mem), v);
  }

  lemma ResizeHarms(s: State, v: nat, vcpu: int, mem: int, t: nat)
    requires Inv(s) && IsNormal(s, v) && v !in s.ops && s.vms[v].host.value in s.hosts && vcpu >= 0 && mem >= 0
    requires Books(ResizedTo(s, v, vcpu, mem)) && !SizeStays(s.vms[v], vcpu, mem)
    requires t in s.tasks && s.tasks[t].vm == v && s.tasks[t].Measured()
    ensures !StaysSound(ResizedTo(s, v, vcpu, mem), v)
  {
    var after := ResizedTo(s, v, vcpu, mem);
    assert TaskOk(s, t) && RowOk(s, v);
    assert after.tasks[t] == s.tasks[t] && MayGoOn(after, t) && !SizeIs(after.vms[v], s.tasks[t]);
    if s.tasks[t].Expecting() {
      ExpectingIsUnderway(s.tasks[t]);
      MoveBreaks(after, t);
    } else {
      MeasuredIsToRelease(s.tasks[t]);
      ResizeBreaks(after, t);
    }
  }

  /** A resize keeps the invariant if and only if the size stays, or no task will release anything at
      the size in the row; and that is just when no later step of its tasks unbalances the books. A
      thread that has moved the VM and does not die releases the old size, and would do no harm. */
  lemma ResizedExactly(s: State, v: nat, vcpu: int, mem: int)
    requires Inv(s) && IsNormal(s, v) && v !in s.ops && s.vms[v].host.value in s.hosts && vcpu >= 0 && mem >= 0
    requires RoomFor(s.hosts[s.vms[v].host.value], SizeDelta(vcpu, s.vms[v].vcpu), SizeDelta(mem, s.vms[v].mem))
    ensures Inv(ResizedTo(s, v, vcpu, mem)) <==> SizeStays(s.vms[v], vcpu, mem) || !IsMeasured(s, v)
    ensures StaysSound(ResizedTo(s, v, vcpu, mem), v) <==> SizeStays(s.vms[v], vcpu, mem) || !IsMeasured(s, v)
  {
    var after := ResizedTo(s, v, vcpu, mem);
    ResizedBooks(s, v, vcpu, mem);
    if SizeStays(s.vms[v], vcpu, mem) || !IsMeasured(s, v) {
      ResizeReached(s, v, vcpu, mem);
      NextKeeps(s, Resize(v, vcpu, mem));
    } else {
      var t :| t in s.tasks && s.tasks[t].vm == v && s.tasks[t].Measured();
      ResizeHarms(s, v, vcpu, mem, t);
    }
    if Inv(after) { InvStaysSound(after, v); }
  }
}
