/** Every reachable state has the invariant. */
module Keeps {
  import opened Tables
  import opened Ledger
  import opened Protocol
  import opened ProtocolInv
  import opened StepKeeps

  // ---------- repeated releases ----------

  /** A second release takes the size off the host again, and the books do not balance. */
  lemma RepeatHarms(s: State, l: Label, t: nat)
    requires Inv(s) && TaskNext(s, l, t).Some? && Releases(l) && Repeats(s, l) && TaskOf(l) == Some(t)
    ensures !Books(TaskNext(s, l, t).value)
  {
    var s' := TaskNext(s, l, t).value;
    assert TaskOk(s, t);
    ReleaseIsReal(s, l, t);
    Unbalanced(s, s', s.tasks[t].vm, t, HostOf(s.tasks[t], l).value);
  }

  /** The VM stands on a host that holds no claim for it any more. */
  lemma SwitchHarms(s: State, l: Label, t: nat)
    requires Inv(s) && TaskNext(s, l, t).Some? && l.SwitchHost? && s.tasks[t].dstTaken
    ensures !Books(TaskNext(s, l, t).value)
  {
    var s' := TaskNext(s, l, t).value;
    var v := s.tasks[t].vm;
    assert TaskOk(s, t) && RowOk(s, v) && OpOk(s, v);
    if Shifted(s, s', v, t, s.tasks[t].src) {
      Unbalanced(s, s', v, t, s.tasks[t].dst);
    } else {
      Unbalanced(s, s', v, t, s.tasks[t].src);
    }
  }

  // ---------- all steps ----------

  /** The steps of creating and unshelving. */
  predicate OfStarting(l: Label) {
    l.BeginCreate? || l.BeginUnshelve? || l.ClaimHost? || l.SaveRow? || l.DropRow? || l.CountVm?
  }

  lemma StartingKeeps(s: State, l: Label)
    requires Inv(s) && Next(s, l).Some? && OfStarting(l)
    ensures Inv(Next(s, l).value)
  {
    match l
    case BeginCreate(v, ip, vcpu, mem) => BeginCreateKeeps(s, v, ip, vcpu, mem);
    case BeginUnshelve(v, ip) => BeginUnshelveKeeps(s, v, ip);
    case ClaimHost(v, h) => ClaimHostKeeps(s, v, h);
    case SaveRow(v) => SaveRowKeeps(s, v);
    case DropRow(v) => DropRowKeeps(s, v);
    case CountVm(v) => CountVmKeeps(s, v);
  }

  lemma VmStepKeeps(s: State, l: Label)
    requires Inv(s) && Next(s, l).Some? && TaskOf(l).None? && !OfAddressOrDevice(l) && !OfStarting(l)
    requires !Careless(s, l)
    ensures Inv(Next(s, l).value)
  {
    match l
    case DeleteRow(v) => DeleteRowKeeps(s, v);
    case BeginShelve(v) => BeginShelveKeeps(s, v);
    case ShelveRow(v) => ShelveRowKeeps(s, v);
    case UncountVm(v) => UncountVmKeeps(s, v);
    case ReleaseIp(v) => ReleaseIpKeeps(s, v);
    case ReleaseHost(v) => ReleaseHostKeeps(s, v);
    case EndOp(v) => EndOpKeeps(s, v);
    case Resize(v, vcpu, mem) => ResizeKeeps(s, v, vcpu, mem);
    case _ =>
  }

  lemma AddressOrDeviceKeeps(s: State, l: Label)
    requires Inv(s) && Next(s, l).Some? && OfAddressOrDevice(l) && !Careless(s, l)
    ensures Inv(Next(s, l).value)
  {
    match l
    case ReserveAttach(v, ip) => ReserveAttachKeeps(s, v, ip);
    case SaveAttach(ip) => SaveAttachKeeps(s, ip);
    case FreeAttach(ip) => FreeAttachKeeps(s, ip);
    case DropAttach(ip) => DropAttachKeeps(s, ip);
    case MountDevice(v, dev) => MountDeviceKeeps(s, v, dev);
    case UmountDevice(dev) => UmountDeviceKeeps(s, dev);
    case _ =>
  }

  lemma NextKeeps(s: State, l: Label)
    requires Inv(s) && Next(s, l).Some? && !Harmful(s, l)
    ensures Inv(Next(s, l).value)
  {
    if l.ClaimDst? {
      ClaimDstKeeps(s, l.t, l.v, l.dst, l.tag);
    } else if TaskOf(l).Some? {
      TaskKeeps(s, l, TaskOf(l).value);
    } else if OfAddressOrDevice(l) {
      AddressOrDeviceKeeps(s, l);
    } else if OfStarting(l) {
      StartingKeeps(s, l);
    } else {
      VmStepKeeps(s, l);
    }
  }

  /** Each careless step leaves a task, or a device, without the VM it counts on. */
  lemma CarelessHarms(s: State, l: Label)
    requires Inv(s) && Next(s, l).Some? && Careless(s, l)
    ensures !Inv(Next(s, l).value)
  {
    if l.MountDevice? {
      assert !DeviceOk(Next(s, l).value, l.dev);
    } else {
      var u :| u in s.tasks && s.tasks[u].vm == l.v && s.tasks[u].Measured() && (!l.Resize? ==> s.tasks[u].Expecting())
               && (l.DeleteRow? ==> s.tasks[u].status == InProcess);
      TaskHarmed(s, l, u);
    }
  }

  lemma TaskHarmed(s: State, l: Label, u: nat)
    requires Inv(s) && Next(s, l).Some? && Careless(s, l) && !l.MountDevice?
    requires u in s.tasks && s.tasks[u].vm == l.v && s.tasks[u].Measured() && (!l.Resize? ==> s.tasks[u].Expecting())
    requires l.DeleteRow? ==> s.tasks[u].status == InProcess
    ensures !Shape(Next(s, l).value)
  {
    assert TaskOk(s, u);
    if l.ClaimDst? { assert !Exclusive(Next(s, l).value, l.t, u); } else { assert !TaskOk(Next(s, l).value, u); }
  }

  /** A step keeps the invariant if and only if it is not harmful. */
  lemma NextKeepsExactly(s: State, l: Label)
    requires Inv(s) && Next(s, l).Some?
    ensures Inv(Next(s, l).value) <==> !Harmful(s, l)
  {
    if !Harmful(s, l) {
      NextKeeps(s, l);
    } else if Careless(s, l) {
      CarelessHarms(s, l);
    } else if Releases(l) {
      RepeatHarms(s, l, TaskOf(l).value);
    } else {
      SwitchHarms(s, l, TaskOf(l).value);
    }
  }

  lemma {:induction false} ExecKeeps(s: State, ls: seq<Label>)
    requires Inv(s) && Exec(s, ls).Some? && Harmless(s, ls)
    ensures Inv(Exec(s, ls).value)
    decreases |ls|
  {
    if ls == [] {
    } else {
      ExecKeeps(s, ls[..|ls| - 1]);
      NextKeeps(Exec(s, ls[..|ls| - 1]).value, ls[|ls| - 1]);
    }
  }

  /** All states of a run have the invariant if and only if no step of the run is harmful. */
  lemma {:induction false} RunKeepsExactly(s: State, ls: seq<Label>)
    requires Inv(s) && Exec(s, ls).Some?
    ensures Harmless(s, ls) <==> forall k | 0 <= k <= |ls| :: Exec(s, ls[..k]).Some? && Inv(Exec(s, ls[..k]).value)
    decreases |ls|
  {
    assert ls[..|ls|] == ls;
    if ls == [] {
    } else {
      var before, l := ls[..|ls| - 1], ls[|ls| - 1];
      RunKeepsExactly(s, before);
      assert forall k | 0 <= k < |ls| :: before[..k] == ls[..k];
      if Inv(Exec(s, before).value) { NextKeepsExactly(Exec(s, before).value, l); }
    }
  }

  /** Steps that are harmful in no state at all. */
  predicate Gentle(l: Label) {
    && !l.FailFree? && !l.SwitchHost? && !l.CleanFree?
    && !l.DeleteRow? && !l.BeginShelve? && !l.ClaimDst? && !l.MountDevice? && !l.Resize?
  }

  lemma {:induction false} GentleRunKeeps(s: State, ls: seq<Label>)
    requires Inv(s) && Exec(s, ls).Some? && forall k | 0 <= k < |ls| :: Gentle(ls[k])
    ensures Inv(Exec(s, ls).value)
    decreases |ls|
  {
    if ls == [] {
    } else {
      GentleRunKeeps(s, ls[..|ls| - 1]);
      assert Gentle(ls[|ls| - 1]);
      NextKeeps(Exec(s, ls[..|ls| - 1]).value, ls[|ls| - 1]);
    }
  }

  // ---------- runs compose ----------

  lemma Extend(s0: State, ls: seq<Label>, l: Label)
    requires Exec(s0, ls).Some?
    ensures Exec(s0, ls + [l]) == Next(Exec(s0, ls).value, l)
  {
    assert (ls + [l])[..|ls|] == ls;
  }

  lemma {:induction false} ExecConcat(s: State, a: seq<Label>, b: seq<Label>)
    requires Exec(s, a).Some?
    ensures Exec(s, a + b) == Exec(Exec(s, a).value, b)
    decreases |b|
  {
    if b == [] {
      assert a + b == a;
    } else {
      ExecConcat(s, a, b[..|b| - 1]);
      assert (a + b)[..|a + b| - 1] == a + b[..|b| - 1];
    }
  }

  lemma Exec1(s: State, a: Label)
    ensures Exec(s, [a]) == Next(s, a)
  {
    Extend(s, [], a);
    assert [] + [a] == [a];
  }

  lemma ExecThen(s: State, a: Label, s1: State, ls: seq<Label>)
    requires Next(s, a) == Some(s1)
    ensures Exec(s, [a] + ls) == Exec(s1, ls)
  {
    Exec1(s, a);
    ExecConcat(s, [a], ls);
  }

  lemma Exec2(s: State, a: Label, b: Label)
    requires Next(s, a).Some?
    ensures Exec(s, [a, b]) == Next(Next(s, a).value, b)
  {
    Exec1(s, a);
    Extend(s, [a], b);
    assert [a] + [b] == [a, b];
  }

  lemma {:induction false} HarmlessConcat(s: State, a: seq<Label>, b: seq<Label>)
    requires Harmless(s, a) && Exec(s, a).Some? && Harmless(Exec(s, a).value, b) && Exec(Exec(s, a).value, b).Some?
    ensures Harmless(s, a + b)
    decreases |b|
  {
    if b == [] {
      assert a + b == a;
    } else {
      ExecConcat(s, a, b[..|b| - 1]);
      HarmlessConcat(s, a, b[..|b| - 1]);
      assert (a + b)[..|a + b| - 1] == a + b[..|b| - 1];
    }
  }

  // ---------- reachable states ----------

  lemma InitialInv(s: State)
    requires Initial(s)
    ensures Inv(s)
  {
    forall h | h in s.hosts ensures BookOk(s, h) {
      assert Owners(s) == {};
    }
    forall ip ensures AddressOk(s, ip) {
      forall v ensures !OwnsIp(s, v, ip) {}
    }
  }

  /** Safety over whole runs: under any interleaving the books balance, every counter is within
      its totals, every used address has exactly one owner, every NORMAL VM sits in the group of
      its address and every mounted device on the host of its VM. */
  lemma ReachableInv(s: State)
    requires Reachable(s)
    ensures Inv(s)
  {
    var s0, ls :| Initial(s0) && Exec(s0, ls) == Some(s) && Harmless(s0, ls);
    InitialInv(s0);
    ExecKeeps(s0, ls);
  }
}
