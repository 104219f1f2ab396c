/** What every step of the protocol keeps. */
module ProtocolInv {
  import opened Tables
  import opened Ledger
  import opened Protocol

  // ---------- who owes what ----------

  /** What owner `o` has charged to the ledger, read off the stored rows and the operations in
      flight. A VM owes through its operation while it has one, and through its row otherwise. */
  function ChargeOf(s: State, o: Owner): Charge {
    match o
    case VmOwner(v) =>
      if v in s.ops then
        var op := s.ops[v];
        Charge(op.host, if op.charged then op.vcpu else 0, if op.charged then op.mem else 0,
               if op.counted then 1 else 0)
      else if IsNormal(s, v) then
        Charge(s.vms[v].host.value, s.vms[v].vcpu, s.vms[v].mem, 1)
      else NOTHING
    case DstOwner(t) =>
      if t !in s.tasks then NOTHING
      else
        var task := s.tasks[t];
        if task.switched then Charge(task.dst, 0, 0, if task.dstCounted then 0 else -1)
        else if task.dstTaken then NOTHING
        else Charge(task.dst, task.vcpu, task.mem, 0)
    case SrcOwner(t) =>
      if t !in s.tasks || !s.tasks[t].switched then NOTHING
      else
        var task := s.tasks[t];
        Charge(task.src, if task.srcTaken then 0 else task.vcpu, if task.srcTaken then 0 else task.mem,
               if task.srcUncounted then 0 else 1)
  }

  ghost function Owners(s: State): set<Owner> {
    (set v | v in s.vms.Keys + s.ops.Keys :: VmOwner(v))
    + (set t | t in s.tasks :: DstOwner(t)) + (set t | t in s.tasks :: SrcOwner(t))
  }

  ghost function Charges(s: State): (m: map<Owner, Charge>)
    ensures m.Keys == Owners(s)
  {
    map o | o in Owners(s) :: ChargeOf(s, o)
  }

  /** The counters of host `h` are exactly what is owed to it, and within its totals. */
  ghost predicate BookOk(s: State, h: nat)
    requires h in s.hosts
  {
    && s.hosts[h].vcpu == Load(Charges(s), h, Vcpu)
    && s.hosts[h].mem == Load(Charges(s), h, Mem)
    && s.hosts[h].vmCreated == Load(Charges(s), h, Count)
    && s.hosts[h].WithinTotals()
  }

  ghost predicate Books(s: State) {
    forall h {:trigger BookOk(s, h)} | h in s.hosts :: BookOk(s, h)
  }

  // ---------- shape of the rows ----------

  /** The row of VM `v`, if there is one: a NORMAL VM has a host and an address of the host's
      group; a shelved one has neither. */
  ghost predicate RowOk(s: State, v: nat) {
    v in s.vms ==>
      && s.vms[v].vcpu > 0 && s.vms[v].mem > 0
      && (s.vms[v].status == Normal ==> IsNormal(s, v) && SameGroup(s, s.vms[v].ip.value, s.vms[v].host.value))
      && (s.vms[v].status == Shelved ==> s.vms[v].host.None? && s.vms[v].ip.None?)
  }

  /** The operation of VM `v`, if there is one, fits the row of `v`. */
  ghost predicate OpOk(s: State, v: nat) {
    v in s.ops ==>
      var op := s.ops[v];
      && op.vcpu > 0 && op.mem > 0 && op.ip in s.ips
      && (op.charged || op.counted ==> SameGroup(s, op.ip, op.host))
      && (v in s.vms ==> s.vms[v].vcpu == op.vcpu && s.vms[v].mem == op.mem)
      && (op.saved ==> && op.charged && op.ipHeld && IsNormal(s, v)
                       && s.vms[v].host == Some(op.host) && s.vms[v].ip == Some(op.ip))
      && match op.kind
         case Creating => !op.counted && (!op.saved ==> v !in s.vms) && !HasTask(s, v)
         case Unshelving => !op.counted && v in s.vms && (!op.saved ==> s.vms[v].status == Shelved)
         case Deleting => !op.saved && v !in s.vms
         case Shelving => !op.saved && IsNormal(s, v) && s.vms[v].host == Some(op.host) && s.vms[v].ip == Some(op.ip)
  }

  /** The stored status, who may work on the task, and what was really given back. */
  ghost predicate StatusOk(task: Task) {
    match task.status
    case Draft =>
      && task.dstClaim && !task.srcUndefined && !task.srcTaken && (task.tag == Live ==> !task.switched)
      && (task.worker == Crashed || (task.worker == Running && !task.dstTaken)
          || (task.worker == Dropping && task.dstTaken))
    case Waiting =>
      && task.tag == Live && task.dstClaim && !task.switched
      && (task.worker == Resting || task.worker == Running ==> !task.dstTaken)
      && (task.worker == Dropping || task.worker == Failing(true) ==> task.dstTaken)
      && task.worker in {Resting, Running, Dropping, Failing(true), Crashed}
    case InProcess =>
      && task.tag == Live && task.dstClaim && !task.srcUndefined
      && (task.worker == Running || task.worker == Crashed || (task.worker == Failing(true) && task.dstTaken))
    case SomeTodo =>
      && task.dstCounted && (task.tag == Live ==> task.srcUndefined)
      && (task.tag == Static ==> task.worker == Resting)
      && (task.worker == Resting ==> task.srcFree)
      && (task.worker == Cleaning(true) ==> task.srcTaken && !task.srcFree)
      && (task.worker == Resting || task.worker == Running || task.worker == Marking || task.worker == Crashed
          || task.worker == Cleaning(true))
    case Complete =>
      && task.dstCounted && (task.worker == Resting ==> task.srcFree)
      && (task.tag == Live ==> task.srcUndefined && task.srcFree && task.worker != Marking)
      && task.worker in {Resting, Running, Marking, Crashed}
    case Failed => task.dstTaken && !task.dstClaim && !task.switched && task.worker == Resting
    case Dropped => task.dstTaken && !task.dstClaim && !task.switched && task.worker == Resting
  }

  /** The order in which the flags of a task are raised. What is recorded as given back was given
      back; the other way round holds except in a window. */
  ghost predicate FlagsOk(task: Task) {
    && task.vcpu > 0 && task.mem > 0 && task.knownVcpu > 0 && task.knownMem > 0
    && (!task.dstTaken && !task.srcTaken ==> task.knownVcpu == task.vcpu && task.knownMem == task.mem)
    && (task.switched ==> task.dstClaim && !task.dstTaken)
    && (task.dstCounted ==> task.switched)
    && (task.srcUndefined ==> task.dstCounted)
    && (task.srcUncounted ==> task.srcUndefined)
    && (task.srcTaken ==> task.dstCounted && (task.tag == Live ==> task.srcUndefined))
    && (task.srcFree ==> task.srcTaken)
    && (task.freeTried ==> task.srcTaken && (task.tag == Live ==> task.srcUncounted))
    && (task.worker == Running && task.srcTaken ==> task.freeTried && task.srcFree)
    && (task.worker == Marking ==> task.freeTried && !task.srcFree)
  }

  predicate SizeIs(row: Vm, task: Task) { row.vcpu == task.vcpu && row.mem == task.mem }

  /** The VM is where the task will take it from, at the size it claimed. */
  predicate InPlace(s: State, task: Task) {
    IsNormal(s, task.vm) && task.vm !in s.ops && s.vms[task.vm].host == Some(task.src) && SizeIs(s.vms[task.vm], task)
  }

  /** What the steps that are still to come need to find in the row of the VM. */
  predicate RowFits(s: State, task: Task) {
    && (task.Expecting() && (task.status == InProcess || task.vm in s.vms) ==> InPlace(s, task))
    && (task.Measured() && task.vm in s.vms ==> SizeIs(s.vms[task.vm], task))
  }

  ghost predicate TaskOk(s: State, t: nat) {
    t in s.tasks ==>
      var task := s.tasks[t];
      && task.src in s.hosts && task.dst in s.hosts && task.src != task.dst
      && s.hosts[task.src].group == s.hosts[task.dst].group
      && FlagsOk(task) && StatusOk(task) && RowFits(s, task)
  }

  /** Two tasks never count on moving the same VM. */
  ghost predicate Exclusive(s: State, t: nat, u: nat) {
    t in s.tasks && u in s.tasks && s.tasks[t].Expecting() && s.tasks[u].Expecting() && s.tasks[t].vm == s.tasks[u].vm
    ==> t == u
  }

  /** A mounted device sits on the host of its VM, which is about to stay there. */
  ghost predicate DeviceOk(s: State, dev: nat) {
    dev in s.devices && s.devices[dev].vm.Some? ==>
      var v := s.devices[dev].vm.value;
      IsNormal(s, v) && v !in s.ops && !Expected(s, v) && s.vms[v].host == Some(s.devices[dev].host)
  }

  ghost predicate Shape(s: State) {
    && (forall ip | ip in s.ips :: s.ips[ip].vlan in s.vlans)
    && (forall v {:trigger RowOk(s, v)} :: RowOk(s, v))
    && (forall v {:trigger OpOk(s, v)} :: OpOk(s, v))
    && (forall t {:trigger TaskOk(s, t)} :: TaskOk(s, t))
    && (forall t, u {:trigger Exclusive(s, t, u)} :: Exclusive(s, t, u))
    && (forall dev {:trigger DeviceOk(s, dev)} :: DeviceOk(s, dev))
  }

  // ---------- addresses and devices ----------

  /** VM `v` owns address `ip`: reserved by its operation, or primary address of its row. */
  predicate OwnsIp(s: State, v: nat, ip: nat) {
    if v in s.ops then s.ops[v].ipHeld && s.ops[v].ip == ip
    else IsNormal(s, v) && s.vms[v].ip == Some(ip)
  }

  /** Address `ip` is a further address of some VM. */
  predicate IsAttached(s: State, ip: nat) {
    ip in s.attached && s.attached[ip].stage != Closing
  }

  /** The address is marked used exactly when it has an owner, and it has at most one. */
  ghost predicate AddressOk(s: State, ip: nat) {
    && (ip in s.ips && s.ips[ip].used <==> IsAttached(s, ip) || exists v :: OwnsIp(s, v, ip))
    && (forall v, w | OwnsIp(s, v, ip) && OwnsIp(s, w, ip) :: v == w)
    && (forall v | OwnsIp(s, v, ip) :: !IsAttached(s, ip))
  }

  ghost predicate AddressesOk(s: State) {
    forall ip {:trigger AddressOk(s, ip)} :: AddressOk(s, ip)
  }

  ghost predicate Inv(s: State) {
    Shape(s) && AddressesOk(s) && Books(s)
  }

  // ---------- ledger tools ----------

  /** Nothing owed is negative in vcpu or memory. */
  lemma ChargesNotNegative(s: State, o: Owner)
    requires Shape(s)
    ensures Owed(Charges(s), o) == ChargeOf(s, o)
    ensures ChargeOf(s, o).vcpu >= 0 && ChargeOf(s, o).mem >= 0
  {
    match o
    case VmOwner(v) => assert OpOk(s, v) && RowOk(s, v);
    case DstOwner(t) => assert TaskOk(s, t);
    case SrcOwner(t) => assert TaskOk(s, t);
  }

  /** Every charge is covered by the counters of its host; so nothing is ever below zero. */
  lemma Covered(s: State, o: Owner, h: nat)
    requires Shape(s) && Books(s) && h in s.hosts
    ensures ChargeOf(s, o).On(h, Vcpu) <= s.hosts[h].vcpu <= s.hosts[h].vcpuTotal
    ensures ChargeOf(s, o).On(h, Mem) <= s.hosts[h].mem <= s.hosts[h].memTotal
    ensures 0 <= s.hosts[h].vcpu && 0 <= s.hosts[h].mem
  {
    var c := Charges(s);
    forall p | p in c ensures Owed(c, p).vcpu >= 0 && Owed(c, p).mem >= 0 { ChargesNotNegative(s, p); }
    ChargesNotNegative(s, o);
    SumCovers(c.Keys, c, o, h, Vcpu);
    SumCovers(c.Keys, c, o, h, Mem);
    assert BookOk(s, h);
  }

  /** Every release that is still owed succeeds, takes off exactly what was charged, and leaves
      the host within its totals. */
  lemma ReleaseSucceeds(s: State, o: Owner)
    requires Shape(s) && Books(s)
    requires ChargeOf(s, o).vcpu > 0 && ChargeOf(s, o).mem > 0 && ChargeOf(s, o).host in s.hosts
    ensures var c := ChargeOf(s, o); var row := s.hosts[c.host];
            && row.Free(c.vcpu, c.mem) == Some(row.(vcpu := row.vcpu - c.vcpu, mem := row.mem - c.mem))
            && row.(vcpu := row.vcpu - c.vcpu, mem := row.mem - c.mem).WithinTotals()
  {
    Covered(s, o, ChargeOf(s, o).host);
  }

  /** Nothing but VM `v` and task `t` was touched. */
  predicate Apart(s: State, s': State, v: nat, t: nat) {
    && s'.vms - {v} == s.vms - {v} && s'.ops - {v} == s.ops - {v} && s'.tasks - {t} == s.tasks - {t}
  }

  ghost predicate ApartVm(s: State, s': State, v: nat) {
    s'.vms - {v} == s.vms - {v} && s'.ops - {v} == s.ops - {v}
  }

  /** What VM `v` and task `t` owe to host `h`. */
  function OwedBy(s: State, v: nat, t: nat, h: nat, d: Dim): int {
    ChargeOf(s, VmOwner(v)).On(h, d) + ChargeOf(s, DstOwner(t)).On(h, d) + ChargeOf(s, SrcOwner(t)).On(h, d)
  }

  /** The counters of host `h` moved by just as much as what `v` and `t` owe to it. */
  predicate Shifted(s: State, s': State, v: nat, t: nat, h: nat)
    requires h in s.hosts && h in s'.hosts
  {
    && s'.hosts[h].vcpu - s.hosts[h].vcpu == OwedBy(s', v, t, h, Vcpu) - OwedBy(s, v, t, h, Vcpu)
    && s'.hosts[h].mem - s.hosts[h].mem == OwedBy(s', v, t, h, Mem) - OwedBy(s, v, t, h, Mem)
    && s'.hosts[h].vmCreated - s.hosts[h].vmCreated == OwedBy(s', v, t, h, Count) - OwedBy(s, v, t, h, Count)
  }

  lemma ApartCharges(s: State, s': State, v: nat, t: nat, o: Owner)
    requires Apart(s, s', v, t) && o !in {VmOwner(v), DstOwner(t), SrcOwner(t)}
    ensures o in Owners(s) <==> o in Owners(s')
    ensures ChargeOf(s, o) == ChargeOf(s', o)
  {
    match o
    case VmOwner(w) =>
      assert w in s.vms <==> w in s'.vms - {v};
      assert w in s.ops <==> w in s'.ops - {v};
    case DstOwner(u) => assert u in s.tasks <==> u in s'.tasks - {t};
    case SrcOwner(u) => assert u in s.tasks <==> u in s'.tasks - {t};
  }

  lemma OwedIsCharge(s: State, o: Owner)
    ensures Owed(Charges(s), o) == ChargeOf(s, o)
  {
  }

  /** The total splits into what `v` and `t` owe and the rest. */
  lemma LoadOfThree(s: State, v: nat, t: nat, h: nat, d: Dim)
    ensures Load(Charges(s), h, d)
            == SumOver(Owners(s) - {VmOwner(v), DstOwner(t), SrcOwner(t)}, Charges(s), h, d) + OwedBy(s, v, t, h, d)
  {
    var c := Charges(s);
    var three := {VmOwner(v), DstOwner(t), SrcOwner(t)};
    forall o | o in three { OwedIsCharge(s, o); }
    SumOverThree(c.Keys, c, VmOwner(v), DstOwner(t), SrcOwner(t), h, d);
  }

  /** The total owed to a host moves by just as much as what `v` and `t` owe to it. */
  lemma LoadMoves(s: State, s': State, v: nat, t: nat, h: nat, d: Dim)
    requires Apart(s, s', v, t)
    ensures Load(Charges(s'), h, d) - Load(Charges(s), h, d) == OwedBy(s', v, t, h, d) - OwedBy(s, v, t, h, d)
  {
    var three := {VmOwner(v), DstOwner(t), SrcOwner(t)};
    forall o | o !in three
      ensures o in Owners(s) - three <==> o in Owners(s') - three
      ensures Owed(Charges(s), o) == Owed(Charges(s'), o)
    {
      ApartCharges(s, s', v, t, o);
      OwedIsCharge(s, o);
      OwedIsCharge(s', o);
    }
    assert Owners(s) - three == Owners(s') - three;
    LoadOfThree(s, v, t, h, d);
    LoadOfThree(s', v, t, h, d);
    SumSame(Owners(s) - three, Charges(s), Charges(s'), h, d);
  }

  /** Books stay balanced when only `v` and `t` were touched and every counter moved by just
      as much as what they owe. */
  lemma Rebalance(s: State, s': State, v: nat, t: nat)
    requires Books(s) && Apart(s, s', v, t) && s.hosts.Keys == s'.hosts.Keys
    requires forall h | h in s.hosts :: s.hosts[h].WithinTotals() ==> s'.hosts[h].WithinTotals()
    requires forall h | h in s.hosts :: Shifted(s, s', v, t, h)
    ensures Books(s')
  {
    forall h | h in s'.hosts ensures BookOk(s', h) {
      assert BookOk(s, h) && Shifted(s, s', v, t, h);
      LoadMoves(s, s', v, t, h, Vcpu);
      LoadMoves(s, s', v, t, h, Mem);
      LoadMoves(s, s', v, t, h, Count);
    }
  }

  /** And they do not when the counters of some host moved otherwise. */
  lemma Unbalanced(s: State, s': State, v: nat, t: nat, h: nat)
    requires Books(s) && Apart(s, s', v, t) && h in s.hosts && h in s'.hosts && !Shifted(s, s', v, t, h)
    ensures !Books(s')
  {
    assert BookOk(s, h);
    LoadMoves(s, s', v, t, h, Vcpu);
    LoadMoves(s, s', v, t, h, Mem);
    LoadMoves(s, s', v, t, h, Count);
    assert !BookOk(s', h);
  }

  /** The same when no task was touched: the counters of a host moved by just as much as what
      `v` owes to it. */
  lemma RebalanceVm(s: State, s': State, v: nat)
    requires Books(s) && ApartVm(s, s', v) && s'.tasks == s.tasks && s.hosts.Keys == s'.hosts.Keys
    requires forall h | h in s.hosts :: s.hosts[h].WithinTotals() ==> s'.hosts[h].WithinTotals()
    requires forall h | h in s.hosts ::
               var a, b := ChargeOf(s, VmOwner(v)), ChargeOf(s', VmOwner(v));
               && s'.hosts[h].vcpu - s.hosts[h].vcpu == b.On(h, Vcpu) - a.On(h, Vcpu)
               && s'.hosts[h].mem - s.hosts[h].mem == b.On(h, Mem) - a.On(h, Mem)
               && s'.hosts[h].vmCreated - s.hosts[h].vmCreated == b.On(h, Count) - a.On(h, Count)
    ensures Books(s')
  {
    assert ChargeOf(s, DstOwner(0)) == ChargeOf(s', DstOwner(0))
        && ChargeOf(s, SrcOwner(0)) == ChargeOf(s', SrcOwner(0));
    forall h | h in s.hosts ensures Shifted(s, s', v, 0, h) {
      assert ChargeOf(s, VmOwner(v)) == ChargeOf(s, VmOwner(v));
    }
    Rebalance(s, s', v, 0);
  }

  // ---------- address tools ----------

  predicate Used(s: State, ip: nat) { ip in s.ips && s.ips[ip].used }

  /** Address `p` has the same mark and, as far as `v` and the attachments go, the same owner. */
  predicate SameAt(s: State, s': State, v: nat, p: nat) {
    OwnsIp(s, v, p) == OwnsIp(s', v, p) && IsAttached(s, p) == IsAttached(s', p) && Used(s, p) == Used(s', p)
  }

  lemma ApartOwns(s: State, s': State, v: nat, w: nat, p: nat)
    requires ApartVm(s, s', v) && w != v
    ensures OwnsIp(s, w, p) == OwnsIp(s', w, p)
  {
    assert (w in s.vms <==> w in s'.vms - {v}) && (w in s.ops <==> w in s'.ops - {v});
  }

  lemma AddressSame(s: State, s': State, v: nat, p: nat)
    requires AddressOk(s, p) && ApartVm(s, s', v) && SameAt(s, s', v, p)
    ensures AddressOk(s', p)
  {
    forall w ensures OwnsIp(s, w, p) == OwnsIp(s', w, p) {
      if w != v { ApartOwns(s, s', v, w, p); }
    }
  }

  /** No address changed hands. */
  lemma AddressesSame(s: State, s': State, v: nat)
    requires AddressesOk(s) && ApartVm(s, s', v) && forall p :: SameAt(s, s', v, p)
    ensures AddressesOk(s')
  {
    forall p ensures AddressOk(s', p) {
      assert AddressOk(s, p) && SameAt(s, s', v, p);
      AddressSame(s, s', v, p);
    }
  }

  /** A free address was taken, by VM `v` or by an attachment. */
  lemma AddressTaken(s: State, s': State, v: nat, ip: nat)
    requires AddressesOk(s) && ApartVm(s, s', v) && forall p | p != ip :: SameAt(s, s', v, p)
    requires ip in s.ips && !Used(s, ip) && Used(s', ip)
    requires || (OwnsIp(s', v, ip) && IsAttached(s', ip) == IsAttached(s, ip))
             || (IsAttached(s', ip) && OwnsIp(s', v, ip) == OwnsIp(s, v, ip))
    ensures AddressesOk(s')
  {
    forall p ensures AddressOk(s', p) {
      assert AddressOk(s, p);
      if p != ip {
        assert SameAt(s, s', v, p);
        AddressSame(s, s', v, p);
      } else {
        assert !OwnsIp(s, v, ip);
        forall w | w != v ensures !OwnsIp(s', w, ip) { ApartOwns(s, s', v, w, ip); }
      }
    }
  }

  /** The owner of an address, VM `v` or an attachment, gave it up. */
  lemma AddressFreed(s: State, s': State, v: nat, ip: nat)
    requires AddressesOk(s) && ApartVm(s, s', v) && forall p | p != ip :: SameAt(s, s', v, p)
    requires !Used(s', ip)
    requires || (OwnsIp(s, v, ip) && !OwnsIp(s', v, ip) && IsAttached(s', ip) == IsAttached(s, ip))
             || (IsAttached(s, ip) && !IsAttached(s', ip) && OwnsIp(s', v, ip) == OwnsIp(s, v, ip))
    ensures AddressesOk(s')
  {
    forall p ensures AddressOk(s', p) {
      assert AddressOk(s, p);
      if p != ip {
        assert SameAt(s, s', v, p);
        AddressSame(s, s', v, p);
      } else {
        forall w ensures !OwnsIp(s', w, ip) { if w != v { ApartOwns(s, s', v, w, ip); } }
      }
    }
  }

  // ---------- shape tools ----------

  /** What no step changes: networks, groups, and which hosts and addresses exist. */
  ghost predicate Fixed(s: State, s': State) {
    && s'.vlans == s.vlans && s'.hosts.Keys == s.hosts.Keys && s'.ips.Keys == s.ips.Keys
    && (forall h | h in s.hosts :: s'.hosts[h].group == s.hosts[h].group)
    && (forall ip | ip in s.ips :: s'.ips[ip].vlan == s.ips[ip].vlan)
  }

  /** A step on the row, the operation or the devices of VM `v` alone. */
  lemma VmStepShape(s: State, s': State, v: nat)
    requires Shape(s) && Fixed(s, s') && s'.tasks == s.tasks
    requires s'.vms - {v} == s.vms - {v} && s'.ops - {v} == s.ops - {v}
    requires RowOk(s', v) && OpOk(s', v)
    requires forall u | u in s.tasks && s.tasks[u].vm == v :: RowFits(s', s.tasks[u])
    requires forall dev | dev in s'.devices && s'.devices[dev].vm.Some? ::
        dev in s.devices && s'.devices[dev] == s.devices[dev]
    requires || NoDevice(s', v)
             || (v !in s'.ops && IsNormal(s, v) && IsNormal(s', v) && s'.vms[v].host == s.vms[v].host)
    ensures Shape(s')
  {
    forall w ensures RowOk(s', w) && OpOk(s', w) {
      assert w != v ==> (w in s.vms <==> w in s'.vms - {v}) && (w in s.ops <==> w in s'.ops - {v});
      assert RowOk(s, w) && OpOk(s, w);
    }
    forall u ensures TaskOk(s', u) {
      assert TaskOk(s, u);
      if u in s.tasks && s.tasks[u].vm != v {
        var w := s.tasks[u].vm;
        assert (w in s.vms <==> w in s'.vms - {v}) && (w in s.ops <==> w in s'.ops - {v});
      }
    }
    forall t, u ensures Exclusive(s', t, u) { assert Exclusive(s, t, u); }
    forall dev ensures DeviceOk(s', dev) {
      if dev in s'.devices && s'.devices[dev].vm.Some? {
        assert DeviceOk(s, dev);
        var w := s'.devices[dev].vm.value;
        assert w != v ==> (w in s.vms <==> w in s'.vms - {v}) && (w in s.ops <==> w in s'.ops - {v});
      }
    }
  }

  /** A step that touches neither VM rows, operations nor tasks. */
  lemma OtherStepShape(s: State, s': State)
    requires Shape(s) && Books(s) && Fixed(s, s') && s'.hosts == s.hosts
    requires s'.vms == s.vms && s'.ops == s.ops && s'.tasks == s.tasks
    requires forall dev | dev in s'.devices ::
        (dev in s.devices && s'.devices[dev] == s.devices[dev]) || DeviceOk(s', dev)
    ensures Shape(s') && Books(s')
  {
    RebalanceVm(s, s', 0);
    forall w ensures RowOk(s', w) && OpOk(s', w) { assert RowOk(s, w) && OpOk(s, w); }
    forall u ensures TaskOk(s', u) { assert TaskOk(s, u); }
    forall t, u ensures Exclusive(s', t, u) { assert Exclusive(s, t, u); }
    forall dev ensures DeviceOk(s', dev) { assert DeviceOk(s, dev); }
  }

  /** Devices are mounted on NORMAL VMs that stay where they are. */
  lemma NotMounted(s: State, v: nat)
    requires Shape(s) && !(IsNormal(s, v) && v !in s.ops && !Expected(s, v))
    ensures NoDevice(s, v)
  {
    forall dev | dev in s.devices ensures s.devices[dev].vm != Some(v) { assert DeviceOk(s, dev); }
  }

  /** A VM with an operation in flight has no device, and no task counts on its row. */
  lemma InOpAlone(s: State, v: nat)
    requires Shape(s) && v in s.ops
    ensures NoDevice(s, v)
    ensures forall u | u in s.tasks && s.tasks[u].vm == v && s.tasks[u].Expecting() ::
              s.tasks[u].status != InProcess && v !in s.vms
  {
    forall u | u in s.tasks && s.tasks[u].vm == v ensures RowFits(s, s.tasks[u]) { assert TaskOk(s, u); }
    NotMounted(s, v);
  }

  /** Whatever an operation in flight does to the row, but for its size, its tasks do not mind. */
  lemma OpFits(s: State, s': State, v: nat)
    requires Shape(s) && v in s.ops && s'.tasks == s.tasks && OpOk(s, v)
    requires s.ops[v].kind == Deleting ==> v !in s'.vms
    requires v in s'.vms && s.ops[v].kind != Creating ==>
               v in s.vms && s'.vms[v].vcpu == s.vms[v].vcpu && s'.vms[v].mem == s.vms[v].mem
    ensures forall u | u in s.tasks && s.tasks[u].vm == v :: RowFits(s', s.tasks[u])
  {
    InOpAlone(s, v);
    forall u | u in s.tasks && s.tasks[u].vm == v ensures RowFits(s', s.tasks[u]) { assert TaskOk(s, u); }
  }

  /** A step of task `t`, which may move the row of its VM to another host. */
  ghost predicate TaskStepOn(s: State, s': State, t: nat)
  {
    && Fixed(s, s') && s'.ops == s.ops && s'.devices == s.devices
    && t in s'.tasks && s'.tasks - {t} == s.tasks - {t}
    && var v := s'.tasks[t].vm;
       && (t in s.tasks ==> s.tasks[t].vm == v) && (t !in s.tasks ==> v !in s.ops)
       && (s'.vms == s.vms ||
           (s'.vms - {v} == s.vms - {v} && v in s.vms && v !in s.ops && NoDevice(s, v) && RowOk(s', v)))
       && (s'.vms != s.vms ==> t in s.tasks && s.tasks[t].Expecting() && v in s'.vms
                               && s'.vms[v].vcpu == s.vms[v].vcpu && s'.vms[v].mem == s.vms[v].mem)
       && (s'.tasks[t].Expecting() ==> (t in s.tasks && s.tasks[t].Expecting()) || (!Expected(s, v) && NoDevice(s, v)))
  }

  lemma TaskStepRowsOk(s: State, s': State, t: nat, w: nat)
    requires Shape(s) && TaskStepOn(s, s', t)
    ensures RowOk(s', w) && OpOk(s', w)
  {
    assert w != s'.tasks[t].vm ==> (w in s.vms <==> w in s'.vms - {s'.tasks[t].vm});
    assert RowOk(s, w) && OpOk(s, w);
    forall u | u in s'.tasks && s'.tasks[u].vm == w
      ensures (u == t && t !in s.tasks) || (u in s.tasks && s.tasks[u].vm == w)
    {
      assert u != t ==> u in s'.tasks - {t};
    }
  }

  lemma TaskStepDeviceOk(s: State, s': State, t: nat, dev: nat)
    requires Shape(s) && TaskStepOn(s, s', t)
    ensures DeviceOk(s', dev)
  {
    assert DeviceOk(s, dev);
    if dev in s.devices && s.devices[dev].vm.Some? {
      var w, v := s.devices[dev].vm.value, s'.tasks[t].vm;
      if w == v {
        assert !NoDevice(s, v) && s'.vms == s.vms;
      } else {
        assert w in s.vms - {v} && (s.vms - {v})[w] == (s'.vms - {v})[w];
      }
      assert IsNormal(s', w) && s'.vms[w] == s.vms[w];
      forall u | u in s'.tasks && s'.tasks[u].vm == w ensures !s'.tasks[u].Expecting() {
        assert u != t ==> u in s'.tasks - {t};
      }
    }
  }

  lemma TaskStepShape(s: State, s': State, t: nat)
    requires Shape(s) && TaskStepOn(s, s', t) && TaskOk(s', t)
    ensures Shape(s')
  {
    var v := s'.tasks[t].vm;
    forall w ensures RowOk(s', w) && OpOk(s', w) { TaskStepRowsOk(s, s', t, w); }
    forall u ensures TaskOk(s', u) {
      assert u != t ==> (u in s.tasks <==> u in s'.tasks - {t});
      assert TaskOk(s, u) && Exclusive(s, t, u);
      if u != t && u in s.tasks && s.tasks[u].vm != v {
        var w := s.tasks[u].vm;
        assert w in s.vms <==> w in s'.vms - {v};
      }
    }
    forall x, u ensures Exclusive(s', x, u) {
      assert x != t ==> (x in s.tasks <==> x in s'.tasks - {t});
      assert u != t ==> (u in s.tasks <==> u in s'.tasks - {t});
      assert Exclusive(s, x, u);
    }
    forall dev ensures DeviceOk(s', dev) { TaskStepDeviceOk(s, s', t, dev); }
  }
}
