/** Sums of outstanding charges. */
module Ledger {
  import opened Tables

  /** Who owes a charge: a VM (through its row or its operation in flight), or a migration task
      on its destination or on its source. */
  datatype Owner = VmOwner(vm: nat) | DstOwner(task: nat) | SrcOwner(task: nat)

  /** `count` is the share of the host's VM counter; it is -1 for a VM already placed on a host
      whose counter has not been raised yet. */
  datatype Charge = Charge(host: nat, vcpu: int, mem: int, count: int)
  {
    function On(h: nat, d: Dim): int {
      if host != h then 0
      else match d
        case Vcpu => vcpu
        case Mem => mem
        case Count => count
    }
  }

  const NOTHING := Charge(0, 0, 0, 0)

  function Owed(charges: map<Owner, Charge>, o: Owner): Charge {
    if o in charges then charges[o] else NOTHING
  }

  ghost function Pick<T>(s: set<T>): (x: T)
    requires s != {}
    ensures x in s
  {
    var x :| x in s; x
  }

  /** What the owners in `os` owe to host `h` in dimension `d`. */
  ghost function SumOver(os: set<Owner>, charges: map<Owner, Charge>, h: nat, d: Dim): int {
    if os == {} then 0
    else
      var o := Pick(os);
      Owed(charges, o).On(h, d) + SumOver(os - {o}, charges, h, d)
  }

  /** Total charged to host `h` in dimension `d`. */
  ghost function Load(charges: map<Owner, Charge>, h: nat, d: Dim): int {
    SumOver(charges.Keys, charges, h, d)
  }

  /** The sum does not depend on the order in which owners are picked. */
  lemma {:induction false} SumSplit(os: set<Owner>, charges: map<Owner, Charge>, o: Owner, h: nat, d: Dim)
    requires o in os
    ensures SumOver(os, charges, h, d) == Owed(charges, o).On(h, d) + SumOver(os - {o}, charges, h, d)
  {
    var p := Pick(os);
    if p == o {
    } else {
      SumSplit(os - {p}, charges, o, h, d);
      SumSplit(os - {o}, charges, p, h, d);
      assert os - {p} - {o} == os - {o} - {p};
    }
  }

  /** Owners outside `os` do not matter. */
  lemma {:induction false} SumSame(os: set<Owner>, a: map<Owner, Charge>, b: map<Owner, Charge>, h: nat, d: Dim)
    requires forall o :: o in os ==> Owed(a, o) == Owed(b, o)
    ensures SumOver(os, a, h, d) == SumOver(os, b, h, d)
  {
    if os == {} {
    } else {
      var o := Pick(os);
      assert Owed(a, o) == Owed(b, o);
      SumSame(os - {o}, a, b, h, d);
    }
  }

  /** The owners of two disjoint sets add up. */
  lemma {:induction false} SumUnion(a: set<Owner>, b: set<Owner>, charges: map<Owner, Charge>, h: nat, d: Dim)
    requires a !! b
    ensures SumOver(a + b, charges, h, d) == SumOver(a, charges, h, d) + SumOver(b, charges, h, d)
    decreases b
  {
    if b == {} {
      assert a + b == a;
    } else {
      var o := Pick(b);
      SumUnion(a, b - {o}, charges, h, d);
      SumSplit(a + b, charges, o, h, d);
      assert (a + b) - {o} == a + (b - {o});
    }
  }

  /** Owners that owe nothing do not matter either. */
  lemma {:induction false} SumOfNothing(os: set<Owner>, charges: map<Owner, Charge>, h: nat, d: Dim)
    requires forall o :: o in os ==> Owed(charges, o).On(h, d) == 0
    ensures SumOver(os, charges, h, d) == 0
  {
    if os == {} {
    } else {
      var o := Pick(os);
      assert Owed(charges, o).On(h, d) == 0;
      SumOfNothing(os - {o}, charges, h, d);
    }
  }

  /** Taking one owner out of the total, whether or not it is listed. */
  lemma SumWithout(os: set<Owner>, charges: map<Owner, Charge>, o: Owner, h: nat, d: Dim)
    requires o in charges ==> o in os
    ensures SumOver(os, charges, h, d) == SumOver(os - {o}, charges, h, d) + Owed(charges, o).On(h, d)
  {
    if o in os {
      SumSplit(os, charges, o, h, d);
    } else {
      assert os - {o} == os;
    }
  }

  /** Taking three different owners out of the total. */
  lemma SumOverThree(os: set<Owner>, charges: map<Owner, Charge>, a: Owner, b: Owner, c: Owner, h: nat, d: Dim)
    requires charges.Keys <= os && a != b && b != c && a != c
    ensures SumOver(os, charges, h, d)
            == SumOver(os - {a, b, c}, charges, h, d)
               + Owed(charges, a).On(h, d) + Owed(charges, b).On(h, d) + Owed(charges, c).On(h, d)
  {
    SumWithout(os, charges, a, h, d);
    SumWithout(os - {a}, charges, b, h, d);
    SumWithout(os - {a} - {b}, charges, c, h, d);
    assert os - {a} - {b} - {c} == os - {a, b, c};
  }

  /** Charges without negative amounts sum to at least each one of them. */
  lemma {:induction false} SumCovers(os: set<Owner>, charges: map<Owner, Charge>, o: Owner, h: nat, d: Dim)
    requires d != Count
    requires forall p :: p in os ==> Owed(charges, p).vcpu >= 0 && Owed(charges, p).mem >= 0
    ensures SumOver(os, charges, h, d) >= 0
    ensures o in os ==> SumOver(os, charges, h, d) >= Owed(charges, o).On(h, d)
  {
    if os == {} {
    } else {
      var p := if o in os then o else Pick(os);
      SumSplit(os, charges, p, h, d);
      SumCovers(os - {p}, charges, p, h, d);
    }
  }
}
