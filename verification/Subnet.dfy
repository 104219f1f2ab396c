/** Generating the addresses of a VLAN. */
module Subnet {
  import opened Tables

  /** IPv4 addresses are numbers below 2^32. */
  const ALL_ADDRESSES: nat := 0x1_0000_0000

  type Address = a: int | 0 <= a < ALL_ADDRESSES

  datatype SubIp = SubIp(ip: Address, mac: string)

  // ---------- networks ----------

  function Pow2(n: nat): (r: nat)
    ensures r > 0
  {
    if n == 0 then 1 else 2 * Pow2(n - 1)
  }

  /** A network: its address, whose host bits are zero, and the length of its prefix. */
  datatype Network = Network(address: Address, prefix: nat)
  {
    predicate Valid() { prefix <= 32 && address % Size() == 0 }

    /** How many addresses the network has. */
    function Size(): nat
    {
      if prefix <= 32 then Pow2(32 - prefix) else 1
    }

    /** The address with its host bits masked out is the network's. */
    predicate Contains(ip: Address) { ip - ip % Size() == address }
  }

  /** One address for the longest prefix, and twice as many for each bit less. */
  lemma SizeDoubles(net: Network)
    ensures net.prefix == 32 ==> net.Size() == 1
    ensures net.prefix < 32 ==> net.Size() == 2 * Network(net.address, net.prefix + 1).Size()
    ensures net.Valid() <==> net.prefix <= 32 && net.address % net.Size() == 0
  {
  }

  lemma AtLeastOnce(n: nat, d: int)
    ensures d >= 1 ==> n * d >= n
    ensures d <= -1 ==> n * d <= -(n as int)
  {
  }

  lemma Quotient(n: nat, k: int, rest: int)
    requires 0 <= rest < n
    ensures (n * k + rest) % n == rest
  {
    var x := n * k + rest;
    AtLeastOnce(n, x / n - k);
    assert n * (x / n - k) == n * (x / n) - n * k;
    assert x == n * (x / n) + x % n;
  }

  /** Masking out the host bits and comparing is the same as being in the network's interval. */
  lemma NetworkIsInterval(net: Network, ip: Address)
    requires net.Valid()
    ensures net.Contains(ip) <==> net.address <= ip < net.address + net.Size()
  {
    var n := net.Size();
    var k := net.address / n;
    assert net.address == n * k;
    if net.address <= ip < net.address + n {
      Quotient(n, k, ip - net.address);
    }
  }

  /** So an interval of addresses is inside when its two ends are. */
  lemma EndpointsSuffice(net: Network, from: Address, to: Address, ip: Address)
    requires net.Valid() && net.Contains(from) && net.Contains(to) && from <= ip <= to
    ensures net.Contains(ip)
  {
    NetworkIsInterval(net, from);
    NetworkIsInterval(net, to);
    NetworkIsInterval(net, ip);
  }

  // ---------- MAC addresses ----------

  function HexDigit(d: nat): char
    requires d < 16
  {
    if d < 10 then '0' + d as char else 'A' + (d - 10) as char
  }

  function HexValue(c: char): (r: Option<nat>)
    ensures r.Some? ==> r.value < 16 && HexDigit(r.value) == c
  {
    if '0' <= c <= '9' then Some(c as nat - '0' as nat)
    else if 'A' <= c <= 'F' then Some(c as nat - 'A' as nat + 10)
    else None
  }

  function HexByte(b: nat): string
    requires b < 256
  {
    [HexDigit(b / 16), HexDigit(b % 16)]
  }

  function ByteValue(s: string): (r: Option<nat>)
    requires |s| == 2
    ensures r.Some? ==> r.value < 256
  {
    var high, low := HexValue(s[0]), HexValue(s[1]);
    if high.Some? && low.Some? then Some(16 * high.value + low.value) else None
  }

  /** Two upper-case hexadecimal digits and a byte determine each other. */
  lemma HexBytes(s: string, b: nat)
    requires |s| == 2 && b < 256
    ensures ByteValue(s) == Some(b) <==> s == HexByte(b)
  {
    assert s == [s[0], s[1]];
    if ByteValue(s) == Some(b) {
      var high, low := HexValue(s[0]).value, HexValue(s[1]).value;
      assert b / 16 == high && b % 16 == low;
    }
  }

  /** Byte `k` of an address, the most significant first. */
  function Packed(ip: Address): (p: seq<nat>)
    ensures |p| == 4 && forall k | 0 <= k < 4 :: p[k] < 256
  {
    var high := ip / 0x100;
    [high / 0x100 / 0x100, high / 0x100 % 0x100, high % 0x100, ip % 0x100]
  }

  function Joined(a: string, b: string, c: string, d: string): string {
    "C8:00:" + a + ":" + b + ":" + c + ":" + d
  }

  function Mac(ip: Address): (mac: string) {
    var p := Packed(ip);
    Joined(HexByte(p[0]), HexByte(p[1]), HexByte(p[2]), HexByte(p[3]))
  }

  lemma HexDigits(d: nat)
    requires d < 16
    ensures HexDigit(d) == "0123456789ABCDEF"[d]
  {
    var digits := "0123456789ABCDEF";
    assert d < 8 ==> d == 0 || d == 1 || d == 2 || d == 3 || d == 4 || d == 5 || d == 6 || d == 7;
    assert d >= 8 ==> d == 8 || d == 9 || d == 10 || d == 11 || d == 12 || d == 13 || d == 14 || d == 15;
  }

  lemma LowByte(n: nat)
    ensures n % 0x100 / 0x10 == n / 0x10 % 0x10 && n % 0x100 % 0x10 == n % 0x10
  {
  }

  /** The bytes of an address by its hexadecimal digits. */
  lemma PackedDigits(ip: Address)
    ensures var p := Packed(ip);
      && p[0] / 0x10 == ip / 0x1000_0000 && p[0] % 0x10 == ip / 0x100_0000 % 0x10
      && p[1] / 0x10 == ip / 0x10_0000 % 0x10 && p[1] % 0x10 == ip / 0x1_0000 % 0x10
      && p[2] / 0x10 == ip / 0x1000 % 0x10 && p[2] % 0x10 == ip / 0x100 % 0x10
      && p[3] / 0x10 == ip / 0x10 % 0x10 && p[3] % 0x10 == ip % 0x10
  {
    assert ip / 0x100 / 0x100 == ip / 0x1_0000 && ip / 0x1_0000 / 0x100 == ip / 0x100_0000;
    LowByte(ip / 0x1_0000);
    LowByte(ip / 0x100);
    LowByte(ip);
  }

  /** The digits of a generated MAC address: two fixed bytes, and then the eight hexadecimal digits of the
      address from the highest to the lowest, a colon between any two bytes. */
  lemma MacDigits(ip: Address)
    ensures var mac, digits := Mac(ip), "0123456789ABCDEF";
      && |mac| == 17 && mac[..6] == "C8:00:" && mac[8] == ':' && mac[11] == ':' && mac[14] == ':'
      && mac[6] == digits[ip / 0x1000_0000] && mac[7] == digits[ip / 0x100_0000 % 0x10]
      && mac[9] == digits[ip / 0x10_0000 % 0x10] && mac[10] == digits[ip / 0x1_0000 % 0x10]
      && mac[12] == digits[ip / 0x1000 % 0x10] && mac[13] == digits[ip / 0x100 % 0x10]
      && mac[15] == digits[ip / 0x10 % 0x10] && mac[16] == digits[ip % 0x10]
  {
    var p, mac := Packed(ip), Mac(ip);
    PackedDigits(ip);
    JoinedParts(HexByte(p[0]), HexByte(p[1]), HexByte(p[2]), HexByte(p[3]));
    forall k | 0 <= k < 4 ensures HexByte(p[k]) == ["0123456789ABCDEF"[p[k] / 16], "0123456789ABCDEF"[p[k] % 16]] {
      HexDigits(p[k] / 16);
      HexDigits(p[k] % 16);
    }
    assert mac[6] == mac[6..8][0] && mac[7] == mac[6..8][1] && mac[9] == mac[9..11][0] && mac[10] == mac[9..11][1];
    assert mac[12] == mac[12..14][0] && mac[13] == mac[12..14][1] && mac[15] == mac[15..][0] && mac[16] == mac[15..][1];
  }

  predicate HasMacForm(mac: string) {
    |mac| == 17 && mac[..6] == "C8:00:" && mac[8] == ':' && mac[11] == ':' && mac[14] == ':'
  }

  /** Reads the address back from the last four bytes of a generated MAC address. */
  function IpOfMac(mac: string): Option<Address> {
    if HasMacForm(mac) then
      match (ByteValue(mac[6..8]), ByteValue(mac[9..11]), ByteValue(mac[12..14]), ByteValue(mac[15..]))
      case (Some(a), Some(b), Some(c), Some(d)) => Some(0x100_0000 * a + 0x1_0000 * b + 0x100 * c + d)
      case _ => None
    else None
  }

  lemma JoinedParts(a: string, b: string, c: string, d: string)
    requires |a| == |b| == |c| == |d| == 2
    ensures var mac := Joined(a, b, c, d);
            HasMacForm(mac) && mac[6..8] == a && mac[9..11] == b && mac[12..14] == c && mac[15..] == d
  {
  }

  lemma PartsJoined(mac: string)
    requires HasMacForm(mac)
    ensures mac == Joined(mac[6..8], mac[9..11], mac[12..14], mac[15..])
  {
    var again := Joined(mac[6..8], mac[9..11], mac[12..14], mac[15..]);
    JoinedParts(mac[6..8], mac[9..11], mac[12..14], mac[15..]);
    assert again[..6] + again[6..8] + [again[8]] + again[9..11] + [again[11]] + again[12..14] + [again[14]] +
        again[15..] == again;
    assert mac[..6] + mac[6..8] + [mac[8]] + mac[9..11] + [mac[11]] + mac[12..14] + [mac[14]] + mac[15..] == mac;
  }

  lemma PackedValue(ip: Address, a: nat, b: nat, c: nat, d: nat)
    requires a < 256 && b < 256 && c < 256 && d < 256
    ensures Packed(ip) == [a, b, c, d] <==> ip == 0x100_0000 * a + 0x1_0000 * b + 0x100 * c + d
  {
    var high := 0x1_0000 * a + 0x100 * b + c;
    assert high / 0x100 == 0x100 * a + b;
    if Packed(ip) == [a, b, c, d] {
      assert ip / 0x100 == high;
    }
  }

  /** Reading back the last four bytes gives the address, and only generated MAC addresses can be read. */
  lemma MacRoundTrip(mac: string, ip: Address)
    ensures IpOfMac(mac) == Some(ip) <==> mac == Mac(ip)
  {
    var p := Packed(ip);
    if mac == Mac(ip) {
      JoinedParts(HexByte(p[0]), HexByte(p[1]), HexByte(p[2]), HexByte(p[3]));
      forall k | 0 <= k < 4 ensures ByteValue(HexByte(p[k])) == Some(p[k]) {
        HexBytes(HexByte(p[k]), p[k]);
      }
      PackedValue(ip, p[0], p[1], p[2], p[3]);
    } else if IpOfMac(mac) == Some(ip) {
      PartsJoined(mac);
      var a, b, c, d := ByteValue(mac[6..8]).value, ByteValue(mac[9..11]).value, ByteValue(mac[12..14]).value,
          ByteValue(mac[15..]).value;
      PackedValue(ip, a, b, c, d);
      HexBytes(mac[6..8], a);
      HexBytes(mac[9..11], b);
      HexBytes(mac[12..14], c);
      HexBytes(mac[15..], d);
      assert false;
    }
  }

  lemma MacsDiffer(a: Address, b: Address)
    requires Mac(a) == Mac(b)
    ensures a == b
  {
    MacRoundTrip(Mac(a), a);
    MacRoundTrip(Mac(a), b);
  }

  // ---------- the generated list ----------

  /** An address whose low byte is zero is not given to a VM. */
  predicate Usable(ip: int) { ip % 0x100 != 0 }

  /** How many usable addresses are below `n`. */
  function UsableBelow(n: nat): nat { n - (n + 0xff) / 0x100 }

  lemma UsableBelowGrows(a: nat, b: nat)
    requires a <= b
    ensures UsableBelow(a) <= UsableBelow(b)
    ensures UsableBelow(b + 1) == UsableBelow(b) + if Usable(b) then 1 else 0
  {
  }

  /** The position of an address in the list for a range that starts at `from`. */
  function Position(from: nat, ip: nat): int { UsableBelow(ip) - UsableBelow(from) }

  /** Exactly the usable addresses of `from .. to`, in order, each at the position its value determines. */
  ghost predicate Lists(l: seq<SubIp>, from: nat, to: int)
    requires from <= to + 1
  {
    && |l| == Position(from, to + 1)
    && (forall ip | from <= ip <= to && Usable(ip) :: 0 <= Position(from, ip) < |l| && l[Position(from, ip)].ip == ip)
    && (forall k | 0 <= k < |l| :: from <= l[k].ip <= to && Usable(l[k].ip))
    && (forall j, k | 0 <= j < k < |l| :: l[j].ip < l[k].ip)
  }

  ghost predicate HaveMacs(l: seq<SubIp>) { forall k | 0 <= k < |l| :: l[k].mac == Mac(l[k].ip) }

  /** The loop's step: `row` is for the next address of the range. */
  lemma ListsOneMore(l: seq<SubIp>, from: nat, row: SubIp)
    requires from <= row.ip && Usable(row.ip) && Lists(l, from, row.ip - 1)
    requires HaveMacs(l) && row.mac == Mac(row.ip)
    ensures Lists(l + [row], from, row.ip) && HaveMacs(l + [row])
  {
    UsableBelowGrows(from, row.ip);
    var more := l + [row];
    assert |more| == |l| + 1 && more[|l|] == row && |l| == Position(from, row.ip);
    forall ip: nat | from <= ip <= row.ip && Usable(ip)
      ensures 0 <= Position(from, ip) < |more| && more[Position(from, ip)].ip == ip
    {
      if ip < row.ip { assert more[Position(from, ip)] == l[Position(from, ip)]; }
    }
  }

  lemma ListsNoMore(l: seq<SubIp>, from: nat, ip: Address)
    requires from <= ip && !Usable(ip) && Lists(l, from, ip - 1)
    ensures Lists(l, from, ip)
  {
    UsableBelowGrows(from, ip);
  }

  /** No two entries share an address or a MAC address. */
  lemma EntriesDiffer(l: seq<SubIp>, from: nat, to: int, j: nat, k: nat)
    requires from <= to + 1 && Lists(l, from, to) && HaveMacs(l)
    requires j < |l| && k < |l| && (l[j].ip == l[k].ip || l[j].mac == l[k].mac)
    ensures j == k
  {
    if l[j].mac == l[k].mac { MacsDiffer(l[j].ip, l[k].ip); }
  }

  /** The whole network gives every address but those with a zero low byte: one in 256, if it has as many. */
  lemma WholeNetwork(net: Network, l: seq<SubIp>)
    requires net.Valid() && net.prefix <= 24 && Lists(l, net.address, net.address + net.Size() - 1)
    ensures |l| == net.Size() - net.Size() / 0x100
  {
    SizeIsWholeBlocks(32 - net.prefix);
    WholeBlocks(net.address, net.Size());
  }

  lemma WholeBlocks(a: nat, n: nat)
    requires n > 0 && a % n == 0 && n % 0x100 == 0
    ensures Position(a, a + n) == n - n / 0x100
  {
    var blocks, k := n / 0x100, a / n;
    var x := blocks * k;
    assert a == 0x100 * x by { assert a == n * k; assert n == 0x100 * blocks; }
  }

  lemma {:induction false} SizeIsWholeBlocks(n: nat)
    requires n >= 8
    ensures Pow2(n) % 0x100 == 0
  {
    if n > 8 { SizeIsWholeBlocks(n - 1); }
  }

  class MacIpTable {
    var rows: seq<SubIp>

    /** Both columns are unique. */
    ghost predicate Valid() reads this {
      forall j, k | 0 <= j < k < |rows| :: rows[j].ip != rows[k].ip && rows[j].mac != rows[k].mac
    }

    constructor ()
      ensures Valid() && rows == []
    {
      rows := [];
    }

    /** Stores the list in one transaction. */
    method Import(l: seq<SubIp>) returns (ok: bool)
      requires Valid()
      modifies this
      ensures Valid()
      ensures ok ==> rows == old(rows) + l
      ensures !ok ==> rows == old(rows)
      ensures ok <==> && (forall j, k | 0 <= j < |old(rows)| && 0 <= k < |l| ::
                            old(rows)[j].ip != l[k].ip && old(rows)[j].mac != l[k].mac)
                      && (forall j, k | 0 <= j < k < |l| :: l[j].ip != l[k].ip && l[j].mac != l[k].mac)
    {
      var before := rows;
      var i := 0;
      while i < |l|
        invariant 0 <= i <= |l| && Valid() && rows == before + l[..i]
        invariant forall j, k | 0 <= j < |before| && 0 <= k < i :: !Collide(before[j], l[k])
        invariant forall j, k | 0 <= j < k < i :: !Collide(l[j], l[k])
      {
        if j :| 0 <= j < |rows| && Collide(rows[j], l[i]) {
          assert j < |before| ==> Collide(before[j], l[i]);
          assert j >= |before| ==> Collide(l[j - |before|], l[i]);
          rows := before;
          return false;
        }
        assert forall j | 0 <= j < |before| :: rows[j] == before[j];
        assert forall j | 0 <= j < i :: rows[|before| + j] == l[j];
        rows := rows + [l[i]];
        i := i + 1;
      }
      return true;
    }
  }

  predicate Collide(a: SubIp, b: SubIp) { a.ip == b.ip || a.mac == b.mac }

  lemma AllInside(net: Network, l: seq<SubIp>, from: Address, to: Address)
    requires net.Valid() && net.Contains(from) && net.Contains(to) && from <= to && Lists(l, from, to)
    ensures forall k | 0 <= k < |l| :: net.Contains(l[k].ip)
  {
    forall k | 0 <= k < |l| ensures net.Contains(l[k].ip) {
      EndpointsSuffice(net, from, to, l[k].ip);
    }
  }

  /** The usable addresses of `from .. to` with their MAC addresses. */
  method ListSubips(from: Address, to: Address) returns (l: seq<SubIp>)
    requires from <= to
    ensures Lists(l, from, to) && HaveMacs(l)
  {
    l := [];
    for ip := from to to + 1
      invariant Lists(l, from, ip - 1) && HaveMacs(l)
    {
      if Usable(ip) {
        ListsOneMore(l, from, SubIp(ip, Mac(ip)));
        l := l + [SubIp(ip, Mac(ip))];
      } else {
        ListsNoMore(l, from, ip);
      }
    }
  }

  method SubipsOf(net: Network, from: Address, to: Address) returns (r: Result<seq<SubIp>>)
    ensures r.Raised? <==> from > to || !net.Valid() || !net.Contains(from) || !net.Contains(to)
    ensures r.Ok? ==> Lists(r.value, from, to) && HaveMacs(r.value)
    ensures r.Ok? ==> forall k | 0 <= k < |r.value| :: net.Contains(r.value[k].ip)
  {
    if from > to || !net.Valid() || !net.Contains(from) || !net.Contains(to) {
      return Raised;
    }
    var l := ListSubips(from, to);
    AllInside(net, l, from, to);
    return Ok(l);
  }

  /** With `writeDatabase` the generated addresses are also stored, all or none. */
  method GenerateSubips(net: Network, from: Address, to: Address, table: MacIpTable, writeDatabase: bool)
    returns (r: Result<seq<SubIp>>)
    requires table.Valid()
    modifies table
    ensures table.Valid()
    ensures r.Ok? ==> from <= to && Lists(r.value, from, to) && HaveMacs(r.value)
    ensures r.Ok? ==> forall k | 0 <= k < |r.value| :: net.Contains(r.value[k].ip)
    ensures r.Raised? <==>
              || from > to || !net.Valid() || !net.Contains(from) || !net.Contains(to)
              || (writeDatabase && exists j | 0 <= j < |old(table.rows)| :: Generates(old(table.rows)[j], from, to))
    ensures table.rows == if r.Ok? && writeDatabase then old(table.rows) + r.value else old(table.rows)
  {
    r := SubipsOf(net, from, to);
    if r.Ok? && writeDatabase {
      WhatCollides(r.value, from, to, table.rows);
      var ok := table.Import(r.value);
      if !ok {
        return Raised;
      }
    }
  }

  /** The stored row has an address of the range, or the MAC address of one. */
  ghost predicate Generates(row: SubIp, from: Address, to: Address) {
    || (from <= row.ip <= to && Usable(row.ip))
    || (exists ip: Address :: from <= ip <= to && Usable(ip) && row.mac == Mac(ip))
  }

  lemma GeneratesOnFields(row: SubIp, from: Address, to: Address)
    ensures Generates(row, from, to)
      <==> exists ip: Address :: from <= ip <= to && ip % 0x100 != 0 && (row.ip == ip || row.mac == Mac(ip))
  {
  }

  lemma WhatCollides(l: seq<SubIp>, from: Address, to: Address, rows: seq<SubIp>)
    requires from <= to && Lists(l, from, to) && HaveMacs(l)
    ensures forall j | 0 <= j < |rows| ::
              Generates(rows[j], from, to) <==> exists k | 0 <= k < |l| :: Collide(rows[j], l[k])
    ensures forall j, k | 0 <= j < k < |l| :: !Collide(l[j], l[k])
  {
    forall j, k | 0 <= j < k < |l| ensures !Collide(l[j], l[k]) {
      if Collide(l[j], l[k]) { EntriesDiffer(l, from, to, j, k); }
    }
    forall j | 0 <= j < |rows|
      ensures Generates(rows[j], from, to) <==> exists k | 0 <= k < |l| :: Collide(rows[j], l[k])
    {
      if from <= rows[j].ip <= to && Usable(rows[j].ip) {
        assert Collide(rows[j], l[Position(from, rows[j].ip)]);
      } else if ip: Address :| from <= ip <= to && Usable(ip) && rows[j].mac == Mac(ip) {
        assert Collide(rows[j], l[Position(from, ip)]);
      } else if k :| 0 <= k < |l| && Collide(rows[j], l[k]) {
        assert Usable(l[k].ip) && l[k].mac == Mac(l[k].ip);
      }
    }
  }
}
