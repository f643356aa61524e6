/** The addresses that internal/canon/discover.go probes for a camera: an in-place
    increment of address bytes, and the loop that lists the hosts of each local prefix. */
module Discover {
  import opened Bytes

  type Address = seq<byte>

  function Power(b: nat, n: nat): (p: nat)
    ensures b > 0 ==> p > 0
  {
    if n == 0 then 1 else b * Power(b, n - 1)
  }

  // ---- The increment ----

  /** The number whose big-endian bytes these are. */
  function Value(a: Address): nat {
    if a == [] then 0 else 256 * Value(a[..|a| - 1]) + a[|a| - 1] as nat
  }

  /** The last `n` big-endian bytes of a number. */
  function ToBytes(v: nat, n: nat): (a: Address)
    ensures |a| == n
  {
    if n == 0 then [] else ToBytes(v / 256, n - 1) + [(v % 256) as byte]
  }

  lemma {:induction false} ValueToBytes(a: Address)
    ensures ToBytes(Value(a), |a|) == a
  {
    if a != [] {
      ValueToBytes(a[..|a| - 1]);
    }
  }

  lemma {:induction false} ToBytesValue(v: nat, n: nat)
    ensures Value(ToBytes(v, n)) == v % Power(256, n)
  {
    if n > 0 {
      var rest := ToBytes(v / 256, n - 1);
      assert ToBytes(v, n)[..n - 1] == rest;
      ToBytesValue(v / 256, n - 1);
      ModOfProduct(v, Power(256, n - 1));
    }
  }

  lemma ModOfProduct(v: nat, b: nat)
    requires b > 0
    ensures v % (256 * b) == 256 * ((v / 256) % b) + v % 256
  {
    var q1, q0, r := (v / 256) / b, (v / 256) % b, v % 256;
    assert v / 256 == b * q1 + q0;
    SplitAt(v, b, q1, q0, r);
    DivisionIsUnique(v, 256 * b, q1, 256 * q0 + r);
  }

  lemma SplitAt(v: nat, b: nat, q1: nat, q0: nat, r: nat)
    requires v == 256 * (b * q1 + q0) + r && q0 < b && r < 256
    ensures v == (256 * b) * q1 + (256 * q0 + r) && 256 * q0 + r < 256 * b
  {
    assert (256 * b) * q1 == 256 * (b * q1);
  }

  lemma Grows(d: nat, k: nat)
    requires d > 0 && k > 0
    ensures d * k >= d
  {
    assert d * k == d * (k - 1) + d && d * (k - 1) >= 0;
  }

  lemma DivisionIsUnique(v: nat, d: nat, q: nat, r: nat)
    requires d > 0 && v == d * q + r && r < d
    ensures v / d == q && v % d == r
  {
    var q2, r2 := v / d, v % d;
    assert d * (q - q2) == d * q - d * q2 == r2 - r;
    if q > q2 {
      Grows(d, q - q2);
    } else if q < q2 {
      Grows(d, q2 - q);
      assert false;
    }
  }

  /** One more, with the carry; the highest address is followed by the lowest. */
  function Successor(a: Address): (b: Address)
    ensures |b| == |a|
  {
    if a == [] then []
    else
      var last := a[|a| - 1];
      if last < 255 then a[..|a| - 1] + [last + 1] else Successor(a[..|a| - 1]) + [0]
  }

  lemma Carry(v: nat)
    ensures if v % 256 < 255 then (v + 1) / 256 == v / 256 && (v + 1) % 256 == v % 256 + 1
            else (v + 1) / 256 == v / 256 + 1 && (v + 1) % 256 == 0
  {
  }

  lemma SuccessorLast(init: Address, last: byte)
    ensures Successor(init + [last]) == if last < 255 then init + [last + 1] else Successor(init) + [0]
  {
    assert (init + [last])[..|init|] == init;
  }

  lemma {:induction false} SuccessorOf(v: nat, n: nat)
    ensures Successor(ToBytes(v, n)) == ToBytes(v + 1, n)
  {
    hide Successor;
    if n == 0 {
      assert Successor([]) == [];
    } else {
      Carry(v);
      SuccessorLast(ToBytes(v / 256, n - 1), v % 256);
      SuccessorOf(v / 256, n - 1);
    }
  }

  /** The in-place increment is addition of one modulo 256 to the number of bytes. */
  lemma SuccessorValue(a: Address)
    ensures Value(Successor(a)) == (Value(a) + 1) % Power(256, |a|)
  {
    hide Value, ToBytes, Successor, Power;
    ValueToBytes(a);
    SuccessorOf(Value(a), |a|);
    ToBytesValue(Value(a) + 1, |a|);
  }

  lemma SuccessorUpTo(a: Address, j: nat)
    requires j < |a|
    ensures Successor(a[..j + 1]) == if a[j] < 255 then a[..j] + [a[j] + 1] else Successor(a[..j]) + [0]
  {
    var init := a[..j + 1];
    assert init[..|init| - 1] == a[..j];
  }

  /** The loop has come to byte `j` with the carry: what the bytes are after it is incremented. */
  lemma CarryInto(was: Address, j: nat, tail: Address, last: byte)
    requires j < |was| && last == if was[j] == 255 then 0 else was[j] + 1
    requires Successor(was) == Successor(was[..j + 1]) + tail
    ensures (was[..j + 1] + tail)[j] == was[j]
    ensures (was[..j + 1] + tail)[j := last] == was[..j] + ([last] + tail)
    ensures Successor(was) == (if last > 0 then was[..j] else Successor(was[..j])) + ([last] + tail)
  {
    hide Successor;
    SuccessorUpTo(was, j);
  }

  method Inc(ip: array<byte>)
    modifies ip
    ensures ip[..] == Successor(old(ip[..]))
  {
    hide Successor;
    ghost var was, tail := ip[..], [];
    var j := ip.Length - 1;
    assert was[..j + 1] == was == was + tail && Successor(was) == Successor(was) + tail;
    while j >= 0
      invariant -1 <= j < ip.Length
      invariant ip[..] == was[..j + 1] + tail
      invariant Successor(was) == Successor(was[..j + 1]) + tail
    {
      ghost var before := ip[..];
      assert ip[j] == before[j];
      ghost var last := if was[j] == 255 then 0 else was[j] + 1;
      CarryInto(was, j, tail, last);
      ip[j] := if ip[j] == 255 then 0 else ip[j] + 1;
      assert ip[..] == before[j := last];
      tail := [last] + tail;
      if ip[j] > 0 {
        return;
      }
      j := j - 1;
    }
    assert was[..0] == [] && [] + tail == tail && Successor([]) == [];
  }

  // ---- Masks ----

  function MaskByte(b: byte, ones: int): byte {
    if ones >= 8 then b
    else if ones <= 0 then 0
    else b - b % Power(2, 8 - ones)
  }

  /** The address with all but its first `ones` bits cleared. */
  function Mask(a: Address, ones: int): (m: Address)
    ensures |m| == |a|
  {
    if a == [] then []
    else Mask(a[..|a| - 1], ones) + [MaskByte(a[|a| - 1], ones - 8 * (|a| - 1))]
  }

  lemma {:induction false} MaskAll(a: Address, ones: int)
    requires ones >= 8 * |a|
    ensures Mask(a, ones) == a
  {
    if a != [] {
      MaskAll(a[..|a| - 1], ones);
    }
  }

  lemma PowersOfTwo()
    ensures Power(2, 0) == 1 && Power(2, 1) == 2 && Power(2, 2) == 4 && Power(2, 3) == 8 && Power(2, 4) == 16
    ensures Power(2, 5) == 32 && Power(2, 6) == 64 && Power(2, 7) == 128 && Power(2, 8) == 256
  {
    assert Power(2, 4) == 16;
    assert Power(2, 7) == 128;
  }

  lemma {:induction false} PowerSum(m: nat, n: nat)
    ensures Power(2, m + n) == Power(2, m) * Power(2, n)
  {
    if m > 0 {
      PowerSum(m - 1, n);
    }
  }

  function Cleared(v: nat, p: nat): nat
    requires p > 0
  {
    v - v % p
  }

  lemma MaskLast(v: nat, w: nat, n: nat, ones: nat)
    requires n > 0 && Mask(ToBytes(v / 256, n - 1), ones) == ToBytes(w / 256, n - 1)
    requires MaskByte((v % 256) as byte, ones - 8 * (n - 1)) == w % 256
    ensures Mask(ToBytes(v, n), ones) == ToBytes(w, n)
  {
    hide MaskByte;
    assert ToBytes(v, n)[..n - 1] == ToBytes(v / 256, n - 1);
  }

  /** Masking keeps the network part of the number. */
  lemma {:induction false} MaskToBytes(v: nat, n: nat, ones: nat)
    requires ones <= 8 * n
    ensures Mask(ToBytes(v, n), ones) == ToBytes(Cleared(v, Power(2, 8 * n - ones)), n)
  {
    hide Power, MaskByte, Mask, ToBytes, Cleared;
    if n == 0 {
      assert ToBytes(v, 0) == [] == ToBytes(Cleared(v, Power(2, 0)), 0) == Mask([], ones);
    } else {
      if ones > 8 * (n - 1) {
        MaskAll(ToBytes(v / 256, n - 1), ones);
        MaskLow(v, 8 * n - ones);
      } else {
        MaskToBytes(v / 256, n - 1, ones);
        MaskRest(v, n, ones);
      }
      MaskLast(v, Cleared(v, Power(2, 8 * n - ones)), n, ones);
    }
  }

  lemma MaskRest(v: nat, n: nat, ones: nat)
    requires n > 0 && ones <= 8 * (n - 1)
    ensures var w := Cleared(v, Power(2, 8 * n - ones));
            && w / 256 == Cleared(v / 256, Power(2, 8 * (n - 1) - ones))
            && MaskByte((v % 256) as byte, ones - 8 * (n - 1)) == w % 256
  {
    var p := Power(2, 8 * (n - 1) - ones);
    assert Power(2, 8 * n - ones) == 256 * p by {
      PowerSum(8, 8 * (n - 1) - ones);
      PowersOfTwo();
    }
    hide Power;
    MaskHigh(v, p);
  }

  lemma MaskLow(v: nat, k: nat)
    requires k < 8
    ensures var w := Cleared(v, Power(2, k));
            && w / 256 == v / 256
            && w % 256 == MaskByte((v % 256) as byte, 8 - k)
  {
    hide Power;
    PowersOfTwo();
    PowerSum(k, 8 - k);
    MaskLowBy(v, Power(2, k), Power(2, 8 - k));
  }

  lemma MaskLowBy(v: nat, p: nat, c: nat)
    requires p * c == 256
    ensures p > 0
    ensures var w := v - v % p;
            w / 256 == v / 256 && w % 256 == v % 256 - (v % 256) % p
  {
    var q, b := v / 256, v % 256;
    SmallerFactor(p, c);
    LowDigits(v, p, c, q, b / p, b % p);
    DivisionIsUnique(v, p, c * q + b / p, b % p);
    DivisionIsUnique(v - b % p, 256, q, b - b % p);
  }

  lemma SmallerFactor(p: nat, c: nat)
    requires p * c == 256
    ensures p > 0
  {
  }

  lemma LowDigits(v: nat, p: nat, c: nat, q: nat, t: nat, r: nat)
    requires p * c == 256 && v == 256 * q + (p * t + r)
    ensures v == p * (c * q + t) + r && c * q + t >= 0
  {
    assert p * (c * q + t) == p * (c * q) + p * t;
    assert p * (c * q) == (p * c) * q;
  }

  lemma MaskHigh(v: nat, p: nat)
    requires p > 0
    ensures var w := v - v % (256 * p);
            w / 256 == v / 256 - (v / 256) % p && w % 256 == 0
  {
    ModOfProduct(v, p);
    var q := v / 256;
    assert v - v % (256 * p) == 256 * (q - q % p);
  }

  // ---- Subnets ----

  const ADDRESSES: nat := 0x1_0000_0000

  lemma FourBytes(a: Address)
    requires |a| == 4
    ensures Value(a) < ADDRESSES
  {
    assert Value(a[..3]) < 0x100_0000 by {
      assert Value(a[..3][..2]) < 0x1_0000 by {
        assert Value(a[..3][..2][..1]) < 0x100;
      }
    }
  }

  predicate Contains(net: Address, ones: nat, host: Address) {
    Mask(host, ones) == Mask(net, ones)
  }

  /** The number of addresses behind `ones` fixed bits. */
  function Size(ones: nat): (size: nat)
    requires ones <= 32
    ensures size > 0
  {
    Power(2, 32 - ones)
  }

  /** A local address and the length of its prefix. */
  datatype Prefix = Prefix(ip: Address, ones: nat)

  ghost predicate IsPrefix(p: Prefix) {
    |p.ip| == 4 && p.ones <= 32
  }

  /** Prefixes with more than ten host bits are narrowed to the local /24. */
  function Narrowed(ones: nat): nat {
    if ones < 22 then 24 else ones
  }

  /** A subnet of at most 1024 addresses is scanned whole, a larger one only 256 of it. */
  lemma NarrowedSize(ones: nat)
    requires ones <= 32
    ensures Size(Narrowed(ones)) == if Size(ones) <= 1024 then Size(ones) else 256
  {
    hide Power;
    PowersOfTwo();
    if ones < 22 {
      PowerSum(8, 3);
      PowerSum(11, 21 - ones);
      Grows(2048, Power(2, 21 - ones));
    } else {
      PowerSum(8, 2);
      PowerSum(32 - ones, ones - 22);
      Grows(Power(2, 32 - ones), Power(2, ones - 22));
    }
  }

  /** The first address of the subnet that is scanned. */
  function Base(p: Prefix): nat
    requires IsPrefix(p)
  {
    Cleared(Value(p.ip), Size(Narrowed(p.ones)))
  }

  /** `count` consecutive addresses from `v` on. */
  function Range(v: nat, count: nat): (hosts: seq<Address>)
    ensures |hosts| == count && forall k :: 0 <= k < count ==> hosts[k] == ToBytes(v + k, 4)
  {
    seq(count, k requires 0 <= k => ToBytes(v + k, 4))
  }

  function Hosts(p: Prefix): seq<Address>
    requires IsPrefix(p)
  {
    Range(Base(p), Size(Narrowed(p.ones)))
  }

  lemma SizeBound(p: Prefix)
    requires IsPrefix(p)
    ensures Size(Narrowed(p.ones)) <= 1024
  {
    hide Power;
    PowersOfTwo();
    var o := Narrowed(p.ones);
    if o > 23 {
      PowerSum(32 - o, 8 - (32 - o));
      Grows(Power(2, 32 - o), Power(2, 8 - (32 - o)));
    } else {
      PowerSum(8, 24 - o);
    }
  }

  lemma MaskedPrefix(p: Prefix)
    requires IsPrefix(p)
    ensures Mask(p.ip, Narrowed(p.ones)) == ToBytes(Base(p), 4)
  {
    hide Mask, ToBytes, Value, Cleared;
    ValueToBytes(p.ip);
    MaskToBytes(Value(p.ip), 4, Narrowed(p.ones));
  }

  lemma ClearedRange(v: nat, size: nat, k: nat)
    requires size > 0 && k <= size
    ensures var base := Cleared(v, size);
            Cleared(base, size) == base && Cleared(base + k, size) == if k < size then base else base + size
  {
    var q := v / size;
    assert Cleared(v, size) == size * q;
    DivisionIsUnique(size * q, size, q, 0);
    if k < size {
      DivisionIsUnique(size * q + k, size, q, k);
    } else {
      assert size * q + size == size * (q + 1);
      DivisionIsUnique(size * (q + 1), size, q + 1, 0);
    }
  }

  lemma RemaindersApart(x: nat, y: nat)
    requires x < y < x + ADDRESSES
    ensures x % ADDRESSES != y % ADDRESSES
  {
    assert y - x == ADDRESSES * (y / ADDRESSES - x / ADDRESSES) + (y % ADDRESSES - x % ADDRESSES);
  }

  lemma FourByteValue(v: nat)
    ensures Value(ToBytes(v, 4)) == v % ADDRESSES
  {
    ToBytesValue(v, 4);
    assert Power(256, 4) == ADDRESSES by {
      assert Power(256, 2) == 0x1_0000;
    }
  }

  lemma AddressesApart(v: nat, i: nat, j: nat)
    requires i < j < i + ADDRESSES
    ensures ToBytes(v + i, 4) != ToBytes(v + j, 4)
  {
    hide ToBytes, Value;
    FourByteValue(v + i);
    FourByteValue(v + j);
    RemaindersApart(v + i, v + j);
  }

  /** Counting up from the base, Contains ends the loop after exactly the subnet, even
      where the next address wraps round to 0.0.0.0. */
  lemma ContainsIff(p: Prefix, k: nat)
    requires IsPrefix(p) && k <= Size(Narrowed(p.ones))
    ensures Contains(Mask(p.ip, Narrowed(p.ones)), Narrowed(p.ones), ToBytes(Base(p) + k, 4))
       <==> k < Size(Narrowed(p.ones))
  {
    hide Mask, ToBytes, Value, Cleared, Power;
    var ones := Narrowed(p.ones);
    var size := Size(ones);
    MaskedPrefix(p);
    MaskToBytes(Base(p), 4, ones);
    MaskToBytes(Base(p) + k, 4, ones);
    ClearedRange(Value(p.ip), size, k);
    SizeBound(p);
    AddressesApart(Base(p), 0, size);
  }

  lemma Counted(v: nat, k: nat)
    ensures Successor(ToBytes(v + k, 4)) == ToBytes(v + (k + 1), 4)
  {
    SuccessorOf(v + k, 4);
  }

  // ---- The list ----

  /** `hosts` followed by what is new in `more`. */
  function AddNew(hosts: seq<Address>, more: seq<Address>): seq<Address> {
    if more == [] then hosts
    else
      var before := AddNew(hosts, more[..|more| - 1]);
      var last := more[|more| - 1];
      if last in before then before else before + [last]
  }

  ghost function AllHosts(prefixes: seq<Prefix>): seq<Address>
    requires forall p :: p in prefixes ==> IsPrefix(p)
  {
    if prefixes == [] then []
    else AddNew(AllHosts(prefixes[..|prefixes| - 1]), Hosts(prefixes[|prefixes| - 1]))
  }

  method AddHosts(p: Prefix, listed: seq<Address>, known: set<Address>)
    returns (hosts: seq<Address>, seen: set<Address>)
    requires IsPrefix(p) && known == (set h | h in listed)
    ensures hosts == AddNew(listed, Hosts(p)) && seen == (set h | h in hosts)
  {
    hide Mask, ToBytes, Successor, Contains, Base, Size, AddNew, Hosts, Value, Cleared;
    hosts, seen := listed, known;
    var ones := if 32 - p.ones > 10 then 24 else p.ones;
    var net := Mask(p.ip, ones);
    var host := new byte[4](i requires 0 <= i < 4 => net[i]);
    ghost var size, k := Size(ones), 0;
    MaskedPrefix(p);
    assert host[..] == net == ToBytes(Base(p) + 0, 4);
    NoHosts(p, listed);
    ContainsIff(p, 0);
    while Contains(net, ones, host[..])
      invariant k <= size && host[..] == ToBytes(Base(p) + k, 4)
      invariant Contains(net, ones, host[..]) <==> k < size
      invariant |Hosts(p)| == size && hosts == AddNew(listed, Hosts(p)[..k])
      invariant seen == (set h | h in hosts)
      decreases size - k
    {
      var h := host[..];
      HostAt(p, k, listed);
      if h !in seen {
        seen := seen + {h};
        hosts := hosts + [h];
      }
      Inc(host);
      Counted(Base(p), k);
      k := k + 1;
      ContainsIff(p, k);
    }
    assert Hosts(p)[..size] == Hosts(p);
  }

  lemma NoHosts(p: Prefix, listed: seq<Address>)
    requires IsPrefix(p)
    ensures |Hosts(p)| == Size(Narrowed(p.ones)) && AddNew(listed, Hosts(p)[..0]) == listed
  {
  }

  lemma HostAt(p: Prefix, k: nat, listed: seq<Address>)
    requires IsPrefix(p) && k < Size(Narrowed(p.ones)) == |Hosts(p)|
    ensures var before, h := AddNew(listed, Hosts(p)[..k]), ToBytes(Base(p) + k, 4);
            AddNew(listed, Hosts(p)[..k + 1]) == if h in before then before else before + [h]
  {
    hide Base, ToBytes;
    var more := Hosts(p)[..k + 1];
    assert more[..|more| - 1] == Hosts(p)[..k] && more[k] == ToBytes(Base(p) + k, 4);
  }

  /** One address per interface, as its four bytes; the loop over the interfaces' IPv4
      prefixes. */
  method LocalSubnetHosts(prefixes: seq<Prefix>) returns (hosts: seq<Address>)
    requires forall p :: p in prefixes ==> IsPrefix(p)
    ensures hosts == AllHosts(prefixes)
  {
    hide AddNew, Hosts;
    var seen: set<Address>;
    hosts, seen := [], {};
    for i := 0 to |prefixes|
      invariant hosts == AllHosts(prefixes[..i])
      invariant seen == set h | h in hosts
    {
      assert prefixes[..i + 1][..i] == prefixes[..i];
      hosts, seen := AddHosts(prefixes[i], hosts, seen);
    }
    assert prefixes[..|prefixes|] == prefixes;
  }

  /** What a prefix contributes: every address of its subnet, narrowed to a /24 when it
      is larger than 1024, from the first to the last, each once, among them the local
      address itself. */
  lemma SubnetIsListed(p: Prefix, a: Address)
    requires IsPrefix(p) && |a| == 4
    ensures |Hosts(p)| == Size(Narrowed(p.ones)) <= 1024
    ensures forall i, j :: 0 <= i < j < |Hosts(p)| ==> Hosts(p)[i] != Hosts(p)[j]
    ensures a in Hosts(p) <==> Contains(p.ip, Narrowed(p.ones), a)
    ensures p.ip in Hosts(p)
  {
    hide Mask, ToBytes, Value, Cleared, Power, Contains, Base;
    SizeBound(p);
    forall i, j | 0 <= i < j < |Hosts(p)|
      ensures Hosts(p)[i] != Hosts(p)[j]
    {
      AddressesApart(Base(p), i, j);
    }
    InSubnetIff(p, a);
    InSubnetIff(p, p.ip);
    assert Contains(p.ip, Narrowed(p.ones), p.ip) by { ContainsSelf(p.ip, Narrowed(p.ones)); }
  }

  lemma ContainsSelf(a: Address, ones: nat)
    ensures Contains(a, ones, a)
  {
  }

  lemma InSubnetIff(p: Prefix, a: Address)
    requires IsPrefix(p) && |a| == 4
    ensures a in Hosts(p) <==> Contains(p.ip, Narrowed(p.ones), a)
  {
    hide ToBytes, Value, Cleared, Power, Mask;
    var ones := Narrowed(p.ones);
    var size := Size(ones);
    MaskedPrefix(p);
    MaskIdempotent(p, ones);
    if a in Hosts(p) {
      var k :| 0 <= k < size && Hosts(p)[k] == a;
      ContainsIff(p, k);
    }
    if Contains(p.ip, ones, a) {
      var k := Offset(p, a);
      assert Hosts(p)[k] == a;
    }
  }

  lemma MaskIdempotent(p: Prefix, ones: nat)
    requires IsPrefix(p) && ones == Narrowed(p.ones)
    ensures Mask(Mask(p.ip, ones), ones) == Mask(p.ip, ones)
  {
    hide ToBytes, Value, Cleared, Power, Mask;
    MaskedPrefix(p);
    MaskToBytes(Base(p), 4, ones);
    ClearedRange(Value(p.ip), Size(ones), 0);
  }

  /** Where an address of the subnet stands in the list. */
  lemma Offset(p: Prefix, a: Address) returns (k: nat)
    requires IsPrefix(p) && |a| == 4 && Contains(p.ip, Narrowed(p.ones), a)
    ensures k < Size(Narrowed(p.ones)) && a == ToBytes(Base(p) + k, 4)
  {
    hide ToBytes, Value, Power, Mask, Cleared;
    var ones := Narrowed(p.ones);
    var size, v := Size(ones), Value(a);
    ValueToBytes(a);
    FourBytes(a);
    FourBytes(p.ip);
    MaskedPrefix(p);
    MaskToBytes(v, 4, ones);
    ClearedBelow(v, size);
    ClearedBelow(Value(p.ip), size);
    SameAddress(Base(p), Cleared(v, size));
    k := v - Cleared(v, size);
  }

  lemma ClearedBelow(v: nat, p: nat)
    requires p > 0
    ensures Cleared(v, p) <= v < Cleared(v, p) + p
  {
  }

  lemma SameAddress(x: nat, y: nat)
    requires x < ADDRESSES && y < ADDRESSES && ToBytes(x, 4) == ToBytes(y, 4)
    ensures x == y
  {
    hide ToBytes, Value;
    FourByteValue(x);
    FourByteValue(y);
  }

  lemma {:induction false} AddNewKeeps(hosts: seq<Address>, more: seq<Address>)
    requires forall i, j :: 0 <= i < j < |hosts| ==> hosts[i] != hosts[j]
    ensures var all := AddNew(hosts, more);
            && hosts <= all
            && (forall i, j :: 0 <= i < j < |all| ==> all[i] != all[j])
            && (forall a :: a in all <==> a in hosts || a in more)
  {
    if more != [] {
      AddNewKeeps(hosts, more[..|more| - 1]);
      assert more == more[..|more| - 1] + [more[|more| - 1]];
    }
  }

  /** An address is probed exactly when some local subnet contains it, and only once. */
  lemma {:induction false} ProbedOnce(prefixes: seq<Prefix>, a: Address)
    requires forall p :: p in prefixes ==> IsPrefix(p)
    requires |a| == 4
    ensures var all := AllHosts(prefixes);
            && (forall i, j :: 0 <= i < j < |all| ==> all[i] != all[j])
            && (a in all <==> exists p :: p in prefixes && Contains(p.ip, Narrowed(p.ones), a))
  {
    hide AddNew, Hosts, Contains;
    if prefixes != [] {
      var init, last := prefixes[..|prefixes| - 1], prefixes[|prefixes| - 1];
      assert prefixes == init + [last];
      ProbedOnce(init, a);
      AddNewKeeps(AllHosts(init), Hosts(last));
      InSubnetIff(last, a);
    }
  }
}
