/** Fixed-width unsigned integers and their little-endian byte encodings,
    as `encoding/binary` reads and writes them. */
module Bytes {
  type byte = x: int | 0 <= x < 0x100
  type uint16 = x: int | 0 <= x < 0x1_0000
  type uint32 = x: int | 0 <= x < 0x1_0000_0000
  type uint64 = x: int | 0 <= x < 0x1_0000_0000_0000_0000

  function GetU16(b: seq<byte>): (n: uint16)
    requires |b| == 2
  {
    b[0] as int + 0x100 * b[1] as int
  }

  function PutU16(n: uint16): (b: seq<byte>)
    ensures |b| == 2 && GetU16(b) == n
  {
    [n % 0x100, n / 0x100]
  }

  function GetU32(b: seq<byte>): (n: uint32)
    requires |b| == 4
  {
    b[0] as int + 0x100 * b[1] as int + 0x1_0000 * b[2] as int + 0x100_0000 * b[3] as int
  }

  function PutU32(n: uint32): (b: seq<byte>)
    ensures |b| == 4 && GetU32(b) == n
  {
    var n1 := n / 0x100;
    var n2 := n1 / 0x100;
    [n % 0x100, n1 % 0x100, n2 % 0x100, n2 / 0x100]
  }

  function GetU64(b: seq<byte>): (n: uint64)
    requires |b| == 8
  {
    GetU32(b[..4]) as int + 0x1_0000_0000 * GetU32(b[4..]) as int
  }

  function PutU64(n: uint64): (b: seq<byte>)
    ensures |b| == 8 && GetU64(b) == n
  {
    var b := PutU32(n % 0x1_0000_0000) + PutU32(n / 0x1_0000_0000);
    assert b[..4] == PutU32(n % 0x1_0000_0000) && b[4..] == PutU32(n / 0x1_0000_0000);
    b
  }

  // ---- What the bytes mean ----

  /** The bytes from `at` on spell `n`, low byte first. */
  predicate Spells16(b: seq<byte>, at: nat, n: uint16) {
    at + 2 <= |b| && n as int == b[at] as int + 0x100 * b[at + 1] as int
  }

  predicate Spells32(b: seq<byte>, at: nat, n: uint32) {
    at + 4 <= |b| && n as int == b[at] as int + 0x100 * b[at + 1] as int
                                 + 0x1_0000 * b[at + 2] as int + 0x100_0000 * b[at + 3] as int
  }

  predicate Spells64(b: seq<byte>, at: nat, n: uint64) {
    at + 8 <= |b|
    && n as int == b[at] as int + 0x100 * b[at + 1] as int
                   + 0x1_0000 * b[at + 2] as int + 0x100_0000 * b[at + 3] as int
                   + 0x1_0000_0000 * b[at + 4] as int + 0x100_0000_0000 * b[at + 5] as int
                   + 0x1_0000_0000_0000 * b[at + 6] as int + 0x100_0000_0000_0000 * b[at + 7] as int
  }

  /** Numbers are written and read low byte first. */
  lemma LittleEndian16(b: seq<byte>, at: nat, n: uint16)
    ensures Spells16(PutU16(n), 0, n)
    ensures at + 2 <= |b| ==> (GetU16(b[at..at + 2]) == n <==> Spells16(b, at, n))
  {
  }

  lemma LittleEndian32(b: seq<byte>, at: nat, n: uint32)
    ensures Spells32(PutU32(n), 0, n)
    ensures at + 4 <= |b| ==> (GetU32(b[at..at + 4]) == n <==> Spells32(b, at, n))
  {
  }

  lemma LittleEndian64(b: seq<byte>, at: nat, n: uint64)
    ensures Spells64(PutU64(n), 0, n)
    ensures at + 8 <= |b| ==> (GetU64(b[at..at + 8]) == n <==> Spells64(b, at, n))
  {
    hide PutU32;
    if at + 8 <= |b| {
      var whole := b[at..at + 8];
      assert whole[..4] == b[at..at + 4] && whole[4..] == b[at + 4..at + 8];
    }
    var p := PutU64(n);
    assert p[..4] == PutU32(n % 0x1_0000_0000) && p[4..] == PutU32(n / 0x1_0000_0000);
    assert p == p[..4] + p[4..];
  }

  /** `total` reduced to 32 bits, as Go's conversion `uint32(total)` does. */
  function Truncate32(total: nat): (n: uint32)
    ensures n == total <==> total < 0x1_0000_0000
    ensures (total - n) % 0x1_0000_0000 == 0
  {
    total % 0x1_0000_0000
  }

  datatype Option<+T> = None | Some(value: T)

  datatype Result<+T, +E> = Ok(value: T) | Err(error: E)

  lemma SliceOfSlice<T>(s: seq<T>, from: nat, to: nat, i: nat, j: nat)
    requires from <= to <= |s| && i <= j <= to - from
    ensures s[from..to][i..j] == s[from + i..from + j]
  {
    forall k | 0 <= k < j - i
      ensures s[from..to][i..j][k] == s[from + i..from + j][k]
    {
      assert s[from..to][i..j][k] == s[from..to][i + k] == s[from + (i + k)];
    }
  }

  /** All the parts, one after another. */
  function Flatten<T>(parts: seq<seq<T>>): seq<T> {
    if parts == [] then [] else parts[0] + Flatten(parts[1..])
  }
}
