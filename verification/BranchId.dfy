/** The id of a branch revision: the seed `branch_and_resolve` builds, and `rev_hash` over it. */
module BranchId {
  import opened RevTree

  const TWO_64: nat := 0x1_0000_0000_0000_0000
  const FNV_OFFSET: nat := 0xcbf2_9ce4_8422_2325
  const FNV_PRIME: nat := 0x100_0000_01b3

  type I64 = x: int | -0x8000_0000_0000_0000 <= x < 0x8000_0000_0000_0000

  // ---- digits ----

  function Pow16(n: nat): nat {
    if n == 0 then 1 else 16 * Pow16(n - 1)
  }

  /** `n` hexadecimal digits of `u`, most significant first. */
  function Hex(u: nat, n: nat): (ds: seq<nat>)
    ensures |ds| == n && forall i :: 0 <= i < n ==> ds[i] < 16
  {
    if n == 0 then [] else Hex(u / 16, n - 1) + [u % 16]
  }

  lemma {:induction false} HexInjective(u: nat, v: nat, n: nat)
    requires u < Pow16(n) && v < Pow16(n) && Hex(u, n) == Hex(v, n)
    ensures u == v
  {
    if n > 0 {
      var du, dv := Hex(u, n), Hex(v, n);
      assert du[n - 1] == u % 16 && dv[n - 1] == v % 16;
      assert Hex(u / 16, n - 1) == du[..n - 1] == dv[..n - 1] == Hex(v / 16, n - 1);
      HexInjective(u / 16, v / 16, n - 1);
    }
  }

  /** `{h:016x}`, as digit values. */
  function Hex16(h: nat): (ds: seq<nat>)
    ensures |ds| == 16 && forall i :: 0 <= i < 16 ==> ds[i] < 16
  {
    Hex(h, 16)
  }

  lemma Hex16Injective(u: nat, v: nat)
    requires u < TWO_64 && v < TWO_64 && Hex16(u) == Hex16(v)
    ensures u == v
  {
    assert Pow16(4) == 0x1_0000;
    assert Pow16(8) == 0x1_0000_0000;
    assert Pow16(12) == 0x1_0000_0000_0000;
    assert Pow16(16) == TWO_64;
    HexInjective(u, v, 16);
  }

  // ---- the seed ----

  /** Two's complement. */
  function Unsigned(m: I64): (u: nat)
    ensures u < TWO_64
  {
    if m < 0 then m + TWO_64 else m
  }

  /** `to_be_bytes`: eight bytes of two hexadecimal digits each. */
  function BigEndian(m: I64): (bs: Bytes)
    ensures |bs| == 8
  {
    var ds := Hex16(Unsigned(m));
    seq(8, i requires 0 <= i < 8 => (16 * ds[2 * i] + ds[2 * i + 1]) as byte)
  }

  /** A missing base revision contributes nothing. */
  function Seed(base: Option<Bytes>, deleted: bool, mtime: I64, content: Bytes): Bytes {
    (if base.Some? then base.value else []) + [0] + [if deleted then 1 else 0] + BigEndian(mtime) + content
  }

  lemma BigEndianInjective(m: I64, n: I64)
    requires BigEndian(m) == BigEndian(n)
    ensures m == n
  {
    var dm, dn := Hex16(Unsigned(m)), Hex16(Unsigned(n));
    forall k | 0 <= k < 16 ensures dm[k] == dn[k] {
      var i := k / 2;
      assert BigEndian(m)[i] as int == 16 * dm[2 * i] + dm[2 * i + 1];
      assert BigEndian(n)[i] as int == 16 * dn[2 * i] + dn[2 * i + 1];
    }
    Hex16Injective(Unsigned(m), Unsigned(n));
  }

  function Text(base: Option<Bytes>): Bytes {
    if base.Some? then base.value else []
  }

  /** The first NUL ends the base revision. */
  lemma BaseEnds(a: Bytes, b: Bytes, restA: Bytes, restB: Bytes)
    requires 0 !in a && 0 !in b && a + [0] + restA == b + [0] + restB
    ensures a == b && restA == restB
  {
    var s := a + [0] + restA;
    assert s == b + [0] + restB;
    assert s[|a|] == 0 && s[|b|] == 0;
    assert forall i :: 0 <= i < |a| ==> s[i] == a[i] && s[i] != 0;
    assert forall i :: 0 <= i < |b| ==> s[i] == b[i] && s[i] != 0;
    assert |a| == |b|;
    assert s[..|a|] == a && s[..|b|] == b;
    assert s[|a| + 1..] == restA && s[|b| + 1..] == restB;
  }

  /** The seed determines base revision, deletion, mtime and content, as long as revision names are
      NUL-free; a missing base is the empty name. */
  lemma SeedInjective(base: Option<Bytes>, deleted: bool, mtime: I64, content: Bytes,
                      base': Option<Bytes>, deleted': bool, mtime': I64, content': Bytes)
    requires 0 !in Text(base) && 0 !in Text(base')
    requires Seed(base, deleted, mtime, content) == Seed(base', deleted', mtime', content')
    ensures Text(base) == Text(base') && deleted == deleted' && mtime == mtime' && content == content'
  {
    var flag: byte, flag': byte := if deleted then 1 else 0, if deleted' then 1 else 0;
    var rest, rest' := [flag] + BigEndian(mtime) + content, [flag'] + BigEndian(mtime') + content';
    assert Seed(base, deleted, mtime, content) == Text(base) + [0] + rest;
    assert Seed(base', deleted', mtime', content') == Text(base') + [0] + rest';
    BaseEnds(Text(base), Text(base'), rest, rest');
    assert rest[0] == flag && rest'[0] == flag';
    assert rest[1..9] == BigEndian(mtime) && rest'[1..9] == BigEndian(mtime');
    assert rest[9..] == content && rest'[9..] == content';
    BigEndianInjective(mtime, mtime');
  }

  // ---- FNV-1a ----

  /** Exclusive or of the low `n` bits. */
  function XorBits(x: nat, y: nat, n: nat): nat {
    if n == 0 then 0 else (if x % 2 == y % 2 then 0 else 1) + 2 * XorBits(x / 2, y / 2, n - 1)
  }

  function Pow2(n: nat): nat {
    if n == 0 then 1 else 2 * Pow2(n - 1)
  }

  lemma {:induction false} XorBelow(x: nat, y: nat, n: nat)
    ensures XorBits(x, y, n) < Pow2(n)
  {
    if n > 0 {
      XorBelow(x / 2, y / 2, n - 1);
    }
  }

  lemma {:induction false} XorInjective(x: nat, y: nat, y': nat, n: nat)
    requires y < Pow2(n) && y' < Pow2(n)
    ensures XorBits(x, y, n) == XorBits(x, y', n) ==> y == y'
    ensures XorBits(y, x, n) == XorBits(y', x, n) ==> y == y'
  {
    if n > 0 {
      XorInjective(x / 2, y / 2, y' / 2, n - 1);
    }
  }

  function Xor(x: byte, y: byte): byte {
    assert Pow2(4) == 16;
    assert Pow2(8) == 256;
    XorBelow(x as int, y as int, 8);
    XorBits(x as int, y as int, 8) as byte
  }

  /** `h ^= b; h = h.wrapping_mul(prime)`: only the low byte takes part in the exclusive or. */
  function Mixed(h: nat, b: byte): (m: nat)
    requires h < TWO_64
    ensures m < TWO_64
  {
    h - h % 256 + Xor((h % 256) as byte, b) as int
  }

  function Round(h: nat, b: byte): (r: nat)
    requires h < TWO_64
    ensures r < TWO_64
  {
    Mixed(h, b) * FNV_PRIME % TWO_64
  }

  function Fnv(s: Bytes): (h: nat)
    ensures h < TWO_64
  {
    if s == [] then FNV_OFFSET else Round(Fnv(s[..|s| - 1]), s[|s| - 1])
  }

  /** `rev_hash`, before formatting. */
  method RevHash(input: Bytes) returns (h: nat)
    ensures h == Fnv(input) && h < TWO_64
  {
    h := FNV_OFFSET;
    for i := 0 to |input|
      invariant h == Fnv(input[..i])
    {
      assert input[..i + 1][..i] == input[..i];
      h := Round(h, input[i]);
    }
    assert input[..|input|] == input;
  }

  lemma MixedInjective(h: nat, h': nat, b: byte, b': byte)
    requires h < TWO_64 && h' < TWO_64 && Mixed(h, b) == Mixed(h', b')
    ensures h == h' ==> b == b'
    ensures b == b' ==> h == h'
  {
    var lo, lo' := (h % 256) as byte, (h' % 256) as byte;
    var x, x' := Xor(lo, b), Xor(lo', b');
    assert Mixed(h, b) == 256 * (h / 256) + x as int && Mixed(h', b') == 256 * (h' / 256) + x' as int;
    assert x == x' && h / 256 == h' / 256;
    assert Pow2(4) == 16;
    assert Pow2(8) == 256;
    XorInjective(lo as int, b as int, b' as int, 8);
    XorInjective(b as int, lo as int, lo' as int, 8);
  }

  const FNV_INVERSE: nat := 0xce96_5057_aff6_957b
  const FNV_CARRY: nat := 0xce_9650_590f

  /** The prime is odd, so multiplying by it loses nothing modulo 2^64. */
  lemma PrimeInjective(x: nat, y: nat)
    requires x < TWO_64 && y < TWO_64 && x * FNV_PRIME % TWO_64 == y * FNV_PRIME % TWO_64
    ensures x == y
  {
    var qx, qy := x * FNV_PRIME / TWO_64, y * FNV_PRIME / TWO_64;
    var d := x - y;
    assert d * FNV_PRIME == (qx - qy) * TWO_64;
    assert FNV_PRIME * FNV_INVERSE == FNV_CARRY * TWO_64 + 1;
    calc {
      (qx - qy) * TWO_64 * FNV_INVERSE;
      d * FNV_PRIME * FNV_INVERSE;
      d * (FNV_CARRY * TWO_64 + 1);
      d * FNV_CARRY * TWO_64 + d;
    }
    var m := (qx - qy) * FNV_INVERSE - d * FNV_CARRY;
    assert d == m * TWO_64;
    assert m == 0;
  }

  /** Each round is injective in the state and in the byte. */
  lemma RoundInjective(h: nat, h': nat, b: byte, b': byte)
    requires h < TWO_64 && h' < TWO_64 && Round(h, b) == Round(h', b')
    ensures h == h' ==> b == b'
    ensures b == b' ==> h == h'
  {
    PrimeInjective(Mixed(h, b), Mixed(h', b'));
    MixedInjective(h, h', b, b');
  }

  lemma {:induction false} OneByteChangesHash(s: Bytes, s': Bytes, k: nat)
    requires |s| == |s'| && k < |s| && s[k] != s'[k]
    requires forall i :: 0 <= i < |s| && i != k ==> s[i] == s'[i]
    ensures Fnv(s) != Fnv(s')
  {
    var last := |s| - 1;
    if k == last {
      assert s[..last] == s'[..last];
    } else {
      OneByteChangesHash(s[..last], s'[..last], k);
    }
    if Fnv(s) == Fnv(s') {
      RoundInjective(Fnv(s[..last]), Fnv(s'[..last]), s[last], s'[last]);
    }
  }

  /** Seeds that differ in exactly one byte never get the same 16-digit branch id. */
  lemma OneByteChangesId(s: Bytes, s': Bytes, k: nat)
    requires |s| == |s'| && k < |s| && s[k] != s'[k]
    requires forall i :: 0 <= i < |s| && i != k ==> s[i] == s'[i]
    ensures Hex16(Fnv(s)) != Hex16(Fnv(s'))
  {
    OneByteChangesHash(s, s', k);
    if Hex16(Fnv(s)) == Hex16(Fnv(s')) {
      Hex16Injective(Fnv(s), Fnv(s'));
    }
  }

  // ---- the values, not only their differences ----

  function Bit(x: nat, k: nat): nat {
    if k == 0 then x % 2 else Bit(x / 2, k - 1)
  }

  /** Bit by bit, the exclusive or. */
  lemma {:induction false} XorIsBitwise(x: nat, y: nat, n: nat, k: nat)
    requires k < n
    ensures Bit(XorBits(x, y, n), k) == (Bit(x, k) + Bit(y, k)) % 2
  {
    var rest := XorBits(x / 2, y / 2, n - 1);
    assert XorBits(x, y, n) / 2 == rest;
    if k > 0 {
      XorIsBitwise(x / 2, y / 2, n - 1, k - 1);
    }
  }

  /** The number `ds` writes in `base`, most significant digit first. */
  function Value(ds: seq<nat>, base: nat): nat {
    if ds == [] then 0 else Value(ds[..|ds| - 1], base) * base + ds[|ds| - 1]
  }

  lemma {:induction false} HexIsValue(u: nat, n: nat)
    requires u < Pow16(n)
    ensures Value(Hex(u, n), 16) == u
  {
    if n > 0 {
      var ds := Hex(u, n);
      assert ds[..n - 1] == Hex(u / 16, n - 1);
      HexIsValue(u / 16, n - 1);
    }
  }

  /** `{h:016x}` writes `h`. */
  lemma Hex16IsValue(h: nat)
    requires h < TWO_64
    ensures Value(Hex16(h), 16) == h
  {
    assert Pow16(4) == 0x1_0000;
    assert Pow16(8) == 0x1_0000_0000;
    assert Pow16(12) == 0x1_0000_0000_0000;
    assert Pow16(16) == TWO_64;
    HexIsValue(h, 16);
  }

  function Pairs(ds: seq<nat>): (ps: seq<nat>)
    requires |ds| % 2 == 0
    ensures |ps| == |ds| / 2 && forall i :: 0 <= i < |ps| ==> ps[i] == 16 * ds[2 * i] + ds[2 * i + 1]
  {
    seq(|ds| / 2, i requires 0 <= i < |ds| / 2 => 16 * ds[2 * i] + ds[2 * i + 1])
  }

  lemma {:induction false} PairsKeepValue(ds: seq<nat>)
    requires |ds| % 2 == 0
    ensures Value(Pairs(ds), 256) == Value(ds, 16)
  {
    var n := |ds|;
    if n > 0 {
      var ps := Pairs(ds);
      assert ps[..|ps| - 1] == Pairs(ds[..n - 2]);
      assert ds[..n - 1][..n - 2] == ds[..n - 2];
      PairsKeepValue(ds[..n - 2]);
    }
  }

  function Nats(bs: Bytes): (ns: seq<nat>)
    ensures |ns| == |bs| && forall i :: 0 <= i < |bs| ==> ns[i] == bs[i] as nat
  {
    seq(|bs|, i requires 0 <= i < |bs| => bs[i] as nat)
  }

  /** `to_be_bytes` writes the number in two's complement. */
  lemma BigEndianIsValue(m: I64)
    ensures Value(Nats(BigEndian(m)), 256) == if m < 0 then m + 0x1_0000_0000_0000_0000 else m
  {
    var ds := Hex16(Unsigned(m));
    Hex16IsValue(Unsigned(m));
    PairsKeepValue(ds);
    assert Nats(BigEndian(m)) == Pairs(ds);
  }

  lemma XorOf25And61()
    ensures Xor(0x25, 0x61) == 0x44
  {
    assert XorBits(0, 0, 1) == 0;
    assert XorBits(0, 1, 2) == 1;
    assert XorBits(1, 3, 3) == 2;
    assert XorBits(2, 6, 4) == 4;
    assert XorBits(4, 12, 5) == 8;
    assert XorBits(9, 24, 6) == 17;
    assert XorBits(18, 48, 7) == 34;
    assert XorBits(37, 97, 8) == 68;
  }

  lemma FirstRound()
    ensures Round(0xcbf2_9ce4_8422_2325, 0x61) == 0xaf63_dc4c_8601_ec8c
  {
    XorOf25And61();
    assert 0xcbf2_9ce4_8422_2325 % 256 == 0x25;
    assert Mixed(0xcbf2_9ce4_8422_2325, 0x61) == 0xcbf2_9ce4_8422_2344;
    assert 0xcbf2_9ce4_8422_2344 * 0x100_0000_01b3 == 0xcb_f29c_e5de * 0x1_0000_0000_0000_0000 + 0xaf63_dc4c_8601_ec8c;
  }

  lemma OneRound(s: Bytes)
    requires |s| == 1
    ensures Fnv(s) == Round(0xcbf2_9ce4_8422_2325, s[0])
  {
    assert s[..0] == [];
  }

  /** The published hashes of the empty input and of "a". */
  lemma KnownHashes(s: Bytes)
    ensures s == [] ==> Fnv(s) == 0xcbf2_9ce4_8422_2325
    ensures s == [0x61] ==> Fnv(s) == 0xaf63_dc4c_8601_ec8c
  {
    if s == [0x61] {
      OneRound(s);
      FirstRound();
    }
  }
}
