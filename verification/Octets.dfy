/** Byte strings and the big-endian integers shared by the wire format and the
    storage blob.  Every decoder here works on "what is left to read" and returns
    the value together with the remaining bytes. */
module Octets {

  type byte = x: int | 0 <= x < 0x100
  type u16 = x: int | 0 <= x < 0x1_0000
  type u64 = x: int | 0 <= x < 0x1_0000_0000_0000_0000
  type i64 = x: int | -0x8000_0000_0000_0000 <= x < 0x8000_0000_0000_0000

  /** std::vector<uint8_t>, and std::string, which is a byte string too. */
  type Bytes = seq<byte>

  datatype Option<+T> = None | Some(value: T)

  const TWO64: int := 0x1_0000_0000_0000_0000

  // ---- big-endian integers --------------------------------------------------

  /** The low n bytes of v, most significant first. */
  function Be(n: nat, v: nat): (b: Bytes)
    ensures |b| == n
  {
    if n == 0 then [] else Be(n - 1, v / 256) + [v % 256]
  }

  function FromBe(b: Bytes): nat
  {
    if b == [] then 0 else FromBe(b[..|b| - 1]) * 256 + b[|b| - 1]
  }

  function Pow256(n: nat): (p: nat)
    ensures p > 0
  {
    if n == 0 then 1 else 256 * Pow256(n - 1)
  }

  lemma Pow256Values()
    ensures Pow256(1) == 0x100 && Pow256(2) == 0x1_0000
    ensures Pow256(4) == 0x1_0000_0000 && Pow256(8) == TWO64
  {
    assert Pow256(4) == 256 * (256 * Pow256(2));
    assert Pow256(6) == 256 * (256 * Pow256(4));
    assert Pow256(8) == 256 * (256 * Pow256(6));
  }

  lemma {:induction false} FromBeOfBe(n: nat, v: nat)
    requires v < Pow256(n)
    ensures FromBe(Be(n, v)) == v
  {
    if n > 0 {
      FromBeOfBe(n - 1, v / 256);
      assert Be(n, v)[..n - 1] == Be(n - 1, v / 256);
    }
  }

  lemma {:induction false} BeOfFromBe(b: Bytes)
    ensures FromBe(b) < Pow256(|b|)
    ensures Be(|b|, FromBe(b)) == b
  {
    if b != [] {
      var front := b[..|b| - 1];
      BeOfFromBe(front);
      assert FromBe(b) / 256 == FromBe(front);
      assert front + [b[|b| - 1]] == b;
    }
  }

  /** v >> 8*k. */
  function Shr8(v: nat, k: nat): nat
  {
    if k == 0 then v else Shr8(v, k - 1) / 256
  }

  lemma {:induction false} Shr8Again(v: nat, k: nat)
    ensures Shr8(v / 256, k) == Shr8(v, k + 1)
  {
    if k > 0 { Shr8Again(v, k - 1); }
  }

  /** Byte i of a big-endian integer: v shifted right so that it comes last. */
  lemma {:induction false} BeAt(n: nat, v: nat, i: nat)
    requires i < n
    ensures Be(n, v)[i] == Shr8(v, n - 1 - i) % 256
  {
    if i < n - 1 {
      BeAt(n - 1, v / 256, i);
      Shr8Again(v, n - 2 - i);
    }
  }

  /** The shift loop of put_u16 / put_u32 / put_u64: one byte per round, the
      highest first. */
  method PutUint(out: Bytes, n: nat, v: nat) returns (r: Bytes)
    ensures r == out + Be(n, v)
  {
    r := out;
    var k := n;
    while k > 0
      invariant 0 <= k <= n
      invariant r == out + Be(n - k, Shr8(v, k))
    {
      k := k - 1;
      r := r + [Shr8(v, k) % 256];
    }
  }

  /** The accumulate loop of get_u16 / get_u64 and of Reader::u32 / u64. */
  method GetUint(b: Bytes, off: nat, n: nat) returns (v: nat)
    requires off + n <= |b|
    ensures v == FromBe(b[off..off + n])
  {
    v := 0;
    for i := 0 to n
      invariant v == FromBe(b[off..off + i])
    {
      assert b[off..off + i + 1][..i] == b[off..off + i];
      v := v * 256 + b[off + i];
    }
  }

  lemma Assoc(a: Bytes, b: Bytes, c: Bytes)
    ensures (a + b) + c == a + (b + c)
  {
  }

  // ---- decoders over the remaining bytes ------------------------------------

  function TakeUint(n: nat, b: Bytes): Option<(nat, Bytes)>
  {
    if |b| < n then None else Some((FromBe(b[..n]), b[n..]))
  }

  lemma TakeUintOfBe(n: nat, v: nat, rest: Bytes)
    requires v < Pow256(n)
    ensures TakeUint(n, Be(n, v) + rest) == Some((v, rest))
  {
    FromBeOfBe(n, v);
    assert (Be(n, v) + rest)[..n] == Be(n, v);
    assert (Be(n, v) + rest)[n..] == rest;
  }

  lemma BeOfTakeUint(n: nat, b: Bytes)
    requires TakeUint(n, b).Some?
    ensures var (v, rest) := TakeUint(n, b).value; v < Pow256(n) && b == Be(n, v) + rest
  {
    BeOfFromBe(b[..n]);
    assert b == b[..n] + b[n..];
  }

  /** put_field / put_bytes / put_str: a u16 length, then the bytes.  The length
      is cast to 16 bits, so an oversized field gets a wrong prefix. */
  function Field(f: Bytes): (b: Bytes)
    ensures |b| == 2 + |f|
  {
    Be(2, |f|) + f
  }

  predicate FitsField(f: Bytes) { |f| < 0x1_0000 }

  /** read_field / Reader::bytes / Reader::str. */
  function TakeField(b: Bytes): Option<(Bytes, Bytes)>
  {
    match TakeUint(2, b)
    case None => None
    case Some((n, rest)) => if |rest| < n then None else Some((rest[..n], rest[n..]))
  }

  lemma TakeFieldOfField(f: Bytes, rest: Bytes)
    requires FitsField(f)
    ensures TakeField(Field(f) + rest) == Some((f, rest))
  {
    Pow256Values();
    assert Field(f) + rest == Be(2, |f|) + (f + rest);
    TakeUintOfBe(2, |f|, f + rest);
  }

  /** The length prefix of an oversized field is cut to 16 bits, so the reader stops
      short of the field's end. */
  lemma TakeFieldOfOversized(f: Bytes, rest: Bytes)
    requires !FitsField(f)
    ensures var n := |f| % 0x1_0000; TakeField(Field(f) + rest) == Some((f[..n], f[n..] + rest))
  {
    var n, b := |f| % 0x1_0000, Field(f) + rest;
    assert b[..2] == Be(2, |f|);
    LowBytes(|f|);
    assert b[2..] == f + rest;
    assert (f + rest)[..n] == f[..n] && (f + rest)[n..] == f[n..] + rest;
  }

  lemma LowBytes(v: nat)
    ensures FromBe(Be(2, v)) == v % 0x1_0000
  {
    var hi, lo := v / 256 % 256, v % 256;
    assert Be(1, v / 256) == Be(0, v / 256 / 256) + [hi] == [hi];
    assert Be(2, v) == [hi, lo];
    assert [hi][..0] == [] && FromBe([hi]) == hi;
    assert [hi, lo][..1] == [hi];
  }

  lemma FieldOfTakeField(b: Bytes)
    requires TakeField(b).Some?
    ensures var (f, rest) := TakeField(b).value; FitsField(f) && b == Field(f) + rest
  {
    Pow256Values();
    BeOfTakeUint(2, b);
    var (n, r) := TakeUint(2, b).value;
    assert r == r[..n] + r[n..];
    assert b == Be(2, n) + (r[..n] + r[n..]);
  }

  /** A field cut short is never read as a field; one that is whole leaves the
      same cut of what follows. */
  lemma TakeFieldOfPrefix(f: Bytes, rest: Bytes, k: nat)
    requires FitsField(f) && k <= |Field(f) + rest|
    ensures TakeField((Field(f) + rest)[..k]) ==
            if k < |Field(f)| then None else Some((f, rest[..k - |Field(f)|]))
  {
    var cut := (Field(f) + rest)[..k];
    if k < |Field(f)| {
      if k >= 2 {
        Pow256Values();
        FromBeOfBe(2, |f|);
        assert cut[..2] == Be(2, |f|);
      }
    } else {
      assert cut == Field(f) + rest[..k - |Field(f)|];
      TakeFieldOfField(f, rest[..k - |Field(f)|]);
    }
  }
}
