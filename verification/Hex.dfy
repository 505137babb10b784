/** Lowercase hex, used to key maps by public key. */
module HexKeys {
  import opened Octets

  const DIGITS: string := "0123456789abcdef"

  function Hex(b: Bytes): (h: string)
    ensures |h| == 2 * |b|
  {
    if b == [] then "" else
      var last := b[|b| - 1];
      Hex(b[..|b| - 1]) + [DIGITS[last / 16], DIGITS[last % 16]]
  }

  method ToHex(b: Bytes) returns (h: string)
    ensures h == Hex(b)
  {
    h := "";
    for i := 0 to |b|
      invariant h == Hex(b[..i])
    {
      assert b[..i + 1][..i] == b[..i];
      h := h + [DIGITS[b[i] / 16]];
      h := h + [DIGITS[b[i] % 16]];
    }
    assert b[..|b|] == b;
  }

  lemma DigitsDistinct(i: nat, j: nat)
    requires i < 16 && j < 16 && DIGITS[i] == DIGITS[j]
    ensures i == j
  {
  }

  lemma HexSplits(b: Bytes)
    requires b != []
    ensures var n := |b| - 1; Hex(b) == Hex(b[..n]) + [DIGITS[b[n] / 16], DIGITS[b[n] % 16]]
  {
  }

  lemma LastDigits(b: Bytes)
    requires b != []
    ensures var n := |b| - 1;
            && Hex(b)[..2 * n] == Hex(b[..n])
            && Hex(b)[2 * n] == DIGITS[b[n] / 16] && Hex(b)[2 * n + 1] == DIGITS[b[n] % 16]
  {
    var n := |b| - 1;
    HexSplits(b);
    hide Hex;
    var h := Hex(b[..n]);
    assert |h| == 2 * n;
  }

  /** Two lowercase digits per byte, high digit first, in order. */
  lemma {:induction false} HexDigits(b: Bytes, i: nat)
    requires i < |b|
    ensures Hex(b)[2 * i] == DIGITS[b[i] / 16] && Hex(b)[2 * i + 1] == DIGITS[b[i] % 16]
  {
    LastDigits(b);
    var n := |b| - 1;
    if i < n {
      HexDigits(b[..n], i);
      hide Hex;
      assert Hex(b)[2 * i] == Hex(b)[..2 * n][2 * i] && Hex(b)[2 * i + 1] == Hex(b)[..2 * n][2 * i + 1];
    }
  }

  lemma {:induction false} HexInjective(a: Bytes, b: Bytes)
    requires Hex(a) == Hex(b)
    ensures a == b
  {
    hide Hex;
    if a == [] {
      assert |a| == |b|;
    } else {
      var n := |a| - 1;
      LastDigits(a);
      LastDigits(b);
      DigitsDistinct(a[n] / 16, b[n] / 16);
      DigitsDistinct(a[n] % 16, b[n] % 16);
      HexInjective(a[..n], b[..n]);
      assert a == a[..n] + [a[n]] && b == b[..n] + [b[n]];
    }
  }

  /** A map keyed by Hex(peer) is a map keyed by peer. */
  lemma HexKeysAreFaithful()
    ensures forall a: Bytes, b: Bytes :: Hex(a) == Hex(b) ==> a == b
  {
    forall a: Bytes, b: Bytes | Hex(a) == Hex(b)
      ensures a == b
    {
      HexInjective(a, b);
    }
  }
}
