/**
 * Document ids: 128-bit UUIDs held as 32 hexadecimal digits (nibbles), most
 * significant first.  `ToStr` is Python's `str(uuid)` (lower-case, hyphens after
 * digits 8, 12, 16 and 20); `Parse` is `uuid.UUID(s)`, and `ForceV4` is what the
 * `version=4` argument of `uuid.UUID` does to the parsed value.
 */
module Uuids {
  import opened Wrappers

  type Nibble = n: nat | n < 16
  type Digits = s: seq<Nibble> | |s| == 32 witness seq(32, _ => 0)

  datatype Uuid = Uuid(digits: Digits)

  const HexAlphabet: string := "0123456789abcdef"

  function HexChar(n: Nibble): char
  {
    HexAlphabet[n]
  }

  /** The value of one hexadecimal digit, in either case. */
  function HexValue(c: char): Option<Nibble>
  {
    if '0' <= c <= '9' then Some(c as int - '0' as int)
    else if 'a' <= c <= 'f' then Some(c as int - 'a' as int + 10)
    else if 'A' <= c <= 'F' then Some(c as int - 'A' as int + 10)
    else None
  }

  predicate IsHexChar(c: char)
  {
    HexValue(c).Some?
  }

  predicate IsLowerHexChar(c: char)
  {
    '0' <= c <= '9' || 'a' <= c <= 'f'
  }

  function Hex(ds: seq<Nibble>): (s: string)
    ensures |s| == |ds|
  {
    seq(|ds|, i requires 0 <= i < |ds| => HexChar(ds[i]))
  }

  /** `x-y`: two groups of digits joined by a hyphen. */
  function Dash(x: string, y: string): string
  {
    x + "-" + y
  }

  function ToStr(u: Uuid): string
  {
    var d := u.digits;
    Dash(Dash(Dash(Dash(Hex(d[..8]), Hex(d[8..12])), Hex(d[12..16])), Hex(d[16..20])), Hex(d[20..]))
  }

  function WithoutHyphens(s: string): string
  {
    if s == [] then []
    else (if s[0] == '-' then [] else [s[0]]) + WithoutHyphens(s[1..])
  }

  /** The nibbles of a string of hexadecimal digits. */
  function DigitsOf(h: string): (ds: seq<Nibble>)
    ensures |ds| == |h|
  {
    seq(|h|, i requires 0 <= i < |h| => HexValue(h[i]).GetOr(0))
  }

  /** `uuid.UUID(s)`: hyphens are dropped, and exactly 32 hexadecimal digits must remain. */
  function Parse(s: string): Option<Uuid>
  {
    var h := WithoutHyphens(s);
    if |h| == 32 && forall i | 0 <= i < 32 :: IsHexChar(h[i]) then
      Some(Uuid(DigitsOf(h)))
    else
      None
  }

  /** The form `str(uuid)` produces. */
  predicate IsCanonical(s: string)
  {
    && |s| == 36
    && (forall i | 0 <= i < 36 :: (i in {8, 13, 18, 23}) == (s[i] == '-'))
    && (forall i | 0 <= i < 36 && i !in {8, 13, 18, 23} :: IsLowerHexChar(s[i]))
  }

  /** Version 4 (random) ids: version nibble 4 and the RFC 4122 variant bits 10. */
  predicate IsV4(u: Uuid)
  {
    u.digits[12] == 4 && 8 <= u.digits[16] < 12
  }

  /** `uuid.UUID(s, version=4)` overwrites the version nibble and the variant bits. */
  function ForceV4(u: Uuid): (r: Uuid)
    ensures IsV4(r)
    ensures forall i | 0 <= i < 32 && i != 12 && i != 16 :: r.digits[i] == u.digits[i]
  {
    Uuid(u.digits[12 := 4][16 := 8 + u.digits[16] % 4])
  }

  /** The 128-bit integer `uuid.int`. */
  function IntValue(ds: seq<Nibble>): nat
  {
    if ds == [] then 0 else IntValue(ds[..|ds| - 1]) * 16 + ds[|ds| - 1]
  }

  /** `hash(uuid)` is `hash(uuid.int)`: a non-negative integer reduced modulo 2^61 - 1 (64-bit CPython). */
  function Hash(u: Uuid): int
  {
    IntValue(u.digits) % 0x1FFF_FFFF_FFFF_FFFF
  }

  // ---------------------------------------------------------------------
  // Lemmas
  // ---------------------------------------------------------------------

  lemma HexCharRoundTrip(n: Nibble)
    ensures IsLowerHexChar(HexChar(n))
    ensures HexValue(HexChar(n)) == Some(n)
  {
  }

  lemma HexValueRoundTrip(c: char)
    requires IsLowerHexChar(c)
    ensures HexValue(c).Some? && HexChar(HexValue(c).value) == c
  {
  }

  lemma {:induction false} WithoutHyphensAppend(a: string, b: string)
    ensures WithoutHyphens(a + b) == WithoutHyphens(a) + WithoutHyphens(b)
  {
    if a == [] {
      assert a + b == b;
    } else {
      assert (a + b)[0] == a[0];
      assert (a + b)[1..] == a[1..] + b;
      WithoutHyphensAppend(a[1..], b);
    }
  }

  lemma {:induction false} WithoutHyphensOfHyphenFree(s: string)
    requires '-' !in s
    ensures WithoutHyphens(s) == s
  {
    if s != [] {
      WithoutHyphensOfHyphenFree(s[1..]);
    }
  }

  lemma WithoutHyphensDash(x: string, y: string)
    ensures WithoutHyphens(Dash(x, y)) == WithoutHyphens(x) + WithoutHyphens(y)
  {
    assert WithoutHyphens("-") == [];
    WithoutHyphensAppend(x + "-", y);
    WithoutHyphensAppend(x, "-");
  }

  lemma HexIsHyphenFree(ds: seq<Nibble>)
    ensures '-' !in Hex(ds)
    ensures WithoutHyphens(Hex(ds)) == Hex(ds)
  {
    forall i | 0 <= i < |ds| ensures Hex(ds)[i] != '-' {
      HexCharRoundTrip(ds[i]);
    }
    WithoutHyphensOfHyphenFree(Hex(ds));
  }

  /** Removing the hyphens between five hyphen-free groups concatenates them. */
  lemma WithoutHyphensOfGroups(a: string, b: string, c: string, e: string, f: string)
    requires '-' !in a && '-' !in b && '-' !in c && '-' !in e && '-' !in f
    ensures WithoutHyphens(Dash(Dash(Dash(Dash(a, b), c), e), f)) == a + b + c + e + f
  {
    WithoutHyphensOfHyphenFree(a); WithoutHyphensOfHyphenFree(b); WithoutHyphensOfHyphenFree(c);
    WithoutHyphensOfHyphenFree(e); WithoutHyphensOfHyphenFree(f);
    WithoutHyphensDash(a, b);
    WithoutHyphensDash(Dash(a, b), c);
    WithoutHyphensDash(Dash(Dash(a, b), c), e);
    WithoutHyphensDash(Dash(Dash(Dash(a, b), c), e), f);
  }

  /** Removing the hyphens of `str(u)` leaves the 32 digits of `u`. */
  lemma StrWithoutHyphens(u: Uuid)
    ensures WithoutHyphens(ToStr(u)) == Hex(u.digits)
  {
    var d := u.digits;
    HexIsHyphenFree(d[..8]); HexIsHyphenFree(d[8..12]); HexIsHyphenFree(d[12..16]);
    HexIsHyphenFree(d[16..20]); HexIsHyphenFree(d[20..]);
    WithoutHyphensOfGroups(Hex(d[..8]), Hex(d[8..12]), Hex(d[12..16]), Hex(d[16..20]), Hex(d[20..]));
    var ds: seq<Nibble> := d;
    assert ds == ds[..8] + ds[8..12] + ds[12..16] + ds[16..20] + ds[20..];
    HexAppend(ds[..8] + ds[8..12] + ds[12..16] + ds[16..20], ds[20..]);
    HexAppend(ds[..8] + ds[8..12] + ds[12..16], ds[16..20]);
    HexAppend(ds[..8] + ds[8..12], ds[12..16]);
    HexAppend(ds[..8], ds[8..12]);
  }

  lemma HexAppend(x: seq<Nibble>, y: seq<Nibble>)
    ensures Hex(x + y) == Hex(x) + Hex(y)
  {
  }

  /** `uuid.UUID(str(u)) == u`. */
  lemma ParseToStr(u: Uuid)
    ensures Parse(ToStr(u)) == Some(u)
  {
    StrWithoutHyphens(u);
    var h := Hex(u.digits);
    forall i | 0 <= i < 32 ensures HexValue(h[i]) == Some(u.digits[i]) {
      HexCharRoundTrip(u.digits[i]);
    }
    assert DigitsOf(h) == u.digits;
  }

  /** Distinct ids have distinct string forms. */
  lemma ToStrInjective(u: Uuid, v: Uuid)
    requires ToStr(u) == ToStr(v)
    ensures u == v
  {
    ParseToStr(u);
    ParseToStr(v);
  }

  lemma StrIsCanonical(u: Uuid)
    ensures IsCanonical(ToStr(u))
  {
    var d := u.digits;
    var s := ToStr(u);
    forall i | 0 <= i < 32 ensures IsLowerHexChar(HexChar(d[i])) {
      HexCharRoundTrip(d[i]);
    }
    assert |s| == 36;
    forall i | 0 <= i < 36 && i !in {8, 13, 18, 23} ensures IsLowerHexChar(s[i]) && s[i] != '-' {
      var j := if i < 8 then i else if i < 13 then i - 1 else if i < 18 then i - 2 else if i < 23 then i - 3 else i - 4;
      assert s[i] == HexChar(d[j]);
    }
  }

  /** A string of lower-case digits is the rendering of its own digits. */
  lemma HexOfDigits(x: string)
    requires forall i | 0 <= i < |x| :: IsLowerHexChar(x[i])
    ensures Hex(DigitsOf(x)) == x
  {
    forall i | 0 <= i < |x| ensures Hex(DigitsOf(x))[i] == x[i] {
      HexValueRoundTrip(x[i]);
    }
  }

  lemma DigitsOfAppend(x: string, y: string)
    ensures DigitsOf(x + y) == DigitsOf(x) + DigitsOf(y)
  {
  }

  /** A canonical string is its five groups of digits joined by hyphens. */
  lemma CanonicalGroups(s: string)
    requires IsCanonical(s)
    ensures s == Dash(Dash(Dash(Dash(s[..8], s[9..13]), s[14..18]), s[19..23]), s[24..])
    ensures forall i | 0 <= i < 8 :: IsLowerHexChar(s[..8][i])
    ensures forall i | 0 <= i < 4 :: IsLowerHexChar(s[9..13][i]) && IsLowerHexChar(s[14..18][i]) && IsLowerHexChar(s[19..23][i])
    ensures forall i | 0 <= i < 12 :: IsLowerHexChar(s[24..][i])
  {
    assert s[..13] == Dash(s[..8], s[9..13]);
    assert s[..18] == Dash(s[..13], s[14..18]);
    assert s[..23] == Dash(s[..18], s[19..23]);
    assert s == Dash(s[..23], s[24..]);
    assert forall i | 0 <= i < 4 :: s[9..13][i] == s[i + 9] && s[14..18][i] == s[i + 14] && s[19..23][i] == s[i + 19];
    assert forall i | 0 <= i < 12 :: s[24..][i] == s[i + 24];
  }

  lemma LowerHexIsHyphenFree(x: string)
    requires forall i | 0 <= i < |x| :: IsLowerHexChar(x[i])
    ensures '-' !in x
    ensures forall i | 0 <= i < |x| :: IsHexChar(x[i])
  {
    forall i | 0 <= i < |x| ensures x[i] != '-' && IsHexChar(x[i]) {
      HexValueRoundTrip(x[i]);
    }
  }

  /** Every canonical string is `str` of the id it parses to. */
  lemma CanonicalRoundTrip(s: string)
    requires IsCanonical(s)
    ensures Parse(s).Some? && ToStr(Parse(s).value) == s
  {
    var a, b, c, e, f := s[..8], s[9..13], s[14..18], s[19..23], s[24..];
    CanonicalGroups(s);
    LowerHexIsHyphenFree(a); LowerHexIsHyphenFree(b); LowerHexIsHyphenFree(c);
    LowerHexIsHyphenFree(e); LowerHexIsHyphenFree(f);
    WithoutHyphensOfGroups(a, b, c, e, f);
    var h := a + b + c + e + f;
    assert WithoutHyphens(s) == h;
    assert forall i | 0 <= i < 32 :: IsHexChar(h[i]);
    var d := DigitsOf(h);
    assert Parse(s) == Some(Uuid(d));
    assert d == DigitsOf(a) + DigitsOf(b) + DigitsOf(c) + DigitsOf(e) + DigitsOf(f) by {
      DigitsOfAppend(a + b + c + e, f);
      DigitsOfAppend(a + b + c, e);
      DigitsOfAppend(a + b, c);
      DigitsOfAppend(a, b);
    }
    assert d[..8] == DigitsOf(a) && d[8..12] == DigitsOf(b) && d[12..16] == DigitsOf(c)
        && d[16..20] == DigitsOf(e) && d[20..] == DigitsOf(f);
    HexOfDigits(a); HexOfDigits(b); HexOfDigits(c); HexOfDigits(e); HexOfDigits(f);
  }

  /** The version coercion changes nothing on a version-4 id, and so is idempotent. */
  lemma ForceV4KeepsV4(u: Uuid)
    requires IsV4(u)
    ensures ForceV4(u) == u
  {
    assert ForceV4(u).digits == u.digits;
  }

  /** An id that is not a version-4 id, by its version digit or its variant bits, is altered by the coercion. */
  lemma ForceV4AltersOtherVersions(u: Uuid)
    requires !IsV4(u)
    ensures ForceV4(u) != u
  {
  }
}
