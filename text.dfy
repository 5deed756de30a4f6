/**
 The .NET string and number primitives the adapter relies on: `string.Split`,
 `int.TryParse` (for an `Int32`) and the decimal formatting of an `int` in an
 interpolated string.  The invariant culture is assumed throughout.
 */
module Text {
  import opened Wrappers

  /** The characters `char.IsWhiteSpace` accepts, which is what `string.Split()`
      with no arguments splits on. */
  const WhiteSpace: set<char> :=
    {'\t', '\n', '\U{B}', '\U{C}', '\r', ' ', '\U{85}', '\U{A0}', '\U{1680}',
     '\U{2000}', '\U{2001}', '\U{2002}', '\U{2003}', '\U{2004}', '\U{2005}',
     '\U{2006}', '\U{2007}', '\U{2008}', '\U{2009}', '\U{200A}',
     '\U{2028}', '\U{2029}', '\U{202F}', '\U{205F}', '\U{3000}'}

  /** `s.Split(seps)`: the pieces between separators, empty pieces kept. */
  function Split(s: string, seps: set<char>): (parts: seq<string>)
    ensures |parts| > 0
    ensures forall i, j :: 0 <= i < |parts| && 0 <= j < |parts[i]| ==> parts[i][j] !in seps
    decreases |s|
  {
    if s == [] then [[]]
    else
      var rest := Split(s[1..], seps);
      if s[0] in seps then [[]] + rest
      else [[s[0]] + rest[0]] + rest[1..]
  }

  /** `s.Split()[0]`: the text before the first white-space character. */
  function FirstToken(s: string): (t: string)
    ensures t <= s
    ensures forall i :: 0 <= i < |t| ==> t[i] !in WhiteSpace
    ensures |t| < |s| ==> s[|t|] in WhiteSpace
  {
    SplitFirstPiece(s, WhiteSpace);
    Split(s, WhiteSpace)[0]
  }

  lemma {:induction false} SplitFirstPiece(s: string, seps: set<char>)
    ensures Split(s, seps)[0] <= s
    ensures |Split(s, seps)[0]| < |s| ==> s[|Split(s, seps)[0]|] in seps
    decreases |s|
  {
    if s != [] && s[0] !in seps {
      SplitFirstPiece(s[1..], seps);
    }
  }

  /** The first piece is the text before the first separator. */
  lemma {:induction false} SplitFirstPieceOf(piece: string, rest: string, seps: set<char>)
    requires forall i :: 0 <= i < |piece| ==> piece[i] !in seps
    requires rest == [] || rest[0] in seps
    ensures Split(piece + rest, seps)[0] == piece
    decreases |piece|
  {
    if piece == [] {
      assert piece + rest == rest;
    } else {
      assert (piece + rest)[1..] == piece[1..] + rest;
      SplitFirstPieceOf(piece[1..], rest, seps);
      assert [piece[0]] + piece[1..] == piece;
    }
  }

  /** A piece without separators splits to itself. */
  lemma {:induction false} SplitNoSeparator(a: string, seps: set<char>)
    requires forall i :: 0 <= i < |a| ==> a[i] !in seps
    ensures Split(a, seps) == [a]
    decreases |a|
  {
    if a != [] {
      SplitNoSeparator(a[1..], seps);
      assert [a[0]] + a[1..] == a;
    }
  }

  /** Splitting `a + [c] + rest`, where `c` separates and `a` holds no separator,
      yields `a` followed by the pieces of `rest`. */
  lemma {:induction false} SplitAfterPiece(a: string, c: char, rest: string, seps: set<char>)
    requires c in seps
    requires forall i :: 0 <= i < |a| ==> a[i] !in seps
    ensures Split(a + [c] + rest, seps) == [a] + Split(rest, seps)
    decreases |a|
  {
    var s := a + [c] + rest;
    if a == [] {
      assert s[1..] == rest;
    } else {
      assert s[1..] == a[1..] + [c] + rest;
      SplitAfterPiece(a[1..], c, rest, seps);
      assert [a[0]] + a[1..] == a;
    }
  }

  // ---------------------------------------------------------------------------
  // Int32 parsing and decimal formatting

  const Int32Min: int := -0x8000_0000
  const Int32Max: int := 0x7FFF_FFFF

  predicate IsDigit(c: char) {
    '0' <= c <= '9'
  }

  predicate AllDigits(s: string) {
    forall i :: 0 <= i < |s| ==> IsDigit(s[i])
  }

  function DigitValue(c: char): nat
    requires IsDigit(c)
  {
    (c as int) - ('0' as int)
  }

  function DigitChar(d: nat): (c: char)
    requires d < 10
    ensures IsDigit(c) && DigitValue(c) == d
  {
    (('0' as int) + d) as char
  }

  /** The value of a string of decimal digits, most significant first. */
  function DigitsValue(ds: string): nat
    requires AllDigits(ds)
  {
    if ds == [] then 0
    else DigitsValue(ds[..|ds| - 1]) * 10 + DigitValue(ds[|ds| - 1])
  }

  function Pow10(k: nat): (p: nat)
    ensures p >= 1
  {
    if k == 0 then 1 else 10 * Pow10(k - 1)
  }

  /** `int.TryParse(s, out _)` on a string without white space: an optional sign
      followed by one or more ASCII digits whose value fits in an `Int32`. */
  function ParseInt32(s: string): (r: Option<int>)
    ensures r.Some? ==> Int32Min <= r.value <= Int32Max
    ensures r.Some? ==> s != [] && Magnitude(s) != [] && AllDigits(Magnitude(s))
    ensures r.Some? ==> r.value == SignedValue(s)
  {
    var body := if s == [] then s else Magnitude(s);
    if body == [] || !AllDigits(body) then None
    else
      var v: int := if s[0] == '-' then -(DigitsValue(body) as int) else DigitsValue(body);
      if Int32Min <= v <= Int32Max then Some(v) else None
  }

  /** The text after an optional leading sign. */
  function Magnitude(s: string): string
    requires s != []
  {
    if s[0] == '-' || s[0] == '+' then s[1..] else s
  }

  /** The value of an optionally signed run of digits. */
  function SignedValue(s: string): int
    requires s != [] && AllDigits(Magnitude(s))
  {
    if s[0] == '-' then -(DigitsValue(Magnitude(s)) as int) else DigitsValue(Magnitude(s))
  }

  /** Every optionally signed, non-empty run of digits whose value is an `Int32`
      parses, to that value; leading zeros and a leading `+` are accepted. */
  lemma SignedDigitsParse(s: string)
    requires s != [] && Magnitude(s) != [] && AllDigits(Magnitude(s))
    requires Int32Min <= SignedValue(s) <= Int32Max
    ensures ParseInt32(s) == Some(SignedValue(s))
  {
  }

  /** A run of digits, signed or not, whose value is outside the `Int32` range does not parse. */
  lemma OutOfRangeFails(s: string)
    requires s != [] && Magnitude(s) != [] && AllDigits(Magnitude(s))
    requires SignedValue(s) < Int32Min || Int32Max < SignedValue(s)
    ensures ParseInt32(s) == None
  {
  }

  /** The decimal digits of a natural number, without leading zeros. */
  function NatToDigits(n: nat): (ds: string)
    ensures ds != [] && AllDigits(ds)
    ensures ds[0] == '0' ==> n == 0
    ensures |ds| > 1 ==> ds[0] != '0'
  {
    if n < 10 then [DigitChar(n)] else NatToDigits(n / 10) + [DigitChar(n % 10)]
  }

  /** `n.ToString()`: the decimal form of `n`, with a leading `-` when negative. */
  function IntToString(n: int): (s: string)
    ensures forall i :: 0 <= i < |s| ==> IsDigit(s[i]) || (i == 0 && s[i] == '-')
    ensures s != [] && (s[0] == '-' <==> n < 0)
  {
    if n < 0 then "-" + NatToDigits(-n) else NatToDigits(n)
  }

  /** `n.ToString()` is the canonical decimal form of `n`: a `-` exactly when `n` is
      negative, then the digits of its magnitude with no leading zero, so that zero
      is the single digit `0`, whose value is that magnitude. */
  lemma IntToStringCanonical(n: int)
    ensures var s := IntToString(n);
      s != [] && (s[0] == '-' <==> n < 0) &&
      Magnitude(s) != [] && AllDigits(Magnitude(s)) &&
      (Magnitude(s)[0] == '0' ==> n == 0) &&
      (|Magnitude(s)| > 1 ==> Magnitude(s)[0] != '0') &&
      DigitsValue(Magnitude(s)) == if n < 0 then -n else n
  {
    if n < 0 {
      assert Magnitude(IntToString(n)) == NatToDigits(-n);
      DigitsOfNat(-n);
    } else {
      DigitsOfNat(n);
    }
  }

  lemma {:induction false} DigitsOfNat(n: nat)
    ensures DigitsValue(NatToDigits(n)) == n
  {
    if n >= 10 {
      var ds := NatToDigits(n);
      assert ds[..|ds| - 1] == NatToDigits(n / 10);
      DigitsOfNat(n / 10);
    }
  }

  /** Formatting an `Int32` and parsing it back gives the same number. */
  lemma ParseFormattedInt32(n: int)
    requires Int32Min <= n <= Int32Max
    ensures ParseInt32(IntToString(n)) == Some(n)
  {
    var s := IntToString(n);
    if n < 0 {
      assert s[0] == '-' && Magnitude(s) == NatToDigits(-n);
      DigitsOfNat(-n);
    } else {
      assert s[0] != '-' && s[0] != '+' && Magnitude(s) == NatToDigits(n);
      DigitsOfNat(n);
    }
    assert SignedValue(s) == n;
    SignedDigitsParse(s);
  }

  /** One more digit at the end multiplies the value by ten and adds the digit. */
  function DigitsAppend(ds: string, c: char): (r: string)
    requires AllDigits(ds) && IsDigit(c)
    ensures r == ds + [c] && AllDigits(r)
    ensures DigitsValue(r) == DigitsValue(ds) * 10 + DigitValue(c)
  {
    var r := ds + [c];
    assert r[..|ds|] == ds;
    r
  }

  lemma {:induction false} DigitsValueBound(ds: string)
    requires AllDigits(ds)
    ensures DigitsValue(ds) < Pow10(|ds|)
  {
    if ds != [] {
      DigitsValueBound(ds[..|ds| - 1]);
    }
  }

  /** Every unsigned string of one to nine digits parses, with its decimal value. */
  lemma ShortDigitStringParses(s: string)
    requires 1 <= |s| <= 9 && AllDigits(s)
    ensures ParseInt32(s) == Some(DigitsValue(s))
  {
    DigitsValueBound(s);
    assert Pow10(|s|) <= Pow10(9) by {
      Pow10Monotone(|s|, 9);
    }
  }

  lemma {:induction false} Pow10Monotone(j: nat, k: nat)
    requires j <= k
    ensures Pow10(j) <= Pow10(k)
    decreases k
  {
    if j < k {
      Pow10Monotone(j, k - 1);
    }
  }
}
