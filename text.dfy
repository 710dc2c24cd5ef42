/**
 * The Python string built-ins the outline builder relies on, restricted to
 * ASCII: `str.isspace`, `str.isnumeric`, `str.strip` and `int(str)`.
 */
module Text {
  import opened Wrappers

  /** The ASCII characters `str.isspace` and `str.strip` treat as whitespace:
      tab, line feed, vertical tab, form feed, carriage return, the four
      information separators 0x1C-0x1F, and space. */
  predicate IsSpaceChar(c: char) {
    c == ' ' || (9 <= c as int <= 13) || (28 <= c as int <= 31)
  }

  /** The ASCII characters `str.isnumeric` accepts. */
  predicate IsDigitChar(c: char) {
    '0' <= c <= '9'
  }

  function AllSpace(s: string): (r: bool)
    ensures r <==> forall i :: 0 <= i < |s| ==> IsSpaceChar(s[i])
  {
    s == [] || (IsSpaceChar(s[0]) && AllSpace(s[1..]))
  }

  function AllDigits(s: string): (r: bool)
    ensures r <==> forall i :: 0 <= i < |s| ==> IsDigitChar(s[i])
  {
    s == [] || (IsDigitChar(s[0]) && AllDigits(s[1..]))
  }

  /** `s.isspace()`: false on the empty string. */
  predicate IsSpace(s: string) {
    s != [] && AllSpace(s)
  }

  /** `s.isnumeric()`: false on the empty string. */
  predicate IsNumeric(s: string) {
    s != [] && AllDigits(s)
  }

  /** `s.lstrip()`: drops the leading whitespace. */
  function StripLeading(s: string): (r: string)
    ensures |r| <= |s| && r == s[|s| - |r|..]
    ensures AllSpace(s[..|s| - |r|])
    ensures r == [] || !IsSpaceChar(r[0])
  {
    if s != [] && IsSpaceChar(s[0]) then
      var r := StripLeading(s[1..]);
      assert s[..|s| - |r|] == [s[0]] + s[1..][..|s| - 1 - |r|];
      r
    else s
  }

  /** `s.rstrip()`: drops the trailing whitespace. */
  function StripTrailing(s: string): (r: string)
    ensures |r| <= |s| && r == s[..|r|]
    ensures AllSpace(s[|r|..])
    ensures r == [] || !IsSpaceChar(r[|r| - 1])
  {
    if s != [] && IsSpaceChar(s[|s| - 1]) then
      var r := StripTrailing(s[..|s| - 1]);
      assert s[|r|..] == s[..|s| - 1][|r|..] + [s[|s| - 1]];
      r
    else s
  }

  /** Neither end of s is whitespace. */
  predicate Trimmed(s: string) {
    s == [] || (!IsSpaceChar(s[0]) && !IsSpaceChar(s[|s| - 1]))
  }

  /** `s.strip()`. */
  function Strip(s: string): (r: string)
    ensures Trimmed(r)
    ensures r == [] <==> AllSpace(s)
    ensures Trimmed(s) ==> r == s
    ensures exists a :: Inside(s, r, a)
  {
    StripEnds(s);
    StripMargins(s);
    StripTrailing(StripLeading(s))
  }

  lemma StripEnds(s: string)
    ensures var r := StripTrailing(StripLeading(s));
            Trimmed(r) && (r == [] <==> AllSpace(s)) && (Trimmed(s) ==> r == s)
  {
    StripTrimmed(s);
    StripEmpty(s);
    StripKeeps(s);
  }

  lemma StripTrimmed(s: string)
    ensures Trimmed(StripTrailing(StripLeading(s)))
  {
    var left := StripLeading(s);
    var r := StripTrailing(left);
    if r != [] {
      assert r[0] == left[0];
    }
  }

  lemma StripEmpty(s: string)
    ensures StripTrailing(StripLeading(s)) == [] <==> AllSpace(s)
  {
    var left := StripLeading(s);
    var a := |s| - |left|;
    assert s[a..] == left;
    AllSpaceSplit(s, a);
    if StripTrailing(left) == [] {
      assert left[0..] == left;
    }
  }

  /** A string is all whitespace exactly when both parts of any split are. */
  lemma AllSpaceSplit(s: string, k: nat)
    requires k <= |s|
    ensures AllSpace(s) <==> AllSpace(s[..k]) && AllSpace(s[k..])
  {
    if AllSpace(s[..k]) && AllSpace(s[k..]) {
      forall i | 0 <= i < |s|
        ensures IsSpaceChar(s[i])
      {
        if i < k {
          assert s[i] == s[..k][i];
        } else {
          assert s[i] == s[k..][i - k];
        }
      }
    }
  }

  lemma StripKeeps(s: string)
    ensures Trimmed(s) ==> StripTrailing(StripLeading(s)) == s
  {
    if s != [] && !IsSpaceChar(s[0]) {
      assert StripLeading(s) == s;
    }
  }

  /** r is s with a whitespace margin of a characters removed in front and
      one of the remaining length removed behind. */
  predicate Inside(s: string, r: string, a: int) {
    0 <= a <= |s| - |r| && r == s[a..a + |r|] && AllSpace(s[..a]) && AllSpace(s[a + |r|..])
  }

  lemma StripMargins(s: string)
    ensures exists a :: Inside(s, StripTrailing(StripLeading(s)), a)
  {
    var left := StripLeading(s);
    var r := StripTrailing(left);
    var a := |s| - |left|;
    assert left == s[a..];
    assert s[a + |r|..] == left[|r|..];
    assert Inside(s, r, a);
  }

  /** Value of a string of decimal digits, most significant first. */
  function DigitsValue(s: string): nat
    requires AllDigits(s)
  {
    if s == [] then 0 else 10 * DigitsValue(s[..|s| - 1]) + (s[|s| - 1] as int - '0' as int)
  }

  /** `int(s)` for a string with no surrounding whitespace: an optional sign
      followed by one or more decimal digits; anything else is a ValueError. */
  function ParseInt(s: string): (r: Option<int>)
    ensures r.Some? <==> IsNumeric(s) || (|s| >= 2 && (s[0] == '+' || s[0] == '-') && AllDigits(s[1..]))
    ensures IsNumeric(s) ==> r == Some(DigitsValue(s))
    ensures |s| >= 2 && s[0] == '+' && AllDigits(s[1..]) ==> r == Some(DigitsValue(s[1..]))
    ensures |s| >= 2 && s[0] == '-' && AllDigits(s[1..]) ==> r == Some(-(DigitsValue(s[1..]) as int))
    ensures r.Some? ==> |s| > 0 && (IsDigitChar(s[0]) || s[0] == '+' || s[0] == '-')
    ensures r.Some? ==> IsDigitChar(s[|s| - 1])
  {
    if IsNumeric(s) then Some(DigitsValue(s))
    else if |s| >= 2 && (s[0] == '+' || s[0] == '-') && AllDigits(s[1..]) then
      var magnitude: int := DigitsValue(s[1..]);
      Some(if s[0] == '-' then -magnitude else magnitude)
    else None
  }

  function DigitChar(d: nat): (c: char)
    requires d < 10
    ensures IsDigitChar(c) && c as int - '0' as int == d
  {
    ('0' as int + d) as char
  }

  /** Decimal rendering of a natural number, the inverse of DigitsValue. */
  function ShowNat(n: nat): (s: string)
    ensures IsNumeric(s) && DigitsValue(s) == n
  {
    if n < 10 then [DigitChar(n)]
    else
      var prefix := ShowNat(n / 10);
      var s := prefix + [DigitChar(n % 10)];
      assert s[..|s| - 1] == prefix;
      s
  }

  /** Decimal rendering of an integer, with a leading '-' when negative. */
  function ShowInt(n: int): string {
    if n < 0 then "-" + ShowNat(-n) else ShowNat(n)
  }

  /** Every integer written in decimal reads back through `int()`. */
  lemma ParseShowInt(n: int)
    ensures ParseInt(ShowInt(n)) == Some(n)
  {
    if n < 0 {
      var s := ShowInt(n);
      assert s[1..] == ShowNat(-n);
    }
  }

  /** `strip` is idempotent. */
  lemma StripIdempotent(s: string)
    ensures Strip(Strip(s)) == Strip(s)
  {
  }
}
