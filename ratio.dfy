/**
  `parseRatio` (script.js:60-64): a card's `data-ratio` string such as
  "16:9" becomes a width and a height, neither of them zero.

  The model reads an absent or empty attribute as the empty string (both
  are falsy in the source) and gives `Number` its value on strings of
  decimal digits; every other field reads as `NaN`.
*/
module Ratio {
  import opened Wrappers

  /** An aspect ratio; `ParseRatio` only produces positive components. */
  datatype Ratio = Ratio(w: int, h: int)

  /** The characters of the split pattern `/[:/x]/`. */
  predicate IsSeparator(c: char) {
    c == ':' || c == '/' || c == 'x'
  }

  predicate NoSeparator(s: string) {
    forall k :: 0 <= k < |s| ==> !IsSeparator(s[k])
  }

  /** The number of separator characters in s. */
  function Separators(s: string): nat {
    if |s| == 0 then 0
    else (if IsSeparator(s[0]) then 1 else 0) + Separators(s[1..])
  }

  /** The fields joined back together with the separators dropped. */
  function Concat(parts: seq<string>): string {
    if |parts| == 0 then [] else parts[0] + Concat(parts[1..])
  }

  /** s with every separator character dropped. */
  function Strip(s: string): string {
    if |s| == 0 then []
    else (if IsSeparator(s[0]) then [] else [s[0]]) + Strip(s[1..])
  }

  /**
    `String.prototype.split` with the pattern `/[:/x]/`: the maximal
    separator-free pieces between separators, empty pieces included, so
    there is always one more piece than there are separators.
  */
  function Split(s: string): (parts: seq<string>)
    ensures |parts| == Separators(s) + 1
    ensures forall k :: 0 <= k < |parts| ==> NoSeparator(parts[k])
    ensures Concat(parts) == Strip(s)
  {
    if |s| == 0 then [""]
    else
      var rest := Split(s[1..]);
      if IsSeparator(s[0]) then [""] + rest
      else
        assert Concat(rest) == rest[0] + Concat(rest[1..]);
        [[s[0]] + rest[0]] + rest[1..]
  }

  predicate IsDigit(c: char) {
    '0' <= c <= '9'
  }

  predicate AllDigits(s: string) {
    forall k :: 0 <= k < |s| ==> IsDigit(s[k])
  }

  /** The value of a string of decimal digits, read most significant first. */
  function DigitsValue(s: string): nat
    requires AllDigits(s)
  {
    if |s| == 0 then 0
    else 10 * DigitsValue(s[..|s| - 1]) + (s[|s| - 1] as int - '0' as int)
  }

  /**
    `Number(field)` on the fields the model admits: the empty string is 0,
    a string of decimal digits is its value, and every other field is
    `NaN` (None), including fields that JavaScript still reads as numbers
    (surrounding white space, a sign, an exponent, a 0X, 0b or 0o prefix,
    `Infinity`).
  */
  function ToNumber(s: string): Option<nat> {
    if AllDigits(s) then Some(DigitsValue(s)) else None
  }

  /** `x || 1` on a number: 0 and `NaN` (and a missing field) are falsy. */
  function OrOne(x: Option<nat>): (v: int)
    ensures v >= 1
    ensures x.Some? && x.value != 0 ==> v == x.value
    ensures x.None? || x.value == 0 ==> v == 1
  {
    match x
    case None => 1
    case Some(n) => if n == 0 then 1 else n
  }

  /**
    `parseRatio(str)`: a falsy string gives 1:1; otherwise the first two
    fields of the split, each made positive by `|| 1`, and a missing
    second field gives a height of 1.
  */
  function ParseRatio(s: string): (r: Ratio)
    ensures r.w >= 1 && r.h >= 1
    ensures s == "" ==> r == Ratio(1, 1)
  {
    if s == "" then Ratio(1, 1)
    else
      var parts := Split(s);
      Ratio(OrOne(ToNumber(parts[0])), if |parts| >= 2 then OrOne(ToNumber(parts[1])) else 1)
  }

  /** Splitting does not see which separator character it met. */
  lemma {:induction false} SplitIgnoresSeparatorKind(a: string, b: string, c1: char, c2: char)
    requires IsSeparator(c1) && IsSeparator(c2)
    ensures Split(a + [c1] + b) == Split(a + [c2] + b)
    decreases |a|
  {
    if |a| == 0 {
      assert (a + [c1] + b)[1..] == b;
      assert (a + [c2] + b)[1..] == b;
    } else {
      SplitIgnoresSeparatorKind(a[1..], b, c1, c2);
      assert (a + [c1] + b)[1..] == a[1..] + [c1] + b;
      assert (a + [c2] + b)[1..] == a[1..] + [c2] + b;
    }
  }

  /** "a:b", "a/b" and "axb" (and every mix in longer strings) parse alike. */
  lemma SeparatorsParseAlike(a: string, b: string, c1: char, c2: char)
    requires IsSeparator(c1) && IsSeparator(c2)
    ensures ParseRatio(a + [c1] + b) == ParseRatio(a + [c2] + b)
  {
    SplitIgnoresSeparatorKind(a, b, c1, c2);
  }

  /** A string without separators has no second field, so its height is 1. */
  lemma MissingHeightIsOne(s: string)
    requires NoSeparator(s)
    ensures ParseRatio(s).h == 1
  {
    if s != "" {
      NoSeparatorCountsZero(s);
    }
  }

  lemma {:induction false} NoSeparatorCountsZero(s: string)
    requires NoSeparator(s)
    ensures Separators(s) == 0
  {
    if |s| > 0 {
      assert NoSeparator(s[1..]) by {
        forall k | 0 <= k < |s[1..]| ensures !IsSeparator(s[1..][k]) {
          assert s[1..][k] == s[k + 1];
        }
      }
      NoSeparatorCountsZero(s[1..]);
    }
  }

  /** The decimal form of n, without leading zeros. */
  function Decimal(n: nat): (s: string)
    ensures |s| >= 1 && AllDigits(s) && !IsSeparator(s[0])
    decreases n
  {
    if n < 10 then [('0' as int + n) as char]
    else Decimal(n / 10) + [('0' as int + n % 10) as char]
  }

  /** `Number` reads back what `Decimal` writes. */
  lemma {:induction false} DecimalRoundTrip(n: nat)
    ensures ToNumber(Decimal(n)) == Some(n)
    decreases n
  {
    var s := Decimal(n);
    if n >= 10 {
      DecimalRoundTrip(n / 10);
      assert s[..|s| - 1] == Decimal(n / 10);
      assert s[|s| - 1] as int - '0' as int == n % 10;
      assert DigitsValue(s) == 10 * (n / 10) + n % 10;
    }
  }

  /** Split of a separator-free head, a separator and a tail. */
  lemma {:induction false} SplitAtFirstSeparator(a: string, c: char, b: string)
    requires NoSeparator(a) && IsSeparator(c)
    ensures Split(a + [c] + b) == [a] + Split(b)
    decreases |a|
  {
    if |a| == 0 {
      assert (a + [c] + b)[1..] == b;
    } else {
      assert (a + [c] + b)[1..] == a[1..] + [c] + b;
      SplitAtFirstSeparator(a[1..], c, b);
      assert [a[0]] + a[1..] == a;
    }
  }

  /** A separator-free string is a single field. */
  lemma {:induction false} SplitWithoutSeparator(s: string)
    requires NoSeparator(s)
    ensures Split(s) == [s]
    decreases |s|
  {
    if |s| > 0 {
      SplitWithoutSeparator(s[1..]);
      assert [s[0]] + s[1..] == s;
    }
  }

  /**
    Writing a positive ratio as "W:H" (or with '/' or 'x') and parsing it
    gives the ratio back.
  */
  lemma FormatThenParse(w: nat, h: nat, c: char)
    requires w >= 1 && h >= 1 && IsSeparator(c)
    ensures ParseRatio(Decimal(w) + [c] + Decimal(h)) == Ratio(w, h)
  {
    var a, b := Decimal(w), Decimal(h);
    assert NoSeparator(a) && NoSeparator(b);
    SplitAtFirstSeparator(a, c, b);
    SplitWithoutSeparator(b);
    DecimalRoundTrip(w);
    DecimalRoundTrip(h);
  }
}
