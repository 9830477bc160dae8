/**
 * The text operations of Go's standard library that the geocoder relies on:
 * `%v` formatting of an int, `strings.ToLower`, and `strings.Split` as the
 * reading side of a comma-joined list.
 */
module Text {
  import opened Wrappers

  predicate IsDigit(c: char) {
    '0' <= c <= '9'
  }

  /** A non-empty run of decimal digits. */
  predicate IsDecimal(s: string) {
    |s| > 0 && forall i :: 0 <= i < |s| ==> IsDigit(s[i])
  }

  function Digit(d: nat): (c: char)
    requires d < 10
    ensures IsDigit(c) && c as int - '0' as int == d
  {
    (d + '0' as int) as char
  }

  /** Decimal rendering of a non-negative integer, most significant digit first. */
  function FormatNat(n: nat): (s: string)
    ensures IsDecimal(s)
    ensures s[0] == '0' ==> n == 0  // no leading zero
    decreases n
  {
    if n < 10 then [Digit(n)] else FormatNat(n / 10) + [Digit(n % 10)]
  }

  /** `fmt.Sprintf("%v", n)` for an int: an optional minus sign and the decimal digits. */
  function FormatInt(n: int): (s: string)
    ensures |s| > 0
    ensures s[0] == '-' <==> n < 0
    ensures n < 0 ==> IsDecimal(s[1..])
    ensures n >= 0 ==> IsDecimal(s)
  {
    if n < 0 then "-" + FormatNat(-n) else FormatNat(n)
  }

  /** The value of a run of decimal digits. */
  function DigitsValue(s: string): nat
    requires forall i :: 0 <= i < |s| ==> IsDigit(s[i])
  {
    if s == [] then 0
    else
      assert IsDigit(s[|s| - 1]);
      DigitsValue(s[..|s| - 1]) * 10 + (s[|s| - 1] as int - '0' as int)
  }

  /** Reads back an optionally signed decimal integer; None for anything else. */
  function ParseInt(s: string): Option<int> {
    if |s| > 0 && s[0] == '-' && IsDecimal(s[1..]) then Some(0 - DigitsValue(s[1..]) as int)
    else if IsDecimal(s) then Some(DigitsValue(s))
    else None
  }

  lemma {:induction false} DigitsValueOfFormatNat(n: nat)
    ensures DigitsValue(FormatNat(n)) == n
  {
    if n >= 10 {
      var s := FormatNat(n);
      DigitsValueOfFormatNat(n / 10);
      assert s[..|s| - 1] == FormatNat(n / 10);
    }
  }

  /** Formatting an int loses nothing: the text reads back as the same number. */
  lemma ParseFormatInt(n: int)
    ensures ParseInt(FormatInt(n)) == Some(n)
  {
    if n < 0 {
      DigitsValueOfFormatNat(-n);
      assert FormatInt(n)[1..] == FormatNat(-n);
    } else {
      DigitsValueOfFormatNat(n);
    }
  }

  /** Distinct ints are formatted as distinct texts. */
  lemma FormatIntInjective(m: int, n: int)
    requires FormatInt(m) == FormatInt(n)
    ensures m == n
  {
    ParseFormatInt(m);
    ParseFormatInt(n);
  }

  predicate IsUpper(c: char) {
    'A' <= c <= 'Z'
  }

  function LowerChar(c: char): (l: char)
    ensures !IsUpper(l)
    ensures IsUpper(c) ==> l as int == c as int + 32
    ensures !IsUpper(c) ==> l == c
  {
    if IsUpper(c) then (c as int + 32) as char else c
  }

  /** `strings.ToLower`, for the ASCII letters A-Z. */
  function ToLower(s: string): (r: string)
    ensures |r| == |s|
    ensures forall i :: 0 <= i < |s| ==> r[i] == LowerChar(s[i])
    ensures forall i :: 0 <= i < |r| ==> !IsUpper(r[i])
  {
    if s == [] then [] else [LowerChar(s[0])] + ToLower(s[1..])
  }

  /** Lower-casing twice is lower-casing once. */
  lemma ToLowerIdempotent(s: string)
    ensures ToLower(ToLower(s)) == ToLower(s)
  {
  }

  /** A text is left alone by ToLower exactly when it has no upper-case letter. */
  lemma ToLowerFixedPoint(s: string)
    ensures ToLower(s) == s <==> forall i :: 0 <= i < |s| ==> !IsUpper(s[i])
  {
  }

  /** `strings.Split(s, sep)` for a one-character separator. */
  function Split(s: string, sep: char): (parts: seq<string>)
    ensures |parts| > 0
    decreases |s|
  {
    if s == [] then [[]]
    else
      var rest := Split(s[1..], sep);
      if s[0] == sep then [[]] + rest else [[s[0]] + rest[0]] + rest[1..]
  }

  /** The join of non-empty `fields` with a one-character separator; a helper for SplitJoin. */
  function Join(fields: seq<string>, sep: char): string
    requires |fields| > 0
  {
    if |fields| == 1 then fields[0] else fields[0] + [sep] + Join(fields[1..], sep)
  }

  /** Splitting the join of separator-free fields gives the fields back. */
  lemma {:induction false} SplitJoin(fields: seq<string>, sep: char)
    requires |fields| > 0
    ensures (forall i :: 0 <= i < |fields| ==> sep !in fields[i]) ==> Split(Join(fields, sep), sep) == fields
  {
    if forall i :: 0 <= i < |fields| ==> sep !in fields[i] {
      if |fields| == 1 {
        SplitField(fields[0], sep);
      } else {
        SplitJoin(fields[1..], sep);
        SplitAfterField(fields[0], sep, Join(fields[1..], sep));
        assert [fields[0]] + fields[1..] == fields;
      }
    }
  }

  lemma {:induction false} SplitField(a: string, sep: char)
    requires sep !in a
    ensures Split(a, sep) == [a]
  {
    if a != [] {
      SplitField(a[1..], sep);
      assert [a[0]] + a[1..] == a;
    }
  }

  /** Splitting a separator-free field followed by a separator peels that field off. */
  lemma {:induction false} SplitAfterField(a: string, sep: char, b: string)
    requires sep !in a
    ensures Split(a + [sep] + b, sep) == [a] + Split(b, sep)
  {
    var s := a + [sep] + b;
    if a == [] {
      assert s[1..] == b;
    } else {
      assert s[1..] == a[1..] + [sep] + b;
      SplitAfterField(a[1..], sep, b);
      assert [a[0]] + a[1..] == a;
    }
  }
}
