/** Character classes and the string conversions of the Python runtime that
    the bot relies on: `str.split(":")`, `int(x)` for a decimal literal,
    `str(n)` for an integer and the `%02d` field of `timedelta.__str__`.
    Digits are the ASCII digits only. */
module Text {
  import opened Results

  /** The characters Python's `\s` and `str.split()` treat as whitespace. */
  predicate IsSpace(c: char) {
    c == ' ' || ('\t' <= c <= '\r') || ('\U{1C}' <= c <= '\U{1F}') ||
    c == '\U{85}' || c == '\U{A0}' || c == '\U{1680}' || ('\U{2000}' <= c <= '\U{200A}') ||
    c == '\U{2028}' || c == '\U{2029}' || c == '\U{202F}' || c == '\U{205F}' || c == '\U{3000}'
  }

  /** The whitespace `int(x)` strips: ASCII characters are taken as they are
      and only `' '` and `'\t'`..`'\r'` among them count, while the other
      whitespace characters count only from U+0085 up. The separators
      U+001C..U+001F are whitespace to `\s` but not to `int`. */
  predicate IntSpace(c: char) {
    IsSpace(c) && !('\U{1C}' <= c <= '\U{1F}')
  }

  predicate IsDigit(c: char) {
    '0' <= c <= '9'
  }

  predicate AllDigits(s: string) {
    forall i :: 0 <= i < |s| ==> IsDigit(s[i])
  }

  /** Every character of `s` is whitespace. */
  predicate AllSpace(s: string) {
    forall i :: 0 <= i < |s| ==> IsSpace(s[i])
  }

  predicate NoSpace(s: string) {
    forall i :: 0 <= i < |s| ==> !IsSpace(s[i])
  }

  /** `s.split(":")`: the pieces between the colons, in order; never empty. */
  function Split(s: string): (pieces: seq<string>)
    ensures |pieces| >= 1
  {
    if s == [] then [[]]
    else if s[0] == ':' then [[]] + Split(s[1..])
    else
      var rest := Split(s[1..]);
      [[s[0]] + rest[0]] + rest[1..]
  }

  /** `":".join(pieces)`, the inverse of Split. */
  function JoinColons(pieces: seq<string>): string
    requires |pieces| >= 1
  {
    if |pieces| == 1 then pieces[0] else pieces[0] + ":" + JoinColons(pieces[1..])
  }

  lemma {:induction false} JoinSplit(s: string)
    ensures JoinColons(Split(s)) == s
  {
    if s == [] {
    } else if s[0] == ':' {
      JoinSplit(s[1..]);
      assert Split(s)[1..] == Split(s[1..]);
    } else {
      var rest := Split(s[1..]);
      JoinSplit(s[1..]);
      if |rest| == 1 {
      } else {
        assert Split(s)[1..] == rest[1..];
        assert JoinColons(rest) == rest[0] + ":" + JoinColons(rest[1..]);
      }
    }
  }

  lemma {:induction false} SplitNoColon(s: string)
    requires ':' !in s
    ensures Split(s) == [s]
  {
    if s != [] {
      assert ':' !in s[1..] by { assert forall i :: 0 <= i < |s| - 1 ==> s[1..][i] == s[i + 1]; }
      SplitNoColon(s[1..]);
      assert [s[0]] + s[1..] == s;
    }
  }

  /** Splitting `a + ":" + b`, where `a` has no colon, peels off `a`. */
  lemma {:induction false} SplitAfterColon(a: string, b: string)
    requires ':' !in a
    ensures Split(a + ":" + b) == [a] + Split(b)
  {
    if a == [] {
      assert (a + ":" + b)[1..] == b;
    } else {
      assert ':' !in a[1..] by { assert forall i :: 0 <= i < |a| - 1 ==> a[1..][i] == a[i + 1]; }
      SplitAfterColon(a[1..], b);
      assert (a + ":" + b)[1..] == a[1..] + ":" + b;
      assert [a[0]] + a[1..] == a;
    }
  }

  function DigitValue(c: char): (d: nat)
    requires IsDigit(c)
    ensures d < 10
  {
    (c as int - '0' as int) as nat
  }

  function DigitChar(d: nat): (c: char)
    requires d < 10
    ensures IsDigit(c) && DigitValue(c) == d
  {
    ('0' as int + d) as char
  }

  /** The value of a string of decimal digits, most significant first. */
  function DigitsValue(s: string): nat
    requires AllDigits(s)
  {
    if s == [] then 0 else DigitsValue(s[..|s| - 1]) * 10 + DigitValue(s[|s| - 1])
  }

  /** `str(n)`: the shortest decimal numeral, with a `-` for negatives. */
  function IntToString(n: int): (s: string)
    ensures |s| >= 1
    ensures n >= 0 ==> AllDigits(s) && DigitsValue(s) == n
    ensures n >= 0 ==> (s[0] == '0' <==> n == 0)
    ensures n < 0 ==> s[0] == '-' && AllDigits(s[1..]) && DigitsValue(s[1..]) == -n
    ensures 0 <= n < 10 ==> |s| == 1
    ensures 10 <= n < 100 ==> |s| == 2
    decreases if n < 0 then 1 - n else n
  {
    if n < 0 then "-" + IntToString(-n)
    else if n < 10 then [DigitChar(n)]
    else
      var prefix := IntToString(n / 10);
      var s := prefix + [DigitChar(n % 10)];
      assert s[..|s| - 1] == prefix;
      s
  }

  /** `"%02d" % n` for a non-negative `n`. */
  function Pad2(n: nat): (s: string)
    ensures AllDigits(s) && DigitsValue(s) == n
    ensures n < 100 ==> |s| == 2
  {
    if n < 10 then
      var s := ['0', DigitChar(n)];
      assert s[..1] == "0" && s[..1][..0] == [];
      assert DigitsValue(s[..1]) == 0;
      s
    else IntToString(n)
  }

  /** Python's `int(x)` for base 10 over ASCII digits: surrounding whitespace is
      stripped, one optional sign, then digits that may be grouped by single
      underscores. `None` is the `ValueError`. */
  function ParseInt(x: string): Option<int>
  {
    var t := Strip(x);
    if |t| > 0 && (t[0] == '+' || t[0] == '-') then
      var m := ParseGrouped(t[1..]);
      if m.None? then None
      else
        var v: int := m.value;
        Some(if t[0] == '-' then -v else v)
    else
      ParseGrouped(t)
  }

  /** Digits with single underscores between them: `1_000`, not `_1`, `1_`, `1__0`. */
  predicate Grouped(s: string)
    decreases |s|
  {
    |s| > 0 && IsDigit(s[0]) &&
    (|s| == 1 || if s[1] == '_' then Grouped(s[2..]) else Grouped(s[1..]))
  }

  function Ungroup(s: string): (d: string)
    requires Grouped(s)
    ensures AllDigits(d) && |d| >= 1
    decreases |s|
  {
    if |s| == 1 then s
    else if s[1] == '_' then [s[0]] + Ungroup(s[2..])
    else [s[0]] + Ungroup(s[1..])
  }

  function ParseGrouped(s: string): (r: Option<nat>)
    ensures r.Some? ==> |s| > 0 && IsDigit(s[0])
  {
    if Grouped(s) then Some(DigitsValue(Ungroup(s))) else None
  }

  function StripLeft(s: string): string
  {
    if s != [] && IntSpace(s[0]) then StripLeft(s[1..]) else s
  }

  function StripRight(s: string): string
  {
    if s != [] && IntSpace(s[|s| - 1]) then StripRight(s[..|s| - 1]) else s
  }

  function Strip(s: string): string
  {
    StripRight(StripLeft(s))
  }

  /** On a non-empty string of ASCII digits, `int(x)` is the numeral's value. */
  lemma {:induction false} ParseDigits(s: string)
    requires |s| >= 1 && AllDigits(s)
    ensures ParseInt(s) == Some(DigitsValue(s) as int)
  {
    assert StripLeft(s) == s;
    assert StripRight(s) == s;
    UngroupDigits(s);
  }

  lemma {:induction false} UngroupDigits(s: string)
    requires |s| >= 1 && AllDigits(s)
    ensures Grouped(s) && Ungroup(s) == s
  {
    if |s| > 1 {
      UngroupDigits(s[1..]);
      assert [s[0]] + s[1..] == s;
    }
  }

  /** `int` strips surrounding spaces and tabs: `" 5\t"` is 5. */
  lemma {:induction false} SpacesStripped(x: string)
    requires x == " 5\t"
    ensures ParseInt(x) == Some(5)
  {
    assert StripLeft(x) == x[1..];
    assert StripRight(x[1..]) == "5";
    ParseDigits("5");
  }

  /** A file separator (U+001C) before the digits is not stripped, so `int`
      raises, although `\s` would match it. */
  lemma {:induction false} SeparatorNotStripped(x: string)
    requires x == "\U{1C}5"
    ensures IsSpace(x[0]) && ParseInt(x) == None
  {
    assert StripLeft(x) == x;
    assert StripRight(x) == x;
    assert !Grouped(x);
  }
}
