/** `_hms_to_s`: a `S`, `M:S` or `H:M:S` token to a number of seconds. */
module Timestamp {
  import opened Results
  import opened Text

  /** Why `_hms_to_s` raises `ValueError`. */
  datatype HmsError =
    | InvalidLiteral(piece: string)  // `int(piece)` rejected a component
    | TooManyValues(count: nat)      // `h, m, s = p` met more than three components

  /** `[int(x) for x in pieces]`: every value, or the first piece `int` rejects. */
  function ParseAll(pieces: seq<string>): (r: Result<seq<int>, HmsError>)
    ensures r.Success? <==> forall k :: 0 <= k < |pieces| ==> ParseInt(pieces[k]).Some?
    ensures r.Success? ==> |r.value| == |pieces|
    ensures r.Success? ==> forall k :: 0 <= k < |pieces| ==> ParseInt(pieces[k]) == Some(r.value[k])
  {
    if pieces == [] then Success([])
    else
      var init, last := pieces[..|pieces| - 1], pieces[|pieces| - 1];
      assert pieces == init + [last];
      var prior := ParseAll(init);
      if prior.Failure? then
        Failure(prior.error)
      else if ParseInt(last).None? then
        Failure(InvalidLiteral(last))
      else
        Success(prior.value + [ParseInt(last).value])
  }

  /** The error names the first piece `int` rejects: the comprehension stops there. */
  lemma {:induction false} FirstRejectedReported(pieces: seq<string>, k: nat)
    requires k < |pieces| && ParseInt(pieces[k]).None?
    requires forall j :: 0 <= j < k ==> ParseInt(pieces[j]).Some?
    ensures ParseAll(pieces) == Failure(InvalidLiteral(pieces[k]))
  {
    var init := pieces[..|pieces| - 1];
    if k < |pieces| - 1 {
      assert init[k] == pieces[k];
      assert forall j :: 0 <= j < k ==> init[j] == pieces[j];
      FirstRejectedReported(init, k);
    } else {
      assert forall j :: 0 <= j < |init| ==> init[j] == pieces[j];
    }
  }

  /** Reading the components as base-60 digits, most significant first: the
      value `h*3600 + m*60 + s` gives three of them. */
  function Sexagesimal(vs: seq<int>): int
  {
    if vs == [] then 0 else Sexagesimal(vs[..|vs| - 1]) * 60 + vs[|vs| - 1]
  }

  /** What `_hms_to_s(ts)` returns, or the `ValueError` it raises. */
  function Seconds(ts: string): Result<int, HmsError>
  {
    match ParseAll(Split(ts))
    case Failure(e) => Failure(e)
    case Success(vs) => if |vs| > 3 then Failure(TooManyValues(|vs|)) else Success(Sexagesimal(vs))
  }

  /** `_hms_to_s`: convert every piece, pad on the left with zeros up to three
      components, then unpack into hours, minutes and seconds. */
  method HmsToSeconds(ts: string) returns (r: Result<int, HmsError>)
    ensures r == Seconds(ts)
  {
    var pieces := Split(ts);
    var p: seq<int> := [];
    var i := 0;
    while i < |pieces|
      invariant 0 <= i <= |pieces|
      invariant ParseAll(pieces[..i]) == Success(p)
    {
      var v := ParseInt(pieces[i]);
      if v.None? {
        ParseStopsAt(pieces, i, p);
        return Failure(InvalidLiteral(pieces[i]));
      }
      ParseExtends(pieces, i, p);
      p := p + [v.value];
      i := i + 1;
    }
    assert pieces[..i] == pieces;
    ghost var parsed := p;
    while |p| < 3
      invariant Sexagesimal(p) == Sexagesimal(parsed)
      invariant |parsed| <= |p| && (|parsed| <= 3 ==> |p| <= 3)
      invariant |parsed| >= 3 ==> p == parsed
      decreases 3 - |p|
    {
      LeadingZeroIgnored(p);
      p := [0] + p;
    }
    assert ParseAll(Split(ts)) == Success(parsed);
    if |p| != 3 {
      return Failure(TooManyValues(|p|));
    }
    Sexagesimal3(p);
    assert |parsed| <= 3 && p[0] * 3600 + p[1] * 60 + p[2] == Sexagesimal(parsed);
    r := Success(p[0] * 3600 + p[1] * 60 + p[2]);
  }

  /** One more accepted piece extends the converted prefix by its value. */
  lemma {:induction false} ParseExtends(pieces: seq<string>, i: nat, p: seq<int>)
    requires i < |pieces| && ParseAll(pieces[..i]) == Success(p) && ParseInt(pieces[i]).Some?
    ensures ParseAll(pieces[..i + 1]) == Success(p + [ParseInt(pieces[i]).value])
  {
    assert pieces[..i + 1][..i] == pieces[..i];
  }

  /** A rejected piece after an accepted prefix is the one the error names. */
  lemma {:induction false} ParseStopsAt(pieces: seq<string>, i: nat, p: seq<int>)
    requires i < |pieces| && ParseAll(pieces[..i]) == Success(p) && ParseInt(pieces[i]).None?
    ensures ParseAll(pieces) == Failure(InvalidLiteral(pieces[i]))
  {
    assert forall j :: 0 <= j < i ==> pieces[..i][j] == pieces[j];
    FirstRejectedReported(pieces, i);
  }

  /** A zero inserted at the front, as `p.insert(0, 0)` does, changes nothing. */
  lemma {:induction false} LeadingZeroIgnored(vs: seq<int>)
    ensures Sexagesimal([0] + vs) == Sexagesimal(vs)
    decreases |vs|
  {
    if vs != [] {
      var padded := [0] + vs;
      assert padded[..|padded| - 1] == [0] + vs[..|vs| - 1];
      LeadingZeroIgnored(vs[..|vs| - 1]);
    }
  }

  lemma {:induction false} Sexagesimal1(p: seq<int>)
    requires |p| == 1
    ensures Sexagesimal(p) == p[0]
  {
    assert p[..0] == [];
  }

  lemma {:induction false} Sexagesimal2(p: seq<int>)
    requires |p| == 2
    ensures Sexagesimal(p) == p[0] * 60 + p[1]
  {
    assert p[..1][..0] == [];
    assert Sexagesimal(p[..1]) == p[0];
  }

  lemma {:induction false} Sexagesimal3(p: seq<int>)
    requires |p| == 3
    ensures Sexagesimal(p) == p[0] * 3600 + p[1] * 60 + p[2]
  {
    assert p[..2][..1][..0] == [];
    assert Sexagesimal(p[..2][..1]) == p[0];
    assert Sexagesimal(p[..2]) == p[0] * 60 + p[1];
    assert (p[0] * 60 + p[1]) * 60 == p[0] * 3600 + p[1] * 60;
  }

  predicate DigitPieces(pieces: seq<string>) {
    forall k :: 0 <= k < |pieces| ==> |pieces[k]| >= 1 && AllDigits(pieces[k])
  }

  /** The values of pieces that are all runs of digits. */
  function DigitValues(pieces: seq<string>): (vs: seq<int>)
    requires DigitPieces(pieces)
    ensures |vs| == |pieces|
    ensures forall k :: 0 <= k < |pieces| ==> vs[k] == DigitsValue(pieces[k]) as int
  {
    seq(|pieces|, k requires 0 <= k < |pieces| => DigitsValue(pieces[k]) as int)
  }

  /** When every piece is a run of digits, the comprehension succeeds with their values. */
  lemma {:induction false} ParseAllDigits(pieces: seq<string>)
    requires DigitPieces(pieces)
    ensures ParseAll(pieces) == Success(DigitValues(pieces))
  {
    forall k | 0 <= k < |pieces|
      ensures ParseInt(pieces[k]) == Some(DigitsValue(pieces[k]) as int)
    {
      ParseDigits(pieces[k]);
    }
    assert ParseAll(pieces).value == DigitValues(pieces);
  }

  /** A token whose pieces are one to three runs of digits converts without error. */
  lemma {:induction false} DigitRunsConvert(ts: string)
    requires 1 <= |Split(ts)| <= 3 && DigitPieces(Split(ts))
    ensures Seconds(ts) == Success(Sexagesimal(DigitValues(Split(ts))))
  {
    ParseAllDigits(Split(ts));
  }

  /** A run of digits holds no colon, so it is one piece. */
  lemma {:induction false} SplitDigits(s: string)
    requires AllDigits(s)
    ensures Split(s) == [s]
  {
    assert forall i :: 0 <= i < |s| ==> s[i] != ':';
    SplitNoColon(s);
  }

  /** A run of digits before a colon is the first piece. */
  lemma {:induction false} SplitDigitsColon(a: string, b: string)
    requires AllDigits(a)
    ensures Split(a + ":" + b) == [a] + Split(b)
  {
    assert forall i :: 0 <= i < |a| ==> a[i] != ':';
    SplitAfterColon(a, b);
  }

  lemma {:induction false} SplitThree(h: string, m: string, s: string)
    requires AllDigits(h) && AllDigits(m) && AllDigits(s)
    ensures Split(h + ":" + m + ":" + s) == [h, m, s]
  {
    assert h + ":" + m + ":" + s == h + ":" + (m + ":" + s);
    SplitDigitsColon(h, m + ":" + s);
    SplitDigitsColon(m, s);
    SplitDigits(s);
  }

  lemma {:induction false} SplitTwo(m: string, s: string)
    requires AllDigits(m) && AllDigits(s)
    ensures Split(m + ":" + s) == [m, s]
  {
    SplitDigitsColon(m, s);
    SplitDigits(s);
  }

  /** The three components of `H:M:S`, each a non-empty run of digits. */
  lemma {:induction false} ThreeDigitRuns(h: string, m: string, s: string)
    requires |h| >= 1 && |m| >= 1 && |s| >= 1 && AllDigits(h) && AllDigits(m) && AllDigits(s)
    ensures Seconds(h + ":" + m + ":" + s) == Success(DigitsValue(h) * 3600 + DigitsValue(m) * 60 + DigitsValue(s))
  {
    ThreePieces(h, m, s);
    var pieces := [h, m, s];
    assert pieces[0] == h && pieces[1] == m && pieces[2] == s;
    var vs := DigitValues(pieces);
    assert vs[0] == DigitsValue(h) as int && vs[1] == DigitsValue(m) as int && vs[2] == DigitsValue(s) as int;
    Sexagesimal3(vs);
  }

  lemma {:induction false} ThreePieces(h: string, m: string, s: string)
    requires |h| >= 1 && |m| >= 1 && |s| >= 1 && AllDigits(h) && AllDigits(m) && AllDigits(s)
    ensures Seconds(h + ":" + m + ":" + s) == Success(Sexagesimal(DigitValues([h, m, s])))
  {
    SplitThree(h, m, s);
    DigitRunsConvert(h + ":" + m + ":" + s);
  }

  /** `M:S`, the form of the usage example `0:30` and `1:15`. */
  lemma {:induction false} TwoDigitRuns(m: string, s: string)
    requires |m| >= 1 && |s| >= 1 && AllDigits(m) && AllDigits(s)
    ensures Seconds(m + ":" + s) == Success(DigitsValue(m) * 60 + DigitsValue(s))
  {
    TwoPieces(m, s);
    var pieces := [m, s];
    assert pieces[0] == m && pieces[1] == s;
    var vs := DigitValues(pieces);
    assert vs[0] == DigitsValue(m) as int && vs[1] == DigitsValue(s) as int;
    Sexagesimal2(vs);
  }

  lemma {:induction false} TwoPieces(m: string, s: string)
    requires |m| >= 1 && |s| >= 1 && AllDigits(m) && AllDigits(s)
    ensures Seconds(m + ":" + s) == Success(Sexagesimal(DigitValues([m, s])))
  {
    SplitTwo(m, s);
    DigitRunsConvert(m + ":" + s);
  }

  /** A bare `S`. */
  lemma {:induction false} OneDigitRun(s: string)
    requires |s| >= 1 && AllDigits(s)
    ensures Seconds(s) == Success(DigitsValue(s) as int)
  {
    SplitDigits(s);
    Sexagesimal1(DigitValues([s]));
    DigitRunsConvert(s);
  }

  /** `30`: seconds only. */
  lemma {:induction false} ExampleSeconds(ts: string)
    requires ts == "30"
    ensures Seconds(ts) == Success(30)
  {
    assert DigitsValue(ts[..1]) == 3;
    OneDigitRun(ts);
  }

  /** `0:30`, the start time of the usage message's example. */
  lemma {:induction false} ExampleStart(ts: string)
    requires ts == "0:30"
    ensures Seconds(ts) == Success(30)
  {
    var m, s := ts[..1], ts[2..];
    assert ts == m + ":" + s;
    assert DigitsValue(s[..1]) == 3;
    TwoDigitRuns(m, s);
  }

  /** `1:15`, the end time of the usage message's example. */
  lemma {:induction false} ExampleEnd(ts: string)
    requires ts == "1:15"
    ensures Seconds(ts) == Success(75)
  {
    var m, s := ts[..1], ts[2..];
    assert ts == m + ":" + s;
    assert DigitsValue(s[..1]) == 1;
    TwoDigitRuns(m, s);
  }

  /** `0:99`: a component of 60 or more is not rejected, only weighted. */
  lemma {:induction false} ExampleNinetyNine(ts: string)
    requires ts == "0:99"
    ensures Seconds(ts) == Success(99)
  {
    var m, s := "0", "99";
    assert ts == m + ":" + s;
    assert s[..1] == "9";
    TwoDigitRuns(m, s);
  }

  /** `1:02:03`: hours, minutes and seconds, with leading zeros. */
  lemma {:induction false} ExampleHours(ts: string)
    requires ts == "1:02:03"
    ensures Seconds(ts) == Success(3723)
  {
    var h, m, s := "1", "02", "03";
    assert ts == h + ":" + m + ":" + s;
    assert m[..1] == "0" && s[..1] == "0";
    assert DigitsValue(h) == 1 && DigitsValue(m) == 2 && DigitsValue(s) == 3;
    ThreeDigitRuns(h, m, s);
  }

  /** A piece that is not an integer literal raises, naming that piece. */
  lemma {:induction false} RejectsNonNumeric(ts: string)
    requires ts == "a:30"
    ensures Seconds(ts) == Failure(InvalidLiteral("a"))
  {
    var a, s := "a", "30";
    assert ts == a + ":" + s;
    SplitAfterColon(a, s);
    SplitNoColon(s);
    assert Split(ts) == [a, s];
    assert ParseInt(a).None? by {
      assert StripRight(StripLeft(a)) == a;
      assert !Grouped(a);
    }
    FirstRejectedReported([a, s], 0);
  }

  /** An empty token is one empty piece, which `int` rejects. */
  lemma {:induction false} RejectsEmpty(ts: string)
    requires ts == ""
    ensures Seconds(ts) == Failure(InvalidLiteral(""))
  {
    assert Split(ts) == [ts];
    assert ParseInt(ts).None?;
    FirstRejectedReported([ts], 0);
  }

  /** A fourth component is one more than `h, m, s` can take. */
  lemma {:induction false} RejectsFourPieces(ts: string)
    requires ts == "1:2:3:4"
    ensures Seconds(ts) == Failure(TooManyValues(4))
  {
    assert ts == ts[..1] + ":" + ts[2..3] + ":" + ts[4..5] + ":" + ts[6..];
    FourDigitRuns(ts[..1], ts[2..3], ts[4..5], ts[6..]);
  }

  /** Four runs of digits all convert, and the unpacking into three names then fails. */
  lemma {:induction false} FourDigitRuns(a: string, b: string, c: string, d: string)
    requires |a| >= 1 && |b| >= 1 && |c| >= 1 && |d| >= 1
    requires AllDigits(a) && AllDigits(b) && AllDigits(c) && AllDigits(d)
    ensures Seconds(a + ":" + b + ":" + c + ":" + d) == Failure(TooManyValues(4))
  {
    var pieces := [a, b, c, d];
    SplitFour(a, b, c, d);
    assert DigitPieces(pieces);
    ParseAllDigits(pieces);
  }

  lemma {:induction false} SplitFour(a: string, b: string, c: string, d: string)
    requires AllDigits(a) && AllDigits(b) && AllDigits(c) && AllDigits(d)
    ensures Split(a + ":" + b + ":" + c + ":" + d) == [a, b, c, d]
  {
    assert a + ":" + b + ":" + c + ":" + d == a + ":" + (b + ":" + c + ":" + d);
    SplitDigitsColon(a, b + ":" + c + ":" + d);
    SplitThree(b, c, d);
  }

  /** `_hms_to_s` raises exactly when some piece is not an integer literal or
      there are more than three pieces. */
  lemma SecondsFailsIff(ts: string)
    ensures Seconds(ts).Failure? <==>
      (exists k :: 0 <= k < |Split(ts)| && ParseInt(Split(ts)[k]).None?) || |Split(ts)| > 3
  {
  }
}
