/** The `/clip` command grammar: `CLIP_RE` applied to the arguments joined
    with single spaces, after the arity check. */
module Command {
  import opened Results
  import opened Text
  import opened Timestamp

  /** The named groups `url`, `t1` and `t2` of a successful match. */
  datatype Captures = Captures(url: string, t1: string, t2: string)

  /** The leading whitespace of `s` removed: what `\s*` or `\s+` consumes. */
  function DropSpaces(s: string): (r: string)
    ensures |r| <= |s| && r == s[|s| - |r|..]
    ensures AllSpace(s[..|s| - |r|])
    ensures r == [] || !IsSpace(r[0])
  {
    if s != [] && IsSpace(s[0]) then
      var r := DropSpaces(s[1..]);
      assert s[..|s| - |r|] == [s[0]] + s[1..][..|s| - 1 - |r|];
      r
    else s
  }

  /** The longest whitespace-free prefix of `s`: what `\S+` consumes when
      whitespace or the end must follow it. */
  function Token(s: string): (w: string)
    ensures |w| <= |s| && w == s[..|w|] && NoSpace(w)
    ensures |w| == |s| || IsSpace(s[|w|])
  {
    if s == [] || IsSpace(s[0]) then [] else [s[0]] + Token(s[1..])
  }

  /** `https?://\S+` matched against a whole whitespace-free token. */
  predicate IsUrl(w: string) {
    (|w| >= 8 && w[..7] == "http://") || (|w| >= 9 && w[..8] == "https://")
  }

  /** The length of the run of digits that starts `s`. */
  function DigitRun(s: string): (n: nat)
    ensures n <= |s| && AllDigits(s[..n])
    ensures n == |s| || !IsDigit(s[n])
  {
    if s != [] && IsDigit(s[0]) then
      var n := 1 + DigitRun(s[1..]);
      assert s[..n] == [s[0]] + s[1..][..n - 1];
      n
    else 0
  }

  /** `(?::\d{1,2}){0,n}` matched against the whole of `r`. A run of digits is
      always taken whole: a shorter one would leave a digit where the pattern
      needs a colon or the end of the token. */
  predicate ColonGroups(r: string, n: nat)
    decreases n
  {
    r == [] ||
    (n > 0 && |r| >= 2 && r[0] == ':' &&
     var j := DigitRun(r[1..]);
     1 <= j <= 2 && ColonGroups(r[1 + j..], n - 1))
  }

  /** `\d+(?::\d{1,2}){0,2}` matched against a whole whitespace-free token. */
  predicate IsTime(w: string) {
    var i := DigitRun(w);
    i >= 1 && ColonGroups(w[i..], 2)
  }

  /** Skip whitespace, then take one whitespace-free token: the token and
      what follows it, which is empty or starts with whitespace. */
  function Lex(s: string): (r: (string, string))
    ensures NoSpace(r.0) && (r.1 == [] || IsSpace(r.1[0]))
    ensures |r.1| < |s| || r.0 == []
  {
    var a := DropSpaces(s);
    var w := Token(a);
    (w, a[|w|..])
  }

  /** `CLIP_RE.match(s)`: `^\s*(url)\s+(t1)\s+(t2)\s*$`. The URL and the two
      times are each a whole whitespace-delimited token, because every group
      is followed by whitespace or by the end; `\s+` between two groups holds
      when something follows the earlier token, since that starts with
      whitespace. */
  function MatchClip(s: string): (m: Option<Captures>)
    ensures m.Some? ==> IsUrl(m.value.url) && IsTime(m.value.t1) && IsTime(m.value.t2)
    ensures m.Some? ==> NoSpace(m.value.url) && NoSpace(m.value.t1) && NoSpace(m.value.t2)
  {
    var (url, b) := Lex(s);
    var (t1, d) := Lex(b);
    var (t2, f) := Lex(d);
    if IsUrl(url) && b != [] && IsTime(t1) && d != [] && IsTime(t2) && DropSpaces(f) == [] then
      Some(Captures(url, t1, t2))
    else
      None
  }

  /** `" ".join(args)`. */
  function JoinSpaces(args: seq<string>): string
  {
    if args == [] then "" else if |args| == 1 then args[0] else args[0] + " " + JoinSpaces(args[1..])
  }

  /** What the transport hands over as `ctx.args`: the words of the message
      after the command, as `str.split()` produces them. */
  predicate Words(args: seq<string>) {
    forall k :: 0 <= k < |args| ==> |args[k]| >= 1 && NoSpace(args[k])
  }

  /** The components after the first: one or two digits each. */
  predicate ShortPieces(pieces: seq<string>) {
    forall k :: 0 <= k < |pieces| ==> 1 <= |pieces[k]| <= 2 && AllDigits(pieces[k])
  }

  /** What the pattern promises `_hms_to_s`: at most three colon-separated
      components, the first a run of digits, the others one or two digits. */
  predicate TimePieces(pieces: seq<string>) {
    1 <= |pieces| <= 3 && |pieces[0]| >= 1 && AllDigits(pieces[0]) && ShortPieces(pieces[1..])
  }

  lemma {:induction false} ColonGroupsPieces(r: string, n: nat)
    requires ColonGroups(r, n) && r != []
    ensures r[0] == ':' && |Split(r[1..])| <= n && ShortPieces(Split(r[1..]))
    decreases n
  {
    var j := DigitRun(r[1..]);
    var x, rest := r[1..][..j], r[1 + j..];
    if rest == [] {
      assert r[1..] == x;
      SplitDigits(x);
    } else {
      ColonGroupsPieces(rest, n - 1);
      assert r[1..] == x + ":" + rest[1..];
      SplitDigitsColon(x, rest[1..]);
    }
  }

  /** Every token the time pattern accepts splits into one to three
      components of digits. */
  lemma {:induction false} TimeTokenPieces(w: string)
    requires IsTime(w)
    ensures TimePieces(Split(w))
  {
    var i := DigitRun(w);
    var d, r := w[..i], w[i..];
    if r == [] {
      assert w == d;
      SplitDigits(d);
    } else {
      ColonGroupsPieces(r, 2);
      assert w == d + ":" + r[1..];
      SplitDigitsColon(d, r[1..]);
      assert Split(w)[1..] == Split(r[1..]);
    }
  }

  lemma {:induction false} SexagesimalNonNegative(vs: seq<int>)
    requires forall k :: 0 <= k < |vs| ==> vs[k] >= 0
    ensures Sexagesimal(vs) >= 0
    decreases |vs|
  {
    if vs != [] {
      SexagesimalNonNegative(vs[..|vs| - 1]);
    }
  }

  /** `_hms_to_s` never raises on a token the pattern accepted, and the number
      of seconds it returns is not negative. */
  lemma {:induction false} GrammarTokenConverts(w: string)
    requires IsTime(w)
    ensures Seconds(w).Success? && Seconds(w).value >= 0
  {
    TimeTokenPieces(w);
    var pieces := Split(w);
    assert DigitPieces(pieces) by {
      forall k | 0 <= k < |pieces| ensures |pieces[k]| >= 1 && AllDigits(pieces[k]) {
        if k > 0 { assert pieces[k] == pieces[1..][k - 1]; }
      }
    }
    DigitRunsConvert(w);
    SexagesimalNonNegative(DigitValues(pieces));
  }

  lemma {:induction false} DigitRunOf(x: string, rest: string)
    requires AllDigits(x) && (rest == [] || !IsDigit(rest[0]))
    ensures DigitRun(x + rest) == |x|
    decreases |x|
  {
    if x != [] {
      assert (x + rest)[1..] == x[1..] + rest;
      DigitRunOf(x[1..], rest);
    }
  }

  lemma {:induction false} ShortPiecesGroups(qs: seq<string>, n: nat)
    requires 1 <= |qs| <= n && ShortPieces(qs)
    ensures ColonGroups(":" + JoinColons(qs), n)
    decreases |qs|
  {
    var q := qs[0];
    assert 1 <= |q| <= 2 && AllDigits(q);
    if |qs| == 1 {
      assert ":" + JoinColons(qs) == ":" + q + [];
      ColonGroupStep(q, [], n);
    } else {
      var tail := ":" + JoinColons(qs[1..]);
      assert ":" + JoinColons(qs) == ":" + q + tail;
      ShortPiecesTail(qs);
      ShortPiecesGroups(qs[1..], n - 1);
      ColonGroupStep(q, tail, n);
    }
  }

  /** One `:\d{1,2}` group, then the rest. */
  lemma {:induction false} ColonGroupStep(q: string, rest: string, n: nat)
    requires 1 <= |q| <= 2 && AllDigits(q) && n > 0
    requires rest == [] || (rest[0] == ':' && ColonGroups(rest, n - 1))
    ensures ColonGroups(":" + q + rest, n)
  {
    var r := ":" + q + rest;
    assert r[1..] == q + rest;
    DigitRunOf(q, rest);
    assert r[1 + |q|..] == rest;
  }

  lemma ShortPiecesTail(qs: seq<string>)
    requires ShortPieces(qs) && |qs| >= 1
    ensures ShortPieces(qs[1..])
  {
    assert forall k :: 0 <= k < |qs| - 1 ==> qs[1..][k] == qs[k + 1];
  }

  /** The converse: a token of one to three digit components, all but the
      first one or two digits long, is accepted by the time pattern. */
  lemma {:induction false} TimeFromPieces(w: string)
    requires TimePieces(Split(w))
    ensures IsTime(w)
  {
    var pieces := Split(w);
    JoinSplit(w);
    var d := pieces[0];
    if |pieces| == 1 {
      assert w == d + [];
      DigitRunOf(d, []);
      assert w[|d|..] == [];
    } else {
      var tail := ":" + JoinColons(pieces[1..]);
      assert w == d + tail;
      DigitRunOf(d, tail);
      assert w[|d|..] == tail;
      ShortPiecesGroups(pieces[1..], 2);
    }
  }

  /** The time pattern accepts exactly the tokens whose colon-separated
      components are one to three runs of digits, all but the first of
      length one or two. */
  lemma TimeTokenIff(w: string)
    ensures IsTime(w) <==> TimePieces(Split(w))
  {
    if IsTime(w) { TimeTokenPieces(w); }
    if TimePieces(Split(w)) { TimeFromPieces(w); }
  }

  /** Nothing bounds a component below 60: `0:99` is a time (and
      `Timestamp.ExampleNinetyNine` reads it as 99 seconds). */
  lemma {:induction false} NoSixtyBound(w: string)
    requires w == "0:99"
    ensures IsTime(w)
  {
    var m, s := "0", "99";
    assert w == m + ":" + s;
    TwoPieceTime(m, s);
  }

  /** The numeral of a natural number is a time, and converts back to it. */
  lemma {:induction false} NumeralIsTime(n: nat)
    ensures IsTime(IntToString(n)) && Seconds(IntToString(n)) == Success(n)
  {
    var d := IntToString(n);
    SplitDigits(d);
    assert TimePieces([d]);
    TimeFromPieces(d);
    OneDigitRun(d);
  }

  /** `M:S` with one or two digits after the colon is a time. */
  lemma {:induction false} TwoPieceTime(m: string, s: string)
    requires |m| >= 1 && AllDigits(m) && 1 <= |s| <= 2 && AllDigits(s)
    ensures IsTime(m + ":" + s)
  {
    SplitTwo(m, s);
    var pieces := [m, s];
    assert pieces[0] == m && pieces[1..] == [s];
    assert TimePieces(pieces);
    TimeFromPieces(m + ":" + s);
  }

  lemma {:induction false} TokenOfWord(w: string, rest: string)
    requires NoSpace(w) && (rest == [] || IsSpace(rest[0]))
    ensures Token(w + rest) == w
    decreases |w|
  {
    if w != [] {
      assert (w + rest)[1..] == w[1..] + rest;
      TokenOfWord(w[1..], rest);
      assert [w[0]] + w[1..] == w;
    }
  }

  lemma WordsTail(args: seq<string>)
    requires Words(args) && |args| >= 1
    ensures Words(args[1..])
  {
    assert forall k :: 0 <= k < |args| - 1 ==> args[1..][k] == args[k + 1];
  }

  /** Scanning `" ".join(args)` from its start: the first token is the first
      argument, and what follows is empty or a space and the join of the others. */
  lemma {:induction false} LexJoin(args: seq<string>)
    requires Words(args) && |args| >= 1
    ensures Lex(JoinSpaces(args)) == (args[0], if |args| == 1 then [] else " " + JoinSpaces(args[1..]))
  {
    var w := args[0];
    var rest := if |args| == 1 then [] else " " + JoinSpaces(args[1..]);
    assert JoinSpaces(args) == w + rest;
    assert !IsSpace(w[0]);
    assert DropSpaces(w + rest) == w + rest;
    TokenOfWord(w, rest);
    assert (w + rest)[|w|..] == rest;
  }

  lemma LexAfterSpace(s: string)
    ensures Lex(" " + s) == Lex(s)
  {
    assert (" " + s)[1..] == s;
  }

  lemma {:induction false} MatchTooFew(args: seq<string>)
    requires Words(args) && |args| < 3
    ensures MatchClip(JoinSpaces(args)) == None
  {
    if |args| == 0 {
      assert JoinSpaces(args) == "";
      assert Lex("").0 == "";
    } else if |args| == 1 {
      LexJoin(args);
    } else {
      LexJoin(args);
      WordsTail(args);
      LexAfterSpace(JoinSpaces(args[1..]));
      LexJoin(args[1..]);
      assert args[1..][1..] == [];
    }
  }

  /** After the first two arguments, the scanner stands before the rest. */
  lemma {:induction false} LexTwice(args: seq<string>)
    requires Words(args) && |args| >= 3
    ensures Lex(JoinSpaces(args)) == (args[0], " " + JoinSpaces(args[1..]))
    ensures Lex(" " + JoinSpaces(args[1..])) == (args[1], " " + JoinSpaces(args[2..]))
  {
    LexJoin(args);
    WordsTail(args);
    LexAfterSpace(JoinSpaces(args[1..]));
    LexJoin(args[1..]);
    assert args[1..][1..] == args[2..];
  }

  lemma {:induction false} LexNotLast(rest: seq<string>)
    requires Words(rest) && |rest| >= 2
    ensures Lex(" " + JoinSpaces(rest)) == (rest[0], " " + JoinSpaces(rest[1..]))
    ensures DropSpaces(" " + JoinSpaces(rest[1..])) != []
  {
    LexAfterSpace(JoinSpaces(rest));
    LexJoin(rest);
    WordsTail(rest);
    var j := JoinSpaces(rest[1..]);
    assert j == rest[1..][0] + (if |rest| == 2 then [] else " " + JoinSpaces(rest[1..][1..]));
    assert j != [] && !IsSpace(j[0]);
    DropSpaceFirst(j);
  }

  lemma {:induction false} DropSpaceFirst(s: string)
    requires s != [] && !IsSpace(s[0])
    ensures DropSpaces(" " + s) == s
  {
    assert (" " + s)[1..] == s;
    assert DropSpaces(s) == s;
  }

  lemma WordsFrom(args: seq<string>, n: nat)
    requires Words(args) && n <= |args|
    ensures Words(args[n..])
  {
    assert forall k :: 0 <= k < |args| - n ==> args[n..][k] == args[k + n];
  }

  /** Three arguments scan as three tokens with nothing after the last. */
  lemma {:induction false} LexThree(args: seq<string>)
    requires Words(args) && |args| == 3
    ensures Lex(JoinSpaces(args)) == (args[0], " " + JoinSpaces(args[1..]))
    ensures Lex(" " + JoinSpaces(args[1..])) == (args[1], " " + JoinSpaces(args[2..]))
    ensures Lex(" " + JoinSpaces(args[2..])) == (args[2], [])
  {
    LexTwice(args);
    WordsFrom(args, 2);
    LexAfterSpace(JoinSpaces(args[2..]));
    LexJoin(args[2..]);
  }

  lemma MatchClipEnd(s: string, url: string, b: string, t1: string, d: string, t2: string)
    requires Lex(s) == (url, b) && Lex(b) == (t1, d) && Lex(d) == (t2, []) && b != [] && d != []
    ensures MatchClip(s) ==
      if IsUrl(url) && IsTime(t1) && IsTime(t2) then Some(Captures(url, t1, t2)) else None
  {
  }

  lemma {:induction false} MatchThree(args: seq<string>)
    requires Words(args) && |args| == 3
    ensures MatchClip(JoinSpaces(args)) ==
      if IsUrl(args[0]) && IsTime(args[1]) && IsTime(args[2])
      then Some(Captures(args[0], args[1], args[2]))
      else None
  {
    LexThree(args);
    MatchClipEnd(JoinSpaces(args), args[0], " " + JoinSpaces(args[1..]), args[1], " " + JoinSpaces(args[2..]), args[2]);
  }

  lemma {:induction false} MatchTooMany(args: seq<string>)
    requires Words(args) && |args| >= 4
    ensures MatchClip(JoinSpaces(args)) == None
  {
    LexTwice(args);
    LexThird(args);
    MatchClipTrailing(JoinSpaces(args), args[0], " " + JoinSpaces(args[1..]), args[1],
      " " + JoinSpaces(args[2..]), args[2], " " + JoinSpaces(args[3..]));
  }

  /** With four or more arguments, the third token is followed by more than whitespace. */
  lemma {:induction false} LexThird(args: seq<string>)
    requires Words(args) && |args| >= 4
    ensures Lex(" " + JoinSpaces(args[2..])) == (args[2], " " + JoinSpaces(args[3..]))
    ensures DropSpaces(" " + JoinSpaces(args[3..])) != []
  {
    WordsFrom(args, 2);
    LexNotLast(args[2..]);
    assert args[2..][1..] == args[3..];
  }

  /** Anything but whitespace after the third token defeats the final `\s*$`. */
  lemma MatchClipTrailing(s: string, url: string, b: string, t1: string, d: string, t2: string, f: string)
    requires Lex(s) == (url, b) && Lex(b) == (t1, d) && Lex(d) == (t2, f) && DropSpaces(f) != []
    ensures MatchClip(s) == None
  {
  }

  /** `CLIP_RE` on the arguments joined with spaces accepts exactly three
      arguments, a URL and two times, and captures them as they are; a fourth
      argument, a bad URL or a bad time is refused. */
  lemma MatchJoinedArgs(args: seq<string>)
    requires Words(args)
    ensures MatchClip(JoinSpaces(args)) ==
      if |args| == 3 && IsUrl(args[0]) && IsTime(args[1]) && IsTime(args[2])
      then Some(Captures(args[0], args[1], args[2]))
      else None
  {
    if |args| < 3 {
      MatchTooFew(args);
    } else if |args| == 3 {
      MatchThree(args);
    } else {
      MatchTooMany(args);
    }
  }
}
