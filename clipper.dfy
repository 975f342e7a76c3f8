/** `_clip`: resolve the stream, convert and check the range, build the ffmpeg
    command and run it. */
module Clipper {
  import opened Results
  import opened Text
  import opened Timestamp
  import opened Command
  import opened Resolver

  /** `"%d:%02d:%02d"` of the hours, minutes and seconds within a day. */
  function Clock(r: nat): string
    requires r < 86400
  {
    IntToString(r / 3600) + ":" + Pad2(r % 3600 / 60) + ":" + Pad2(r % 60)
  }

  /** `str(timedelta(seconds=s))`: `H:MM:SS`, preceded by `N day, ` or
      `N days, ` once the offset reaches a day. Dafny's `/` and `%` by a
      positive divisor round down, as Python's `divmod` does. */
  function FormatTimedelta(s: int): string
  {
    var days := s / 86400;
    if days == 0 then Clock(s % 86400)
    else IntToString(days) + " day" + (if days == 1 || days == -1 then "" else "s") + ", " + Clock(s % 86400)
  }

  /** `timedelta` keeps its day count within this magnitude. */
  const MaxDeltaDays: int := 999999999

  /** Whether `timedelta(seconds=s)` can be built: its day count, `s // 86400`,
      has a magnitude of at most `MaxDeltaDays`; otherwise it raises
      `OverflowError`. Stated without the division: the day count lies in
      that range exactly when `s` lies in these bounds. */
  predicate DaysInRange(s: int) {
    -MaxDeltaDays * 86400 <= s < (MaxDeltaDays + 1) * 86400
  }

  /** Hours, minutes and seconds of `r` add back up to `r`. */
  lemma HmsArithmetic(r: nat)
    ensures r / 3600 * 3600 + r % 3600 / 60 * 60 + r % 60 == r
  {
    var h, m := r / 3600, r % 3600;
    var a, b := m / 60, m % 60;
    assert r == (h * 60 + a) * 60 + b;
    SixtyRemainder(h * 60 + a, b);
  }

  lemma SixtyRemainder(k: int, b: int)
    requires 0 <= b < 60
    ensures (k * 60 + b) % 60 == b
  {
  }

  lemma {:induction false} ClockSeconds(r: nat)
    requires r < 86400
    ensures Seconds(Clock(r)) == Success(r)
  {
    var h, m, sec := IntToString(r / 3600), Pad2(r % 3600 / 60), Pad2(r % 60);
    ClockDigits(r);
    ThreeDigitRuns(h, m, sec);
  }

  /** The three fields of the clock are runs of digits whose base-60 value is `r`. */
  lemma {:induction false} ClockDigits(r: nat)
    requires r < 86400
    ensures var h, m, sec := IntToString(r / 3600), Pad2(r % 3600 / 60), Pad2(r % 60);
      Clock(r) == h + ":" + m + ":" + sec &&
      |h| >= 1 && |m| == 2 && |sec| == 2 && AllDigits(h) && AllDigits(m) && AllDigits(sec) &&
      DigitsValue(h) * 3600 + DigitsValue(m) * 60 + DigitsValue(sec) == r
  {
    HmsArithmetic(r);
  }

  lemma {:induction false} ClockIsTime(r: nat)
    requires r < 86400
    ensures IsTime(Clock(r))
  {
    var h, m, sec := IntToString(r / 3600), Pad2(r % 3600 / 60), Pad2(r % 60);
    SplitThree(h, m, sec);
    assert ShortPieces([h, m, sec][1..]);
    TimeFromPieces(Clock(r));
  }

  /** Under a day, the `-ss` value is a token the `/clip` grammar accepts and
      `_hms_to_s` reads back as the same offset. */
  lemma FormatTimedeltaRoundTrip(s: int)
    requires 0 <= s < 86400
    ensures IsTime(FormatTimedelta(s))
    ensures Seconds(FormatTimedelta(s)) == Success(s)
  {
    assert s / 86400 == 0 && s % 86400 == s;
    assert FormatTimedelta(s) == Clock(s);
    ClockIsTime(s);
    ClockSeconds(s);
  }

  /** From one day on, the day count comes first. */
  lemma FormatTimedeltaDays(s: int)
    requires s >= 86400
    ensures var days := IntToString(s / 86400);
            FormatTimedelta(s)[..|days|] == days && days != "0"
  {
  }

  /** The argument vector `_clip` hands to `subprocess.run`, given the `-ss`
      and `-t` values already formatted. */
  function FfmpegArgv(ffmpeg: string, ss: string, stream: string, t: string, out: string): seq<string>
  {
    [ffmpeg, "-hide_banner", "-loglevel", "error",
     "-ss", ss, "-i", stream,
     "-t", t, "-c", "copy", "-avoid_negative_ts", "make_zero",
     out]
  }

  /** Why `_clip` raises. */
  datatype ClipError =
    | ExtractFailed(message: string)              // `extract_info` raised
    | SelectFailed(cause: SelectError)            // the stream selection raised
    | BadTimestamp(reason: HmsError)              // `_hms_to_s` raised
    | EndNotAfterStart                            // `ValueError("end ≤ start")`
    | StartOverflow(seconds: int)                 // `timedelta(seconds=s0)` raised `OverflowError`
    | FfmpegFailed(argv: seq<string>, status: int) // `CalledProcessError` from `check=True`

  /** What `_clip` does, given what `extract_info` produced and the exit
      status ffmpeg would report: the command it ran, or why it raised. */
  function ClipResult(fetched: Result<Info, string>, t1: string, t2: string,
                      ffmpeg: string, out: string, status: int): Result<seq<string>, ClipError>
  {
    if fetched.Failure? then Failure(ExtractFailed(fetched.error))
    else ClipFrom(SelectStream(fetched.value), Seconds(t1), Seconds(t2), ffmpeg, out, status)
  }

  /** The rest of `_clip` once `extract_info` has answered, given the
      selected stream and what `_hms_to_s` made of each time; a failure is
      reported in the order `_clip` meets it: the stream, the start, the end,
      the range, the offset, then the exit status. */
  function ClipFrom(stream: Result<string, SelectError>, s0: Result<int, HmsError>, s1: Result<int, HmsError>,
                    ffmpeg: string, out: string, status: int): Result<seq<string>, ClipError>
  {
    if stream.Failure? then Failure(SelectFailed(stream.error))
    else if s0.Failure? then Failure(BadTimestamp(s0.error))
    else if s1.Failure? then Failure(BadTimestamp(s1.error))
    else if s1.value <= s0.value then Failure(EndNotAfterStart)
    else if !DaysInRange(s0.value) then Failure(StartOverflow(s0.value))
    else
      var argv := FfmpegArgv(ffmpeg, FormatTimedelta(s0.value), stream.value, IntToString(s1.value - s0.value), out);
      if status != 0 then Failure(FfmpegFailed(argv, status)) else Success(argv)
  }

  /** The command ffmpeg was started with, if `_clip` got that far. */
  function Ran(r: Result<seq<string>, ClipError>): Option<seq<string>>
  {
    match r
    case Success(argv) => Some(argv)
    case Failure(FfmpegFailed(argv, _)) => Some(argv)
    case Failure(_) => None
  }

  /** `_clip`: the stream is resolved before the timestamps are converted, and
      the range is checked before any command is built. */
  method Clip(fetched: Result<Info, string>, t1: string, t2: string,
              ffmpeg: string, out: string, status: int) returns (r: Result<seq<string>, ClipError>)
    ensures r == ClipResult(fetched, t1, t2, ffmpeg, out, status)
  {
    if fetched.Failure? {
      return Failure(ExtractFailed(fetched.error));
    }
    var stream := SelectStream(fetched.value);
    if stream.Failure? {
      return Failure(SelectFailed(stream.error));
    }
    var s0 := HmsToSeconds(t1);
    if s0.Failure? {
      return Failure(BadTimestamp(s0.error));
    }
    var s1 := HmsToSeconds(t2);
    if s1.Failure? {
      return Failure(BadTimestamp(s1.error));
    }
    if s1.value <= s0.value {
      return Failure(EndNotAfterStart);
    }
    if !DaysInRange(s0.value) {
      return Failure(StartOverflow(s0.value));
    }
    var duration := s1.value - s0.value;
    var argv := FfmpegArgv(ffmpeg, FormatTimedelta(s0.value), stream.value, IntToString(duration), out);
    if status != 0 {
      return Failure(FfmpegFailed(argv, status));
    }
    r := Success(argv);
  }

  /** ffmpeg runs exactly when the stream resolves, both timestamps convert,
      the end lies after the start and the start fits a `timedelta`; it then runs
      the fixed fifteen-word command with the start offset, the stream, a
      duration of at least one second and the output path. */
  lemma {:induction false} ClipRunsExactly(fetched: Result<Info, string>, t1: string, t2: string,
                                           ffmpeg: string, out: string, status: int)
    ensures var r := ClipResult(fetched, t1, t2, ffmpeg, out, status);
      Ran(r).Some? <==>
        fetched.Success? && SelectStream(fetched.value).Success? &&
        Seconds(t1).Success? && Seconds(t2).Success? && Seconds(t1).value < Seconds(t2).value &&
        DaysInRange(Seconds(t1).value)
    ensures var r := ClipResult(fetched, t1, t2, ffmpeg, out, status);
      Ran(r).Some? ==>
        var s0, s1 := Seconds(t1).value, Seconds(t2).value;
        s1 - s0 >= 1 &&
        Ran(r).value == [ffmpeg, "-hide_banner", "-loglevel", "error",
                         "-ss", FormatTimedelta(s0), "-i", SelectStream(fetched.value).value,
                         "-t", IntToString(s1 - s0), "-c", "copy", "-avoid_negative_ts", "make_zero",
                         out]
    ensures var r := ClipResult(fetched, t1, t2, ffmpeg, out, status);
      r.Success? <==> Ran(r).Some? && status == 0
  {
    ClipRunsIff(fetched, t1, t2, ffmpeg, out, status);
    ClipRunsArgv(fetched, t1, t2, ffmpeg, out, status);
    ClipSucceedsIff(fetched, t1, t2, ffmpeg, out, status);
  }

  lemma ClipRunsIff(fetched: Result<Info, string>, t1: string, t2: string,
                    ffmpeg: string, out: string, status: int)
    ensures var r := ClipResult(fetched, t1, t2, ffmpeg, out, status);
      Ran(r).Some? <==>
        fetched.Success? && SelectStream(fetched.value).Success? &&
        Seconds(t1).Success? && Seconds(t2).Success? && Seconds(t1).value < Seconds(t2).value &&
        DaysInRange(Seconds(t1).value)
  {
  }

  lemma {:induction false} ClipRunsArgv(fetched: Result<Info, string>, t1: string, t2: string,
                                        ffmpeg: string, out: string, status: int)
    ensures var r := ClipResult(fetched, t1, t2, ffmpeg, out, status);
      Ran(r).Some? ==>
        var s0, s1 := Seconds(t1).value, Seconds(t2).value;
        s1 - s0 >= 1 &&
        Ran(r).value == FfmpegArgv(ffmpeg, FormatTimedelta(s0), SelectStream(fetched.value).value, IntToString(s1 - s0), out)
  {
    if fetched.Success? {
      ClipFromArgv(SelectStream(fetched.value), Seconds(t1), Seconds(t2), ffmpeg, out, status);
    }
  }

  /** Once ffmpeg has run, its command is built from the stream, the start
      offset and a duration of at least one second. */
  lemma ClipFromArgv(stream: Result<string, SelectError>, s0: Result<int, HmsError>, s1: Result<int, HmsError>,
                     ffmpeg: string, out: string, status: int)
    ensures var r := ClipFrom(stream, s0, s1, ffmpeg, out, status);
      Ran(r).Some? ==>
        stream.Success? && s0.Success? && s1.Success? && s1.value - s0.value >= 1 &&
        Ran(r).value == FfmpegArgv(ffmpeg, FormatTimedelta(s0.value), stream.value, IntToString(s1.value - s0.value), out)
  {
  }

  lemma ClipSucceedsIff(fetched: Result<Info, string>, t1: string, t2: string,
                        ffmpeg: string, out: string, status: int)
    ensures var r := ClipResult(fetched, t1, t2, ffmpeg, out, status);
      r.Success? <==> Ran(r).Some? && status == 0
  {
  }

  /** An end at or before the start raises before any command is built. */
  lemma RangeCheckedBeforeCommand(fetched: Result<Info, string>, t1: string, t2: string,
                                  ffmpeg: string, out: string, status: int)
    requires fetched.Success? && SelectStream(fetched.value).Success?
    requires Seconds(t1).Success? && Seconds(t2).Success? && Seconds(t2).value <= Seconds(t1).value
    ensures ClipResult(fetched, t1, t2, ffmpeg, out, status) == Failure(EndNotAfterStart)
  {
  }

  /** Resolution comes first: its failures are reported whatever the
      timestamps are, even an empty or reversed range. */
  lemma ResolutionBeforeRange(fetched: Result<Info, string>, t1: string, t2: string,
                              ffmpeg: string, out: string, status: int)
    ensures fetched.Failure? ==>
      ClipResult(fetched, t1, t2, ffmpeg, out, status) == Failure(ExtractFailed(fetched.error))
    ensures fetched.Success? && SelectStream(fetched.value).Failure? ==>
      ClipResult(fetched, t1, t2, ffmpeg, out, status) == Failure(SelectFailed(SelectStream(fetched.value).error))
  {
  }

  /** A start of more than `MaxDeltaDays` days, after a valid range, makes
      `timedelta` raise before the command is built. */
  lemma StartOverflowRaises(fetched: Result<Info, string>, t1: string, t2: string,
                            ffmpeg: string, out: string, status: int)
    requires fetched.Success? && SelectStream(fetched.value).Success?
    requires Seconds(t1).Success? && Seconds(t2).Success? && Seconds(t1).value < Seconds(t2).value
    requires Seconds(t1).value / 86400 > MaxDeltaDays
    ensures ClipResult(fetched, t1, t2, ffmpeg, out, status) == Failure(StartOverflow(Seconds(t1).value))
    ensures Ran(ClipResult(fetched, t1, t2, ffmpeg, out, status)).None?
  {
  }

  /** `\d+` has no bound, so the grammar lets such a start through: the
      numeral of any `n`, and of `n + 1`, are times that convert to `n` and
      `n + 1`, and once `n` reaches `86400000000000` (more than
      `MaxDeltaDays` days) `_clip` raises on the offset. */
  lemma {:induction false} OverflowPassesGrammar(fetched: Result<Info, string>, ffmpeg: string, out: string,
                                                  status: int, n: nat)
    requires fetched.Success? && SelectStream(fetched.value).Success?
    requires n / 86400 > MaxDeltaDays
    ensures IsTime(IntToString(n)) && IsTime(IntToString(n + 1))
    ensures ClipResult(fetched, IntToString(n), IntToString(n + 1), ffmpeg, out, status) ==
            Failure(StartOverflow(n))
  {
    var t1, t2 := IntToString(n), IntToString(n + 1);
    NumeralIsTime(n);
    NumeralIsTime(n + 1);
    StartOverflowRaises(fetched, t1, t2, ffmpeg, out, status);
  }

  /** On tokens the `/clip` grammar accepted, `_clip` never fails on a
      timestamp. */
  lemma {:induction false} GrammarTimesConvert(fetched: Result<Info, string>, t1: string, t2: string,
                                               ffmpeg: string, out: string, status: int)
    requires IsTime(t1) && IsTime(t2)
    ensures !ClipResult(fetched, t1, t2, ffmpeg, out, status).Failure? ||
            !ClipResult(fetched, t1, t2, ffmpeg, out, status).error.BadTimestamp?
  {
    GrammarTokenConverts(t1);
    GrammarTokenConverts(t2);
  }

  /** The `-t` value reads back as the duration. */
  lemma {:induction false} DurationReadsBack(duration: int)
    requires duration >= 1
    ensures ParseInt(IntToString(duration)) == Some(duration)
  {
    var d := IntToString(duration);
    ParseDigits(d);
  }

  /** Where the options and their values sit in the argument vector. */
  lemma FfmpegArgvFields(ffmpeg: string, ss: string, stream: string, t: string, out: string)
    ensures var argv := FfmpegArgv(ffmpeg, ss, stream, t, out);
      |argv| == 15 && argv[0] == ffmpeg && argv[4] == "-ss" && argv[5] == ss &&
      argv[6] == "-i" && argv[7] == stream && argv[8] == "-t" && argv[9] == t && argv[14] == out
  {
  }

  /** ffmpeg reads the `-ss` and `-t` values back as the offset and the
      duration they were built from, when the start lies within the first day. */
  lemma {:induction false} FfmpegArgvReadsBack(ffmpeg: string, start: int, stream: string, duration: int, out: string)
    requires 0 <= start < 86400 && duration >= 1
    ensures var argv := FfmpegArgv(ffmpeg, FormatTimedelta(start), stream, IntToString(duration), out);
      |argv| == 15 && argv[4] == "-ss" && argv[8] == "-t" && argv[6] == "-i" &&
      Seconds(argv[5]) == Success(start) && ParseInt(argv[9]) == Some(duration) &&
      argv[7] == stream && argv[14] == out
  {
    FfmpegArgvFields(ffmpeg, FormatTimedelta(start), stream, IntToString(duration), out);
    FormatTimedeltaRoundTrip(start);
    DurationReadsBack(duration);
  }
}
