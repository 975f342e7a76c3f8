/** `clip_cmd`: the arity check, the `/clip` grammar, then a scoped temporary
    directory around `_clip` and the upload, with every outcome reported to
    the chat. The chat, yt-dlp, ffmpeg and the file system are abstract: the
    handler records what it asks of them as a trace of events, and their
    answers come in as parameters. */
module Handler {
  import opened Results
  import opened Text
  import opened Timestamp
  import opened Command
  import opened Resolver
  import opened Clipper

  const UsageText: string :=
    "Usage:\n/clip <YouTube-URL> <start> <end>\nExample: /clip https://youtu.be/ESXOAJRdcwQ 0:30 1:15"
  const UnparsedText: string := "Can't parse that \U{1F914}"
  const ClippingText: string := "\U{23F3} Clipping\U{2026}"
  const FailedPrefix: string := "\U{26A0}\U{FE0F} Failed: "

  /** What the handler asks of its collaborators, in order. */
  datatype Event =
    | Reply(text: string)            // `upd.message.reply_text`
    | ChatAction                     // `send_chat_action(UPLOAD_VIDEO)`
    | MakeTempDir                    // entering `tempfile.TemporaryDirectory()`
    | Resolve(url: string)           // `extract_info(url, download=False)`
    | RunFfmpeg(argv: seq<string>)   // `subprocess.run(cmd, check=True)`
    | SendVideo(caption: string)     // `upd.message.reply_video`
    | RemoveTempDir                  // leaving the `with` block
    | EditNote(text: string)         // `note.edit_text(text)`
    | DeleteNote                     // `note.delete()`

  /** How the upload ended. */
  datatype Delivery = Delivered | DeliveryTimedOut | DeliveryError(message: string)

  /** The exception the `try` block of `clip_cmd` catches. */
  datatype Caught =
    | WorkspaceFailed(message: string)  // `TemporaryDirectory()` raised
    | ClipFailed(error: ClipError)      // `_clip` raised
    | UploadFailed(message: string)     // `reply_video` raised something other than `TimedOut`

  /** What the chat sees in the end. */
  datatype Outcome = Usage | Unparsed | Failed(failure: Caught) | Done

  /** The upload's caption, `[t1–t2] of url`. */
  function Caption(url: string, t1: string, t2: string): string
  {
    "[" + t1 + "\U{2013}" + t2 + "] of " + url
  }

  /** Python's `repr` of a string made of printable characters without
      quotes or backslashes. */
  function Quoted(s: string): string
  {
    "'" + s + "'"
  }

  /** The comma-separated `repr`s inside the `repr` of a list of strings. */
  function QuotedAll(xs: seq<string>): string
  {
    if xs == [] then "" else if |xs| == 1 then Quoted(xs[0]) else Quoted(xs[0]) + ", " + QuotedAll(xs[1..])
  }

  /** `str(e)` for the exception `_clip` raises. */
  function Describe(e: ClipError): string
  {
    match e
    case ExtractFailed(message) => message
    case SelectFailed(MissingFormats) => Quoted("formats")
    case SelectFailed(MissingFormatUrl) => Quoted("url")
    case SelectFailed(NoPlayableStream) => "coroutine raised StopIteration"
    case BadTimestamp(InvalidLiteral(piece)) => "invalid literal for int() with base 10: " + Quoted(piece)
    case BadTimestamp(TooManyValues(_)) => "too many values to unpack (expected 3)"
    case EndNotAfterStart => "end \U{2264} start"
    case StartOverflow(seconds) =>
      var days := seconds / 86400;
      if -0x8000_0000 <= days < 0x8000_0000 then
        "days=" + IntToString(days) + "; must have magnitude <= " + IntToString(MaxDeltaDays)
      else
        "Python int too large to convert to C int"
    case FfmpegFailed(argv, status) =>
      "Command '[" + QuotedAll(argv) + "]' returned non-zero exit status " + IntToString(status) + "."
  }

  /** `str(e)` for the exception the `try` block caught. */
  function Raised(f: Caught): string
  {
    match f
    case WorkspaceFailed(message) => message
    case ClipFailed(error) => Describe(error)
    case UploadFailed(message) => message
  }

  /** The text the progress note is edited to, `f"⚠️ Failed: {e}"`. */
  function NoteText(f: Caught): string
  {
    FailedPrefix + Raised(f)
  }

  /** Where `_clip` writes the clip inside the temporary directory. */
  function ClipPath(tempDir: string): string
  {
    tempDir + "/clip.mp4"
  }

  /** How a request the grammar accepted ends, given what the temporary
      directory, yt-dlp, ffmpeg and the upload do. A `TimedOut` upload is only
      logged, so it ends like a completed one. */
  function Finish(c: Captures, ffmpeg: string, tempDir: Result<string, string>,
                  fetched: Result<Info, string>, status: int, delivery: Delivery): Outcome
  {
    if tempDir.Failure? then Failed(WorkspaceFailed(tempDir.error))
    else
      var r := ClipResult(fetched, c.t1, c.t2, ffmpeg, ClipPath(tempDir.value), status);
      if r.Failure? then Failed(ClipFailed(r.error))
      else if delivery.DeliveryError? then Failed(UploadFailed(delivery.message))
      else Done
  }

  /** The outcome of one `/clip` request. */
  function Request(args: seq<string>, ffmpeg: string, tempDir: Result<string, string>,
                   fetched: Result<Info, string>, status: int, delivery: Delivery): Outcome
  {
    if |args| < 3 then Usage
    else
      var m := MatchClip(JoinSpaces(args));
      if m.None? then Unparsed else Finish(m.value, ffmpeg, tempDir, fetched, status, delivery)
  }

  /** The temporary directory over one request: not made yet, held inside the
      `with` block, or removed on leaving it. */
  datatype Workspace = Unused | Held | Released

  /** The temporary directory's state after one more event; `None` when the
      event misuses it: makes it a second time, removes it when not held,
      resolves, runs ffmpeg or uploads outside it, or edits or deletes the
      note while still inside it. */
  function Step(ws: Workspace, e: Event): Option<Workspace>
  {
    match e
    case MakeTempDir => if ws == Unused then Some(Held) else None
    case RemoveTempDir => if ws == Held then Some(Released) else None
    case Resolve(_) => if ws == Held then Some(Held) else None
    case RunFfmpeg(_) => if ws == Held then Some(Held) else None
    case SendVideo(_) => if ws == Held then Some(Held) else None
    case EditNote(_) => if ws == Held then None else Some(ws)
    case DeleteNote => if ws == Held then None else Some(ws)
    case _ => Some(ws)
  }

  /** The temporary directory's state after a trace of events, starting from
      `ws`; `None` once an event misuses it. */
  function Replay(ws: Workspace, trace: seq<Event>): Option<Workspace>
    decreases |trace|
  {
    if trace == [] then Some(ws)
    else
      var next := Step(ws, trace[0]);
      if next.None? then None else Replay(next.value, trace[1..])
  }

  /** The temporary directory's state after a whole request. */
  function WorkspaceAfter(trace: seq<Event>): Option<Workspace>
  {
    Replay(Unused, trace)
  }

  /** Replaying two traces one after the other. */
  lemma {:induction false} ReplayConcat(ws: Workspace, a: seq<Event>, b: seq<Event>)
    ensures Replay(ws, a + b) ==
      if Replay(ws, a).None? then None else Replay(Replay(ws, a).value, b)
    decreases |a|
  {
    if a == [] {
      assert a + b == b;
    } else {
      assert (a + b)[1..] == a[1..] + b;
      var next := Step(ws, a[0]);
      if next.Some? {
        ReplayConcat(next.value, a[1..], b);
      }
    }
  }

  lemma {:induction false} ReplayOne(ws: Workspace, e: Event)
    ensures Replay(ws, [e]) == Step(ws, e)
  {
    assert [e][1..] == [];
  }

  /** Appending an allowed event moves the replayed state by one step. */
  lemma {:induction false} ReplayAppend(start: Workspace, trace: seq<Event>, ws: Workspace, e: Event)
    requires Replay(start, trace) == Some(ws) && Step(ws, e).Some?
    ensures Replay(start, trace + [e]) == Step(ws, e)
  {
    ReplayConcat(start, trace, [e]);
    ReplayOne(ws, e);
  }

  /** How many events of `trace` satisfy `p`. */
  function Count(trace: seq<Event>, p: Event -> bool): nat
    decreases |trace|
  {
    if trace == [] then 0 else (if p(trace[0]) then 1 else 0) + Count(trace[1..], p)
  }

  lemma {:induction false} CountConcat(a: seq<Event>, b: seq<Event>, p: Event -> bool)
    ensures Count(a + b, p) == Count(a, p) + Count(b, p)
    decreases |a|
  {
    if a == [] {
      assert a + b == b;
    } else {
      assert (a + b)[1..] == a[1..] + b;
      CountConcat(a[1..], b, p);
    }
  }

  lemma {:induction false} CountOne(e: Event, p: Event -> bool)
    ensures Count([e], p) == if p(e) then 1 else 0
  {
    assert [e][1..] == [];
  }

  predicate MakesTempDir(e: Event) {
    e.MakeTempDir?
  }

  predicate RunsFfmpeg(e: Event) {
    e.RunFfmpeg?
  }

  /** A trace the temporary directory's discipline allows makes it at most
      once, and not at all once it has been made. */
  lemma {:induction false} MadeAtMostOnce(ws: Workspace, trace: seq<Event>)
    requires Replay(ws, trace).Some?
    ensures Count(trace, MakesTempDir) <= if ws == Unused then 1 else 0
    decreases |trace|
  {
    if trace != [] {
      var next := Step(ws, trace[0]);
      MadeAtMostOnce(next.value, trace[1..]);
    }
  }

  /** The event that ends a request that got past the grammar. */
  function Closing(o: Outcome): Event
  {
    if o.Failed? then EditNote(NoteText(o.failure)) else DeleteNote
  }

  /** The events inside the temporary directory once `_clip` has returned
      `r`: the ffmpeg run it made, the upload when it succeeded, and leaving
      the `with` block. */
  function AfterClipEvents(c: Captures, r: Result<seq<string>, ClipError>): seq<Event>
  {
    (if Ran(r).Some? then [RunFfmpeg(Ran(r).value)] else []) +
    (if r.Success? then [SendVideo(Caption(c.url, c.t1, c.t2))] else []) +
    [RemoveTempDir]
  }

  /** The events of a request the grammar accepted. */
  function AcceptedTrace(c: Captures, ffmpeg: string, tempDir: Result<string, string>,
                         fetched: Result<Info, string>, status: int, delivery: Delivery): seq<Event>
  {
    [Reply(ClippingText), ChatAction] +
    (if tempDir.Failure? then []
     else
       [MakeTempDir, Resolve(c.url)] +
       AfterClipEvents(c, ClipResult(fetched, c.t1, c.t2, ffmpeg, ClipPath(tempDir.value), status))) +
    [Closing(Finish(c, ffmpeg, tempDir, fetched, status, delivery))]
  }

  /** The events of one `/clip` request. */
  function RequestTrace(args: seq<string>, ffmpeg: string, tempDir: Result<string, string>,
                        fetched: Result<Info, string>, status: int, delivery: Delivery): seq<Event>
  {
    if |args| < 3 then [Reply(UsageText)]
    else
      var m := MatchClip(JoinSpaces(args));
      if m.None? then [Reply(UnparsedText)]
      else AcceptedTrace(m.value, ffmpeg, tempDir, fetched, status, delivery)
  }

  /** The part of `clip_cmd` after the grammar: the progress note, then the
      temporary directory around `_clip` and the upload, then the note edited
      or deleted. `ws` follows the temporary directory. */
  method Fulfil(c: Captures, ffmpeg: string, tempDir: Result<string, string>,
                fetched: Result<Info, string>, status: int, delivery: Delivery)
    returns (trace: seq<Event>, ghost ws: Workspace)
    ensures trace == AcceptedTrace(c, ffmpeg, tempDir, fetched, status, delivery)
    ensures WorkspaceAfter(trace) == Some(ws)
    ensures ws == if tempDir.Success? then Released else Unused
    ensures Count(trace, MakesTempDir) <= 1 && Count(trace, RunsFfmpeg) <= 1
  {
    ws := Unused;
    var failure: Option<Caught>;
    var inside: seq<Event> := [];
    if tempDir.Failure? {
      failure := Some(WorkspaceFailed(tempDir.error));
    } else {
      inside, failure, ws := InWorkspace(c, ffmpeg, tempDir.value, fetched, status, delivery);
    }
    var closing := if failure.Some? then EditNote(NoteText(failure.value)) else DeleteNote;
    NoteAround(inside, ws, closing);
    trace := [Reply(ClippingText), ChatAction] + inside + [closing];
    AcceptedOnce(c, ffmpeg, tempDir, fetched, status, delivery);
  }

  /** The `with tempfile.TemporaryDirectory()` block once the directory
      exists: clip into it, upload the clip, leave the block, and say which
      exception, if any, escaped it. `ws` follows the directory. */
  method InWorkspace(c: Captures, ffmpeg: string, dir: string, fetched: Result<Info, string>,
                     status: int, delivery: Delivery)
    returns (events: seq<Event>, failure: Option<Caught>, ghost ws: Workspace)
    ensures var r := ClipResult(fetched, c.t1, c.t2, ffmpeg, ClipPath(dir), status);
      events == [MakeTempDir, Resolve(c.url)] + AfterClipEvents(c, r) &&
      failure == if r.Failure? then Some(ClipFailed(r.error))
                 else if delivery.DeliveryError? then Some(UploadFailed(delivery.message)) else None
    ensures WorkspaceAfter(events) == Some(ws) && ws == Released
  {
    events, ws := [MakeTempDir, Resolve(c.url)], Held;
    EnterWorkspace(c.url);
    var r := Clip(fetched, c.t1, c.t2, ffmpeg, ClipPath(dir), status);
    var rest;
    rest, failure, ws := UploadAndLeave(c, r, delivery);
    ReplayConcat(Unused, events, rest);
    events := events + rest;
  }

  /** Making the directory and resolving the URL leave it held. */
  lemma {:induction false} EnterWorkspace(url: string)
    ensures WorkspaceAfter([MakeTempDir, Resolve(url)]) == Some(Held)
  {
    ReplayConcat(Unused, [MakeTempDir], [Resolve(url)]);
    assert [MakeTempDir] + [Resolve(url)] == [MakeTempDir, Resolve(url)];
    ReplayOne(Unused, MakeTempDir);
    ReplayOne(Held, Resolve(url));
  }

  /** The rest of the block once `_clip` has returned `r`: the ffmpeg run it
      made, the upload when it succeeded, and leaving the block. `ws` follows
      the directory event by event, from held to removed. */
  method UploadAndLeave(c: Captures, r: Result<seq<string>, ClipError>, delivery: Delivery)
    returns (events: seq<Event>, failure: Option<Caught>, ghost ws: Workspace)
    ensures events == AfterClipEvents(c, r)
    ensures failure == if r.Failure? then Some(ClipFailed(r.error))
                       else if delivery.DeliveryError? then Some(UploadFailed(delivery.message)) else None
    ensures Replay(Held, events) == Some(ws) && ws == Released
  {
    events, ws := [], Held;
    if Ran(r).Some? {
      ReplayAppend(Held, events, ws, RunFfmpeg(Ran(r).value));
      events := events + [RunFfmpeg(Ran(r).value)];
    }
    if r.Failure? {
      failure := Some(ClipFailed(r.error));
    } else {
      ReplayAppend(Held, events, ws, SendVideo(Caption(c.url, c.t1, c.t2)));
      events := events + [SendVideo(Caption(c.url, c.t1, c.t2))];
      failure := if delivery.DeliveryError? then Some(UploadFailed(delivery.message)) else None;
    }
    ReplayAppend(Held, events, ws, RemoveTempDir);
    events, ws := events + [RemoveTempDir], Released;
  }

  /** `clip_cmd`: fewer than three arguments get the usage text and a text
      the grammar refuses gets "Can't parse that"; both return before any
      note, temporary directory or network call. Otherwise the rest of the
      request follows. */
  method ClipCommand(args: seq<string>, ffmpeg: string, tempDir: Result<string, string>,
                     fetched: Result<Info, string>, status: int, delivery: Delivery)
    returns (trace: seq<Event>, ghost ws: Workspace)
    ensures trace == RequestTrace(args, ffmpeg, tempDir, fetched, status, delivery)
    ensures |args| < 3 ==> trace == [Reply(UsageText)]
    ensures |args| >= 3 && MatchClip(JoinSpaces(args)).None? ==> trace == [Reply(UnparsedText)]
    ensures WorkspaceAfter(trace) == Some(ws) && ws != Held
    ensures Count(trace, MakesTempDir) <= 1 && Count(trace, RunsFfmpeg) <= 1
  {
    ws := Unused;
    if |args| < 3 {
      trace := [Reply(UsageText)];
      ReplayOne(Unused, Reply(UsageText));
      CountOne(Reply(UsageText), MakesTempDir);
      CountOne(Reply(UsageText), RunsFfmpeg);
      return;
    }
    var m := MatchClip(JoinSpaces(args));
    if m.None? {
      trace := [Reply(UnparsedText)];
      ReplayOne(Unused, Reply(UnparsedText));
      CountOne(Reply(UnparsedText), MakesTempDir);
      CountOne(Reply(UnparsedText), RunsFfmpeg);
      return;
    }
    trace, ws := Fulfil(m.value, ffmpeg, tempDir, fetched, status, delivery);
  }

  /** Inside the temporary directory the clip's events keep it held until
      the `with` block is left. */
  lemma {:induction false} AfterClipReleases(c: Captures, r: Result<seq<string>, ClipError>)
    ensures Replay(Held, AfterClipEvents(c, r)) == Some(Released)
  {
    var ran := if Ran(r).Some? then [RunFfmpeg(Ran(r).value)] else [];
    var sent := if r.Success? then [SendVideo(Caption(c.url, c.t1, c.t2))] else [];
    ReplayConcat(Held, ran + sent, [RemoveTempDir]);
    ReplayConcat(Held, ran, sent);
    if ran != [] { ReplayOne(Held, ran[0]); }
    if sent != [] { ReplayOne(Held, sent[0]); }
    ReplayOne(Held, RemoveTempDir);
  }

  /** A request the grammar accepted follows the temporary directory's
      discipline: it is made only when `TemporaryDirectory()` succeeds, used
      only while held, and removed before the note is edited or deleted. */
  lemma {:induction false} AcceptedReleases(c: Captures, ffmpeg: string, tempDir: Result<string, string>,
                                            fetched: Result<Info, string>, status: int, delivery: Delivery)
    ensures WorkspaceAfter(AcceptedTrace(c, ffmpeg, tempDir, fetched, status, delivery)) ==
      Some(if tempDir.Success? then Released else Unused)
  {
    var inside: seq<Event> := [];
    if tempDir.Success? {
      var r := ClipResult(fetched, c.t1, c.t2, ffmpeg, ClipPath(tempDir.value), status);
      inside := [MakeTempDir, Resolve(c.url)] + AfterClipEvents(c, r);
      WorkspaceSpan(c, r);
    }
    NoteAround(inside, if tempDir.Success? then Released else Unused,
               Closing(Finish(c, ffmpeg, tempDir, fetched, status, delivery)));
  }

  /** Making the workspace, resolving, clipping and uploading leave it removed. */
  lemma {:induction false} WorkspaceSpan(c: Captures, r: Result<seq<string>, ClipError>)
    ensures Replay(Unused, [MakeTempDir, Resolve(c.url)] + AfterClipEvents(c, r)) == Some(Released)
  {
    var enter: seq<Event> := [MakeTempDir, Resolve(c.url)];
    EnterWorkspace(c.url);
    ReplayConcat(Unused, enter, AfterClipEvents(c, r));
    AfterClipReleases(c, r);
  }

  /** The note before and its edit or deletion after leave the workspace as
      the events between them left it, once it is no longer held. */
  lemma {:induction false} NoteAround(inside: seq<Event>, ws: Workspace, closing: Event)
    requires Replay(Unused, inside) == Some(ws) && ws != Held
    requires closing.EditNote? || closing.DeleteNote?
    ensures Replay(Unused, [Reply(ClippingText), ChatAction] + inside + [closing]) == Some(ws)
  {
    var note: seq<Event> := [Reply(ClippingText), ChatAction];
    assert Replay(Unused, note) == Some(Unused) by {
      ReplayConcat(Unused, [Reply(ClippingText)], [ChatAction]);
      assert [Reply(ClippingText)] + [ChatAction] == note;
      ReplayOne(Unused, Reply(ClippingText));
      ReplayOne(Unused, ChatAction);
    }
    ReplayConcat(Unused, note, inside);
    ReplayConcat(Unused, note + inside, [closing]);
    ReplayOne(ws, closing);
  }

  /** Removing the directory and making it again is a misuse. */
  lemma {:induction false} RemakeRefused(trace: seq<Event>)
    requires trace == [MakeTempDir, RemoveTempDir, MakeTempDir, RemoveTempDir]
    ensures WorkspaceAfter(trace) == None
  {
    ReplayConcat(Unused, [MakeTempDir, RemoveTempDir], [MakeTempDir, RemoveTempDir]);
    assert [MakeTempDir, RemoveTempDir] + [MakeTempDir, RemoveTempDir] == trace;
    assert Replay(Unused, [MakeTempDir, RemoveTempDir]) == Some(Released);
  }

  /** Deleting the note while the directory is held is a misuse. */
  lemma {:induction false} NoteInsideRefused(trace: seq<Event>)
    requires trace == [MakeTempDir, DeleteNote, RemoveTempDir]
    ensures WorkspaceAfter(trace) == None
  {
    ReplayConcat(Unused, [MakeTempDir], [DeleteNote, RemoveTempDir]);
    assert [MakeTempDir] + [DeleteNote, RemoveTempDir] == trace;
    ReplayOne(Unused, MakeTempDir);
  }

  /** A request the grammar accepted makes the temporary directory at most
      once and runs ffmpeg at most once. */
  lemma {:induction false} AcceptedOnce(c: Captures, ffmpeg: string, tempDir: Result<string, string>,
                                        fetched: Result<Info, string>, status: int, delivery: Delivery)
    ensures Count(AcceptedTrace(c, ffmpeg, tempDir, fetched, status, delivery), MakesTempDir) <= 1
    ensures Count(AcceptedTrace(c, ffmpeg, tempDir, fetched, status, delivery), RunsFfmpeg) <= 1
  {
    AcceptedReleases(c, ffmpeg, tempDir, fetched, status, delivery);
    MadeAtMostOnce(Unused, AcceptedTrace(c, ffmpeg, tempDir, fetched, status, delivery));
    var note: seq<Event> := [Reply(ClippingText), ChatAction];
    var closing := [Closing(Finish(c, ffmpeg, tempDir, fetched, status, delivery))];
    var inside: seq<Event> := [];
    if tempDir.Success? {
      var r := ClipResult(fetched, c.t1, c.t2, ffmpeg, ClipPath(tempDir.value), status);
      inside := [MakeTempDir, Resolve(c.url)] + AfterClipEvents(c, r);
      ClipRunsOnce(c, r);
    }
    assert AcceptedTrace(c, ffmpeg, tempDir, fetched, status, delivery) == note + inside + closing;
    CountConcat(note + inside, closing, RunsFfmpeg);
    CountConcat(note, inside, RunsFfmpeg);
    assert Count(note, RunsFfmpeg) == 0 by { assert note[1..][1..] == []; }
    assert Count(closing, RunsFfmpeg) == 0 by { assert closing[1..] == []; }
  }

  /** The events inside the workspace start ffmpeg at most once. */
  lemma {:induction false} ClipRunsOnce(c: Captures, r: Result<seq<string>, ClipError>)
    ensures Count([MakeTempDir, Resolve(c.url)] + AfterClipEvents(c, r), RunsFfmpeg) <= 1
  {
    var enter: seq<Event> := [MakeTempDir, Resolve(c.url)];
    var ran := if Ran(r).Some? then [RunFfmpeg(Ran(r).value)] else [];
    var sent := if r.Success? then [SendVideo(Caption(c.url, c.t1, c.t2))] else [];
    assert enter + AfterClipEvents(c, r) == enter + ran + (sent + [RemoveTempDir]);
    CountConcat(enter + ran, sent + [RemoveTempDir], RunsFfmpeg);
    CountConcat(enter, ran, RunsFfmpeg);
    CountConcat(sent, [RemoveTempDir], RunsFfmpeg);
    assert Count(enter, RunsFfmpeg) == 0 by { assert enter[1..][1..] == []; }
    assert Count([RemoveTempDir], RunsFfmpeg) == 0 by { assert [RemoveTempDir][1..] == []; }
    if sent != [] { assert sent[1..] == []; }
    if ran != [] { assert ran[1..] == []; }
  }

  /** Every request, on every path, follows the temporary directory's
      discipline and ends without holding it; it is removed exactly when it
      was made. */
  lemma {:induction false} WorkspaceReleased(args: seq<string>, ffmpeg: string, tempDir: Result<string, string>,
                                             fetched: Result<Info, string>, status: int, delivery: Delivery)
    ensures WorkspaceAfter(RequestTrace(args, ffmpeg, tempDir, fetched, status, delivery)) ==
      Some(if |args| >= 3 && MatchClip(JoinSpaces(args)).Some? && tempDir.Success? then Released else Unused)
  {
    if |args| < 3 {
      ReplayOne(Unused, Reply(UsageText));
    } else if MatchClip(JoinSpaces(args)).None? {
      ReplayOne(Unused, Reply(UnparsedText));
    } else {
      AcceptedReleases(MatchClip(JoinSpaces(args)).value, ffmpeg, tempDir, fetched, status, delivery);
    }
  }

  /** A request the grammar accepted starts with the note and the chat
      action and ends with the event that reports its outcome. */
  lemma {:induction false} AcceptedOutcome(c: Captures, ffmpeg: string, tempDir: Result<string, string>,
                                           fetched: Result<Info, string>, status: int, delivery: Delivery)
    ensures var t := AcceptedTrace(c, ffmpeg, tempDir, fetched, status, delivery);
      |t| >= 3 && t[..2] == [Reply(ClippingText), ChatAction] &&
      t[|t| - 1] == Closing(Finish(c, ffmpeg, tempDir, fetched, status, delivery))
  {
    var t := AcceptedTrace(c, ffmpeg, tempDir, fetched, status, delivery);
    assert t[..2] == [Reply(ClippingText), ChatAction];
  }

  /** The note is edited exactly when the request failed, to
      `⚠️ Failed: ` followed by `str(e)` of what was raised; otherwise it is
      deleted. */
  lemma {:induction false} FailureNoteShown(c: Captures, ffmpeg: string, tempDir: Result<string, string>,
                                            fetched: Result<Info, string>, status: int, delivery: Delivery)
    ensures var t := AcceptedTrace(c, ffmpeg, tempDir, fetched, status, delivery);
      var o := Finish(c, ffmpeg, tempDir, fetched, status, delivery);
      |t| >= 1 &&
      (t[|t| - 1].EditNote? <==> o.Failed?) &&
      (!o.Failed? ==> t[|t| - 1] == DeleteNote) &&
      (o.Failed? ==> t[|t| - 1].text == FailedPrefix + Raised(o.failure) &&
                     t[|t| - 1].text[..|FailedPrefix|] == FailedPrefix)
  {
    AcceptedOutcome(c, ffmpeg, tempDir, fetched, status, delivery);
    var o := Finish(c, ffmpeg, tempDir, fetched, status, delivery);
    if o.Failed? {
      assert (FailedPrefix + Raised(o.failure))[..|FailedPrefix|] == FailedPrefix;
    }
  }

  /** A reversed range that reaches `_clip` ends with the note edited to
      `⚠️ Failed: end ≤ start`. */
  lemma {:induction false} ReversedRangeNote(c: Captures, ffmpeg: string, tempDir: Result<string, string>,
                                             fetched: Result<Info, string>, status: int, delivery: Delivery)
    requires tempDir.Success? && fetched.Success? && SelectStream(fetched.value).Success?
    requires Seconds(c.t1).Success? && Seconds(c.t2).Success? && Seconds(c.t2).value <= Seconds(c.t1).value
    ensures var t := AcceptedTrace(c, ffmpeg, tempDir, fetched, status, delivery);
      |t| >= 1 && t[|t| - 1] == EditNote(FailedPrefix + "end \U{2264} start")
  {
    RangeCheckedBeforeCommand(fetched, c.t1, c.t2, ffmpeg, ClipPath(tempDir.value), status);
    AcceptedOutcome(c, ffmpeg, tempDir, fetched, status, delivery);
  }

  /** `/clip https://x/y 1:15 0:30`, a reversed range: the chat sees
      `⚠️ Failed: end ≤ start` once yt-dlp has resolved the video. */
  lemma {:induction false} SwappedExampleNote(args: seq<string>, ffmpeg: string, tempDir: Result<string, string>,
                                              fetched: Result<Info, string>, status: int, delivery: Delivery)
    requires args == ["https://x/y", "1:15", "0:30"]
    requires tempDir.Success? && fetched.Success? && SelectStream(fetched.value).Success?
    ensures var t := RequestTrace(args, ffmpeg, tempDir, fetched, status, delivery);
      |t| >= 1 && t[|t| - 1] == EditNote(FailedPrefix + "end \U{2264} start")
  {
    SwappedExampleMatches(args);
    ExampleEnd(args[1]);
    ExampleStart(args[2]);
    RequestAccepted(args, ffmpeg, tempDir, fetched, status, delivery);
    ReversedRangeNote(Captures(args[0], args[1], args[2]), ffmpeg, tempDir, fetched, status, delivery);
  }

  /** `https://x/y 1:15 0:30` passes the grammar unchanged. */
  lemma {:induction false} SwappedExampleMatches(args: seq<string>)
    requires args == ["https://x/y", "1:15", "0:30"]
    ensures |args| >= 3 && MatchClip(JoinSpaces(args)) == Some(Captures(args[0], args[1], args[2]))
  {
    var url, t1, t2 := args[0], args[1], args[2];
    assert url[..8] == "https://";
    PrintableNoSpace(url);
    PrintableNoSpace(t1);
    PrintableNoSpace(t2);
    assert Words(args);
    assert t1 == "1" + ":" + "15" && t2 == "0" + ":" + "30";
    TwoPieceTime("1", "15");
    TwoPieceTime("0", "30");
    MatchThree(args);
  }

  /** Visible ASCII characters are not whitespace. */
  lemma PrintableNoSpace(w: string)
    requires forall i :: 0 <= i < |w| ==> '!' <= w[i] <= '~'
    ensures NoSpace(w)
  {
  }

  /** A request the grammar accepted is the captured request: its outcome
      and its events are those of the URL and the two times `CLIP_RE`
      captured. */
  lemma {:induction false} RequestAccepted(args: seq<string>, ffmpeg: string, tempDir: Result<string, string>,
                                           fetched: Result<Info, string>, status: int, delivery: Delivery)
    requires |args| >= 3 && MatchClip(JoinSpaces(args)).Some?
    ensures var c := MatchClip(JoinSpaces(args)).value;
      Request(args, ffmpeg, tempDir, fetched, status, delivery) ==
        Finish(c, ffmpeg, tempDir, fetched, status, delivery) &&
      RequestTrace(args, ffmpeg, tempDir, fetched, status, delivery) ==
        AcceptedTrace(c, ffmpeg, tempDir, fetched, status, delivery)
  {
  }

  /** In an accepted request ffmpeg runs with `argv` exactly when the
      temporary directory exists and `_clip` got as far as the command `argv`. */
  lemma {:induction false} AcceptedFfmpeg(c: Captures, ffmpeg: string, tempDir: Result<string, string>,
                                          fetched: Result<Info, string>, status: int, delivery: Delivery,
                                          argv: seq<string>)
    ensures RunFfmpeg(argv) in AcceptedTrace(c, ffmpeg, tempDir, fetched, status, delivery) <==>
      tempDir.Success? &&
      Ran(ClipResult(fetched, c.t1, c.t2, ffmpeg, ClipPath(tempDir.value), status)) == Some(argv)
  {
    AcceptedEvents(c, ffmpeg, tempDir, fetched, status, delivery, RunFfmpeg(argv));
  }

  /** In an accepted request the clip is uploaded with `caption` exactly when
      the temporary directory exists, `_clip` succeeded and `caption` is
      `[t1–t2] of url` of the captured tokens. */
  lemma {:induction false} AcceptedUpload(c: Captures, ffmpeg: string, tempDir: Result<string, string>,
                                          fetched: Result<Info, string>, status: int, delivery: Delivery,
                                          caption: string)
    ensures SendVideo(caption) in AcceptedTrace(c, ffmpeg, tempDir, fetched, status, delivery) <==>
      tempDir.Success? &&
      ClipResult(fetched, c.t1, c.t2, ffmpeg, ClipPath(tempDir.value), status).Success? &&
      caption == Caption(c.url, c.t1, c.t2)
  {
    AcceptedEvents(c, ffmpeg, tempDir, fetched, status, delivery, SendVideo(caption));
  }

  /** The ffmpeg and upload events of an accepted request are those of the
      workspace, which exists only when the temporary directory was made. */
  lemma {:induction false} AcceptedEvents(c: Captures, ffmpeg: string, tempDir: Result<string, string>,
                                          fetched: Result<Info, string>, status: int, delivery: Delivery,
                                          e: Event)
    requires e.RunFfmpeg? || e.SendVideo?
    ensures e in AcceptedTrace(c, ffmpeg, tempDir, fetched, status, delivery) <==>
      tempDir.Success? &&
      e in AfterClipEvents(c, ClipResult(fetched, c.t1, c.t2, ffmpeg, ClipPath(tempDir.value), status))
  {
    var note: seq<Event> := [Reply(ClippingText), ChatAction];
    var closing := Closing(Finish(c, ffmpeg, tempDir, fetched, status, delivery));
    if tempDir.Success? {
      var r := ClipResult(fetched, c.t1, c.t2, ffmpeg, ClipPath(tempDir.value), status);
      var inside := [MakeTempDir, Resolve(c.url)] + AfterClipEvents(c, r);
      assert AcceptedTrace(c, ffmpeg, tempDir, fetched, status, delivery) == note + inside + [closing];
      assert e in inside <==> e in AfterClipEvents(c, r);
    } else {
      assert AcceptedTrace(c, ffmpeg, tempDir, fetched, status, delivery) == note + [] + [closing];
    }
  }

  /** A `TimedOut` upload is only logged: an accepted request ends exactly as
      if the upload had completed. */
  lemma {:induction false} AcceptedTimedOut(c: Captures, ffmpeg: string, tempDir: Result<string, string>,
                                            fetched: Result<Info, string>, status: int)
    ensures Finish(c, ffmpeg, tempDir, fetched, status, DeliveryTimedOut) ==
            Finish(c, ffmpeg, tempDir, fetched, status, Delivered)
    ensures AcceptedTrace(c, ffmpeg, tempDir, fetched, status, DeliveryTimedOut) ==
            AcceptedTrace(c, ffmpeg, tempDir, fetched, status, Delivered)
  {
  }

  /** A `TimedOut` upload is only logged: the request ends exactly as if the
      upload had completed, with the note deleted. */
  lemma {:induction false} TimedOutCountsAsDelivered(args: seq<string>, ffmpeg: string, tempDir: Result<string, string>,
                                                     fetched: Result<Info, string>, status: int)
    ensures Request(args, ffmpeg, tempDir, fetched, status, DeliveryTimedOut) ==
            Request(args, ffmpeg, tempDir, fetched, status, Delivered)
    ensures RequestTrace(args, ffmpeg, tempDir, fetched, status, DeliveryTimedOut) ==
            RequestTrace(args, ffmpeg, tempDir, fetched, status, Delivered)
  {
    if |args| >= 3 && MatchClip(JoinSpaces(args)).Some? {
      AcceptedTimedOut(MatchClip(JoinSpaces(args)).value, ffmpeg, tempDir, fetched, status);
    }
  }

  /** An accepted request ends in success exactly when the temporary
      directory exists, yt-dlp answers with a playable stream, both times
      convert with the end after the start, the start fits a `timedelta`,
      ffmpeg exits with status 0 and the upload does not raise anything but
      `TimedOut`. */
  lemma {:induction false} AcceptedDoneIff(c: Captures, ffmpeg: string, tempDir: Result<string, string>,
                                           fetched: Result<Info, string>, status: int, delivery: Delivery)
    ensures Finish(c, ffmpeg, tempDir, fetched, status, delivery) == Done <==>
      tempDir.Success? && fetched.Success? && SelectStream(fetched.value).Success? &&
      Seconds(c.t1).Success? && Seconds(c.t2).Success? && Seconds(c.t1).value < Seconds(c.t2).value &&
      DaysInRange(Seconds(c.t1).value) && status == 0 && !delivery.DeliveryError?
  {
    if tempDir.Success? {
      ClipRunsExactly(fetched, c.t1, c.t2, ffmpeg, ClipPath(tempDir.value), status);
    }
  }

  /** On the words the transport hands over, a `/clip` request succeeds
      exactly when there are three of them, a URL and two times, the
      temporary directory exists, yt-dlp answers with a playable stream, the
      end lies after the start, the start fits a `timedelta`, ffmpeg exits
      with status 0 and the upload does not raise anything but `TimedOut`. */
  lemma {:induction false} RequestDoneIff(args: seq<string>, ffmpeg: string, tempDir: Result<string, string>,
                                          fetched: Result<Info, string>, status: int, delivery: Delivery)
    requires Words(args)
    ensures Request(args, ffmpeg, tempDir, fetched, status, delivery) == Done <==>
      |args| == 3 && IsUrl(args[0]) && IsTime(args[1]) && IsTime(args[2]) &&
      tempDir.Success? && fetched.Success? && SelectStream(fetched.value).Success? &&
      Seconds(args[1]).Success? && Seconds(args[2]).Success? &&
      Seconds(args[1]).value < Seconds(args[2]).value && DaysInRange(Seconds(args[1]).value) &&
      status == 0 && !delivery.DeliveryError?
  {
    MatchJoinedArgs(args);
    if |args| == 3 && IsUrl(args[0]) && IsTime(args[1]) && IsTime(args[2]) {
      var c := Captures(args[0], args[1], args[2]);
      assert MatchClip(JoinSpaces(args)) == Some(c);
      RequestAccepted(args, ffmpeg, tempDir, fetched, status, delivery);
      AcceptedDoneIff(c, ffmpeg, tempDir, fetched, status, delivery);
    } else {
      RequestRefused(args, ffmpeg, tempDir, fetched, status, delivery);
    }
  }

  /** A request the arity check or the pattern turns away is answered with a
      reply and nothing else. */
  lemma {:induction false} RequestRefused(args: seq<string>, ffmpeg: string, tempDir: Result<string, string>,
                                          fetched: Result<Info, string>, status: int, delivery: Delivery)
    requires |args| < 3 || MatchClip(JoinSpaces(args)).None?
    ensures Request(args, ffmpeg, tempDir, fetched, status, delivery) == if |args| < 3 then Usage else Unparsed
    ensures RequestTrace(args, ffmpeg, tempDir, fetched, status, delivery) ==
      [Reply(if |args| < 3 then UsageText else UnparsedText)]
  {
  }

  /** The times `CLIP_RE` captured always convert: no request fails on a
      timestamp. */
  lemma {:induction false} NoTimestampFailure(args: seq<string>, ffmpeg: string, tempDir: Result<string, string>,
                                              fetched: Result<Info, string>, status: int, delivery: Delivery)
    ensures var o := Request(args, ffmpeg, tempDir, fetched, status, delivery);
      !(o.Failed? && o.failure.ClipFailed? && o.failure.error.BadTimestamp?)
  {
    if |args| >= 3 && MatchClip(JoinSpaces(args)).Some? {
      var c := MatchClip(JoinSpaces(args)).value;
      RequestAccepted(args, ffmpeg, tempDir, fetched, status, delivery);
      if tempDir.Success? {
        GrammarTimesConvert(fetched, c.t1, c.t2, ffmpeg, ClipPath(tempDir.value), status);
      }
    }
  }
}
