# Clip bot core, modelled in Dafny

The repository is a Telegram bot, `bot.py`. It answers
`/clip <url> <start> <end>` with a stream-copied ffmpeg clip of the video.
This project models the logic between the raw `/clip` arguments and the
external tools, and proves properties of it:

- **`Timestamp`** (`timestamp.dfy`) models `_hms_to_s`. The method
  `HmsToSeconds` keeps the source's two loops: it converts every piece, then
  pads on the left with zeros. It is proved equal to the function `Seconds`,
  which reads the pieces as base-60 digits. Python's `int` (`Text.ParseInt`)
  is modelled: the surrounding whitespace it strips, one sign, and ASCII
  digits grouped by single underscores. Errors are modelled: the first piece `int` rejects,
  or more than three pieces for the unpacking.
- **`Command`** (`command.dfy`) models `CLIP_RE` as a scanner over the joined
  text.
  - `MatchClip` reads the URL and the two times, each a whole
    whitespace-delimited token.
  - `IsTime` is `\d+(:\d{1,2}){0,2}`.
  - Over the arguments the transport hands over, the pattern accepts exactly
    three of them: a URL and two times.
  - Every accepted time converts to a non-negative number of seconds.
- **`Resolver`** (`resolver.dfy`) models the stream selection. The `next(...)`
  default of `info.get` is evaluated first. So the selection raises when no
  format qualifies, even if `info` carries a top-level `url`.
- **`Clipper`** (`clipper.dfy`) models `_clip`:
  - resolution first, then the two conversions, then the range check, then
    the fifteen-word ffmpeg command;
  - `str(timedelta(seconds=s0))` as `FormatTimedelta`;
  - the exit status of `subprocess.run(..., check=True)`.
- **`Handler`** (`handler.dfy`) models `clip_cmd`:
  - The method `ClipCommand` records what it asks of the chat, yt-dlp, ffmpeg
    and the file system as a trace of `Event`s. The answers come in as
    parameters.
  - The failure edit records the text the chat sees: `⚠️ Failed: ` and
    `str(e)` of the exception caught (`NoteText`).
  - The temporary directory is `Unused`, `Held` or `Released`. A ghost
    variable follows it event by event through the handler.
  - `Replay` checks a trace against the directory's discipline:
    - it is made only while `Unused`, so at most once (`MadeAtMostOnce`);
    - the stream is resolved, ffmpeg runs and the upload happens only while
      it is `Held`;
    - the note is edited or deleted only while it is not `Held`, so after
      the `with` block is left.
- `Text` (`text.dfy`) holds the string conversions these share:
  `str.split(":")`, `int`, `str(int)` and `"%02d"`.
- `Results` (`results.dfy`) holds `Option` and `Result`.

## Model

| member | source | states |
|---|---|---|
| Text.ParseDigits | bot.py:27 | `int` of a non-empty ASCII digit string is the numeral's value |
| Text.IntToString | bot.py:52 | `str(n)` is a digit string whose value is `n` (a `-` and the digits of `-n` for negatives); it has no leading zero unless `n == 0`, and one or two characters below 10 and 100 |
| Text.Pad2 | bot.py:51 | `%02d` of `n` is a digit string of value `n`, two characters wide when `n < 100` |
| Text.SpacesStripped | bot.py:27 | `int` strips surrounding spaces and tabs: `" 5\t"` reads as 5 |
| Text.SeparatorNotStripped | bot.py:27 | U+001C is whitespace to `\s` but `int` does not strip it, so `"\x1c5"` is rejected |
| Text.JoinSplit | bot.py:27 | joining the pieces of `ts.split(":")` with `:` gives back `ts` |
| Timestamp.ParseAll | bot.py:27 | the comprehension succeeds exactly when every piece is an integer literal, with one value per piece, each the piece's `int` |
| Timestamp.FirstRejectedReported | bot.py:27 | the error names the first piece `int` rejects |
| Timestamp.HmsToSeconds | bot.py:26-30 | the loop-and-pad method returns exactly `Seconds(ts)`: the base-60 value of at most three pieces, or the error |
| Timestamp.LeadingZeroIgnored | bot.py:28 | `p.insert(0, 0)` does not change the base-60 value |
| Timestamp.Sexagesimal3 | bot.py:29-30 | with three components, the value is `h*3600 + m*60 + s` |
| Timestamp.DigitRunsConvert | bot.py:26-30 | one to three digit runs convert to the base-60 value of their numerals |
| Timestamp.ThreeDigitRuns | bot.py:26-30 | `h:m:s` made of digit runs converts to `h*3600 + m*60 + s` |
| Timestamp.ExampleSeconds | bot.py:26-30 | `"30"` converts to 30 |
| Timestamp.ExampleStart | bot.py:61 | `"0:30"` from the usage example converts to 30 |
| Timestamp.ExampleEnd | bot.py:61 | `"1:15"` from the usage example converts to 75 |
| Timestamp.ExampleHours | bot.py:26-30 | `"1:02:03"` converts to 3723 |
| Timestamp.ExampleNinetyNine | bot.py:26-30 | `"0:99"` converts to 99: there is no bound below 60 |
| Timestamp.RejectsNonNumeric | bot.py:27 | `"a:30"` fails, naming the piece `"a"` |
| Timestamp.RejectsEmpty | bot.py:27 | `""` fails: its one piece is empty |
| Timestamp.RejectsFourPieces | bot.py:29 | `"1:2:3:4"` fails on the unpacking with four values; nothing is truncated |
| Timestamp.FourDigitRuns | bot.py:29 | any four digit runs convert, and the unpacking then fails |
| Timestamp.SecondsFailsIff | bot.py:26-30 | conversion fails exactly when some piece is not an integer literal or there are more than three |
| Command.DropSpaces | bot.py:22 | `\s*` consumes the maximal whitespace prefix: every character it drops is whitespace, and what remains is empty or starts with a non-space |
| Command.Token | bot.py:22 | `\S+` takes the longest whitespace-free prefix, followed by whitespace or the end |
| Command.MatchClip | bot.py:21-24 | a match captures a URL and two times, none containing whitespace |
| Command.TimeTokenPieces | bot.py:22-23 | an accepted time splits into one to three digit pieces, all after the first one or two digits long |
| Command.TimeFromPieces | bot.py:22-23 | conversely, such pieces form an accepted time |
| Command.TimeTokenIff | bot.py:22-23 | the time pattern accepts exactly the tokens with that piece structure |
| Command.NoSixtyBound | bot.py:22-23 | `0:99` is an accepted time |
| Command.GrammarTokenConverts | bot.py:21-30 | `_hms_to_s` never fails on an accepted time, and its result is at least 0 |
| Command.NumeralIsTime | bot.py:22-30 | the numeral of any `n` is an accepted time that converts to `n` |
| Command.LexJoin | bot.py:63 | scanning `" ".join(args)` yields the first argument, then a space and the join of the rest |
| Command.MatchTooFew | bot.py:58-63 | fewer than three words never match |
| Command.MatchThree | bot.py:63 | three words match exactly when they are a URL and two times, and are captured unchanged |
| Command.MatchTooMany | bot.py:63-65 | a fourth word defeats the final `\s*$` |
| Command.MatchJoinedArgs | bot.py:58-66 | over any arguments, the pattern captures `(args[0], args[1], args[2])` exactly when there are three of them, a URL and two times, and refuses everything else |
| Resolver.FirstPlayable | bot.py:44-45 | the index found is the first format that is `mp4` with `acodec != "none"`; none is found exactly when no format qualifies |
| Resolver.TopLevelUrlWins | bot.py:42-43 | when selection succeeds and `info` has a `url`, that `url` is returned |
| Resolver.FirstQualifyingChosen | bot.py:42-46 | without a top-level `url`, the first qualifying format's `url` is chosen, and never a later one |
| Resolver.NoQualifyingFormatFails | bot.py:42-46 | with no qualifying format, selection fails even when a top-level `url` exists |
| Resolver.SelectSucceedsIff | bot.py:42-46 | selection succeeds exactly when there are formats, one qualifies, and the first that qualifies has a `url` |
| Resolver.FirstOfTwoMp4Chosen | bot.py:44-45 | of two qualifying `mp4` formats after a `webm`, the first is chosen |
| Resolver.SilentFormatSkipped | bot.py:45 | an `mp4` with `acodec` `"none"` is skipped; one without an `acodec` key qualifies |
| Clipper.Clip | bot.py:33-54 | `_clip` returns the command it ran, or the error it raised, exactly as `ClipResult` states |
| Clipper.ClipRunsExactly | bot.py:47-54 | ffmpeg runs exactly when the stream resolves, both times convert, `s0 < s1` and `timedelta(seconds=s0)` is within its day range. It runs the fixed 15-word argv with `-ss` formatted from `s0`, the stream, `-t str(s1-s0)` with `s1-s0 >= 1`, and the output path. The call succeeds exactly when that happens and the status is 0 |
| Clipper.ClipRunsIff | bot.py:47-54 | ffmpeg runs exactly when the stream resolves, both times convert, `s0 < s1` and the start is within `timedelta`'s day range |
| Clipper.ClipRunsArgv | bot.py:49-54 | when ffmpeg runs, its argv is built from the start offset, the selected stream, a duration of at least one second and the output path |
| Clipper.ClipFromArgv | bot.py:47-54 | the same, once `extract_info` has answered: ffmpeg runs only after the stream and both times were obtained |
| Clipper.ClipSucceedsIff | bot.py:53-54 | `_clip` returns exactly when ffmpeg ran and exited with status 0 |
| Clipper.StartOverflowRaises | bot.py:51 | a start of more than 999999999 days raises `OverflowError` from `timedelta`, and ffmpeg does not run |
| Clipper.OverflowPassesGrammar | bot.py:22-51 | the grammar accepts such a start: the numerals of `n` and `n + 1` are times, and with `n` past the day range `_clip` raises on the offset |
| Clipper.RangeCheckedBeforeCommand | bot.py:48 | `s1 <= s0` raises `end ≤ start` before any command is built |
| Clipper.ResolutionBeforeRange | bot.py:35-48 | extraction and selection errors take precedence over the timestamps, even for a reversed range |
| Clipper.GrammarTimesConvert | bot.py:47 | on grammar-accepted times, `_clip` never fails on a timestamp |
| Clipper.FormatTimedeltaRoundTrip | bot.py:51 | for `0 <= s0 < 86400`, `str(timedelta(seconds=s0))` is an accepted time that `_hms_to_s` reads back as `s0` |
| Clipper.FormatTimedeltaDays | bot.py:51 | from one day on, the formatted offset starts with the day count |
| Clipper.ClockSeconds | bot.py:51 | the `H:MM:SS` clock of `r` reads back as `r` |
| Clipper.ClockIsTime | bot.py:51 | the `H:MM:SS` clock is accepted by the time pattern |
| Clipper.FfmpegArgvFields | bot.py:50-53 | the argv has 15 words, with `-ss`, `-i` and `-t` followed by their values and the output path last |
| Clipper.FfmpegArgvReadsBack | bot.py:50-53 | when the start is under a day, the `-ss` and `-t` values read back as the start and the duration |
| Clipper.DurationReadsBack | bot.py:52 | `str(dur)` reads back as `dur` |
| Handler.ClipCommand | bot.py:57-85 | the handler's events are `RequestTrace`. Fewer than three args give only the usage reply; a refused pattern gives only "Can't parse that". The trace keeps the directory's discipline and ends with the directory not held; it makes the directory at most once and runs ffmpeg at most once |
| Handler.Fulfil | bot.py:68-85 | past the grammar, the events are `AcceptedTrace`; they keep the directory's discipline and leave it released when it was made, unused otherwise; it is made at most once and ffmpeg runs at most once |
| Handler.InWorkspace | bot.py:72-80 | the events inside the `with` block are making the directory, resolving the URL, then ffmpeg and the upload as `_clip`'s result allows; they end with the directory released |
| Handler.EnterWorkspace | bot.py:72-74 | making the directory and resolving the URL leave it held |
| Handler.UploadAndLeave | bot.py:74-80 | from a held directory, ffmpeg, the upload and leaving the block end with it released, and report the failure `_clip` or the upload raised |
| Handler.FailureNoteShown | bot.py:81-85 | the note is edited exactly when the request failed, to `⚠️ Failed: ` followed by `str(e)` of what was raised; otherwise it is deleted |
| Handler.ReversedRangeNote | bot.py:48-83 | for any request past the grammar whose directory and stream resolve and whose end does not follow its start, the note ends as `⚠️ Failed: end ≤ start` |
| Handler.SwappedExampleNote | bot.py:57-83 | `/clip https://x/y 1:15 0:30` passes the grammar and, once the video resolves, ends with the note edited to `⚠️ Failed: end ≤ start` |
| Handler.SwappedExampleMatches | bot.py:63-66 | the pattern captures `https://x/y`, `1:15` and `0:30` unchanged from those three arguments |
| Handler.RequestRefused | bot.py:58-65 | a request turned away by the arity check or the pattern gets one reply and no other event |
| Handler.RequestAccepted | bot.py:63-66 | an accepted request proceeds with the captured URL and times |
| Handler.RequestDoneIff | bot.py:57-85 | the request succeeds exactly when there are three words: a URL and two times. The directory must exist, yt-dlp must give a playable stream, and the end must follow the start. ffmpeg must exit 0 and the upload must raise nothing but `TimedOut` |
| Handler.AcceptedDoneIff | bot.py:71-85 | the same, for a request past the grammar; both also require the start to be within `timedelta`'s day range |
| Handler.AcceptedFfmpeg | bot.py:72-74 | ffmpeg runs with `argv` exactly when the directory exists and `_clip` reached the command `argv` |
| Handler.AcceptedUpload | bot.py:75-78 | the clip is uploaded exactly when the directory exists and `_clip` succeeded, with caption `[t1–t2] of url` |
| Handler.AcceptedEvents | bot.py:71-78 | ffmpeg and upload events occur only inside the temporary directory |
| Handler.AcceptedTimedOut | bot.py:79-80 | a `TimedOut` upload ends exactly like a completed one |
| Handler.TimedOutCountsAsDelivered | bot.py:75-85 | for any request, a `TimedOut` upload gives the same outcome and events as a completed one, so the note is deleted |
| Handler.AcceptedOutcome | bot.py:68-85 | an accepted request starts with the note and the chat action, and ends with the edit or the deletion of the note |
| Handler.AfterClipReleases | bot.py:72-80 | inside the directory, ffmpeg and the upload keep it held until the `with` block is left |
| Handler.AcceptedReleases | bot.py:71-85 | an accepted request's trace keeps the directory's discipline, and ends with it released when it was made and unused otherwise |
| Handler.MadeAtMostOnce | bot.py:72 | any trace the discipline allows makes the directory at most once, and not at all once it has been made |
| Handler.AcceptedOnce | bot.py:71-74 | an accepted request makes the directory at most once and runs ffmpeg at most once |
| Handler.ClipRunsOnce | bot.py:72-74 | the events inside the directory run ffmpeg at most once |
| Handler.RemakeRefused | bot.py:72 | making the directory a second time is refused by the discipline |
| Handler.NoteInsideRefused | bot.py:72-85 | deleting the note while the directory is held is refused by the discipline |
| Handler.WorkspaceReleased | bot.py:57-85 | every request, on every path, ends without holding the directory |
| Handler.NoTimestampFailure | bot.py:66-74 | no request ends with the failure edit for a bad timestamp |
| Handler.ReplayConcat | bot.py:71-85 | replaying two event sequences one after the other equals replaying their concatenation |

## Left out

- The Telegram transport is abstract: `reply_text`, `send_chat_action`, `edit_text`, `delete`, `start`, `main` and polling. A failure of the reply, the chat action, the note edit or the deletion is not modelled. Those calls are events in the trace.
- `yt_dlp.YoutubeDL(...).extract_info` is a network call. Its format options are not modelled. Its result is the parameter `fetched`: an `Info` with an optional `url` and optional formats, or the message it raised.
- `get_ffmpeg_exe`, `subprocess.run` and `TemporaryDirectory` are foreign calls. They are the parameters `ffmpeg`, `status` and `tempDir`. A failure while the directory is removed is not modelled.
- `ThreadPoolExecutor`, `run_in_executor`, asyncio scheduling, logging, the `TIMEOUTS` values, the Windows event-loop policy and the late `import asyncio` are concurrency or environment concerns. They have no behaviour to verify.
- Text.ParseInt: only ASCII digits are modelled; Python's other Unicode decimal digits are not.
- Text.ParseInt: the 4300-digit limit of `int` (Python 3.11 and later) is not modelled. `\d+` in `CLIP_RE` does not bound a time's length; such a time cannot arrive only because a Telegram message holds at most 4096 characters. `Command.GrammarTokenConverts` and `Handler.NoTimestampFailure` rely on that.
- Handler.Describe: negative exit statuses (a signal, in Python) are not modelled in the `CalledProcessError` text.
- Handler.Quoted: `repr` is modelled as plain single quotes. Its escaping is not: a quote, a backslash or a non-printable character in a rejected piece or in an argv word gives a different text. This affects the `FfmpegFailed` text, whose argv holds the ffmpeg path, the stream URL and the output path.
- Handler.ClipPath: paths are POSIX. `Path(td)/"clip.mp4"` is joined with `/`, and ffmpeg and temporary-directory paths are taken to hold no backslashes. On Windows, which the bot supports, the separator is `\` and `repr` doubles it, so the `RunFfmpeg` argv and the ffmpeg failure text differ there.
- Resolver.Format: non-string values in the yt-dlp dictionaries are not modelled. An `ext` or `acodec` is a string or absent.
- Command.MatchJoinedArgs: the "exactly when" is proved only under `Words(args)`, the shape `str.split()` gives `ctx.args`. For arbitrary text, `MatchClip`'s contract gives one direction only: a match captures a URL and two times. The bot's input always has the `Words` shape.

## Behaviour of bot.py worth knowing

- **Stream selection** (bot.py:42-46). The `next(...)` default of `info.get("url", ...)` is evaluated before the lookup. So the selection raises when no format qualifies, even when `info` has a top-level `url` (`Resolver.NoQualifyingFormatFails`).
- **Order of steps** (bot.py:47-48, 72-74). The grammar only checks the syntax of the times. Conversion and the range check happen inside `_clip`, after the temporary directory is made and the stream resolved (`Clipper.ResolutionBeforeRange`, `Handler.AcceptedDoneIff`). Because of the grammar, conversion cannot fail there (`Handler.NoTimestampFailure`), up to `int`'s 4300-digit limit. A time that long cannot arrive, because a Telegram message holds at most 4096 characters.
- **`-ss` format** (bot.py:51). The offset is `str(timedelta(seconds=s0))`: `H:MM:SS`, with an `N day(s), ` prefix from one day on (`Clipper.FormatTimedeltaDays`). A start beyond 999999999 days makes `timedelta` raise `OverflowError`, and the grammar lets such a start through (`Clipper.OverflowPassesGrammar`).
- **Error text** (bot.py:83). The failure edit shows `str(e)` of whatever was raised (`Handler.FailureNoteShown`, `Handler.ReversedRangeNote`).
