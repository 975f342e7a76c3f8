/** Stream selection in `_clip`: the direct media URL the bot hands to ffmpeg,
    chosen from what `yt_dlp.YoutubeDL.extract_info` returned. */
module Resolver {
  import opened Results

  /** One entry of `info["formats"]`; a key the entry lacks is `None`. */
  datatype Format = Format(ext: Option<string>, acodec: Option<string>, url: Option<string>)

  /** The result of `extract_info`, reduced to the keys the bot reads. */
  datatype Info = Info(url: Option<string>, formats: Option<seq<Format>>)

  /** Why the selection expression raises. */
  datatype SelectError =
    | MissingFormats    // `info["formats"]`: KeyError when the generator is built
    | NoPlayableStream  // `next(...)` found nothing: StopIteration, re-raised by the coroutine as RuntimeError
    | MissingFormatUrl  // `f["url"]` on the first qualifying format: KeyError

  /** The generator's filter: `f.get("ext") == "mp4" and f.get("acodec") != "none"`.
      A format without an `acodec` key qualifies. */
  predicate Playable(f: Format) {
    f.ext == Some("mp4") && f.acodec != Some("none")
  }

  /** The index `next(...)` stops at: the first qualifying format in list order. */
  function FirstPlayable(fs: seq<Format>): (k: Option<nat>)
    ensures k.Some? ==> k.value < |fs| && Playable(fs[k.value])
    ensures k.Some? ==> forall j :: 0 <= j < k.value ==> !Playable(fs[j])
    ensures k.None? <==> forall j :: 0 <= j < |fs| ==> !Playable(fs[j])
  {
    if fs == [] then None
    else if Playable(fs[0]) then Some(0)
    else
      match FirstPlayable(fs[1..])
      case None => None
      case Some(k) => Some(k + 1)
  }

  /** `info.get("url", next(f["url"] for f in info["formats"] if ...))`.
      Python evaluates the default before the lookup, so the formats are
      searched, and can raise, even when `info` has a top-level `url`. */
  function SelectStream(info: Info): Result<string, SelectError>
  {
    if info.formats.None? then Failure(MissingFormats)
    else
      var fs := info.formats.value;
      match FirstPlayable(fs)
      case None => Failure(NoPlayableStream)
      case Some(k) =>
        if fs[k].url.None? then Failure(MissingFormatUrl)
        else if info.url.Some? then Success(info.url.value)
        else Success(fs[k].url.value)
  }

  /** A top-level `url` wins whenever the selection succeeds. */
  lemma TopLevelUrlWins(info: Info)
    requires info.url.Some? && SelectStream(info).Success?
    ensures SelectStream(info) == Success(info.url.value)
  {
  }

  /** Without a top-level `url`, the first qualifying format is chosen, and
      no later one. */
  lemma {:induction false} FirstQualifyingChosen(info: Info, k: nat)
    requires info.url.None? && info.formats.Some? && k < |info.formats.value|
    requires Playable(info.formats.value[k]) && info.formats.value[k].url.Some?
    requires forall j :: 0 <= j < k ==> !Playable(info.formats.value[j])
    ensures SelectStream(info) == Success(info.formats.value[k].url.value)
  {
    var found := FirstPlayable(info.formats.value);
    assert found.Some?;
  }

  /** When no format qualifies the selection fails, with or without a
      top-level `url`. */
  lemma NoQualifyingFormatFails(info: Info)
    requires info.formats.Some?
    requires forall j :: 0 <= j < |info.formats.value| ==> !Playable(info.formats.value[j])
    ensures SelectStream(info) == Failure(NoPlayableStream)
  {
  }

  /** The selection succeeds exactly when there are formats, one qualifies,
      and the first that does carries a `url`. */
  lemma SelectSucceedsIff(info: Info)
    ensures SelectStream(info).Success? <==>
      info.formats.Some? &&
      (exists j :: 0 <= j < |info.formats.value| && Playable(info.formats.value[j])) &&
      info.formats.value[FirstPlayable(info.formats.value).value].url.Some?
  {
    if info.formats.Some? && exists j :: 0 <= j < |info.formats.value| && Playable(info.formats.value[j]) {
      var fs := info.formats.value;
      var j :| 0 <= j < |fs| && Playable(fs[j]);
      assert FirstPlayable(fs).Some?;
    }
  }

  /** A `webm` entry, then two qualifying `mp4` entries `A` and `B`: `A` is chosen. */
  lemma FirstOfTwoMp4Chosen()
    ensures SelectStream(Info(None, Some([
      Format(Some("webm"), Some("opus"), Some("W")),
      Format(Some("mp4"), Some("aac"), Some("A")),
      Format(Some("mp4"), Some("aac"), Some("B"))]))) == Success("A")
  {
    var fs := [
      Format(Some("webm"), Some("opus"), Some("W")),
      Format(Some("mp4"), Some("aac"), Some("A")),
      Format(Some("mp4"), Some("aac"), Some("B"))];
    FirstQualifyingChosen(Info(None, Some(fs)), 1);
  }

  /** A video-only `mp4` (`acodec` is `"none"`) is skipped; one with no
      `acodec` key is taken. */
  lemma SilentFormatSkipped()
    ensures SelectStream(Info(None, Some([
      Format(Some("mp4"), Some("none"), Some("V")),
      Format(Some("mp4"), None, Some("M"))]))) == Success("M")
  {
    var fs := [Format(Some("mp4"), Some("none"), Some("V")), Format(Some("mp4"), None, Some("M"))];
    FirstQualifyingChosen(Info(None, Some(fs)), 1);
  }
}
