/**
 * The transcription service: `process_transcription` downloads the media to a fixed local path,
 * runs the speech model on it, shapes the model's output as a transcript or as a list of SRT
 * subtitles, and removes the downloaded file when (and only when) it succeeded.
 *
 * The download, the speech model and SRT serialisation are collaborators whose outcomes are
 * parameters; the local file system is a set of paths held by `Host`, and every collaborator
 * call is appended to `Host.calls`.
 */
module Transcription {
  import opened Common

  /** The local storage directory for downloaded media. */
  const STORAGE_PATH: string := "/tmp/"

  /** The name of the speech model that is loaded. */
  const MODEL_NAME: string := "base"

  /** `str(e)` of the ValueError raised for an unknown output type. */
  const INVALID_OUTPUT_TYPE: string := "Invalid output type. Must be 'transcript' or 'srt'."

  /** POSIX `os.path.join(dir, name)` for two components. */
  function JoinPath(dir: string, name: string): string
  {
    if |name| > 0 && name[0] == '/' then name
    else if dir == [] || dir[|dir| - 1] == '/' then dir + name
    else dir + "/" + name
  }

  /** The path every download is written to: the same for every request. */
  function InputTarget(): (p: string)
    ensures p == "/tmp/input_media"
  {
    JoinPath(STORAGE_PATH, "input_media")
  }

  // ---------------------------------------------------------------------------------------------
  // The speech model's output and the subtitles built from it
  // ---------------------------------------------------------------------------------------------

  /** A segment boundary as the model reports it; the service only copies it. */
  type Timestamp = int

  datatype Segment = Segment(start: Timestamp, end: Timestamp, text: string)

  /** What `model.transcribe` returns: the full `text` and its timed `segments`. */
  datatype ModelOutput = ModelOutput(text: string, segments: seq<Segment>)

  /** An `srt.Subtitle(index, start, end, content)`. */
  datatype Subtitle = Subtitle(index: nat, start: Timestamp, end: Timestamp, content: string)

  /** The characters Python's `str.strip()` removes (those for which `str.isspace()` holds). */
  predicate IsSpace(c: char)
  {
    || '\U{0009}' <= c <= '\U{000D}'
    || '\U{001C}' <= c <= '\U{0020}'
    || c == '\U{0085}' || c == '\U{00A0}' || c == '\U{1680}'
    || '\U{2000}' <= c <= '\U{200A}'
    || c == '\U{2028}' || c == '\U{2029}' || c == '\U{202F}' || c == '\U{205F}' || c == '\U{3000}'
  }

  /** `s` with its leading whitespace removed. */
  function TrimStart(s: string): string
  {
    if s != [] && IsSpace(s[0]) then TrimStart(s[1..]) else s
  }

  /** `s` with its trailing whitespace removed. */
  function TrimEnd(s: string): string
  {
    if s != [] && IsSpace(s[|s| - 1]) then TrimEnd(s[..|s| - 1]) else s
  }

  /** Python's `str.strip()`. */
  function Strip(s: string): string
  {
    TrimEnd(TrimStart(s))
  }

  /** `TrimStart` drops a whitespace prefix and keeps the rest, which starts with a non-space. */
  lemma {:induction false} TrimStartSpec(s: string)
    ensures |TrimStart(s)| <= |s| && TrimStart(s) == s[|s| - |TrimStart(s)|..]
    ensures forall k :: 0 <= k < |s| - |TrimStart(s)| ==> IsSpace(s[k])
    ensures TrimStart(s) != [] ==> !IsSpace(TrimStart(s)[0])
  {
    if s != [] && IsSpace(s[0]) {
      TrimStartSpec(s[1..]);
      var r := TrimStart(s[1..]);
      assert TrimStart(s) == r;
      assert s[1..][|s| - 1 - |r|..] == s[|s| - |r|..];
      forall k | 1 <= k < |s| - |r|
        ensures IsSpace(s[k])
      {
        assert s[k] == s[1..][k - 1];
      }
    }
  }

  /** `TrimEnd` drops a whitespace suffix and keeps the rest, which ends with a non-space. */
  lemma {:induction false} TrimEndSpec(s: string)
    ensures |TrimEnd(s)| <= |s| && TrimEnd(s) == s[..|TrimEnd(s)|]
    ensures forall k :: |TrimEnd(s)| <= k < |s| ==> IsSpace(s[k])
    ensures TrimEnd(s) != [] ==> !IsSpace(TrimEnd(s)[|TrimEnd(s)| - 1])
  {
    if s != [] && IsSpace(s[|s| - 1]) {
      var init := s[..|s| - 1];
      TrimEndSpec(init);
      var r := TrimEnd(init);
      assert TrimEnd(s) == r;
      assert init[..|r|] == s[..|r|];
      forall k | |r| <= k < |s| - 1
        ensures IsSpace(s[k])
      {
        assert s[k] == init[k];
      }
    }
  }

  /**
   * What `strip` keeps is the slice `s[i..j]`; everything before `i` and from `j` on is
   * whitespace, and the slice neither starts nor ends with whitespace.
   */
  lemma StripSpec(s: string) returns (i: nat, j: nat)
    ensures i <= j <= |s| && Strip(s) == s[i..j]
    ensures forall k :: 0 <= k < i ==> IsSpace(s[k])
    ensures forall k :: j <= k < |s| ==> IsSpace(s[k])
    ensures Strip(s) != [] ==> !IsSpace(Strip(s)[0]) && !IsSpace(Strip(s)[|Strip(s)| - 1])
  {
    var t := TrimStart(s);
    TrimStartSpec(s);
    TrimEndSpec(t);
    var r := TrimEnd(t);
    i := |s| - |t|;
    j := i + |r|;
    assert r == s[i..j];
    forall k | j <= k < |s|
      ensures IsSpace(s[k])
    {
      assert s[k] == t[k - i];
    }
    if r != [] {
      assert r[0] == t[0];
    }
  }

  /** Stripping twice strips nothing more. */
  lemma StripIdempotent(s: string)
    ensures Strip(Strip(s)) == Strip(s)
  {
    var r := Strip(s);
    var i, j := StripSpec(s);
    if r != [] {
      assert TrimStart(r) == r;
      assert TrimEnd(r) == r;
    }
  }

  /** The subtitle for one segment: its boundaries, and its text stripped. */
  function SubtitleFor(index: nat, seg: Segment): Subtitle
  {
    Subtitle(index, seg.start, seg.end, Strip(seg.text))
  }

  /** `[Subtitle(i, ...) for i, segment in enumerate(segments, start=first)]`. */
  function Enumerate(segments: seq<Segment>, first: nat): seq<Subtitle>
  {
    seq(|segments|, k requires 0 <= k < |segments| => SubtitleFor(first + k, segments[k]))
  }

  /** The loop that turns the model's segments into SRT subtitles, numbered from 1. */
  method BuildSubtitles(segments: seq<Segment>) returns (subtitles: seq<Subtitle>)
    ensures subtitles == Enumerate(segments, 1)
    ensures |subtitles| == |segments|
    ensures forall k :: 0 <= k < |segments| ==>
      && subtitles[k].index == k + 1
      && subtitles[k].start == segments[k].start
      && subtitles[k].end == segments[k].end
      && subtitles[k].content == Strip(segments[k].text)
  {
    subtitles := [];
    var i := 0;
    while i < |segments|
      invariant 0 <= i <= |segments|
      invariant |subtitles| == i
      invariant forall k :: 0 <= k < i ==> subtitles[k] == SubtitleFor(k + 1, segments[k])
    {
      var segment := segments[i];
      subtitles := subtitles + [Subtitle(i + 1, segment.start, segment.end, Strip(segment.text))];
      i := i + 1;
    }
  }

  /**
   * The output selected by `outputType` from the model's output: the transcript text, the SRT
   * document composed from the subtitles, or the invalid-output-type error.
   */
  function Render(outputType: string, out: ModelOutput, compose: seq<Subtitle> -> string): (r: Result<string>)
    ensures outputType == "transcript" ==> r == Ok(out.text)
    ensures outputType == "srt" ==> r == Ok(compose(Enumerate(out.segments, 1)))
    ensures r.Err? <==> outputType != "transcript" && outputType != "srt"
    ensures r.Err? ==> r.msg == INVALID_OUTPUT_TYPE
  {
    if outputType == "transcript" then Ok(out.text)
    else if outputType == "srt" then Ok(compose(Enumerate(out.segments, 1)))
    else Err(INVALID_OUTPUT_TYPE)
  }

  /** A collaborator call the service makes. */
  datatype Call =
    | Download(url: string, target: string)  // download_file(url, target)
    | RunModel(model: string, file: string)  // whisper.load_model(model).transcribe(file)
    | Remove(file: string)                   // os.remove(file)

  /** The process running the service: its local files and the collaborator calls made so far. */
  class Host {
    var files: set<string>
    var calls: seq<Call>

    constructor ()
      ensures files == {} && calls == []
    {
      files := {};
      calls := [];
    }

    /**
     * `process_transcription(media_url, output_type)`. `downloaded` is what `download_file`
     * returns (the local file name) or raises, `transcribed` what loading and running the
     * model returns or raises, `compose` is `srt.compose`.
     */
    method ProcessTranscription(mediaUrl: string, outputType: string, downloaded: Result<string>,
                                transcribed: Result<ModelOutput>, compose: seq<Subtitle> -> string)
      returns (r: Result<string>)
      modifies this
      // a failed download raises before anything is stored or the model runs
      ensures downloaded.Err? ==>
        && r == Err(downloaded.msg)
        && files == old(files)
        && calls == old(calls) + [Download(mediaUrl, InputTarget())]
      // otherwise the model always runs on the downloaded file, whatever the output type,
      // and the file is removed exactly when an output was produced
      ensures downloaded.Ok? ==>
        var file := downloaded.value;
        && r == (if transcribed.Err? then Err(transcribed.msg) else Render(outputType, transcribed.value, compose))
        && calls == old(calls) + [Download(mediaUrl, InputTarget()), RunModel(MODEL_NAME, file)]
                               + (if r.Ok? then [Remove(file)] else [])
        && files == (if r.Ok? then old(files) - {file} else old(files) + {file})
    {
      var target := InputTarget();
      calls := calls + [Download(mediaUrl, target)];
      if downloaded.Err? {
        return Err(downloaded.msg);
      }
      var inputFilename := downloaded.value;
      files := files + {inputFilename};

      calls := calls + [RunModel(MODEL_NAME, inputFilename)];
      if transcribed.Err? {
        return Err(transcribed.msg);
      }
      var result := transcribed.value;

      var output: string;
      if outputType == "transcript" {
        output := result.text;
      } else if outputType == "srt" {
        var srtSubtitles := BuildSubtitles(result.segments);
        output := compose(srtSubtitles);
      } else {
        return Err(INVALID_OUTPUT_TYPE);
      }

      calls := calls + [Remove(inputFilename)];
      files := files - {inputFilename};
      return Ok(output);
    }
  }
}
