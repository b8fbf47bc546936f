/** The events `stream_chat_response` and `stream_single_response`
    (backend/endpoints/chat.py) send to the browser, and their framing: each
    event is one JSON object written by `json.dumps`, followed by a single
    line feed (newline-delimited JSON). */
module Events {
  import opened Common
  import opened Remote
  import Json

  /** A file downloaded for a completed answer. */
  datatype FileInfo = FileInfo(fileId: Id, filename: string, path: string)

  /** The three event types. `files` is None in the error events, which
      carry no `files` key. */
  datatype Event =
    | Thinking(text: string)
    | FunctionCall(name: string)
    | Complete(text: string, usage: Usage, files: Option<seq<FileInfo>>)

  /** A complete event without a run behind it (a command's answer or an
      error): all token counts 0 and no `files` key. */
  function ZeroUsageComplete(text: string): (e: Event)
    ensures e.Complete? && e.usage == NoUsage && e.files.None?
  {
    Complete(text, NoUsage, None)
  }

  function UsageJson(u: Usage): Json.Value {
    Json.Object([
      Json.Member("prompt_tokens", Json.Number(u.promptTokens)),
      Json.Member("completion_tokens", Json.Number(u.completionTokens)),
      Json.Member("total_tokens", Json.Number(u.totalTokens))])
  }

  function FileJson(f: FileInfo): Json.Value {
    Json.Object([
      Json.Member("file_id", Json.Str(f.fileId)),
      Json.Member("filename", Json.Str(f.filename)),
      Json.Member("path", Json.Str(f.path))])
  }

  function FilesJson(files: seq<FileInfo>): (r: seq<Json.Value>)
    ensures |r| == |files|
  {
    if files == [] then [] else [FileJson(files[0])] + FilesJson(files[1..])
  }

  /** The dictionary each event is written from. */
  function ToJson(e: Event): (v: Json.Value)
    ensures v.Object?
  {
    match e
    case Thinking(text) =>
      Json.Object([Json.Member("type", Json.Str("thinking")), Json.Member("data", Json.Str(text))])
    case FunctionCall(name) =>
      Json.Object([Json.Member("type", Json.Str("function_call")), Json.Member("data", Json.Str(name))])
    case Complete(text, usage, files) =>
      var fields := [Json.Member("text", Json.Str(text)), Json.Member("token_usage", UsageJson(usage))];
      var data := match files
        case None => fields
        case Some(fs) => fields + [Json.Member("files", Json.Array(FilesJson(fs)))];
      Json.Object([Json.Member("type", Json.Str("complete")), Json.Member("data", Json.Object(data))])
  }

  /** The JSON text of an event, without its line feed. */
  function Line(e: Event): string {
    Json.Encode(ToJson(e))
  }

  /** `json.dumps(event) + "\n"`: one JSON object, then exactly one line
      feed, which is the frame's only line feed. */
  function Frame(e: Event): (f: string)
    ensures |f| >= 3 && f[0] == '{' && f[|f| - 2] == '}' && f[|f| - 1] == '\n'
    ensures f == Line(e) + "\n" && '\n' !in Line(e)
  {
    var line := Line(e);
    Json.PrintableHasNoLineFeed(line);
    line + "\n"
  }

  /** The text a generator's frames make, in order. */
  function Frames(events: seq<Event>): string {
    if events == [] then "" else Frame(events[0]) + Frames(events[1..])
  }

  /** The JSON lines of a sequence of events. */
  function Lines(events: seq<Event>): (lines: seq<string>)
    ensures |lines| == |events|
    ensures forall i :: 0 <= i < |events| ==> lines[i] == Line(events[i])
  {
    seq(|events|, i requires 0 <= i < |events| => Line(events[i]))
  }

  /** The stream is its JSON lines, each terminated by a line feed, and no
      line holds a line feed of its own. */
  lemma {:induction false} FramesAreLines(events: seq<Event>)
    ensures Frames(events) == Terminated(Lines(events), '\n')
    ensures Separated(Lines(events), '\n')
  {
    if events != [] {
      FramesAreLines(events[1..]);
      assert Lines(events)[1..] == Lines(events[1..]);
      var _ := Frame(events[0]);
    }
    forall i | 0 <= i < |events|
      ensures '\n' !in Lines(events)[i]
    {
      var _ := Frame(events[i]);
    }
  }

  /** Splitting the stream on line feeds, as a reader does, gives back every
      event's JSON line in order, then an empty remainder. */
  lemma StreamSplitsIntoLines(events: seq<Event>)
    ensures Split(Frames(events), '\n') == Lines(events) + [""]
  {
    FramesAreLines(events);
    assert Frames(events) == Terminated(Lines(events), '\n') + "";
    SplitTerminated(Lines(events), "", '\n');
  }

  /** `stream_single_response(text)`: a thinking event, then the text as a
      complete event with zero usage. */
  function SingleResponse(text: string): (events: seq<Event>)
    ensures |events| == 2 && events[0] == Thinking("Processing command...")
    ensures events[1] == ZeroUsageComplete(text)
  {
    [Thinking("Processing command..."), ZeroUsageComplete(text)]
  }

  /** The single response arrives as exactly two lines. */
  lemma SingleResponseIsTwoLines(text: string)
    ensures Split(Frames(SingleResponse(text)), '\n') ==
      [Line(Thinking("Processing command...")), Line(Complete(text, NoUsage, None)), ""]
  {
    StreamSplitsIntoLines(SingleResponse(text));
  }
}
