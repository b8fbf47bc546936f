/** The `useChat` hook of frontend/src/hooks/useChat.ts: the chat state of
    the browser, `sendMessage`, which uploads the selected images, posts the
    message and reads the answer, and `processStream`, which cuts the
    answer's text into lines and applies each line's event to the state.

    The browser side is given as oracles: `upload` is the whole upload of
    one selected image (its URL, or None when it fails), `server` is the
    answer to the posted message, and `parse` is `JSON.parse` followed by
    the reads of `type` and `data` (None when either throws). The answer's
    body arrives as already decoded text chunks and may end in a read
    error. */
module Client {
  import opened Common
  import opened Remote
  import opened Events

  const DefaultThinking := "Thinking..."
  const ErrorText := "エラーが発生しました。もう一度お試しください。"

  /** An event's `data` as the hook reads it: missing (`undefined` or
      `null`), a string, or any other value, with the properties the hook
      reads (None where the value has no such property). */
  datatype Data =
    | Absent
    | Str(value: string)
    | Fields(text: Option<string>, usage: Option<Usage>, files: Option<seq<FileInfo>>, isDxaResponse: Option<bool>)

  /** A parsed line: its `type` and its `data`. */
  datatype Received = Received(kind: string, data: Data)

  /** An entry of `messages`; absent properties are None. */
  datatype Message = Message(text: Option<string>, isUser: bool, usage: Option<Usage>, images: Option<seq<string>>,
                             files: Option<seq<FileInfo>>, isDxaResponse: Option<bool>)

  /** What a stream changes: the messages, the thinking text and the last
      financial-service response. */
  datatype Display = Display(messages: seq<Message>, thinking: Data, dxa: Option<Data>)

  /** The whole state of the hook. */
  datatype Hook = Hook(screen: Display, input: string, loading: bool, images: seq<string>, detail: string)

  /** The body of an answer: its text chunks, and whether the read after
      the last one fails instead of reporting the end. */
  datatype Body = Body(chunks: seq<string>, broken: bool)

  /** What `fetch('/api/chat', …)` gives: a response that is not ok, or an
      ok one with its body (None when it has no reader). */
  datatype ServerReply = NotOk | Answered(body: Option<Body>)

  /** The JSON body of the posted message. */
  datatype ChatPost = ChatPost(text: string, content: seq<ContentItem>)

  // ---------------------------------------------------------------- events

  /** The message a `complete` event appends. */
  function AnswerMessage(data: Data): (m: Message)
    requires !data.Absent?
    ensures !m.isUser && m.images.None?
  {
    match data
    case Str(_) => Message(None, false, None, None, None, None)
    case Fields(text, usage, files, isDxa) => Message(text, false, usage, None, files, isDxa)
  }

  /** One event. `thinking` and `function_call` show their data as the
      thinking text; `dxa_factory` keeps its data; `complete` appends one
      answer, except when its data is missing, where logging it throws
      first. Other types change nothing. */
  function Applied(s: Display, ev: Received): (r: Display)
    ensures ev.kind == "complete" && !ev.data.Absent? ==>
      r == s.(messages := s.messages + [AnswerMessage(ev.data)])
    ensures ev.kind == "thinking" || ev.kind == "function_call" ==>
      r == s.(thinking := ev.data)
    ensures ev.kind !in {"thinking", "function_call", "dxa_factory", "complete"} ==> r == s
    ensures |s.messages| <= |r.messages| <= |s.messages| + 1 && r.messages[..|s.messages|] == s.messages
  {
    if ev.kind == "thinking" || ev.kind == "function_call" then s.(thinking := ev.data)
    else if ev.kind == "dxa_factory" then s.(dxa := Some(ev.data))
    else if ev.kind == "complete" && !ev.data.Absent? then
      assert (s.messages + [AnswerMessage(ev.data)])[..|s.messages|] == s.messages;
      s.(messages := s.messages + [AnswerMessage(ev.data)])
    else s
  }

  /** One line: blank lines are skipped, a line that does not parse is
      logged and skipped. */
  function HandleLine(s: Display, line: string, parse: string -> Option<Received>): (r: Display)
    ensures AllSpace(line) ==> r == s
    ensures parse(line).None? ==> r == s
    ensures !AllSpace(line) && parse(line).Some? ==> r == Applied(s, parse(line).value)
    ensures |s.messages| <= |r.messages| <= |s.messages| + 1 && r.messages[..|s.messages|] == s.messages
  {
    if Strip(line) == "" then s
    else match parse(line)
      case None => s
      case Some(ev) => Applied(s, ev)
  }

  /** The lines in order. */
  function HandleLines(s: Display, lines: seq<string>, parse: string -> Option<Received>): (r: Display)
    decreases |lines|
    ensures |s.messages| <= |r.messages| <= |s.messages| + |lines|
    ensures r.messages[..|s.messages|] == s.messages
    ensures (forall k :: 0 <= k < |lines| ==> AllSpace(lines[k])) ==> r == s
  {
    if lines == [] then s
    else
      var before := HandleLines(s, lines[..|lines| - 1], parse);
      var r := HandleLine(before, lines[|lines| - 1], parse);
      assert r.messages[..|s.messages|] == r.messages[..|before.messages|][..|s.messages|];
      r
  }

  lemma {:induction false} HandleLinesAppend(s: Display, a: seq<string>, b: seq<string>, parse: string -> Option<Received>)
    decreases |b|
    ensures HandleLines(s, a + b, parse) == HandleLines(HandleLines(s, a, parse), b, parse)
  {
    if b == [] {
      assert a + b == a;
    } else {
      assert (a + b)[..|a + b| - 1] == a + b[..|b| - 1];
      HandleLinesAppend(s, a, b[..|b| - 1], parse);
    }
  }

  // ---------------------------------------------------------------- lines

  /** The chunks joined. */
  function Concat(chunks: seq<string>): string
    decreases |chunks|
  {
    if chunks == [] then "" else Concat(chunks[..|chunks| - 1]) + chunks[|chunks| - 1]
  }

  /** The complete lines of a text: every part before its last line feed.
      The part after it is never handled. */
  function CompleteLines(text: string): (lines: seq<string>)
    ensures Separated(lines, '\n')
    ensures Terminated(lines, '\n') <= text
  {
    var parts := Split(text, '\n');
    JoinAsTerminated(parts, '\n');
    var lines := parts[..|parts| - 1];
    assert text == Terminated(lines, '\n') + parts[|parts| - 1];
    lines
  }

  /** What `processStream` does to the screen: every complete line of the
      whole text, in order, whatever the chunks. */
  function Processed(s: Display, body: Option<Body>, parse: string -> Option<Received>): (r: Display)
    ensures body.None? ==> r == s
    ensures |s.messages| <= |r.messages| && r.messages[..|s.messages|] == s.messages
    ensures body.Some? && '\n' !in Concat(body.value.chunks) ==> r == s
  {
    if body.None? then s
    else
      var text := Concat(body.value.chunks);
      if '\n' !in text then
        SplitNoSeparator(text, '\n');
        assert CompleteLines(text) == [];
        s
      else HandleLines(s, CompleteLines(text), parse)
  }

  /** One read: the buffer with the new chunk splits into complete lines
      and a new buffer; the lines handled so far with the new ones, each
      terminated, followed by the new buffer, are the text read so far. */
  lemma BufferStep(handled: seq<string>, buffer: string, chunk: string)
    requires Separated(handled, '\n')
    ensures var parts := Split(buffer + chunk, '\n');
      var lines := parts[..|parts| - 1];
      Terminated(handled + lines, '\n') + parts[|parts| - 1] == Terminated(handled, '\n') + buffer + chunk
      && Separated(handled + lines, '\n') && '\n' !in parts[|parts| - 1]
  {
    var parts := Split(buffer + chunk, '\n');
    var lines := parts[..|parts| - 1];
    JoinAsTerminated(parts, '\n');
    TerminatedAppend(handled, lines, '\n');
    assert buffer + chunk == Terminated(lines, '\n') + parts[|parts| - 1];
    calc {
      Terminated(handled + lines, '\n') + parts[|parts| - 1];
      Terminated(handled, '\n') + Terminated(lines, '\n') + parts[|parts| - 1];
      Terminated(handled, '\n') + (Terminated(lines, '\n') + parts[|parts| - 1]);
      Terminated(handled, '\n') + buffer + chunk;
    }
    assert Separated(handled + lines, '\n') by {
      forall k | 0 <= k < |handled + lines|
        ensures '\n' !in (handled + lines)[k]
      {
        if k >= |handled| {
          assert (handled + lines)[k] == parts[k - |handled|];
        }
      }
    }
    assert '\n' !in parts[|parts| - 1];
  }

  /** At the end, the lines handled are the complete lines of the text. */
  lemma CompleteLinesOf(handled: seq<string>, buffer: string)
    requires Separated(handled, '\n') && '\n' !in buffer
    ensures CompleteLines(Terminated(handled, '\n') + buffer) == handled
  {
    SplitTerminated(handled, buffer, '\n');
    assert (handled + [buffer])[..|handled|] == handled;
  }

  /** Reading one more chunk extends the text read so far. */
  lemma ConcatStep(chunks: seq<string>, i: nat)
    requires i < |chunks|
    ensures Concat(chunks[..i + 1]) == Concat(chunks[..i]) + chunks[i]
  {
    assert chunks[..i + 1][..i] == chunks[..i];
  }

  /** Once every chunk is read, the lines handled are those of the text. */
  lemma ProcessedFrom(s: Display, body: Body, handled: seq<string>, buffer: string, parse: string -> Option<Received>)
    requires Terminated(handled, '\n') + buffer == Concat(body.chunks[..|body.chunks|])
    requires Separated(handled, '\n') && '\n' !in buffer
    ensures Processed(s, Some(body), parse) == HandleLines(s, handled, parse)
  {
    assert body.chunks[..|body.chunks|] == body.chunks;
    CompleteLinesOf(handled, buffer);
  }

  // ---------------------------------------------------------------- end to end

  /** What the hook reads from an event the backend sends. */
  function Decoded(e: Event): (r: Received)
    ensures e.Complete? ==> r.kind == "complete" && !r.data.Absent?
    ensures !e.Complete? ==> r.kind in {"thinking", "function_call"} && r.data.Str?
  {
    match e
    case Thinking(text) => Received("thinking", Str(text))
    case FunctionCall(name) => Received("function_call", Str(name))
    case Complete(text, usage, files) => Received("complete", Fields(Some(text), Some(usage), files, None))
  }

  /** `JSON.parse` reads back every line the backend writes. */
  ghost predicate ReadsBack(parse: string -> Option<Received>) {
    forall e :: parse(Line(e)) == Some(Decoded(e))
  }

  /** The backend's events applied in order. */
  function ApplyAll(s: Display, events: seq<Event>): Display
    decreases |events|
  {
    if events == [] then s else Applied(ApplyAll(s, events[..|events| - 1]), Decoded(events[|events| - 1]))
  }

  /** The answers a stream of events shows: one per complete event, with
      its text, usage and files. */
  function Answers(events: seq<Event>): (r: seq<Message>)
    decreases |events|
    ensures |r| <= |events|
  {
    if events == [] then []
    else
      var e := events[|events| - 1];
      Answers(events[..|events| - 1]) + (if e.Complete? then [Message(Some(e.text), false, Some(e.usage), None, e.files, None)] else [])
  }

  /** Applying the events appends exactly their answers. */
  lemma {:induction false} ApplyAllAnswers(s: Display, events: seq<Event>)
    decreases |events|
    ensures ApplyAll(s, events).messages == s.messages + Answers(events)
  {
    if events != [] {
      ApplyAllAnswers(s, events[..|events| - 1]);
    }
  }

  /** Lines each handled as its own event are handled, in order, as the
      events applied in order. */
  lemma {:induction false} HandledAsEvents(s: Display, lines: seq<string>, events: seq<Event>, parse: string -> Option<Received>)
    requires |lines| == |events|
    requires forall k, t :: 0 <= k < |lines| ==> HandleLine(t, lines[k], parse) == Applied(t, Decoded(events[k]))
    decreases |events|
    ensures HandleLines(s, lines, parse) == ApplyAll(s, events)
  {
    if events != [] {
      var n := |events|;
      HandledAsEvents(s, lines[..n - 1], events[..n - 1], parse);
    }
  }

  /** The hook handles the backend's lines as the events they encode. */
  lemma LinesAreEvents(s: Display, events: seq<Event>, parse: string -> Option<Received>)
    requires ReadsBack(parse)
    ensures HandleLines(s, Lines(events), parse) == ApplyAll(s, events)
  {
    var lines := Lines(events);
    forall k, t | 0 <= k < |lines|
      ensures HandleLine(t, lines[k], parse) == Applied(t, Decoded(events[k]))
    {
      EventLine(t, events[k], parse);
    }
    HandledAsEvents(s, lines, events, parse);
  }

  /** One line of the backend is not blank, and is handled as its event. */
  lemma EventLine(s: Display, e: Event, parse: string -> Option<Received>)
    requires ReadsBack(parse)
    ensures HandleLine(s, Line(e), parse) == Applied(s, Decoded(e))
  {
    var f := Frame(e);
    assert Line(e)[0] == '{';
    assert !AllSpace(Line(e));
    assert parse(Line(e)) == Some(Decoded(e));
  }

  /** However the backend's stream is cut into chunks, the hook shows
      exactly the answers of its complete events, in order. */
  lemma StreamShowsAnswers(s: Display, events: seq<Event>, chunks: seq<string>, parse: string -> Option<Received>)
    requires Concat(chunks) == Frames(events) && ReadsBack(parse)
    ensures Processed(s, Some(Body(chunks, false)), parse) == ApplyAll(s, events)
    ensures Processed(s, Some(Body(chunks, false)), parse).messages == s.messages + Answers(events)
  {
    FramesAreLines(events);
    CompleteLinesOf(Lines(events), "");
    assert Terminated(Lines(events), '\n') + "" == Frames(events);
    LinesAreEvents(s, events, parse);
    ApplyAllAnswers(s, events);
  }

  /** A command's answer shows its text as one answer with zero usage, and
      leaves "Processing command..." as the thinking text. */
  lemma SingleResponseShown(s: Display, text: string)
    ensures ApplyAll(s, SingleResponse(text))
         == s.(messages := s.messages + [Message(Some(text), false, Some(NoUsage), None, None, None)],
               thinking := Str("Processing command..."))
  {
    var events := SingleResponse(text);
    assert events[..1] == [Thinking("Processing command...")];
    assert events[..1][..0] == [];
    var thought := s.(thinking := Str("Processing command..."));
    assert ApplyAll(s, events[..1]) == thought;
    assert ApplyAll(s, events) == Applied(thought, Decoded(events[1]));
  }

  // ---------------------------------------------------------------- sendMessage

  /** Nothing to send, or an answer still loading. */
  predicate Ignored(h: Hook)
    ensures Ignored(h) <==> h.loading || (AllSpace(h.input) && h.images == [])
  {
    (Strip(h.input) == "" && h.images == []) || h.loading
  }

  /** `Promise.all` over the uploads: every URL in order, or None when any
      upload fails. */
  function Uploaded(images: seq<string>, upload: string -> Option<string>): (r: Option<seq<string>>)
    decreases |images|
    ensures r.Some? ==> |r.value| == |images| && forall k :: 0 <= k < |images| ==> upload(images[k]) == Some(r.value[k])
    ensures r.None? <==> exists k :: 0 <= k < |images| && upload(images[k]).None?
  {
    if images == [] then Some([])
    else
      var head := upload(images[0]);
      var tail := Uploaded(images[1..], upload);
      if head.None? then None
      else if tail.None? then
        ghost var k :| 0 <= k < |images[1..]| && upload(images[1..][k]).None?;
        assert upload(images[k + 1]).None?;
        None
      else
        var r := [head.value] + tail.value;
        assert forall k :: 1 <= k < |images| ==> images[k] == images[1..][k - 1] && r[k] == tail.value[k - 1];
        Some(r)
  }

  /** The content posted: a text item exactly when the trimmed input is not
      empty, first, then one `image_url` item per uploaded URL, in order,
      each with the chosen detail. */
  function PostedContent(text: string, urls: seq<string>, detail: string): (c: seq<ContentItem>)
    ensures var offset := if text == "" then 0 else 1;
      |c| == offset + |urls|
      && (forall k :: 0 <= k < |urls| ==> c[offset + k] == ImageUrlItem(urls[k], detail))
      && ((exists k :: 0 <= k < |c| && c[k].TextItem?) <==> text != "")
      && (text != "" ==> c[0] == TextItem(text))
  {
    var head := if text == "" then [] else [TextItem(text)];
    var c := head + seq(|urls|, k requires 0 <= k < |urls| => ImageUrlItem(urls[k], detail));
    assert text != "" ==> c[0].TextItem?;
    c
  }

  function UserMessage(text: string, images: seq<string>): Message {
    Message(Some(text), true, None, Some(images), None, None)
  }

  const ErrorMessage := Message(Some(ErrorText), false, None, None, None, None)

  /** The hook after the post, and whether it threw. */
  datatype Delivery = Delivery(hook: Hook, raised: bool)

  /** The `try` block after the uploads: the user's message is shown and
      the input cleared, the message posted, and its answer read. True when
      it throws. */
  function Delivered(h: Hook, urls: seq<string>, server: ChatPost -> ServerReply, parse: string -> Option<Received>): (r: Delivery)
    ensures r.hook.input == "" && r.hook.images == [] && r.hook.loading == h.loading && r.hook.detail == h.detail
    ensures var shown := h.screen.messages + [UserMessage(Strip(h.input), h.images)];
      |shown| <= |r.hook.screen.messages| && r.hook.screen.messages[..|shown|] == shown
    ensures var reply := server(ChatPost(Strip(h.input), PostedContent(Strip(h.input), urls, h.detail)));
      r.raised <==> reply == NotOk || (reply.body.Some? && reply.body.value.broken)
    ensures server(ChatPost(Strip(h.input), PostedContent(Strip(h.input), urls, h.detail))) == NotOk ==>
      r.hook.screen.messages == h.screen.messages + [UserMessage(Strip(h.input), h.images)]
  {
    var text := Strip(h.input);
    var shown := h.(screen := h.screen.(messages := h.screen.messages + [UserMessage(text, h.images)]), input := "", images := []);
    match server(ChatPost(text, PostedContent(text, urls, h.detail)))
    case NotOk => Delivery(shown, true)
    case Answered(body) =>
      Delivery(shown.(screen := Processed(shown.screen, body, parse)), body.Some? && body.value.broken)
  }

  /** The error message appended. */
  function WithError(h: Hook): Hook {
    h.(screen := h.screen.(messages := h.screen.messages + [ErrorMessage]))
  }

  /** The `try` block: the uploads, then the message; any exception adds
      the one error message. */
  function Attempted(h: Hook, upload: string -> Option<string>, server: ChatPost -> ServerReply, parse: string -> Option<Received>): (r: Hook)
    ensures r.loading == h.loading && r.detail == h.detail
    ensures |h.screen.messages| < |r.screen.messages| && r.screen.messages[..|h.screen.messages|] == h.screen.messages
    ensures Uploaded(h.images, upload).None? ==>
      r.screen.messages == h.screen.messages + [ErrorMessage] && r.input == h.input && r.images == h.images
    ensures Uploaded(h.images, upload).Some? ==>
      r.screen.messages[|h.screen.messages|] == UserMessage(Strip(h.input), h.images) && r.input == "" && r.images == []
  {
    match Uploaded(h.images, upload)
    case None => WithError(h)
    case Some(urls) =>
      var d := Delivered(h, urls, server, parse);
      ShownNext(h.screen.messages, d.hook.screen.messages, UserMessage(Strip(h.input), h.images));
      if d.raised then
        ShownNext(d.hook.screen.messages, WithError(d.hook).screen.messages, ErrorMessage);
        KeptThrough(h.screen.messages, d.hook.screen.messages, WithError(d.hook).screen.messages);
        WithError(d.hook)
      else d.hook
  }

  /** Messages that start with `before` and then `m` keep `before` and show
      `m` next. */
  lemma ShownNext(before: seq<Message>, after: seq<Message>, m: Message)
    requires |before| + 1 <= |after| && after[..|before| + 1] == before + [m]
    ensures after[..|before|] == before && after[|before|] == m
  {
    assert after[..|before|] == after[..|before| + 1][..|before|];
  }

  /** A prefix of a prefix is a prefix. */
  lemma KeptThrough(a: seq<Message>, b: seq<Message>, c: seq<Message>)
    requires |a| <= |b| <= |c| && c[..|b|] == b && b[..|a|] == a
    ensures c[..|a|] == a
  {
    assert c[..|a|] == c[..|b|][..|a|];
  }

  /** With every upload done, the attempt is the delivery, with the error
      message when it throws. */
  lemma AttemptDelivers(h: Hook, urls: seq<string>, upload: string -> Option<string>, server: ChatPost -> ServerReply,
                        parse: string -> Option<Received>, d: Delivery)
    requires Uploaded(h.images, upload) == Some(urls) && Delivered(h, urls, server, parse) == d
    ensures Attempted(h, upload, server, parse) == if d.raised then WithError(d.hook) else d.hook
  {
  }

  /** `sendMessage`: ignored when there is nothing to send or an answer is
      loading. Otherwise loading starts with the default thinking text, the
      message is attempted, and loading ends with the thinking text reset,
      whatever happened. */
  function Sent(h: Hook, upload: string -> Option<string>, server: ChatPost -> ServerReply, parse: string -> Option<Received>): (r: Hook)
    ensures Ignored(h) ==> r == h
    ensures !Ignored(h) ==> !r.loading && r.screen.thinking == Str(DefaultThinking) && r.detail == h.detail
  {
    if Ignored(h) then h
    else
      var busy := h.(loading := true, screen := h.screen.(thinking := Str(DefaultThinking)));
      var after := Attempted(busy, upload, server, parse);
      after.(loading := false, screen := after.screen.(thinking := Str(DefaultThinking)))
  }

  /** A failed upload shows only the error message: the input and the
      selected images are kept for another try. */
  lemma UploadFailureKeepsInput(h: Hook, upload: string -> Option<string>, server: ChatPost -> ServerReply, parse: string -> Option<Received>)
    requires !Ignored(h) && exists k :: 0 <= k < |h.images| && upload(h.images[k]).None?
    ensures var r := Sent(h, upload, server, parse);
      r.screen.messages == h.screen.messages + [ErrorMessage] && r.input == h.input && r.images == h.images
  {
  }

  /** A refused post shows the user's message, then the error message, and
      clears the input and the selection. */
  lemma RefusedPostShowsError(h: Hook, upload: string -> Option<string>, server: ChatPost -> ServerReply, parse: string -> Option<Received>)
    requires !Ignored(h) && Uploaded(h.images, upload).Some?
    requires server(ChatPost(Strip(h.input), PostedContent(Strip(h.input), Uploaded(h.images, upload).value, h.detail))) == NotOk
    ensures var r := Sent(h, upload, server, parse);
      r.screen.messages == h.screen.messages + [UserMessage(Strip(h.input), h.images), ErrorMessage]
      && r.input == "" && r.images == []
  {
    assert h.screen.messages + [UserMessage(Strip(h.input), h.images)] + [ErrorMessage]
        == h.screen.messages + [UserMessage(Strip(h.input), h.images), ErrorMessage];
  }

  /** When the uploads succeed and the backend's event stream arrives whole,
      in whatever chunks, the user's message is followed by exactly the
      answers of the stream's complete events, and no error message. */
  lemma SendShowsAnswers(h: Hook, upload: string -> Option<string>, server: ChatPost -> ServerReply, parse: string -> Option<Received>,
                         events: seq<Event>, chunks: seq<string>)
    requires !Ignored(h) && Uploaded(h.images, upload).Some? && ReadsBack(parse)
    requires server(ChatPost(Strip(h.input), PostedContent(Strip(h.input), Uploaded(h.images, upload).value, h.detail)))
          == Answered(Some(Body(chunks, false)))
    requires Concat(chunks) == Frames(events)
    ensures Sent(h, upload, server, parse).screen.messages
         == h.screen.messages + [UserMessage(Strip(h.input), h.images)] + Answers(events)
  {
    var shown := h.screen.(thinking := Str(DefaultThinking), messages := h.screen.messages + [UserMessage(Strip(h.input), h.images)]);
    StreamShowsAnswers(shown, events, chunks, parse);
  }

  // ---------------------------------------------------------------- the hook

  class ChatHook {
    var messages: seq<Message>
    var input: string
    var isLoading: bool
    var selectedImages: seq<string>
    var imageDetailLevel: string
    var thinkingText: Data
    var dxaResponse: Option<Data>

    /** `useChat()`: no messages, empty input, nothing loading, `auto`
        detail, the default thinking text. */
    constructor ()
      ensures State() == Hook(Display([], Str(DefaultThinking), None), "", false, [], "auto")
    {
      messages := [];
      input := "";
      isLoading := false;
      selectedImages := [];
      imageDetailLevel := "auto";
      thinkingText := Str(DefaultThinking);
      dxaResponse := None;
    }

    function View(): Display
      reads this
    {
      Display(messages, thinkingText, dxaResponse)
    }

    function State(): Hook
      reads this
    {
      Hook(View(), input, isLoading, selectedImages, imageDetailLevel)
    }

    /** The `switch (event.type)` of one parsed line. */
    method Apply(ev: Received)
      modifies this
      ensures State() == old(State()).(screen := Applied(old(View()), ev))
    {
      if ev.kind == "thinking" || ev.kind == "function_call" {
        thinkingText := ev.data;
      } else if ev.kind == "dxa_factory" {
        dxaResponse := Some(ev.data);
      } else if ev.kind == "complete" && !ev.data.Absent? {
        messages := messages + [AnswerMessage(ev.data)];
      }
    }

    /** The `for (const line of lines)` loop. */
    method HandleBatch(lines: seq<string>, parse: string -> Option<Received>)
      modifies this
      ensures State() == old(State()).(screen := HandleLines(old(View()), lines, parse))
    {
      for j := 0 to |lines|
        invariant State() == old(State()).(screen := HandleLines(old(View()), lines[..j], parse))
      {
        assert lines[..j + 1][..j] == lines[..j];
        if Strip(lines[j]) != "" {
          var ev := parse(lines[j]);
          if ev.Some? {
            Apply(ev.value);
          }
        }
      }
      assert lines[..|lines|] == lines;
    }

    /** One read: the chunk is added to the buffer, the complete lines are
        handled, and the buffer keeps what follows the last line feed. */
    method Receive(ghost handled: seq<string>, buffer: string, chunk: string, parse: string -> Option<Received>)
      returns (rest: string, lines: seq<string>)
      requires Separated(handled, '\n')
      modifies this
      ensures Terminated(handled + lines, '\n') + rest == Terminated(handled, '\n') + buffer + chunk
      ensures Separated(handled + lines, '\n') && '\n' !in rest
      ensures State() == old(State()).(screen := HandleLines(old(View()), lines, parse))
    {
      BufferStep(handled, buffer, chunk);
      var parts := Split(buffer + chunk, '\n');
      rest := parts[|parts| - 1];
      lines := parts[..|parts| - 1];
      HandleBatch(lines, parse);
    }

    /** `processStream`: append each chunk to the buffer, handle the
        complete lines, keep the rest. True when a read throws. */
    method ProcessStream(body: Option<Body>, parse: string -> Option<Received>) returns (raised: bool)
      modifies this
      ensures State() == old(State()).(screen := Processed(old(View()), body, parse))
      ensures raised == (body.Some? && body.value.broken)
    {
      if body.None? {
        return false;
      }
      var chunks := body.value.chunks;
      var buffer := "";
      ghost var handled: seq<string> := [];
      for i := 0 to |chunks|
        invariant Terminated(handled, '\n') + buffer == Concat(chunks[..i])
        invariant Separated(handled, '\n') && '\n' !in buffer
        invariant State() == old(State()).(screen := HandleLines(old(View()), handled, parse))
      {
        ConcatStep(chunks, i);
        var lines;
        buffer, lines := Receive(handled, buffer, chunks[i], parse);
        HandleLinesAppend(old(View()), handled, lines, parse);
        handled := handled + lines;
      }
      ProcessedFrom(old(View()), body.value, handled, buffer, parse);
      raised := body.value.broken;
    }

    /** `content.push` of the text item and the image items. */
    method BuildContent(text: string, urls: seq<string>) returns (content: seq<ContentItem>)
      ensures content == PostedContent(text, urls, imageDetailLevel)
    {
      var detail := imageDetailLevel;
      content := [];
      if text != "" {
        content := content + [TextItem(text)];
      }
      ghost var head := content;
      for k := 0 to |urls|
        invariant content == head + seq(k, j requires 0 <= j < k => ImageUrlItem(urls[j], detail))
      {
        assert seq(k + 1, j requires 0 <= j < k + 1 => ImageUrlItem(urls[j], detail))
            == seq(k, j requires 0 <= j < k => ImageUrlItem(urls[j], detail)) + [ImageUrlItem(urls[k], detail)];
        content := content + [ImageUrlItem(urls[k], detail)];
      }
    }

    /** The `try` block after the uploads. */
    method Deliver(urls: seq<string>, server: ChatPost -> ServerReply, parse: string -> Option<Received>) returns (raised: bool)
      modifies this
      ensures Delivery(State(), raised) == Delivered(old(State()), urls, server, parse)
    {
      var text := Strip(input);
      var content := BuildContent(text, urls);
      messages := messages + [UserMessage(text, selectedImages)];
      input := "";
      selectedImages := [];
      match server(ChatPost(text, content)) {
        case NotOk => raised := true;
        case Answered(body) => raised := ProcessStream(body, parse);
      }
    }

    /** The `catch` block: the one error message appended. */
    method ShowError()
      modifies this
      ensures State() == WithError(old(State()))
    {
      messages := messages + [ErrorMessage];
    }

    /** The `try` block of `sendMessage`. */
    method Attempt(upload: string -> Option<string>, server: ChatPost -> ServerReply, parse: string -> Option<Received>)
      modifies this
      ensures State() == Attempted(old(State()), upload, server, parse)
    {
      ghost var h := State();
      var urls := Uploaded(selectedImages, upload);
      if urls.None? {
        ShowError();
        return;
      }
      var raised := Deliver(urls.value, server, parse);
      ghost var done := State();
      AttemptDelivers(h, urls.value, upload, server, parse, Delivery(done, raised));
      if raised {
        ShowError();
      }
    }

    /** `sendMessage`. */
    method SendMessage(upload: string -> Option<string>, server: ChatPost -> ServerReply, parse: string -> Option<Received>)
      modifies this
      ensures State() == Sent(old(State()), upload, server, parse)
    {
      if (Strip(input) == "" && |selectedImages| == 0) || isLoading {
        return;
      }
      ghost var h := State();
      isLoading := true;
      thinkingText := Str(DefaultThinking);
      ghost var busy := State();
      assert busy == h.(loading := true, screen := h.screen.(thinking := Str(DefaultThinking)));
      Attempt(upload, server, parse);
      ghost var after := State();
      isLoading := false;
      thinkingText := Str(DefaultThinking);
      assert State() == after.(loading := false, screen := after.screen.(thinking := Str(DefaultThinking)));
    }
  }
}
