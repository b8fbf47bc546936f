/** The `/chat` endpoint of backend/endpoints/chat.py, up to the response it
    returns: the session is initialised when it has no thread or no
    assistant; the text is stripped and checked for the `/asst` and `/inst `
    commands, which answer with a two-event stream of their own; otherwise
    the message content is assembled (the text first, then the request's
    items, each `image_url` item replaced by an uploaded `image_file`) and
    the answer is the chat stream for it. An exception outside the commands
    becomes a JSON error with status 500. */
module Chat {
  import opened Common
  import opened Remote
  import opened Events
  import opened Session
  import Base64
  import Files
  import Stream

  const AsstCommand := "/asst"
  const InstPrefix := "/inst "
  const EmptyInstructions := "Error: Instructions cannot be empty"
  const UpdatedText := "Instructions updated successfully!\n\nNew Instructions: "
  const InfoHeading := "Assistant Information:\n\n"

  /** The exceptions content assembly raises itself: a data URL without a
      comma has no second part, and a payload that is not base64 text does
      not decode. */
  const NoSecondPart := Error("list index out of range")
  const BadBase64 := Error("Incorrect padding")

  /** What the endpoint returns: a command's two-event stream with the given
      text, the chat stream for a message still to be run, or the JSON body
      of a 500 error. */
  datatype Answer =
    | Single(text: string)
    | Streaming(content: seq<ContentItem>, thread: Option<Id>, assistant: Option<Id>)
    | JsonError(text: string)

  /** A Python value in an f-string: `None` when absent. */
  function Shown(value: Option<string>): string {
    match value
    case None => "None"
    case Some(s) => s
  }

  /** `', '.join(parts)`. */
  function CommaJoined(parts: seq<string>): (r: string)
    decreases |parts|
    ensures parts == [] ==> r == ""
    ensures parts != [] ==> StartsWith(r, parts[0]) && EndsWith(r, parts[|parts| - 1])
    ensures |parts| > 1 ==> StartsWith(r, parts[0] + ", ")
  {
    if parts == [] then ""
    else if |parts| == 1 then parts[0]
    else
      var tail := CommaJoined(parts[1..]);
      var r := parts[0] + ", " + tail;
      assert r[..|parts[0] + ", "|] == parts[0] + ", ";
      assert r[|r| - |tail|..] == tail;
      r
  }

  /** The `/asst` answer: the assistant's fields, one per line, and the
      session's vector store last. */
  function InfoText(info: AssistantInfo, vectorStore: Option<Id>): (t: string)
    ensures StartsWith(t, InfoHeading + "ID: " + info.id + "\n")
    ensures EndsWith(t, "\nVector Store ID: " + Shown(vectorStore))
  {
    var head := InfoHeading + "ID: " + info.id + "\n";
    var tail := "\nVector Store ID: " + Shown(vectorStore);
    var t := head
      + "Name: " + Shown(info.name) + "\n"
      + "Model: " + info.model + "\n"
      + "Created: " + info.created + "\n"
      + "Instructions: " + Shown(info.instructions) + "\n\n"
      + "Tools: " + CommaJoined(info.toolTypes)
      + tail;
    assert t[..|head|] == head;
    assert t[|t| - |tail|..] == tail;
    t
  }

  /** A session answer preceded by calls made earlier. */
  function Following<T>(calls: seq<Call>, h: Handled<T>): (r: Handled<T>)
    ensures r.ids == h.ids && r.outcome == h.outcome && r.rest == h.rest
    ensures r.calls == calls + h.calls
  {
    h.(calls := calls + h.calls)
  }

  // ---------------------------------------------------------------- commands

  /** `/asst`: make sure a vector store and an assistant exist, without a
      thread, then describe the assistant. Every exception is caught and
      becomes the answer's text, so the command answers with a single
      response unless the script runs out. */
  function AsstAnswer(ids: Ids, configured: Option<Id>, instructions: string, script: Script): (r: Handled<Answer>)
    ensures r.ids.thread == ids.thread
    ensures IsSet(ids.vectorStore) ==> r.ids.vectorStore == ids.vectorStore
    ensures IsSet(ids.assistant) ==> r.ids.assistant == ids.assistant
    ensures CreateThread !in r.calls
    ensures r.outcome.Returned? ==>
      r.outcome.value.Single?
      && (StartsWith(r.outcome.value.text, InfoHeading) || StartsWith(r.outcome.value.text, "Error: "))
  {
    var s := AsstInitialization(ids, configured, instructions, script);
    match s.outcome
    case Hung => Handled(s.ids, Hung, s.calls, s.rest)
    case Threw(e) => Handled(s.ids, Returned(Single("Error: " + e.message)), s.calls, s.rest)
    case Returned(_) =>
      var calls := s.calls + [RetrieveAssistant(s.ids.assistant)];
      match AsAssistant(NextReply(s.rest))
      case Hung => Handled(s.ids, Hung, calls, AfterCall(s.rest))
      case Threw(e) => Handled(s.ids, Returned(Single("Error: " + e.message)), calls, AfterCall(s.rest))
      case Returned(info) => Handled(s.ids, Returned(Single(InfoText(info, s.ids.vectorStore))), calls, AfterCall(s.rest))
  }

  /** The `if not assistant.assistant_id` step of `/inst`: initialise for
      the command only when there is no assistant. */
  function Ensured(ids: Ids, configured: Option<Id>, instructions: string, script: Script): (r: Step)
    ensures r.ids.thread == ids.thread
    ensures IsSet(ids.vectorStore) ==> r.ids.vectorStore == ids.vectorStore
    ensures IsSet(ids.assistant) ==> r == Step(ids, [], script, Returned(()))
    ensures CreateThread !in r.calls
  {
    if IsSet(ids.assistant) then Step(ids, [], script, Returned(()))
    else AsstInitialization(ids, configured, instructions, script)
  }

  /** `/inst <instructions>`: refuse empty instructions; make sure an
      assistant exists, then replace its instructions. Every exception is
      caught and becomes the answer's text. The thread is never touched. */
  function InstAnswer(ids: Ids, configured: Option<Id>, instructions: string, newInstructions: string, script: Script): (r: Handled<Answer>)
    ensures r.ids.thread == ids.thread
    ensures IsSet(ids.vectorStore) ==> r.ids.vectorStore == ids.vectorStore
    ensures IsSet(ids.assistant) ==> r.ids.assistant == ids.assistant
    ensures CreateThread !in r.calls
    ensures newInstructions == "" ==> r == Handled(ids, Returned(Single(EmptyInstructions)), [], script)
    ensures r.outcome.Returned? ==> r.outcome.value.Single?
  {
    if newInstructions == "" then Handled(ids, Returned(Single(EmptyInstructions)), [], script)
    else
      var s := Ensured(ids, configured, instructions, script);
      match s.outcome
      case Hung => Handled(s.ids, Hung, s.calls, s.rest)
      case Threw(e) => Handled(s.ids, Returned(Single("Error: " + e.message)), s.calls, s.rest)
      case Returned(_) =>
        var calls := s.calls + [UpdateAssistant(s.ids.assistant, newInstructions)];
        match AsAssistant(NextReply(s.rest))
        case Hung => Handled(s.ids, Hung, calls, AfterCall(s.rest))
        case Threw(e) => Handled(s.ids, Returned(Single("Error: " + e.message)), calls, AfterCall(s.rest))
        case Returned(info) => Handled(s.ids, Returned(Single(UpdatedText + Shown(info.instructions))), calls, AfterCall(s.rest))
  }

  /** With an assistant in the session and non-empty instructions, the
      command makes exactly one call, the update, and answers with the
      instructions the service now holds. */
  lemma InstAnswerUpdates(ids: Ids, configured: Option<Id>, instructions: string, newInstructions: string,
                          info: AssistantInfo, script: Script)
    requires newInstructions != "" && IsSet(ids.assistant)
    requires script != [] && script[0] == Ok(AssistantObject(info))
    ensures InstAnswer(ids, configured, instructions, newInstructions, script)
         == Handled(ids, Returned(Single(UpdatedText + Shown(info.instructions))),
                    [UpdateAssistant(ids.assistant, newInstructions)], script[1..])
  {
    assert [] + [UpdateAssistant(ids.assistant, newInstructions)] == [UpdateAssistant(ids.assistant, newInstructions)];
  }

  /** A lower-cased text that starts with `/inst ` has a space at the
      prefix's last position. */
  lemma InstSpace(t: string)
    requires StartsWith(Lower(t), InstPrefix)
    ensures |t| >= |InstPrefix| && t[5] == ' '
  {
    var command := Lower(t);
    assert command[..|InstPrefix|][5] == command[5];
    assert LowerChar(t[5]) == ' ';
  }

  /** A text with a space at position 5 whose last character is not a space
      has something after position 5 that survives stripping. */
  lemma AfterSpaceNotBlank(t: string)
    requires |t| >= 6 && t[5] == ' ' && !IsSpace(t[|t| - 1])
    ensures Strip(t[6..]) != ""
  {
    var after := t[6..];
    assert |t| > 6;
    assert after[|after| - 1] == t[|t| - 1];
  }

  /** A stripped text that starts with `/inst ` (ignoring case) has
      something after the prefix: its last character is not whitespace and
      comes after the prefix's space. So the empty-instructions answer is
      never given. */
  lemma InstructionsNotEmpty(t: string)
    requires StartsWith(Lower(t), InstPrefix) && t != [] && !IsSpace(t[|t| - 1])
    ensures Strip(t[|InstPrefix|..]) != ""
  {
    InstSpace(t);
    AfterSpaceNotBlank(t);
  }

  // ---------------------------------------------------------------- content

  /** What an item becomes in the message: an `image_url` item is replaced
      by an `image_file` item, every other item is passed on unchanged. */
  predicate Corresponds(item: ContentItem, sent: ContentItem) {
    if item.ImageUrlItem? then sent.ImageFileItem? else sent == item
  }

  /** One item of the request's content. An `image_url` item's URL is split
      on commas, the second part base64-decoded, and the bytes uploaded as a
      file; the item becomes an `image_file` item with the new file's id. */
  function Converted(item: ContentItem, script: Script): (r: Exchange<ContentItem>)
    ensures |r.rest| <= |script| && |r.calls| <= 1
    ensures forall c :: c in r.calls ==> c.UploadImageFile?
    ensures r.outcome.Returned? ==> Corresponds(item, r.outcome.value)
    ensures !item.ImageUrlItem? ==> r == Exchange(Returned(item), [], script)
  {
    if !item.ImageUrlItem? then Exchange(Returned(item), [], script)
    else
      var parts := Split(item.url, ',');
      if |parts| < 2 then Exchange(Threw(NoSecondPart), [], script)
      else
        match Base64.Decode(parts[1])
        case None => Exchange(Threw(BadBase64), [], script)
        case Some(data) =>
          var uploaded := [UploadImageFile(data)];
          match AsId(NextReply(script))
          case Hung => Exchange(Hung, uploaded, AfterCall(script))
          case Threw(e) => Exchange(Threw(e), uploaded, AfterCall(script))
          case Returned(id) => Exchange(Returned(ImageFileItem(id)), uploaded, AfterCall(script))
  }

  /** An item carrying a data URL made by `upload_image` uploads exactly the
      bytes that were encoded into it, and becomes an `image_file` item with
      the id the upload returns. */
  lemma ConvertedDataUrl(filename: string, data: seq<byte>, detail: string, script: Script)
    ensures var r := Converted(ImageUrlItem(Files.DataUrl(filename, data), detail), script);
      r.calls == [UploadImageFile(data)]
      && (script != [] && script[0].Ok? && script[0].value.Created? ==>
            r == Exchange(Returned(ImageFileItem(script[0].value.id)), [UploadImageFile(data)], script[1..]))
  {
    Files.DataUrlParts(filename, data);
  }

  /** A URL without a comma is refused before any upload. */
  lemma ConvertedNeedsComma(url: string, detail: string, script: Script)
    requires ',' !in url
    ensures Converted(ImageUrlItem(url, detail), script) == Exchange(Threw(NoSecondPart), [], script)
  {
    SplitNoSeparator(url, ',');
  }

  /** The `for item in message.content` loop: the items converted in order;
      the first exception ends it. */
  function Assembled(items: seq<ContentItem>, script: Script): (r: Exchange<seq<ContentItem>>)
    decreases |items|
    ensures |r.rest| <= |script|
  {
    if items == [] then Exchange(Returned([]), [], script)
    else
      var c := Converted(items[0], script);
      match c.outcome
      case Hung => Exchange(Hung, c.calls, c.rest)
      case Threw(e) => Exchange(Threw(e), c.calls, c.rest)
      case Returned(sent) => Gathered([sent], c.calls, Assembled(items[1..], c.rest))
  }

  /** The content sent has one item per item of the request, in order, each
      corresponding to its own; the only calls are image uploads, at most one
      per item. */
  lemma {:induction false} AssembledInOrder(items: seq<ContentItem>, script: Script)
    ensures var r := Assembled(items, script);
      |r.calls| <= |items|
      && (forall c :: c in r.calls ==> c.UploadImageFile?)
      && (r.outcome.Returned? ==>
            |r.outcome.value| == |items|
            && forall k :: 0 <= k < |items| ==> Corresponds(items[k], r.outcome.value[k]))
  {
    if items != [] {
      var c := Converted(items[0], script);
      if c.outcome.Returned? {
        var tail := Assembled(items[1..], c.rest);
        AssembledInOrder(items[1..], c.rest);
        var r := Assembled(items, script);
        assert r == Gathered([c.outcome.value], c.calls, tail);
        if r.outcome.Returned? {
          assert r.outcome.value == [c.outcome.value] + tail.outcome.value;
          forall k | 0 <= k < |items|
            ensures Corresponds(items[k], r.outcome.value[k])
          {
            if k > 0 {
              assert items[k] == items[1..][k - 1];
            }
          }
        }
      }
    }
  }

  /** A request without images is passed on unchanged, without a call. */
  lemma {:induction false} AssembledWithoutImages(items: seq<ContentItem>, script: Script)
    requires forall k :: 0 <= k < |items| ==> !items[k].ImageUrlItem?
    ensures Assembled(items, script) == Exchange(Returned(items), [], script)
  {
    if items != [] {
      AssembledWithoutImages(items[1..], script);
      assert [items[0]] + items[1..] == items;
    }
  }

  /** One pass of the loop: a converted item is followed by the rest. */
  lemma AssembledStep(items: seq<ContentItem>, i: nat, script: Script)
    requires i < |items| && Converted(items[i], script).outcome.Returned?
    ensures var c := Converted(items[i], script);
      Assembled(items[i..], script) == Gathered([c.outcome.value], c.calls, Assembled(items[i + 1..], c.rest))
  {
    assert items[i..][1..] == items[i + 1..];
  }

  // ---------------------------------------------------------------- the endpoint

  /** The session initialisation `chat` starts with: only when there is no
      thread or no assistant. */
  function Prepared(ids: Ids, configured: Option<Id>, instructions: string, script: Script): (r: Step)
    ensures |r.rest| <= |script|
    ensures IsSet(ids.vectorStore) ==> r.ids.vectorStore == ids.vectorStore
    ensures IsSet(ids.assistant) ==> r.ids.assistant == ids.assistant
    ensures IsSet(ids.thread) ==> r.ids.thread == ids.thread
    ensures IsSet(ids.thread) && IsSet(ids.assistant) ==> r == Step(ids, [], script, Returned(()))
    ensures r.outcome.Returned? ==> r.ids.thread.Some? && r.ids.assistant.Some?
  {
    if !IsSet(ids.thread) || !IsSet(ids.assistant) then Initialization(ids, configured, instructions, script)
    else Step(ids, [], script, Returned(()))
  }

  /** An ordinary message: the content assembled after the text item, and the
      chat stream for it on the session's thread with its assistant. An
      exception becomes the JSON error. */
  function MessageAnswer(ids: Ids, head: seq<ContentItem>, items: seq<ContentItem>, script: Script): (r: Handled<Answer>)
    ensures r.ids == ids
    ensures r.outcome.Returned? ==> r.outcome.value.Streaming? || r.outcome.value.JsonError?
  {
    var a := Assembled(items, script);
    match a.outcome
    case Hung => Handled(ids, Hung, a.calls, a.rest)
    case Threw(e) => Handled(ids, Returned(JsonError("Error: " + e.message)), a.calls, a.rest)
    case Returned(sent) => Handled(ids, Returned(Streaming(head + sent, ids.thread, ids.assistant)), a.calls, a.rest)
  }

  /** What the text of a message asks for. */
  datatype Command =
    | Asst
    | Inst(newInstructions: string)
    | Message(head: seq<ContentItem>)

  /** The command parsing of `chat`: the text is stripped, and its lower
      case compared with `/asst` and checked for the `/inst ` prefix; the
      instructions are what follows the prefix, stripped, and are never
      empty. Any other text, even one that strips to nothing, is sent as a
      text item; an empty text adds no item. */
  function Parsed(text: string): (c: Command)
    ensures c.Asst? <==> Lower(Strip(text)) == AsstCommand
    ensures c.Inst? <==> Lower(Strip(text)) != AsstCommand && StartsWith(Lower(Strip(text)), InstPrefix)
    ensures c.Inst? ==> c.newInstructions == Strip(Strip(text)[|InstPrefix|..]) && c.newInstructions != ""
    ensures c.Message? ==> c.head == if text == "" then [] else [TextItem(Strip(text))]
  {
    var t := Strip(text);
    var command := Lower(t);
    if text != "" && command == AsstCommand then Asst
    else if text != "" && StartsWith(command, InstPrefix) then
      InstructionsNotEmpty(t);
      Inst(Strip(t[|InstPrefix|..]))
    else Message(if text != "" then [TextItem(t)] else [])
  }

  /** What follows the initialisation: the commands, or the message. */
  function Dispatched(ids: Ids, configured: Option<Id>, instructions: string, text: string, items: seq<ContentItem>, script: Script): (r: Handled<Answer>)
    ensures r.ids.thread == ids.thread
    ensures IsSet(ids.vectorStore) ==> r.ids.vectorStore == ids.vectorStore
    ensures IsSet(ids.assistant) ==> r.ids.assistant == ids.assistant
  {
    match Parsed(text)
    case Asst => AsstAnswer(ids, configured, instructions, script)
    case Inst(newInstructions) => InstAnswer(ids, configured, instructions, newInstructions, script)
    case Message(head) => MessageAnswer(ids, head, items, script)
  }

  /** `POST /chat` with `message.text` and `message.content` (an absent
      content is an empty one). */
  function ChatRequest(ids: Ids, configured: Option<Id>, instructions: string, text: string, items: seq<ContentItem>, script: Script): (r: Handled<Answer>)
    ensures IsSet(ids.vectorStore) ==> r.ids.vectorStore == ids.vectorStore
    ensures IsSet(ids.assistant) ==> r.ids.assistant == ids.assistant
    ensures IsSet(ids.thread) ==> r.ids.thread == ids.thread
  {
    var init := Prepared(ids, configured, instructions, script);
    match init.outcome
    case Hung => Handled(init.ids, Hung, init.calls, init.rest)
    case Threw(e) => Handled(init.ids, Returned(JsonError("Error: " + e.message)), init.calls, init.rest)
    case Returned(_) => Following(init.calls, Dispatched(init.ids, configured, instructions, text, items, init.rest))
  }

  /** `/asst`, in any case and with surrounding whitespace, is answered by
      the command and never reaches the run: the answer is a single
      response, or the JSON error of a failed initialisation. */
  lemma AsstNeverStreams(ids: Ids, configured: Option<Id>, instructions: string, text: string, items: seq<ContentItem>, script: Script)
    requires Lower(Strip(text)) == AsstCommand
    ensures var r := ChatRequest(ids, configured, instructions, text, items, script);
      r.outcome.Returned? ==> r.outcome.value.Single? || r.outcome.value.JsonError?
  {
  }

  /** A text starting with `/inst ` is never `/asst`. */
  lemma InstParsed(text: string)
    requires StartsWith(Lower(Strip(text)), InstPrefix)
    ensures Parsed(text).Inst?
  {
    assert |Lower(Strip(text))| != |AsstCommand|;
  }

  /** With a thread and an assistant in the session, `/inst <text>` goes
      straight to the update, with the stripped instructions, and answers
      with the instructions the service now holds. */
  lemma InstUpdates(ids: Ids, configured: Option<Id>, instructions: string, text: string, items: seq<ContentItem>,
                    info: AssistantInfo, script: Script)
    requires StartsWith(Lower(Strip(text)), InstPrefix) && IsSet(ids.thread) && IsSet(ids.assistant)
    requires script != [] && script[0] == Ok(AssistantObject(info))
    ensures ChatRequest(ids, configured, instructions, text, items, script)
         == Handled(ids, Returned(Single(UpdatedText + Shown(info.instructions))),
                    [UpdateAssistant(ids.assistant, Strip(Strip(text)[|InstPrefix|..]))], script[1..])
  {
    InstParsed(text);
    var c := Parsed(text);
    var answer := InstAnswer(ids, configured, instructions, c.newInstructions, script);
    InstAnswerUpdates(ids, configured, instructions, c.newInstructions, info, script);
    assert Dispatched(ids, configured, instructions, text, items, script) == answer;
    assert Prepared(ids, configured, instructions, script) == Step(ids, [], script, Returned(()));
    assert ChatRequest(ids, configured, instructions, text, items, script) == Following([], answer);
    assert [] + answer.calls == answer.calls;
  }

  /** An ordinary message streams the given first items, then one item per
      item of the request, each corresponding to its own, on the session's
      thread with its assistant. */
  lemma MessageAnswerContent(ids: Ids, head: seq<ContentItem>, items: seq<ContentItem>, script: Script)
    ensures var r := MessageAnswer(ids, head, items, script);
      r.outcome.Returned? && r.outcome.value.Streaming? ==>
        var content := r.outcome.value.content;
        |content| == |head| + |items| && content[..|head|] == head
        && (forall k :: 0 <= k < |items| ==> Corresponds(items[k], content[|head| + k]))
        && r.outcome.value.thread == ids.thread && r.outcome.value.assistant == ids.assistant
  {
    AssembledInOrder(items, script);
    var r := MessageAnswer(ids, head, items, script);
    if r.outcome.Returned? && r.outcome.value.Streaming? {
      var sent := Assembled(items, script).outcome.value;
      assert r.outcome.value.content == head + sent;
      assert (head + sent)[..|head|] == head;
    }
  }

  /** After a successful initialisation, a text that is not a command is
      answered as a message whose first item is the stripped text. */
  lemma MessageRouted(ids: Ids, configured: Option<Id>, instructions: string, text: string, items: seq<ContentItem>, script: Script)
    requires text != ""
    requires Lower(Strip(text)) != AsstCommand && !StartsWith(Lower(Strip(text)), InstPrefix)
    requires Prepared(ids, configured, instructions, script).outcome.Returned?
    ensures var init := Prepared(ids, configured, instructions, script);
      var m := MessageAnswer(init.ids, [TextItem(Strip(text))], items, init.rest);
      var r := ChatRequest(ids, configured, instructions, text, items, script);
      r.ids == m.ids && r.outcome == m.outcome
  {
    var init := Prepared(ids, configured, instructions, script);
    var c := Parsed(text);
    assert c == Message([TextItem(Strip(text))]);
    assert Dispatched(init.ids, configured, instructions, text, items, init.rest)
        == MessageAnswer(init.ids, c.head, items, init.rest);
  }

  /** A text that is not a command is sent as the first item, stripped,
      before the request's items in order; the stream runs on the session's
      thread with its assistant. */
  lemma MessageContent(ids: Ids, configured: Option<Id>, instructions: string, text: string, items: seq<ContentItem>, script: Script)
    requires text != ""
    requires Lower(Strip(text)) != AsstCommand && !StartsWith(Lower(Strip(text)), InstPrefix)
    ensures var r := ChatRequest(ids, configured, instructions, text, items, script);
      r.outcome.Returned? && r.outcome.value.Streaming? ==>
        var content := r.outcome.value.content;
        |content| == 1 + |items| && content[0] == TextItem(Strip(text))
        && (forall k :: 0 <= k < |items| ==> Corresponds(items[k], content[k + 1]))
        && r.outcome.value.thread == r.ids.thread && r.outcome.value.assistant == r.ids.assistant
        && r.ids.thread.Some? && r.ids.assistant.Some?
  {
    var init := Prepared(ids, configured, instructions, script);
    var r := ChatRequest(ids, configured, instructions, text, items, script);
    if init.outcome.Returned? {
      var head := [TextItem(Strip(text))];
      MessageRouted(ids, configured, instructions, text, items, script);
      MessageAnswerContent(init.ids, head, items, init.rest);
      if r.outcome.Returned? && r.outcome.value.Streaming? {
        var content := r.outcome.value.content;
        forall k | 0 <= k < |items|
          ensures Corresponds(items[k], content[k + 1])
        {
          assert content[k + 1] == content[|head| + k];
        }
      }
    }
  }

  /** `/inst` without instructions is not a command: it is sent to the
      assistant as ordinary text. */
  lemma BareInstIsText(ids: Ids, configured: Option<Id>, instructions: string, text: string, items: seq<ContentItem>, script: Script)
    requires Lower(Strip(text)) == "/inst"
    ensures var r := ChatRequest(ids, configured, instructions, text, items, script);
      r.outcome.Returned? && r.outcome.value.Streaming? ==>
        |r.outcome.value.content| > 0 && r.outcome.value.content[0] == TextItem(Strip(text))
  {
    assert text != "" by {
      assert |Strip(text)| == 5;
    }
    MessageContent(ids, configured, instructions, text, items, script);
  }

  // ---------------------------------------------------------------- as written

  /** `/asst`, on the session object. */
  method RunAsstCommand(a: Assistant, configured: Option<Id>, script: Script) returns (outcome: Outcome<Answer>, calls: seq<Call>, rest: Script)
    modifies a
    ensures Handled(a.State(), outcome, calls, rest) == AsstAnswer(old(a.State()), configured, a.instructions, script)
  {
    var initialized;
    initialized, calls, rest := a.InitializeForAsst(configured, script);
    match initialized {
      case Hung => return Hung, calls, rest;
      case Threw(e) => return Returned(Single("Error: " + e.message)), calls, rest;
      case Returned(_) =>
    }
    var reply := NextReply(rest);
    calls, rest := calls + [RetrieveAssistant(a.assistantId)], AfterCall(rest);
    match AsAssistant(reply) {
      case Hung => outcome := Hung;
      case Threw(e) => outcome := Returned(Single("Error: " + e.message));
      case Returned(info) => outcome := Returned(Single(InfoText(info, a.vectorStoreId)));
    }
  }

  /** `/inst <instructions>`, on the session object. */
  method RunInstCommand(a: Assistant, configured: Option<Id>, newInstructions: string, script: Script)
    returns (outcome: Outcome<Answer>, calls: seq<Call>, rest: Script)
    modifies a
    ensures Handled(a.State(), outcome, calls, rest) == InstAnswer(old(a.State()), configured, a.instructions, newInstructions, script)
  {
    if newInstructions == "" {
      return Returned(Single(EmptyInstructions)), [], script;
    }
    calls, rest := [], script;
    if !IsSet(a.assistantId) {
      var initialized;
      initialized, calls, rest := a.InitializeForAsst(configured, script);
      match initialized {
        case Hung => return Hung, calls, rest;
        case Threw(e) => return Returned(Single("Error: " + e.message)), calls, rest;
        case Returned(_) =>
      }
    }
    var reply := NextReply(rest);
    calls, rest := calls + [UpdateAssistant(a.assistantId, newInstructions)], AfterCall(rest);
    match AsAssistant(reply) {
      case Hung => outcome := Hung;
      case Threw(e) => outcome := Returned(Single("Error: " + e.message));
      case Returned(info) => outcome := Returned(Single(UpdatedText + Shown(info.instructions)));
    }
  }

  /** One item, as written. */
  method ConvertItem(item: ContentItem, script: Script) returns (e: Exchange<ContentItem>)
    ensures e == Converted(item, script)
  {
    if !item.ImageUrlItem? {
      return Exchange(Returned(item), [], script);
    }
    var parts := Split(item.url, ',');
    if |parts| < 2 {
      return Exchange(Threw(NoSecondPart), [], script);
    }
    var decoded := Base64.Decode(parts[1]);
    if decoded.None? {
      return Exchange(Threw(BadBase64), [], script);
    }
    var uploaded := [UploadImageFile(decoded.value)];
    match AsId(NextReply(script)) {
      case Hung => e := Exchange(Hung, uploaded, AfterCall(script));
      case Threw(err) => e := Exchange(Threw(err), uploaded, AfterCall(script));
      case Returned(id) => e := Exchange(Returned(ImageFileItem(id)), uploaded, AfterCall(script));
    }
  }

  /** The `for item in message.content` loop, appending to `content`. */
  method AssembleContent(items: seq<ContentItem>, script: Script) returns (e: Exchange<seq<ContentItem>>)
    ensures e == Assembled(items, script)
  {
    var sent: seq<ContentItem> := [];
    var calls: seq<Call> := [];
    var rest := script;
    assert items[0..] == items;
    GatheredNothing(Assembled(items, script));
    for i := 0 to |items|
      invariant Assembled(items, script) == Gathered(sent, calls, Assembled(items[i..], rest))
    {
      var c := ConvertItem(items[i], rest);
      assert items[i..][0] == items[i];
      match c.outcome {
        case Hung => return Exchange(Hung, calls + c.calls, c.rest);
        case Threw(err) => return Exchange(Threw(err), calls + c.calls, c.rest);
        case Returned(item) =>
          AssembledStep(items, i, rest);
          GatheredTwice(sent, calls, [item], c.calls, Assembled(items[i + 1..], c.rest));
          sent, calls, rest := sent + [item], calls + c.calls, c.rest;
      }
    }
    assert items[|items|..] == [];
    assert sent + [] == sent && calls + [] == calls;
    e := Exchange(Returned(sent), calls, rest);
  }

  /** What follows the initialisation, on the session object. */
  method Dispatch(a: Assistant, configured: Option<Id>, text: string, items: seq<ContentItem>, script: Script)
    returns (outcome: Outcome<Answer>, calls: seq<Call>, rest: Script)
    modifies a
    ensures Handled(a.State(), outcome, calls, rest) == Dispatched(old(a.State()), configured, a.instructions, text, items, script)
  {
    match Parsed(text) {
      case Asst =>
        outcome, calls, rest := RunAsstCommand(a, configured, script);
      case Inst(newInstructions) =>
        outcome, calls, rest := RunInstCommand(a, configured, newInstructions, script);
      case Message(head) =>
        var assembled := AssembleContent(items, script);
        calls, rest := assembled.calls, assembled.rest;
        match assembled.outcome {
          case Hung => outcome := Hung;
          case Threw(e) => outcome := Returned(JsonError("Error: " + e.message));
          case Returned(sent) => outcome := Returned(Streaming(head + sent, a.conversationThread, a.assistantId));
        }
    }
  }

  /** `chat`, on the session object: what it returns, the calls it made and
      the session it leaves. */
  method HandleChat(a: Assistant, configured: Option<Id>, text: string, items: seq<ContentItem>, script: Script)
    returns (outcome: Outcome<Answer>, calls: seq<Call>, rest: Script)
    modifies a
    ensures Handled(a.State(), outcome, calls, rest) == ChatRequest(old(a.State()), configured, a.instructions, text, items, script)
  {
    calls, rest := [], script;
    if !IsSet(a.conversationThread) || !IsSet(a.assistantId) {
      var initialized;
      initialized, calls, rest := a.Initialize(configured, script);
      match initialized {
        case Hung => return Hung, calls, rest;
        case Threw(e) => return Returned(JsonError("Error: " + e.message)), calls, rest;
        case Returned(_) =>
      }
    }
    var more;
    outcome, more, rest := Dispatch(a, configured, text, items, rest);
    calls := calls + more;
  }
}
