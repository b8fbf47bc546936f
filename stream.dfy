/** `stream_chat_response` of backend/endpoints/chat.py: the event stream
    that answers a chat message. It sends a thinking event, posts the
    message to the thread, starts a run, and polls it. A run that requires
    action has each function tool call announced and the financial-service
    call answered, and the pending outputs submitted; a completed run has
    the first assistant message's text sent with its token usage and the
    files it names downloaded; a failed run, or any exception, ends the
    stream with an error event.

    As in the source, `tool_outputs` is reset at every function tool call
    and survives from one polling pass to the next, so only the output of
    the last function tool call of a pass is submitted, and a pass that
    meets no function tool call before any was seen raises. */
module Stream {
  import opened Common
  import opened Remote
  import opened Events
  import Runs
  import Factory

  const ThinkingText := "Thinking..."
  /** The output for an empty answer; shorter than `generate_message`'s. */
  const ChatApology := "該当する決算情報が見つかりませんでした。"
  const DownloadDir := "./downloaded_files"

  /** The exceptions the stream raises itself, by their Python text: reading
      through a missing required action or `submit_tool_outputs` object,
      reading the `tool_calls` attribute that object lacks, testing
      `tool_outputs` before any function tool call assigned it, and reading
      the usage of a run that reports none. */
  const NoRequiredAction := Error("'NoneType' object has no attribute 'submit_tool_outputs'")
  const NoSubmitToolOutputs := Error("'NoneType' object has no attribute 'tool_calls'")
  const NoToolCalls := Error("'RequiredActionSubmitToolOutputs' object has no attribute 'tool_calls'")
  const UnboundOutputs := Error("cannot access local variable 'tool_outputs' where it is not associated with a value")
  const NoUsageReported := Error("'NoneType' object has no attribute 'prompt_tokens'")

  /** The event of the outer `except` block and of a failed run. */
  function ErrorEvent(e: Error): (ev: Event)
    ensures ev.Complete? && ev.usage == NoUsage && ev.files.None?
    ensures StartsWith(ev.text, "Error: ") && ev.text[|"Error: "|..] == e.message
  {
    ZeroUsageComplete("Error: " + e.message)
  }

  /** What a stream sent and called, the replies it left, and whether it
      ended (`false`: the script ran out while it waited). */
  datatype Streamed = Streamed(events: seq<Event>, calls: seq<Call>, rest: Script, ended: bool)

  /** A stream preceded by events sent and calls made earlier. */
  function Then(events: seq<Event>, calls: seq<Call>, s: Streamed): Streamed {
    Streamed(events + s.events, calls + s.calls, s.rest, s.ended)
  }

  /** The stream ends on an exception: one error event. */
  function Raised(e: Error, calls: seq<Call>, rest: Script): Streamed {
    Streamed([ErrorEvent(e)], calls, rest, true)
  }

  /** The stream waits for a reply the script does not have. */
  function Stalled(calls: seq<Call>, rest: Script): Streamed {
    Streamed([], calls, rest, false)
  }

  // ------------------------------------------------------------ tool calls

  /** The state of the `for tool_call in tool_calls` loop: the events sent,
      `tool_outputs` (None while unassigned), the calls made, the replies
      left, and whether the script ran out. */
  datatype Handling = Handling(events: seq<Event>, pending: Option<seq<ToolOutput>>, calls: seq<Call>, rest: Script, hung: bool)

  function Preceded(events: seq<Event>, calls: seq<Call>, h: Handling): Handling {
    h.(events := events + h.events, calls := calls + h.calls)
  }

  lemma PrecededTwice(e1: seq<Event>, c1: seq<Call>, e2: seq<Event>, c2: seq<Call>, h: Handling)
    ensures Preceded(e1, c1, Preceded(e2, c2, h)) == Preceded(e1 + e2, c1 + c2, h)
  {
    assert e1 + (e2 + h.events) == e1 + e2 + h.events;
    assert c1 + (c2 + h.calls) == c1 + c2 + h.calls;
  }

  /** The tool calls of one `requires_action` pass. A function tool call is
      announced with its name, then `tool_outputs` is reset to hold only its
      own output: the financial service's answer for `call_dxa_factory`,
      nothing for any other function. Other tool calls are skipped. */
  function HandleTools(tools: seq<ToolCall>, pending: Option<seq<ToolOutput>>, script: Script): (r: Handling)
    decreases |tools|
    ensures |r.rest| <= |script|
  {
    if tools == [] then Handling([], pending, [], script, false)
    else if tools[0].kind != "function" then HandleTools(tools[1..], pending, script)
    else
      var announced := [FunctionCall(tools[0].name)];
      var o := Runs.OutputFor(tools[0], ChatApology, script);
      if o.outcome.Hung? then Handling(announced, pending, o.calls, o.rest, true)
      else Preceded(announced, o.calls, HandleTools(tools[1..], Some(Runs.Contribution(o.outcome.value)), o.rest))
  }

  /** The function-call events of a pass: one per function tool call, in order. */
  function Announcements(tools: seq<ToolCall>): (r: seq<Event>)
    ensures |r| <= |tools|
    ensures forall k :: 0 <= k < |r| ==> r[k].FunctionCall?
  {
    if tools == [] then []
    else if tools[0].kind == "function" then [FunctionCall(tools[0].name)] + Announcements(tools[1..])
    else Announcements(tools[1..])
  }

  /** The last function tool call of a pass, if any. */
  function LastFunction(tools: seq<ToolCall>): (r: Option<ToolCall>)
    ensures r.Some? ==> r.value in tools && r.value.kind == "function"
    ensures r.None? <==> forall t :: t in tools ==> t.kind != "function"
  {
    if tools == [] then None
    else
      var later := LastFunction(tools[1..]);
      if later.Some? then later
      else if tools[0].kind == "function" then Some(tools[0])
      else None
  }

  predicate AllAnnouncements(events: seq<Event>) {
    forall k :: 0 <= k < |events| ==> events[k].FunctionCall?
  }

  /** One function tool call of a pass whose output was built: it is
      announced, then the rest of the pass follows. */
  lemma HandleToolsStep(tools: seq<ToolCall>, pending: Option<seq<ToolOutput>>, script: Script)
    requires tools != [] && tools[0].kind == "function"
    ensures var o := Runs.OutputFor(tools[0], ChatApology, script);
      !o.outcome.Hung? ==>
        HandleTools(tools, pending, script)
        == Preceded([FunctionCall(tools[0].name)], o.calls, HandleTools(tools[1..], Some(Runs.Contribution(o.outcome.value)), o.rest))
  {
  }

  /** An announcement and financial-service requests placed before a pass
      keep it a pass of announcements and requests only. */
  lemma PrecededAnnounces(name: string, calls: seq<Call>, h: Handling)
    requires forall c :: c in calls ==> c.AskFactory?
    requires AllAnnouncements(h.events) && forall c :: c in h.calls ==> c.AskFactory?
    ensures var r := Preceded([FunctionCall(name)], calls, h);
      AllAnnouncements(r.events) && forall c :: c in r.calls ==> c.AskFactory?
  {
    var r := Preceded([FunctionCall(name)], calls, h);
    assert forall k :: 1 <= k < |r.events| ==> r.events[k] == h.events[k - 1];
  }

  /** A pass announces every function tool call it reaches, and calls only
      the financial service; when the script lasts, it announces all of them. */
  lemma {:induction false} HandleToolsAnnounces(tools: seq<ToolCall>, pending: Option<seq<ToolOutput>>, script: Script)
    decreases |tools|
    ensures var r := HandleTools(tools, pending, script);
      AllAnnouncements(r.events)
      && (forall c :: c in r.calls ==> c.AskFactory?)
      && (!r.hung ==> r.events == Announcements(tools))
  {
    if tools != [] {
      if tools[0].kind != "function" {
        HandleToolsAnnounces(tools[1..], pending, script);
      } else {
        var o := Runs.OutputFor(tools[0], ChatApology, script);
        if !o.outcome.Hung? {
          var next := Some(Runs.Contribution(o.outcome.value));
          HandleToolsAnnounces(tools[1..], next, o.rest);
          HandleToolsStep(tools, pending, script);
          PrecededAnnounces(tools[0].name, o.calls, HandleTools(tools[1..], next, o.rest));
        }
      }
    }
  }

  /** `tool_outputs` after a pass: unchanged when the pass has no function
      tool call; otherwise what the last one left, which is one non-empty
      output carrying that call's id when it is a financial-service call,
      and nothing when it is another function. Earlier outputs of the pass
      are dropped. */
  lemma {:induction false} HandleToolsPending(tools: seq<ToolCall>, pending: Option<seq<ToolOutput>>, script: Script)
    decreases |tools|
    ensures var r := HandleTools(tools, pending, script);
      !r.hung ==>
        (LastFunction(tools).None? ==> r.pending == pending)
        && (LastFunction(tools).Some? ==>
              var last := LastFunction(tools).value;
              r.pending.Some? && |r.pending.value| <= 1
              && (|r.pending.value| == 1 <==> Runs.IsDxaCall(last))
              && (|r.pending.value| == 1 ==> r.pending.value[0].toolCallId == last.id && r.pending.value[0].output != ""))
  {
    if tools != [] {
      if tools[0].kind != "function" {
        HandleToolsPending(tools[1..], pending, script);
      } else {
        var o := Runs.OutputFor(tools[0], ChatApology, script);
        if !o.outcome.Hung? {
          var next := Some(Runs.Contribution(o.outcome.value));
          HandleToolsPending(tools[1..], next, o.rest);
        }
      }
    }
  }

  // ------------------------------------------------------ requires_action

  /** What a polling pass leads to: the stream ends as given, or it polls
      again after the events and calls made, with `tool_outputs` as left. */
  datatype Cycle =
    | Ended(stream: Streamed)
    | Again(events: seq<Event>, calls: seq<Call>, pending: Option<seq<ToolOutput>>, rest: Script)

  /** The `requires_action` branch: the tool calls are handled, and a
      non-empty `tool_outputs` is submitted; an empty one is not, and the
      loop polls again. */
  function Act(thread: Option<Id>, runId: Id, run: Run, pending: Option<seq<ToolOutput>>, script: Script): (r: Cycle)
    ensures r.Again? ==> |r.rest| <= |script|
    ensures r.Ended? ==> |r.stream.rest| <= |script|
  {
    match run.requiredAction
    case None => Ended(Raised(NoRequiredAction, [], script))
    case Some(action) =>
      match action.submitToolOutputs
      case None => Ended(Raised(NoSubmitToolOutputs, [], script))
      case Some(submit) =>
        match submit.toolCalls
        case None => Ended(Raised(NoToolCalls, [], script))
        case Some(tools) => Submission(thread, runId, HandleTools(tools, pending, script))
  }

  /** What follows the tool-call loop: `if tool_outputs:` raises while it
      is unassigned; a non-empty list is submitted. */
  function Submission(thread: Option<Id>, runId: Id, h: Handling): (r: Cycle)
    ensures r.Again? ==> |r.rest| <= |h.rest|
    ensures r.Ended? ==> |r.stream.rest| <= |h.rest|
  {
    if h.hung then Ended(Streamed(h.events, h.calls, h.rest, false))
    else
      match h.pending
      case None => Ended(Streamed(h.events + [ErrorEvent(UnboundOutputs)], h.calls, h.rest, true))
      case Some(outputs) =>
        if outputs == [] then Again(h.events, h.calls, h.pending, h.rest)
        else
          var submitted := h.calls + [SubmitOutputs(thread, runId, outputs)];
          match AsDone(NextReply(h.rest))
          case Hung => Ended(Streamed(h.events, submitted, AfterCall(h.rest), false))
          case Threw(e) => Ended(Streamed(h.events + [ErrorEvent(e)], submitted, AfterCall(h.rest), true))
          case Returned(_) => Again(h.events, submitted, h.pending, AfterCall(h.rest))
  }

  /** `tool_outputs` as the stream keeps it: unassigned, or at most one
      non-empty output. */
  predicate PendingOk(pending: Option<seq<ToolOutput>>) {
    pending.Some? ==> |pending.value| <= 1 && forall k :: 0 <= k < |pending.value| ==> pending.value[k].output != ""
  }

  /** Every submission carries exactly one non-empty output. */
  predicate SingleSubmissions(calls: seq<Call>) {
    forall c :: c in calls && c.SubmitOutputs? ==> |c.outputs| == 1 && c.outputs[0].output != ""
  }

  /** The shape of a stream after its thinking event: while it runs, only
      function-call events; once it ends, one complete event closes it,
      except when the completed run has no assistant message, which ends
      it silently right after listing the messages. */
  predicate WellFormed(thread: Option<Id>, s: Streamed) {
    if !s.ended then AllAnnouncements(s.events)
    else
      (s.events != [] && AllAnnouncements(s.events[..|s.events| - 1]) && s.events[|s.events| - 1].Complete?)
      || (AllAnnouncements(s.events) && s.calls != [] && s.calls[|s.calls| - 1] == ListMessages(thread))
  }

  /** After the tool-call loop: a stream that ends is closed by a complete
      event, only what `tool_outputs` holds is submitted, and it is kept. */
  lemma SubmissionShape(thread: Option<Id>, runId: Id, h: Handling)
    requires AllAnnouncements(h.events) && PendingOk(h.pending)
    requires forall c :: c in h.calls ==> !c.SubmitOutputs?
    ensures match Submission(thread, runId, h)
      case Ended(s) => WellFormed(thread, s) && SingleSubmissions(s.calls)
      case Again(events, calls, next, _) => AllAnnouncements(events) && SingleSubmissions(calls) && PendingOk(next)
  {
    if !h.hung {
      assert (h.events + [ErrorEvent(UnboundOutputs)])[..|h.events|] == h.events;
      if h.pending.Some? && h.pending.value != [] {
        var submitted := h.calls + [SubmitOutputs(thread, runId, h.pending.value)];
        assert forall c :: c in submitted && c.SubmitOutputs? ==> c == SubmitOutputs(thread, runId, h.pending.value);
        if AsDone(NextReply(h.rest)).Threw? {
          var e := AsDone(NextReply(h.rest)).error;
          assert (h.events + [ErrorEvent(e)])[..|h.events|] == h.events;
        }
      }
    }
  }

  /** A pass announces its function calls, and one that ends the stream
      closes it with a complete event; it keeps `tool_outputs` within one
      output, submits only what it holds, and polls again only after a
      submission that raised nothing or when there was nothing to submit. */
  lemma ActShape(thread: Option<Id>, runId: Id, run: Run, pending: Option<seq<ToolOutput>>, script: Script)
    requires PendingOk(pending)
    ensures match Act(thread, runId, run, pending, script)
      case Ended(s) => WellFormed(thread, s) && SingleSubmissions(s.calls)
      case Again(events, calls, next, _) => AllAnnouncements(events) && SingleSubmissions(calls) && PendingOk(next)
  {
    if run.requiredAction.Some? && run.requiredAction.value.submitToolOutputs.Some?
       && run.requiredAction.value.submitToolOutputs.value.toolCalls.Some? {
      var tools := run.requiredAction.value.submitToolOutputs.value.toolCalls.value;
      var h := HandleTools(tools, pending, script);
      HandleToolsAnnounces(tools, pending, script);
      HandleToolsPending(tools, pending, script);
      assert forall c :: c in h.calls ==> !c.SubmitOutputs?;
      assert !h.hung ==> PendingOk(h.pending);
      if h.hung {
        assert Act(thread, runId, run, pending, script) == Ended(Streamed(h.events, h.calls, h.rest, false));
      } else {
        SubmissionShape(thread, runId, h);
      }
    }
  }

  // ------------------------------------------------------------- completed

  /** The message the stream answers with: the first in the listing whose
      role is `assistant`. */
  function FirstAssistant(ms: seq<ThreadMessage>): (r: Option<ThreadMessage>)
    ensures r.None? <==> forall m :: m in ms ==> m.role != "assistant"
    ensures r.Some? ==> exists k :: 0 <= k < |ms| && ms[k] == r.value && r.value.role == "assistant"
                                    && forall j :: 0 <= j < k ==> ms[j].role != "assistant"
  {
    if ms == [] then None
    else if ms[0].role == "assistant" then Some(ms[0])
    else
      var later := FirstAssistant(ms[1..]);
      if later.Some? then
        var k :| 0 <= k < |ms[1..]| && ms[1..][k] == later.value && later.value.role == "assistant"
                 && forall j :: 0 <= j < k ==> ms[1..][j].role != "assistant";
        assert ms[k + 1] == later.value;
        later
      else
        assert forall m :: m in ms[1..] ==> m.role != "assistant";
        assert forall m :: m in ms ==> m == ms[0] || m in ms[1..];
        None
  }

  /** The text one content block adds to `full_response`. */
  function BlockText(block: MessageContent): string {
    if block.TextBlock? then block.value else ""
  }

  /** `full_response`: the message's text blocks, concatenated in order. */
  function TextOf(content: seq<MessageContent>): (r: string)
    ensures (forall k :: 0 <= k < |content| ==> !content[k].TextBlock?) ==> r == ""
    ensures content != [] && content[0].TextBlock? ==> StartsWith(r, content[0].value)
  {
    if content == [] then "" else BlockText(content[0]) + TextOf(content[1..])
  }

  /** The generated file one annotation names, if it names one. */
  function AnnotationFile(a: Annotation): seq<Id> {
    if a.FilePathAnnotation? then [a.fileId] else []
  }

  /** The generated files a text block's annotations name, in order. */
  function AnnotatedFiles(annotations: seq<Annotation>): (r: seq<Id>)
    ensures |r| <= |annotations|
    ensures forall id :: id in r ==> FilePathAnnotation(id) in annotations
  {
    if annotations == [] then []
    else
      var tail := AnnotatedFiles(annotations[1..]);
      assert forall a :: a in annotations[1..] ==> a in annotations;
      AnnotationFile(annotations[0]) + tail
  }

  /** The files one content block names. */
  function BlockFiles(block: MessageContent): seq<Id> {
    match block
    case TextBlock(_, annotations) => AnnotatedFiles(annotations)
    case ImageFileBlock(id) => [id]
    case ImageUrlBlock(_) => []
  }

  /** `file_ids_to_download`: the files the blocks name, block by block. */
  function FileIdsOf(content: seq<MessageContent>): (r: seq<Id>)
    ensures forall k :: 0 <= k < |content| && content[k].ImageFileBlock? ==> content[k].fileId in r
    ensures (forall k :: 0 <= k < |content| ==> content[k].ImageUrlBlock?) ==> r == []
  {
    if content == [] then []
    else
      var tail := FileIdsOf(content[1..]);
      assert forall k :: 1 <= k < |content| ==> content[k] == content[1..][k - 1];
      BlockFiles(content[0]) + tail
  }

  /** The text grows block by block, as the loop builds it. */
  lemma {:induction false} TextOfAppend(content: seq<MessageContent>, block: MessageContent)
    ensures TextOf(content + [block]) == TextOf(content) + BlockText(block)
  {
    if content == [] {
      assert content + [block] == [block];
    } else {
      var c := content + [block];
      assert c[1..] == content[1..] + [block];
      TextOfAppend(content[1..], block);
      assert TextOf(c) == BlockText(content[0]) + TextOf(c[1..]);
    }
  }

  /** The file list grows block by block, as the loop builds it. */
  lemma {:induction false} FileIdsOfAppend(content: seq<MessageContent>, block: MessageContent)
    ensures FileIdsOf(content + [block]) == FileIdsOf(content) + BlockFiles(block)
  {
    var c := content + [block];
    if content == [] {
      assert c == [block] && c[1..] == [];
    } else {
      assert c[0] == content[0] && c[1..] == content[1..] + [block];
      FileIdsOfAppend(content[1..], block);
      assert FileIdsOf(c) == BlockFiles(content[0]) + (FileIdsOf(content[1..]) + BlockFiles(block));
    }
  }

  lemma {:induction false} AnnotatedFilesAppend(annotations: seq<Annotation>, a: Annotation)
    ensures AnnotatedFiles(annotations + [a]) == AnnotatedFiles(annotations) + AnnotationFile(a)
  {
    var c := annotations + [a];
    if annotations == [] {
      assert c == [a] && c[1..] == [];
    } else {
      assert c[0] == annotations[0] && c[1..] == annotations[1..] + [a];
      AnnotatedFilesAppend(annotations[1..], a);
      assert AnnotatedFiles(c) == AnnotationFile(annotations[0]) + (AnnotatedFiles(annotations[1..]) + AnnotationFile(a));
    }
  }

  /** A file is downloaded for a file-path annotation, and for nothing else
      of a text block. */
  lemma {:induction false} AnnotatedFilesNamed(annotations: seq<Annotation>, id: Id)
    ensures id in AnnotatedFiles(annotations) <==> FilePathAnnotation(id) in annotations
  {
    if annotations != [] {
      AnnotatedFilesNamed(annotations[1..], id);
      assert annotations == [annotations[0]] + annotations[1..];
    }
  }

  /** A content block names a file: a file-path annotation of a text block,
      or an image-file block. */
  predicate NamesFile(block: MessageContent, id: Id) {
    (block.TextBlock? && FilePathAnnotation(id) in block.annotations) || (block.ImageFileBlock? && block.fileId == id)
  }

  /** The files to download are exactly those the message's blocks name. */
  lemma {:induction false} FileIdsNamed(content: seq<MessageContent>, id: Id)
    ensures id in FileIdsOf(content) <==> exists k :: 0 <= k < |content| && NamesFile(content[k], id)
  {
    if content != [] {
      FileIdsNamed(content[1..], id);
      if content[0].TextBlock? {
        AnnotatedFilesNamed(content[0].annotations, id);
      }
      if exists k :: 0 <= k < |content| && NamesFile(content[k], id) {
        var k :| 0 <= k < |content| && NamesFile(content[k], id);
        if k > 0 {
          assert NamesFile(content[1..][k - 1], id);
        }
      }
      if exists k :: 0 <= k < |content[1..]| && NamesFile(content[1..][k], id) {
        var k :| 0 <= k < |content[1..]| && NamesFile(content[1..][k], id);
        assert NamesFile(content[k + 1], id);
      }
    }
  }

  /** Where a download is written: `os.path.join` of the download directory
      and the file's name, which keeps an absolute name as it is. */
  function PathFor(filename: string): (path: string)
    ensures EndsWith(path, filename)
    ensures StartsWith(filename, "/") ==> path == filename
    ensures !StartsWith(filename, "/") ==> StartsWith(path, DownloadDir + "/") && |path| == |DownloadDir| + 1 + |filename|
  {
    if StartsWith(filename, "/") then filename else DownloadDir + "/" + filename
  }

  /** One download: the file's metadata, then its content. A failure of
      either is logged and the file skipped. */
  function Download(fileId: Id, script: Script): (r: Exchange<seq<FileInfo>>)
    ensures !r.outcome.Threw? && |r.rest| <= |script|
    ensures r.calls != [] && r.calls[0] == RetrieveFile(fileId)
    ensures r.outcome.Returned? && r.outcome.value != [] ==>
      r.outcome.value == [FileInfo(fileId, r.outcome.value[0].filename, PathFor(r.outcome.value[0].filename))]
      && r.calls == [RetrieveFile(fileId), DownloadFileContent(fileId)]
      && script != [] && script[0] == Ok(FileObject(r.outcome.value[0].filename))
    ensures |script| >= 2 && script[0].Ok? && script[0].value.FileObject? && script[1] == Ok(Done)
         ==> r.outcome == Returned([FileInfo(fileId, script[0].value.filename, PathFor(script[0].value.filename))])
    ensures script != [] && script[0].Err? ==> r.outcome == Returned([])
  {
    var retrieved := [RetrieveFile(fileId)];
    match AsFilename(NextReply(script))
    case Hung => Exchange(Hung, retrieved, AfterCall(script))
    case Threw(_) => Exchange(Returned([]), retrieved, AfterCall(script))
    case Returned(name) =>
      var rest := AfterCall(script);
      var calls := retrieved + [DownloadFileContent(fileId)];
      match AsDone(NextReply(rest))
      case Hung => Exchange(Hung, calls, AfterCall(rest))
      case Threw(_) => Exchange(Returned([]), calls, AfterCall(rest))
      case Returned(_) => Exchange(Returned([FileInfo(fileId, name, PathFor(name))]), calls, AfterCall(rest))
  }

  /** `downloaded_files`: the files downloaded, in the order named. */
  function Downloads(fileIds: seq<Id>, script: Script): (r: Exchange<seq<FileInfo>>)
    decreases |fileIds|
    ensures !r.outcome.Threw? && |r.rest| <= |script|
  {
    if fileIds == [] then Exchange(Returned([]), [], script)
    else
      var d := Download(fileIds[0], script);
      if d.outcome.Hung? then d
      else Gathered(d.outcome.value, d.calls, Downloads(fileIds[1..], d.rest))
  }

  /** The ids of the files, in order. */
  function IdsOf(files: seq<FileInfo>): (ids: seq<Id>)
    ensures |ids| == |files| && forall k :: 0 <= k < |files| ==> ids[k] == files[k].fileId
  {
    if files == [] then [] else [files[0].fileId] + IdsOf(files[1..])
  }

  /** `xs` is `ys` with some elements left out, the rest kept in order. */
  predicate Subsequence<T(==)>(xs: seq<T>, ys: seq<T>)
    decreases |ys|
  {
    if ys == [] then xs == []
    else Subsequence(xs, ys[1..]) || (xs != [] && xs[0] == ys[0] && Subsequence(xs[1..], ys[1..]))
  }

  /** Every file listed was named by the message, was fetched and
      downloaded, and is written under its own name; the files kept are the
      named ones with the failed downloads left out, in the order named. */
  lemma {:induction false} DownloadsSound(fileIds: seq<Id>, script: Script)
    decreases |fileIds|
    ensures var r := Downloads(fileIds, script);
      r.outcome.Returned? ==>
        Subsequence(IdsOf(r.outcome.value), fileIds)
        && forall f :: f in r.outcome.value ==>
             f.fileId in fileIds && f.path == PathFor(f.filename)
             && RetrieveFile(f.fileId) in r.calls && DownloadFileContent(f.fileId) in r.calls
  {
    if fileIds != [] {
      var d := Download(fileIds[0], script);
      if !d.outcome.Hung? {
        DownloadsSound(fileIds[1..], d.rest);
        var tail := Downloads(fileIds[1..], d.rest);
        assert forall f :: f in d.outcome.value ==>
          f.fileId == fileIds[0] && f.path == PathFor(f.filename)
          && RetrieveFile(f.fileId) in d.calls && DownloadFileContent(f.fileId) in d.calls;
        assert forall id :: id in fileIds[1..] ==> id in fileIds;
        if tail.outcome.Returned? {
          var kept := d.outcome.value + tail.outcome.value;
          if d.outcome.value == [] {
            assert kept == tail.outcome.value;
          } else {
            assert kept[0].fileId == fileIds[0] && kept[1..] == tail.outcome.value;
            assert IdsOf(kept)[1..] == IdsOf(tail.outcome.value);
          }
        }
      }
    }
  }

  /** Every file's metadata and content arrive, one file after the other. */
  predicate AllDelivered(fileIds: seq<Id>, script: Script)
    decreases |fileIds|
  {
    fileIds == []
    || (|script| >= 2 && script[0].Ok? && script[0].value.FileObject? && script[1] == Ok(Done)
        && AllDelivered(fileIds[1..], script[2..]))
  }

  /** When every download succeeds, every named file is kept, in the order
      named, under the name its metadata gave. */
  lemma {:induction false} DownloadsComplete(fileIds: seq<Id>, script: Script)
    requires AllDelivered(fileIds, script)
    decreases |fileIds|
    ensures var r := Downloads(fileIds, script);
      r.outcome.Returned? && IdsOf(r.outcome.value) == fileIds
      && forall k :: 0 <= k < |fileIds| ==> r.outcome.value[k].path == PathFor(r.outcome.value[k].filename)
  {
    if fileIds != [] {
      var d := Download(fileIds[0], script);
      assert d.outcome == Returned([FileInfo(fileIds[0], script[0].value.filename, PathFor(script[0].value.filename))]);
      assert d.rest == script[2..];
      DownloadsComplete(fileIds[1..], script[2..]);
      var tail := Downloads(fileIds[1..], script[2..]);
      var kept := d.outcome.value + tail.outcome.value;
      assert Downloads(fileIds, script).outcome.value == kept;
      assert kept[1..] == tail.outcome.value;
      assert IdsOf(kept) == [fileIds[0]] + IdsOf(tail.outcome.value);
      assert fileIds == [fileIds[0]] + fileIds[1..];
    }
  }

  /** Downloading calls only for the metadata and the content of files. */
  lemma {:induction false} DownloadsCalls(fileIds: seq<Id>, script: Script)
    decreases |fileIds|
    ensures forall c :: c in Downloads(fileIds, script).calls ==> c.RetrieveFile? || c.DownloadFileContent?
  {
    if fileIds != [] {
      var d := Download(fileIds[0], script);
      if !d.outcome.Hung? {
        DownloadsCalls(fileIds[1..], d.rest);
      }
    }
  }

  /** The `completed` branch: list the messages and answer with the first
      assistant message's text, its downloaded files and the run's usage;
      no assistant message ends the stream with nothing sent. */
  function Completion(thread: Option<Id>, run: Run, script: Script): (r: Streamed)
    ensures |r.rest| <= |script|
  {
    var listed := [ListMessages(thread)];
    match AsMessages(NextReply(script))
    case Hung => Stalled(listed, AfterCall(script))
    case Threw(e) => Raised(e, listed, AfterCall(script))
    case Returned(ms) =>
      match FirstAssistant(ms)
      case None => Streamed([], listed, AfterCall(script), true)
      case Some(m) =>
        var d := Downloads(FileIdsOf(m.content), AfterCall(script));
        if d.outcome.Hung? then Stalled(listed + d.calls, d.rest)
        else
          match run.usage
          case None => Raised(NoUsageReported, listed + d.calls, d.rest)
          case Some(u) => Streamed([Complete(TextOf(m.content), u, Some(d.outcome.value))], listed + d.calls, d.rest, true)
  }

  /** The completed branch ends the stream well formed and submits nothing. */
  lemma CompletionShape(thread: Option<Id>, run: Run, script: Script)
    ensures var r := Completion(thread, run, script);
      WellFormed(thread, r) && SingleSubmissions(r.calls)
  {
    var listed := [ListMessages(thread)];
    if script != [] && script[0].Ok? && script[0].value.Messages? {
      var m := FirstAssistant(script[0].value.messages);
      if m.Some? {
        var d := Downloads(FileIdsOf(m.value.content), AfterCall(script));
        DownloadsCalls(FileIdsOf(m.value.content), AfterCall(script));
        assert forall c :: c in listed + d.calls ==> !c.SubmitOutputs?;
      }
    }
  }

  /** A completed run's answer is the first assistant message's text with
      the run's usage, and the files that the message names, in the order
      named, each fetched and written under its own name; a file is missing
      only when its download failed, so when all downloads succeed every
      named file is there. */
  lemma CompletionAnswers(thread: Option<Id>, run: Run, script: Script)
    ensures var r := Completion(thread, run, script);
      r.events != [] && r.events[0].Complete? && r.events[0].files.Some? ==>
        script != [] && script[0].Ok? && script[0].value.Messages?
        && var m := FirstAssistant(script[0].value.messages);
           m.Some? && r.events[0].text == TextOf(m.value.content) && run.usage == Some(r.events[0].usage)
           && Subsequence(IdsOf(r.events[0].files.value), FileIdsOf(m.value.content))
           && (AllDelivered(FileIdsOf(m.value.content), script[1..]) ==> IdsOf(r.events[0].files.value) == FileIdsOf(m.value.content))
           && forall f :: f in r.events[0].files.value ==>
                f.fileId in FileIdsOf(m.value.content) && f.path == PathFor(f.filename)
                && DownloadFileContent(f.fileId) in r.calls
  {
    var r := Completion(thread, run, script);
    var listed := [ListMessages(thread)];
    if script != [] && script[0].Ok? && script[0].value.Messages? {
      var m := FirstAssistant(script[0].value.messages);
      if m.Some? {
        var d := Downloads(FileIdsOf(m.value.content), AfterCall(script));
        if !d.outcome.Hung? && run.usage.Some? {
          DownloadsSound(FileIdsOf(m.value.content), AfterCall(script));
          assert r.events[0].files.value == d.outcome.value;
          assert r.calls == listed + d.calls;
          if AllDelivered(FileIdsOf(m.value.content), script[1..]) {
            DownloadsComplete(FileIdsOf(m.value.content), script[1..]);
          }
        }
      }
    }
  }

  // --------------------------------------------------------------- polling

  /** The `while True` loop: retrieve the run and act on its status; any
      status other than `requires_action`, `completed` and the failures
      polls again. */
  function Polling(thread: Option<Id>, runId: Id, pending: Option<seq<ToolOutput>>, script: Script): (r: Streamed)
    decreases |script|
    ensures |r.rest| <= |script|
  {
    var retrieved := [RetrieveRun(thread, runId)];
    match AsRun(NextReply(script))
    case Hung => Stalled(retrieved, AfterCall(script))
    case Threw(e) => Raised(e, retrieved, AfterCall(script))
    case Returned(run) =>
      var rest := script[1..];
      if run.status == RequiresAction then
        match Act(thread, runId, run, pending, rest)
        case Ended(s) => Then([], retrieved, s)
        case Again(events, calls, next, after) => Then(events, retrieved + calls, Polling(thread, runId, next, after))
      else if run.status == Completed then Then([], retrieved, Completion(thread, run, rest))
      else if IsFailure(run.status) then Raised(Error("Run failed with status " + StatusName(run.status)), retrieved, rest)
      else Then([], retrieved, Polling(thread, runId, pending, rest))
  }

  /** Calls and announcements made before a well-formed stream keep it
      well formed. */
  lemma ThenWellFormed(thread: Option<Id>, events: seq<Event>, calls: seq<Call>, s: Streamed)
    requires AllAnnouncements(events) && WellFormed(thread, s)
    requires SingleSubmissions(calls) && SingleSubmissions(s.calls)
    ensures WellFormed(thread, Then(events, calls, s)) && SingleSubmissions(Then(events, calls, s).calls)
  {
    var r := Then(events, calls, s);
    if s.ended && s.events != [] && s.events[|s.events| - 1].Complete? {
      assert r.events[..|r.events| - 1] == events + s.events[..|s.events| - 1];
    }
  }

  /** The polling loop yields only function-call events until one complete
      event ends it (or no assistant message does), and every submission
      carries exactly one output. */
  lemma {:induction false} PollingShape(thread: Option<Id>, runId: Id, pending: Option<seq<ToolOutput>>, script: Script)
    requires PendingOk(pending)
    decreases |script|
    ensures var r := Polling(thread, runId, pending, script);
      WellFormed(thread, r) && SingleSubmissions(r.calls)
  {
    var retrieved := [RetrieveRun(thread, runId)];
    match AsRun(NextReply(script))
    case Hung =>
    case Threw(e) =>
    case Returned(run) =>
      var rest := script[1..];
      if run.status == RequiresAction {
        ActShape(thread, runId, run, pending, rest);
        match Act(thread, runId, run, pending, rest)
        case Ended(s) =>
          ThenWellFormed(thread, [], retrieved, s);
        case Again(events, calls, next, after) =>
          PollingShape(thread, runId, next, after);
          assert SingleSubmissions(retrieved + calls);
          ThenWellFormed(thread, events, retrieved + calls, Polling(thread, runId, next, after));
      } else if run.status == Completed {
        CompletionShape(thread, run, rest);
        ThenWellFormed(thread, [], retrieved, Completion(thread, run, rest));
      } else if !IsFailure(run.status) {
        PollingShape(thread, runId, pending, rest);
        ThenWellFormed(thread, [], retrieved, Polling(thread, runId, pending, rest));
      }
  }

  /** An error event: complete, with "Error: " text, zero usage and no files. */
  predicate IsErrorEvent(ev: Event) {
    ev.Complete? && StartsWith(ev.text, "Error: ") && ev.usage == NoUsage && ev.files.None?
  }

  /** A stream whose last event is complete but carries no files was closed
      by an error event (the answer always carries its file list). */
  predicate ErrorsClose(s: Streamed) {
    s.events != [] && s.events[|s.events| - 1].Complete? && s.events[|s.events| - 1].files.None?
    ==> IsErrorEvent(s.events[|s.events| - 1])
  }

  lemma ThenErrorsClose(events: seq<Event>, calls: seq<Call>, s: Streamed)
    requires events == [] || !events[|events| - 1].Complete?
    requires ErrorsClose(s)
    ensures ErrorsClose(Then(events, calls, s))
  {
    var r := Then(events, calls, s);
    if s.events != [] {
      assert r.events[|r.events| - 1] == s.events[|s.events| - 1];
    } else if events != [] {
      assert r.events[|r.events| - 1] == events[|events| - 1];
    }
  }

  lemma SubmissionErrors(thread: Option<Id>, runId: Id, h: Handling)
    requires AllAnnouncements(h.events)
    ensures match Submission(thread, runId, h)
      case Ended(s) => ErrorsClose(s)
      case Again(events, _, _, _) => AllAnnouncements(events)
  {
    if h.hung && h.events != [] {
      assert h.events[|h.events| - 1].FunctionCall?;
    }
  }

  lemma ActErrors(thread: Option<Id>, runId: Id, run: Run, pending: Option<seq<ToolOutput>>, script: Script)
    ensures match Act(thread, runId, run, pending, script)
      case Ended(s) => ErrorsClose(s)
      case Again(events, _, _, _) => AllAnnouncements(events)
  {
    if run.requiredAction.Some? && run.requiredAction.value.submitToolOutputs.Some?
       && run.requiredAction.value.submitToolOutputs.value.toolCalls.Some? {
      var tools := run.requiredAction.value.submitToolOutputs.value.toolCalls.value;
      HandleToolsAnnounces(tools, pending, script);
      SubmissionErrors(thread, runId, HandleTools(tools, pending, script));
    }
  }

  lemma CompletionErrors(thread: Option<Id>, run: Run, script: Script)
    ensures ErrorsClose(Completion(thread, run, script))
  {
  }

  /** How the polling loop raises: a retrieve that raises, or a run that
      failed, was cancelled or expired, ends the stream at once with one
      error event naming the exception or the status; and wherever the
      stream is closed by a complete event without files, that event is an
      error event ("Error: " text, zero usage). By `PollingShape`, no event
      follows it. */
  lemma {:induction false} PollingErrors(thread: Option<Id>, runId: Id, pending: Option<seq<ToolOutput>>, script: Script)
    decreases |script|
    ensures var r := Polling(thread, runId, pending, script);
      && (script != [] && script[0].Err? ==> r == Raised(script[0].error, [RetrieveRun(thread, runId)], script[1..]))
      && (script != [] && script[0].Ok? && script[0].value.RunObject? && IsFailure(script[0].value.run.status) ==>
            r == Streamed([ErrorEvent(Error("Run failed with status " + StatusName(script[0].value.run.status)))],
                          [RetrieveRun(thread, runId)], script[1..], true))
      && ErrorsClose(r)
  {
    var retrieved := [RetrieveRun(thread, runId)];
    match AsRun(NextReply(script))
    case Hung =>
    case Threw(e) =>
    case Returned(run) =>
      var rest := script[1..];
      if run.status == RequiresAction {
        ActErrors(thread, runId, run, pending, rest);
        match Act(thread, runId, run, pending, rest)
        case Ended(s) =>
          ThenErrorsClose([], retrieved, s);
        case Again(events, calls, next, after) =>
          PollingErrors(thread, runId, next, after);
          assert events == [] || events[|events| - 1].FunctionCall?;
          ThenErrorsClose(events, retrieved + calls, Polling(thread, runId, next, after));
      } else if run.status == Completed {
        CompletionErrors(thread, run, rest);
        ThenErrorsClose([], retrieved, Completion(thread, run, rest));
      } else if !IsFailure(run.status) {
        PollingErrors(thread, runId, pending, rest);
        ThenErrorsClose([], retrieved, Polling(thread, runId, pending, rest));
      }
  }

  /** `stream_chat_response(content, thread_id, assistant_id)`: the thinking
      event, the user message posted, a run started, then the polling loop
      with `tool_outputs` unassigned. */
  function ChatStream(content: seq<ContentItem>, thread: Option<Id>, assistant: Option<Id>, script: Script): (r: Streamed)
    ensures r.events != [] && r.events[0] == Thinking(ThinkingText)
    ensures r.calls != [] && r.calls[0] == CreateMessage(thread, content)
    ensures |r.rest| <= |script|
  {
    Then([Thinking(ThinkingText)], [], Started(content, thread, assistant, script))
  }

  /** What follows the thinking event: post the message, start the run,
      poll it. */
  function Started(content: seq<ContentItem>, thread: Option<Id>, assistant: Option<Id>, script: Script): (r: Streamed)
    ensures r.calls != [] && r.calls[0] == CreateMessage(thread, content)
    ensures |r.rest| <= |script|
  {
    var created := [CreateMessage(thread, content)];
    match AsDone(NextReply(script))
    case Hung => Stalled(created, AfterCall(script))
    case Threw(e) => Raised(e, created, AfterCall(script))
    case Returned(_) =>
      var rest := AfterCall(script);
      var started := created + [CreateRun(thread, assistant)];
      match AsRun(NextReply(rest))
      case Hung => Stalled(started, AfterCall(rest))
      case Threw(e) => Raised(e, started, AfterCall(rest))
      case Returned(run) => Then([], started, Polling(thread, run.id, None, AfterCall(rest)))
  }

  /** The whole stream: one thinking event first and never again, then
      function-call events only, closed by one complete event (unless the
      completed run has no assistant message); every submission carries
      exactly one output. */
  lemma ChatStreamShape(content: seq<ContentItem>, thread: Option<Id>, assistant: Option<Id>, script: Script)
    ensures var r := ChatStream(content, thread, assistant, script);
      WellFormed(thread, Streamed(r.events[1..], r.calls, r.rest, r.ended)) && SingleSubmissions(r.calls)
  {
    var s := Started(content, thread, assistant, script);
    StartedShape(content, thread, assistant, script);
    var r := ChatStream(content, thread, assistant, script);
    assert r.events[1..] == s.events;
    assert Streamed(r.events[1..], r.calls, r.rest, r.ended) == s;
  }

  lemma StartedShape(content: seq<ContentItem>, thread: Option<Id>, assistant: Option<Id>, script: Script)
    ensures var s := Started(content, thread, assistant, script);
      WellFormed(thread, s) && SingleSubmissions(s.calls)
  {
    var created := [CreateMessage(thread, content)];
    if AsDone(NextReply(script)).Returned? {
      var rest := AfterCall(script);
      var started := created + [CreateRun(thread, assistant)];
      if AsRun(NextReply(rest)).Returned? {
        var run := AsRun(NextReply(rest)).value;
        PollingShape(thread, run.id, None, AfterCall(rest));
        ThenWellFormed(thread, [], started, Polling(thread, run.id, None, AfterCall(rest)));
      }
    }
  }

  /** The whole stream is closed, when by a complete event without files,
      by an error event. */
  lemma ChatStreamErrors(content: seq<ContentItem>, thread: Option<Id>, assistant: Option<Id>, script: Script)
    ensures ErrorsClose(ChatStream(content, thread, assistant, script))
  {
    var s := Started(content, thread, assistant, script);
    if AsDone(NextReply(script)).Returned? {
      var rest := AfterCall(script);
      var started := [CreateMessage(thread, content), CreateRun(thread, assistant)];
      if AsRun(NextReply(rest)).Returned? {
        var run := AsRun(NextReply(rest)).value;
        PollingErrors(thread, run.id, None, AfterCall(rest));
        ThenErrorsClose([], started, Polling(thread, run.id, None, AfterCall(rest)));
      }
    }
    ThenErrorsClose([Thinking(ThinkingText)], [], s);
  }

  /** Two financial-service calls in one pass: both are asked and
      announced, but only the second one's output is left to submit. */
  lemma OnlyLastOutputSubmitted()
    ensures var tools := [ToolCall("call_1", "function", Runs.DxaTool, Question("q1")),
                          ToolCall("call_2", "function", Runs.DxaTool, Question("q2"))];
      var script: Script := [Ok(Http(HttpResponse(200, Content("a1")))), Ok(Http(HttpResponse(200, Content("a2"))))];
      var h := HandleTools(tools, None, script);
      h.calls == [AskFactory("q1"), AskFactory("q2")] && !h.hung
      && h.pending == Some([ToolOutput("call_2", "a2")])
  {
    var tools := [ToolCall("call_1", "function", Runs.DxaTool, Question("q1")),
                  ToolCall("call_2", "function", Runs.DxaTool, Question("q2"))];
    var script: Script := [Ok(Http(HttpResponse(200, Content("a1")))), Ok(Http(HttpResponse(200, Content("a2"))))];
    assert tools[1..][1..] == [];
    assert script[1..][1..] == [];
    assert Factory.Answer(HttpResponse(200, Content("a1"))) == Returned("a1");
    assert Runs.OutputFor(tools[0], ChatApology, script) == Exchange(Returned(Some(ToolOutput("call_1", "a1"))), [AskFactory("q1")], script[1..]);
    assert Factory.Answer(HttpResponse(200, Content("a2"))) == Returned("a2");
    assert Runs.OutputFor(tools[1], ChatApology, script[1..]) == Exchange(Returned(Some(ToolOutput("call_2", "a2"))), [AskFactory("q2")], []);
    var last := HandleTools(tools[1..][1..], Some([ToolOutput("call_2", "a2")]), []);
    assert last == Handling([], Some([ToolOutput("call_2", "a2")]), [], [], false);
    var second := HandleTools(tools[1..], Some([ToolOutput("call_1", "a1")]), script[1..]);
    assert second == Preceded([FunctionCall(Runs.DxaTool)], [AskFactory("q2")], last);
  }

  // --------------------------------------------------------------- methods

  /** The `for tool_call in tool_calls` loop. */
  method HandleToolCalls(tools: seq<ToolCall>, pending: Option<seq<ToolOutput>>, script: Script) returns (h: Handling)
    ensures h == HandleTools(tools, pending, script)
  {
    var events: seq<Event> := [];
    var calls: seq<Call> := [];
    var outputs := pending;
    var rest := script;
    assert tools[0..] == tools;
    assert Preceded([], [], HandleTools(tools, pending, script)) == HandleTools(tools, pending, script);
    for i := 0 to |tools|
      invariant HandleTools(tools, pending, script) == Preceded(events, calls, HandleTools(tools[i..], outputs, rest))
    {
      assert tools[i..][0] == tools[i] && tools[i..][1..] == tools[i + 1..];
      if tools[i].kind == "function" {
        var announced := [FunctionCall(tools[i].name)];
        var o := Runs.OutputFor(tools[i], ChatApology, rest);
        if o.outcome.Hung? {
          return Handling(events + announced, outputs, calls + o.calls, o.rest, true);
        }
        PrecededTwice(events, calls, announced, o.calls, HandleTools(tools[i + 1..], Some(Runs.Contribution(o.outcome.value)), o.rest));
        events, calls, outputs, rest := events + announced, calls + o.calls, Some(Runs.Contribution(o.outcome.value)), o.rest;
      }
    }
    assert tools[|tools|..] == [];
    assert events + [] == events && calls + [] == calls;
    h := Handling(events, outputs, calls, rest, false);
  }

  /** The `for annotation in content_item.text.annotations` loop. */
  method AnnotatedFileIds(annotations: seq<Annotation>) returns (named: seq<Id>)
    ensures named == AnnotatedFiles(annotations)
  {
    named := [];
    for j := 0 to |annotations|
      invariant named == AnnotatedFiles(annotations[..j])
    {
      assert annotations[..j + 1] == annotations[..j] + [annotations[j]];
      AnnotatedFilesAppend(annotations[..j], annotations[j]);
      if annotations[j].FilePathAnnotation? {
        named := named + [annotations[j].fileId];
      }
    }
    assert annotations[..|annotations|] == annotations;
  }

  /** The `for content_item in assistant_message.content` loop, with its
      inner loop over a text block's annotations. */
  method CollectContent(content: seq<MessageContent>) returns (text: string, fileIds: seq<Id>)
    ensures text == TextOf(content) && fileIds == FileIdsOf(content)
  {
    text, fileIds := "", [];
    for i := 0 to |content|
      invariant text == TextOf(content[..i]) && fileIds == FileIdsOf(content[..i])
    {
      assert content[..i + 1] == content[..i] + [content[i]];
      TextOfAppend(content[..i], content[i]);
      FileIdsOfAppend(content[..i], content[i]);
      match content[i] {
        case TextBlock(value, annotations) =>
          text := text + value;
          var named := AnnotatedFileIds(annotations);
          fileIds := fileIds + named;
        case ImageFileBlock(id) =>
          fileIds := fileIds + [id];
        case ImageUrlBlock(_) =>
      }
    }
    assert content[..|content|] == content;
  }

  /** The `for file_id in file_ids_to_download` loop. */
  method DownloadFiles(fileIds: seq<Id>, script: Script) returns (e: Exchange<seq<FileInfo>>)
    ensures e == Downloads(fileIds, script)
  {
    var files: seq<FileInfo> := [];
    var calls: seq<Call> := [];
    var rest := script;
    assert fileIds[0..] == fileIds;
    GatheredNothing(Downloads(fileIds, script));
    for i := 0 to |fileIds|
      invariant Downloads(fileIds, script) == Gathered(files, calls, Downloads(fileIds[i..], rest))
    {
      assert fileIds[i..][0] == fileIds[i] && fileIds[i..][1..] == fileIds[i + 1..];
      var d := Download(fileIds[i], rest);
      if d.outcome.Hung? {
        return Exchange(Hung, calls + d.calls, d.rest);
      }
      GatheredTwice(files, calls, d.outcome.value, d.calls, Downloads(fileIds[i + 1..], d.rest));
      files, calls, rest := files + d.outcome.value, calls + d.calls, d.rest;
    }
    assert fileIds[|fileIds|..] == [];
    assert files + [] == files && calls + [] == calls;
    e := Exchange(Returned(files), calls, rest);
  }

  /** The `requires_action` branch as written. */
  method RespondToAction(thread: Option<Id>, runId: Id, run: Run, pending: Option<seq<ToolOutput>>, script: Script) returns (c: Cycle)
    ensures c == Act(thread, runId, run, pending, script)
  {
    if run.requiredAction.None? {
      return Ended(Raised(NoRequiredAction, [], script));
    }
    var action := run.requiredAction.value;
    if action.submitToolOutputs.None? {
      return Ended(Raised(NoSubmitToolOutputs, [], script));
    }
    if action.submitToolOutputs.value.toolCalls.None? {
      return Ended(Raised(NoToolCalls, [], script));
    }
    var h := HandleToolCalls(action.submitToolOutputs.value.toolCalls.value, pending, script);
    c := SubmitPending(thread, runId, h);
  }

  /** `if tool_outputs:` and the submission, as written. */
  method SubmitPending(thread: Option<Id>, runId: Id, h: Handling) returns (c: Cycle)
    ensures c == Submission(thread, runId, h)
  {
    if h.hung {
      return Ended(Streamed(h.events, h.calls, h.rest, false));
    }
    if h.pending.None? {
      return Ended(Streamed(h.events + [ErrorEvent(UnboundOutputs)], h.calls, h.rest, true));
    }
    var outputs := h.pending.value;
    if outputs == [] {
      return Again(h.events, h.calls, h.pending, h.rest);
    }
    var submitted := h.calls + [SubmitOutputs(thread, runId, outputs)];
    match AsDone(NextReply(h.rest)) {
      case Hung => c := Ended(Streamed(h.events, submitted, AfterCall(h.rest), false));
      case Threw(e) => c := Ended(Streamed(h.events + [ErrorEvent(e)], submitted, AfterCall(h.rest), true));
      case Returned(_) => c := Again(h.events, submitted, h.pending, AfterCall(h.rest));
    }
  }

  /** The `completed` branch as written. */
  method CompleteRun(thread: Option<Id>, run: Run, script: Script) returns (s: Streamed)
    ensures s == Completion(thread, run, script)
  {
    var listed := [ListMessages(thread)];
    var messages;
    match AsMessages(NextReply(script)) {
      case Hung => return Stalled(listed, AfterCall(script));
      case Threw(e) => return Raised(e, listed, AfterCall(script));
      case Returned(ms) => messages := ms;
    }
    var found := FirstAssistant(messages);
    if found.None? {
      return Streamed([], listed, AfterCall(script), true);
    }
    var text, fileIds := CollectContent(found.value.content);
    var d := DownloadFiles(fileIds, AfterCall(script));
    if d.outcome.Hung? {
      return Stalled(listed + d.calls, d.rest);
    }
    match run.usage {
      case None => s := Raised(NoUsageReported, listed + d.calls, d.rest);
      case Some(u) => s := Streamed([Complete(text, u, Some(d.outcome.value))], listed + d.calls, d.rest, true);
    }
  }

  lemma ThenTwice(e1: seq<Event>, c1: seq<Call>, e2: seq<Event>, c2: seq<Call>, s: Streamed)
    ensures Then(e1, c1, Then(e2, c2, s)) == Then(e1 + e2, c1 + c2, s)
  {
    assert e1 + (e2 + s.events) == e1 + e2 + s.events;
    assert c1 + (c2 + s.calls) == c1 + c2 + s.calls;
  }

  lemma ThenNothing(s: Streamed)
    ensures Then([], [], s) == s
  {
    assert [] + s.events == s.events && [] + s.calls == s.calls;
  }

  /** One pass of the `while True` loop: retrieve the run and act on it. */
  method StreamCycle(thread: Option<Id>, runId: Id, pending: Option<seq<ToolOutput>>, script: Script) returns (c: Cycle)
    ensures c.Ended? ==> c.stream == Polling(thread, runId, pending, script)
    ensures c.Again? ==>
      |c.rest| < |script| && Polling(thread, runId, pending, script) == Then(c.events, c.calls, Polling(thread, runId, c.pending, c.rest))
  {
    var retrieved := [RetrieveRun(thread, runId)];
    var run;
    match AsRun(NextReply(script)) {
      case Hung => return Ended(Stalled(retrieved, AfterCall(script)));
      case Threw(e) => return Ended(Raised(e, retrieved, AfterCall(script)));
      case Returned(r) => run := r;
    }
    var rest := script[1..];
    if run.status == RequiresAction {
      var acted := RespondToAction(thread, runId, run, pending, rest);
      match acted {
        case Ended(s) => c := Ended(Then([], retrieved, s));
        case Again(events, calls, next, after) => c := Again(events, retrieved + calls, next, after);
      }
    } else if run.status == Completed {
      var s := CompleteRun(thread, run, rest);
      c := Ended(Then([], retrieved, s));
    } else if IsFailure(run.status) {
      c := Ended(Raised(Error("Run failed with status " + StatusName(run.status)), retrieved, rest));
    } else {
      c := Again([], retrieved, pending, rest);
    }
  }

  /** The `while True` loop as written, from a given `tool_outputs`. */
  method PollStream(thread: Option<Id>, runId: Id, pending: Option<seq<ToolOutput>>, script: Script) returns (s: Streamed)
    ensures s == Polling(thread, runId, pending, script)
  {
    var events: seq<Event> := [];
    var calls: seq<Call> := [];
    var outputs := pending;
    var rest := script;
    ThenNothing(Polling(thread, runId, pending, script));
    while true
      invariant Polling(thread, runId, pending, script) == Then(events, calls, Polling(thread, runId, outputs, rest))
      decreases |rest|
    {
      var cycle := StreamCycle(thread, runId, outputs, rest);
      match cycle {
        case Ended(tail) =>
          return Then(events, calls, tail);
        case Again(more, made, next, after) =>
          ThenTwice(events, calls, more, made, Polling(thread, runId, next, after));
          events, calls, outputs, rest := events + more, calls + made, next, after;
      }
    }
  }

  /** The message posted, the run started and polled, as written. */
  method StartStream(content: seq<ContentItem>, thread: Option<Id>, assistant: Option<Id>, script: Script) returns (s: Streamed)
    ensures s == Started(content, thread, assistant, script)
  {
    var created := [CreateMessage(thread, content)];
    match AsDone(NextReply(script)) {
      case Hung => return Stalled(created, AfterCall(script));
      case Threw(e) => return Raised(e, created, AfterCall(script));
      case Returned(_) =>
    }
    var rest := AfterCall(script);
    var started := created + [CreateRun(thread, assistant)];
    var run;
    match AsRun(NextReply(rest)) {
      case Hung => return Stalled(started, AfterCall(rest));
      case Threw(e) => return Raised(e, started, AfterCall(rest));
      case Returned(r) => run := r;
    }
    var polled := PollStream(thread, run.id, None, AfterCall(rest));
    s := Then([], started, polled);
  }

  /** `stream_chat_response` as written: the events it yields, in order. */
  method StreamChatResponse(content: seq<ContentItem>, thread: Option<Id>, assistant: Option<Id>, script: Script) returns (s: Streamed)
    ensures s == ChatStream(content, thread, assistant, script)
  {
    var started := StartStream(content, thread, assistant, script);
    s := Then([Thinking(ThinkingText)], [], started);
  }
}
