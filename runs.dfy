/** The run state machine of backend/services/openai.py: `poll_run`, which
    re-reads a run until it settles, and `generate_message`, which answers
    the run's function tool calls with the financial service and submits
    the answers, cancelling the run when there is nothing to submit or
    something fails.

    The polling loops never end on their own; here they are driven by the
    script and stop when it runs out (`Hung`), so each specification
    function decreases on the replies left. Each loop is also written as a
    method with a `while` loop, proved equal to its specification. */
module Runs {
  import opened Common
  import opened Remote
  import Factory

  const DxaTool := "call_dxa_factory"
  const NoAnswerApology := "申し訳ありません。該当する決算情報が見つかりませんでした。"
  const ToolErrorText := "決算情報の処理中にエラーが発生しました。"

  /** The statuses at which `poll_run` hands the run back. */
  predicate Settled(s: RunStatus) {
    s == Completed || s == RequiresAction
  }

  /** A reply at which `poll_run` sleeps and polls again. */
  predicate Pending(reply: Reply) {
    reply.Ok? && reply.value.RunObject? && !Settled(reply.value.run.status) && !IsFailure(reply.value.run.status)
  }

  /** The first `n` replies all exist and are pending. */
  predicate PendingFirst(script: Script, n: nat)
    decreases n
  {
    n == 0 || (script != [] && Pending(script[0]) && PendingFirst(script[1..], n - 1))
  }

  /** The exception `poll_run` raises for a failed run. */
  function RunFailure(s: RunStatus): Error {
    Error("Run failed with status: " + StatusName(s))
  }

  /** A reply that makes `poll_run` raise `e`: the retrieve itself raised
      `e`, or the run failed and `e` names its status. */
  predicate RaisesAt(reply: Reply, e: Error) {
    reply == Err(e)
    || (reply.Ok? && reply.value.RunObject? && IsFailure(reply.value.run.status)
        && e == RunFailure(reply.value.run.status))
  }

  /** `e` is what one of the replies of `script` raises. */
  predicate RaisedBy(script: Script, e: Error) {
    exists k :: 0 <= k < |script| && RaisesAt(script[k], e)
  }

  lemma RaisedBySuffix(rest: Script, script: Script, e: Error)
    requires Suffix(rest, script) && RaisedBy(rest, e)
    ensures RaisedBy(script, e)
  {
    var k :| 0 <= k < |rest| && RaisesAt(rest[k], e);
    assert script[|script| - |rest| + k] == rest[k];
  }

  /** `poll_run(run_id, thread_id)`: retrieve until the status settles or
      fails. Every retrieve before the last one saw a pending status; the
      last one decides: a settled run is returned, a failed one or a raising
      retrieve raises. */
  function Poll(thread: Option<Id>, runId: Id, script: Script): (r: Exchange<Run>)
    decreases |script|
    ensures |r.rest| <= |script|
    ensures r.calls != [] && forall c :: c in r.calls ==> c == RetrieveRun(thread, runId)
    ensures r.calls[|r.calls| - 1] == RetrieveRun(thread, runId)
    ensures PendingFirst(script, |r.calls| - 1)
    ensures !r.outcome.Hung? ==> |r.calls| <= |script| && r.rest == script[|r.calls|..]
    ensures r.outcome.Returned? ==>
      Settled(r.outcome.value.status) && script[|r.calls| - 1] == Ok(RunObject(r.outcome.value))
    ensures r.outcome.Threw? ==> RaisesAt(script[|r.calls| - 1], r.outcome.error)
  {
    var call := RetrieveRun(thread, runId);
    match AsRun(NextReply(script))
    case Hung => Exchange(Hung, [call], AfterCall(script))
    case Threw(e) => Exchange(Threw(e), [call], script[1..])
    case Returned(run) =>
      if Settled(run.status) then Exchange(Returned(run), [call], script[1..])
      else if IsFailure(run.status) then Exchange(Threw(RunFailure(run.status)), [call], script[1..])
      else
        var next := Poll(thread, runId, script[1..]);
        After([call], next)
  }

  /** One retrieve of `poll_run`, by the reply it gets. */
  lemma PollUnfold(thread: Option<Id>, runId: Id, script: Script)
    ensures var call := RetrieveRun(thread, runId);
      var p := Poll(thread, runId, script);
      match AsRun(NextReply(script))
      case Hung => p == Exchange(Hung, [call], AfterCall(script))
      case Threw(e) => p == Exchange(Threw(e), [call], AfterCall(script))
      case Returned(run) =>
        if Settled(run.status) then p == Exchange(Returned(run), [call], AfterCall(script))
        else if IsFailure(run.status) then p == Exchange(Threw(RunFailure(run.status)), [call], AfterCall(script))
        else p == After([call], Poll(thread, runId, AfterCall(script)))
  {
  }

  /** `poll_run` as written: a `while True` loop. */
  method PollRun(thread: Option<Id>, runId: Id, script: Script) returns (outcome: Outcome<Run>, calls: seq<Call>, rest: Script)
    ensures Exchange(outcome, calls, rest) == Poll(thread, runId, script)
  {
    calls, rest := [], script;
    while true
      invariant Poll(thread, runId, script) == After(calls, Poll(thread, runId, rest))
      decreases |rest|
    {
      var reply := NextReply(rest);
      PollUnfold(thread, runId, rest);
      AfterTwice(calls, [RetrieveRun(thread, runId)], Poll(thread, runId, AfterCall(rest)));
      calls, rest := calls + [RetrieveRun(thread, runId)], AfterCall(rest);
      match AsRun(reply) {
        case Hung => return Hung, calls, rest;
        case Threw(e) => return Threw(e), calls, rest;
        case Returned(run) =>
          if Settled(run.status) {
            return Returned(run), calls, rest;
          }
          if IsFailure(run.status) {
            return Threw(RunFailure(run.status)), calls, rest;
          }
      }
    }
  }

  /** A function tool call for the financial service. */
  predicate IsDxaCall(t: ToolCall) {
    t.kind == "function" && t.name == DxaTool
  }

  /** The calls that get an output, in order. */
  function DxaCalls(tools: seq<ToolCall>): (r: seq<ToolCall>)
    ensures |r| <= |tools|
    ensures forall t :: t in r ==> t in tools && IsDxaCall(t)
  {
    if tools == [] then []
    else if IsDxaCall(tools[0]) then [tools[0]] + DxaCalls(tools[1..])
    else DxaCalls(tools[1..])
  }

  /** The output for one tool call: none unless it is a financial-service
      call; otherwise the service's answer, the apology when the answer is
      empty, or the error text when the arguments cannot be read or the
      request raises. Nothing raises out of it. The apology is a parameter
      because the chat stream uses a shorter one than `generate_message`. */
  function OutputFor(tool: ToolCall, apology: string, script: Script): (r: Exchange<Option<ToolOutput>>)
    requires apology != ""
    ensures |r.rest| <= |script|
    ensures !r.outcome.Threw?
    ensures r.outcome.Hung? ==> r.calls != []
    ensures r.outcome.Returned? ==> (r.outcome.value.Some? <==> IsDxaCall(tool))
    ensures r.outcome.Returned? && r.outcome.value.Some? ==>
      r.outcome.value.value.toolCallId == tool.id && r.outcome.value.value.output != ""
    ensures !IsDxaCall(tool) ==> r == Exchange(Returned(None), [], script)
    ensures IsDxaCall(tool) && tool.arguments.Unparseable? ==>
      r == Exchange(Returned(Some(ToolOutput(tool.id, ToolErrorText))), [], script)
    ensures IsDxaCall(tool) && tool.arguments.Question? ==> r.calls == [AskFactory(tool.arguments.question)]
    ensures IsDxaCall(tool) && tool.arguments.Question? && script != [] && script[0].Err? ==>
      r.outcome == Returned(Some(ToolOutput(tool.id, ToolErrorText)))
    ensures IsDxaCall(tool) && tool.arguments.Question? && script != [] && script[0].Ok? && script[0].value.Http? ==>
      var a := Factory.Answer(script[0].value.response);
      && (a.Returned? ==> r.outcome == Returned(Some(ToolOutput(tool.id, if a.value == "" then apology else a.value))))
      && (a.Threw? ==> r.outcome == Returned(Some(ToolOutput(tool.id, ToolErrorText))))
    ensures Suffix(r.rest, script)
  {
    if !IsDxaCall(tool) then Exchange(Returned(None), [], script)
    else
      match tool.arguments
      case Unparseable => Exchange(Returned(Some(ToolOutput(tool.id, ToolErrorText))), [], script)
      case Question(q) =>
        var asked := Factory.Ask(q, script);
        match asked.outcome
        case Hung => Exchange(Hung, asked.calls, asked.rest)
        case Threw(_) => Exchange(Returned(Some(ToolOutput(tool.id, ToolErrorText))), asked.calls, asked.rest)
        case Returned(answer) =>
          var output := if answer == "" then apology else answer;
          Exchange(Returned(Some(ToolOutput(tool.id, output))), asked.calls, asked.rest)
  }

  /** The output a handled tool call contributes to the list. */
  function Contribution(o: Option<ToolOutput>): seq<ToolOutput> {
    if o.Some? then [o.value] else []
  }

  /** The `tool_outputs` list of one `requires_action` cycle: exactly one
      non-empty output per financial-service call, in call order, carrying
      that call's id. The only remote calls are requests to the service. */
  function ToolOutputs(tools: seq<ToolCall>, script: Script): (r: Exchange<seq<ToolOutput>>)
    ensures Suffix(r.rest, script)
    ensures !r.outcome.Threw?
    ensures r.outcome.Hung? ==> r.calls != []
    ensures forall c :: c in r.calls ==> c.AskFactory?
  {
    if tools == [] then Exchange(Returned([]), [], script)
    else
      var head := OutputFor(tools[0], NoAnswerApology, script);
      if head.outcome.Hung? then Exchange(Hung, head.calls, head.rest)
      else Gathered(Contribution(head.outcome.value), head.calls, ToolOutputs(tools[1..], head.rest))
  }

  /** The replies left once the first `n` of `calls` were answered one
      after the other, starting from `script`. */
  function LeftAfter(calls: seq<ToolCall>, script: Script, n: nat): Script
    requires n <= |calls|
    decreases n
  {
    if n == 0 then script
    else LeftAfter(calls[1..], OutputFor(calls[0], NoAnswerApology, script).rest, n - 1)
  }

  /** `outs` holds one output per call of `dxa`, in order: the i-th carries
      that call's id, is not empty, and is what that call gets from the
      replies the earlier calls left. */
  predicate OutputsMatch(dxa: seq<ToolCall>, script: Script, outs: seq<ToolOutput>) {
    |outs| == |dxa|
    && forall i :: 0 <= i < |outs| ==>
         && outs[i].toolCallId == dxa[i].id && outs[i].output != ""
         && OutputFor(dxa[i], NoAnswerApology, LeftAfter(dxa, script, i)).outcome == Returned(Some(outs[i]))
  }

  /** The outputs of a cycle are exactly one non-empty output per
      financial-service call, in call order, carrying that call's id; the
      i-th is the output that call gets from the replies the earlier calls
      left. */
  lemma {:induction false} ToolOutputsMatchDxaCalls(tools: seq<ToolCall>, script: Script)
    ensures var r := ToolOutputs(tools, script);
      r.outcome.Returned? ==> OutputsMatch(DxaCalls(tools), script, r.outcome.value)
  {
    if tools != [] {
      var head := OutputFor(tools[0], NoAnswerApology, script);
      if !head.outcome.Hung? {
        ToolOutputsMatchDxaCalls(tools[1..], head.rest);
        var tail := ToolOutputs(tools[1..], head.rest);
        if tail.outcome.Returned? {
          assert ToolOutputs(tools, script).outcome.value == Contribution(head.outcome.value) + tail.outcome.value;
          if IsDxaCall(tools[0]) {
            assert DxaCalls(tools) == [tools[0]] + DxaCalls(tools[1..]);
            OutputsMatchCons(tools[0], DxaCalls(tools[1..]), script, tail.outcome.value);
          } else {
            assert DxaCalls(tools) == DxaCalls(tools[1..]);
            assert Contribution(head.outcome.value) + tail.outcome.value == tail.outcome.value;
          }
        }
      }
    }
  }

  /** A financial-service call answered first puts its output in front. */
  lemma OutputsMatchCons(t: ToolCall, dxa: seq<ToolCall>, script: Script, outs: seq<ToolOutput>)
    requires IsDxaCall(t)
    requires OutputFor(t, NoAnswerApology, script).outcome.Returned?
    requires OutputsMatch(dxa, OutputFor(t, NoAnswerApology, script).rest, outs)
    ensures OutputsMatch([t] + dxa, script, [OutputFor(t, NoAnswerApology, script).outcome.value.value] + outs)
  {
    var head := OutputFor(t, NoAnswerApology, script);
    var all := [t] + dxa;
    var outs' := [head.outcome.value.value] + outs;
    assert all[1..] == dxa;
    assert LeftAfter(all, script, 0) == script;
    forall i | 0 <= i < |outs'|
      ensures OutputFor(all[i], NoAnswerApology, LeftAfter(all, script, i)).outcome == Returned(Some(outs'[i]))
    {
      if i > 0 {
        assert outs'[i] == outs[i - 1] && all[i] == dxa[i - 1];
        assert LeftAfter(all, script, i) == LeftAfter(dxa, head.rest, i - 1);
      }
    }
    forall i | 0 <= i < |outs'|
      ensures outs'[i].toolCallId == all[i].id && outs'[i].output != ""
    {
      if i > 0 {
        assert outs'[i] == outs[i - 1] && all[i] == dxa[i - 1];
      }
    }
  }

  /** The `for tool in ...` loop that fills `tool_outputs`. */
  method BuildToolOutputs(tools: seq<ToolCall>, script: Script) returns (outcome: Outcome<seq<ToolOutput>>, calls: seq<Call>, rest: Script)
    ensures Exchange(outcome, calls, rest) == ToolOutputs(tools, script)
  {
    var outputs: seq<ToolOutput> := [];
    calls, rest := [], script;
    assert tools[0..] == tools;
    GatheredNothing(ToolOutputs(tools, script));
    for i := 0 to |tools|
      invariant ToolOutputs(tools, script) == Gathered(outputs, calls, ToolOutputs(tools[i..], rest))
    {
      assert tools[i..][1..] == tools[i + 1..];
      var head := OutputFor(tools[i], NoAnswerApology, rest);
      if head.outcome.Hung? {
        return Hung, calls + head.calls, head.rest;
      }
      GatheredTwice(outputs, calls, Contribution(head.outcome.value), head.calls, ToolOutputs(tools[i + 1..], head.rest));
      outputs, calls, rest := outputs + Contribution(head.outcome.value), calls + head.calls, head.rest;
    }
    assert tools[|tools|..] == [];
    assert outputs + [] == outputs && calls + [] == calls;
    outcome := Returned(outputs);
  }

  /** The best-effort cancel of the outer `except` block: a failing cancel
      is swallowed and the original exception is raised again. */
  function CancelThenRaise(thread: Option<Id>, runId: Id, e: Error, script: Script): (r: Exchange<Run>)
    ensures |r.rest| <= |script|
    ensures r.calls == [CancelRun(thread, runId)]
    ensures script != [] && (script[0] == Ok(Done) || script[0].Err?) ==> r.outcome == Threw(e)
    ensures !r.outcome.Returned?
    ensures r.outcome.Threw? ==> r.outcome.error == e
    ensures Suffix(r.rest, script)
  {
    var outcome :=
      match AsDone(NextReply(script))
      case Hung => Hung
      case _ => Threw(e);
    Exchange(outcome, [CancelRun(thread, runId)], AfterCall(script))
  }

  /** Cancel the run and return it; a failing cancel raises into the outer
      `except` block, which cancels once more and re-raises. */
  function CancelThenReturn(thread: Option<Id>, runId: Id, run: Run, script: Script): (r: Exchange<Run>)
    ensures |r.rest| <= |script|
    ensures r.calls != [] && r.calls[0] == CancelRun(thread, runId) && r.calls[|r.calls| - 1] == CancelRun(thread, runId)
    ensures forall c :: c in r.calls ==> c == CancelRun(thread, runId)
    ensures r.outcome.Returned? ==> r.outcome.value == run
    ensures r.outcome.Threw? ==> script != [] && script[0] == Err(r.outcome.error)
    ensures Suffix(r.rest, script)
  {
    match AsDone(NextReply(script))
    case Hung => Exchange(Hung, [CancelRun(thread, runId)], AfterCall(script))
    case Returned(_) => Exchange(Returned(run), [CancelRun(thread, runId)], AfterCall(script))
    case Threw(e) => After([CancelRun(thread, runId)], CancelThenRaise(thread, runId, e, AfterCall(script)))
  }

  /** Submit the outputs in one call; when that raises, cancel the run (a
      failing cancel replaces the exception) and raise. */
  function Submit(thread: Option<Id>, runId: Id, outputs: seq<ToolOutput>, script: Script): (r: Exchange<()>)
    ensures |r.rest| <= |script|
    ensures r.calls != [] && r.calls[0] == SubmitOutputs(thread, runId, outputs)
    ensures forall c :: c in r.calls ==> c == SubmitOutputs(thread, runId, outputs) || c == CancelRun(thread, runId)
    ensures r.outcome.Threw? ==> r.calls[|r.calls| - 1] == CancelRun(thread, runId)
    ensures script != [] && script[0] == Ok(Done) ==> r == Exchange(Returned(()), [SubmitOutputs(thread, runId, outputs)], script[1..])
    ensures r.outcome.Returned? ==>
      r.calls == [SubmitOutputs(thread, runId, outputs)] && script != [] && script[0] == Ok(Done) && r.rest == script[1..]
    ensures |script| > 1 && script[0].Err? && script[1] == Ok(Done) ==>
      r == Exchange(Threw(script[0].error), [SubmitOutputs(thread, runId, outputs), CancelRun(thread, runId)], script[2..])
    ensures |script| > 1 && script[0].Err? && script[1].Err? ==> r.outcome == Threw(script[1].error)
    ensures r.outcome.Threw? ==> |script| > 1 && (script[0] == Err(r.outcome.error) || script[1] == Err(r.outcome.error))
    ensures Suffix(r.rest, script)
  {
    var submitted := [SubmitOutputs(thread, runId, outputs)];
    match AsDone(NextReply(script))
    case Hung => Exchange(Hung, submitted, AfterCall(script))
    case Returned(_) => Exchange(Returned(()), submitted, AfterCall(script))
    case Threw(e) =>
      var rest := AfterCall(script);
      var calls := submitted + [CancelRun(thread, runId)];
      match AsDone(NextReply(rest))
      case Hung => Exchange(Hung, calls, AfterCall(rest))
      case Returned(_) => Exchange(Threw(e), calls, AfterCall(rest))
      case Threw(e2) => Exchange(Threw(e2), calls, AfterCall(rest))
  }

  /** The calls `generate_message` may make on a run: retrieve, cancel, a
      submission of a non-empty batch of non-empty outputs, and requests to
      the financial service. */
  predicate RunCall(thread: Option<Id>, runId: Id, c: Call) {
    c == RetrieveRun(thread, runId) || c == CancelRun(thread, runId) || c.AskFactory?
    || (c.SubmitOutputs? && c.threadId == thread && c.runId == runId && c.outputs != []
        && forall i :: 0 <= i < |c.outputs| ==> c.outputs[i].output != "")
  }

  /** What answering a run that requires action leads to: `generate_message`
      ends with the exchange, or polls again after the calls made. */
  datatype Cycle = Finished(exchange: Exchange<Run>) | Continue(calls: seq<Call>, rest: Script)

  /** The tool calls of a run's required action, when there are some to read. */
  function ActionTools(run: Run): Option<seq<ToolCall>> {
    match run.requiredAction
    case None => None
    case Some(action) =>
      if action.submitToolOutputs.None? then None else action.submitToolOutputs.value.toolCalls
  }

  /** One `requires_action` cycle of `generate_message`. Without a required
      action it polls again; without tool calls to read, or with no output
      to submit, it cancels and returns the run; otherwise it submits all
      outputs in one call and polls again. */
  function Respond(thread: Option<Id>, runId: Id, run: Run, script: Script): (r: Cycle)
    ensures r.Continue? ==> |r.rest| <= |script|
    ensures r.Finished? ==> |r.exchange.rest| <= |script| && r.exchange.calls != []
    ensures r.Continue? && run.requiredAction.Some? ==>
      r.calls != [] && r.calls[|r.calls| - 1].SubmitOutputs?
    ensures run.requiredAction == None ==> r == Continue([], script)
  {
    match run.requiredAction
    case None => Continue([], script)
    case Some(action) =>
      if action.submitToolOutputs.None? || action.submitToolOutputs.value.toolCalls.None? then
        Finished(CancelThenReturn(thread, runId, run, script))
      else
        var t := ToolOutputs(action.submitToolOutputs.value.toolCalls.value, script);
        if t.outcome.Hung? then Finished(Exchange(Hung, t.calls, t.rest))
        else
          var outputs := t.outcome.value;
          if outputs == [] then Finished(After(t.calls, CancelThenReturn(thread, runId, run, t.rest)))
          else
            var s := Submit(thread, runId, outputs, t.rest);
            match s.outcome
            case Hung => Finished(Exchange(Hung, t.calls + s.calls, s.rest))
            case Threw(e) => Finished(After(t.calls + s.calls, CancelThenRaise(thread, runId, e, s.rest)))
            case Returned(_) => Continue(t.calls + s.calls, s.rest)
  }

  /** No output built for a run is empty. */
  lemma OutputsNotEmpty(tools: seq<ToolCall>, script: Script)
    ensures var r := ToolOutputs(tools, script);
      r.outcome.Returned? ==> forall i :: 0 <= i < |r.outcome.value| ==> r.outcome.value[i].output != ""
  {
    ToolOutputsMatchDxaCalls(tools, script);
  }

  /** A submission of non-empty outputs makes only run calls. */
  lemma SubmitRunCalls(thread: Option<Id>, runId: Id, outputs: seq<ToolOutput>, script: Script)
    requires outputs != [] && forall i :: 0 <= i < |outputs| ==> outputs[i].output != ""
    ensures forall c :: c in Submit(thread, runId, outputs, script).calls ==> RunCall(thread, runId, c)
  {
    assert RunCall(thread, runId, SubmitOutputs(thread, runId, outputs));
  }

  /** A cycle reads replies only from the front of the script. */
  lemma RespondSuffix(thread: Option<Id>, runId: Id, run: Run, script: Script)
    ensures match Respond(thread, runId, run, script)
      case Continue(_, rest) => Suffix(rest, script)
      case Finished(e) => Suffix(e.rest, script)
  {
    match run.requiredAction
    case None =>
    case Some(action) =>
      if !(action.submitToolOutputs.None? || action.submitToolOutputs.value.toolCalls.None?) {
        var t := ToolOutputs(action.submitToolOutputs.value.toolCalls.value, script);
        if !t.outcome.Hung? {
          if t.outcome.value == [] {
            SuffixTransitive(CancelThenReturn(thread, runId, run, t.rest).rest, t.rest, script);
          } else {
            var sub := Submit(thread, runId, t.outcome.value, t.rest);
            SuffixTransitive(sub.rest, t.rest, script);
            if sub.outcome.Threw? {
              SuffixTransitive(CancelThenRaise(thread, runId, sub.outcome.error, sub.rest).rest, sub.rest, script);
            }
          }
        }
      }
  }

  /** The calls of a cycle: requests to the financial service, one
      submission of non-empty outputs, and cancels. */
  lemma RespondCalls(thread: Option<Id>, runId: Id, run: Run, script: Script)
    ensures match Respond(thread, runId, run, script)
      case Continue(calls, _) => forall c :: c in calls ==> RunCall(thread, runId, c)
      case Finished(e) => forall c :: c in e.calls ==> RunCall(thread, runId, c)
  {
    match run.requiredAction
    case None =>
    case Some(action) =>
      if !(action.submitToolOutputs.None? || action.submitToolOutputs.value.toolCalls.None?) {
        var tools := action.submitToolOutputs.value.toolCalls.value;
        var t := ToolOutputs(tools, script);
        OutputsNotEmpty(tools, script);
        assert forall c :: c in t.calls ==> RunCall(thread, runId, c);
        if !t.outcome.Hung? {
          var outputs := t.outcome.value;
          if outputs == [] {
            AfterRunCalls(thread, runId, t.calls, CancelThenReturn(thread, runId, run, t.rest));
          } else {
            var s := Submit(thread, runId, outputs, t.rest);
            SubmitRunCalls(thread, runId, outputs, t.rest);
            AfterRunCalls(thread, runId, t.calls, s);
            if s.outcome.Threw? {
              AfterRunCalls(thread, runId, t.calls + s.calls, CancelThenRaise(thread, runId, s.outcome.error, s.rest));
            }
          }
        }
      }
  }

  /** A cycle that goes on made exactly one submission: the outputs built
      for the run's tool calls, non-empty, submitted in one call right after
      the financial-service requests, and accepted. */
  lemma RespondSubmits(thread: Option<Id>, runId: Id, run: Run, script: Script)
    ensures var r := Respond(thread, runId, run, script);
      r.Continue? && run.requiredAction.Some? ==>
        ActionTools(run).Some? &&
        var t := ToolOutputs(ActionTools(run).value, script);
        && t.outcome.Returned? && t.outcome.value != []
        && r.calls == t.calls + [SubmitOutputs(thread, runId, t.outcome.value)]
        && |t.rest| > 0 && t.rest[0] == Ok(Done) && r.rest == t.rest[1..]
  {
    if run.requiredAction.Some? {
      var action := run.requiredAction.value;
      if !(action.submitToolOutputs.None? || action.submitToolOutputs.value.toolCalls.None?) {
        var tools := action.submitToolOutputs.value.toolCalls.value;
        assert ActionTools(run) == Some(tools);
        var t := ToolOutputs(tools, script);
        if t.outcome.Returned? && t.outcome.value != [] {
          var sub := Submit(thread, runId, t.outcome.value, t.rest);
          if sub.outcome.Returned? {
            assert Respond(thread, runId, run, script) == Continue(t.calls + sub.calls, sub.rest);
          }
        }
      }
    }
  }

  /** The exception a cycle raises is one a reply raised: the submission's,
      or a cancel's. */
  lemma RespondRaisesFromScript(thread: Option<Id>, runId: Id, run: Run, script: Script)
    ensures var r := Respond(thread, runId, run, script);
      r.Finished? && r.exchange.outcome.Threw? ==> RaisedBy(script, r.exchange.outcome.error)
  {
    match run.requiredAction
    case None =>
    case Some(action) =>
      if action.submitToolOutputs.None? || action.submitToolOutputs.value.toolCalls.None? {
        var c := CancelThenReturn(thread, runId, run, script);
        if c.outcome.Threw? {
          assert RaisesAt(script[0], c.outcome.error);
        }
      } else {
        var t := ToolOutputs(action.submitToolOutputs.value.toolCalls.value, script);
        if !t.outcome.Hung? {
          if t.outcome.value == [] {
            var c := CancelThenReturn(thread, runId, run, t.rest);
            if c.outcome.Threw? {
              assert RaisesAt(t.rest[0], c.outcome.error);
              RaisedBySuffix(t.rest, script, c.outcome.error);
            }
          } else {
            var s := Submit(thread, runId, t.outcome.value, t.rest);
            if s.outcome.Threw? {
              var e := s.outcome.error;
              if t.rest[0] == Err(e) {
                assert RaisesAt(t.rest[0], e);
              } else {
                assert RaisesAt(t.rest[1], e);
              }
              RaisedBySuffix(t.rest, script, e);
            }
          }
        }
      }
  }

  /** A cycle that ends `generate_message` returns the run it was given,
      and unless the script ran out, its last call cancels the run. */
  lemma RespondOutcomes(thread: Option<Id>, runId: Id, run: Run, script: Script)
    ensures var r := Respond(thread, runId, run, script);
      r.Finished? ==>
        (r.exchange.outcome.Returned? ==> r.exchange.outcome.value == run)
        && (!r.exchange.outcome.Hung? ==> r.exchange.calls[|r.exchange.calls| - 1] == CancelRun(thread, runId))
  {
    match run.requiredAction
    case None =>
    case Some(action) =>
      if !(action.submitToolOutputs.None? || action.submitToolOutputs.value.toolCalls.None?) {
        var t := ToolOutputs(action.submitToolOutputs.value.toolCalls.value, script);
        if !t.outcome.Hung? {
          if t.outcome.value == [] {
            LastOfAfter(t.calls, CancelThenReturn(thread, runId, run, t.rest));
          } else {
            var s := Submit(thread, runId, t.outcome.value, t.rest);
            if s.outcome.Threw? {
              LastOfAfter(t.calls + s.calls, CancelThenRaise(thread, runId, s.outcome.error, s.rest));
            }
          }
        }
      }
  }

  /** `generate_message(run_id, thread_id)`: poll; a completed run is
      returned, a run requiring action is answered, and the loop goes round
      again when the answer was submitted. */
  function Generate(thread: Option<Id>, runId: Id, script: Script): (r: Exchange<Run>)
    decreases |script|
    ensures |r.rest| <= |script|
  {
    var p := Poll(thread, runId, script);
    match p.outcome
    case Hung => p
    case Threw(e) => After(p.calls, CancelThenRaise(thread, runId, e, p.rest))
    case Returned(run) =>
      if run.status == Completed then p
      else
        match Respond(thread, runId, run, p.rest)
        case Finished(e) => After(p.calls, e)
        case Continue(calls, rest) => After(p.calls + calls, Generate(thread, runId, rest))
  }

  /** One round of `generate_message` on a run that is not complete: a
      cycle that finishes ends it, and a cycle that goes on is followed by
      the rest of the loop on the replies left. */
  lemma GenerateRound(thread: Option<Id>, runId: Id, script: Script)
    ensures var p := Poll(thread, runId, script);
      p.outcome.Returned? && p.outcome.value.status != Completed ==>
        var cycle := Respond(thread, runId, p.outcome.value, p.rest);
        && (cycle.Finished? ==> Generate(thread, runId, script) == After(p.calls, cycle.exchange))
        && (cycle.Continue? ==>
              Generate(thread, runId, script) == After(p.calls + cycle.calls, Generate(thread, runId, cycle.rest)))
  {
  }

  /** `generate_message` makes only run calls, starting with a retrieve. */
  lemma {:induction false} GenerateCalls(thread: Option<Id>, runId: Id, script: Script)
    decreases |script|
    ensures var r := Generate(thread, runId, script);
      && r.calls != [] && r.calls[0] == RetrieveRun(thread, runId)
      && (forall c :: c in r.calls ==> RunCall(thread, runId, c))
  {
    var p := Poll(thread, runId, script);
    match p.outcome
    case Hung =>
    case Threw(e) =>
      AfterRunCalls(thread, runId, p.calls, CancelThenRaise(thread, runId, e, p.rest));
    case Returned(run) =>
      if run.status != Completed {
        RespondCalls(thread, runId, run, p.rest);
        match Respond(thread, runId, run, p.rest)
        case Finished(e) =>
          AfterRunCalls(thread, runId, p.calls, e);
        case Continue(calls, rest) =>
          GenerateCalls(thread, runId, rest);
          AfterRunCalls(thread, runId, p.calls + calls, Generate(thread, runId, rest));
      }
  }

  /** An exchange that returns a run returns a settled one: a completed
      run right after the retrieve that saw it, or a run that requires
      action right after cancelling it. */
  predicate ReturnsSettled(thread: Option<Id>, runId: Id, r: Exchange<Run>) {
    r.outcome.Returned? ==>
      r.calls != [] && Settled(r.outcome.value.status)
      && (r.outcome.value.status == Completed ==> r.calls[|r.calls| - 1] == RetrieveRun(thread, runId))
      && (r.outcome.value.status == RequiresAction ==> r.calls[|r.calls| - 1] == CancelRun(thread, runId))
  }

  lemma SettledAfter(thread: Option<Id>, runId: Id, earlier: seq<Call>, e: Exchange<Run>)
    requires ReturnsSettled(thread, runId, e)
    ensures ReturnsSettled(thread, runId, After(earlier, e))
  {
    if e.outcome.Returned? {
      LastOfAfter(earlier, e);
    }
  }

  /** A cycle that finishes by returning hands back the run it was given,
      after cancelling it. */
  lemma RespondReturnsSettled(thread: Option<Id>, runId: Id, run: Run, script: Script)
    requires run.status == RequiresAction
    ensures var r := Respond(thread, runId, run, script);
      r.Finished? ==> ReturnsSettled(thread, runId, r.exchange)
  {
    RespondOutcomes(thread, runId, run, script);
  }

  /** A cycle that finishes `generate_message` returns a run requiring
      action, right after cancelling it. */
  lemma FinishReturnsSettled(thread: Option<Id>, runId: Id, script: Script)
    ensures var p := Poll(thread, runId, script);
      p.outcome.Returned? && p.outcome.value.status != Completed
      && Respond(thread, runId, p.outcome.value, p.rest).Finished? ==>
        ReturnsSettled(thread, runId, Generate(thread, runId, script))
  {
    var p := Poll(thread, runId, script);
    if p.outcome.Returned? && p.outcome.value.status != Completed {
      var run := p.outcome.value;
      var cycle := Respond(thread, runId, run, p.rest);
      if cycle.Finished? {
        GenerateRound(thread, runId, script);
        RespondReturnsSettled(thread, runId, run, p.rest);
        SettledAfter(thread, runId, p.calls, cycle.exchange);
      }
    }
  }

  /** `generate_message` returns only a settled run (nothing to submit, or
      no tool calls to read, cancel the run and return it). */
  lemma {:induction false} GenerateReturns(thread: Option<Id>, runId: Id, script: Script)
    decreases |script|
    ensures ReturnsSettled(thread, runId, Generate(thread, runId, script))
  {
    var p := Poll(thread, runId, script);
    if p.outcome.Returned? && p.outcome.value.status != Completed {
      var cycle := Respond(thread, runId, p.outcome.value, p.rest);
      if cycle.Finished? {
        FinishReturnsSettled(thread, runId, script);
      } else {
        GenerateRound(thread, runId, script);
        GenerateReturns(thread, runId, cycle.rest);
        SettledAfter(thread, runId, p.calls + cycle.calls, Generate(thread, runId, cycle.rest));
      }
    }
  }

  /** An exchange that raises has cancelled the run last, and raises an
      exception that one of the replies of `script` raised. */
  predicate RaisesAfterCancel(thread: Option<Id>, runId: Id, script: Script, r: Exchange<Run>) {
    r.outcome.Threw? ==>
      r.calls != [] && r.calls[|r.calls| - 1] == CancelRun(thread, runId)
      && RaisedBy(script, r.outcome.error)
  }

  lemma RaisesAfterCancelAfter(thread: Option<Id>, runId: Id, earlier: seq<Call>, e: Exchange<Run>, rest: Script, script: Script)
    requires RaisesAfterCancel(thread, runId, rest, e) && Suffix(rest, script)
    ensures RaisesAfterCancel(thread, runId, script, After(earlier, e))
  {
    if e.outcome.Threw? {
      LastOfAfter(earlier, e);
      RaisedBySuffix(rest, script, e.outcome.error);
    }
  }

  /** A `generate_message` whose poll raises cancels the run and re-raises. */
  lemma GeneratePollRaises(thread: Option<Id>, runId: Id, script: Script)
    ensures var p := Poll(thread, runId, script);
      p.outcome.Threw? ==>
        Generate(thread, runId, script) == After(p.calls, CancelThenRaise(thread, runId, p.outcome.error, p.rest))
  {
  }

  /** A poll that raises ends `generate_message` with a cancel and the
      poll's exception. */
  lemma PollRaisesAfterCancel(thread: Option<Id>, runId: Id, script: Script)
    ensures Poll(thread, runId, script).outcome.Threw? ==>
      RaisesAfterCancel(thread, runId, script, Generate(thread, runId, script))
  {
    var p := Poll(thread, runId, script);
    if p.outcome.Threw? {
      GeneratePollRaises(thread, runId, script);
      var e := CancelThenRaise(thread, runId, p.outcome.error, p.rest);
      assert RaisesAt(script[|p.calls| - 1], p.outcome.error);
      assert RaisesAfterCancel(thread, runId, script, e);
      RaisesAfterCancelAfter(thread, runId, p.calls, e, script, script);
    }
  }

  /** A cycle that finishes by raising has cancelled the run last and
      raises what one of its replies raised. */
  lemma RespondRaisesAfterCancel(thread: Option<Id>, runId: Id, run: Run, script: Script)
    ensures var r := Respond(thread, runId, run, script);
      r.Finished? ==> RaisesAfterCancel(thread, runId, script, r.exchange)
  {
    RespondOutcomes(thread, runId, run, script);
    RespondRaisesFromScript(thread, runId, run, script);
  }

  /** A cycle that finishes `generate_message` by raising has cancelled the
      run last and raises what one of the replies raised. */
  lemma FinishRaisesAfterCancel(thread: Option<Id>, runId: Id, script: Script)
    ensures var p := Poll(thread, runId, script);
      p.outcome.Returned? && p.outcome.value.status != Completed
      && Respond(thread, runId, p.outcome.value, p.rest).Finished? ==>
        RaisesAfterCancel(thread, runId, script, Generate(thread, runId, script))
  {
    var p := Poll(thread, runId, script);
    if p.outcome.Returned? && p.outcome.value.status != Completed {
      var run := p.outcome.value;
      var cycle := Respond(thread, runId, run, p.rest);
      if cycle.Finished? {
        GenerateRound(thread, runId, script);
        assert Suffix(p.rest, script);
        RespondRaisesAfterCancel(thread, runId, run, p.rest);
        RaisesAfterCancelAfter(thread, runId, p.calls, cycle.exchange, p.rest, script);
      }
    }
  }

  /** Whenever `generate_message` raises, its last call cancels the run, and
      the exception is the one a reply raised (a failed poll, a failed
      submission or a failed cancel), never one of the outer cancel. */
  lemma {:induction false} GenerateRaises(thread: Option<Id>, runId: Id, script: Script)
    decreases |script|
    ensures RaisesAfterCancel(thread, runId, script, Generate(thread, runId, script))
  {
    var p := Poll(thread, runId, script);
    if p.outcome.Threw? {
      PollRaisesAfterCancel(thread, runId, script);
    } else if p.outcome.Returned? && p.outcome.value.status != Completed {
      var cycle := Respond(thread, runId, p.outcome.value, p.rest);
      if cycle.Finished? {
        FinishRaisesAfterCancel(thread, runId, script);
      } else {
        GenerateRound(thread, runId, script);
        GenerateRaises(thread, runId, cycle.rest);
        assert Suffix(p.rest, script);
        RespondSuffix(thread, runId, p.outcome.value, p.rest);
        SuffixTransitive(cycle.rest, p.rest, script);
        RaisesAfterCancelAfter(thread, runId, p.calls + cycle.calls, Generate(thread, runId, cycle.rest), cycle.rest, script);
      }
    }
  }

  /** The last call of an exchange stays last when calls come before it. */
  lemma LastOfAfter<T>(earlier: seq<Call>, e: Exchange<T>)
    requires e.calls != []
    ensures After(earlier, e).calls[|After(earlier, e).calls| - 1] == e.calls[|e.calls| - 1]
  {
  }

  /** Calls made before an exchange keep its first call first and its last
      call last, and run calls stay run calls. */
  lemma AfterRunCalls<T>(thread: Option<Id>, runId: Id, earlier: seq<Call>, e: Exchange<T>)
    requires forall c :: c in earlier ==> RunCall(thread, runId, c)
    requires forall c :: c in e.calls ==> RunCall(thread, runId, c)
    ensures forall c :: c in After(earlier, e).calls ==> RunCall(thread, runId, c)
    ensures e.calls != [] ==> After(earlier, e).calls[|After(earlier, e).calls| - 1] == e.calls[|e.calls| - 1]
    ensures earlier != [] ==> After(earlier, e).calls[0] == earlier[0]
  {
  }

  /** One `requires_action` cycle as written, with the outputs built by the
      loop of `BuildToolOutputs`. */
  method RespondToAction(thread: Option<Id>, runId: Id, run: Run, script: Script) returns (cycle: Cycle)
    ensures cycle == Respond(thread, runId, run, script)
  {
    if run.requiredAction.None? {
      return Continue([], script);
    }
    var action := run.requiredAction.value;
    if action.submitToolOutputs.None? || action.submitToolOutputs.value.toolCalls.None? {
      return Finished(CancelThenReturn(thread, runId, run, script));
    }
    var built, calls, rest := BuildToolOutputs(action.submitToolOutputs.value.toolCalls.value, script);
    if built.Hung? {
      return Finished(Exchange(Hung, calls, rest));
    }
    if built.value == [] {
      return Finished(After(calls, CancelThenReturn(thread, runId, run, rest)));
    }
    var s := Submit(thread, runId, built.value, rest);
    match s.outcome {
      case Hung => cycle := Finished(Exchange(Hung, calls + s.calls, s.rest));
      case Threw(e) => cycle := Finished(After(calls + s.calls, CancelThenRaise(thread, runId, e, s.rest)));
      case Returned(_) => cycle := Continue(calls + s.calls, s.rest);
    }
  }

  lemma AfterTwice<T>(c1: seq<Call>, c2: seq<Call>, e: Exchange<T>)
    ensures After(c1, After(c2, e)) == After(c1 + c2, e)
  {
    assert c1 + (c2 + e.calls) == c1 + c2 + e.calls;
  }

  /** One pass of the `while True` loop of `generate_message`: poll, then
      either finish or answer the required action and go round again. */
  method GenerateCycle(thread: Option<Id>, runId: Id, script: Script) returns (cycle: Cycle)
    ensures cycle.Finished? ==> cycle.exchange == Generate(thread, runId, script)
    ensures cycle.Continue? ==>
      |cycle.rest| < |script| && Generate(thread, runId, script) == After(cycle.calls, Generate(thread, runId, cycle.rest))
  {
    var polled, polledCalls, afterPoll := PollRun(thread, runId, script);
    match polled {
      case Hung =>
        cycle := Finished(Exchange(Hung, polledCalls, afterPoll));
      case Threw(e) =>
        cycle := Finished(After(polledCalls, CancelThenRaise(thread, runId, e, afterPoll)));
      case Returned(run) =>
        if run.status == Completed {
          cycle := Finished(Exchange(Returned(run), polledCalls, afterPoll));
        } else {
          var answered := RespondToAction(thread, runId, run, afterPoll);
          match answered {
            case Finished(e) => cycle := Finished(After(polledCalls, e));
            case Continue(more, next) => cycle := Continue(polledCalls + more, next);
          }
        }
    }
  }

  /** `generate_message` as written: a `while True` loop around `poll_run`. */
  method GenerateMessage(thread: Option<Id>, runId: Id, script: Script) returns (outcome: Outcome<Run>, calls: seq<Call>, rest: Script)
    ensures Exchange(outcome, calls, rest) == Generate(thread, runId, script)
  {
    calls, rest := [], script;
    while true
      invariant Generate(thread, runId, script) == After(calls, Generate(thread, runId, rest))
      decreases |rest|
    {
      var cycle := GenerateCycle(thread, runId, rest);
      match cycle {
        case Finished(e) =>
          return e.outcome, calls + e.calls, e.rest;
        case Continue(more, next) =>
          AfterTwice(calls, more, Generate(thread, runId, next));
          calls, rest := calls + more, next;
      }
    }
  }
}
