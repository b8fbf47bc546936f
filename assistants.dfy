/** The assistant endpoints of backend/endpoints/assistants.py:
    `/initialize-assistant`, which reuses the session's assistant when it
    can still be retrieved and otherwise creates one bound to the requested
    vector store, and `/check-assistant`, which clears a stale assistant id.
    Both catch every exception and answer with a 500 carrying its text. */
module Assistants {
  import opened Common
  import opened Remote
  import opened Session

  const WebAssistantName := "Web Assistant"
  const MissingVectorStore := "400: Missing vector_store_id"

  /** The body of a successful `/initialize-assistant` answer. */
  datatype Initialized = Initialized(assistantId: Id, threadId: Id, vectorStoreId: Id, reused: bool)

  /** The retrieve-then-create-thread attempt to reuse the session's
      assistant: the retrieved assistant's id and the new thread's, or the
      exception of either call. */
  function TryReuse(assistantId: Option<Id>, script: Script): (r: Exchange<(Id, Id)>)
    ensures 1 <= |r.calls| <= 2 && r.calls[0] == RetrieveAssistant(assistantId)
    ensures r.outcome.Returned? ==> r.calls == [RetrieveAssistant(assistantId), CreateThread]
    ensures script != [] && script[0].Err? ==> r == Exchange(Threw(script[0].error), [RetrieveAssistant(assistantId)], script[1..])
  {
    var retrieve := [RetrieveAssistant(assistantId)];
    match AsAssistant(NextReply(script))
    case Hung => Exchange(Hung, retrieve, AfterCall(script))
    case Threw(err) => Exchange(Threw(err), retrieve, AfterCall(script))
    case Returned(info) =>
      var rest := AfterCall(script);
      match AsId(NextReply(rest))
      case Hung => Exchange(Hung, retrieve + [CreateThread], AfterCall(rest))
      case Threw(err) => Exchange(Threw(err), retrieve + [CreateThread], AfterCall(rest))
      case Returned(thread) => Exchange(Returned((info.id, thread)), retrieve + [CreateThread], AfterCall(rest))
  }

  /** The creation path: a "Web Assistant" bound to the requested vector
      store, then a thread; only when both succeed does the session take the
      new assistant's id and the requested vector store id. */
  function CreateForStore(ids: Ids, instructions: string, vectorStore: Id, script: Script): (r: Handled<Response<Initialized>>)
    ensures !r.outcome.Threw?
    ensures 1 <= |r.calls| <= 2
    ensures r.calls[0] == CreateAssistant(WebAssistantName, AssistantModel, instructions, Some(vectorStore))
    ensures r.outcome.Returned? && r.outcome.value.Success? ==>
      var body := r.outcome.value.body;
      !body.reused && body.vectorStoreId == vectorStore
      && r.ids == ids.(assistant := Some(body.assistantId), vectorStore := Some(vectorStore))
      && r.calls == [CreateAssistant(WebAssistantName, AssistantModel, instructions, Some(vectorStore)), CreateThread]
    ensures !(r.outcome.Returned? && r.outcome.value.Success?) ==> r.ids == ids
  {
    var create := [CreateAssistant(WebAssistantName, AssistantModel, instructions, Some(vectorStore))];
    match AsId(NextReply(script))
    case Hung => Handled(ids, Hung, create, AfterCall(script))
    case Threw(err) => Handled(ids, Returned(ServerError(err)), create, AfterCall(script))
    case Returned(assistantId) =>
      var rest := AfterCall(script);
      var calls := create + [CreateThread];
      match AsId(NextReply(rest))
      case Hung => Handled(ids, Hung, calls, AfterCall(rest))
      case Threw(err) => Handled(ids, Returned(ServerError(err)), calls, AfterCall(rest))
      case Returned(thread) =>
        Handled(ids.(assistant := Some(assistantId), vectorStore := Some(vectorStore)),
                Returned(Success(Initialized(assistantId, thread, vectorStore, false))), calls, AfterCall(rest))
  }

  /** `POST /initialize-assistant` with the request's `vector_store_id`.
      A missing id is answered before any call. A session assistant that can
      be retrieved is reused and nothing in the session changes; the thread
      created for the answer is not stored. When retrieving it or creating
      that thread fails, the assistant id is cleared and a new assistant is
      created. The session's thread is never touched. */
  function AssistantInitialization(ids: Ids, instructions: string, requested: Option<Id>, script: Script): (r: Handled<Response<Initialized>>)
    ensures !r.outcome.Threw?
    ensures r.ids.thread == ids.thread
    ensures !IsSet(requested) ==> r == Handled(ids, Returned(Failure(500, MissingVectorStore)), [], script)
    ensures !(r.outcome.Returned? && r.outcome.value.Success?) ==> r.ids.vectorStore == ids.vectorStore
  {
    if !IsSet(requested) then Handled(ids, Returned(Failure(500, MissingVectorStore)), [], script)
    else if !IsSet(ids.assistant) then CreateForStore(ids, instructions, requested.value, script)
    else
      var reuse := TryReuse(ids.assistant, script);
      match reuse.outcome
      case Hung => Handled(ids, Hung, reuse.calls, reuse.rest)
      case Returned((assistantId, thread)) =>
        Handled(ids, Returned(Success(Initialized(assistantId, thread, requested.value, true))), reuse.calls, reuse.rest)
      case Threw(_) =>
        var created := CreateForStore(ids.(assistant := None), instructions, requested.value, reuse.rest);
        created.(calls := reuse.calls + created.calls)
  }

  /** A session assistant that can be retrieved, and a thread created for
      it, are reused: nothing in the session changes. */
  lemma AssistantInitializationReuses(ids: Ids, instructions: string, requested: Option<Id>, script: Script)
    requires IsSet(requested) && IsSet(ids.assistant) && |script| >= 2
    requires script[0].Ok? && script[0].value.AssistantObject? && script[1].Ok? && script[1].value.Created?
    ensures AssistantInitialization(ids, instructions, requested, script)
         == Handled(ids, Returned(Success(Initialized(script[0].value.info.id, script[1].value.id, requested.value, true))),
                    [RetrieveAssistant(ids.assistant), CreateThread], script[2..])
  {
    assert script[1..][1..] == script[2..];
  }

  /** A session assistant that cannot be retrieved is replaced: the next
      call creates an assistant, and the stale id is cleared unless the new
      one is stored. */
  lemma AssistantInitializationReplaces(ids: Ids, instructions: string, requested: Option<Id>, script: Script)
    requires IsSet(requested) && IsSet(ids.assistant) && script != [] && script[0].Err?
    ensures var r := AssistantInitialization(ids, instructions, requested, script);
      |r.calls| >= 2 && r.calls[1].CreateAssistant?
      && (r.ids.assistant == None || (r.outcome.Returned? && r.outcome.value.Success?))
  {
    var reuse := TryReuse(ids.assistant, script);
    assert reuse.calls == [RetrieveAssistant(ids.assistant)];
    var created := CreateForStore(ids.(assistant := None), instructions, requested.value, reuse.rest);
    assert created.calls[0].CreateAssistant?;
  }

  /** Every assistant created is a "Web Assistant" bound to the requested
      vector store. */
  lemma AssistantInitializationCreatesForStore(ids: Ids, instructions: string, requested: Option<Id>, script: Script)
    ensures forall c :: c in AssistantInitialization(ids, instructions, requested, script).calls && c.CreateAssistant?
                     ==> c.vectorStoreId == requested && c.name == WebAssistantName
  {
    if IsSet(requested) && IsSet(ids.assistant) {
      var reuse := TryReuse(ids.assistant, script);
      assert forall c :: c in reuse.calls ==> !c.CreateAssistant?;
    }
  }

  /** A successful answer names the requested vector store, and the session
      changes only when a new assistant was created, to that assistant and
      that store. */
  lemma AssistantInitializationSuccess(ids: Ids, instructions: string, requested: Option<Id>, script: Script)
    ensures var r := AssistantInitialization(ids, instructions, requested, script);
      r.outcome.Returned? && r.outcome.value.Success? ==>
        var body := r.outcome.value.body;
        Some(body.vectorStoreId) == requested
        && (body.reused ==> r.ids == ids)
        && (!body.reused ==> r.ids == ids.(assistant := Some(body.assistantId), vectorStore := requested))
  {
    if IsSet(requested) && IsSet(ids.assistant) {
      var reuse := TryReuse(ids.assistant, script);
      if reuse.outcome.Threw? {
        var created := CreateForStore(ids.(assistant := None), instructions, requested.value, reuse.rest);
        assert created.outcome.Returned? && created.outcome.value.Success? ==> !created.outcome.value.body.reused;
      }
    }
  }

  /** `GET /check-assistant`: the session's assistant id when retrieving it
      succeeds; otherwise no id, and a failed retrieve clears it. */
  function AssistantCheck(ids: Ids, script: Script): (r: Handled<Response<Option<Id>>>)
    ensures !r.outcome.Threw?
    ensures r.ids.vectorStore == ids.vectorStore && r.ids.thread == ids.thread
    ensures r.ids.assistant == ids.assistant || r.ids.assistant == None
    ensures !IsSet(ids.assistant) ==> r == Handled(ids, Returned(Success(None)), [], script)
    ensures IsSet(ids.assistant) ==> r.calls == [RetrieveAssistant(ids.assistant)]
    ensures r.outcome.Returned? && r.outcome.value.Success? && r.outcome.value.body.Some?
        <==> IsSet(ids.assistant) && script != [] && script[0].Ok? && script[0].value.AssistantObject?
    ensures r.outcome.Returned? && r.outcome.value.Success? && r.outcome.value.body.Some? ==>
      r.outcome.value.body == ids.assistant && r.ids == ids
    ensures IsSet(ids.assistant) && script != [] && script[0].Err?
         ==> r.ids.assistant == None && r.outcome == Returned(Success(None))
  {
    if !IsSet(ids.assistant) then Handled(ids, Returned(Success(None)), [], script)
    else
      var calls := [RetrieveAssistant(ids.assistant)];
      match AsAssistant(NextReply(script))
      case Hung => Handled(ids, Hung, calls, AfterCall(script))
      case Returned(_) => Handled(ids, Returned(Success(ids.assistant)), calls, AfterCall(script))
      case Threw(_) => Handled(ids.(assistant := None), Returned(Success(None)), calls, AfterCall(script))
  }

  /** The creation path on the global session. */
  method CreateSessionAssistant(a: Assistant, vectorStore: Id, script: Script)
    returns (outcome: Outcome<Response<Initialized>>, calls: seq<Call>, rest: Script)
    modifies a
    ensures Handled(a.State(), outcome, calls, rest) == CreateForStore(old(a.State()), a.instructions, vectorStore, script)
  {
    calls, rest := [CreateAssistant(WebAssistantName, a.model, a.instructions, Some(vectorStore))], AfterCall(script);
    var assistantId;
    match AsId(NextReply(script)) {
      case Hung => return Hung, calls, rest;
      case Threw(err) => return Returned(ServerError(err)), calls, rest;
      case Returned(id) => assistantId := id;
    }
    var reply := NextReply(rest);
    calls, rest := calls + [CreateThread], AfterCall(rest);
    match AsId(reply) {
      case Hung => return Hung, calls, rest;
      case Threw(err) => return Returned(ServerError(err)), calls, rest;
      case Returned(thread) =>
        a.assistantId := Some(assistantId);
        a.vectorStoreId := Some(vectorStore);
        outcome := Returned(Success(Initialized(assistantId, thread, vectorStore, false)));
    }
  }

  /** `/initialize-assistant` on the global session. */
  method InitializeAssistant(a: Assistant, requested: Option<Id>, script: Script)
    returns (outcome: Outcome<Response<Initialized>>, calls: seq<Call>, rest: Script)
    modifies a
    ensures Handled(a.State(), outcome, calls, rest) == AssistantInitialization(old(a.State()), a.instructions, requested, script)
  {
    if !IsSet(requested) {
      return Returned(Failure(500, MissingVectorStore)), [], script;
    }
    if !IsSet(a.assistantId) {
      outcome, calls, rest := CreateSessionAssistant(a, requested.value, script);
      return;
    }
    var reuse := TryReuse(a.assistantId, script);
    match reuse.outcome {
      case Hung => return Hung, reuse.calls, reuse.rest;
      case Returned((assistantId, thread)) =>
        return Returned(Success(Initialized(assistantId, thread, requested.value, true))), reuse.calls, reuse.rest;
      case Threw(_) =>
    }
    a.assistantId := None;
    var more;
    outcome, more, rest := CreateSessionAssistant(a, requested.value, reuse.rest);
    calls := reuse.calls + more;
  }

  /** `/check-assistant` on the global session. */
  method CheckAssistant(a: Assistant, script: Script)
    returns (outcome: Outcome<Response<Option<Id>>>, calls: seq<Call>, rest: Script)
    modifies a
    ensures Handled(a.State(), outcome, calls, rest) == AssistantCheck(old(a.State()), script)
  {
    outcome, calls, rest := Returned(Success(None)), [], script;
    if IsSet(a.assistantId) {
      calls, rest := [RetrieveAssistant(a.assistantId)], AfterCall(script);
      match AsAssistant(NextReply(script)) {
        case Hung => outcome := Hung;
        case Returned(_) => outcome := Returned(Success(a.assistantId));
        case Threw(_) => a.assistantId := None;
      }
    }
  }
}
