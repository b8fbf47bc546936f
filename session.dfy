/** The process-wide assistant session of backend/services/openai.py: the
    three ids it fills in lazily (vector store, assistant, conversation
    thread) and its two initialisers, `initialize` and `initialize_for_asst`.

    Each initialiser is specified by a function on the ids and the scripted
    replies, built from one function per step; the `Assistant` class holds
    the ids as fields and its methods update them step by step, proved equal
    to those functions. */
module Session {
  import opened Common
  import opened Remote

  const DefaultInstructions := "あなたは親切なアシスタントです。"
  const AssistantModel := "gpt-4o"
  const AssistantName := "Assistant"

  /** Python truthiness of an optional id: present and non-empty. */
  predicate IsSet(id: Option<Id>) {
    id.Some? && id.value != ""
  }

  /** The ids a session holds. */
  datatype Ids = Ids(vectorStore: Option<Id>, assistant: Option<Id>, thread: Option<Id>)

  predicate AllSet(ids: Ids) {
    IsSet(ids.vectorStore) && IsSet(ids.assistant) && IsSet(ids.thread)
  }

  /** The ids after an initialisation step, the calls it made, the replies
      left, and how it ended. Ids set before a step raises are kept. */
  datatype Step = Step(ids: Ids, calls: seq<Call>, rest: Script, outcome: Outcome<()>)

  /** What an endpoint that uses the session leaves behind: the ids, how
      it ended, the calls it made and the replies left. */
  datatype Handled<+T> = Handled(ids: Ids, outcome: Outcome<T>, calls: seq<Call>, rest: Script)

  /** An HTTP endpoint's answer: a body, or an error status with FastAPI's
      `detail` text. */
  datatype Response<+T> = Success(body: T) | Failure(status: nat, detail: string)

  /** The 500 answer an endpoint gives for an exception it caught:
      `HTTPException(status_code=500, detail=str(e))`. */
  function ServerError<T>(e: Error): (r: Response<T>)
    ensures r.Failure? && r.status == 500
  {
    Failure(500, e.message)
  }

  /** The contents of `instructions.yaml`, or the built-in default when the
      file is missing. */
  function ReadInstructions(file: Option<string>): string {
    match file
    case Some(text) => text
    case None => DefaultInstructions
  }

  /** Step 1: an unset vector store id becomes the first listed store, or a
      newly created one when the list is empty; a set one is kept. */
  function EnsureVectorStore(ids: Ids, script: Script): (r: Step)
    ensures |r.rest| <= |script|
    ensures forall c :: c in r.calls ==> c == ListVectorStores || c == CreateVectorStore
    ensures r.ids.assistant == ids.assistant && r.ids.thread == ids.thread
    ensures IsSet(ids.vectorStore) ==> r == Step(ids, [], script, Returned(()))
    ensures !IsSet(ids.vectorStore) ==> r.calls != [] && r.calls[0] == ListVectorStores
    ensures r.outcome.Returned? ==> r.ids.vectorStore.Some?
    ensures !r.outcome.Returned? ==> r.ids == ids
    ensures CreateVectorStore in r.calls ==> script != [] && script[0] == Ok(Listed([]))
    ensures !IsSet(ids.vectorStore) && script != [] && script[0].Ok?
         && script[0].value.Listed? && script[0].value.ids != []
         ==> (r.ids.vectorStore == Some(script[0].value.ids[0])
              && r.calls == [ListVectorStores] && r.outcome == Returned(()))
  {
    if IsSet(ids.vectorStore) then Step(ids, [], script, Returned(()))
    else
      var calls := [ListVectorStores];
      var rest := AfterCall(script);
      match AsIds(NextReply(script))
      case Threw(err) => Step(ids, calls, rest, Threw(err))
      case Hung => Step(ids, calls, rest, Hung)
      case Returned(stores) =>
        if stores != [] then Step(ids.(vectorStore := Some(stores[0])), calls, rest, Returned(()))
        else
          var calls' := calls + [CreateVectorStore];
          match AsId(NextReply(rest))
          case Threw(err) => Step(ids, calls', AfterCall(rest), Threw(err))
          case Hung => Step(ids, calls', AfterCall(rest), Hung)
          case Returned(id) => Step(ids.(vectorStore := Some(id)), calls', AfterCall(rest), Returned(()))
  }

  /** Step 2a: try the configured `ASSISTANT_ID`. Its id is adopted only when
      retrieving it succeeds; when retrieving raises, the assistant id is
      cleared and the exception is swallowed. */
  function AdoptConfigured(ids: Ids, configured: Option<Id>, script: Script): (r: Step)
    ensures |r.rest| <= |script|
    ensures r.ids.vectorStore == ids.vectorStore && r.ids.thread == ids.thread
    ensures !IsSet(configured) ==> r == Step(ids, [], script, Returned(()))
    ensures IsSet(configured) ==> r.calls == [RetrieveAssistant(configured)]
    ensures IsSet(configured) && script != [] && script[0].Ok? && script[0].value.AssistantObject?
         ==> r.ids == ids.(assistant := Some(script[0].value.info.id)) && r.outcome == Returned(())
    ensures IsSet(configured) && script != [] && script[0].Err?
         ==> r.ids == ids.(assistant := None) && r.outcome == Returned(())
    ensures !r.outcome.Threw?
  {
    if !IsSet(configured) then Step(ids, [], script, Returned(()))
    else
      var calls := [RetrieveAssistant(configured)];
      match AsAssistant(NextReply(script))
      case Returned(info) => Step(ids.(assistant := Some(info.id)), calls, AfterCall(script), Returned(()))
      case Threw(_) => Step(ids.(assistant := None), calls, AfterCall(script), Returned(()))
      case Hung => Step(ids, calls, AfterCall(script), Hung)
  }

  /** Step 2b: create an assistant bound to the current vector store. */
  function CreateNewAssistant(ids: Ids, instructions: string, script: Script): (r: Step)
    ensures |r.rest| <= |script|
    ensures r.calls == [CreateAssistant(AssistantName, AssistantModel, instructions, ids.vectorStore)]
    ensures r.ids.vectorStore == ids.vectorStore && r.ids.thread == ids.thread
    ensures r.outcome.Returned? ==> r.ids.assistant.Some?
    ensures !r.outcome.Returned? ==> r.ids == ids
    ensures r.rest == AfterCall(script)
    ensures script != [] && script[0].Err? ==> r.outcome == Threw(script[0].error)
    ensures script != [] && script[0].Ok? && script[0].value.Created?
         ==> r.outcome == Returned(()) && r.ids == ids.(assistant := Some(script[0].value.id))
  {
    var calls := [CreateAssistant(AssistantName, AssistantModel, instructions, ids.vectorStore)];
    match AsId(NextReply(script))
    case Returned(id) => Step(ids.(assistant := Some(id)), calls, AfterCall(script), Returned(()))
    case Threw(err) => Step(ids, calls, AfterCall(script), Threw(err))
    case Hung => Step(ids, calls, AfterCall(script), Hung)
  }

  /** Step 2: an unset assistant id becomes the configured one when it can be
      retrieved, and otherwise a newly created assistant's. A set one is kept. */
  function EnsureAssistant(ids: Ids, configured: Option<Id>, instructions: string, script: Script): (r: Step)
    ensures |r.rest| <= |script|
    ensures forall c :: c in r.calls ==>
      c == RetrieveAssistant(configured) || c == CreateAssistant(AssistantName, AssistantModel, instructions, ids.vectorStore)
    ensures r.ids.vectorStore == ids.vectorStore && r.ids.thread == ids.thread
    ensures IsSet(ids.assistant) ==> r == Step(ids, [], script, Returned(()))
    ensures r.outcome.Returned? ==> r.ids.assistant.Some?
    ensures !IsSet(ids.assistant) && IsSet(configured) && script != [] && script[0].Err?
         ==> (r.calls == [RetrieveAssistant(configured), CreateAssistant(AssistantName, AssistantModel, instructions, ids.vectorStore)]
              && (r.outcome.Returned? || r.ids.assistant == None))
    ensures !IsSet(ids.assistant) && IsSet(configured) && script != [] && script[0].Ok?
         && script[0].value.AssistantObject? && script[0].value.info.id != ""
         ==> (r.ids == ids.(assistant := Some(script[0].value.info.id)) && r.outcome == Returned(())
              && r.calls == [RetrieveAssistant(configured)])
  {
    if IsSet(ids.assistant) then Step(ids, [], script, Returned(()))
    else
      var tried := AdoptConfigured(ids, configured, script);
      if !tried.outcome.Returned? || IsSet(tried.ids.assistant) then tried
      else
        var created := CreateNewAssistant(tried.ids, instructions, tried.rest);
        created.(calls := tried.calls + created.calls)
  }

  /** Step 3: an unset thread id becomes a newly created thread's. */
  function EnsureThread(ids: Ids, script: Script): (r: Step)
    ensures |r.rest| <= |script|
    ensures r.ids.vectorStore == ids.vectorStore && r.ids.assistant == ids.assistant
    ensures IsSet(ids.thread) ==> r == Step(ids, [], script, Returned(()))
    ensures !IsSet(ids.thread) ==> r.calls == [CreateThread]
    ensures r.outcome.Returned? ==> r.ids.thread.Some?
    ensures !r.outcome.Returned? ==> r.ids == ids
    ensures !IsSet(ids.thread) && script != [] && script[0].Ok? && script[0].value.Created?
         ==> r.ids.thread == Some(script[0].value.id) && r.outcome == Returned(())
    ensures !IsSet(ids.thread) && script != [] && script[0].Err? ==> r.outcome == Threw(script[0].error)
  {
    if IsSet(ids.thread) then Step(ids, [], script, Returned(()))
    else
      match AsId(NextReply(script))
      case Returned(id) => Step(ids.(thread := Some(id)), [CreateThread], AfterCall(script), Returned(()))
      case Threw(err) => Step(ids, [CreateThread], AfterCall(script), Threw(err))
      case Hung => Step(ids, [CreateThread], AfterCall(script), Hung)
  }

  /** `initialize` (openai.py:90-143): the three steps in order; the first
      that does not return ends it, keeping what earlier steps set. A set id
      is never changed, every new assistant is bound to the session's vector
      store, and with all three ids set no call is made and nothing changes. */
  function Initialization(ids: Ids, configured: Option<Id>, instructions: string, script: Script): (r: Step)
    ensures |r.rest| <= |script|
    ensures IsSet(ids.vectorStore) ==> r.ids.vectorStore == ids.vectorStore
    ensures IsSet(ids.assistant) ==> r.ids.assistant == ids.assistant
    ensures IsSet(ids.thread) ==> r.ids.thread == ids.thread
    ensures AllSet(ids) ==> r == Step(ids, [], script, Returned(()))
    ensures r.outcome.Returned? ==> r.ids.vectorStore.Some? && r.ids.assistant.Some? && r.ids.thread.Some?
    ensures forall c :: c in r.calls && c.CreateAssistant? ==> c.vectorStoreId == r.ids.vectorStore
    ensures CreateThread in r.calls ==> !IsSet(ids.thread)
  {
    var s1 := EnsureVectorStore(ids, script);
    if !s1.outcome.Returned? then s1
    else
      var s2 := EnsureAssistant(s1.ids, configured, instructions, s1.rest);
      if !s2.outcome.Returned? then s2.(calls := s1.calls + s2.calls)
      else
        var s3 := EnsureThread(s2.ids, s2.rest);
        s3.(calls := s1.calls + s2.calls + s3.calls)
  }

  /** `initialize_for_asst` (openai.py:318-362): steps 1 and 2 only. It
      never reads or writes the thread id and never creates a thread. */
  function AsstInitialization(ids: Ids, configured: Option<Id>, instructions: string, script: Script): (r: Step)
    ensures |r.rest| <= |script|
    ensures r.ids.thread == ids.thread
    ensures CreateThread !in r.calls
    ensures IsSet(ids.vectorStore) ==> r.ids.vectorStore == ids.vectorStore
    ensures IsSet(ids.assistant) ==> r.ids.assistant == ids.assistant
    ensures IsSet(ids.vectorStore) && IsSet(ids.assistant) ==> r == Step(ids, [], script, Returned(()))
    ensures r.outcome.Returned? ==> r.ids.vectorStore.Some? && r.ids.assistant.Some?
  {
    var s1 := EnsureVectorStore(ids, script);
    if !s1.outcome.Returned? then s1
    else
      var s2 := EnsureAssistant(s1.ids, configured, instructions, s1.rest);
      s2.(calls := s1.calls + s2.calls)
  }

  // The initialisation steps read their replies from the front of the script.

  lemma AfterCallSuffix(script: Script)
    ensures Suffix(AfterCall(script), script)
  {
  }

  lemma EnsureVectorStoreSuffix(ids: Ids, script: Script)
    ensures Suffix(EnsureVectorStore(ids, script).rest, script)
  {
    AfterCallSuffix(script);
    AfterCallSuffix(AfterCall(script));
    SuffixTransitive(AfterCall(AfterCall(script)), AfterCall(script), script);
  }

  lemma EnsureAssistantSuffix(ids: Ids, configured: Option<Id>, instructions: string, script: Script)
    ensures Suffix(EnsureAssistant(ids, configured, instructions, script).rest, script)
  {
    if !IsSet(ids.assistant) {
      var tried := AdoptConfigured(ids, configured, script);
      AfterCallSuffix(script);
      if tried.outcome.Returned? && !IsSet(tried.ids.assistant) {
        AfterCallSuffix(tried.rest);
        SuffixTransitive(AfterCall(tried.rest), tried.rest, script);
      }
    }
  }

  lemma EnsureThreadSuffix(ids: Ids, script: Script)
    ensures Suffix(EnsureThread(ids, script).rest, script)
  {
    AfterCallSuffix(script);
  }

  /** `initialize` reads its replies from the front of the script. */
  lemma InitializationSuffix(ids: Ids, configured: Option<Id>, instructions: string, script: Script)
    ensures Suffix(Initialization(ids, configured, instructions, script).rest, script)
  {
    var r := Initialization(ids, configured, instructions, script);
    var s1 := EnsureVectorStore(ids, script);
    EnsureVectorStoreSuffix(ids, script);
    if !s1.outcome.Returned? {
      assert r.rest == s1.rest;
    } else {
      var s2 := EnsureAssistant(s1.ids, configured, instructions, s1.rest);
      EnsureAssistantSuffix(s1.ids, configured, instructions, s1.rest);
      SuffixTransitive(s2.rest, s1.rest, script);
      if !s2.outcome.Returned? {
        assert r.rest == s2.rest;
      } else {
        var s3 := EnsureThread(s2.ids, s2.rest);
        EnsureThreadSuffix(s2.ids, s2.rest);
        SuffixTransitive(s3.rest, s2.rest, script);
        assert r.rest == s3.rest;
      }
    }
  }

  /** The global `assistant` object. */
  class Assistant {
    var conversationThread: Option<Id>
    var assistantId: Option<Id>
    var vectorStoreId: Option<Id>
    const model: string := AssistantModel
    const instructions: string

    /** `Assistant()`: no ids yet; instructions from the file or the default. */
    constructor (instructionsFile: Option<string>)
      ensures State() == Ids(None, None, None)
      ensures instructions == ReadInstructions(instructionsFile)
    {
      conversationThread := None;
      assistantId := None;
      vectorStoreId := None;
      instructions := ReadInstructions(instructionsFile);
    }

    function State(): Ids
      reads this
    {
      Ids(vectorStoreId, assistantId, conversationThread)
    }

    /** Step 1, on the fields. */
    method SetUpVectorStore(script: Script) returns (outcome: Outcome<()>, calls: seq<Call>, rest: Script)
      modifies this
      ensures Step(State(), calls, rest, outcome) == EnsureVectorStore(old(State()), script)
    {
      outcome, calls, rest := Returned(()), [], script;
      if !IsSet(vectorStoreId) {
        calls, rest := [ListVectorStores], AfterCall(script);
        match AsIds(NextReply(script)) {
          case Threw(err) => outcome := Threw(err);
          case Hung => outcome := Hung;
          case Returned(stores) =>
            if stores != [] {
              vectorStoreId := Some(stores[0]);
            } else {
              var reply := NextReply(rest);
              calls, rest := calls + [CreateVectorStore], AfterCall(rest);
              match AsId(reply) {
                case Threw(err) => outcome := Threw(err);
                case Hung => outcome := Hung;
                case Returned(id) => vectorStoreId := Some(id);
              }
            }
        }
      }
    }

    /** Step 2, on the fields. */
    method SetUpAssistant(configured: Option<Id>, script: Script) returns (outcome: Outcome<()>, calls: seq<Call>, rest: Script)
      modifies this
      ensures Step(State(), calls, rest, outcome) == EnsureAssistant(old(State()), configured, instructions, script)
    {
      outcome, calls, rest := Returned(()), [], script;
      if !IsSet(assistantId) {
        if IsSet(configured) {
          calls, rest := [RetrieveAssistant(configured)], AfterCall(script);
          match AsAssistant(NextReply(script)) {
            case Returned(info) => assistantId := Some(info.id);
            case Threw(_) => assistantId := None;
            case Hung => return Hung, calls, rest;
          }
        }
        if !IsSet(assistantId) {
          var reply := NextReply(rest);
          calls, rest := calls + [CreateAssistant(AssistantName, model, instructions, vectorStoreId)], AfterCall(rest);
          match AsId(reply) {
            case Threw(err) => outcome := Threw(err);
            case Hung => outcome := Hung;
            case Returned(id) => assistantId := Some(id);
          }
        }
      }
    }

    /** Step 3, on the fields. */
    method SetUpThread(script: Script) returns (outcome: Outcome<()>, calls: seq<Call>, rest: Script)
      modifies this
      ensures Step(State(), calls, rest, outcome) == EnsureThread(old(State()), script)
    {
      outcome, calls, rest := Returned(()), [], script;
      if !IsSet(conversationThread) {
        calls, rest := [CreateThread], AfterCall(script);
        match AsId(NextReply(script)) {
          case Threw(err) => outcome := Threw(err);
          case Hung => outcome := Hung;
          case Returned(id) => conversationThread := Some(id);
        }
      }
    }

    /** `initialize`: ensure vector store, assistant and thread. */
    method Initialize(configured: Option<Id>, script: Script) returns (outcome: Outcome<()>, calls: seq<Call>, rest: Script)
      modifies this
      ensures Step(State(), calls, rest, outcome) == Initialization(old(State()), configured, instructions, script)
    {
      outcome, calls, rest := SetUpVectorStore(script);
      if outcome.Returned? {
        var more;
        outcome, more, rest := SetUpAssistant(configured, rest);
        calls := calls + more;
        if outcome.Returned? {
          outcome, more, rest := SetUpThread(rest);
          calls := calls + more;
        }
      }
    }

    /** `initialize_for_asst`: ensure vector store and assistant, no thread. */
    method InitializeForAsst(configured: Option<Id>, script: Script) returns (outcome: Outcome<()>, calls: seq<Call>, rest: Script)
      modifies this
      ensures Step(State(), calls, rest, outcome) == AsstInitialization(old(State()), configured, instructions, script)
    {
      outcome, calls, rest := SetUpVectorStore(script);
      if outcome.Returned? {
        var more;
        outcome, more, rest := SetUpAssistant(configured, rest);
        calls := calls + more;
      }
    }
  }
}
