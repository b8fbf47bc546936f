/** `initialize_on_startup` of backend/main.py: the session set-up the
    server runs once when it starts. Unlike `initialize`, it always replaces
    the assistant and the thread: an existing assistant is deleted (and its
    id cleared whether or not the delete succeeds), then a new assistant and
    a new thread are created. Any exception is raised again, so the server
    does not start. */
module Startup {
  import opened Common
  import opened Remote
  import opened Session

  /** Step 2: delete the session's assistant, if any; its id is cleared
      whatever the delete answers. */
  function DropAssistant(ids: Ids, script: Script): (r: Step)
    ensures r.ids == ids.(assistant := if IsSet(ids.assistant) && !r.outcome.Hung? then None else ids.assistant)
    ensures !r.outcome.Threw?
    ensures IsSet(ids.assistant) ==> r.calls == [DeleteAssistant(ids.assistant)] && r.rest == AfterCall(script)
    ensures !IsSet(ids.assistant) ==> r == Step(ids, [], script, Returned(()))
    ensures IsSet(ids.assistant) && script != [] && (script[0].Err? || script[0].value.Deletion?)
         ==> r.outcome == Returned(()) && r.ids.assistant == None
  {
    if !IsSet(ids.assistant) then Step(ids, [], script, Returned(()))
    else
      var calls := [DeleteAssistant(ids.assistant)];
      if AsDeleted(NextReply(script)).Hung? then Step(ids, calls, AfterCall(script), Hung)
      else Step(ids.(assistant := None), calls, AfterCall(script), Returned(()))
  }

  /** Step 4: a new thread, whatever the session held. */
  function ReplaceThread(ids: Ids, script: Script): (r: Step)
    ensures r.calls == [CreateThread]
    ensures r.ids.vectorStore == ids.vectorStore && r.ids.assistant == ids.assistant
    ensures script != [] && script[0].Ok? && script[0].value.Created?
         ==> r == Step(ids.(thread := Some(script[0].value.id)), [CreateThread], script[1..], Returned(()))
    ensures !r.outcome.Returned? ==> r.ids == ids
  {
    match AsId(NextReply(script))
    case Returned(id) => Step(ids.(thread := Some(id)), [CreateThread], AfterCall(script), Returned(()))
    case Threw(err) => Step(ids, [CreateThread], AfterCall(script), Threw(err))
    case Hung => Step(ids, [CreateThread], AfterCall(script), Hung)
  }

  /** `initialize_on_startup`: the vector store as `initialize` chooses it,
      then the old assistant dropped and a new assistant and thread created;
      the first step that raises ends it with that exception. On success the
      session holds the new assistant, bound to its vector store, and the new
      thread. */
  function StartupInitialization(ids: Ids, instructions: string, script: Script): (r: Step)
    ensures IsSet(ids.vectorStore) ==> r.ids.vectorStore == ids.vectorStore
    ensures r.outcome.Returned? ==>
      |r.calls| >= 2 && r.calls[|r.calls| - 1] == CreateThread
      && r.calls[|r.calls| - 2] == CreateAssistant(AssistantName, AssistantModel, instructions, r.ids.vectorStore)
      && r.ids.vectorStore.Some? && r.ids.assistant.Some? && r.ids.thread.Some?
    ensures IsSet(ids.vectorStore) && IsSet(ids.assistant) ==> r.calls != [] && r.calls[0] == DeleteAssistant(ids.assistant)
    ensures IsSet(ids.vectorStore) && IsSet(ids.assistant) && |script| >= 2
         && (script[0].Err? || script[0].value.Deletion?) && script[1].Err?
         ==> r.outcome == Threw(script[1].error) && r.ids.assistant == None
    ensures IsSet(ids.vectorStore) && IsSet(ids.assistant) && |script| >= 3
         && (script[0].Err? || script[0].value.Deletion?)
         && script[1].Ok? && script[1].value.Created? && script[2].Ok? && script[2].value.Created?
         ==> r.outcome == Returned(())
             && r.ids == Ids(ids.vectorStore, Some(script[1].value.id), Some(script[2].value.id))
  {
    var s1 := EnsureVectorStore(ids, script);
    if !s1.outcome.Returned? then s1
    else
      var s2 := DropAssistant(s1.ids, s1.rest);
      if !s2.outcome.Returned? then s2.(calls := s1.calls + s2.calls)
      else
        var s3 := CreateNewAssistant(s2.ids, instructions, s2.rest);
        if !s3.outcome.Returned? then s3.(calls := s1.calls + s2.calls + s3.calls)
        else
          var s4 := ReplaceThread(s3.ids, s3.rest);
          s4.(calls := s1.calls + s2.calls + s3.calls + s4.calls)
  }

  /** Step 2 on the global session. */
  method DropSessionAssistant(a: Assistant, script: Script) returns (outcome: Outcome<()>, calls: seq<Call>, rest: Script)
    modifies a
    ensures Step(a.State(), calls, rest, outcome) == DropAssistant(old(a.State()), script)
  {
    outcome, calls, rest := Returned(()), [], script;
    if IsSet(a.assistantId) {
      calls, rest := [DeleteAssistant(a.assistantId)], AfterCall(script);
      if AsDeleted(NextReply(script)).Hung? {
        outcome := Hung;
      } else {
        a.assistantId := None;
      }
    }
  }

  /** Step 3 on the global session. */
  method CreateSessionAssistant(a: Assistant, script: Script) returns (outcome: Outcome<()>, calls: seq<Call>, rest: Script)
    modifies a
    ensures Step(a.State(), calls, rest, outcome) == CreateNewAssistant(old(a.State()), a.instructions, script)
  {
    calls, rest := [CreateAssistant(AssistantName, a.model, a.instructions, a.vectorStoreId)], AfterCall(script);
    match AsId(NextReply(script)) {
      case Hung => outcome := Hung;
      case Threw(err) => outcome := Threw(err);
      case Returned(id) =>
        a.assistantId := Some(id);
        outcome := Returned(());
    }
  }

  /** Step 4 on the global session. */
  method ReplaceSessionThread(a: Assistant, script: Script) returns (outcome: Outcome<()>, calls: seq<Call>, rest: Script)
    modifies a
    ensures Step(a.State(), calls, rest, outcome) == ReplaceThread(old(a.State()), script)
  {
    calls, rest := [CreateThread], AfterCall(script);
    match AsId(NextReply(script)) {
      case Hung => outcome := Hung;
      case Threw(err) => outcome := Threw(err);
      case Returned(id) =>
        a.conversationThread := Some(id);
        outcome := Returned(());
    }
  }

  /** `initialize_on_startup` on the global session: the four steps in order. */
  method InitializeOnStartup(a: Assistant, script: Script) returns (outcome: Outcome<()>, calls: seq<Call>, rest: Script)
    modifies a
    ensures Step(a.State(), calls, rest, outcome) == StartupInitialization(old(a.State()), a.instructions, script)
  {
    outcome, calls, rest := a.SetUpVectorStore(script);
    if outcome.Returned? {
      var more;
      outcome, more, rest := DropSessionAssistant(a, rest);
      calls := calls + more;
      if outcome.Returned? {
        outcome, more, rest := CreateSessionAssistant(a, rest);
        calls := calls + more;
        if outcome.Returned? {
          outcome, more, rest := ReplaceSessionThread(a, rest);
          calls := calls + more;
        }
      }
    }
  }
}
