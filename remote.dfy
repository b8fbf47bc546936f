/** The remote services the backend depends on -- the OpenAI Assistants API
    reached through the SDK client object `client`, and the financial
    question-answering service ("DXA factory") reached with `requests.post` --
    replaced by a scripted environment.

    The environment is a script: the replies it will give, in order. Each
    call consumes the next reply, and every operation of the model reports
    the calls it made, in order (its trace). A reply is either a payload or the exception the call
    raises. When the script has no reply left, or the next reply does not
    have the shape the call expects, the caller is `Hung`: the model stops
    there (in the source the await would never return, or a polling loop
    would keep polling). */
module Remote {
  import opened Common

  type Id = string

  /** An exception, by its text (Python `str(e)`). */
  datatype Error = Error(message: string)

  /** Token counts reported for a run. */
  datatype Usage = Usage(promptTokens: nat, completionTokens: nat, totalTokens: nat)

  const NoUsage := Usage(0, 0, 0)

  /** The statuses a run reports. */
  datatype RunStatus =
    | Queued | InProgress | RequiresAction | Cancelling | Cancelled
    | Failed | Completed | Incomplete | Expired

  /** The status as the API spells it. */
  function StatusName(s: RunStatus): string {
    match s
    case Queued => "queued"
    case InProgress => "in_progress"
    case RequiresAction => "requires_action"
    case Cancelling => "cancelling"
    case Cancelled => "cancelled"
    case Failed => "failed"
    case Completed => "completed"
    case Incomplete => "incomplete"
    case Expired => "expired"
  }

  /** `failed`, `cancelled` and `expired`: the statuses both polling loops treat as failure. */
  predicate IsFailure(s: RunStatus) {
    s == Failed || s == Cancelled || s == Expired
  }

  /** The JSON arguments of a function tool call, already parsed: the
      `question` field, or a parse failure (not JSON, or no `question` key). */
  datatype Arguments = Question(question: string) | Unparseable

  /** A tool call of a run that requires action; `kind` is its `type`
      ("function" for function tools). */
  datatype ToolCall = ToolCall(id: Id, kind: string, name: string, arguments: Arguments)

  /** `required_action.submit_tool_outputs`; `toolCalls` is None when the
      object has no `tool_calls` attribute. */
  datatype SubmitToolOutputs = SubmitToolOutputs(toolCalls: Option<seq<ToolCall>>)

  datatype RequiredAction = RequiredAction(submitToolOutputs: Option<SubmitToolOutputs>)

  datatype Run = Run(id: Id, status: RunStatus, requiredAction: Option<RequiredAction>, usage: Option<Usage>)

  /** One entry of the `tool_outputs` list submitted for a run. */
  datatype ToolOutput = ToolOutput(toolCallId: Id, output: string)

  /** An annotation of a text block; only `file_path` annotations name a
      generated file. */
  datatype Annotation = FilePathAnnotation(fileId: Id) | FileCitation(fileId: Id)

  /** A content block of a thread message. */
  datatype MessageContent =
    | TextBlock(value: string, annotations: seq<Annotation>)
    | ImageFileBlock(fileId: Id)
    | ImageUrlBlock(url: string)

  datatype ThreadMessage = ThreadMessage(role: string, content: seq<MessageContent>)

  /** A content item of a user message: as sent by the browser (text and
      `image_url` items), or as passed on to `messages.create` (text,
      `image_file` and anything else unchanged). */
  datatype ContentItem =
    | TextItem(text: string)
    | ImageUrlItem(url: string, detail: string)
    | ImageFileItem(fileId: Id)
    | OtherItem(kind: string)

  /** The fields of a retrieved or updated assistant that the backend reads;
      `created` is its creation time already formatted as `%Y-%m-%d %H:%M:%S`. */
  datatype AssistantInfo = AssistantInfo(
    id: Id, name: Option<string>, model: string, created: string,
    instructions: Option<string>, toolTypes: seq<string>)

  /** The body of the factory's HTTP answer: not JSON, JSON without the path
      `answer.response.task_result.content`, JSON whose content there is
      `null`, or JSON with a string there. */
  datatype FactoryBody = NotJson | NoContent | NullContent | Content(text: string)

  datatype HttpResponse = HttpResponse(status: nat, body: FactoryBody)

  /** A remote call, as recorded in the trace. */
  datatype Call =
    | ListVectorStores
    | CreateVectorStore
    | RetrieveAssistant(assistantId: Option<Id>)
    | CreateAssistant(name: string, model: string, instructions: string, vectorStoreId: Option<Id>)
    | UpdateAssistant(assistantId: Option<Id>, newInstructions: string)
    | DeleteAssistant(assistantId: Option<Id>)
    | CreateThread
    | CreateMessage(threadId: Option<Id>, content: seq<ContentItem>)
    | CreateRun(threadId: Option<Id>, runAssistantId: Option<Id>)
    | RetrieveRun(threadId: Option<Id>, runId: Id)
    | SubmitOutputs(threadId: Option<Id>, runId: Id, outputs: seq<ToolOutput>)
    | CancelRun(threadId: Option<Id>, runId: Id)
    | ListMessages(threadId: Option<Id>)
    | UploadImageFile(data: seq<byte>)
    | UploadToVectorStore(vectorStoreId: Option<Id>, filename: string, data: seq<byte>)
    | RetrieveFile(fileId: Id)
    | DownloadFileContent(fileId: Id)
    | ListVectorStoreFiles(vectorStoreId: Option<Id>)
    | DeleteVectorStoreFile(vectorStoreId: Option<Id>, fileId: Id)
    | ListFiles
    | DeleteFile(fileId: Id)
    | AskFactory(question: string)

  /** What a successful call returns. */
  datatype Payload =
    | Listed(ids: seq<Id>)
    | Created(id: Id)
    | AssistantObject(info: AssistantInfo)
    | RunObject(run: Run)
    | Messages(messages: seq<ThreadMessage>)
    | FileObject(filename: string)
    | Deletion(deleted: bool)
    | Done
    | Http(response: HttpResponse)

  type Reply = Result<Payload, Error>

  /** How an operation ended: it returned a value, it raised an exception,
      or the environment left it without an answer. */
  datatype Outcome<+T> = Returned(value: T) | Threw(error: Error) | Hung

  /** The scripted environment: the replies still to be given, in order.
      Each call takes the first one. */
  type Script = seq<Reply>

  /** How an operation against the script went: its outcome, the calls it
      made in order, and the replies it left unread. */
  datatype Exchange<+T> = Exchange(outcome: Outcome<T>, calls: seq<Call>, rest: Script)

  /** An exchange preceded by calls made earlier. */
  function After<T>(earlier: seq<Call>, e: Exchange<T>): (r: Exchange<T>)
    ensures r.outcome == e.outcome && r.rest == e.rest
    ensures r.calls == earlier + e.calls
  {
    e.(calls := earlier + e.calls)
  }

  /** An exchange that collects a list, preceded by items and calls
      gathered earlier. */
  function Gathered<T>(items: seq<T>, calls: seq<Call>, e: Exchange<seq<T>>): (r: Exchange<seq<T>>)
    ensures r.calls == calls + e.calls && r.rest == e.rest
    ensures r.outcome.Hung? == e.outcome.Hung? && r.outcome.Threw? == e.outcome.Threw?
    ensures e.outcome.Returned? ==> r.outcome == Returned(items + e.outcome.value)
  {
    match e.outcome
    case Returned(more) => Exchange(Returned(items + more), calls + e.calls, e.rest)
    case Threw(err) => Exchange(Threw(err), calls + e.calls, e.rest)
    case Hung => Exchange(Hung, calls + e.calls, e.rest)
  }

  lemma GatheredTwice<T>(i1: seq<T>, c1: seq<Call>, i2: seq<T>, c2: seq<Call>, e: Exchange<seq<T>>)
    ensures Gathered(i1, c1, Gathered(i2, c2, e)) == Gathered(i1 + i2, c1 + c2, e)
  {
    assert c1 + (c2 + e.calls) == c1 + c2 + e.calls;
    if e.outcome.Returned? {
      assert i1 + (i2 + e.outcome.value) == i1 + i2 + e.outcome.value;
    }
  }

  lemma GatheredNothing<T>(e: Exchange<seq<T>>)
    ensures Gathered([], [], e) == e
  {
    assert [] + e.calls == e.calls;
    if e.outcome.Returned? {
      assert [] + e.outcome.value == e.outcome.value;
    }
  }

  /** The reply the next call gets, if the script has one left. */
  function NextReply(script: Script): Option<Reply> {
    if script == [] then None else Some(script[0])
  }

  /** `rest` is what is left of `script` once some replies were read from its front. */
  predicate Suffix(rest: Script, script: Script) {
    |rest| <= |script| && rest == script[|script| - |rest|..]
  }

  lemma SuffixTransitive(a: Script, b: Script, c: Script)
    requires Suffix(a, b) && Suffix(b, c)
    ensures Suffix(a, c)
  {
    assert a == c[|c| - |b|..][|b| - |a|..];
  }

  /** The script after one call. */
  function AfterCall(script: Script): (rest: Script)
    ensures |rest| <= |script|
    ensures script != [] ==> rest == script[1..]
  {
    if script == [] then [] else script[1..]
  }

  /** The reply of a call that lists ids. */
  function AsIds(r: Option<Reply>): Outcome<seq<Id>> {
    match r
    case Some(Ok(Listed(ids))) => Returned(ids)
    case Some(Err(e)) => Threw(e)
    case _ => Hung
  }

  /** The reply of a call that creates an object with an id. */
  function AsId(r: Option<Reply>): Outcome<Id> {
    match r
    case Some(Ok(Created(id))) => Returned(id)
    case Some(Err(e)) => Threw(e)
    case _ => Hung
  }

  function AsAssistant(r: Option<Reply>): Outcome<AssistantInfo> {
    match r
    case Some(Ok(AssistantObject(info))) => Returned(info)
    case Some(Err(e)) => Threw(e)
    case _ => Hung
  }

  function AsRun(r: Option<Reply>): Outcome<Run> {
    match r
    case Some(Ok(RunObject(run))) => Returned(run)
    case Some(Err(e)) => Threw(e)
    case _ => Hung
  }

  function AsMessages(r: Option<Reply>): Outcome<seq<ThreadMessage>> {
    match r
    case Some(Ok(Messages(ms))) => Returned(ms)
    case Some(Err(e)) => Threw(e)
    case _ => Hung
  }

  function AsFilename(r: Option<Reply>): Outcome<string> {
    match r
    case Some(Ok(FileObject(name))) => Returned(name)
    case Some(Err(e)) => Threw(e)
    case _ => Hung
  }

  function AsDeleted(r: Option<Reply>): Outcome<bool> {
    match r
    case Some(Ok(Deletion(d))) => Returned(d)
    case Some(Err(e)) => Threw(e)
    case _ => Hung
  }

  /** The reply of a call whose result is not used. */
  function AsDone(r: Option<Reply>): Outcome<()> {
    match r
    case Some(Ok(Done)) => Returned(())
    case Some(Err(e)) => Threw(e)
    case _ => Hung
  }

  function AsHttp(r: Option<Reply>): Outcome<HttpResponse> {
    match r
    case Some(Ok(Http(resp))) => Returned(resp)
    case Some(Err(e)) => Threw(e)
    case _ => Hung
  }
}
