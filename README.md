# jurac_web chat assistant, modelled in Dafny

This project models the decision logic of the jurac_web chat assistant.
On the backend that is a FastAPI service in front of the OpenAI
Assistants API and a financial question-answering service ("DXA
factory"). On the frontend it is the React hook `useChat`, which posts
messages and reads the streamed answer.

Every remote call is replaced by a scripted environment (module `Remote`):

- A script is the finite sequence of replies the services will give.
- Each call takes the next reply. A reply is either a payload or the
  exception the call raises.
- Every operation reports the calls it made, in order (its trace), and
  how it ended: returned, raised, or `Hung`. `Hung` means the script ran
  out or the reply has the wrong shape: the await never returns, or the
  polling goes on.
- The polling loops therefore terminate on the length of the script.

Properties are stated about three things: the session's three ids, the
events sent, and the call trace.

The modelled parts:

- **Session.** The `Assistant` session object of
  `backend/services/openai.py` holds the vector store id, the assistant id
  and the thread id, filled in lazily. The model covers:
  - `initialize`, which sets all three;
  - `initialize_for_asst`, which never touches the thread;
  - the startup initialiser of `backend/main.py`, which replaces the
    assistant and the thread;
  - the `/initialize-assistant` and `/check-assistant` endpoints of
    `backend/endpoints/assistants.py`.

  The session is a class whose methods update those fields. Each method
  is proved equal to a function of the old fields and the script, and the
  properties are proved about that function.
- **Run state machine.** `poll_run` and `generate_message` (module
  `Runs`):
  - the status is classified;
  - one tool output is built per `call_dxa_factory` call;
  - the outputs are submitted in one batch;
  - the run is cancelled when there is nothing to submit or when an
    exception occurs.
- **Chat endpoint.** Slash-command parsing and content assembly in
  `chat` (module `Chat`).
- **Event stream.** `stream_chat_response` and `stream_single_response`
  (modules `Stream` and `Events`):
  - events are a datatype;
  - their newline-delimited JSON framing is modelled through Python's
    `json.dumps` (module `Json`).
- **File endpoints.** `backend/endpoints/files.py` (module `Files`):
  - the image data URL, with base64 as in section 4 of RFC 4648 (module
    `Base64`), and its round trip with the decoding in `chat`;
  - the file listing, upload and deletions.
- **Browser hook.** `useChat` (module `Client`):
  - `processStream`'s line buffering, proved with a loop invariant over
    arbitrary chunkings;
  - event dispatch;
  - `sendMessage`'s guard, content building and error handling.

Two behaviours of the source are modelled as written:

- In `stream_chat_response`, `tool_outputs` is reset at every function
  tool call. Only the last function call of a polling pass therefore has
  its output submitted (`Stream.OnlyLastOutputSubmitted`).
- A pass that meets no function call before one has been seen raises,
  because `tool_outputs` is still unbound.

## Model

| member | source | states |
|---|---|---|
| Common.Strip | backend/endpoints/chat.py:37 | `str.strip()`: no longer than the text, empty exactly when the text is all whitespace, and otherwise neither end is whitespace |
| Common.StripSlice | backend/endpoints/chat.py:37 | the stripped text is a contiguous slice `s[i..j]` of the text, with only whitespace before `i` and after `j` |
| Common.Lower | backend/endpoints/chat.py:38 | `str.lower()`: same length, each character lowered |
| Common.Split | frontend/src/hooks/useChat.ts:26 | `split` on one separator: at least one part, no part holds the separator, and joining the parts with it gives the text back |
| Common.SplitNoSeparator | backend/endpoints/chat.py:110 | a text without the separator splits into itself alone |
| Common.SplitJoin | backend/endpoints/chat.py:110 | splitting a join of separator-free parts gives those parts back |
| Common.SplitTerminated | frontend/src/hooks/useChat.ts:26-27 | lines each terminated by the separator, then a separator-free remainder, split into those lines followed by the remainder (what `pop()` keeps) |
| Common.NatToStringValue | backend/services/openai.py:64 | the decimal text of a status code reads back as that code |
| Session.ServerError | backend/endpoints/files.py:34-36 | an exception becomes a 500 response |
| Session.EnsureVectorStore | backend/services/openai.py:93-105 | a set vector store makes no call and changes nothing; otherwise the stores are listed first, and the first listed store is adopted with no further call; a store is created only after an empty listing; the assistant and thread ids are never touched; an exception changes nothing |
| Session.AdoptConfigured | backend/services/openai.py:108-119 | without a configured id nothing happens; otherwise exactly one retrieve, whose success adopts the id and whose failure clears the assistant id; never raises; the other ids are never touched |
| Session.CreateNewAssistant | backend/services/openai.py:122-132 | exactly one create call, named "Assistant", with model gpt-4o, the session instructions and the current vector store; success stores the new id; an exception propagates with nothing changed |
| Session.EnsureAssistant | backend/services/openai.py:108-132 | a set assistant id makes no call; a failed retrieve of the configured id is followed by exactly one create; a successful one adopts its id without a create; success leaves an assistant id set |
| Session.EnsureThread | backend/services/openai.py:135-139 | a set thread makes no call; otherwise exactly one create: a created thread's id becomes the thread id, a raised exception propagates, and when the step does not return no id changes; the other ids are never touched |
| Session.Initialization | backend/services/openai.py:90-143 | a set id is never changed; with all three set there is no call and no change (idempotence); success leaves all three set; every assistant created is bound to the final vector store; a thread is created only when none was set |
| Session.AsstInitialization | backend/services/openai.py:318-362 | the thread id is never changed and no thread is created; set ids are kept; with the store and assistant set there is no call; success leaves both set |
| Session.Assistant.constructor | backend/services/openai.py:75-88 | all three ids unset, instructions read from the file or the default text |
| Session.Assistant.SetUpVectorStore | backend/services/openai.py:93-105 | the new fields, calls and outcome are those of `EnsureVectorStore` on the old fields |
| Session.Assistant.SetUpAssistant | backend/services/openai.py:108-132 | the new fields, calls and outcome are those of `EnsureAssistant` on the old fields |
| Session.Assistant.SetUpThread | backend/services/openai.py:135-139 | the new fields, calls and outcome are those of `EnsureThread` on the old fields |
| Session.Assistant.Initialize | backend/services/openai.py:90-143 | the new fields, calls and outcome are those of `Initialization` on the old fields |
| Session.Assistant.InitializeForAsst | backend/services/openai.py:318-362 | the new fields, calls and outcome are those of `AsstInitialization` on the old fields |
| Startup.DropAssistant | backend/main.py:37-44 | a set assistant id is deleted and then cleared, whether the delete succeeds or raises; never raises; an unset one makes no call |
| Startup.ReplaceThread | backend/main.py:58-61 | exactly one thread creation, which overwrites the thread id on success; the other ids are never touched |
| Startup.StartupInitialization | backend/main.py:22-66 | a set vector store is kept; with a store set, a set assistant is deleted first; success ends with an assistant created for the final store and then a thread, all three ids set; an exception from the create propagates with the assistant id cleared; full success overwrites the assistant and thread ids with the new ones |
| Startup.DropSessionAssistant | backend/main.py:37-44 | the session object moves as `DropAssistant` says |
| Startup.CreateSessionAssistant | backend/main.py:47-56 | the session object moves as `CreateNewAssistant` says |
| Startup.ReplaceSessionThread | backend/main.py:58-61 | the session object moves as `ReplaceThread` says |
| Startup.InitializeOnStartup | backend/main.py:22-66 | the session object moves as `StartupInitialization` says |
| Factory.Answer | backend/services/openai.py:60-67 | an error status (400-599) returns text starting "request failed. status: " instead of raising; otherwise a string content is returned as is, a `null` content is returned as the empty answer (the source's `None`, which both callers treat as "no answer"), and a body that is not JSON or lacks the content path raises |
| Factory.IsHttpError | backend/services/openai.py:61 | the statuses `raise_for_status` rejects: exactly the 4xx and 5xx classes |
| Factory.FailureTextCarriesStatus | backend/services/openai.py:64 | the failure text is the prefix followed by decimal digits that read back as the status code |
| Factory.Ask | backend/services/openai.py:45-71 | exactly one call to the service; a transport exception propagates; a response is answered as `Answer` says |
| Assistants.TryReuse | backend/endpoints/assistants.py:17-34 | the retrieve comes first; a reuse also creates a thread; a failed retrieve raises after that one call |
| Assistants.CreateForStore | backend/endpoints/assistants.py:36-61 | never raises; creates a "Web Assistant" bound to the requested store; success makes exactly the create and thread calls and stores the new assistant id and the requested store; otherwise nothing changes |
| Assistants.AssistantInitialization | backend/endpoints/assistants.py:7-61 | never raises; the thread id is never touched; a missing vector store id is answered 500 "400: Missing vector_store_id" before any call; without success the vector store id is unchanged |
| Assistants.AssistantInitializationReuses | backend/endpoints/assistants.py:17-31 | a retrievable session assistant is reused with a new thread, `reused` true, and the session unchanged |
| Assistants.AssistantInitializationReplaces | backend/endpoints/assistants.py:32-44 | a failed retrieve is followed by a create, and the stale id is cleared unless the new one is stored |
| Assistants.AssistantInitializationCreatesForStore | backend/endpoints/assistants.py:38-44 | every assistant created is a "Web Assistant" bound to the requested store |
| Assistants.AssistantInitializationSuccess | backend/endpoints/assistants.py:17-58 | a success names the requested store; a reuse leaves the session unchanged; a creation changes only the assistant id and the vector store id |
| Assistants.AssistantCheck | backend/endpoints/assistants.py:64-80 | never raises; only the assistant id can change, and only to None; no call without an id; the id is returned exactly when the retrieve succeeds, and a failed retrieve clears it and answers None |
| Assistants.CreateSessionAssistant | backend/endpoints/assistants.py:36-51 | the session object moves as `CreateForStore` says |
| Assistants.InitializeAssistant | backend/endpoints/assistants.py:7-61 | the session object moves as `AssistantInitialization` says |
| Assistants.CheckAssistant | backend/endpoints/assistants.py:64-80 | the session object moves as `AssistantCheck` says |
| Files.ImageType | backend/endpoints/files.py:129-136 | png, gif or webp exactly for a case-insensitive `.png`, `.gif` or `.webp` suffix (checked in that order), jpeg otherwise |
| Files.DataUrlHeader | backend/endpoints/files.py:139 | the header holds no comma |
| Files.DataUrl | backend/endpoints/files.py:126-139 | the URL is `data:image/<type>;base64,` followed by the base64 of the bytes |
| Files.DataUrlParts | backend/endpoints/chat.py:110-112 | splitting the URL on commas gives the header and the payload, and decoding the payload gives the original bytes back |
| Files.Kept | backend/endpoints/files.py:22-33 | at most one entry per listed file |
| Files.KeptComplete | backend/endpoints/files.py:24-29 | every file whose lookup succeeded is listed with its name |
| Files.KeptSound | backend/endpoints/files.py:24-31 | every listed entry is a file whose lookup succeeded, with that lookup's name |
| Files.KeptAll | backend/endpoints/files.py:22-33 | when every lookup succeeds, the entries are the files in order |
| Files.Lookups | backend/endpoints/files.py:22-33 | a failed lookup never raises; no files means no call |
| Files.LookupsResult | backend/endpoints/files.py:22-33 | one retrieve per file, in order; on completion, one reply per file and the kept entries of those replies |
| Files.LookupsStep | backend/endpoints/files.py:23-31 | one pass of the loop is a lookup followed by the lookups of the remaining files |
| Files.LookupsLookUpListed | backend/endpoints/files.py:23-29 | every listed entry's file was looked up |
| Files.LookUpFiles | backend/endpoints/files.py:22-33 | the loop computes `Lookups` |
| Files.FileListing | backend/endpoints/files.py:9-36 | never raises; the session is initialised only when it has no vector store; a failed listing is a 500; a success listed the store and looked up every entry it returns |
| Files.FileListingKept | backend/endpoints/files.py:9-36 | a successful listing is exactly the entries of one listing reply whose lookups succeeded, in order; with the store already set, it is those of the first reply |
| Files.FileUpload | backend/endpoints/files.py:101-117 | never raises; initialises only without a vector store; a success ends with the upload to the session's store |
| Files.FileDeletion | backend/endpoints/files.py:39-56 | deletes from the vector store and then from the file store; succeeds exactly when both report deleted; a refused deletion is the 400 answered as 500; an exception is a 500 |
| Files.DeletionCalls | backend/endpoints/files.py:65-74 | one deletion per file, in order |
| Files.DeleteEach | backend/endpoints/files.py:65-74 | no files means no call |
| Files.DeleteEachCalls | backend/endpoints/files.py:65-74 | the deletions made are a prefix of the listing's deletions, in order |
| Files.DeleteEachReturned | backend/endpoints/files.py:65-74 | a loop that completes deleted every file, one reply each |
| Files.DeleteEachCompletes | backend/endpoints/files.py:65-74 | the loop completes when every deletion replies |
| Files.DeleteEachStep | backend/endpoints/files.py:65-74 | one pass is a deletion followed by the deletions of the remaining files |
| Files.DeleteAll | backend/endpoints/files.py:60-79 | never raises; a success listed the vector store, deleted every file in it, listed the file store, and deleted every file in it, in that order |
| Files.DeleteEvery | backend/endpoints/files.py:65-74 | the loop computes `DeleteEach` |
| Files.DeleteAllFiles | backend/endpoints/files.py:60-79 | computes `DeleteAll` for the session's vector store |
| Files.ListFilesOf | backend/endpoints/files.py:9-36 | the session object moves as `FileListing` says |
| Files.UploadFile | backend/endpoints/files.py:101-117 | the session object moves as `FileUpload` says |
| Runs.Poll | backend/services/openai.py:190-201 | only retrieves; every reply before the last is a pending status; a returned run is completed or requires action; a failed, cancelled or expired status raises "Run failed with status: ..." |
| Runs.PollRun | backend/services/openai.py:190-201 | the `while True` loop computes `Poll` |
| Runs.DxaCalls | backend/services/openai.py:243-247 | the function-typed `call_dxa_factory` calls, in order |
| Runs.OutputFor | backend/services/openai.py:243-265 | an output exactly for a function-typed `call_dxa_factory` call, carrying its id and never empty; unparseable arguments or an exception give the fixed error text; a question is asked once, and when the service replies its answer is the output, the apology when that answer is empty or `null`, and the fixed error text when the reply is not a readable answer; it reads only a suffix of the replies |
| Runs.ToolOutputs | backend/services/openai.py:240-265 | never raises; only calls the financial service |
| Runs.ToolOutputsMatchDxaCalls | backend/services/openai.py:240-265 | exactly one output per `call_dxa_factory` call, in call order: output i carries call i's id, is not empty, and is what `OutputFor` gives for call i on the replies left after the earlier calls were answered |
| Runs.BuildToolOutputs | backend/services/openai.py:240-265 | the loop computes `ToolOutputs` |
| Runs.CancelThenRaise | backend/services/openai.py:294-304 | one cancel, then the original exception is raised, even when the cancel itself fails; it raises nothing but that exception |
| Runs.CancelThenReturn | backend/services/openai.py:224-238 | cancels the run and then returns the run it was given; when it raises, the exception is the cancel's own |
| Runs.Submit | backend/services/openai.py:267-284 | all outputs in one submission, which returns only when that submission succeeded; a failed submission is followed by one cancel and re-raised, or the cancel's exception is raised when the cancel fails too; any exception raised is one of those two replies |
| Runs.Respond | backend/services/openai.py:219-292 | a run without a required action polls again with no call; a cycle that continues ends with a submission |
| Runs.RespondSuffix | backend/services/openai.py:219-292 | a cycle reads replies only from the front of the script: what it leaves is a suffix of it |
| Runs.RespondCalls | backend/services/openai.py:219-292 | a cycle only asks the service, submits or cancels, for this run |
| Runs.RespondOutcomes | backend/services/openai.py:222-292 | a cycle that ends returns the run it was given, and unless the script ran out its last call cancels the run |
| Runs.RespondSubmits | backend/services/openai.py:240-284 | a cycle that goes on made exactly one submission: the run's tool calls were read, the non-empty outputs built for them were submitted in one call right after the financial-service requests, and that submission succeeded |
| Runs.RespondRaisesFromScript | backend/services/openai.py:222-292 | the exception a cycle raises is one a reply raised: the submission's or a cancel's |
| Runs.Generate | backend/services/openai.py:203-304 | `generate_message` as a function of the script; it never reads more replies than the script holds (its properties are the three lemmas below) |
| Runs.GenerateCalls | backend/services/openai.py:203-304 | starts with a retrieve and makes only calls on this run |
| Runs.GenerateReturns | backend/services/openai.py:203-292 | returns only a settled run: a completed run right after the retrieve that saw it, or a run requiring action right after cancelling it |
| Runs.GenerateRaises | backend/services/openai.py:294-304 | whenever it raises, its last call cancelled the run, and the exception raised is the original one from a reply (a failed retrieve, a failed run's status, a failed submission or a failed cancel), never a new one |
| Runs.RespondToAction | backend/services/openai.py:219-292 | computes `Respond` |
| Runs.GenerateCycle | backend/services/openai.py:205-292 | one pass of the loop, related to `Generate` |
| Runs.GenerateMessage | backend/services/openai.py:203-304 | the `while True` loop computes `Generate` |
| Json.PrintableConcat | backend/endpoints/chat.py:162-165 | printable ASCII texts concatenate to printable ASCII |
| Json.PrintableHasNoLineFeed | backend/endpoints/chat.py:162-165 | printable ASCII holds no line feed |
| Json.HexDigit | backend/endpoints/chat.py:162-165 | a lower-case hexadecimal digit |
| Json.Hex4 | backend/endpoints/chat.py:162-165 | four printable characters |
| Json.EscapeChar | backend/endpoints/chat.py:162-165 | `json.dumps` with `ensure_ascii`: a printable character other than a quote or backslash is kept; every escape is printable |
| Json.EscapeChars | backend/endpoints/chat.py:162-165 | escaped text is printable and no shorter |
| Json.Quote | backend/endpoints/chat.py:162-165 | a quoted string: printable, between double quotes |
| Json.Encode | backend/endpoints/chat.py:162-165 | every encoded value is non-empty printable ASCII, and an object is written between braces |
| Json.EncodeItems | backend/endpoints/chat.py:280 | array items are printable |
| Json.EncodeMembers | backend/endpoints/chat.py:280 | object members are printable |
| Events.ZeroUsageComplete | backend/endpoints/chat.py:301-311 | a complete event with all three token counts 0 and no files |
| Events.FilesJson | backend/endpoints/chat.py:277 | one JSON value per downloaded file |
| Events.ToJson | backend/endpoints/chat.py:162-165 | every event is a JSON object |
| Events.Frame | backend/endpoints/chat.py:162-165 | an event is written as one JSON object followed by a single line feed, and the object's text holds no line feed |
| Events.Lines | backend/endpoints/chat.py:159-311 | one line per event, in order |
| Events.FramesAreLines | backend/endpoints/chat.py:159-311 | the stream's text is the events' lines, each terminated by a line feed, and no line holds one |
| Events.StreamSplitsIntoLines | backend/endpoints/chat.py:159-311 | splitting the stream on line feeds gives the events' lines followed by an empty remainder |
| Events.SingleResponse | backend/endpoints/chat.py:314-333 | exactly two events: thinking "Processing command...", then a complete event with the text and zero usage |
| Events.SingleResponseIsTwoLines | backend/endpoints/chat.py:314-333 | its text splits into exactly those two lines and an empty remainder |
| Base64.ValueOfCharOf | backend/endpoints/files.py:127 | every 6-bit value's character decodes back to it, and is neither `=` nor a comma |
| Base64.EncodeGroup | backend/endpoints/files.py:127 | four alphabet characters, padded with `=` exactly for a short last group |
| Base64.Encode | backend/endpoints/files.py:127 | length 4 * ceil(n / 3), only alphabet and padding characters, no comma |
| Base64.DecodeGroup | backend/endpoints/chat.py:112 | one to three bytes, fewer only in the last group |
| Base64.GroupRoundTrip | backend/endpoints/chat.py:112 | decoding an encoded group gives its bytes back |
| Base64.DecodeEncode | backend/endpoints/chat.py:112 | decoding the base64 of any bytes gives the bytes back |
| Stream.ErrorEvent | backend/endpoints/chat.py:299-311 | a complete event with text "Error: " followed by the exception's text, zero usage and no files |
| Stream.HandleTools | backend/endpoints/chat.py:190-213 | a pass over the tool calls reads no more replies than the script holds |
| Stream.Announcements | backend/endpoints/chat.py:190-196 | only function-call events, at most one per tool call |
| Stream.LastFunction | backend/endpoints/chat.py:190-213 | the last function-typed tool call, which is None exactly when there is none |
| Stream.HandleToolsAnnounces | backend/endpoints/chat.py:190-196 | a pass emits one function-call event per function tool call, in order, and only asks the financial service |
| Stream.HandleToolsPending | backend/endpoints/chat.py:199-213 | after a pass, `tool_outputs` holds only what the last function call left: one output with its id and a non-empty text exactly when it is a `call_dxa_factory` call; it is unchanged when there is no function call |
| Stream.OnlyLastOutputSubmitted | backend/endpoints/chat.py:199-221 | with two financial-service calls, both are asked, but only the second one's output is left to submit |
| Stream.Act | backend/endpoints/chat.py:188-221 | the `requires_action` branch reads no more replies than the script holds |
| Stream.Submission | backend/endpoints/chat.py:215-221 | the submission step reads no more replies than it is given |
| Stream.SubmissionShape | backend/endpoints/chat.py:215-221 | a submission carries exactly one output, and an ending stream is well formed |
| Stream.ActShape | backend/endpoints/chat.py:188-221 | the branch emits only function-call events and submits single outputs |
| Stream.FirstAssistant | backend/endpoints/chat.py:228 | the first message with the assistant role, which is None exactly when there is none |
| Stream.TextOfAppend | backend/endpoints/chat.py:234-236 | the answer text grows block by block: one more block adds its own text at the end |
| Stream.TextOf | backend/endpoints/chat.py:234-236 | no text block gives the empty answer; the answer starts with the first block's text when that block is text |
| Stream.FileIdsOfAppend | backend/endpoints/chat.py:234-242 | the file ids grow block by block: one more block adds its own ids at the end |
| Stream.FileIdsOf | backend/endpoints/chat.py:234-242 | every image file block's id is to be downloaded; a message of image URLs only names no file |
| Stream.AnnotatedFilesAppend | backend/endpoints/chat.py:238-240 | annotation file ids are collected in order |
| Stream.AnnotatedFilesNamed | backend/endpoints/chat.py:238-240 | an id is collected exactly when a `file_path` annotation names it |
| Stream.AnnotatedFiles | backend/endpoints/chat.py:238-240 | at most one id per annotation, and every id collected is named by a `file_path` annotation |
| Stream.FileIdsNamed | backend/endpoints/chat.py:234-242 | an id is collected exactly when a text block's `file_path` annotation or an `image_file` block names it |
| Stream.PathFor | backend/endpoints/chat.py:256 | `os.path.join("./downloaded_files", name)`: ends with the name; an absolute name replaces the directory |
| Stream.Download | backend/endpoints/chat.py:246-266 | never raises; retrieves first; a failed download is dropped; a kept one is written under its own name |
| Stream.Downloads | backend/endpoints/chat.py:245-266 | never raises, whichever downloads fail |
| Stream.DownloadsSound | backend/endpoints/chat.py:245-266 | every file kept was asked for, fetched, and has its path; the ids kept are the ids asked for with the failed ones dropped, in order |
| Stream.DownloadsComplete | backend/endpoints/chat.py:245-266 | when every download succeeds, every file asked for is kept, in order, each with its path |
| Stream.DownloadsCalls | backend/endpoints/chat.py:245-266 | only file retrieves and content downloads |
| Stream.Completion | backend/endpoints/chat.py:223-281 | the completed branch reads no more replies than the script holds |
| Stream.CompletionShape | backend/endpoints/chat.py:223-281 | the branch is well formed: one complete event ends the stream, unless no assistant message exists, when it ends right after listing the messages |
| Stream.CompletionAnswers | backend/endpoints/chat.py:223-281 | the complete text is the first assistant message's text, with the run's usage; the files listed are, in order, some of the ids that message names, each downloaded and written under its own name, and all of them when every download succeeds |
| Stream.Polling | backend/endpoints/chat.py:182-297 | the polling loop reads no more replies than the script holds |
| Stream.PollingShape | backend/endpoints/chat.py:182-297 | the loop yields only function-call events until one complete event ends it (an error one for a failed run or an exception), and every submission carries one output |
| Stream.PollingErrors | backend/endpoints/chat.py:182-310 | a raising retrieve ends the loop with that exception after one call; a failed, cancelled or expired run yields exactly one "Error: Run failed with status <status>" event; every complete event without files that ends the loop is an error event with "Error: " text and zero usage |
| Stream.SubmissionErrors | backend/endpoints/chat.py:215-221 | a submission that ends the stream ends it with an error event; one that goes on has yielded only function-call events |
| Stream.ActErrors | backend/endpoints/chat.py:188-221 | answering a required action ends the stream only with an error event, and otherwise yields only function-call events |
| Stream.CompletionErrors | backend/endpoints/chat.py:223-281 | the completed branch never ends with a file-less complete event unless it is an error event |
| Stream.ChatStream | backend/endpoints/chat.py:159-311 | the first event is the thinking event and the first call posts the user's message |
| Stream.Started | backend/endpoints/chat.py:167-180 | the message is posted before the run is started |
| Stream.ChatStreamShape | backend/endpoints/chat.py:159-311 | after the thinking event, only function-call events until exactly one complete event closes the stream, unless there is no assistant message; every submission carries exactly one output |
| Stream.ChatStreamErrors | backend/endpoints/chat.py:159-311 | every exception raised inside the stream, and every failed run, ends it with one complete event whose text starts "Error: ", with zero usage and no files, and no event follows it |
| Stream.StartedShape | backend/endpoints/chat.py:167-297 | what follows the thinking event is well formed |
| Stream.HandleToolCalls | backend/endpoints/chat.py:190-213 | the loop computes `HandleTools` |
| Stream.AnnotatedFileIds | backend/endpoints/chat.py:238-240 | the loop computes `AnnotatedFiles` |
| Stream.CollectContent | backend/endpoints/chat.py:231-242 | the loop accumulates `TextOf` and `FileIdsOf` |
| Stream.DownloadFiles | backend/endpoints/chat.py:245-266 | the loop computes `Downloads` |
| Stream.RespondToAction | backend/endpoints/chat.py:188-221 | computes `Act` |
| Stream.SubmitPending | backend/endpoints/chat.py:215-221 | computes `Submission` |
| Stream.CompleteRun | backend/endpoints/chat.py:223-281 | computes `Completion` |
| Stream.StreamCycle | backend/endpoints/chat.py:182-297 | one pass of the loop, related to `Polling` |
| Stream.PollStream | backend/endpoints/chat.py:182-297 | the `while True` loop computes `Polling` |
| Stream.StartStream | backend/endpoints/chat.py:167-180 | computes `Started` |
| Stream.StreamChatResponse | backend/endpoints/chat.py:159-311 | computes `ChatStream` |
| Chat.CommaJoined | backend/endpoints/chat.py:53 | the tool types joined with ", ": empty for no tools, starting with the first type and ending with the last, with ", " after the first when there are several |
| Chat.InfoText | backend/endpoints/chat.py:46-55 | starts with the heading and the assistant's id; ends with the session's vector store id |
| Chat.AsstAnswer | backend/endpoints/chat.py:41-66 | `/asst` never creates a thread or changes the thread id; set ids are kept; it answers with a single response that starts with the information heading or with "Error: " |
| Chat.Ensured | backend/endpoints/chat.py:77-78 | initialises only without an assistant; never touches the thread |
| Chat.InstAnswer | backend/endpoints/chat.py:68-99 | `/inst` never creates or changes the thread; empty instructions are refused with no call; the answer is a single response |
| Chat.InstAnswerUpdates | backend/endpoints/chat.py:77-93 | with an assistant set, one update with the new instructions, answered with the instructions the service holds |
| Chat.InstructionsNotEmpty | backend/endpoints/chat.py:37-75 | after the strip at line 37, a text that starts with `/inst ` has non-blank instructions, so the empty-instructions branch cannot be taken |
| Chat.Converted | backend/endpoints/chat.py:105-137 | an `image_url` item becomes an `image_file` item after at most one upload; any other item passes unchanged with no call |
| Chat.ConvertedDataUrl | backend/endpoints/chat.py:108-135 | a data URL from `upload_image` uploads exactly the encoded bytes and becomes an `image_file` item with the new id |
| Chat.ConvertedNeedsComma | backend/endpoints/chat.py:110 | a URL without a comma raises before any upload |
| Chat.Assembled | backend/endpoints/chat.py:104-137 | the conversion loop reads no more replies than the script holds |
| Chat.AssembledInOrder | backend/endpoints/chat.py:104-137 | one item per request item, in order, each corresponding to its own; only uploads, at most one per item |
| Chat.AssembledWithoutImages | backend/endpoints/chat.py:104-137 | a request without images is passed on unchanged with no call |
| Chat.AssembledStep | backend/endpoints/chat.py:105-137 | one pass of the loop is a conversion followed by the rest |
| Chat.Prepared | backend/endpoints/chat.py:30-31 | initialises only when the thread or the assistant is unset; set ids are kept; success leaves both set |
| Chat.MessageAnswer | backend/endpoints/chat.py:101-143 | the session is unchanged; the answer is the stream or a JSON error |
| Chat.MessageAnswerContent | backend/endpoints/chat.py:101-143 | the message's content is the first items, then one item per request item in order; it runs on the session's thread and assistant |
| Chat.Parsed | backend/endpoints/chat.py:36-101 | `/asst` exactly when the stripped, lowered text is `/asst`; `/inst` exactly when it otherwise starts with `/inst `, with the stripped remainder, which is never empty; otherwise a message whose first item is the stripped text whenever the text is not empty |
| Chat.Dispatched | backend/endpoints/chat.py:36-143 | the thread is never changed, and set ids are kept |
| Chat.ChatRequest | backend/endpoints/chat.py:27-156 | set ids are never changed |
| Chat.AsstNeverStreams | backend/endpoints/chat.py:41-66 | `/asst`, in any case and with surrounding whitespace, never reaches the run |
| Chat.InstParsed | backend/endpoints/chat.py:41-68 | a text starting with `/inst ` is the `/inst` command |
| Chat.InstUpdates | backend/endpoints/chat.py:68-93 | `/inst <text>` with an initialised session makes exactly the update with the stripped instructions and answers with the new instructions |
| Chat.MessageRouted | backend/endpoints/chat.py:36-101 | after initialisation, a text that is no command is answered as a message headed by the stripped text |
| Chat.MessageContent | backend/endpoints/chat.py:101-143 | a text that is no command is sent stripped, first, then the request's items in order, on the session's thread and assistant |
| Chat.BareInstIsText | backend/endpoints/chat.py:37-101 | a bare `/inst` is sent to the assistant as ordinary text |
| Chat.RunAsstCommand | backend/endpoints/chat.py:41-66 | the session object moves as `AsstAnswer` says |
| Chat.RunInstCommand | backend/endpoints/chat.py:68-99 | the session object moves as `InstAnswer` says |
| Chat.ConvertItem | backend/endpoints/chat.py:105-137 | computes `Converted` |
| Chat.AssembleContent | backend/endpoints/chat.py:104-137 | the loop computes `Assembled` |
| Chat.Dispatch | backend/endpoints/chat.py:36-143 | the session object moves as `Dispatched` says |
| Chat.HandleChat | backend/endpoints/chat.py:27-156 | the session object moves as `ChatRequest` says |
| Client.AnswerMessage | frontend/src/hooks/useChat.ts:49-55 | an answer is not the user's and has no images |
| Client.Applied | frontend/src/hooks/useChat.ts:34-57 | `complete` appends exactly one answer; `thinking` and `function_call` only set the thinking text; types other than these and `dxa_factory` change nothing; earlier messages are kept |
| Client.HandleLine | frontend/src/hooks/useChat.ts:30-62 | a blank line or one that does not parse changes nothing; otherwise the line is applied as its event; shown messages are kept and at most one is added |
| Client.HandleLines | frontend/src/hooks/useChat.ts:29-63 | shown messages are kept, at most one is added per line, and blank lines change nothing |
| Client.Processed | frontend/src/hooks/useChat.ts:13-68 | a response without a body changes nothing; shown messages are kept; a stream whose chunks hold no line feed completes no line and changes nothing |
| Client.HandleLinesAppend | frontend/src/hooks/useChat.ts:29-63 | handling two batches of lines is handling them together |
| Client.CompleteLines | frontend/src/hooks/useChat.ts:25-27 | line-feed-free lines which, each terminated, are a prefix of the text |
| Client.BufferStep | frontend/src/hooks/useChat.ts:25-27 | after a chunk, the lines handled, each terminated, followed by the buffer, are all the text read, and the buffer holds no line feed |
| Client.CompleteLinesOf | frontend/src/hooks/useChat.ts:21-27 | at the end, the lines handled are the complete lines of the text |
| Client.ProcessedFrom | frontend/src/hooks/useChat.ts:21-27 | the invariant at the end of the read loop gives the state `Processed` describes |
| Client.Decoded | frontend/src/hooks/useChat.ts:33-34 | a backend event is read back with its type and data |
| Client.Answers | frontend/src/hooks/useChat.ts:46-55 | at most one answer per event |
| Client.ApplyAllAnswers | frontend/src/hooks/useChat.ts:46-55 | applying events appends exactly their answers |
| Client.HandledAsEvents | frontend/src/hooks/useChat.ts:29-63 | lines each handled as their own event are handled as the events in order |
| Client.LinesAreEvents | frontend/src/hooks/useChat.ts:29-63 | the backend's lines are handled as the events they encode |
| Client.EventLine | frontend/src/hooks/useChat.ts:30-33 | a backend line is never blank and is handled as its event |
| Client.StreamShowsAnswers | frontend/src/hooks/useChat.ts:13-68 | however the stream is cut into chunks, the hook shows exactly the answers of its complete events, in order |
| Client.SingleResponseShown | frontend/src/hooks/useChat.ts:34-56 | a command's answer shows its text with zero usage and leaves "Processing command..." as the thinking text |
| Client.Uploaded | frontend/src/hooks/useChat.ts:80-100 | every URL in order, or None exactly when some upload fails |
| Client.PostedContent | frontend/src/hooks/useChat.ts:103-119 | a text item exactly when the trimmed input is not empty, first; then one `image_url` item per URL, in order, with the chosen detail |
| Client.AttemptDelivers | frontend/src/hooks/useChat.ts:73-150 | with every upload done, the attempt is the delivery, with the error message when it throws |
| Client.Sent | frontend/src/hooks/useChat.ts:70-155 | ignored when there is nothing to send or an answer is loading; otherwise loading ends with the thinking text reset, whatever happened |
| Client.Ignored | frontend/src/hooks/useChat.ts:71 | a send is ignored exactly when an answer is loading or both the trimmed input and the image list are empty |
| Client.Delivered | frontend/src/hooks/useChat.ts:121-150 | input and images are cleared, loading and detail kept; the screen shows the earlier messages, then the user's message (trimmed input and images), then whatever the stream adds; the attempt raises exactly when the post is refused or its body breaks, and a refused post shows exactly the user's message added |
| Client.Attempted | frontend/src/hooks/useChat.ts:73-150 | loading and detail kept; at least one message is added and the earlier ones kept; a failed upload adds only the error message and keeps input and images; otherwise the next message is the user's and input and images are cleared |
| Client.UploadFailureKeepsInput | frontend/src/hooks/useChat.ts:80-150 | a failed upload appends only the error message and keeps the input and the images |
| Client.RefusedPostShowsError | frontend/src/hooks/useChat.ts:121-150 | a refused post shows the user's message and then exactly one error message, and clears the input and the images |
| Client.SendShowsAnswers | frontend/src/hooks/useChat.ts:70-155 | a whole stream shows the user's message followed by exactly the answers of the stream's complete events |
| Client.ChatHook.constructor | frontend/src/hooks/useChat.ts:5-11 | no messages, empty input, not loading, no images, detail "auto", thinking text "Thinking..." |
| Client.ChatHook.Apply | frontend/src/hooks/useChat.ts:34-57 | the state moves as `Applied` says |
| Client.ChatHook.HandleBatch | frontend/src/hooks/useChat.ts:29-63 | the state moves as `HandleLines` says |
| Client.ChatHook.Receive | frontend/src/hooks/useChat.ts:25-29 | keeps the buffer invariant: the lines handled, terminated, followed by the new buffer, are the text read |
| Client.ChatHook.ProcessStream | frontend/src/hooks/useChat.ts:13-68 | the read loop leaves the state `Processed` describes, and throws exactly when the read fails |
| Client.ChatHook.BuildContent | frontend/src/hooks/useChat.ts:103-119 | computes `PostedContent` |
| Client.ChatHook.Deliver | frontend/src/hooks/useChat.ts:121-144 | the state moves as `Delivered` says |
| Client.ChatHook.ShowError | frontend/src/hooks/useChat.ts:145-150 | appends the error message |
| Client.ChatHook.Attempt | frontend/src/hooks/useChat.ts:73-150 | the state moves as `Attempted` says |
| Client.ChatHook.SendMessage | frontend/src/hooks/useChat.ts:70-155 | the state moves as `Sent` says |

## Left out

- Remote services: the OpenAI SDK, `requests.post` to the financial
  service, and `fetch` in the browser are scripted replies or oracle
  functions, not I/O. HTTP transport, `asyncio.sleep`, logging and
  environment loading are left out.
- `ASSISTANT_ID` is a parameter (`configured`).
- Concurrency: requests race on the shared global session. The model has
  one sequential caller.
- `get_response` (backend/services/openai.py:145-188) has no caller among
  the modelled endpoints and is not part of this model.
- `upload_file_to_vector_store` (backend/services/openai.py:306-316) is one
  scripted call, `UploadToVectorStore`.
- `download_file` (backend/endpoints/files.py:83-98) only passes a remote
  result through and is not part of this model. Neither are the vector
  store and system information endpoints.
- Filesystem effects are left out:
  - the temporary image file written and removed in `chat`;
  - the downloaded files written under `./downloaded_files`.

  A downloaded file is recorded with its path.
- JSON parsing is not modelled as text:
  - In the browser, `JSON.parse` and the reads of `type` and `data` are
    the oracle `parse`.
  - Client.LinesAreEvents, Client.StreamShowsAnswers and
    Client.SendShowsAnswers require that `parse` reads back every line the
    backend writes (`ReadsBack`). They do not prove that this holds of
    `JSON.parse`.
  - The arguments of a tool call are given already parsed, or marked as
    unparseable.
- `TextDecoder` is not modelled: the answer's body arrives as decoded text
  chunks.
- Common.Strip removes only space, tab, line feed, vertical tab, form feed
  and carriage return. Python's `str.strip()` also removes the separators
  \x1c-\x1f and Unicode whitespace such as \x85 and \xa0. JavaScript's
  `trim()` removes Unicode whitespace and line terminators, but not
  \x1c-\x1f.
- Common.Lower lower-cases ASCII letters only. Python applies Unicode case
  rules.
- Base64.Decode is strict: it accepts only alphabet characters with
  padding in the last group. Python's `b64decode` discards characters
  outside the alphabet. The round trip is unaffected. Every failed decode
  raises the one fixed text "Incorrect padding".
- Stream.Download: the text of an exception is dropped along with the
  download, as in the source. The file write is left out, as described
  above.
- Json.Encode states that its output is printable ASCII between braces,
  which is what the line framing needs. It does not state that the text
  parses back. Numbers are natural numbers only.
- Session.Assistant.constructor: reading `instructions.yaml` is the
  parameter `instructionsFile`. A missing file gives the default
  instructions; other read errors are left out.
- Runs.Poll, Runs.Generate and Stream.Polling: a run that never settles
  polls until the script runs out, and is then `Hung`. Nothing is said
  about the source's unbounded polling.
- The React state setters are applied in program order. React's batching
  and re-rendering are left out.
- `dxaResponse` is kept in the state, but `console.log` is not modelled.
- Factory.Answer: the content of the service's JSON answer is a string,
  `null` or missing. A content of another JSON type (a number, a list) is
  not modelled.
