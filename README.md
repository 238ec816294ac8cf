# AIVO Brain research pipeline — a Dafny model

This project models the research-request pipeline of AIVO Brain. A client with an API key submits documents, a search query, a mode flag and a model name. The controller validates the submission, stores the documents and a queued request, and enqueues one job. The queue worker runs the orchestrator. The orchestrator searches each document through the chosen provider handler, records progress after each document, then summarises, archives and deletes the request. A failed run marks the request `failed`.

Modules, one per source file:

- `Wrappers` (`wrappers.dfy`): `Option`, `Result` and `Outcome`, to model a call that returns a value or throws.
- `Text` (`text.dfy`): decimal rendering of a number, as template literals produce it.
- `Records` (`records.dfy`): the stored entities (documents, requests, activity-log entries, API keys, jobs), a partial-update patch, and HTTP responses.
- `Store` (`store.dfy`): the database tables and the job queue as one class, `Database`.
  - Each Prisma write and the queue's `add` becomes a method. A `findUnique` is a read of the table, with the flag `lookupFails` where the source catches the lookup's error.
  - Every successful write is appended to a ghost `history`.
  - `Apply`/`ApplyAll` give the meaning of a sequence of writes.
  - Operations are proved against pure functions that return the writes they issue (`Run`, `Handled`). Lemmas about those functions state the properties.
- `LangchainIntegration` (`langchain_integration.dfy`): `lib/langchainIntegration.ts`. Dispatch, the seven handlers, metadata extraction, the sequential and parallel search modes, the summary.
- `ResearchService` (`research_service.dfy`): `services/researchService.ts`, the orchestrator. `GetDocumentChunks` is defined as the one-chunk list it is in the source.
- `ResearchJob` (`research_job.dfy`): `jobs/researchJob.ts`.
- `ResearchController` (`research_controller.dfy`): `controllers/researchController.ts`.
- `ApiKeys` (`api_keys.dfy`): `lib/apiKeys.ts`.
- `ApiKeyMiddleware` (`api_key_middleware.dfy`): `middlewares/apiKeyMiddleware.ts`.

Abstractions:

- The remote model is a deterministic function `Llm` from a prompt to a text or an error message.
  - Only the OpenAI handler calls it. The other six handlers return fixed texts once their credentials are set.
  - Inside the proofs, the handler call on one chunk is `Ask` and the search of one document is `Search`. These are function-valued parameters, built from the real definitions by `AskHandler` and `RequestSearch`.
- `process.env` is a map from names to strings. JavaScript falsiness of a value means absent or `""`.
- Fresh keys are parameters: the new API key, and `newId` for documents and requests.
- A lookup that raises is an input flag, `lookupFails`.

The orchestrator's loop declares a second `allFindings` inside its body, which shadows the outer accumulator. The model keeps that behaviour:

- Each progress write carries only the current document's findings.
- The outer accumulator stays empty. The summary is requested over `[]` and the activity log stores `[]`. `ResearchService.ResearchDocuments` and `ResearchService.ProcessSuccessState` state this.

Two behaviours of the code worth noting:

- A finding's title for a document with no `title` attribute is `'N/A'`, not `'Untitled Document'`. `extractMetadataValue` returns `'N/A'` for an absent key, so the `'Untitled Document'` fallback applies only to a falsy title value. See `LangchainIntegration.AbsentTitleIsNotApplicable`.
- The job does not always isolate an orchestrator failure. The `failed` update is outside any `try`. When the request no longer exists, that update raises and its error escapes the worker. See `ResearchJob.JobMissingRequestEscapes`.

## Model

| member | source | states |
|---|---|---|
| LangchainIntegration.GetAIModelResponse | src/lib/langchainIntegration.ts:123-143 | a handler only for its own registered name; every other name fails with `Unsupported AI model: <name>`, exactly when no provider carries that name |
| LangchainIntegration.DispatchRoundTrip | src/lib/langchainIntegration.ts:123-143 | each of the seven names dispatches back to its own handler |
| LangchainIntegration.HasCredentialsUnfolded | src/lib/langchainIntegration.ts:28-33 | a handler's credentials are its key variable, plus the search endpoint for Azure AI |
| LangchainIntegration.CreateOpenAIResponse | src/lib/langchainIntegration.ts:12-23 | without a key raises the OpenAI missing-key error; with a key returns the model's answer to the prompt |
| LangchainIntegration.CreateAzureAIResponse | src/lib/langchainIntegration.ts:28-41 | raises unless both key and endpoint are set; otherwise the fixed Azure text |
| LangchainIntegration.CreateAnthropicClaudeResponse | src/lib/langchainIntegration.ts:46-56 | raises without the key; otherwise the fixed Anthropic text |
| LangchainIntegration.CreateGoogleGeminiResponse | src/lib/langchainIntegration.ts:61-71 | raises without the key; otherwise the fixed Gemini text |
| LangchainIntegration.CreateMistralResponse | src/lib/langchainIntegration.ts:76-86 | raises without the key; otherwise the fixed Mistral text |
| LangchainIntegration.CreateLlamaResponse | src/lib/langchainIntegration.ts:92-102 | raises without the key; otherwise the fixed Llama text |
| LangchainIntegration.CreateGrokResponse | src/lib/langchainIntegration.ts:108-118 | raises without the key; otherwise the fixed Grok text |
| LangchainIntegration.InvokeHandler | src/lib/langchainIntegration.ts:12-118 | for any chosen handler: missing credentials raise its own message before the model is consulted; OpenAI then returns the model's answer, the others their stub text |
| LangchainIntegration.FirstMatch | src/lib/langchainIntegration.ts:236 | the index of the first attribute with the key: no earlier attribute has it, and the one found does |
| LangchainIntegration.FindAttribute | src/lib/langchainIntegration.ts:236 | `find` returns an attribute of the list carrying the key, and returns nothing exactly when no attribute carries it |
| LangchainIntegration.FindAttributeIsFirstMatch | src/lib/langchainIntegration.ts:236 | `find` returns the attribute at the first matching index, or nothing when no attribute matches |
| LangchainIntegration.ExtractMetadataValue | src/lib/langchainIntegration.ts:235-238 | no attribute list raises the TypeError; no matching key gives `'N/A'`; otherwise the value of the first matching attribute |
| LangchainIntegration.BuildFinding | src/lib/langchainIntegration.ts:170-174 | raises the TypeError without an attribute list; otherwise title and page are the extracted values with their fallbacks, and the content is kept |
| LangchainIntegration.AbsentTitleIsNotApplicable | src/lib/langchainIntegration.ts:235-238 | with no `title` attribute the title is `'N/A'` |
| LangchainIntegration.UntitledOnlyForFalsyTitle | src/lib/langchainIntegration.ts:171 | a title of `'Untitled Document'` implies a `title` attribute exists |
| LangchainIntegration.FindingFromAnswer | src/lib/langchainIntegration.ts:167-184 | one turn of the sequential loop raises exactly when the chunk has no attribute list, whether the call succeeded or not |
| LangchainIntegration.AskHandler | src/lib/langchainIntegration.ts:168 | the per-chunk call: without credentials every chunk gets the handler's missing-credential error, a stub handler gives every chunk its fixed text whatever the model says, and only OpenAI puts the query over that chunk to the model |
| LangchainIntegration.FindingFromAnswerContent | src/lib/langchainIntegration.ts:170-183 | with attributes: title and page from the metadata, content the answer or `Error processing chunk: <message>` |
| LangchainIntegration.SequentialSearch | src/lib/langchainIntegration.ts:165-185 | a sequential run that succeeds has one finding per chunk; one that raises raises the metadata TypeError |
| LangchainIntegration.SequentialSearchRaises | src/lib/langchainIntegration.ts:165-185 | sequential mode succeeds if and only if every chunk has an attribute list; otherwise it raises the TypeError |
| LangchainIntegration.SequentialSearchFindings | src/lib/langchainIntegration.ts:165-185 | a sequential run that succeeds has one finding per chunk, finding i built from chunk i and its answer |
| LangchainIntegration.SequentialSearchSpec | src/lib/langchainIntegration.ts:165-185 | `SequentialSearchRaises` and `SequentialSearchFindings` together: raises exactly when a chunk lacks attributes, otherwise one finding per chunk built from that chunk |
| LangchainIntegration.PromiseAll | src/lib/langchainIntegration.ts:188-190 | succeeds if and only if every call succeeds, with every content in order |
| LangchainIntegration.FirstWithoutAttributes | src/lib/langchainIntegration.ts:192-201 | the first chunk without an attribute list: all before it have one |
| LangchainIntegration.ForEachFindings | src/lib/langchainIntegration.ts:192-201 | the findings pushed before the first chunk without attributes, one per chunk in order |
| LangchainIntegration.ParallelSearch | src/lib/langchainIntegration.ts:187-204 | any failed call yields `[]`; if all succeed, one finding per chunk in order up to the first chunk without attributes |
| LangchainIntegration.DocumentSearch | src/lib/langchainIntegration.ts:149-208 | unsupported model raises the dispatcher's error; parallel mode never raises; sequential mode raises exactly when a chunk lacks attributes; any other error is the TypeError |
| LangchainIntegration.UnsupportedModelSendsNothing | src/lib/langchainIntegration.ts:157-163 | with an unsupported model the result is independent of the provider: no chunk is sent |
| LangchainIntegration.SequentialIsolatesFailures | src/lib/langchainIntegration.ts:177-184 | a failed call in sequential mode becomes an error finding at its position and the run still succeeds with all findings |
| LangchainIntegration.SearchChunk | src/lib/langchainIntegration.ts:167-184 | the try/catch body equals `FindingFromAnswer` of the chunk and its answer |
| LangchainIntegration.SearchSequentially | src/lib/langchainIntegration.ts:166-185 | the `for` loop computes `SequentialSearch` |
| LangchainIntegration.SequentialSearchStep | src/lib/langchainIntegration.ts:166-185 | one turn of the loop extends the accumulated findings as `SequentialSearch` does |
| LangchainIntegration.SearchInParallel | src/lib/langchainIntegration.ts:187-204 | the `Promise.all` branch with its catch computes `ParallelSearch` |
| LangchainIntegration.PushFindings | src/lib/langchainIntegration.ts:192-201 | the `forEach` loop computes `ForEachFindings` |
| LangchainIntegration.ForEachFindingsStep | src/lib/langchainIntegration.ts:192-201 | one turn of the `forEach` extends the findings as `ForEachFindings` does |
| LangchainIntegration.HandleDocumentSearch | src/lib/langchainIntegration.ts:149-208 | the method computes `DocumentSearch` |
| LangchainIntegration.CreateAISummary | src/lib/langchainIntegration.ts:213-230 | never raises: the unsupported-model text, the handler's content, or the generic error text when the handler raises |
| Records.ApplyPatch | src/services/researchService.ts:46-52 | a partial update changes exactly the fields its data names and keeps the rest |
| Text.NatToString | src/services/researchService.ts:21 | the decimal rendering of a count is non-empty, made of digits, and one digit exactly below ten |
| Text.NatToStringValue | src/services/researchService.ts:21 | the digits printed for a count denote that count |
| Text.NatToStringInjective | src/services/researchService.ts:49 | different counts print differently |
| Store.Database.CreateDocument | src/controllers/researchController.ts:44-49 | stores the document, or fails with the unique-constraint error when its key is taken and changes nothing |
| Store.Database.CreateRequest | src/controllers/researchController.ts:54-62 | stores the request, or fails on a taken key and changes nothing |
| Store.Database.UpdateRequest | src/services/researchService.ts:19-22 | patches the request, or fails with the record-not-found error and changes nothing |
| Store.Database.DeleteRequest | src/services/researchService.ts:77-79 | removes the request, or fails with the store's record-to-delete error when it is absent and changes nothing |
| Store.Database.CreateActivityLog | src/services/researchService.ts:65-75 | appends one entry |
| Store.Database.CreateApiKey | src/lib/apiKeys.ts:9-14 | stores the key record, or fails with the unique-constraint error on the `key` field when the key is taken, and changes nothing |
| Store.Database.AddJob | src/controllers/researchController.ts:64 | appends one job to the queue |
| ResearchService.ResearchingStatusInjective | src/services/researchService.ts:46-52 | a progress status determines its counts: different `done/total` pairs give different statuses |
| ResearchService.GetDocumentChunks | src/services/researchService.ts:88-96 | the chunks together hold the document's text and each carries the document's metadata; there is one chunk |
| ResearchService.SearchGivesAtMostOneFinding | src/services/researchService.ts:39-41 | a document's search gives at most one finding; with a known model and an attribute list it does not raise, and sequential mode gives exactly one |
| ResearchService.LoopRun | src/services/researchService.ts:26-53 | the first `k` iterations write at most one update each |
| ResearchService.PresentIndices | src/services/researchService.ts:26-37 | the indices of existing documents, strictly increasing, and every existing index is among them |
| ResearchService.LoopRunSticks | src/services/researchService.ts:41 | once a search raises, later iterations change nothing |
| ResearchService.ProgressIteration | src/services/researchService.ts:39-52 | one iteration over an existing document whose search does not raise appends that document's `researching (i+1)/N` update to the loop's writes, and the store after it is the store before with that update applied |
| ResearchService.LoopWritesPresentDocuments | src/services/researchService.ts:26-52 | a loop that does not raise writes exactly one update per existing document, in order, with status `researching (i+1)/N` and that document's findings only |
| ResearchService.LoopFailureIsSearchError | src/services/researchService.ts:26-52 | a loop that raises stops at an existing document `i` whose search raised that error: the iterations before `i` did not raise, and the loop's writes are exactly those made before `i` |
| ResearchService.LoopWritesProgress | src/services/researchService.ts:46-52 | every loop write is a progress update of this request |
| ResearchService.LoopRunAllFail | src/services/researchService.ts:26-41 | when every search raises with one error, the loop writes nothing and raises that error if some document exists, and completes otherwise |
| ResearchService.ProgressWritesKeepShape | src/services/researchService.ts:46-52 | progress updates leave other tables, other requests and the request keys unchanged, and leave a `researching` status |
| ResearchService.ResearchWritesAreProgress | src/services/researchService.ts:19-52 | the writes up to the end of the loop are the initial status and progress updates only |
| ResearchService.CompletionEffects | src/services/researchService.ts:57-79 | three writes: the request set to `completed`, one archive entry with status `completed` and the request's model, and the request's deletion last |
| ResearchService.ResearchRun | src/services/researchService.ts:24-79 | after the initial status: a run that completes ends by deleting the request; a run that raises writes at most one update per document |
| ResearchService.ProcessRun | src/services/researchService.ts:8-80 | an absent request raises `Request with ID <id> not found` with no write; otherwise the first write is status `researching 0/N`, and a run that completes ends by deleting the request |
| ResearchService.ApplyCompletion | src/services/researchService.ts:57-79 | the completion writes delete the request, append one archive entry with the request's fields and status `completed`, and change nothing else |
| ResearchService.CompletedRunState | src/services/researchService.ts:46-79 | progress updates followed by the completion writes leave the request deleted and archived, other tables unchanged |
| ResearchService.ProcessSuccessState | src/services/researchService.ts:55-79 | a completed run deletes the request and appends one entry with `[]` findings and the summary of `[]`, and changes no other table |
| ResearchService.ProcessMissingRequest | src/services/researchService.ts:9-15 | an absent request raises `Request with ID <id> not found` with no write |
| ResearchService.ProcessAbortState | src/services/researchService.ts:41-52 | a run that raises reports the dispatcher's or the metadata error, and leaves the request in place in a `researching` status, with nothing archived and nothing else changed |
| ResearchService.UnsupportedModelRun | src/services/researchService.ts:19-79 | an unknown model raises at the first existing document; with no existing document the run completes with the unsupported-model summary |
| ResearchService.CompleteRequest | src/services/researchService.ts:57-79 | issues the three completion writes in order |
| ResearchService.ProcessResearchRequestQueue | src/services/researchService.ts:8-80 | the orchestrator's outcome and writes are those of `ProcessRun` |
| ResearchService.ResearchAndComplete | src/services/researchService.ts:24-79 | after the first write: the loop, then the summary and completion, as `ResearchRun` states |
| ResearchService.ResearchDocuments | src/services/researchService.ts:24-53 | the loop issues `LoopRun`'s writes, and the outer accumulator it returns is `[]` |
| ResearchJob.JobRun | src/jobs/researchJob.ts:9-23 | the worker's writes are the orchestrator's, followed by at most one more; when it raises, it raises the store's not-found error |
| ResearchJob.JobReachesTerminalStatus | src/jobs/researchJob.ts:9-23 | for an existing request the worker never raises; the request ends deleted and archived as `completed`, or in place with status `failed` and no archive entry |
| ResearchJob.JobMissingRequestEscapes | src/jobs/researchJob.ts:18-21 | for an absent request the `failed` update raises and the worker raises that error, with no write |
| ResearchJob.JobRaisesIffRequestMissing | src/jobs/researchJob.ts:12-22 | the worker raises if and only if the request does not exist |
| ResearchJob.JobAddsOnlyFailedStatus | src/jobs/researchJob.ts:13-21 | after success nothing more is written; after a failure exactly one `failed` status update is appended |
| ResearchJob.FailedPatchSetsOnlyStatus | src/jobs/researchJob.ts:18-21 | the `failed` update changes the status field only |
| ResearchJob.RunResearchJob | src/jobs/researchJob.ts:9-23 | the worker's outcome and writes are those of `JobRun` |
| ResearchController.Validate | src/controllers/researchController.ts:21-40 | the five checks in order, each failing with its own message; accepted exactly when all five hold, with the submitted fields |
| ResearchController.StringSequentialFlagRejected | src/controllers/researchController.ts:29-31 | a string `sequentialQuery`, as the API test sends, is refused with the boolean message |
| ResearchController.AvailableModelsMatchDispatcher | src/controllers/researchController.ts:12 | a name is accepted if and only if the dispatcher knows it |
| ResearchController.ValidatedModelIsDispatchable | src/controllers/researchController.ts:33-40 | an accepted model never triggers the unsupported-model error, and its handler has its credentials unless it is Azure AI |
| ResearchController.NewDocument | src/controllers/researchController.ts:44-49 | the stored document has the assigned key and the input's content; its metadata is the input's, or `{}` when absent |
| ResearchController.Ids | src/controllers/researchController.ts:42-52 | the keys of the new documents, in input order |
| ResearchController.CreateDocuments | src/controllers/researchController.ts:42-52 | only document creations are issued, one per input when none fails |
| ResearchController.CreateDocumentsEffects | src/controllers/researchController.ts:42-52 | the creations change the document table only |
| ResearchController.FreshIdsCreateAll | src/controllers/researchController.ts:42-52 | with fresh keys every create succeeds, each input is stored under its key with metadata defaulting to `{}`, and existing documents are kept |
| ResearchController.AllCreatedStep | src/controllers/researchController.ts:42-52 | one more create under a fresh key keeps that property |
| ResearchController.NewRequest | src/controllers/researchController.ts:54-62 | the queued request has the given key, the document keys, the submitted model, query and mode, status `in queue`, and no findings or summary |
| ResearchController.Admit | src/controllers/researchController.ts:42-74 | after validation the answer is 200 with the request key and the job last, or 500 with the error; a 500 stores no request and queues no job |
| ResearchController.Enqueue | src/controllers/researchController.ts:17-75 | 400 exactly when validation fails, with its message and no write; otherwise the writes after validation |
| ResearchController.AdmitAccepted | src/controllers/researchController.ts:42-66 | with fresh keys: the documents stored, the request stored as `in queue` with the submitted fields and document keys, one job queued, reply `{requestId}` |
| ResearchController.AdmitWrites | src/controllers/researchController.ts:54-64 | the request creation then the enqueue add that request and append its job |
| ResearchController.EnqueueAccepted | src/controllers/researchController.ts:17-66 | a valid body with fresh keys is answered 200 with the new request's key |
| ResearchController.GetResearchStatus | src/controllers/researchController.ts:80-97 | 200 with the stored record exactly when it exists and the lookup works; 404 `Request not found` when absent; 500 when the lookup raises |
| ResearchController.AdmittedRequestIsVisible | src/controllers/researchController.ts:54-92 | right after acceptance the status lookup returns the request in status `in queue` |
| ResearchController.StatusAfterJob | src/controllers/researchController.ts:84-92 | after the worker, the status lookup answers 404 or a record in status `failed` |
| ResearchController.CreateDocumentRecords | src/controllers/researchController.ts:42-52 | the creation loop issues `CreateDocuments`'s writes and returns the keys in order |
| ResearchController.EnqueueResearchRequest | src/controllers/researchController.ts:17-75 | the handler's response and writes are those of `Enqueue` |
| ResearchController.AdmitSubmission | src/controllers/researchController.ts:42-74 | the writes after validation are those of `Admit` |
| ResearchController.QueueRequest | src/controllers/researchController.ts:54-66 | with a free key: the request row then the job, and 200 with the request key; with a taken key: 500 with the unique-constraint message and nothing changed |
| ApiKeys.GetModelApiKey | src/lib/apiKeys.ts:22-34 | for each of the seven names, the value of the key variable its handler checks first; nothing for any other name |
| ApiKeys.ModelKeyMatchesHandlerCredential | src/lib/apiKeys.ts:22-34 | a configured model key is exactly the handler's credentials, except that Azure AI also needs the endpoint |
| ApiKeys.AzureKeyDoesNotImplyHandler | src/lib/apiKeys.ts:25 | an Azure key without the endpoint passes the key check while the Azure handler refuses |
| ApiKeys.GenerateApiKey | src/lib/apiKeys.ts:6-17 | stores one key record and returns that key; a taken key raises and changes nothing |
| ApiKeyMiddleware.Authenticate | src/middlewares/apiKeyMiddleware.ts:9-32 | hands the request on if and only if a non-empty key is presented, the lookup works and the key is stored; 401 missing, 500 on lookup error, 401 invalid otherwise |
| ApiKeyMiddleware.MissingKeyIgnoresTable | src/middlewares/apiKeyMiddleware.ts:11-14 | a request without a key gets the same answer whatever the table and the lookup |
| ApiKeyMiddleware.GeneratedKeyAuthenticates | src/middlewares/apiKeyMiddleware.ts:18-27 | a freshly stored key is accepted |
| ApiKeyMiddleware.AuthenticationSurvivesKeyCreation | src/middlewares/apiKeyMiddleware.ts:18-27 | storing another key never revokes an accepted one |

## Left out

- `index.ts` (the server, the queue wiring and its consumer registration, the dashboard, signal handlers), `routes/researchRoutes.ts` (forwarding only) and `scripts/generateApiKey.ts` (a console wrapper) are not part of this model.
- Logging is left out: it has no effect on state.
- The provider is an opaque function. The ChatOpenAI client and the prompt texts are not modelled. The summary prompt is `SummaryPrompt(findings)`.
- `JSON.stringify` of findings and summaries is not modelled. The store keeps the values themselves.
- Concurrency is not modelled.
  - `Promise.all` in the parallel search is modelled as all-or-nothing.
  - In the controller, the document creates are issued one after another in input order. When several fail, the model reports the lowest-index failure, not the first to settle.
  - Concurrent or repeated delivery of a job is out of scope.
- The queue is a sequence that jobs are appended to. Taking a job off the queue, retries and durability belong to the queue library and are not modelled.
- Store faults are limited to two: updates or deletes of an absent record, and creates under a taken key. Connection failures are not modelled. The two lookups that can raise take the flag `lookupFails`.
- The 500 branch for a thrown non-`Error` value is not modelled. Every error in the model is an `Error` with a message.
- Attribute values are modelled as strings only, with `""` the only falsy value. Malformed attribute elements, request bodies that are not objects, and document elements without `content` are not modelled. An attribute list is either present or absent (`None`). A `null` list, or a truthy value that is not an array, raises a TypeError with another message in the source. The model gives every such case the one `reading 'find'` message. That message is never stored or returned, so no observable behaviour changes.
- `getModelApiKey` on inherited object property names (`toString` and similar) is not modelled. The model-name check comes first and rejects those names.
- ResearchService.ResearchAndComplete: calls the per-document search through `RequestSearch`, the function `DocumentSearch`, rather than the method `HandleDocumentSearch`. `LangchainIntegration.HandleDocumentSearch` proves the two equal.
- ResearchController.Admit: the request key is `newId(n)` for `n` documents. Prisma's own key generation is not modelled, and freshness of the keys is a precondition of the acceptance lemmas, not of the handler.
