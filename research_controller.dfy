/**
 * The HTTP handlers of the research routes: validating and enqueueing a
 * research request, and reporting a request's status.
 */
module ResearchController {
  import opened Wrappers
  import opened Records
  import opened Store
  import opened LangchainIntegration
  import opened ResearchService
  import opened ResearchJob
  import opened ApiKeys

  /** A field of the JSON request body, as far as the handler inspects it. */
  datatype Value =
    | Undefined
    | Null
    | Bool(b: bool)
    | Number(n: int)
    | Str(s: string)
    | Array(items: seq<DocumentInput>)
    | Object

  /** One element of the `documents` array; a missing or falsy `metadata` is `None`. */
  datatype DocumentInput = DocumentInput(content: string, metadata: Option<Metadata>)

  /** The fields of the request body the handler reads. */
  datatype Body = Body(documents: Value, userSearchQuery: Value, sequentialQuery: Value, model: Value)

  /** A body that passed every check. */
  datatype Submission = Submission(documents: seq<DocumentInput>, query: string, sequential: bool, model: string)

  /** JavaScript truthiness. */
  predicate Truthy(v: Value) {
    match v
    case Undefined => false
    case Null => false
    case Bool(b) => b
    case Number(n) => n != 0
    case Str(s) => s != ""
    case Array(_) => true
    case Object => true
  }

  /** The model names the handler accepts. */
  const AvailableModels: seq<string> :=
    ["AzureAI", "OpenAI", "AnthropicClaude", "GoogleGemini", "Mistral", "Llama", "Grok"]

  /** `Array.prototype.join`. */
  function Join(items: seq<string>, separator: string): string
    decreases |items|
  {
    if |items| == 0 then ""
    else if |items| == 1 then items[0]
    else items[0] + separator + Join(items[1..], separator)
  }

  const DocumentsError: string := "Documents are required and should be a non-empty array"
  const QueryError: string := "User search query is required and should be a string"
  const SequentialError: string := "Sequential query should be a boolean"

  function ModelError(): string {
    "Model is required and should be one of: " + Join(AvailableModels, ", ")
  }

  function MissingKeyError(model: string): string {
    "API key for model " + model + " is not configured"
  }

  /** What each check accepts, stated without truthiness. */
  predicate DocumentsGiven(v: Value) {
    v.Array? && |v.items| > 0
  }

  predicate QueryGiven(v: Value) {
    v.Str? && v.s != ""
  }

  predicate ModelGiven(v: Value) {
    v.Str? && v.s in AvailableModels
  }

  /**
   * The checks of `enqueueResearchRequest`, in the handler's order: the
   * message of the first that fails, or the accepted submission.
   */
  function Validate(body: Body, env: Env): (r: Result<Submission, string>)
    ensures !DocumentsGiven(body.documents) ==> r == Failure(DocumentsError)
    ensures DocumentsGiven(body.documents) && !QueryGiven(body.userSearchQuery) ==> r == Failure(QueryError)
    ensures DocumentsGiven(body.documents) && QueryGiven(body.userSearchQuery) && !body.sequentialQuery.Bool? ==>
      r == Failure(SequentialError)
    ensures (DocumentsGiven(body.documents) && QueryGiven(body.userSearchQuery) && body.sequentialQuery.Bool?
             && !ModelGiven(body.model)) ==> r == Failure(ModelError())
    ensures (DocumentsGiven(body.documents) && QueryGiven(body.userSearchQuery) && body.sequentialQuery.Bool?
             && ModelGiven(body.model) && !ModelKeyConfigured(body.model.s, env)) ==>
      r == Failure(MissingKeyError(body.model.s))
    ensures r.Success? <==>
      DocumentsGiven(body.documents) && QueryGiven(body.userSearchQuery) && body.sequentialQuery.Bool?
      && ModelGiven(body.model) && ModelKeyConfigured(body.model.s, env)
    ensures r.Success? ==>
      r.value == Submission(body.documents.items, body.userSearchQuery.s, body.sequentialQuery.b, body.model.s)
  {
    var Body(documents, query, sequential, model) := body;
    if !Truthy(documents) || !documents.Array? || |documents.items| == 0 then Failure(DocumentsError)
    else if !Truthy(query) || !query.Str? then Failure(QueryError)
    else if !sequential.Bool? then Failure(SequentialError)
    else if !Truthy(model) || !model.Str? || model.s !in AvailableModels then Failure(ModelError())
    else
      var modelApiKey := GetModelApiKey(model.s, env);
      if modelApiKey.None? || modelApiKey.value == "" then Failure(MissingKeyError(model.s))
      else Success(Submission(documents.items, query.s, sequential.b, model.s))
  }

  /** A body whose `sequentialQuery` is a string is refused at the third check, whatever the configuration. */
  lemma StringSequentialFlagRejected(env: Env)
    ensures Validate(Body(Array([DocumentInput("Test document content", Some(EmptyMetadata))]),
                          Str("Test search query"), Str("Test sequential query"), Str("OpenAI")), env)
         == Failure(SequentialError)
  {
  }

  /** The accepted names are exactly the names the dispatcher knows. */
  lemma AvailableModelsMatchDispatcher(model: string)
    ensures model in AvailableModels <==> GetAIModelResponse(model).Success?
  {
    if GetAIModelResponse(model).Success? {
      match GetAIModelResponse(model).value
      case OpenAI =>
      case AzureAI =>
      case AnthropicClaude =>
      case GoogleGemini =>
      case Mistral =>
      case Llama =>
      case Grok =>
    }
  }

  /**
   * An accepted submission names a model the dispatcher knows, and its
   * handler has its credentials, unless it is Azure AI, whose endpoint is
   * not checked here.
   */
  lemma ValidatedModelIsDispatchable(body: Body, env: Env)
    requires Validate(body, env).Success?
    ensures var model := Validate(body, env).value.model;
      && GetAIModelResponse(model).Success?
      && (GetAIModelResponse(model).value != AzureAI ==> HasCredentials(env, GetAIModelResponse(model).value))
  {
    var model := Validate(body, env).value.model;
    AvailableModelsMatchDispatcher(model);
    var p := GetAIModelResponse(model).value;
    ModelKeyMatchesHandlerCredential(p, env);
  }

  // ---------------------------------------------------------------------------
  // Enqueueing

  /** The document row for input `input` under the key `id`; missing metadata becomes `{}`. */
  function NewDocument(input: DocumentInput, id: string): (d: Document)
    ensures d.id == id && d.content == input.content
    ensures input.metadata.Some? ==> d.metadata == input.metadata.value
    ensures input.metadata.None? ==> d.metadata == EmptyMetadata
  {
    Document(id, input.content, input.metadata.GetOr(EmptyMetadata))
  }

  /** The keys the store assigns to the first `n` new documents. */
  function Ids(newId: nat -> string, n: nat): (ids: seq<string>)
    ensures |ids| == n
    ensures forall i :: 0 <= i < n ==> ids[i] == newId(i)
  {
    if n == 0 then [] else Ids(newId, n - 1) + [newId(n - 1)]
  }

  /**
   * The document creations of the first `k` inputs: every create is issued,
   * the ones whose key is taken fail, and the first failure is reported.
   */
  datatype Creation = Creation(effects: seq<Effect>, documents: map<string, Document>, error: Option<string>)

  function CreateDocuments(docs: map<string, Document>, inputs: seq<DocumentInput>, newId: nat -> string, k: nat)
    : (c: Creation)
    requires k <= |inputs|
    ensures forall j :: 0 <= j < |c.effects| ==> c.effects[j].DocumentCreated?
    ensures c.error.None? ==> |c.effects| == k
    decreases k
  {
    if k == 0 then Creation([], docs, None)
    else
      var prev := CreateDocuments(docs, inputs, newId, k - 1);
      var d := NewDocument(inputs[k - 1], newId(k - 1));
      if d.id in prev.documents then
        prev.(error := if prev.error.Some? then prev.error else Some(IdTaken))
      else Creation(prev.effects + [DocumentCreated(d)], prev.documents[d.id := d], prev.error)
  }

  /** The keys are pairwise distinct and none is stored yet. */
  predicate FreshIds(newId: nat -> string, n: nat, docs: map<string, Document>) {
    && (forall i :: 0 <= i < n ==> newId(i) !in docs)
    && (forall i, j :: 0 <= i < j < n ==> newId(i) != newId(j))
  }

  /** The creations change the document table to `documents` and nothing else. */
  lemma {:induction false} CreateDocumentsEffects(t: Tables, inputs: seq<DocumentInput>, newId: nat -> string, k: nat)
    requires k <= |inputs|
    ensures ApplyAll(t, CreateDocuments(t.documents, inputs, newId, k).effects)
         == t.(documents := CreateDocuments(t.documents, inputs, newId, k).documents)
    decreases k
  {
    if k > 0 {
      CreateDocumentsEffects(t, inputs, newId, k - 1);
      var prev := CreateDocuments(t.documents, inputs, newId, k - 1);
      var d := NewDocument(inputs[k - 1], newId(k - 1));
      if d.id !in prev.documents {
        var c := CreateDocuments(t.documents, inputs, newId, k);
        assert c.effects == prev.effects + [DocumentCreated(d)] && c.documents == prev.documents[d.id := d];
        ApplyAllSnoc(t, prev.effects, DocumentCreated(d));
      }
    }
  }

  /** Every create of the first `k` inputs succeeded and stored its input under its key. */
  predicate AllCreated(c: Creation, docs: map<string, Document>, inputs: seq<DocumentInput>,
                       newId: nat -> string, k: nat)
    requires k <= |inputs|
  {
    && c.error == None
    && (forall id :: id in c.documents ==> id in docs || id in Ids(newId, k))
    && (forall i :: 0 <= i < k ==> newId(i) in c.documents && c.documents[newId(i)] == NewDocument(inputs[i], newId(i)))
    && (forall id :: id in docs ==> id in c.documents && c.documents[id] == docs[id])
  }

  /** With fresh keys every create succeeds. */
  lemma {:induction false} FreshIdsCreateAll(docs: map<string, Document>, inputs: seq<DocumentInput>,
                                             newId: nat -> string, k: nat)
    requires k <= |inputs|
    requires FreshIds(newId, k, docs)
    ensures AllCreated(CreateDocuments(docs, inputs, newId, k), docs, inputs, newId, k)
    decreases k
  {
    if k > 0 {
      FreshIdsCreateAll(docs, inputs, newId, k - 1);
      var ids := Ids(newId, k - 1);
      assert newId(k - 1) !in ids by {
        forall i | 0 <= i < k - 1 ensures ids[i] != newId(k - 1) {}
      }
      AllCreatedStep(docs, inputs, newId, k);
    }
  }

  /** A create under a fresh key extends a run in which every create succeeded. */
  lemma AllCreatedStep(docs: map<string, Document>, inputs: seq<DocumentInput>, newId: nat -> string, k: nat)
    requires 0 < k <= |inputs|
    requires AllCreated(CreateDocuments(docs, inputs, newId, k - 1), docs, inputs, newId, k - 1)
    requires newId(k - 1) !in docs && newId(k - 1) !in Ids(newId, k - 1)
    ensures AllCreated(CreateDocuments(docs, inputs, newId, k), docs, inputs, newId, k)
  {
    var prev := CreateDocuments(docs, inputs, newId, k - 1);
    var d := NewDocument(inputs[k - 1], newId(k - 1));
    var c := CreateDocuments(docs, inputs, newId, k);
    assert d.id !in prev.documents;
    assert c.documents == prev.documents[d.id := d] && c.error == None;
    assert Ids(newId, k) == Ids(newId, k - 1) + [d.id];
    forall i | 0 <= i < k
      ensures newId(i) in c.documents && c.documents[newId(i)] == NewDocument(inputs[i], newId(i))
    {
      if i < k - 1 {
        assert newId(i) in Ids(newId, k - 1);
      }
    }
    forall id | id in c.documents ensures id in docs || id in Ids(newId, k) {
      if id != d.id {
        assert id in prev.documents;
      }
    }
  }

  /** The row `enqueueResearchRequest` queues. */
  function NewRequest(id: string, sub: Submission, documentIds: seq<string>): (r: ResearchRequest)
    ensures r.id == id && r.documentIds == documentIds && r.status == "in queue"
    ensures r.model == sub.model && r.userSearchQuery == sub.query && r.sequentialQuery == sub.sequential
    ensures r.individualFindings.None? && r.overallSummary.None?
  {
    ResearchRequest(id, sub.model, documentIds, sub.query, sub.sequential, "in queue", None, None)
  }

  datatype Handled = Handled(effects: seq<Effect>, response: Response)

  function ServerError(message: string): Response {
    Response(500, ServerErrorReply("Internal Server Error", message))
  }

  /**
   * What `enqueueResearchRequest` does with an accepted submission on the
   * store `t`: document `i` gets the key `newId(i)` and the request the key
   * `newId(n)` for `n` documents; a failed create answers 500 with its
   * message.
   */
  function Admit(t: Tables, sub: Submission, newId: nat -> string): (h: Handled)
    ensures h.response.status == 200 || (h.response.reply.ServerErrorReply? && h.response == ServerError(h.response.reply.message))
    ensures h.response.status != 200 ==> forall j :: 0 <= j < |h.effects| ==> h.effects[j].DocumentCreated?
    ensures h.response.status == 200 ==>
      && h.response.reply == RequestIdReply(newId(|sub.documents|))
      && |h.effects| >= 2
      && h.effects[|h.effects| - 1] == JobAdded(Job(newId(|sub.documents|)))
  {
    var n := |sub.documents|;
    var c := CreateDocuments(t.documents, sub.documents, newId, n);
    if c.error.Some? then Handled(c.effects, ServerError(c.error.value))
    else
      var request := NewRequest(newId(n), sub, Ids(newId, n));
      if request.id in t.requests then Handled(c.effects, ServerError(IdTaken))
      else Handled(c.effects + [RequestCreated(request), JobAdded(Job(request.id))],
                   Response(200, RequestIdReply(request.id)))
  }

  /** `enqueueResearchRequest` on the store `t`: a rejected body is answered 400 without any write. */
  function Enqueue(t: Tables, body: Body, env: Env, newId: nat -> string): (h: Handled)
    ensures h.response.status == 400 <==> Validate(body, env).Failure?
    ensures h.response.status == 400 ==> h.effects == [] && h.response.reply == ErrorReply(Validate(body, env).error)
    ensures Validate(body, env).Success? ==> h == Admit(t, Validate(body, env).value, newId)
  {
    match Validate(body, env)
    case Failure(message) => Handled([], Response(400, ErrorReply(message)))
    case Success(sub) => Admit(t, sub, newId)
  }

  /**
   * A submission with fresh keys is accepted: each document is stored, the
   * request is stored with status `in queue` and the document keys in
   * order, one job for it is queued, and the reply carries its key.
   */
  lemma AdmitAccepted(t: Tables, sub: Submission, newId: nat -> string)
    requires FreshIds(newId, |sub.documents|, t.documents) && newId(|sub.documents|) !in t.requests
    ensures var n := |sub.documents|;
      var h := Admit(t, sub, newId);
      var u := ApplyAll(t, h.effects);
      && h.response == Response(200, RequestIdReply(newId(n)))
      && u.requests == t.requests[newId(n) := NewRequest(newId(n), sub, Ids(newId, n))]
      && u.queue == t.queue + [Job(newId(n))]
      && (forall i :: 0 <= i < n ==> newId(i) in u.documents && u.documents[newId(i)] == NewDocument(sub.documents[i], newId(i)))
      && (forall id :: id in t.documents ==> id in u.documents && u.documents[id] == t.documents[id])
      && u.activityLog == t.activityLog && u.apiKeys == t.apiKeys
  {
    var n := |sub.documents|;
    var c := CreateDocuments(t.documents, sub.documents, newId, n);
    FreshIdsCreateAll(t.documents, sub.documents, newId, n);
    CreateDocumentsEffects(t, sub.documents, newId, n);
    var request := NewRequest(newId(n), sub, Ids(newId, n));
    AdmitWrites(t, c.effects, request);
  }

  /** The request creation and the job after some document creations. */
  lemma AdmitWrites(t: Tables, es: seq<Effect>, request: ResearchRequest)
    ensures var u := ApplyAll(t, es + [RequestCreated(request), JobAdded(Job(request.id))]);
      var m := ApplyAll(t, es);
      u == m.(requests := m.requests[request.id := request], queue := m.queue + [Job(request.id)])
  {
    var m := ApplyAll(t, es);
    ApplyAllSnoc(t, es, RequestCreated(request));
    ApplyAllSnoc(t, es + [RequestCreated(request)], JobAdded(Job(request.id)));
    assert es + [RequestCreated(request)] + [JobAdded(Job(request.id))]
        == es + [RequestCreated(request), JobAdded(Job(request.id))];
  }

  /** An accepted body with fresh keys is enqueued (see `AdmitAccepted`). */
  lemma EnqueueAccepted(t: Tables, body: Body, env: Env, newId: nat -> string)
    requires Validate(body, env).Success?
    requires var n := |Validate(body, env).value.documents|;
      FreshIds(newId, n, t.documents) && newId(n) !in t.requests
    ensures Enqueue(t, body, env, newId).response
         == Response(200, RequestIdReply(newId(|Validate(body, env).value.documents|)))
  {
    AdmitAccepted(t, Validate(body, env).value, newId);
  }

  // ---------------------------------------------------------------------------
  // Status

  const NotFoundResponse: Response := Response(404, ErrorReply("Request not found"))

  /** `getResearchStatus`; `lookupFails` says whether the lookup raises. */
  function GetResearchStatus(requests: map<string, ResearchRequest>, id: string, lookupFails: bool): (r: Response)
    ensures r.status == 200 <==> !lookupFails && id in requests
    ensures r.status == 200 ==> r.reply == RecordReply(requests[id])
    ensures !lookupFails && id !in requests ==> r == NotFoundResponse
    ensures lookupFails ==> r == Response(500, ErrorReply("Internal Server Error"))
  {
    if lookupFails then Response(500, ErrorReply("Internal Server Error"))
    else if id !in requests then NotFoundResponse
    else Response(200, RecordReply(requests[id]))
  }

  /** Right after an accepted submission the status lookup reports the queued request. */
  lemma AdmittedRequestIsVisible(t: Tables, sub: Submission, newId: nat -> string)
    requires FreshIds(newId, |sub.documents|, t.documents) && newId(|sub.documents|) !in t.requests
    ensures var u := ApplyAll(t, Admit(t, sub, newId).effects);
      var r := GetResearchStatus(u.requests, newId(|sub.documents|), false);
      r.status == 200 && r.reply.record.status == "in queue"
  {
    AdmitAccepted(t, sub, newId);
  }

  /**
   * After the worker has handled an existing request, the status lookup
   * reports either that it is gone (completed and archived) or that it
   * failed.
   */
  lemma StatusAfterJob(t: Tables, job: Job, env: Env, llm: Llm)
    requires job.requestId in t.requests
    ensures var u := ApplyAll(t, JobRun(t, job, env, llm).effects);
      var r := GetResearchStatus(u.requests, job.requestId, false);
      r == NotFoundResponse || (r.status == 200 && r.reply.record.status == FailedStatus)
  {
    JobReachesTerminalStatus(t, job, env, llm);
  }

  // ---------------------------------------------------------------------------
  // The handler against the store

  /** `documents.map(create)` under `Promise.all`: every create is issued; the keys in input order. */
  method CreateDocumentRecords(db: Database, inputs: seq<DocumentInput>, newId: nat -> string)
    returns (documentIds: seq<string>, error: Option<string>)
    modifies db
    ensures var c := CreateDocuments(old(db.documents), inputs, newId, |inputs|);
      && error == c.error
      && documentIds == Ids(newId, |inputs|)
      && db.Snapshot() == ApplyAll(old(db.Snapshot()), c.effects)
      && db.history == old(db.history) + c.effects
  {
    ghost var t0 := db.Snapshot();
    ghost var h0 := db.history;
    documentIds := [];
    error := None;
    var i := 0;
    while i < |inputs|
      invariant 0 <= i <= |inputs|
      invariant error == CreateDocuments(t0.documents, inputs, newId, i).error
      invariant db.documents == CreateDocuments(t0.documents, inputs, newId, i).documents
      invariant db.requests == t0.requests && db.activityLog == t0.activityLog
      invariant db.apiKeys == t0.apiKeys && db.queue == t0.queue
      invariant db.history == h0 + CreateDocuments(t0.documents, inputs, newId, i).effects
      invariant documentIds == Ids(newId, i)
    {
      ghost var prev := CreateDocuments(t0.documents, inputs, newId, i);
      ghost var next := CreateDocuments(t0.documents, inputs, newId, i + 1);
      var document := NewDocument(inputs[i], newId(i));
      var created := db.CreateDocument(document);
      if created.Fail? {
        assert next == prev.(error := if prev.error.Some? then prev.error else Some(IdTaken));
        if error.None? {
          error := Some(created.error);
        }
      } else {
        assert next == Creation(prev.effects + [DocumentCreated(document)], prev.documents[document.id := document],
                                prev.error);
      }
      documentIds := documentIds + [newId(i)];
      i := i + 1;
    }
    CreateDocumentsEffects(t0, inputs, newId, |inputs|);
  }

  /** `enqueueResearchRequest`, issuing its writes against the store and the queue. */
  method EnqueueResearchRequest(db: Database, body: Body, env: Env, newId: nat -> string) returns (response: Response)
    modifies db
    ensures var h := Enqueue(old(db.Snapshot()), body, env, newId);
      && response == h.response
      && db.Snapshot() == ApplyAll(old(db.Snapshot()), h.effects)
      && db.history == old(db.history) + h.effects
  {
    var submission := Validate(body, env);
    if submission.Failure? {
      return Response(400, ErrorReply(submission.error));
    }
    response := AdmitSubmission(db, submission.value, newId);
  }

  /** The writes after validation: the documents, the request, the job. */
  method AdmitSubmission(db: Database, sub: Submission, newId: nat -> string) returns (response: Response)
    modifies db
    ensures var h := Admit(old(db.Snapshot()), sub, newId);
      && response == h.response
      && db.Snapshot() == ApplyAll(old(db.Snapshot()), h.effects)
      && db.history == old(db.history) + h.effects
  {
    ghost var t0 := db.Snapshot();
    var n := |sub.documents|;
    ghost var c := CreateDocuments(t0.documents, sub.documents, newId, n);
    var documentIds, error := CreateDocumentRecords(db, sub.documents, newId);
    if error.Some? {
      assert Admit(t0, sub, newId) == Handled(c.effects, ServerError(error.value));
      return ServerError(error.value);
    }
    CreateDocumentsEffects(t0, sub.documents, newId, n);
    var request := NewRequest(newId(n), sub, documentIds);
    assert db.requests == t0.requests;
    response := QueueRequest(db, request);
    if request.id in t0.requests {
      assert Admit(t0, sub, newId) == Handled(c.effects, ServerError(IdTaken));
    } else {
      ghost var queued := [RequestCreated(request), JobAdded(Job(request.id))];
      ApplyAllConcat(t0, c.effects, queued);
      assert Admit(t0, sub, newId) == Handled(c.effects + queued, Response(200, RequestIdReply(request.id)));
    }
  }

  /**
   * The request row and its job (`aIRequestQueue.create`, then
   * `researchQueue.add`) and the reply with the request's key; a taken key
   * raises, and the handler answers 500 with the store's message.
   */
  method QueueRequest(db: Database, request: ResearchRequest) returns (response: Response)
    modifies db
    ensures request.id in old(db.requests) ==> (response == ServerError(IdTaken)
      && db.Snapshot() == old(db.Snapshot()) && db.history == old(db.history))
    ensures request.id !in old(db.requests) ==> (response == Response(200, RequestIdReply(request.id))
      && db.Snapshot() == ApplyAll(old(db.Snapshot()), [RequestCreated(request), JobAdded(Job(request.id))])
      && db.history == old(db.history) + [RequestCreated(request), JobAdded(Job(request.id))])
  {
    ghost var t0 := db.Snapshot();
    var created := db.CreateRequest(request);
    if created.Fail? {
      return ServerError(created.error);
    }
    db.AddJob(Job(request.id));
    AdmitWrites(t0, [], request);
    assert [] + [RequestCreated(request), JobAdded(Job(request.id))] == [RequestCreated(request), JobAdded(Job(request.id))];
    return Response(200, RequestIdReply(request.id));
  }
}
