/**
 * The orchestrator (`processResearchRequestQueue`): loads a queued research
 * request, searches its documents one after another, writes progress after
 * each document, then completes, archives and deletes the request.
 *
 * The loop declares a second `allFindings` inside its body, which shadows
 * the outer accumulator: each progress write carries only the current
 * document's findings, and the summary and the archive entry are built from
 * the outer accumulator, which stays empty. The model keeps that behaviour.
 */
module ResearchService {
  import opened Wrappers
  import opened Text
  import opened Records
  import opened Store
  import opened LangchainIntegration

  /** The progress status `researching <done>/<total>`. */
  function ResearchingStatus(done: nat, total: nat): string {
    "researching " + NatToString(done) + "/" + NatToString(total)
  }

  /** The status is a progress status of a run over `total` documents. */
  predicate IsResearchingStatus(s: string, total: nat) {
    exists done: nat :: done <= total && s == ResearchingStatus(done, total)
  }

  /** A progress status names its counts: different counts give different statuses. */
  lemma ResearchingStatusInjective(done1: nat, total1: nat, done2: nat, total2: nat)
    ensures ResearchingStatus(done1, total1) == ResearchingStatus(done2, total2) ==> done1 == done2 && total1 == total2
  {
    if ResearchingStatus(done1, total1) == ResearchingStatus(done2, total2) {
      var p := "researching ";
      var a, b := NatToString(done1), NatToString(done2);
      var s := ResearchingStatus(done1, total1);
      assert s == p + a + "/" + NatToString(total1);
      assert s == p + b + "/" + NatToString(total2);
      var r := s[|p|..];
      assert r == a + ['/'] + NatToString(total1) && r == b + ['/'] + NatToString(total2);
      LeadingDigitsBefore(a, '/', NatToString(total1));
      LeadingDigitsBefore(b, '/', NatToString(total2));
      assert a == s[|p|..|p| + |a|] == b;
      assert NatToString(total1) == s[|p| + |a| + 1..] == NatToString(total2);
      NatToStringInjective(done1, done2);
      NatToStringInjective(total1, total2);
    }
  }

  function NotFoundMessage(id: string): string {
    "Request with ID " + id + " not found"
  }

  function StatusPatch(status: string): Patch {
    Patch(Some(status), None, None)
  }

  /** The write after document `done - 1`: the new progress status and that document's findings. */
  function ProgressPatch(done: nat, total: nat, findings: seq<Finding>): Patch {
    Patch(Some(ResearchingStatus(done, total)), Some(findings), None)
  }

  function CompletionPatch(summary: Summary): Patch {
    Patch(Some("completed"), None, Some(summary))
  }

  /** The text of a sequence of chunks, read one after another. */
  function ChunkText(chunks: seq<Chunk>): string
    decreases |chunks|
  {
    if |chunks| == 0 then "" else chunks[0].content + ChunkText(chunks[1..])
  }

  /**
   * `getDocumentChunks`: the chunks together hold the document's text and
   * each carries the document's metadata; there is a single chunk.
   */
  function GetDocumentChunks(document: Document): (chunks: seq<Chunk>)
    ensures |chunks| == 1
    ensures ChunkText(chunks) == document.content
    ensures forall j :: 0 <= j < |chunks| ==> chunks[j].metadata == document.metadata
  {
    [Chunk(document.content, document.metadata)]
  }

  /** The search the loop runs on one document. */
  type Search = Document -> Result<seq<Finding>, string>

  /** `handleDocumentSearch` over the document's chunks with the request's query, mode and model. */
  function RequestSearch(req: ResearchRequest, env: Env, llm: Llm): Search {
    d => DocumentSearch(GetDocumentChunks(d), req.userSearchQuery, req.sequentialQuery, req.model, env, llm)
  }

  /**
   * A document is searched as one chunk, so its search gives at most one
   * finding; for a known model and a document with an attribute list it
   * does not raise, and sequential mode gives exactly one finding.
   */
  lemma SearchGivesAtMostOneFinding(req: ResearchRequest, env: Env, llm: Llm, d: Document)
    ensures var r := RequestSearch(req, env, llm)(d);
      && (r.Success? ==> |r.value| <= 1)
      && (GetAIModelResponse(req.model).Success? && d.metadata.attributes.Some? ==>
            r.Success? && (req.sequentialQuery ==> |r.value| == 1))
  {
    var chunks := GetDocumentChunks(d);
    assert AllHaveAttributes(chunks) <==> d.metadata.attributes.Some?;
    if GetAIModelResponse(req.model).Success? {
      var ask := AskHandler(GetAIModelResponse(req.model).value, env, llm, req.userSearchQuery);
      if !req.sequentialQuery {
        assert FirstWithoutAttributes(chunks) <= 1;
      }
    }
  }

  /**
   * The first `k` iterations of the document loop: a missing document is
   * skipped, a search that raises ends the run, and every other document
   * writes one progress update.
   */
  function LoopRun(id: string, documentIds: seq<string>, docs: map<string, Document>, search: Search, k: nat): (run: Run)
    requires k <= |documentIds|
    ensures |run.effects| <= k
    decreases k
  {
    if k == 0 then Run([], Pass)
    else
      var prev := LoopRun(id, documentIds, docs, search, k - 1);
      var documentId := documentIds[k - 1];
      if prev.outcome.Fail? || documentId !in docs then prev
      else
        match search(docs[documentId])
        case Failure(e) => Run(prev.effects, Fail(e))
        case Success(findings) =>
          Run(prev.effects + [RequestUpdated(id, ProgressPatch(k, |documentIds|, findings))], Pass)
  }

  /**
   * The indices below `k` whose document exists, in increasing order: the
   * documents the loop searches.
   */
  function PresentIndices(documentIds: seq<string>, docs: map<string, Document>, k: nat): (ps: seq<nat>)
    requires k <= |documentIds|
    ensures forall j :: 0 <= j < |ps| ==> ps[j] < k && documentIds[ps[j]] in docs
    ensures forall a, b :: 0 <= a < b < |ps| ==> ps[a] < ps[b]
    ensures forall i :: 0 <= i < k && documentIds[i] in docs ==> i in ps
    decreases k
  {
    if k == 0 then []
    else PresentIndices(documentIds, docs, k - 1) + (if documentIds[k - 1] in docs then [k - 1] else [])
  }

  /** The three writes of a completed run: status and summary, the archive entry, the deletion. */
  function CompletionEffects(id: string, req: ResearchRequest, findings: seq<Finding>, summary: Summary): (es: seq<Effect>)
    ensures |es| == 3 && es[|es| - 1] == RequestDeleted(id)
    ensures es[0].RequestUpdated? && es[0].id == id && es[0].patch.status == Some("completed")
    ensures es[1].ActivityLogged? && es[1].entry.status == "completed" && es[1].entry.model == req.model
  {
    [RequestUpdated(id, CompletionPatch(summary)),
     ActivityLogged(ActivityLog(req.model, req.documentIds, req.userSearchQuery, req.sequentialQuery,
                                "completed", findings, summary)),
     RequestDeleted(id)]
  }

  /** The writes of the run up to the end of the loop: the initial status, then the loop's updates. */
  function ResearchEffects(t: Tables, id: string, env: Env, llm: Llm): seq<Effect>
    requires id in t.requests
  {
    var req := t.requests[id];
    [RequestUpdated(id, StatusPatch(ResearchingStatus(0, |req.documentIds|)))]
      + LoopRun(id, req.documentIds, t.documents, RequestSearch(req, env, llm), |req.documentIds|).effects
  }

  /**
   * The run after the initial status write: the document loop and, if no
   * search raised, the completion. The summary and the archive are built
   * from the outer accumulator, which the loop never extends.
   */
  function ResearchRun(id: string, req: ResearchRequest, docs: map<string, Document>, env: Env, llm: Llm): (r: Run)
    ensures r.outcome == Pass ==> |r.effects| >= 3 && r.effects[|r.effects| - 1] == RequestDeleted(id)
    ensures r.outcome.Fail? ==> |r.effects| <= |req.documentIds|
  {
    var loop := LoopRun(id, req.documentIds, docs, RequestSearch(req, env, llm), |req.documentIds|);
    if loop.outcome.Fail? then loop
    else Run(loop.effects + CompletionEffects(id, req, [], CreateAISummary([], req.model, env, llm)), Pass)
  }

  /**
   * `processResearchRequestQueue` on the store `t`: the writes it issues,
   * in order, and how it ends.
   */
  function ProcessRun(t: Tables, id: string, env: Env, llm: Llm): (r: Run)
    ensures id !in t.requests ==> r == Run([], Fail(NotFoundMessage(id)))
    ensures id in t.requests ==>
      |r.effects| >= 1 && r.effects[0] == RequestUpdated(id, StatusPatch(ResearchingStatus(0, |t.requests[id].documentIds|)))
    ensures r.outcome == Pass ==> id in t.requests && r.effects[|r.effects| - 1] == RequestDeleted(id)
  {
    if id !in t.requests then Run([], Fail(NotFoundMessage(id)))
    else
      var req := t.requests[id];
      var rest := ResearchRun(id, req, t.documents, env, llm);
      Run([RequestUpdated(id, StatusPatch(ResearchingStatus(0, |req.documentIds|)))] + rest.effects, rest.outcome)
  }

  // ---------------------------------------------------------------------------
  // Properties of the loop

  /** One iteration of the loop after iterations that did not raise. */
  lemma LoopRunStep(id: string, documentIds: seq<string>, docs: map<string, Document>, search: Search, i: nat)
    requires i < |documentIds|
    requires LoopRun(id, documentIds, docs, search, i).outcome == Pass
    ensures var prev := LoopRun(id, documentIds, docs, search, i);
      var next := LoopRun(id, documentIds, docs, search, i + 1);
      && (documentIds[i] !in docs ==> next == prev)
      && (documentIds[i] in docs && search(docs[documentIds[i]]).Failure? ==>
            next == Run(prev.effects, Fail(search(docs[documentIds[i]]).error)))
      && (documentIds[i] in docs && search(docs[documentIds[i]]).Success? ==>
            next == Run(prev.effects + [RequestUpdated(id, ProgressPatch(i + 1, |documentIds|,
                                                                       search(docs[documentIds[i]]).value))], Pass))
  {
  }

  /**
   * One iteration of the loop over a present document whose search does not
   * raise: the loop's writes gain that document's progress update, and the
   * store after them is the store before with the update applied.
   */
  lemma ProgressIteration(t: Tables, written: seq<Effect>, id: string, documentIds: seq<string>,
                          docs: map<string, Document>, search: Search, i: nat)
    requires i < |documentIds| && documentIds[i] in docs && search(docs[documentIds[i]]).Success?
    requires LoopRun(id, documentIds, docs, search, i) == Run(written, Pass)
    ensures var update := RequestUpdated(id, ProgressPatch(i + 1, |documentIds|, search(docs[documentIds[i]]).value));
      && LoopRun(id, documentIds, docs, search, i + 1) == Run(written + [update], Pass)
      && ApplyAll(t, written + [update]) == Apply(ApplyAll(t, written), update)
  {
    LoopRunStep(id, documentIds, docs, search, i);
    ApplyAllSnoc(t, written, RequestUpdated(id, ProgressPatch(i + 1, |documentIds|, search(docs[documentIds[i]]).value)));
  }

  /** Once a search has raised, the remaining iterations do nothing. */
  lemma {:induction false} LoopRunSticks(id: string, documentIds: seq<string>, docs: map<string, Document>,
                                         search: Search, k: nat, m: nat)
    requires k <= m <= |documentIds|
    requires LoopRun(id, documentIds, docs, search, k).outcome.Fail?
    ensures LoopRun(id, documentIds, docs, search, m) == LoopRun(id, documentIds, docs, search, k)
    decreases m
  {
    if m > k {
      LoopRunSticks(id, documentIds, docs, search, k, m - 1);
    }
  }

  /**
   * `es` holds one progress update per index of `ps`, in the same order:
   * the search of the document at `ps[j]` did not raise, and the update
   * counts `ps[j] + 1` and carries that document's findings alone.
   */
  predicate UpdatesFor(id: string, documentIds: seq<string>, docs: map<string, Document>, search: Search,
                       ps: seq<nat>, es: seq<Effect>)
  {
    && |es| == |ps|
    && forall j :: 0 <= j < |ps| ==> (
         && ps[j] < |documentIds| && documentIds[ps[j]] in docs
         && search(docs[documentIds[ps[j]]]).Success?
         && es[j] == RequestUpdated(id, ProgressPatch(ps[j] + 1, |documentIds|, search(docs[documentIds[ps[j]]]).value)))
  }

  /**
   * A loop that does not raise writes one progress update per present
   * document, in document order: after document `i` the status counts
   * `i + 1` and the findings are that document's findings alone.
   */
  lemma {:induction false} LoopWritesPresentDocuments(id: string, documentIds: seq<string>, docs: map<string, Document>,
                                                      search: Search, k: nat)
    requires k <= |documentIds|
    requires LoopRun(id, documentIds, docs, search, k).outcome == Pass
    ensures UpdatesFor(id, documentIds, docs, search, PresentIndices(documentIds, docs, k),
                       LoopRun(id, documentIds, docs, search, k).effects)
    decreases k
  {
    if k > 0 {
      var prev := LoopRun(id, documentIds, docs, search, k - 1);
      assert prev.outcome == Pass;
      LoopWritesPresentDocuments(id, documentIds, docs, search, k - 1);
      LoopRunStep(id, documentIds, docs, search, k - 1);
      var ps0 := PresentIndices(documentIds, docs, k - 1);
      if documentIds[k - 1] in docs {
        var findings := search(docs[documentIds[k - 1]]).value;
        var update := RequestUpdated(id, ProgressPatch(k, |documentIds|, findings));
        assert LoopRun(id, documentIds, docs, search, k).effects == prev.effects + [update];
        assert PresentIndices(documentIds, docs, k) == ps0 + [k - 1];
        UpdatesForSnoc(id, documentIds, docs, search, ps0, prev.effects, k - 1);
      } else {
        assert LoopRun(id, documentIds, docs, search, k) == prev;
        assert PresentIndices(documentIds, docs, k) == ps0;
      }
    }
  }

  /** The inductive step of `LoopWritesPresentDocuments`: one more present document, one more update. */
  lemma UpdatesForSnoc(id: string, documentIds: seq<string>, docs: map<string, Document>, search: Search,
                       ps: seq<nat>, es: seq<Effect>, i: nat)
    requires i < |documentIds| && documentIds[i] in docs && search(docs[documentIds[i]]).Success?
    requires UpdatesFor(id, documentIds, docs, search, ps, es)
    ensures UpdatesFor(id, documentIds, docs, search, ps + [i],
                       es + [RequestUpdated(id, ProgressPatch(i + 1, |documentIds|, search(docs[documentIds[i]]).value))])
  {
    var ps' := ps + [i];
    var es' := es + [RequestUpdated(id, ProgressPatch(i + 1, |documentIds|, search(docs[documentIds[i]]).value))];
    forall j | 0 <= j < |ps'|
      ensures ps'[j] < |documentIds| && documentIds[ps'[j]] in docs
      ensures search(docs[documentIds[ps'[j]]]).Success?
      ensures es'[j] == RequestUpdated(id, ProgressPatch(ps'[j] + 1, |documentIds|, search(docs[documentIds[ps'[j]]]).value))
    {
      if j < |ps| {
        assert ps'[j] == ps[j] && es'[j] == es[j];
      }
    }
  }

  /**
   * A loop that raises stops at the first present document whose search
   * raises: the iterations before it did not raise, the error is that
   * search's, and the loop's writes are exactly those made before it.
   */
  lemma {:induction false} LoopFailureIsSearchError(id: string, documentIds: seq<string>, docs: map<string, Document>,
                                                    search: Search, k: nat)
    requires k <= |documentIds|
    requires LoopRun(id, documentIds, docs, search, k).outcome.Fail?
    ensures exists i :: (0 <= i < k && documentIds[i] in docs
                         && LoopRun(id, documentIds, docs, search, i).outcome == Pass
                         && search(docs[documentIds[i]]) == Failure(LoopRun(id, documentIds, docs, search, k).outcome.error)
                         && LoopRun(id, documentIds, docs, search, k).effects == LoopRun(id, documentIds, docs, search, i).effects)
    decreases k
  {
    var prev := LoopRun(id, documentIds, docs, search, k - 1);
    if prev.outcome.Fail? {
      LoopFailureIsSearchError(id, documentIds, docs, search, k - 1);
    } else {
      assert documentIds[k - 1] in docs;
    }
  }

  /** A write of the shape every progress update has. */
  predicate ProgressForm(id: string, total: nat, e: Effect) {
    && e.RequestUpdated? && e.id == id
    && e.patch.status.Some? && IsResearchingStatus(e.patch.status.value, total)
  }

  /** Every write of the loop, finished or not, is a progress update of the request. */
  lemma {:induction false} LoopWritesProgress(id: string, documentIds: seq<string>, docs: map<string, Document>,
                                              search: Search, k: nat)
    requires k <= |documentIds|
    ensures forall j :: 0 <= j < |LoopRun(id, documentIds, docs, search, k).effects| ==>
      ProgressForm(id, |documentIds|, LoopRun(id, documentIds, docs, search, k).effects[j])
    decreases k
  {
    if k > 0 {
      LoopWritesProgress(id, documentIds, docs, search, k - 1);
      var prev := LoopRun(id, documentIds, docs, search, k - 1);
      var documentId := documentIds[k - 1];
      if !prev.outcome.Fail? && documentId in docs && search(docs[documentId]).Success? {
        var update := RequestUpdated(id, ProgressPatch(k, |documentIds|, search(docs[documentId]).value));
        var run := prev.effects + [update];
        assert LoopRun(id, documentIds, docs, search, k).effects == run;
        assert update.patch.status.value == ResearchingStatus(k, |documentIds|);
        assert ProgressForm(id, |documentIds|, update);
        assert forall j :: 0 <= j < |prev.effects| ==> run[j] == prev.effects[j];
      }
    }
  }

  /**
   * When every search raises the same error, the loop raises it at the
   * first present document; with none present it does nothing.
   */
  lemma {:induction false} LoopRunAllFail(id: string, documentIds: seq<string>, docs: map<string, Document>,
                                          search: Search, k: nat, e: string)
    requires k <= |documentIds|
    requires forall d :: search(d) == Failure(e)
    ensures var run := LoopRun(id, documentIds, docs, search, k);
      && run.effects == []
      && (|PresentIndices(documentIds, docs, k)| == 0 ==> run.outcome == Pass)
      && (|PresentIndices(documentIds, docs, k)| > 0 ==> run.outcome == Fail(e))
    decreases k
  {
    if k > 0 {
      LoopRunAllFail(id, documentIds, docs, search, k - 1, e);
    }
  }

  // ---------------------------------------------------------------------------
  // Properties of the whole run

  /**
   * Progress updates of request `id` keep every other table and every other
   * request as they were, keep `id` present, and leave it with a progress
   * status.
   */
  lemma {:induction false} ProgressWritesKeepShape(t: Tables, id: string, total: nat, es: seq<Effect>)
    requires id in t.requests
    requires forall j :: 0 <= j < |es| ==> ProgressForm(id, total, es[j])
    ensures var u := ApplyAll(t, es);
      && u.documents == t.documents && u.activityLog == t.activityLog
      && u.apiKeys == t.apiKeys && u.queue == t.queue
      && u.requests.Keys == t.requests.Keys
      && (forall o :: o in t.requests && o != id ==> u.requests[o] == t.requests[o])
      && (es != [] ==> IsResearchingStatus(u.requests[id].status, total))
    decreases |es|
  {
    if es != [] {
      var init := es[..|es| - 1];
      assert forall j :: 0 <= j < |init| ==> init[j] == es[j];
      ProgressWritesKeepShape(t, id, total, init);
    }
  }

  /** The writes before the completion are all progress updates of the request. */
  lemma ResearchWritesAreProgress(t: Tables, id: string, env: Env, llm: Llm)
    requires id in t.requests
    ensures ResearchEffects(t, id, env, llm) != []
    ensures forall j :: 0 <= j < |ResearchEffects(t, id, env, llm)| ==>
      ProgressForm(id, |t.requests[id].documentIds|, ResearchEffects(t, id, env, llm)[j])
  {
    var req := t.requests[id];
    var total := |req.documentIds|;
    var search := RequestSearch(req, env, llm);
    LoopWritesProgress(id, req.documentIds, t.documents, search, total);
    var loop := LoopRun(id, req.documentIds, t.documents, search, total).effects;
    assert IsResearchingStatus(ResearchingStatus(0, total), total);
    var es := ResearchEffects(t, id, env, llm);
    assert es == [es[0]] + loop;
    assert ProgressForm(id, total, es[0]);
    assert forall j :: 1 <= j < |es| ==> es[j] == loop[j - 1];
  }

  /** The completion writes delete the request and append one archive entry. */
  lemma ApplyCompletion(u: Tables, id: string, req: ResearchRequest, findings: seq<Finding>, summary: Summary)
    ensures var v := ApplyAll(u, CompletionEffects(id, req, findings, summary));
      && v.requests == u.requests - {id}
      && v.activityLog == u.activityLog + [ActivityLog(req.model, req.documentIds, req.userSearchQuery,
                                                       req.sequentialQuery, "completed", findings, summary)]
      && v.documents == u.documents && v.apiKeys == u.apiKeys && v.queue == u.queue
  {
    var es := CompletionEffects(id, req, findings, summary);
    ApplyAllThree(u, es[0], es[1], es[2]);
  }

  /**
   * A run that completes deletes the request, appends one activity-log
   * entry with the request's fields, status `completed`, no findings and
   * the summary of no findings, and changes nothing else.
   */
  lemma ProcessSuccessState(t: Tables, id: string, env: Env, llm: Llm)
    requires ProcessRun(t, id, env, llm).outcome == Pass
    ensures id in t.requests
    ensures var req := t.requests[id];
      var u := ApplyAll(t, ProcessRun(t, id, env, llm).effects);
      && u.requests == t.requests - {id}
      && u.activityLog == t.activityLog + [ActivityLog(req.model, req.documentIds, req.userSearchQuery,
                                                       req.sequentialQuery, "completed", [],
                                                       CreateAISummary([], req.model, env, llm))]
      && u.documents == t.documents && u.apiKeys == t.apiKeys && u.queue == t.queue
  {
    var req := t.requests[id];
    var es := ResearchEffects(t, id, env, llm);
    var summary := CreateAISummary([], req.model, env, llm);
    assert ProcessRun(t, id, env, llm).effects == es + CompletionEffects(id, req, [], summary);
    ResearchWritesAreProgress(t, id, env, llm);
    CompletedRunState(t, id, |req.documentIds|, es, req, [], summary);
  }

  /** Progress updates followed by the completion writes, whatever the summary. */
  lemma CompletedRunState(t: Tables, id: string, total: nat, es: seq<Effect>, req: ResearchRequest,
                          findings: seq<Finding>, summary: Summary)
    requires id in t.requests
    requires forall j :: 0 <= j < |es| ==> ProgressForm(id, total, es[j])
    ensures var u := ApplyAll(t, es + CompletionEffects(id, req, findings, summary));
      && u.requests == t.requests - {id}
      && u.activityLog == t.activityLog + [ActivityLog(req.model, req.documentIds, req.userSearchQuery,
                                                       req.sequentialQuery, "completed", findings, summary)]
      && u.documents == t.documents && u.apiKeys == t.apiKeys && u.queue == t.queue
  {
    ProgressWritesKeepShape(t, id, total, es);
    ApplyAllConcat(t, es, CompletionEffects(id, req, findings, summary));
    var u := ApplyAll(t, es);
    ApplyCompletion(u, id, req, findings, summary);
    assert u.requests - {id} == t.requests - {id};
  }

  /** An absent request raises before any write. */
  lemma ProcessMissingRequest(t: Tables, id: string, env: Env, llm: Llm)
    requires id !in t.requests
    ensures ProcessRun(t, id, env, llm) == Run([], Fail(NotFoundMessage(id)))
    ensures ApplyAll(t, ProcessRun(t, id, env, llm).effects) == t
  {
  }

  /**
   * A run that raises after loading the request leaves the request in place
   * with a progress status, adds no activity-log entry, changes no other
   * table or request, and reports a search error: the dispatcher's or the
   * metadata TypeError.
   */
  lemma ProcessAbortState(t: Tables, id: string, env: Env, llm: Llm)
    requires id in t.requests
    requires ProcessRun(t, id, env, llm).outcome.Fail?
    ensures var req := t.requests[id];
      var run := ProcessRun(t, id, env, llm);
      var u := ApplyAll(t, run.effects);
      && (run.outcome.error == UnsupportedModelMessage(req.model) || run.outcome.error == TypeErrorMessage)
      && id in u.requests && IsResearchingStatus(u.requests[id].status, |req.documentIds|)
      && u.requests.Keys == t.requests.Keys
      && (forall o :: o in t.requests && o != id ==> u.requests[o] == t.requests[o])
      && u.activityLog == t.activityLog
      && u.documents == t.documents && u.apiKeys == t.apiKeys && u.queue == t.queue
  {
    var req := t.requests[id];
    var total := |req.documentIds|;
    ResearchWritesAreProgress(t, id, env, llm);
    ProgressWritesKeepShape(t, id, total, ResearchEffects(t, id, env, llm));
    LoopFailureIsSearchError(id, req.documentIds, t.documents, RequestSearch(req, env, llm), total);
  }

  /**
   * With a model the dispatcher does not know, the run raises the
   * dispatcher's error as soon as one document exists; when none of the
   * documents exists it completes with the unsupported-model summary.
   */
  lemma UnsupportedModelRun(t: Tables, id: string, env: Env, llm: Llm)
    requires id in t.requests
    requires GetAIModelResponse(t.requests[id].model).Failure?
    ensures var req := t.requests[id];
      var run := ProcessRun(t, id, env, llm);
      var present := PresentIndices(req.documentIds, t.documents, |req.documentIds|);
      && (|present| > 0 ==> run.outcome == Fail(UnsupportedModelMessage(req.model)))
      && (|present| == 0 ==> (
            && run.outcome == Pass
            && run.effects == [RequestUpdated(id, StatusPatch(ResearchingStatus(0, |req.documentIds|)))]
                              + CompletionEffects(id, req, [], Summary(UnsupportedSummary))))
  {
    var req := t.requests[id];
    var search := RequestSearch(req, env, llm);
    LoopRunAllFail(id, req.documentIds, t.documents, search, |req.documentIds|, UnsupportedModelMessage(req.model));
    var loop := LoopRun(id, req.documentIds, t.documents, search, |req.documentIds|);
    var rest := ResearchRun(id, req, t.documents, env, llm);
    var first := RequestUpdated(id, StatusPatch(ResearchingStatus(0, |req.documentIds|)));
    assert ProcessRun(t, id, env, llm) == Run([first] + rest.effects, rest.outcome);
    if loop.outcome == Pass {
      assert CreateAISummary([], req.model, env, llm) == Summary(UnsupportedSummary);
      assert rest == Run([] + CompletionEffects(id, req, [], Summary(UnsupportedSummary)), Pass);
    } else {
      assert rest == loop;
    }
  }

  // ---------------------------------------------------------------------------
  // The orchestrator

  /** The three writes after the loop: `completed` with the summary, the archive entry, the deletion. */
  method CompleteRequest(db: Database, requestId: string, pendingRequest: ResearchRequest,
                         allFindings: seq<Finding>, overallSummary: Summary)
    requires requestId in db.requests
    modifies db
    ensures db.Snapshot() == ApplyAll(old(db.Snapshot()),
                                      CompletionEffects(requestId, pendingRequest, allFindings, overallSummary))
    ensures db.history == old(db.history) + CompletionEffects(requestId, pendingRequest, allFindings, overallSummary)
  {
    ghost var t0 := db.Snapshot();
    var _ := db.UpdateRequest(requestId, CompletionPatch(overallSummary));
    var entry := ActivityLog(pendingRequest.model, pendingRequest.documentIds, pendingRequest.userSearchQuery,
                             pendingRequest.sequentialQuery, "completed", allFindings, overallSummary);
    db.CreateActivityLog(entry);
    var _ := db.DeleteRequest(requestId);
    ghost var es := CompletionEffects(requestId, pendingRequest, allFindings, overallSummary);
    ApplyAllThree(t0, es[0], es[1], es[2]);
  }

  /** `processResearchRequestQueue`, issuing its writes against the store. */
  method ProcessResearchRequestQueue(db: Database, requestId: string, env: Env, llm: Llm) returns (r: Outcome<string>)
    modifies db
    ensures var run := ProcessRun(old(db.Snapshot()), requestId, env, llm);
      && r == run.outcome
      && db.Snapshot() == ApplyAll(old(db.Snapshot()), run.effects)
      && db.history == old(db.history) + run.effects
  {
    ghost var t0 := db.Snapshot();
    if requestId !in db.requests {
      return Fail(NotFoundMessage(requestId));
    }
    var pendingRequest := db.requests[requestId];
    var first := RequestUpdated(requestId, StatusPatch(ResearchingStatus(0, |pendingRequest.documentIds|)));
    var _ := db.UpdateRequest(requestId, StatusPatch(ResearchingStatus(0, |pendingRequest.documentIds|)));
    assert ApplyAll(t0, [first]) == Apply(ApplyAll(t0, []), first);
    ghost var rest := ResearchRun(requestId, pendingRequest, t0.documents, env, llm);
    r := ResearchAndComplete(db, requestId, pendingRequest, env, llm);
    ApplyAllConcat(t0, [first], rest.effects);
  }

  /**
   * Everything after the initial status write: the document loop, then,
   * unless a search raised, the summary of the outer accumulator and the
   * completion writes.
   */
  method ResearchAndComplete(db: Database, requestId: string, pendingRequest: ResearchRequest, env: Env, llm: Llm)
    returns (r: Outcome<string>)
    requires requestId in db.requests
    modifies db
    ensures var run := ResearchRun(requestId, pendingRequest, old(db.documents), env, llm);
      && r == run.outcome
      && db.Snapshot() == ApplyAll(old(db.Snapshot()), run.effects)
      && db.history == old(db.history) + run.effects
  {
    ghost var t0 := db.Snapshot();
    ghost var loop := LoopRun(requestId, pendingRequest.documentIds, t0.documents,
                              RequestSearch(pendingRequest, env, llm), |pendingRequest.documentIds|);
    var outcome, allFindings := ResearchDocuments(db, requestId, pendingRequest, RequestSearch(pendingRequest, env, llm));
    if outcome.Fail? {
      return outcome;
    }
    var overallSummary := CreateAISummary(allFindings, pendingRequest.model, env, llm);
    CompleteRequest(db, requestId, pendingRequest, allFindings, overallSummary);
    ApplyAllConcat(t0, loop.effects, CompletionEffects(requestId, pendingRequest, allFindings, overallSummary));
    return Pass;
  }

  /**
   * The document loop of `processResearchRequestQueue`; `search` is the
   * call `handleDocumentSearch(getDocumentChunks(document), ...)` with the
   * request's query, mode and model (`RequestSearch`). `allFindings` is the
   * accumulator declared before the loop; the loop body declares its own
   * `allFindings`, so the outer one is still empty when the loop ends.
   */
  method ResearchDocuments(db: Database, requestId: string, pendingRequest: ResearchRequest, search: Search)
    returns (r: Outcome<string>, allFindings: seq<Finding>)
    requires requestId in db.requests
    modifies db
    ensures allFindings == []
    ensures var loop := LoopRun(requestId, pendingRequest.documentIds, old(db.documents),
                                search, |pendingRequest.documentIds|);
      && r == loop.outcome
      && db.Snapshot() == ApplyAll(old(db.Snapshot()), loop.effects)
      && db.history == old(db.history) + loop.effects
      && requestId in db.requests
  {
    ghost var t0 := db.Snapshot();
    ghost var h0 := db.history;
    var total := |pendingRequest.documentIds|;
    ghost var written: seq<Effect> := [];

    allFindings := [];
    var i := 0;
    while i < total
      invariant 0 <= i <= total
      invariant LoopRun(requestId, pendingRequest.documentIds, t0.documents, search, i) == Run(written, Pass)
      invariant db.documents == t0.documents && requestId in db.requests
      invariant db.Snapshot() == ApplyAll(t0, written)
      invariant db.history == h0 + written
    {
      var documentId := pendingRequest.documentIds[i];
      if documentId !in db.documents {
        LoopRunStep(requestId, pendingRequest.documentIds, t0.documents, search, i);
        i := i + 1;
        continue;
      }
      var document := db.documents[documentId];
      var findings := search(document);
      if findings.Failure? {
        LoopRunStep(requestId, pendingRequest.documentIds, t0.documents, search, i);
        LoopRunSticks(requestId, pendingRequest.documentIds, t0.documents, search, i + 1, total);
        return Fail(findings.error), allFindings;
      }

      var allFindings: seq<Finding> := [];
      allFindings := allFindings + findings.value;
      assert allFindings == findings.value;

      ProgressIteration(t0, written, requestId, pendingRequest.documentIds, t0.documents, search, i);
      ghost var update := RequestUpdated(requestId, ProgressPatch(i + 1, total, allFindings));
      var _ := db.UpdateRequest(requestId, ProgressPatch(i + 1, total, allFindings));
      written := written + [update];
      i := i + 1;
    }
    return Pass, allFindings;
  }
}
