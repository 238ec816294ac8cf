/**
 * The persistent store (the Prisma tables) and the job queue, as one object
 * whose methods are the store calls the pipeline makes. Every successful
 * call appends what it wrote to a ghost `history`, so that the order of
 * writes an operation performs can be stated.
 */
module Store {
  import opened Wrappers
  import opened Records

  /** What the store holds, table by table. */
  datatype Tables = Tables(
    requests: map<string, ResearchRequest>,
    documents: map<string, Document>,
    activityLog: seq<ActivityLog>,
    apiKeys: map<string, ApiKeyRecord>,
    queue: seq<Job>)

  /** One successful write to the store or the queue. */
  datatype Effect =
    | DocumentCreated(document: Document)
    | RequestCreated(request: ResearchRequest)
    | RequestUpdated(id: string, patch: Patch)
    | ActivityLogged(entry: ActivityLog)
    | RequestDeleted(id: string)
    | ApiKeyCreated(record: ApiKeyRecord)
    | JobAdded(job: Job)

  /** A sequence of writes together with how the operation that issued them ended. */
  datatype Run = Run(effects: seq<Effect>, outcome: Outcome<string>)

  /** The error an update of an absent record raises. */
  const RecordNotFound: string := "Record to update not found."

  /** The error a delete of an absent record raises. */
  const RecordToDeleteNotFound: string := "Record to delete does not exist."

  /** The error a create raises when the new record's unique field `field` is already taken. */
  function UniqueViolation(field: string): string {
    "Unique constraint failed on the fields: (`" + field + "`)"
  }

  /** A taken `id`: the unique field of documents and requests. */
  const IdTaken: string := UniqueViolation("id")

  /** A taken `key`: the unique field of API keys. */
  const KeyTaken: string := UniqueViolation("key")

  /** The meaning of one write. */
  function Apply(t: Tables, e: Effect): Tables {
    match e
    case DocumentCreated(d) => t.(documents := t.documents[d.id := d])
    case RequestCreated(r) => t.(requests := t.requests[r.id := r])
    case RequestUpdated(id, p) =>
      if id in t.requests then t.(requests := t.requests[id := ApplyPatch(t.requests[id], p)]) else t
    case ActivityLogged(entry) => t.(activityLog := t.activityLog + [entry])
    case RequestDeleted(id) => t.(requests := t.requests - {id})
    case ApiKeyCreated(k) => t.(apiKeys := t.apiKeys[k.key := k])
    case JobAdded(j) => t.(queue := t.queue + [j])
  }

  /** The meaning of a sequence of writes, issued left to right. */
  function ApplyAll(t: Tables, es: seq<Effect>): Tables
    decreases |es|
  {
    if es == [] then t else Apply(ApplyAll(t, es[..|es| - 1]), es[|es| - 1])
  }

  lemma ApplyAllSnoc(t: Tables, es: seq<Effect>, e: Effect)
    ensures ApplyAll(t, es + [e]) == Apply(ApplyAll(t, es), e)
  {
    assert (es + [e])[..|es + [e]| - 1] == es;
  }

  lemma ApplyAllThree(t: Tables, a: Effect, b: Effect, c: Effect)
    ensures ApplyAll(t, [a, b, c]) == Apply(Apply(Apply(t, a), b), c)
  {
    assert [a, b, c] == [a, b] + [c] && [a, b] == [a] + [b] && [a] == [] + [a];
    ApplyAllSnoc(t, [a, b], c);
    ApplyAllSnoc(t, [a], b);
    ApplyAllSnoc(t, [], a);
  }

  lemma {:induction false} ApplyAllConcat(t: Tables, a: seq<Effect>, b: seq<Effect>)
    ensures ApplyAll(t, a + b) == ApplyAll(ApplyAll(t, a), b)
    decreases |b|
  {
    if b == [] {
      assert a + b == a;
    } else {
      var b' := b[..|b| - 1];
      assert a + b == (a + b') + [b[|b| - 1]];
      ApplyAllSnoc(t, a + b', b[|b| - 1]);
      ApplyAllConcat(t, a, b');
    }
  }

  class Database {
    var requests: map<string, ResearchRequest>
    var documents: map<string, Document>
    var activityLog: seq<ActivityLog>
    var apiKeys: map<string, ApiKeyRecord>
    var queue: seq<Job>
    /** Every successful write so far, in order. */
    ghost var history: seq<Effect>

    function Snapshot(): Tables
      reads this
    {
      Tables(requests, documents, activityLog, apiKeys, queue)
    }

    constructor (initial: Tables)
      ensures Snapshot() == initial && history == []
    {
      requests := initial.requests;
      documents := initial.documents;
      activityLog := initial.activityLog;
      apiKeys := initial.apiKeys;
      queue := initial.queue;
      history := [];
    }

    /** `document.create`: fails if the key is taken. */
    method CreateDocument(d: Document) returns (r: Outcome<string>)
      modifies this
      ensures d.id !in old(documents) ==> (r == Pass
        && Snapshot() == Apply(old(Snapshot()), DocumentCreated(d)) && history == old(history) + [DocumentCreated(d)])
      ensures d.id in old(documents) ==> (r == Fail(IdTaken)
        && Snapshot() == old(Snapshot()) && history == old(history))
    {
      if d.id in documents {
        return Fail(IdTaken);
      }
      documents := documents[d.id := d];
      history := history + [DocumentCreated(d)];
      return Pass;
    }

    /** `aIRequestQueue.create`: fails if the key is taken. */
    method CreateRequest(q: ResearchRequest) returns (r: Outcome<string>)
      modifies this
      ensures q.id !in old(requests) ==> (r == Pass
        && Snapshot() == Apply(old(Snapshot()), RequestCreated(q)) && history == old(history) + [RequestCreated(q)])
      ensures q.id in old(requests) ==> (r == Fail(IdTaken)
        && Snapshot() == old(Snapshot()) && history == old(history))
    {
      if q.id in requests {
        return Fail(IdTaken);
      }
      requests := requests[q.id := q];
      history := history + [RequestCreated(q)];
      return Pass;
    }

    /** `aIRequestQueue.update`: fails if the record is absent. */
    method UpdateRequest(id: string, p: Patch) returns (r: Outcome<string>)
      modifies this
      ensures id in old(requests) ==> (r == Pass
        && Snapshot() == Apply(old(Snapshot()), RequestUpdated(id, p)) && history == old(history) + [RequestUpdated(id, p)])
      ensures id !in old(requests) ==> (r == Fail(RecordNotFound)
        && Snapshot() == old(Snapshot()) && history == old(history))
    {
      if id !in requests {
        return Fail(RecordNotFound);
      }
      requests := requests[id := ApplyPatch(requests[id], p)];
      history := history + [RequestUpdated(id, p)];
      return Pass;
    }

    /** `aIRequestQueue.delete`: fails if the record is absent. */
    method DeleteRequest(id: string) returns (r: Outcome<string>)
      modifies this
      ensures id in old(requests) ==> (r == Pass
        && Snapshot() == Apply(old(Snapshot()), RequestDeleted(id)) && history == old(history) + [RequestDeleted(id)])
      ensures id !in old(requests) ==> (r == Fail(RecordToDeleteNotFound)
        && Snapshot() == old(Snapshot()) && history == old(history))
    {
      if id !in requests {
        return Fail(RecordToDeleteNotFound);
      }
      requests := requests - {id};
      history := history + [RequestDeleted(id)];
      return Pass;
    }

    /** `aIActivityLog.create`: each entry gets a key of its own, so it always succeeds. */
    method CreateActivityLog(entry: ActivityLog)
      modifies this
      ensures Snapshot() == Apply(old(Snapshot()), ActivityLogged(entry))
      ensures history == old(history) + [ActivityLogged(entry)]
    {
      activityLog := activityLog + [entry];
      history := history + [ActivityLogged(entry)];
    }

    /** `apiKey.create`: fails if the key is taken. */
    method CreateApiKey(k: ApiKeyRecord) returns (r: Outcome<string>)
      modifies this
      ensures k.key !in old(apiKeys) ==> (r == Pass
        && Snapshot() == Apply(old(Snapshot()), ApiKeyCreated(k)) && history == old(history) + [ApiKeyCreated(k)])
      ensures k.key in old(apiKeys) ==> (r == Fail(KeyTaken)
        && Snapshot() == old(Snapshot()) && history == old(history))
    {
      if k.key in apiKeys {
        return Fail(KeyTaken);
      }
      apiKeys := apiKeys[k.key := k];
      history := history + [ApiKeyCreated(k)];
      return Pass;
    }

    /** `researchQueue.add`. */
    method AddJob(j: Job)
      modifies this
      ensures Snapshot() == Apply(old(Snapshot()), JobAdded(j))
      ensures history == old(history) + [JobAdded(j)]
    {
      queue := queue + [j];
      history := history + [JobAdded(j)];
    }
  }
}
