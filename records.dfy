/**
 * The records the research pipeline stores and passes around: documents,
 * research requests, activity-log entries, API keys, queue jobs, and the
 * HTTP responses the controllers and the middleware produce.
 */
module Records {
  import opened Wrappers

  /** Process configuration (`process.env`): variable name to value. */
  type Env = map<string, string>

  /** `!process.env[name]` is false: the variable is set to a non-empty string. */
  predicate Configured(env: Env, name: string) {
    name in env && env[name] != ""
  }

  /** One `{key, value}` pair of a document's `metadata.attributes` list. */
  datatype Attribute = Attribute(key: string, value: string)

  /**
   * A document's metadata object. `attributes` is `None` when the object has
   * no `attributes` list (for instance the default `{}`).
   */
  datatype Metadata = Metadata(attributes: Option<seq<Attribute>>)

  /** The metadata object `{}`. */
  const EmptyMetadata: Metadata := Metadata(None)

  /** A unit of document content sent to a provider. */
  datatype Chunk = Chunk(content: string, metadata: Metadata)

  /** One chunk's provider response with its extracted title and page. */
  datatype Finding = Finding(title: string, page: string, content: string)

  /** The `{summary}` object the summary generator returns. */
  datatype Summary = Summary(summary: string)

  /** A row of the document table. */
  datatype Document = Document(id: string, content: string, metadata: Metadata)

  /** A row of the live research-request table (`AIRequestQueue`). */
  datatype ResearchRequest = ResearchRequest(
    id: string,
    model: string,
    documentIds: seq<string>,
    userSearchQuery: string,
    sequentialQuery: bool,
    status: string,
    individualFindings: Option<seq<Finding>>,
    overallSummary: Option<Summary>)

  /** A row of the activity log (`AIActivityLog`): the archive of a completed request. */
  datatype ActivityLog = ActivityLog(
    model: string,
    documentIds: seq<string>,
    userSearchQuery: string,
    sequentialQuery: bool,
    status: string,
    individualFindings: seq<Finding>,
    overallSummary: Summary)

  /** A row of the API-key table. */
  datatype ApiKeyRecord = ApiKeyRecord(key: string, createdAt: int)

  /** The payload of one queue job. */
  datatype Job = Job(requestId: string)

  /** The `data` of a partial update of a research request: `None` leaves a field as it is. */
  datatype Patch = Patch(status: Option<string>, individualFindings: Option<seq<Finding>>, overallSummary: Option<Summary>)

  /** A partial update changes the fields its patch names and nothing else. */
  function ApplyPatch(r: ResearchRequest, p: Patch): (u: ResearchRequest)
    ensures u.id == r.id && u.model == r.model && u.documentIds == r.documentIds
    ensures u.userSearchQuery == r.userSearchQuery && u.sequentialQuery == r.sequentialQuery
    ensures p.status.Some? ==> u.status == p.status.value
    ensures p.status.None? ==> u.status == r.status
    ensures p.individualFindings.Some? ==> u.individualFindings == p.individualFindings
    ensures p.individualFindings.None? ==> u.individualFindings == r.individualFindings
    ensures p.overallSummary.Some? ==> u.overallSummary == p.overallSummary
    ensures p.overallSummary.None? ==> u.overallSummary == r.overallSummary
  {
    r.(status := p.status.GetOr(r.status),
       individualFindings := if p.individualFindings.Some? then p.individualFindings else r.individualFindings,
       overallSummary := if p.overallSummary.Some? then p.overallSummary else r.overallSummary)
  }

  /** The JSON body of an HTTP response. */
  datatype Reply =
    | ErrorReply(error: string)
    | ServerErrorReply(error: string, message: string)
    | RequestIdReply(requestId: string)
    | RecordReply(record: ResearchRequest)

  /** An HTTP response: status code and JSON body. */
  datatype Response = Response(status: int, reply: Reply)
}
