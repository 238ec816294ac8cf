/**
 * Provider dispatch, finding aggregation and summary generation.
 *
 * A provider call is an opaque deterministic function of its prompt
 * (`Llm`); only the OpenAI handler calls it, the six other handlers are
 * stubs that return a fixed text once their credentials are configured.
 */
module LangchainIntegration {
  import opened Wrappers
  import opened Records

  /** The seven handlers the dispatcher knows. */
  datatype Provider = OpenAI | AzureAI | AnthropicClaude | GoogleGemini | Mistral | Llama | Grok

  /** What a handler is asked: a query over one chunk, or a summary of findings. */
  datatype Prompt = SearchPrompt(query: string, chunk: Chunk) | SummaryPrompt(findings: seq<Finding>)

  /** The remote model: the response text, or the message of the error it raised. */
  type Llm = Prompt -> Result<string, string>

  /** The model name each handler is registered under. */
  function ProviderName(p: Provider): string {
    match p
    case OpenAI => "OpenAI"
    case AzureAI => "AzureAI"
    case AnthropicClaude => "AnthropicClaude"
    case GoogleGemini => "GoogleGemini"
    case Mistral => "Mistral"
    case Llama => "Llama"
    case Grok => "Grok"
  }

  function UnsupportedModelMessage(model: string): string {
    "Unsupported AI model: " + model
  }

  /** `getAIModelResponse`: the handler registered under `model`, or an error for any other name. */
  function GetAIModelResponse(model: string): (r: Result<Provider, string>)
    ensures r.Success? ==> ProviderName(r.value) == model
    ensures r.Failure? ==> r.error == UnsupportedModelMessage(model)
    ensures r.Failure? <==> forall p: Provider :: ProviderName(p) != model
  {
    match model
    case "OpenAI" => Success(OpenAI)
    case "AzureAI" => Success(AzureAI)
    case "AnthropicClaude" => Success(AnthropicClaude)
    case "GoogleGemini" => Success(GoogleGemini)
    case "Mistral" => Success(Mistral)
    case "Llama" => Success(Llama)
    case "Grok" => Success(Grok)
    case _ => Failure(UnsupportedModelMessage(model))
  }

  /** Every registered name dispatches back to its own handler. */
  lemma DispatchRoundTrip(p: Provider)
    ensures GetAIModelResponse(ProviderName(p)) == Success(p)
  {
    match p
    case OpenAI =>
    case AzureAI =>
    case AnthropicClaude =>
    case GoogleGemini =>
    case Mistral =>
    case Llama =>
    case Grok =>
  }

  /** The environment variables a handler requires before it does anything else. */
  function CredentialVars(p: Provider): seq<string> {
    match p
    case OpenAI => ["OPENAI_API_KEY"]
    case AzureAI => ["AZURE_AAI_API_KEY", "AZURE_AISEARCH_ENDPOINT"]
    case AnthropicClaude => ["ANTHROPIC_API_KEY"]
    case GoogleGemini => ["GOOGLE_GEMINI_API_KEY"]
    case Mistral => ["MISTRAL_API_KEY"]
    case Llama => ["LLAMA_API_KEY"]
    case Grok => ["GROK_API_KEY"]
  }

  predicate HasCredentials(env: Env, p: Provider) {
    forall i :: 0 <= i < |CredentialVars(p)| ==> Configured(env, CredentialVars(p)[i])
  }

  lemma HasCredentialsUnfolded(env: Env, p: Provider)
    ensures HasCredentials(env, p) <==>
      Configured(env, CredentialVars(p)[0]) && (p == AzureAI ==> Configured(env, CredentialVars(p)[1]))
  {
    if p == AzureAI {
      assert |CredentialVars(p)| == 2;
    } else {
      assert |CredentialVars(p)| == 1;
    }
  }

  /** The error a handler raises when a credential is missing. */
  function MissingCredentialMessage(p: Provider): string {
    match p
    case OpenAI => "OpenAI API Key not found in environment variables"
    case AzureAI => "Azure AI API Key or endpoint not found in environment variables"
    case AnthropicClaude => "Anthropic API Key not found in environment variables"
    case GoogleGemini => "Google Gemini API Key not found in environment variables"
    case Mistral => "Mistral API Key not found in environment variables"
    case Llama => "Llama API Key not found in environment variables"
    case Grok => "Grok API Key not found in environment variables"
  }

  /** The fixed content a stub handler returns. */
  function StubContent(p: Provider): string
    requires p != OpenAI
  {
    match p
    case AzureAI => "Azure AI response content"
    case AnthropicClaude => "Anthropic Claude response content"
    case GoogleGemini => "Google Gemini response content"
    case Mistral => "Mistral response content"
    case Llama => "Llama response content"
    case Grok => "Grok response content"
  }
  /** `createOpenAIResponse`: the key check, then one call to the model. */
  function CreateOpenAIResponse(env: Env, llm: Llm, prompt: Prompt): (r: Result<string, string>)
    ensures !HasCredentials(env, OpenAI) ==> r == Failure(MissingCredentialMessage(OpenAI))
    ensures HasCredentials(env, OpenAI) ==> r == llm(prompt)
  {
    HasCredentialsUnfolded(env, OpenAI);
    if !Configured(env, "OPENAI_API_KEY") then Failure("OpenAI API Key not found in environment variables")
    else llm(prompt)
  }

  /** `createAzureAIResponse`: both the key and the endpoint must be set. */
  function CreateAzureAIResponse(env: Env): (r: Result<string, string>)
    ensures !HasCredentials(env, AzureAI) ==> r == Failure(MissingCredentialMessage(AzureAI))
    ensures HasCredentials(env, AzureAI) ==> r == Success(StubContent(AzureAI))
  {
    HasCredentialsUnfolded(env, AzureAI);
    if !Configured(env, "AZURE_AAI_API_KEY") || !Configured(env, "AZURE_AISEARCH_ENDPOINT") then
      Failure("Azure AI API Key or endpoint not found in environment variables")
    else Success("Azure AI response content")
  }

  /** `createAnthropicClaudeResponse`. */
  function CreateAnthropicClaudeResponse(env: Env): (r: Result<string, string>)
    ensures !HasCredentials(env, AnthropicClaude) ==> r == Failure(MissingCredentialMessage(AnthropicClaude))
    ensures HasCredentials(env, AnthropicClaude) ==> r == Success(StubContent(AnthropicClaude))
  {
    HasCredentialsUnfolded(env, AnthropicClaude);
    if !Configured(env, "ANTHROPIC_API_KEY") then Failure("Anthropic API Key not found in environment variables")
    else Success("Anthropic Claude response content")
  }

  /** `createGoogleGeminiResponse`. */
  function CreateGoogleGeminiResponse(env: Env): (r: Result<string, string>)
    ensures !HasCredentials(env, GoogleGemini) ==> r == Failure(MissingCredentialMessage(GoogleGemini))
    ensures HasCredentials(env, GoogleGemini) ==> r == Success(StubContent(GoogleGemini))
  {
    HasCredentialsUnfolded(env, GoogleGemini);
    if !Configured(env, "GOOGLE_GEMINI_API_KEY") then Failure("Google Gemini API Key not found in environment variables")
    else Success("Google Gemini response content")
  }

  /** `createMistralResponse`. */
  function CreateMistralResponse(env: Env): (r: Result<string, string>)
    ensures !HasCredentials(env, Mistral) ==> r == Failure(MissingCredentialMessage(Mistral))
    ensures HasCredentials(env, Mistral) ==> r == Success(StubContent(Mistral))
  {
    HasCredentialsUnfolded(env, Mistral);
    if !Configured(env, "MISTRAL_API_KEY") then Failure("Mistral API Key not found in environment variables")
    else Success("Mistral response content")
  }

  /** `createLlamaResponse`. */
  function CreateLlamaResponse(env: Env): (r: Result<string, string>)
    ensures !HasCredentials(env, Llama) ==> r == Failure(MissingCredentialMessage(Llama))
    ensures HasCredentials(env, Llama) ==> r == Success(StubContent(Llama))
  {
    HasCredentialsUnfolded(env, Llama);
    if !Configured(env, "LLAMA_API_KEY") then Failure("Llama API Key not found in environment variables")
    else Success("Llama response content")
  }

  /** `createGrokResponse`. */
  function CreateGrokResponse(env: Env): (r: Result<string, string>)
    ensures !HasCredentials(env, Grok) ==> r == Failure(MissingCredentialMessage(Grok))
    ensures HasCredentials(env, Grok) ==> r == Success(StubContent(Grok))
  {
    HasCredentialsUnfolded(env, Grok);
    if !Configured(env, "GROK_API_KEY") then Failure("Grok API Key not found in environment variables")
    else Success("Grok response content")
  }

  /**
   * Calling the handler `getAIModelResponse` chose: its credential checks
   * come first and do not consult the model; then the OpenAI handler asks
   * the model and every other handler returns its stub text.
   */
  function InvokeHandler(p: Provider, env: Env, llm: Llm, prompt: Prompt): (r: Result<string, string>)
    ensures !HasCredentials(env, p) ==> r == Failure(MissingCredentialMessage(p))
    ensures HasCredentials(env, p) && p == OpenAI ==> r == llm(prompt)
    ensures HasCredentials(env, p) && p != OpenAI ==> r == Success(StubContent(p))
  {
    match p
    case OpenAI => CreateOpenAIResponse(env, llm, prompt)
    case AzureAI => CreateAzureAIResponse(env)
    case AnthropicClaude => CreateAnthropicClaudeResponse(env)
    case GoogleGemini => CreateGoogleGeminiResponse(env)
    case Mistral => CreateMistralResponse(env)
    case Llama => CreateLlamaResponse(env)
    case Grok => CreateGrokResponse(env)
  }

  // ---------------------------------------------------------------------------
  // Metadata extraction

  /** The message of the TypeError raised by `.find` on an absent attribute list. */
  const TypeErrorMessage: string := "Cannot read properties of undefined (reading 'find')"

  /** The index of the first attribute whose key is `key`, or `|attrs|` when there is none. */
  function FirstMatch(attrs: seq<Attribute>, key: string): (i: nat)
    ensures i <= |attrs|
    ensures forall j :: 0 <= j < i ==> attrs[j].key != key
    ensures i < |attrs| ==> attrs[i].key == key
    decreases |attrs|
  {
    if |attrs| == 0 then 0
    else if attrs[0].key == key then 0
    else 1 + FirstMatch(attrs[1..], key)
  }

  /** Array.prototype.find over the attribute list: the first attribute with that key. */
  function FindAttribute(attrs: seq<Attribute>, key: string): (r: Option<Attribute>)
    ensures r.Some? ==> r.value in attrs && r.value.key == key
    ensures r.None? <==> FirstMatch(attrs, key) == |attrs|
    decreases |attrs|
  {
    if |attrs| == 0 then None
    else if attrs[0].key == key then Some(attrs[0])
    else FindAttribute(attrs[1..], key)
  }

  lemma {:induction false} FindAttributeIsFirstMatch(attrs: seq<Attribute>, key: string)
    ensures var i := FirstMatch(attrs, key);
      FindAttribute(attrs, key) == if i < |attrs| then Some(attrs[i]) else None
    decreases |attrs|
  {
    if |attrs| > 0 && attrs[0].key != key {
      FindAttributeIsFirstMatch(attrs[1..], key);
    }
  }

  /**
   * `extractMetadataValue`: the value of the first attribute with that key,
   * `'N/A'` when no attribute has it, and a TypeError when there is no list.
   */
  function ExtractMetadataValue(attributes: Option<seq<Attribute>>, key: string): (r: Result<string, string>)
    ensures attributes.None? ==> r == Failure(TypeErrorMessage)
    ensures attributes.Some? && FirstMatch(attributes.value, key) == |attributes.value| ==> r == Success("N/A")
    ensures forall i ::
              (attributes.Some? && 0 <= i < |attributes.value| && attributes.value[i].key == key
               && (forall j :: 0 <= j < i ==> attributes.value[j].key != key))
              ==> r == Success(attributes.value[i].value)
  {
    match attributes
    case None => Failure(TypeErrorMessage)
    case Some(attrs) =>
      FindAttributeIsFirstMatch(attrs, key);
      var attribute := FindAttribute(attrs, key);
      if attribute.Some? then Success(attribute.value.value) else Success("N/A")
  }

  /** JavaScript `v || fallback` on a string. */
  function OrElse(v: string, fallback: string): string {
    if v == "" then fallback else v
  }

  /** The title a finding carries for a present attribute list. */
  function TitleOf(attrs: seq<Attribute>): string {
    var i := FirstMatch(attrs, "title");
    if i == |attrs| then "N/A" else OrElse(attrs[i].value, "Untitled Document")
  }

  /** The page a finding carries for a present attribute list. */
  function PageOf(attrs: seq<Attribute>): string {
    var i := FirstMatch(attrs, "pageNumber");
    if i == |attrs| then "N/A" else OrElse(attrs[i].value, "N/A")
  }

  /** The finding object literal: title and page extracted from the metadata, then the content. */
  function BuildFinding(metadata: Metadata, content: string): (r: Result<Finding, string>)
    ensures metadata.attributes.None? ==> r == Failure(TypeErrorMessage)
    ensures metadata.attributes.Some? ==>
      r == Success(Finding(TitleOf(metadata.attributes.value), PageOf(metadata.attributes.value), content))
  {
    match ExtractMetadataValue(metadata.attributes, "title")
    case Failure(e) => Failure(e)
    case Success(title) =>
      match ExtractMetadataValue(metadata.attributes, "pageNumber")
      case Failure(e) => Failure(e)
      case Success(page) => Success(Finding(OrElse(title, "Untitled Document"), OrElse(page, "N/A"), content))
  }

  /** With no title attribute the title is `'N/A'`, not the `'Untitled Document'` fallback. */
  lemma AbsentTitleIsNotApplicable(attrs: seq<Attribute>)
    requires forall i :: 0 <= i < |attrs| ==> attrs[i].key != "title"
    ensures TitleOf(attrs) == "N/A"
  {
    assert FirstMatch(attrs, "title") == |attrs|;
  }

  /**
   * `'Untitled Document'` appears only when the first title attribute is
   * falsy (or literally carries that text).
   */
  lemma UntitledOnlyForFalsyTitle(attrs: seq<Attribute>)
    requires TitleOf(attrs) == "Untitled Document"
    ensures exists i :: 0 <= i < |attrs| && attrs[i].key == "title"
                        && (forall j :: 0 <= j < i ==> attrs[j].key != "title")
                        && (attrs[i].value == "" || attrs[i].value == "Untitled Document")
  {
    var i := FirstMatch(attrs, "title");
    assert i < |attrs|;
  }

  // ---------------------------------------------------------------------------
  // Finding aggregation

  function ErrorContent(message: string): string {
    "Error processing chunk: " + message
  }

  /**
   * The body of the sequential loop's try/catch for one answer: the finding
   * built from the answer or, when the call raised, from its error text. The
   * catch block extracts the metadata again, so a chunk without an attribute
   * list raises out of the loop either way.
   */
  function FindingFromAnswer(metadata: Metadata, answer: Result<string, string>): (r: Result<Finding, string>)
    ensures metadata.attributes.None? ==> r == Failure(TypeErrorMessage)
    ensures metadata.attributes.Some? ==> r.Success?
  {
    match answer
    case Success(c) =>
      (match BuildFinding(metadata, c)
       case Success(f) => Success(f)
       case Failure(e) => BuildFinding(metadata, ErrorContent(e)))
    case Failure(m) => BuildFinding(metadata, ErrorContent(m))
  }

  /** A question about one chunk, put to the handler `getAIModelResponse` chose. */
  type Ask = Chunk -> Result<string, string>

  /**
   * The handler call `handleDocumentSearch` makes for each chunk. Without
   * credentials every chunk gets the same error, and a stub handler gives
   * every chunk the same text, whatever the model; only the OpenAI handler
   * puts the query over that chunk to the model.
   */
  function AskHandler(p: Provider, env: Env, llm: Llm, query: string): (ask: Ask)
    ensures !HasCredentials(env, p) ==> forall chunk :: ask(chunk) == Failure(MissingCredentialMessage(p))
    ensures HasCredentials(env, p) && p != OpenAI ==> forall chunk :: ask(chunk) == Success(StubContent(p))
    ensures HasCredentials(env, p) && p == OpenAI ==> forall chunk :: ask(chunk) == llm(SearchPrompt(query, chunk))
  {
    chunk => InvokeHandler(p, env, llm, SearchPrompt(query, chunk))
  }

  /** The finding of a chunk with attributes: its title and page, and the answer or the error text. */
  lemma FindingFromAnswerContent(metadata: Metadata, answer: Result<string, string>)
    requires metadata.attributes.Some?
    ensures var r := FindingFromAnswer(metadata, answer);
      var attrs := metadata.attributes.value;
      && r.Success?
      && r.value.title == TitleOf(attrs) && r.value.page == PageOf(attrs)
      && r.value.content == if answer.Success? then answer.value else ErrorContent(answer.error)
  {
  }

  predicate AllHaveAttributes(chunks: seq<Chunk>) {
    forall i :: 0 <= i < |chunks| ==> chunks[i].metadata.attributes.Some?
  }

  /**
   * The sequential loop: one finding per chunk, in order, each failed call
   * turned into an error finding; a chunk without an attribute list raises.
   */
  function SequentialSearch(ask: Ask, chunks: seq<Chunk>): (r: Result<seq<Finding>, string>)
    ensures r.Success? ==> |r.value| == |chunks|
    ensures r.Failure? ==> r.error == TypeErrorMessage
    decreases |chunks|
  {
    if |chunks| == 0 then Success([])
    else
      match FindingFromAnswer(chunks[0].metadata, ask(chunks[0]))
      case Failure(e) => Failure(e)
      case Success(f) =>
        match SequentialSearch(ask, chunks[1..])
        case Failure(e) => Failure(e)
        case Success(fs) => Success([f] + fs)
  }

  /** Sequential mode raises exactly when some chunk has no attribute list, and then with the TypeError. */
  lemma {:induction false} SequentialSearchRaises(ask: Ask, chunks: seq<Chunk>)
    ensures var r := SequentialSearch(ask, chunks);
      && (r.Success? <==> AllHaveAttributes(chunks))
      && (r.Failure? ==> r.error == TypeErrorMessage)
    decreases |chunks|
  {
    if |chunks| > 0 {
      var rest := chunks[1..];
      SequentialSearchRaises(ask, rest);
      if chunks[0].metadata.attributes.None? {
        assert !AllHaveAttributes(chunks);
      } else if AllHaveAttributes(chunks) {
        assert forall i :: 0 <= i < |rest| ==> rest[i] == chunks[i + 1];
      } else {
        var k :| 0 <= k < |chunks| && chunks[k].metadata.attributes.None?;
        assert rest[k - 1] == chunks[k];
      }
    }
  }

  /** A sequential run that does not raise keeps one finding per chunk, finding i built from chunk i. */
  lemma {:induction false} SequentialSearchFindings(ask: Ask, chunks: seq<Chunk>)
    ensures var r := SequentialSearch(ask, chunks);
      r.Success? ==> (
        && |r.value| == |chunks|
        && forall i :: 0 <= i < |chunks| ==> Success(r.value[i]) == FindingFromAnswer(chunks[i].metadata, ask(chunks[i])))
    decreases |chunks|
  {
    if |chunks| > 0 {
      var rest := chunks[1..];
      SequentialSearchFindings(ask, rest);
      var first := FindingFromAnswer(chunks[0].metadata, ask(chunks[0]));
      var tail := SequentialSearch(ask, rest);
      if first.Success? && tail.Success? {
        var r := [first.value] + tail.value;
        assert SequentialSearch(ask, chunks) == Success(r);
        assert forall i :: 1 <= i < |chunks| ==> r[i] == tail.value[i - 1] && chunks[i] == rest[i - 1];
      }
    }
  }

  /**
   * Sequential mode keeps one finding per chunk, finding i built from chunk
   * i, and raises exactly when some chunk has no attribute list.
   */
  lemma SequentialSearchSpec(ask: Ask, chunks: seq<Chunk>)
    ensures var r := SequentialSearch(ask, chunks);
      && (r.Success? <==> AllHaveAttributes(chunks))
      && (r.Failure? ==> r.error == TypeErrorMessage)
      && (r.Success? ==> (
            && |r.value| == |chunks|
            && forall i :: 0 <= i < |chunks| ==> Success(r.value[i]) == FindingFromAnswer(chunks[i].metadata, ask(chunks[i]))))
  {
    SequentialSearchRaises(ask, chunks);
    SequentialSearchFindings(ask, chunks);
  }

  /** `Promise.all`: every call's content in order, or the error of a call that raised. */
  function PromiseAll(calls: seq<Result<string, string>>): (r: Result<seq<string>, string>)
    ensures r.Success? <==> forall i :: 0 <= i < |calls| ==> calls[i].Success?
    ensures r.Success? ==> |r.value| == |calls| && forall i :: 0 <= i < |calls| ==> r.value[i] == calls[i].value
    decreases |calls|
  {
    if |calls| == 0 then Success([])
    else
      match calls[0]
      case Failure(e) => Failure(e)
      case Success(c) =>
        match PromiseAll(calls[1..])
        case Failure(e) => Failure(e)
        case Success(cs) =>
          assert forall i :: 1 <= i < |calls| ==> calls[i] == calls[1..][i - 1];
          Success([c] + cs)
  }

  /** The index of the first chunk without an attribute list, or `|chunks|`. */
  function FirstWithoutAttributes(chunks: seq<Chunk>): (k: nat)
    ensures k <= |chunks|
    ensures forall j :: 0 <= j < k ==> chunks[j].metadata.attributes.Some?
    ensures k < |chunks| ==> chunks[k].metadata.attributes.None?
    decreases |chunks|
  {
    if |chunks| == 0 then 0
    else if chunks[0].metadata.attributes.None? then 0
    else 1 + FirstWithoutAttributes(chunks[1..])
  }

  /**
   * The `forEach` over the results: pushes one finding per chunk until a
   * chunk without an attribute list raises, which ends the loop.
   */
  function ForEachFindings(chunks: seq<Chunk>, contents: seq<string>): (r: seq<Finding>)
    requires |contents| == |chunks|
    ensures |r| == FirstWithoutAttributes(chunks)
    ensures forall j :: 0 <= j < |r| ==> r[j] == Finding(TitleOf(chunks[j].metadata.attributes.value),
                                                          PageOf(chunks[j].metadata.attributes.value), contents[j])
    decreases |chunks|
  {
    if |chunks| == 0 then []
    else
      match BuildFinding(chunks[0].metadata, contents[0])
      case Failure(_) => []
      case Success(f) =>
        var rest := ForEachFindings(chunks[1..], contents[1..]);
        assert chunks[0].metadata.attributes.Some?;
        assert f == Finding(TitleOf(chunks[0].metadata.attributes.value), PageOf(chunks[0].metadata.attributes.value),
                            contents[0]);
        assert FirstWithoutAttributes(chunks) == 1 + FirstWithoutAttributes(chunks[1..]);
        assert forall j :: 1 <= j < |chunks| ==> chunks[j] == chunks[1..][j - 1] && contents[j] == contents[1..][j - 1];
        [f] + rest
  }

  /** The calls the parallel mode issues, one per chunk, in order. */
  function ParallelCalls(ask: Ask, chunks: seq<Chunk>): (calls: seq<Result<string, string>>)
    ensures |calls| == |chunks|
    ensures forall i :: 0 <= i < |chunks| ==> calls[i] == ask(chunks[i])
  {
    seq(|chunks|, i requires 0 <= i < |chunks| => ask(chunks[i]))
  }

  /**
   * The parallel mode: all or nothing. If any call raises, the error is
   * swallowed and no finding is returned; otherwise one finding per chunk in
   * input order, up to the first chunk without an attribute list.
   */
  function ParallelSearch(ask: Ask, chunks: seq<Chunk>): (r: seq<Finding>)
    ensures (exists i :: 0 <= i < |chunks| && ask(chunks[i]).Failure?) ==> r == []
    ensures (forall i :: 0 <= i < |chunks| ==> ask(chunks[i]).Success?) ==> (
      && |r| == FirstWithoutAttributes(chunks)
      && forall j :: 0 <= j < |r| ==> r[j] == Finding(TitleOf(chunks[j].metadata.attributes.value),
                                                      PageOf(chunks[j].metadata.attributes.value),
                                                      ask(chunks[j]).value))
  {
    var calls := ParallelCalls(ask, chunks);
    match PromiseAll(calls)
    case Failure(_) => []
    case Success(contents) => ForEachFindings(chunks, contents)
  }

  /**
   * `handleDocumentSearch`: an unsupported model raises before any chunk is
   * sent; then the sequential or the parallel mode runs.
   */
  function DocumentSearch(chunks: seq<Chunk>, query: string, sequential: bool, model: string, env: Env, llm: Llm)
    : (r: Result<seq<Finding>, string>)
    ensures GetAIModelResponse(model).Failure? ==> r == Failure(UnsupportedModelMessage(model))
    ensures GetAIModelResponse(model).Success? && !sequential ==> r.Success?
    ensures GetAIModelResponse(model).Success? && sequential ==> (r.Success? <==> AllHaveAttributes(chunks))
    ensures GetAIModelResponse(model).Success? && r.Failure? ==> r.error == TypeErrorMessage
  {
    match GetAIModelResponse(model)
    case Failure(e) => Failure(e)
    case Success(p) =>
      var ask := AskHandler(p, env, llm, query);
      SequentialSearchRaises(ask, chunks);
      if sequential then SequentialSearch(ask, chunks)
      else Success(ParallelSearch(ask, chunks))
  }

  /** An unsupported model's result does not depend on the provider: no chunk was sent. */
  lemma UnsupportedModelSendsNothing(chunks: seq<Chunk>, query: string, sequential: bool, model: string,
                                     env: Env, llm1: Llm, llm2: Llm)
    requires GetAIModelResponse(model).Failure?
    ensures DocumentSearch(chunks, query, sequential, model, env, llm1)
         == DocumentSearch(chunks, query, sequential, model, env, llm2)
  {
  }

  /** In sequential mode a failed call becomes an error finding and the loop goes on. */
  lemma SequentialIsolatesFailures(ask: Ask, chunks: seq<Chunk>, i: nat)
    requires AllHaveAttributes(chunks) && i < |chunks|
    requires ask(chunks[i]).Failure?
    ensures var r := SequentialSearch(ask, chunks);
      r.Success? && |r.value| == |chunks| && r.value[i].content == ErrorContent(ask(chunks[i]).error)
  {
    SequentialSearchSpec(ask, chunks);
    FindingFromAnswerContent(chunks[i].metadata, ask(chunks[i]));
  }

  /**
   * The body of the sequential loop: the `try` calls the handler and builds
   * the finding; the `catch` builds an error finding, extracting the
   * metadata again.
   */
  method SearchChunk(ask: Ask, chunk: Chunk) returns (finding: Result<Finding, string>)
    ensures finding == FindingFromAnswer(chunk.metadata, ask(chunk))
  {
    var result := ask(chunk);
    if result.Success? {
      finding := BuildFinding(chunk.metadata, result.value);
      if finding.Failure? {
        finding := BuildFinding(chunk.metadata, ErrorContent(finding.error));
      }
    } else {
      finding := BuildFinding(chunk.metadata, ErrorContent(result.error));
    }
  }

  /** The sequential branch of `handleDocumentSearch`: a `for` loop pushing one finding per chunk. */
  method SearchSequentially(ask: Ask, chunks: seq<Chunk>) returns (r: Result<seq<Finding>, string>)
    ensures r == SequentialSearch(ask, chunks)
  {
    var allFindings: seq<Finding> := [];
    var i := 0;
    assert chunks[i..] == chunks;
    match SequentialSearch(ask, chunks) {
      case Success(fs) => assert allFindings + fs == fs;
      case Failure(_) =>
    }
    while i < |chunks|
      invariant 0 <= i <= |chunks|
      invariant SequentialSearch(ask, chunks) == Prefixed(allFindings, SequentialSearch(ask, chunks[i..]))
    {
      var finding := SearchChunk(ask, chunks[i]);
      SequentialSearchStep(ask, chunks, i, allFindings);
      if finding.Failure? {
        return Failure(finding.error);
      }
      allFindings := allFindings + [finding.value];
      i := i + 1;
    }
    assert chunks[i..] == [];
    assert allFindings + [] == allFindings;
    return Success(allFindings);
  }

  /** One turn of the sequential loop, as the invariant of `SearchSequentially` needs it. */
  lemma SequentialSearchStep(ask: Ask, chunks: seq<Chunk>, i: nat, acc: seq<Finding>)
    requires i < |chunks|
    ensures var first := FindingFromAnswer(chunks[i].metadata, ask(chunks[i]));
      && (first.Failure? ==> Prefixed(acc, SequentialSearch(ask, chunks[i..])) == Failure(first.error))
      && (first.Success? ==> (Prefixed(acc, SequentialSearch(ask, chunks[i..]))
                              == Prefixed(acc + [first.value], SequentialSearch(ask, chunks[i + 1..]))))
  {
    assert chunks[i..][0] == chunks[i] && chunks[i..][1..] == chunks[i + 1..];
    match SequentialSearch(ask, chunks[i + 1..]) {
      case Success(fs) =>
        var f := FindingFromAnswer(chunks[i].metadata, ask(chunks[i]));
        if f.Success? {
          assert acc + ([f.value] + fs) == (acc + [f.value]) + fs;
        }
      case Failure(_) =>
    }
  }

  /** `acc` followed by the findings of `r`, or `r`'s error. */
  function Prefixed(acc: seq<Finding>, r: Result<seq<Finding>, string>): Result<seq<Finding>, string> {
    match r
    case Success(fs) => Success(acc + fs)
    case Failure(e) => Failure(e)
  }

  /**
   * The parallel branch of `handleDocumentSearch`: `Promise.all` over every
   * call; if one raises, the catch leaves the findings empty.
   */
  method SearchInParallel(ask: Ask, chunks: seq<Chunk>) returns (allFindings: seq<Finding>)
    ensures allFindings == ParallelSearch(ask, chunks)
  {
    var results := PromiseAll(ParallelCalls(ask, chunks));
    if results.Failure? {
      return [];
    }
    allFindings := PushFindings(chunks, results.value);
  }

  /**
   * The `forEach` over the results, pushing one finding per chunk; an
   * exception leaves the loop and the catch keeps what was pushed.
   */
  method PushFindings(chunks: seq<Chunk>, contents: seq<string>) returns (allFindings: seq<Finding>)
    requires |contents| == |chunks|
    ensures allFindings == ForEachFindings(chunks, contents)
  {
    allFindings := [];
    var i := 0;
    assert chunks[i..] == chunks && contents[i..] == contents;
    while i < |chunks|
      invariant 0 <= i <= |chunks|
      invariant ForEachFindings(chunks, contents) == allFindings + ForEachFindings(chunks[i..], contents[i..])
    {
      ForEachFindingsStep(chunks, contents, i, allFindings);
      var finding := BuildFinding(chunks[i].metadata, contents[i]);
      if finding.Failure? {
        break;
      }
      allFindings := allFindings + [finding.value];
      i := i + 1;
    }
    if i == |chunks| {
      assert chunks[i..] == [] && contents[i..] == [];
    }
    assert ForEachFindings(chunks[i..], contents[i..]) == [];
    assert allFindings + [] == allFindings;
  }

  /** One turn of the `forEach`, as the invariant of `PushFindings` needs it. */
  lemma ForEachFindingsStep(chunks: seq<Chunk>, contents: seq<string>, i: nat, acc: seq<Finding>)
    requires |contents| == |chunks| && i < |chunks|
    ensures var f := BuildFinding(chunks[i].metadata, contents[i]);
      && (f.Failure? ==> ForEachFindings(chunks[i..], contents[i..]) == [])
      && (f.Success? ==> (acc + ForEachFindings(chunks[i..], contents[i..])
                          == (acc + [f.value]) + ForEachFindings(chunks[i + 1..], contents[i + 1..])))
  {
    var cs, ct := chunks[i..], contents[i..];
    assert cs[0] == chunks[i] && cs[1..] == chunks[i + 1..];
    assert ct[0] == contents[i] && ct[1..] == contents[i + 1..];
    var f := BuildFinding(chunks[i].metadata, contents[i]);
    var rest := ForEachFindings(chunks[i + 1..], contents[i + 1..]);
    if f.Success? {
      assert ForEachFindings(cs, ct) == [f.value] + rest;
      assert acc + ([f.value] + rest) == (acc + [f.value]) + rest;
    } else {
      assert ForEachFindings(cs, ct) == [];
    }
  }

  /** The method form of `handleDocumentSearch`. */
  method HandleDocumentSearch(chunks: seq<Chunk>, query: string, sequential: bool, model: string, env: Env, llm: Llm)
    returns (r: Result<seq<Finding>, string>)
    ensures r == DocumentSearch(chunks, query, sequential, model, env, llm)
  {
    var dispatch := GetAIModelResponse(model);
    if dispatch.Failure? {
      return Failure(dispatch.error);
    }
    var ask := AskHandler(dispatch.value, env, llm, query);
    if sequential {
      r := SearchSequentially(ask, chunks);
    } else {
      var findings := SearchInParallel(ask, chunks);
      r := Success(findings);
    }
  }

  // ---------------------------------------------------------------------------
  // Summary generation

  const UnsupportedSummary: string := "Error generating summary due to unsupported model."
  const FailedSummary: string := "Error generating summary."

  /** `createAISummary`: never raises; both kinds of failure become a summary text. */
  function CreateAISummary(findings: seq<Finding>, model: string, env: Env, llm: Llm): (s: Summary)
    ensures GetAIModelResponse(model).Failure? ==> s == Summary(UnsupportedSummary)
    ensures GetAIModelResponse(model).Success? ==>
      var answer := InvokeHandler(GetAIModelResponse(model).value, env, llm, SummaryPrompt(findings));
      s == if answer.Success? then Summary(answer.value) else Summary(FailedSummary)
  {
    match GetAIModelResponse(model)
    case Failure(_) => Summary(UnsupportedSummary)
    case Success(p) =>
      match InvokeHandler(p, env, llm, SummaryPrompt(findings))
      case Success(content) => Summary(content)
      case Failure(_) => Summary(FailedSummary)
  }
}
