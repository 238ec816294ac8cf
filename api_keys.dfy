/**
 * API-key helpers: the lookup of a model's provider key in the process
 * configuration, and the creation of a client API key.
 */
module ApiKeys {
  import opened Wrappers
  import opened Records
  import opened Store
  import opened LangchainIntegration

  /** `process.env[name]`: the value, or `undefined` when the variable is not set. */
  function EnvValue(env: Env, name: string): Option<string> {
    if name in env then Some(env[name]) else None
  }

  /**
   * `getModelApiKey`: the value of the key variable of the model's
   * provider. The variables are those the provider's handler checks first;
   * any other model name has no entry.
   */
  function GetModelApiKey(model: string, env: Env): (r: Option<string>)
    ensures GetAIModelResponse(model).Failure? ==> r == None
    ensures GetAIModelResponse(model).Success? ==>
      r == EnvValue(env, CredentialVars(GetAIModelResponse(model).value)[0])
  {
    match model
    case "OpenAI" => EnvValue(env, "OPENAI_API_KEY")
    case "AzureAI" => EnvValue(env, "AZURE_AAI_API_KEY")
    case "AnthropicClaude" => EnvValue(env, "ANTHROPIC_API_KEY")
    case "GoogleGemini" => EnvValue(env, "GOOGLE_GEMINI_API_KEY")
    case "Mistral" => EnvValue(env, "MISTRAL_API_KEY")
    case "Llama" => EnvValue(env, "LLAMA_API_KEY")
    case "Grok" => EnvValue(env, "GROK_API_KEY")
    case _ => None
  }

  /** The key is truthy: set and not empty. */
  predicate ModelKeyConfigured(model: string, env: Env) {
    GetModelApiKey(model, env).Some? && GetModelApiKey(model, env).value != ""
  }

  /**
   * A configured model key is exactly what the handler needs, except for
   * Azure AI, whose handler also needs the search endpoint.
   */
  lemma ModelKeyMatchesHandlerCredential(p: Provider, env: Env)
    ensures p != AzureAI ==> (ModelKeyConfigured(ProviderName(p), env) <==> HasCredentials(env, p))
    ensures HasCredentials(env, p) ==> ModelKeyConfigured(ProviderName(p), env)
  {
    DispatchRoundTrip(p);
    HasCredentialsUnfolded(env, p);
  }

  /** An Azure AI key without the endpoint passes the key check while the handler still refuses. */
  lemma AzureKeyDoesNotImplyHandler()
    ensures var env: Env := map["AZURE_AAI_API_KEY" := "key"];
      ModelKeyConfigured("AzureAI", env) && !HasCredentials(env, AzureAI)
  {
    var env: Env := map["AZURE_AAI_API_KEY" := "key"];
    HasCredentialsUnfolded(env, AzureAI);
  }

  /**
   * `generateApiKey` with the fresh key and the current time as parameters:
   * stores the key record and returns the key; a key that is already
   * stored raises the store's unique-constraint error.
   */
  method GenerateApiKey(db: Database, key: string, createdAt: int) returns (r: Result<string, string>)
    modifies db
    ensures key !in old(db.apiKeys) ==> (r == Success(key)
      && db.Snapshot() == old(db.Snapshot()).(apiKeys := old(db.apiKeys)[key := ApiKeyRecord(key, createdAt)])
      && db.history == old(db.history) + [ApiKeyCreated(ApiKeyRecord(key, createdAt))])
    ensures key in old(db.apiKeys) ==> (r == Failure(KeyTaken)
      && db.Snapshot() == old(db.Snapshot()) && db.history == old(db.history))
  {
    var created := db.CreateApiKey(ApiKeyRecord(key, createdAt));
    if created.Fail? {
      return Failure(created.error);
    }
    return Success(key);
  }
}
