/**
 * `test_api_key` (utils.py): probe a key with one tiny request and turn the
 * outcome, or the exception it raised, into a verdict and a message.
 */
module KeyCheck {
  import opened Wrappers
  import opened Text
  import opened Providers

  /** The `(is_valid, message)` pair returned by `test_api_key`. */
  datatype Verdict = Verdict(valid: bool, message: string)

  const ConnectionPrefix: string := "Connection error: "

  /** The exception handler: ordered substring tests on the lower-cased message. */
  function ClassifyError(error: string, modelName: string): (r: Verdict)
    ensures !r.valid
    ensures r.message == "Invalid API key" || r.message == "Rate limited (but key is likely valid)" ||
            r.message == "Model '" + modelName + "' not available" ||
            r.message == ConnectionPrefix + TakeAtMost(error, 100)
    ensures !Contains(Lower(error), "authentication") && !Contains(Lower(error), "unauthorized") &&
            !Contains(Lower(error), "rate limit") && !Contains(Lower(error), "model") ==>
              r.message == ConnectionPrefix + TakeAtMost(error, 100)
  {
    var lowered := Lower(error);
    if Contains(lowered, "authentication") || Contains(lowered, "unauthorized") then
      Verdict(false, "Invalid API key")
    else if Contains(lowered, "rate limit") then
      Verdict(false, "Rate limited (but key is likely valid)")
    else if Contains(lowered, "model") then
      Verdict(false, "Model '" + modelName + "' not available")
    else
      Verdict(false, ConnectionPrefix + TakeAtMost(error, 100))
  }

  /** The client `test_api_key` builds: temperature 0.1, and ten tokens except for Google. */
  function ProbeClient(p: Provider, apiKey: string, modelName: string): (c: Client)
    ensures c.provider == p && c.apiKey == apiKey && c.model == modelName && c.temperatureTenths == 1
    ensures c.maxTokens.Some? <==> p != Google
  {
    Client(p, modelName, apiKey, 1, if p == Google then None else Some(10))
  }

  /** `test_api_key`. */
  function TestApiKey(providerName: string, apiKey: string, modelName: string, backend: Backend)
    : (r: Verdict)
    ensures apiKey == "" ==> r == Verdict(false, "No API key provided")
    ensures r.valid <==>
              apiKey != "" && ParseProvider(providerName).Some? &&
              (var client := ProbeClient(ParseProvider(providerName).value, apiKey, modelName);
               backend.construct(client).None? &&
               backend.call(client, 0, PlainPrompt("Hello")).Completion?)
    ensures apiKey != "" && ParseProvider(providerName).None? ==>
              r == Verdict(false, "Unsupported provider: " + providerName)
    ensures apiKey != "" && ParseProvider(providerName).Some? ==>
              var client := ProbeClient(ParseProvider(providerName).value, apiKey, modelName);
              match backend.construct(client)
              case Some(e) => r == ClassifyError(e.message, modelName)
              case None =>
                match backend.call(client, 0, PlainPrompt("Hello"))
                case Completion(_) => r == Verdict(true, "API key is valid")
                case CallFailed(e) => r == ClassifyError(e.message, modelName)
  {
    if apiKey == "" then Verdict(false, "No API key provided")
    else
      match ParseProvider(providerName)
      case None => Verdict(false, "Unsupported provider: " + providerName)
      case Some(p) =>
        var client := ProbeClient(p, apiKey, modelName);
        match backend.construct(client)
        case Some(e) => ClassifyError(e.message, modelName)
        case None =>
          match backend.call(client, 0, PlainPrompt("Hello"))
          case Completion(_) => Verdict(true, "API key is valid")
          case CallFailed(e) => ClassifyError(e.message, modelName)
  }

  /**
   * An authentication complaint decides the verdict wherever it appears and in
   * whatever case, even when the message also mentions rate limits or models.
   */
  lemma UnauthorizedTakesPrecedence(before: string, word: string, after: string, modelName: string)
    requires Lower(word) == "unauthorized" || Lower(word) == "authentication"
    ensures ClassifyError(before + word + after, modelName) == Verdict(false, "Invalid API key")
  {
    ContainsMiddle(before, word, after);
    ContainsLower(before + word + after, word);
  }

  /** Without an authentication complaint, a rate-limit complaint beats a model complaint. */
  lemma RateLimitBeforeModel(before: string, word: string, after: string, modelName: string)
    requires Lower(word) == "rate limit"
    requires !Contains(Lower(before + word + after), "authentication")
    requires !Contains(Lower(before + word + after), "unauthorized")
    ensures ClassifyError(before + word + after, modelName) ==
              Verdict(false, "Rate limited (but key is likely valid)")
  {
    ContainsMiddle(before, word, after);
    ContainsLower(before + word + after, word);
  }

  /** Without an authentication or rate-limit complaint, a model complaint beats the connection fallback. */
  lemma ModelBeforeConnection(before: string, word: string, after: string, modelName: string)
    requires Lower(word) == "model"
    requires !Contains(Lower(before + word + after), "authentication")
    requires !Contains(Lower(before + word + after), "unauthorized")
    requires !Contains(Lower(before + word + after), "rate limit")
    ensures ClassifyError(before + word + after, modelName) ==
              Verdict(false, "Model '" + modelName + "' not available")
  {
    ContainsMiddle(before, word, after);
    ContainsLower(before + word + after, word);
  }
}
