/**
 * The provider layer shared by `generate_answers`, `format_resume_text_with_llm`
 * and `test_api_key` in utils.py: choosing one of the three hosted LLM services
 * by name, checking that its API key is present, and the help hint appended to
 * a configuration error.  The LangChain client constructors and the remote
 * completion call are foreign code; they are the two fields of a `Backend`.
 */
module Providers {
  import opened Wrappers
  import opened Text

  /** The three supported services, named as in the UI ("Google", "OpenAI", "Claude"). */
  datatype Provider = Google | OpenAI | Claude

  function ProviderName(p: Provider): string {
    match p
    case Google => "Google"
    case OpenAI => "OpenAI"
    case Claude => "Claude"
  }

  /** The `if model_provider == ... elif ...` dispatch on the provider name. */
  function ParseProvider(name: string): (r: Option<Provider>)
    ensures r.Some? <==> name in {"Google", "OpenAI", "Claude"}
    ensures r.Some? ==> ProviderName(r.value) == name
  {
    if name == "Google" then Some(Google)
    else if name == "OpenAI" then Some(OpenAI)
    else if name == "Claude" then Some(Claude)
    else None
  }

  /** What a LangChain client is built from; the temperature is kept in tenths. */
  datatype Client = Client(provider: Provider, model: string, apiKey: string,
                           temperatureTenths: nat, maxTokens: Option<nat>)

  /** A Python exception reaching the core: whether it is a `ValueError`, and `str(e)`. */
  datatype Raised = Raised(isValueError: bool, message: string)

  /** The outcome of one completion call. */
  datatype CallResult = Completion(text: string) | CallFailed(error: Raised)

  /**
   * What is sent to the model: the variables bound into a prompt template
   * (the template wording itself is not modelled), or a bare prompt string.
   */
  datatype Prompt =
    | AnswerPrompt(resume: string, role: string, company: string, companyContext: string,
                   question: string, wordLimit: int)
    | ResumeFormatPrompt(rawResumeText: string)
    | PlainPrompt(text: string)

  /**
   * The foreign side: `construct` is what a client constructor raises, if anything;
   * `call(c, n, p)` is the outcome of the n-th call (counting from 0) that one
   * operation makes through client `c` with prompt `p`.
   */
  datatype Backend = Backend(construct: Client -> Option<Raised>,
                             call: (Client, nat, Prompt) -> CallResult)

  /** Which operation resolves the provider: the messages and the temperature differ. */
  datatype Purpose = Answering | Formatting

  function TemperatureTenths(purpose: Purpose): nat {
    match purpose
    case Answering => 3
    case Formatting => 1
  }

  /** A usable key is present: `api_keys_dict.get(name)` is truthy. */
  predicate HasKey(keys: map<string, string>, name: string) {
    name in keys && keys[name] != ""
  }

  function PurposeSuffix(purpose: Purpose): string {
    match purpose
    case Answering => ""
    case Formatting => " for resume formatting"
  }

  /** The `ValueError` raised when the chosen provider has no key. */
  function MissingKeyMessage(p: Provider, purpose: Purpose): (r: string)
    ensures Contains(r, " API Key not provided")
  {
    var service := ServiceName(p);
    ContainsMiddle(service, " API Key not provided", PurposeSuffix(purpose) + ".");
    assert service + " API Key not provided" + (PurposeSuffix(purpose) + ".") ==
           service + " API Key not provided" + PurposeSuffix(purpose) + ".";
    service + " API Key not provided" + PurposeSuffix(purpose) + "."
  }

  /** The service a missing-key message names: the provider, except "Anthropic" for Claude. */
  function ServiceName(p: Provider): string {
    match p
    case Google => "Google"
    case OpenAI => "OpenAI"
    case Claude => "Anthropic"
  }

  /**
   * The missing-key message starts with the service name, which is what the
   * help-hint lookup searches for, and says when the key was needed for formatting.
   */
  lemma MissingKeyMessageNamesService(p: Provider, purpose: Purpose)
    ensures (if p == Claude then "Anthropic" else ProviderName(p)) <= MissingKeyMessage(p, purpose)
    ensures purpose == Formatting ==> Contains(MissingKeyMessage(p, purpose), " for resume formatting")
  {
    var service, suffix := ServiceName(p), PurposeSuffix(purpose);
    assert service == if p == Claude then "Anthropic" else ProviderName(p);
    var head := service + " API Key not provided";
    var msg := MissingKeyMessage(p, purpose);
    assert msg == head + suffix + ".";
    assert msg[..|service|] == service;
    ContainsMiddle(head, suffix, ".");
  }

  /** The `ValueError` raised for a provider name outside the three. */
  function UnsupportedMessage(name: string, purpose: Purpose): (r: string)
    ensures |name| <= |r| && r[|r| - |name|..] == name
  {
    "Unsupported model provider" + PurposeSuffix(purpose) + ": " + name
  }

  /**
   * The provider `if`/`elif` chain: the name is checked before the key, and a
   * missing or empty key is a `ValueError` naming the service.
   */
  function Resolve(name: string, model: string, keys: map<string, string>, purpose: Purpose)
    : (r: Result<Client, string>)
    ensures r.Ok? <==> ParseProvider(name).Some? && HasKey(keys, name)
    ensures r.Ok? ==> r.value == Client(ParseProvider(name).value, model, keys[name],
                                        TemperatureTenths(purpose), None)
    ensures ParseProvider(name).None? ==> r == Err(UnsupportedMessage(name, purpose))
    ensures ParseProvider(name).Some? && !HasKey(keys, name) ==>
              r == Err(MissingKeyMessage(ParseProvider(name).value, purpose))
  {
    match ParseProvider(name)
    case None => Err(UnsupportedMessage(name, purpose))
    case Some(p) =>
      if !HasKey(keys, name) then Err(MissingKeyMessage(p, purpose))
      else Ok(Client(p, model, keys[name], TemperatureTenths(purpose), None))
  }

  /**
   * Resolution followed by the client constructor.  A resolution failure is a
   * `ValueError`; a constructor failure is whatever the constructor raised.
   */
  function Setup(name: string, model: string, keys: map<string, string>, purpose: Purpose,
                 backend: Backend): (r: Result<Client, Raised>)
    ensures r.Ok? ==> Resolve(name, model, keys, purpose) == Ok(r.value)
                      && backend.construct(r.value) == None
    ensures Resolve(name, model, keys, purpose).Err? ==>
              r == Err(Raised(true, Resolve(name, model, keys, purpose).error))
    ensures Resolve(name, model, keys, purpose).Ok? ==>
              var c := Resolve(name, model, keys, purpose).value;
              r == (if backend.construct(c).Some? then Err(backend.construct(c).value) else Ok(c))
  {
    match Resolve(name, model, keys, purpose)
    case Err(msg) => Err(Raised(true, msg))
    case Ok(client) =>
      match backend.construct(client)
      case Some(e) => Err(e)
      case None => Ok(client)
  }

  /** The light-bulb marker that introduces every hint. */
  const HintMark: string := "\n\U{1F4A1} "

  /** The `provider_help` dictionary, in its insertion (iteration) order. */
  const HelpTable: seq<(string, string)> := [
    ("Google", "Verify your Google API key at https://aistudio.google.com/app/apikey"),
    ("OpenAI", "Verify your OpenAI API key at https://platform.openai.com/api-keys"),
    ("Claude", "Verify your Anthropic API key at https://console.anthropic.com/")
  ]

  /** The help text of the first table entry whose provider name occurs in `msg`. */
  function FirstHelp(msg: string, table: seq<(string, string)>): (r: Option<string>)
    ensures r.Some? ==> exists j :: 0 <= j < |table| && Contains(msg, table[j].0) && r.value == table[j].1
  {
    if table == [] then None
    else if Contains(msg, table[0].0) then Some(table[0].1)
    else
      var r := FirstHelp(msg, table[1..]);
      assert r.Some? ==> exists j :: 1 <= j < |table| && Contains(msg, table[j].0) && r.value == table[j].1 by {
        if r.Some? {
          var j :| 0 <= j < |table[1..]| && Contains(msg, table[1..][j].0) && r.value == table[1..][j].1;
          assert table[1..][j] == table[j + 1];
        }
      }
      r
  }

  /** A configuration error message with its (at most one) help hint. */
  function WithHelpHint(msg: string): (r: string)
    ensures msg <= r
    ensures r == msg || exists j :: 0 <= j < |HelpTable| && Contains(msg, HelpTable[j].0) &&
                                    r == msg + HintMark + HelpTable[j].1
  {
    match FirstHelp(msg, HelpTable)
    case Some(help) => msg + HintMark + help
    case None => msg
  }

  /**
   * The `for provider, help_text in provider_help.items(): ... break` loop:
   * append the hint of the first provider named in the message, if any.
   */
  method AppendHelpHint(msg: string) returns (r: string)
    ensures r == WithHelpHint(msg)
  {
    r := msg;
    var i := 0;
    while i < |HelpTable|
      invariant 0 <= i <= |HelpTable|
      invariant FirstHelp(msg, HelpTable) == FirstHelp(msg, HelpTable[i..])
    {
      if Contains(msg, HelpTable[i].0) {
        r := msg + HintMark + HelpTable[i].1;
        return;
      }
      i := i + 1;
    }
  }

  /**
   * The hint chosen is that of the FIRST provider, in the order Google, OpenAI,
   * Claude, whose name occurs in the message; there is none when no name occurs.
   */
  lemma {:induction false} FirstHelpIsFirstMatch(msg: string, table: seq<(string, string)>, j: nat)
    requires j < |table|
    requires Contains(msg, table[j].0)
    requires forall k :: 0 <= k < j ==> !Contains(msg, table[k].0)
    ensures FirstHelp(msg, table) == Some(table[j].1)
  {
    if j > 0 {
      assert !Contains(msg, table[0].0);
      assert forall k :: 0 <= k < j - 1 ==> table[1..][k] == table[k + 1];
      FirstHelpIsFirstMatch(msg, table[1..], j - 1);
    }
  }

  /** No hint is appended exactly when no provider name of the table occurs in the message. */
  lemma {:induction false} FirstHelpNone(msg: string, table: seq<(string, string)>)
    ensures FirstHelp(msg, table).None? <==> forall k :: 0 <= k < |table| ==> !Contains(msg, table[k].0)
  {
    if table != [] {
      FirstHelpNone(msg, table[1..]);
      assert forall k :: 1 <= k < |table| ==> table[k] == table[1..][k - 1];
    }
  }

  /** A missing Google or OpenAI key earns that provider's hint. */
  lemma MissingKeyHint(p: Provider, purpose: Purpose)
    requires p != Claude
    ensures WithHelpHint(MissingKeyMessage(p, purpose)) ==
              MissingKeyMessage(p, purpose) + HintMark + HelpTable[if p == Google then 0 else 1].1
  {
    var msg := MissingKeyMessage(p, purpose);
    var k := if p == Google then 0 else 1;
    MissingKeyMessageNamesService(p, purpose);
    assert HelpTable[k].0 == ProviderName(p);
    assert msg[..|HelpTable[k].0|] == HelpTable[k].0;
    assert OccursAt(msg, HelpTable[k].0, 0);
    if p == OpenAI {
      OpenAIKeyMessageLacksGoogle(purpose);
    }
    FirstHelpIsFirstMatch(msg, HelpTable, k);
  }

  /** The OpenAI missing-key message has no capital G, so it does not name Google. */
  lemma OpenAIKeyMessageLacksGoogle(purpose: Purpose)
    ensures !Contains(MissingKeyMessage(OpenAI, purpose), "Google")
  {
    OpenAIMessageLacksG(PurposeSuffix(purpose));
    NotContainsByFirstChar(MissingKeyMessage(OpenAI, purpose), "Google");
  }

  /** The "OpenAI" key message, with either suffix, has no capital G. */
  lemma OpenAIMessageLacksG(suffix: string)
    requires suffix == PurposeSuffix(Answering) || suffix == PurposeSuffix(Formatting)
    ensures 'G' !in "OpenAI API Key not provided" + suffix + "."
  {
    var head := "OpenAI API Key not provided";
    assert 'G' !in head;
    assert 'G' !in suffix;
  }

  /** A message that names no provider, judged by capital initials alone, gets no hint. */
  lemma NoHintWithoutProviderInitials(msg: string)
    requires 'G' !in msg && 'O' !in msg && 'C' !in msg
    ensures WithHelpHint(msg) == msg
  {
    NotContainsByFirstChar(msg, "Google");
    NotContainsByFirstChar(msg, "OpenAI");
    NotContainsByFirstChar(msg, "Claude");
    FirstHelpNone(msg, HelpTable);
  }

  /** The "Anthropic" key message, with either suffix, has no capital G, O or C. */
  lemma AnthropicMessageInitials(suffix: string)
    requires suffix == PurposeSuffix(Answering) || suffix == PurposeSuffix(Formatting)
    ensures var msg := "Anthropic API Key not provided" + suffix + ".";
            'G' !in msg && 'O' !in msg && 'C' !in msg
  {
    var head := "Anthropic API Key not provided";
    assert 'G' !in head && 'O' !in head && 'C' !in head;
    assert 'G' !in suffix && 'O' !in suffix && 'C' !in suffix;
  }

  /**
   * A missing Claude key says "Anthropic", which names none of the three
   * providers, so the message carries no help hint at all.
   */
  lemma MissingClaudeKeyHasNoHint(purpose: Purpose)
    ensures WithHelpHint(MissingKeyMessage(Claude, purpose)) == MissingKeyMessage(Claude, purpose)
  {
    AnthropicMessageInitials(PurposeSuffix(purpose));
    NoHintWithoutProviderInitials(MissingKeyMessage(Claude, purpose));
  }
}
