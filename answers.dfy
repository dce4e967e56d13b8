/**
 * `generate_answers` (utils.py): one {question, answer} record per interview
 * question, in input order.  A setup failure is broadcast to every question;
 * a failing completion call spoils only its own record.
 */
module Answers {
  import opened Wrappers
  import opened Text
  import opened Providers

  /** One `{"question": q, "answer": a}` dictionary of the result list. */
  datatype AnswerRecord = AnswerRecord(question: string, answer: string)

  /** Everything `generate_answers` is called with. */
  datatype GenerationRequest = GenerationRequest(
    resumeText: string, role: string, company: string, questions: seq<string>,
    wordLimit: int, providerName: string, modelName: string,
    apiKeys: map<string, string>, userCompanyKnowledge: string, companyResearch: string)

  const KnowledgeHeader: string := "Additional information about "
  const ResearchHeader: string := "Research findings about "

  /** One section of the company context: a header naming the company, then the text. */
  function Section(header: string, company: string, text: string): (r: string)
    ensures |r| > |text|
  {
    "\n\n" + header + company + ":\n" + text
  }

  /**
   * The company context: the stripped user knowledge under its header, then the
   * stripped research under its header, each section present only when its
   * input is not blank.
   */
  function CompanyContext(company: string, knowledge: string, research: string): string {
    (if IsBlank(knowledge) then "" else Section(KnowledgeHeader, company, Strip(knowledge))) +
    (if IsBlank(research) then "" else Section(ResearchHeader, company, Strip(research)))
  }

  /** The context is empty exactly when both inputs are empty or whitespace only. */
  lemma CompanyContextEmptyIff(company: string, knowledge: string, research: string)
    ensures CompanyContext(company, knowledge, research) == "" <==>
              AllSpace(knowledge) && AllSpace(research)
  {
    BlankIffAllSpace(knowledge);
    BlankIffAllSpace(research);
    var first := if IsBlank(knowledge) then "" else Section(KnowledgeHeader, company, Strip(knowledge));
    var second := if IsBlank(research) then "" else Section(ResearchHeader, company, Strip(research));
    assert |first + second| == |first| + |second|;
  }

  /**
   * Each non-blank input contributes its own header followed by its stripped
   * text, knowledge before research; a blank input contributes nothing.
   */
  lemma CompanyContextSections(company: string, knowledge: string, research: string)
    ensures var k, r := Strip(knowledge), Strip(research);
            var ctx := CompanyContext(company, knowledge, research);
            (k != "" && r != "" ==>
               ctx == Section(KnowledgeHeader, company, k) + Section(ResearchHeader, company, r)) &&
            (k != "" && r == "" ==> ctx == Section(KnowledgeHeader, company, k)) &&
            (k == "" && r != "" ==> ctx == Section(ResearchHeader, company, r)) &&
            (k == "" && r == "" ==> ctx == "")
  {
    var first := if IsBlank(knowledge) then "" else Section(KnowledgeHeader, company, Strip(knowledge));
    var second := if IsBlank(research) then "" else Section(ResearchHeader, company, Strip(research));
    assert CompanyContext(company, knowledge, research) == first + second;
    if IsBlank(knowledge) {
      assert first + second == second;
    }
    if IsBlank(research) {
      assert first + second == first;
    }
  }

  /** The prompt variables bound for one question. */
  function PromptFor(req: GenerationRequest, question: string): Prompt {
    AnswerPrompt(req.resumeText, req.role, req.company,
                 CompanyContext(req.company, req.userCompanyKnowledge, req.companyResearch),
                 question, req.wordLimit)
  }

  /** The answer recorded for one call: its completion, or the formatted error. */
  function CallAnswer(outcome: CallResult): string {
    match outcome
    case Completion(text) => text
    case CallFailed(e) => "Error generating answer: " + e.message
  }

  /** The `elif` chain of hints for an unexpected (non-`ValueError`) setup failure. */
  function UnexpectedErrorText(message: string): (r: string)
    ensures "Unexpected error: " + message <= r
  {
    var lowered := Lower(message);
    "Unexpected error: " + message +
    (if Contains(lowered, "rate limit") then
       HintMark + "You may have hit API rate limits. Try again in a few moments."
     else if Contains(lowered, "authentication") || Contains(lowered, "unauthorized") then
       HintMark + "Please check your API key is valid and has sufficient credits."
     else if Contains(lowered, "connection") || Contains(lowered, "network") then
       HintMark + "Network connection issue. Please check your internet connection."
     else "")
  }

  /** The answer every question receives when the client could not be set up. */
  function SetupFailureAnswer(e: Raised): string {
    if e.isValueError then "Configuration Error: " + WithHelpHint(e.message)
    else "Error: " + UnexpectedErrorText(e.message)
  }

  /** A configuration error answer carries the whole exception message before any hint. */
  lemma ConfigurationAnswerKeepsMessage(e: Raised)
    requires e.isValueError
    ensures "Configuration Error: " + e.message <= SetupFailureAnswer(e)
  {
    PrefixExtend("Configuration Error: ", e.message, WithHelpHint(e.message));
  }

  /** An unexpected setup error answer carries the whole exception message before any hint. */
  lemma UnexpectedAnswerKeepsMessage(e: Raised)
    requires !e.isValueError
    ensures "Error: " + ("Unexpected error: " + e.message) <= SetupFailureAnswer(e)
  {
    PrefixExtend("Error: ", "Unexpected error: " + e.message, UnexpectedErrorText(e.message));
  }

  /** The list comprehension `[{"question": q, "answer": answer} for q in questions]`. */
  function Broadcast(questions: seq<string>, answer: string): (r: seq<AnswerRecord>)
    ensures |r| == |questions|
    ensures forall i :: 0 <= i < |r| ==> r[i].question == questions[i] && r[i].answer == answer
  {
    if questions == [] then []
    else [AnswerRecord(questions[0], answer)] + Broadcast(questions[1..], answer)
  }

  /** The `company_context += ...` steps of `generate_answers`. */
  method BuildCompanyContext(company: string, knowledge: string, research: string)
    returns (ctx: string)
    ensures ctx == CompanyContext(company, knowledge, research)
  {
    ctx := "";
    if !IsBlank(knowledge) {
      var section := Section(KnowledgeHeader, company, Strip(knowledge));
      assert "" + section == section;
      ctx := ctx + section;
    }
    ghost var first := ctx;
    if !IsBlank(research) {
      ctx := ctx + Section(ResearchHeader, company, Strip(research));
    } else {
      assert ctx == first + "";
    }
  }

  /**
   * The `for q in questions_list` loop: one call per question, in order, and one
   * record per call; a failing call is caught and recorded for its question only.
   */
  method AskEach(req: GenerationRequest, client: Client, companyContext: string, backend: Backend)
    returns (results: seq<AnswerRecord>, sent: seq<Prompt>)
    ensures |results| == |req.questions| && |sent| == |req.questions|
    ensures forall i :: 0 <= i < |sent| ==>
              sent[i] == AnswerPrompt(req.resumeText, req.role, req.company, companyContext,
                                      req.questions[i], req.wordLimit) &&
              results[i].question == req.questions[i] &&
              results[i].answer == CallAnswer(backend.call(client, i, sent[i]))
  {
    results, sent := [], [];
    for i := 0 to |req.questions|
      invariant |results| == i && |sent| == i
      invariant forall j :: 0 <= j < i ==>
                  sent[j] == AnswerPrompt(req.resumeText, req.role, req.company, companyContext,
                                          req.questions[j], req.wordLimit) &&
                  results[j] == AnswerRecord(req.questions[j], CallAnswer(backend.call(client, j, sent[j])))
    {
      var prompt := AnswerPrompt(req.resumeText, req.role, req.company, companyContext,
                                 req.questions[i], req.wordLimit);
      var answer: string;
      match backend.call(client, i, prompt) {
        case Completion(text) =>
          answer := text;
        case CallFailed(e) =>
          answer := "Error generating answer: " + e.message;
      }
      results := results + [AnswerRecord(req.questions[i], answer)];
      sent := sent + [prompt];
    }
  }

  /**
   * `generate_answers`.  `sent` lists the prompts handed to the model, in call
   * order: none when the batch is empty or the setup fails, otherwise exactly
   * one per question, so identical questions are sent again.
   */
  method GenerateAnswers(req: GenerationRequest, backend: Backend)
    returns (results: seq<AnswerRecord>, sent: seq<Prompt>)
    ensures |results| == |req.questions|
    ensures forall i :: 0 <= i < |results| ==> results[i].question == req.questions[i]
    ensures req.questions == [] ==> sent == []
    ensures var setup := Setup(req.providerName, req.modelName, req.apiKeys, Answering, backend);
            setup.Err? ==>
              sent == [] &&
              forall i :: 0 <= i < |results| ==> results[i].answer == SetupFailureAnswer(setup.error)
    ensures var setup := Setup(req.providerName, req.modelName, req.apiKeys, Answering, backend);
            setup.Ok? ==>
              |sent| == |req.questions| &&
              forall i :: 0 <= i < |sent| ==>
                sent[i] == PromptFor(req, req.questions[i]) &&
                results[i].answer == CallAnswer(backend.call(setup.value, i, sent[i]))
  {
    var questions := req.questions;
    if questions == [] {
      return [], [];
    }

    var client: Client;
    match Resolve(req.providerName, req.modelName, req.apiKeys, Answering) {
      case Err(msg) =>
        assert Setup(req.providerName, req.modelName, req.apiKeys, Answering, backend) == Err(Raised(true, msg));
        var hinted := AppendHelpHint(msg);
        return Broadcast(questions, "Configuration Error: " + hinted), [];
      case Ok(c) =>
        client := c;
    }
    match backend.construct(client) {
      case Some(e) =>
        assert Setup(req.providerName, req.modelName, req.apiKeys, Answering, backend) == Err(e);
        if e.isValueError {
          var hinted := AppendHelpHint(e.message);
          return Broadcast(questions, "Configuration Error: " + hinted), [];
        }
        return Broadcast(questions, "Error: " + UnexpectedErrorText(e.message)), [];
      case None =>
    }
    assert Setup(req.providerName, req.modelName, req.apiKeys, Answering, backend) == Ok(client);

    var companyContext := BuildCompanyContext(req.company, req.userCompanyKnowledge, req.companyResearch);
    results, sent := AskEach(req, client, companyContext, backend);
  }
}
