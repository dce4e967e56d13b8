/**
 * `format_resume_text_with_llm` (utils.py): one low-temperature completion that
 * rewrites extracted résumé text; any failure falls back to the original text.
 */
module ResumeFormat {
  import opened Wrappers
  import opened Text
  import opened Providers

  /** A Streamlit message: `st.error` or `st.warning`. */
  datatype Notice = ErrorNotice(message: string) | WarningNotice(message: string)

  /** The message shown when formatting fails with exception `e`. */
  function FailureNotice(e: Raised): (r: Notice)
    ensures r.ErrorNotice? <==> e.isValueError
    ensures e.isValueError ==> "Resume formatting failed: " + e.message <= r.message
    ensures !e.isValueError ==> "Error formatting resume text: " + e.message <= r.message
  {
    if e.isValueError then
      ErrorNotice("Resume formatting failed: " + WithHelpHint(e.message))
    else
      var lowered := Lower(e.message);
      WarningNotice("Error formatting resume text: " + e.message +
        (if Contains(lowered, "rate limit") then
           HintMark + "You may have hit API rate limits. Using original text."
         else if Contains(lowered, "authentication") || Contains(lowered, "unauthorized") then
           HintMark + "API authentication issue. Using original text."
         else ""))
  }

  /**
   * `format_resume_text_with_llm`.  Blank input yields "" without any call;
   * otherwise one call (call number 0) is made once the client is set up.
   * Whenever a notice is shown the original text is returned unchanged.
   */
  method FormatResume(rawText: string, providerName: string, modelName: string,
                      keys: map<string, string>, backend: Backend)
    returns (text: string, notice: Option<Notice>)
    ensures IsBlank(rawText) ==> text == "" && notice == None
    ensures notice.Some? ==> text == rawText
    ensures var setup := Setup(providerName, modelName, keys, Formatting, backend);
            !IsBlank(rawText) && setup.Err? ==> notice == Some(FailureNotice(setup.error))
    ensures var setup := Setup(providerName, modelName, keys, Formatting, backend);
            !IsBlank(rawText) && setup.Ok? ==>
              match backend.call(setup.value, 0, ResumeFormatPrompt(rawText))
              case Completion(t) => text == Strip(t) && notice == None
              case CallFailed(e) => notice == Some(FailureNotice(e))
  {
    if IsBlank(rawText) {
      return "", None;
    }
    var client: Client;
    match Resolve(providerName, modelName, keys, Formatting) {
      case Err(msg) =>
        assert Setup(providerName, modelName, keys, Formatting, backend) == Err(Raised(true, msg));
        text, notice := Fallback(rawText, Raised(true, msg));
        return;
      case Ok(c) =>
        client := c;
    }
    match backend.construct(client) {
      case Some(e) =>
        assert Setup(providerName, modelName, keys, Formatting, backend) == Err(e);
        text, notice := Fallback(rawText, e);
        return;
      case None =>
    }
    assert Setup(providerName, modelName, keys, Formatting, backend) == Ok(client);
    match backend.call(client, 0, ResumeFormatPrompt(rawText)) {
      case Completion(formatted) =>
        text, notice := Strip(formatted), None;
      case CallFailed(e) =>
        text, notice := Fallback(rawText, e);
    }
  }

  /** The two `except` handlers: show the notice and hand back the original text. */
  method Fallback(rawText: string, e: Raised) returns (text: string, notice: Option<Notice>)
    ensures text == rawText && notice == Some(FailureNotice(e))
  {
    if e.isValueError {
      var hinted := AppendHelpHint(e.message);
      notice := Some(ErrorNotice("Resume formatting failed: " + hinted));
    } else {
      notice := Some(FailureNotice(e));
    }
    text := rawText;
  }
}
