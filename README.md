# HireHelper answer generation, modelled in Dafny

HireHelper collects a résumé, a role, a company and a list of interview
questions, sends one prompt per question to a hosted LLM (Google Gemini, OpenAI
or Anthropic Claude, chosen by name) and shows the answers. The control logic
sits in `utils.py`. This project models four parts of it:

- `generate_answers`: an empty batch returns at once. Otherwise the provider and
  its key are checked, and the client is built, once per batch. A setup failure
  is broadcast as the same answer to every question. Otherwise the company
  context is assembled and one call is made per question, in order. A failing
  call spoils only its own record.
- `process_document`: the lower-cased file extension routes the upload to text
  decoding, PDF page concatenation, DOCX paragraph concatenation, or an
  "unsupported file type" error.
- `format_resume_text_with_llm`: blank input gives `""`. Otherwise one
  low-temperature completion is made, and every failure returns the original
  text.
- `test_api_key`: an empty key is rejected without a call. Otherwise the error
  of the probe call is classified by ordered substring tests.

The LLM is not modelled. A `Providers.Backend` value stands in for it. Its
`construct` field says what a LangChain client constructor raises for a given
client configuration. Its `call` field gives the outcome of the n-th call made
by one operation with a given prompt. A prompt is modelled as the variables
bound into the template (`Providers.Prompt`). Each exception carries whether it
is a `ValueError`, because the two `except` clauses of utils.py treat the two
kinds differently. The PDF and DOCX parsers and the byte decoder are also
foreign. `Documents.FileParsers` gives what they produce for the uploaded bytes,
or the message of the exception they raise. Streamlit's `st.error` and
`st.warning` become returned notice values.

Behaviour of utils.py worth noting:

- Every DOCX paragraph, the last included, is followed by `"\n"`; the
  paragraphs are not joined by newlines, and a document without paragraphs
  gives `""`.
- An exception raised by a single PDF page aborts the whole file with `None`.
  Only a page whose text is `None` contributes `""`.
- The key is checked for presence before any call. A non-`ValueError` raised by
  a client constructor gives every question the answer
  `"Error: Unexpected error: ..."`, with its own hints.
- Every message of a missing Claude key says "Anthropic". That word names none of
  the three entries of the help table, so such a configuration error never gets
  a help hint (`Providers.MissingClaudeKeyHasNoHint`).

## Model

| member | source | states |
|---|---|---|
| `Text.BlankIffAllSpace` | utils.py:97-99 | `s.strip()` is empty exactly when every character of `s` is whitespace, so Python's truth test on the stripped string asks whether the input is blank |
| `Text.IsSpace` | utils.py:97-99 | the characters `str.isspace()` accepts: space, tab to carriage return, U+001C to U+001F, U+0085, U+00A0, U+1680, U+2000 to U+200A, U+2028, U+2029, U+202F, U+205F and U+3000 |
| `Text.TrimLeft` | utils.py:97-99 | the result is the suffix of the input left after removing its whitespace prefix, and it does not start with whitespace |
| `Text.TrimRight` | utils.py:97-99 | the result is the prefix of the input left after removing its whitespace suffix, and it does not end with whitespace |
| `Text.Strip` | utils.py:189 | `str.strip()` is the middle of its input: a contiguous slice with only whitespace before and after it, which neither starts nor ends with whitespace |
| `Text.IsBlank` | utils.py:97-99 | `not s.strip()`; its meaning is stated by `Text.BlankIffAllSpace` |
| `Text.Contains` | utils.py:68 | Python's `sub in s`: the empty string occurs in every string, and an occurring substring is no longer than the string |
| `Text.Lower` | utils.py:163 | lower-cases each ASCII capital and the Kelvin sign in place; every other character, and the length, is kept |
| `Text.ContainsLower` | utils.py:361-362 | a substring still occurs after lower-casing the string and the substring, which is what makes the `in` tests on `str(e).lower()` case-insensitive |
| `Text.TakeAtMost` | utils.py:369 | `s[:100]` is a prefix of `s` whose length is the smaller of 100 and `|s|` |
| `Providers.ParseProvider` | utils.py:32-57 | exactly the names "Google", "OpenAI" and "Claude" select a provider, and the selected provider bears that name |
| `Providers.Resolve` | utils.py:31-57 | resolution succeeds exactly when the name is supported and its key is present and non-empty; it then yields a client with that key, the model name and temperature 0.3 (0.1 for formatting); an unsupported name and a missing key give their own `ValueError` messages, and the name is checked first |
| `Providers.HasKey` | utils.py:33 | the truth test on `api_keys_dict.get(name)`: the name is a key of the dictionary and its value is non-empty |
| `Providers.MissingKeyMessage` | utils.py:33-50 | the `ValueError` text for a missing key says " API Key not provided" |
| `Providers.MissingKeyMessageNamesService` | utils.py:33-50 | the missing-key message starts with the service name, the provider's own name except "Anthropic" for Claude, and says " for resume formatting" when the key was needed for formatting |
| `Providers.UnsupportedMessage` | utils.py:56-57 | the `ValueError` text for an unsupported provider ends with the name that was given |
| `Providers.Setup` | utils.py:31-59 | setup fails with a `ValueError` carrying the resolution message when resolution fails; after a successful resolution it yields the client when the constructor is silent, and otherwise passes the constructor's exception on unchanged, `ValueError` flag included |
| `Providers.AppendHelpHint` | utils.py:61-70 | the loop over the help table leaves the message unchanged or appends exactly one table hint, namely that of the first provider named in the message |
| `Providers.FirstHelp` | utils.py:67-70 | a chosen help text belongs to a table entry whose provider name occurs in the message |
| `Providers.WithHelpHint` | utils.py:67-70 | the hinted message starts with the original message and either equals it or adds one marker and the help text of a provider named in it |
| `Providers.FirstHelpIsFirstMatch` | utils.py:67-70 | if entry j's provider occurs in the message and no earlier entry's does, entry j's help text is chosen |
| `Providers.FirstHelpNone` | utils.py:67-70 | no hint is chosen exactly when no provider name of the table occurs in the message |
| `Providers.MissingKeyHint` | utils.py:32-70 | a missing Google key earns the Google hint and a missing OpenAI key the OpenAI hint, for answering and formatting alike |
| `Providers.OpenAIKeyMessageLacksGoogle` | utils.py:41-42 | the OpenAI missing-key message does not contain "Google", so the first table entry does not match it |
| `Providers.NoHintWithoutProviderInitials` | utils.py:67-70 | a message with no capital G, O or C names no provider and is left without a hint |
| `Providers.AnthropicMessageInitials` | utils.py:48-50 | both missing-Anthropic-key messages contain no capital G, O or C |
| `Providers.MissingClaudeKeyHasNoHint` | utils.py:48-70 | the configuration error for a missing Claude key carries no help hint |
| `Answers.CompanyContext` | utils.py:96-102 | the company context: the knowledge section, then the research section, each only for a non-blank input; its properties are the two lemmas below |
| `Answers.CompanyContextEmptyIff` | utils.py:96-102 | the company context is `""` exactly when both the user knowledge and the research are empty or whitespace only |
| `Answers.CompanyContextSections` | utils.py:96-102 | each non-blank input contributes its header and its stripped text, the "Additional information" section before the "Research findings" section; a blank input adds no header |
| `Answers.BuildCompanyContext` | utils.py:96-102 | the two `company_context +=` steps compute exactly the company context |
| `Answers.UnexpectedErrorText` | utils.py:77-89 | the text for an unexpected setup exception starts with "Unexpected error: " and the whole exception message, before any rate-limit, authentication or connection hint |
| `Answers.SetupFailureAnswer` | utils.py:59-93 | a `ValueError` gives "Configuration Error: " and the hinted message; any other exception gives "Error: " and the unexpected-error text |
| `Answers.ConfigurationAnswerKeepsMessage` | utils.py:72-75 | a configuration error answer holds "Configuration Error: " and the whole exception message before any hint |
| `Answers.UnexpectedAnswerKeepsMessage` | utils.py:91-93 | an unexpected setup error answer holds "Error: Unexpected error: " and the whole exception message before any hint |
| `Answers.PromptFor` | utils.py:144-154 | the prompt of one question carries the resume, role, company, company context, question and word limit; `Answers.AskEach` states that call i receives it |
| `Answers.CallAnswer` | utils.py:155-157 | a completion is recorded as it is; a failed call is recorded as "Error generating answer: " and the exception message |
| `Answers.Broadcast` | utils.py:72-75 | the broadcast list has one record per question, in order, each with the same given answer |
| `Answers.AskEach` | utils.py:144-157 | the question loop makes one call per question in order, sends call i the prompt for question i, and records question i with its completion, or with "Error generating answer: " and the message when that call failed |
| `Answers.GenerateAnswers` | utils.py:14-158 | the result always has one record per question, in input order; an empty batch returns `[]` and sends nothing; a failed setup sends nothing and gives every record the same "Configuration Error: " (or "Error: Unexpected error: ") answer; otherwise call i alone decides record i's answer |
| `Documents.LastIndexOf` | utils.py:163 | the result is the position of the last occurrence of the character, or -1 when it does not occur |
| `Documents.Extension` | utils.py:163 | `os.path.splitext` gives `""` or a suffix of the name that starts with its only dot and contains no separator |
| `Documents.ExtensionOfName` | utils.py:163 | a name `dir/stem.e` whose stem has a non-dot character and whose `e` has no dot has extension `.e` |
| `Documents.HiddenFileHasNoExtension` | utils.py:163 | a name such as ".md" has no extension |
| `Documents.KindOf` | utils.py:166-180 | an extension is supported exactly when it is ".txt", ".md", ".pdf" or ".docx" |
| `Documents.PageContribution` | utils.py:171 | `page.extract_text() or ""`: a page fails exactly when its extraction raises, and a page without text contributes "" |
| `Documents.PagesText` | utils.py:170-171 | the page texts concatenated in order, a page with `None` text counting as "", and the first page that raises aborting the file |
| `Documents.DocxText` | utils.py:174-175 | each paragraph followed by a newline, in order |
| `Documents.ExtractText` | utils.py:166-176 | the text the chosen branch computes: the decoded bytes, the PDF page text or the DOCX paragraph text, or the parser's exception |
| `Documents.DocxTextAppend` | utils.py:174-175 | the DOCX text of two runs of paragraphs is the concatenation of their texts |
| `Documents.DocxTextSingle` | utils.py:175 | one paragraph contributes itself followed by a newline |
| `Documents.PagesTextAppend` | utils.py:170-171 | the PDF text of two runs of pages joins their texts, and the earlier failure wins |
| `Documents.BlankPageContributesNothing` | utils.py:171 | a page without text, wherever it stands, leaves the PDF text unchanged |
| `Documents.PagesTextFailsIff` | utils.py:170-183 | PDF extraction fails exactly when some page raises |
| `Documents.UnsupportedNotice` | utils.py:177-179 | the unsupported-file notice echoes the extension |
| `Documents.FailureNotice` | utils.py:181-183 | the parser-failure notice names the file and ends with the exception message |
| `Documents.ProcessDocument` | utils.py:161-184 | an unsupported lower-cased extension gives `None` and the "Unsupported file type" notice; a supported one gives the decoded text, the PDF page text or the DOCX paragraph text, or `None` with the "Error processing file" notice when a parser raises; a notice appears exactly when the text is `None` |
| `Documents.TxtExample` | utils.py:163-167 | "resume.txt" is decoded as plain text |
| `Documents.UpperCasePdfExample` | utils.py:163-169 | "CV.PDF" is read as a PDF: the extension is compared after lower-casing |
| `Documents.MixedCaseDocxExample` | utils.py:163-173 | "docs/cv.v2.Docx" is read as a DOCX file |
| `Documents.UnsupportedExamples` | utils.py:163-180 | "r.xyz" and ".md" are unsupported |
| `ResumeFormat.FormatResume` | utils.py:187-271 | blank input gives `""` and no notice; any notice comes with the original text returned unchanged; a setup failure or a failing call gives the matching notice; a completion is returned stripped |
| `ResumeFormat.FailureNotice` | utils.py:247-270 | a `ValueError` gives an error notice and any other exception a warning notice; either starts with its fixed prefix and the whole exception message |
| `ResumeFormat.Fallback` | utils.py:247-271 | both `except` handlers return the original text with the error or warning notice for the exception |
| `KeyCheck.ClassifyError` | utils.py:360-369 | an error never yields a valid verdict; the message is one of the four fixed forms; a message that mentions no authentication, rate limit or model problem gives "Connection error: " and at most 100 characters of the error |
| `KeyCheck.ProbeClient` | utils.py:333-352 | the probe client uses the given provider, key and model at temperature 0.1, with a token cap for OpenAI and Claude but not for Google |
| `KeyCheck.TestApiKey` | utils.py:325-369 | an empty key gives `(False, "No API key provided")` whatever the backend would do; an unsupported name gives its own message; an exception from the constructor or from the "Hello" call is classified by `ClassifyError`; a successful call gives `(True, "API key is valid")`; so the verdict is valid exactly when the key is non-empty, the provider is supported, and both steps succeed |
| `KeyCheck.UnauthorizedTakesPrecedence` | utils.py:361-363 | "unauthorized" or "authentication", in any case and anywhere in the error, decides "Invalid API key" even when rate limits or models are also mentioned |
| `KeyCheck.RateLimitBeforeModel` | utils.py:361-365 | without an authentication complaint, "rate limit" in any case decides "Rate limited" even if a model is also mentioned |
| `KeyCheck.ModelBeforeConnection` | utils.py:361-369 | without an authentication or rate-limit complaint, "model" in any case decides "Model '<name>' not available" rather than the connection-error fallback |

## Left out

- The LangChain clients, `PromptTemplate` and `LLMChain` are foreign network code. They appear only through `Providers.Backend`, whose answer is an arbitrary function of the client, the call number and the prompt variables.
- The wording of the two prompt templates is not modelled. A prompt is the tuple of values bound into its template.
- A failure of `LLMChain(...)` itself, at utils.py:142, is not modelled. That call sits outside any `try`, so its exception would escape `generate_answers`.
- `PdfReader`, `docx.Document` and `bytes.decode` are foreign parsers. Their results, or the message of the exception they raise, are inputs.
- Streamlit output is modelled only as the notice value returned beside the result. Nothing about display or ordering on screen is modelled.
- `estimate_cost` is not modelled: it is floating-point token and price arithmetic over a hard-coded pricing table.
- `get_company_research` is not modelled: it returns a fixed placeholder string.
- `model_descriptions` and `model_options` are static UI data and are not modelled.
- main.py is not part of this model: it is a command-line script doing environment loading, file loading, `input()` and `print`.
- Text.Lower: lower-cases the ASCII capitals and the Kelvin sign (U+212A, which Python maps to `k`) and leaves every other character unchanged. Python's `str.lower()` also maps other non-ASCII capitals. Of those, only U+0130 gives a result containing an ASCII letter: it becomes the two characters `i` and U+0307, so Python's lowered string is longer. The `i` is always followed by U+0307, and no searched word ends in `i`. So neither the substring tests at utils.py:78-86 and 361-366 nor the extension dispatch decides differently. The echoed extension in the "Unsupported file type" notice may differ for non-ASCII names.
- Documents.Extension: treats `/` as the only path separator, as POSIX `os.path.splitext` does. The Windows `\` separator is not modelled.
- Temperatures are kept in tenths (3 for 0.3, 1 for 0.1) rather than as floating-point numbers.
- The API keys are a map from provider name to string. A `None` value in the Python dictionary is modelled as an absent key, which Python treats the same way.
