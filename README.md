# Central de Acolhimento — contact-record pipeline, modelled in Dafny

Central de Acolhimento is a help desk that registers people who ask for support.
This project models the pipeline that turns a request into a stored contact.
A request is either explicit fields (nome, telefone, email, motivo) or free text.
A local language model reads the free text and extracts the fields from it.

The model covers the following parts:

- **The phone normaliser** (`Phone`). The Brazilian normaliser `_normalize_phone` is written identically three times in the repository. It is modelled once. Eleven digits become `DD-DDDDD-DDDD` and ten become `DD-DDDD-DDDD`; any other input comes back unchanged. Its relation to the pattern `^\d{2}-\d{4,5}-\d{4}$` is proved, and so is its idempotence.
- **The validator** (`Validator`). `DataValidator.validate_contact_data` is a method that checks the five fields in order. It is proved equal to a pure `Validation`. Lemmas relate messages to rejected fields, fix the order of the messages and show that re-validating the corrected record changes nothing. The confidence score is computed as an exact rational and its bounds and monotonicity are proved.
- **The entity extractor of the LLM service** (`Extractor`).
  - `_parse_entities` is first-`{`-to-last-`}` extraction followed by a JSON decode.
  - `_validate_entities` is a method that fills a dict, proved equal to `Cleaned`.
  - The guards of `extract_entities` (blank text, more than 2000 characters) are modelled against an Ollama client class whose reply is a parameter.
- **The API's LLM integration** (`LlmIntegration`).
  - The extraction prompt is modelled exactly.
  - The text can be read back out of the prompt, so the prompt determines the text.
  - The prompt names every field.
  - The parser rewrites `telefone` in place.
- **`ContatoRepository` as an in-memory table** (`Repository`). It holds a sequence of rows and an id counter. `create` follows SQLAlchemy's NOT NULL and column-default rules. `update` overwrites only the values that are not `None`. `delete`, `get`, `get_by_telefone`, `list_all` (filter, then offset and limit) and `count` are modelled too.
- **`ContatoService`** (`Service`). It covers creation by both paths, the duplicate-phone rule on create and update, and the delegating get and delete.

Shared pieces:

- `Values` holds dynamically typed values, Python truthiness and `dict.get`.
- `Text` holds ASCII `isspace`, `strip` and `lower`, and substring search.
- `Entities` holds the five fields and the regex search `\{.*\}`.

The code shows two behaviours of `create_contato` (api-repo/app/services/crud_service.py) that the model states as they are:

- On the LLM path, the extracted entities are passed to `Contato(...)` under the key `"metadata"`. That name already exists on every SQLAlchemy declarative class (the table metadata), so the constructor accepts it. It is not a column, though, so it is never stored, and `extra_data` stays NULL (`Service.LlmRecordStored`).
- On the LLM path, the required-field check is skipped and the duplicate check only looks at the phone the request sent. An extraction without a name therefore fails at the insert (NOT NULL), after the model has been called. An extracted phone that another contact already holds is inserted anyway (`Service.PlanPaths`).

## Model

| member | source | states |
|---|---|---|
| Values.Get | llm-repo/app/validators/validator.py:24 | `dict.get`: a missing key reads as `None`, a present key as its value |
| Values.OptStr | api-repo/app/schemas/contato.py:12-15 | an optional schema field is `None` exactly when unset, otherwise its string |
| Text.IsSpace | llm-repo/app/validators/validator.py:25 | the ASCII characters Python's `str.isspace` accepts: TAB to CR, 0x1C-0x1F and SPACE (no contract; `Text.StripEmptyIff` and `Text.StripSpec` use it) |
| Text.TrimLeft | llm-repo/app/validators/validator.py:29 | `lstrip()` (no contract; `Text.TrimLeftSpec` states what it returns) |
| Text.TrimRight | llm-repo/app/validators/validator.py:29 | `rstrip()` (no contract; `Text.TrimRightSpec` states what it returns) |
| Text.Strip | llm-repo/app/validators/validator.py:29 | `strip()` as `rstrip` after `lstrip` (no contract; `Text.StripSpec`, `Text.StripEmptyIff` and `Text.StripIdempotent` state what it returns) |
| Text.Contains | api-repo/app/crud/contato.py:43 | the substring test used by the motivo filter (no contract; `Text.ContainsIff` states it) |
| Text.TrimLeftSpec | llm-repo/app/validators/validator.py:29 | `lstrip` keeps a suffix, removes only whitespace, and leaves no leading whitespace |
| Text.TrimRightSpec | llm-repo/app/validators/validator.py:29 | `rstrip` keeps a prefix, removes only whitespace, and leaves no trailing whitespace |
| Text.StripSpec | llm-repo/app/validators/validator.py:29 | `strip` returns a slice of the input with whitespace at neither end |
| Text.StripEmptyIff | llm-repo/app/entity_extractors/extractor.py:27 | `strip()` is empty exactly when the string is all whitespace |
| Text.StripIdempotent | llm-repo/app/validators/validator.py:29 | stripping twice is stripping once |
| Text.StripFixed | llm-repo/app/validators/validator.py:29 | a string without whitespace at its ends is its own strip |
| Text.StripKeeps | llm-repo/app/entity_extractors/extractor.py:95-96 | a non-space character of the input survives `strip` |
| Text.LowerChar | llm-repo/app/validators/validator.py:47 | ASCII `lower` shifts exactly `A`-`Z` by 32 |
| Text.Lower | llm-repo/app/validators/validator.py:47 | `lower` keeps the length and lowers each character |
| Text.LowerIdempotent | llm-repo/app/validators/validator.py:47 | lowering twice is lowering once |
| Text.LowerKeepsSpace | llm-repo/app/validators/validator.py:47 | `s.strip().lower()` equals `s.lower().strip()` |
| Text.ContainsIff | api-repo/app/crud/contato.py:43 | the substring test holds exactly when the pattern is a prefix of some suffix |
| Text.ContainsPrefix | api-repo/app/crud/contato.py:43 | a substring of `s` is a substring of `s + t` |
| Text.ContainsSuffix | api-repo/app/crud/contato.py:43 | a substring of `t` is a substring of `s + t` |
| Phone.Digits | llm-repo/app/validators/validator.py:82 | the filtered digits are all digits and no longer than the input |
| Phone.DigitsConcat | llm-repo/app/validators/validator.py:82 | digit filtering distributes over concatenation |
| Phone.DigitsOfDigits | llm-repo/app/validators/validator.py:82 | an all-digit string is its own filter |
| Phone.NormalizePhone | llm-repo/app/validators/validator.py:79-92 | `_normalize_phone`, the one definition for the three copies (validator.py:79-92, extractor.py:116-129, llm_integration.py:105-118); no contract, `Phone.NormalizeShape`, `Phone.NormalizeIdempotent` and `Phone.NormalizedMatchesIff` state what it returns |
| Phone.PhonePatternMatches | llm-repo/app/validators/validator.py:14 | `^\d{2}-\d{4,5}-\d{4}$` with `match`, accepting also before a final newline (no contract; `Phone.PatternHasTenOrElevenDigits` states it) |
| Phone.DigitsOfDashed | llm-repo/app/validators/validator.py:87 | inserting dashes between digit groups keeps exactly those digits |
| Phone.NormalizeShape | llm-repo/app/validators/validator.py:79-92 | 11 digits give the mobile format, 10 the landline format, both keeping the digits; any other count returns the input unchanged |
| Phone.NormalizeIdempotent | llm-repo/app/validators/validator.py:79-92 | normalising twice is normalising once |
| Phone.CanonicalIsFixedPoint | llm-repo/app/validators/validator.py:79-92 | a phone already in `DD-DDDD(D)-DDDD` form is left as it is |
| Phone.PatternHasTenOrElevenDigits | llm-repo/app/validators/validator.py:14 | whatever `^\d{2}-\d{4,5}-\d{4}$` accepts (including before a final newline) has 10 or 11 digits |
| Phone.NormalizedMatchesIff | llm-repo/app/validators/validator.py:37-42 | after normalising, the phone pattern accepts exactly the inputs with 10 or 11 digits |
| Phone.NormalizeGrouped | llm-repo/app/validators/validator.py:85-90 | digits split 2 / 4-or-5 / 4 in any written form come out dashed between those groups |
| Phone.DigitsBracketed | llm-repo/tests/unit/test_validator.py:44 | `(XX) YYYY-ZZZZ` has digits `XXYYYYZZZZ` |
| Phone.DigitsSpaced | llm-repo/tests/unit/test_validator.py:45 | `XX YYYY ZZZZ` has digits `XXYYYYZZZZ` |
| Phone.NormalizeExampleParens | llm-repo/tests/unit/test_validator.py:44 | `(11) 9999-8888` normalises to `11-9999-8888` |
| Phone.NormalizeExampleCanonical | llm-repo/tests/unit/test_extractor.py:44-48 | `11-8888-7777`, already canonical, is kept as it is |
| Phone.NormalizeExampleSpaces | llm-repo/tests/unit/test_validator.py:45 | `11 9999 8888` normalises to `11-9999-8888` |
| Phone.NormalizeExampleBare | llm-repo/tests/unit/test_validator.py:46 | `1199998888` normalises to `11-9999-8888` |
| Phone.NormalizeExampleNoDigits | llm-repo/tests/unit/test_validator.py:21 | `invalid` has no digits and is returned unchanged |
| Entities.AllNullShape | llm-repo/app/entity_extractors/extractor.py:67-73 | the fallback record has exactly the five fields, all `None` |
| Entities.ResponseText | llm-repo/app/entity_extractors/extractor.py:39 | a missing `response` reads as `""`; a present one is usable exactly when it is a string |
| Entities.FirstIndex | llm-repo/app/entity_extractors/extractor.py:57 | the first occurrence of a character, or none |
| Entities.LastIndex | llm-repo/app/entity_extractors/extractor.py:57 | the last occurrence of a character, or none |
| Entities.JsonSpan | llm-repo/app/entity_extractors/extractor.py:57-59 | the text of `re.search(r"\{.*\}", response, re.DOTALL)`: first `{` to last `}` (no contract; `Entities.JsonSpanIsLeftmostLongest` states that it is the regex's match) |
| Entities.JsonSpanIsLeftmostLongest | llm-repo/app/entity_extractors/extractor.py:57-59 | the span exists exactly when some `{...}` match exists, and it is the leftmost-starting, longest match, as the greedy search returns |
| Entities.NoBraceNoSpan | llm-repo/app/entity_extractors/extractor.py:57-58 | a response without `{` has no match |
| Validator.Message | llm-repo/app/validators/validator.py:26-69 | every issue has a non-empty message |
| Validator.MessageInjective | llm-repo/app/validators/validator.py:26-69 | distinct issues have distinct messages |
| Validator.MessagesOf | llm-repo/app/validators/validator.py:20 | the error list is the issues' messages in the same order |
| Validator.EmailShapeIsRegex | llm-repo/app/validators/validator.py:15 | the executable email check agrees with the regex `^[a-zA-Z0-9._%+-]+@[a-zA-Z0-9.-]+\.[a-zA-Z]{2,}$` read as an existential split |
| Validator.EmailPatternMatches | llm-repo/app/validators/validator.py:15 | the email regex with `match`, including before a final newline (no contract; `Validator.EmailShapeIsRegex` relates it to the regex) |
| Validator.DatePatternMatches | llm-repo/app/validators/validator.py:16 | `^\d{4}-\d{2}-\d{2}$` with `match` (no contract; `Validator.CheckData` uses it) |
| Validator.IssueList | llm-repo/app/validators/validator.py:26 | a field check appends at most one message |
| Validator.CheckNome | llm-repo/app/validators/validator.py:24-29 | nome is accepted exactly when it is a string whose strip has 2 or more characters, and is then stored stripped; otherwise it becomes `None` with its message |
| Validator.CheckTelefone | llm-repo/app/validators/validator.py:32-42 | falsy or non-string means "required"; otherwise the normalised phone is kept exactly when the pattern accepts it, else "format" |
| Validator.CheckEmail | llm-repo/app/validators/validator.py:45-54 | a blank or absent email is `None` without error; otherwise the stripped, lowered email is kept when the pattern accepts it, else an error |
| Validator.CheckMotivo | llm-repo/app/validators/validator.py:57-62 | motivo is accepted exactly when its strip has 3 or more characters, and is then stored stripped |
| Validator.CheckData | llm-repo/app/validators/validator.py:65-74 | a blank or absent date is `None` without error; otherwise the stripped date must match `^\d{4}-\d{2}-\d{2}$` |
| Validator.ValidateNome | llm-repo/app/validators/validator.py:24-29 | the nome step appends exactly the nome check's message and yields its value |
| Validator.ValidateTelefone | llm-repo/app/validators/validator.py:32-42 | the telefone step appends exactly the telefone check's message and yields its value |
| Validator.ValidateEmail | llm-repo/app/validators/validator.py:45-54 | the email step appends exactly the email check's message and yields its value |
| Validator.ValidateMotivo | llm-repo/app/validators/validator.py:57-62 | the motivo step appends exactly the motivo check's message and yields its value |
| Validator.ValidateData | llm-repo/app/validators/validator.py:65-74 | the data step appends exactly the data check's message and yields its value |
| Validator.Assemble | llm-repo/app/validators/validator.py:20-77 | the returned triple from the five field checks (no contract; `Validator.AssembleMembers`, `Validator.AssembleValid` and `Validator.AssembleAscending` state it) |
| Validator.Validation | llm-repo/app/validators/validator.py:18-77 | `validate_contact_data` as a value (no contract; `Validator.ValidationShape`, `Validator.ValidIffNoErrors` and `Validator.RevalidationStable` state it) |
| Validator.ValidateContactData | llm-repo/app/validators/validator.py:18-77 | the imperative validation returns the validity, corrected record and error list of the pure `Validation`, and it is valid exactly when the error list is empty |
| Validator.ValidIffNoErrors | llm-repo/app/validators/validator.py:76 | `is_valid` holds exactly when `errors` is empty |
| Validator.MessagesOfConcat | llm-repo/app/validators/validator.py:20 | messages of appended issue lists are the appended messages |
| Validator.AssembleAscending | llm-repo/app/validators/validator.py:23-74 | issues come out in field order, at most one per field |
| Validator.ValidationShape | llm-repo/app/validators/validator.py:20-77 | at most five errors, strictly in the order nome, telefone, email, motivo, data |
| Validator.CorrectedKeys | llm-repo/app/validators/validator.py:21-74 | the corrected record has exactly the five fields |
| Validator.MessageInIff | llm-repo/app/validators/validator.py:20 | a message is in the error list exactly when its issue was found |
| Validator.ErrorMessageIff | llm-repo/app/validators/validator.py:76-77 | a message is reported exactly when its issue was found |
| Validator.AssembleMembers | llm-repo/app/validators/validator.py:23-74 | an issue is reported exactly when one field check found it |
| Validator.AssembleRejected | llm-repo/app/validators/validator.py:23-74 | a field with an issue is corrected to `None` |
| Validator.IssueIffRejected | llm-repo/app/validators/validator.py:23-74 | nome, telefone and motivo are `None` in the result exactly when they were reported; a reported email or date is `None` |
| Validator.TelefoneAcceptedIff | llm-repo/app/validators/validator.py:32-42 | the phone is kept exactly when it is a non-empty string with 10 or 11 digits, and then it is the normalised phone |
| Validator.NomeStable | llm-repo/app/validators/validator.py:24-29 | checking a corrected nome again keeps it and accepts it |
| Validator.TelefoneStable | llm-repo/app/validators/validator.py:32-42 | checking a corrected phone again keeps it and accepts it |
| Validator.EmailStable | llm-repo/app/validators/validator.py:45-54 | checking a corrected email again keeps it and accepts it |
| Validator.MotivoStable | llm-repo/app/validators/validator.py:57-62 | checking a corrected motivo again keeps it and accepts it |
| Validator.DataStable | llm-repo/app/validators/validator.py:65-74 | checking a corrected date again keeps it and accepts it |
| Validator.CorrectedValues | llm-repo/app/validators/validator.py:21-74 | each corrected field is its check's value |
| Validator.AssembleValid | llm-repo/app/validators/validator.py:76 | the record is valid exactly when no field check found an issue |
| Validator.RevalidationStable | llm-repo/app/validators/validator.py:18-77 | validating the corrected record returns it unchanged, and a valid record stays valid |
| Validator.FilledKeys | llm-repo/app/validators/validator.py:97 | the keys whose value is not `None`, over all keys of the record (no contract; `Validator.ConfidenceMonotone` uses it) |
| Validator.RequiredFilled | llm-repo/app/validators/validator.py:103-104 | at most three required fields are counted |
| Validator.Confidence | llm-repo/app/validators/validator.py:94-107 | the score lies between 0 and 1 |
| Validator.ConfidenceMonotone | llm-repo/app/validators/validator.py:96-107 | filling more keys never lowers the score |
| Validator.ConfidenceGrowsWhenFilled | llm-repo/app/validators/validator.py:96-107 | setting a key to a value never lowers the score |
| Validator.ConfidenceFullWithFourFields | llm-repo/app/validators/validator.py:96-107 | the three required fields plus email or date give the maximum score |
| Validator.ConfidenceOfAllNull | llm-repo/app/validators/validator.py:96-107 | the fallback record scores 0 |
| Validator.MariaEmailMatches | llm-repo/tests/conftest.py:42 | `maria@example.com` matches the email pattern |
| Validator.SampleFieldsAccepted | llm-repo/tests/conftest.py:37-45 | each field of the sample entities passes its check unchanged |
| Validator.ValidSampleAccepted | llm-repo/tests/unit/test_validator.py:7-14 | the sample entities are valid and come back unchanged |
| Validator.InvalidFieldsRejected | llm-repo/tests/unit/test_validator.py:17-24 | nome `A`, telefone `invalid`, email `invalid-email` and motivo `OK` each fail their check |
| Validator.ShortTextRejected | llm-repo/tests/unit/test_validator.py:20-23 | `A` is too short for nome, `OK` is long enough for nome but too short for motivo |
| Validator.BadEmailRejected | llm-repo/tests/unit/test_validator.py:22 | `invalid-email` is rejected |
| Validator.NoAtSign | llm-repo/app/validators/validator.py:15 | a string without `@` does not match the email pattern |
| Validator.InvalidSampleRejected | llm-repo/tests/unit/test_validator.py:17-31 | the invalid sample reports nome, format, email and motivo errors in that order and is not valid |
| Extractor.BlankIff | llm-repo/app/entity_extractors/extractor.py:27 | the emptiness guard fires exactly on all-whitespace text |
| Extractor.IsBlank | llm-repo/app/entity_extractors/extractor.py:27 | `not text or len(text.strip()) == 0` (no contract; `Extractor.BlankIff` states it) |
| Extractor.GuardMessage | llm-repo/app/entity_extractors/extractor.py:27-31 | the two guard messages, with the limit `MaxTextLength` = 2000 of llm-repo/app/core/config.py:28 (no contract) |
| Extractor.ParseEntities | llm-repo/app/entity_extractors/extractor.py:54-73 | no match, or a match that does not decode, gives the all-`None` record; otherwise the decoded match |
| Extractor.ParseNoBrace | llm-repo/tests/unit/test_extractor.py:51-57 | a response without `{` parses to all `None` |
| Extractor.CleanText | llm-repo/app/entity_extractors/extractor.py:80-84 | a text field is `None` or the non-empty strip of the string given |
| Extractor.CleanPhone | llm-repo/app/entity_extractors/extractor.py:87-91 | the phone is `None` exactly when it is not a non-empty string |
| Extractor.CleanEmail | llm-repo/app/entity_extractors/extractor.py:94-98 | the email is `None` exactly when it is not a string containing `@` |
| Extractor.Cleaned | llm-repo/app/entity_extractors/extractor.py:75-114 | the validated record has exactly the five fields |
| Extractor.ValidateEntities | llm-repo/app/entity_extractors/extractor.py:75-114 | the imperative dict fill returns `Cleaned(entities)` |
| Extractor.CleanTextIff | llm-repo/app/entity_extractors/extractor.py:81 | a text field is kept exactly when it is a string that is not all whitespace, and it is kept without leading space |
| Extractor.CleanPhoneShape | llm-repo/app/entity_extractors/extractor.py:88-89 | a kept phone with 10 or 11 digits is in canonical form; others are kept as given |
| Extractor.CleanEmailKeepsAt | llm-repo/app/entity_extractors/extractor.py:95-96 | a kept email still contains `@` after strip and lower |
| Extractor.CleanTextIdempotent | llm-repo/app/entity_extractors/extractor.py:80-84 | cleaning a text field twice is cleaning it once |
| Extractor.CleanPhoneIdempotent | llm-repo/app/entity_extractors/extractor.py:87-91 | cleaning a phone twice is cleaning it once |
| Extractor.CleanEmailIdempotent | llm-repo/app/entity_extractors/extractor.py:94-98 | cleaning an email twice is cleaning it once |
| Extractor.CleanedIdempotent | llm-repo/app/entity_extractors/extractor.py:75-114 | validating validated entities changes nothing |
| Extractor.CleanedIgnoresOtherKeys | llm-repo/app/entity_extractors/extractor.py:75-114 | only the five fields of the input matter |
| Extractor.CleanedAllNull | llm-repo/app/entity_extractors/extractor.py:67-73 | the fallback record validates to itself |
| Extractor.OllamaClient.Generate | llm-repo/app/entity_extractors/extractor.py:38 | one request is logged per call and the reply is the runtime's answer to that prompt |
| Extractor.Extraction | llm-repo/app/entity_extractors/extractor.py:22-52 | a successful extraction has exactly the five fields |
| Extractor.EntityExtractor.ExtractEntities | llm-repo/app/entity_extractors/extractor.py:22-52 | the result is `Extraction`; the runtime is called once, with the rendered prompt, exactly when both guards pass |
| Extractor.BlankTextRejected | llm-repo/tests/unit/test_extractor.py:20-24 | blank text raises "Text cannot be empty" |
| Extractor.LongTextRejected | llm-repo/tests/unit/test_extractor.py:27-32 | text over `MaxTextLength` (2000) characters that is not blank raises "Text too long" |
| Extractor.AcceptedTextOutcome | llm-repo/app/entity_extractors/extractor.py:36-52 | accepted text yields the runtime's failure, or the cleaned parse of its response text |
| Extractor.MissingResponseAllNull | llm-repo/app/entity_extractors/extractor.py:39-42 | a reply without `response` gives the all-`None` record |
| LlmIntegration.FieldLineNames | api-repo/app/services/llm_integration.py:53-57 | each field line of the prompt names its field |
| LlmIntegration.BuildExtractionPrompt | api-repo/app/services/llm_integration.py:47-76 | the prompt, character for character, as head + text + tail (no contract; `LlmIntegration.PromptTextRoundTrip`, `LlmIntegration.PromptInjective` and `LlmIntegration.PromptNamesFields` state it) |
| LlmIntegration.Between | api-repo/app/services/llm_integration.py:47-76 | reading the text between prompt head and tail has the remaining length |
| LlmIntegration.EmbedRoundTrip | api-repo/app/services/llm_integration.py:47-76 | text embedded between a head and a tail can be read back |
| LlmIntegration.PromptTextRoundTrip | api-repo/app/services/llm_integration.py:47-76 | the user text can be read back out of the prompt |
| LlmIntegration.PromptInjective | api-repo/app/services/llm_integration.py:47-76 | different texts give different prompts |
| LlmIntegration.PromptContainsText | api-repo/tests/unit/test_llm_integration.py:61-67 | the prompt contains the text |
| LlmIntegration.PromptNamesFields | api-repo/tests/unit/test_llm_integration.py:68-71 | the prompt mentions nome, telefone, email, motivo and data |
| LlmIntegration.NormalizeTelefone | api-repo/app/services/llm_integration.py:89-91 | a truthy non-string phone raises; a truthy string is replaced by its normalised form; everything else is untouched |
| LlmIntegration.Parsed | api-repo/app/services/llm_integration.py:78-103 | no match or no decode gives all `None`; otherwise the decoded match with its phone normalised |
| LlmIntegration.NormalizeTelefoneIdempotent | api-repo/app/services/llm_integration.py:89-91 | normalising the parsed phone again changes nothing |
| LlmIntegration.NormalizeTelefoneDigits | api-repo/app/services/llm_integration.py:89-91 | the normalised phone keeps its digits, and 10 or 11 digits come out canonical |
| LlmIntegration.CanonicalPhoneKept | api-repo/app/services/llm_integration.py:89-91 | a canonical phone is left as it is |
| LlmIntegration.Extraction | api-repo/app/services/llm_integration.py:23-45 | a failed request is reported as that failure |
| LlmIntegration.MissingResponseAllNull | api-repo/app/services/llm_integration.py:38 | a reply without `response` gives the all-`None` record |
| LlmIntegration.LLMIntegration.ParseEntities | api-repo/app/services/llm_integration.py:78-103 | the in-place parse returns `Parsed(response)` |
| LlmIntegration.LLMIntegration.ExtractEntities | api-repo/app/services/llm_integration.py:23-45 | exactly the built prompt is posted, once, and the result is `Extraction` |
| Repository.Stored | api-repo/app/models/contato.py:15-22 | a stored row has exactly the six data columns: the value given if not `None`, else "pendente" for status_mcp, else NULL |
| Repository.InsertFails | api-repo/app/models/contato.py:16-19 | an insert violates NOT NULL exactly when nome, telefone or motivo is `None` or missing (no contract; `Repository.StoredRowOk` states it) |
| Repository.StoredRowOk | api-repo/app/models/contato.py:16-21 | the stored row satisfies NOT NULL exactly when the insert does not fail; status_mcp defaults to "pendente" |
| Repository.Patched | api-repo/app/crud/contato.py:56-58 | values other than `None` overwrite, every other field is kept, nothing else appears |
| Repository.IndexOfId | api-repo/app/crud/contato.py:24 | the first row with that id, or proof that none has it |
| Repository.IndexOfPhone | api-repo/app/crud/contato.py:29 | the first row with that phone, or proof that none has it |
| Repository.Matches | api-repo/app/crud/contato.py:42-45 | a non-empty motivo filter must be a substring of the row's motivo, a non-empty status filter must equal its status (no contract) |
| Repository.Filtered | api-repo/app/crud/contato.py:40-45 | keeps exactly the rows passing the motivo and status filters, and never more rows than the table |
| Repository.FilteredSingle | api-repo/app/crud/contato.py:42-45 | a single row is kept exactly when it passes the filters |
| Repository.FilteredConcat | api-repo/app/crud/contato.py:40-45 | filtering works row by row over the table: the rows kept from `a + b` are those kept from `a` followed by those kept from `b`, so order and repetitions are the table's |
| Repository.Page | api-repo/app/crud/contato.py:47 | at most `limit` rows, the rows from `skip` on, empty past the end |
| Repository.PatchFields | api-repo/app/crud/contato.py:56-58 | the setattr loop yields `Patched` |
| Repository.ContatoRepository.Get | api-repo/app/crud/contato.py:21-24 | `None` exactly when no row has the id; otherwise a row with that id |
| Repository.ContatoRepository.GetByTelefone | api-repo/app/crud/contato.py:26-29 | `None` exactly when no row has the phone; otherwise a row with it |
| Repository.ContatoRepository.ListAll | api-repo/app/crud/contato.py:31-47 | the page at `skip` of at most `limit` rows of the filtered table (with `Repository.Page`: exactly `min(limit, n - skip)` rows, the i-th being filtered row `skip + i`), each a stored row passing the filters |
| Repository.ContatoRepository.Count | api-repo/app/crud/contato.py:75-78 | the number of rows (no contract; `Repository.ContatoRepository.Create` and `Repository.ContatoRepository.Delete` state how it changes) |
| Repository.ContatoRepository.Create | api-repo/app/crud/contato.py:13-19 | fails, changing nothing, exactly when a NOT NULL column would be NULL; otherwise appends a row with a fresh id |
| Repository.ContatoRepository.Update | api-repo/app/crud/contato.py:50-62 | a missing id changes nothing; otherwise that row's fields become `Patched` and nothing else changes |
| Repository.ContatoRepository.Delete | api-repo/app/crud/contato.py:64-73 | true exactly when the id existed; then that row alone is removed; afterwards no row has the id |
| Repository.PatchedRowOk | api-repo/app/crud/contato.py:56-58 | an update never sets a NOT NULL column to NULL |
| Repository.RemovedIdGone | api-repo/app/crud/contato.py:71 | removing a row removes its id and keeps ids increasing |
| Repository.IdsUnique | api-repo/app/models/contato.py:15 | ids identify rows |
| Repository.NoFilterKeepsAll | api-repo/app/crud/contato.py:42-45 | without filters every row is listed |
| Service.Message | api-repo/app/services/crud_service.py:28 | the texts of the service's `ValueError`s (lines 28, 44-47 and 51; no contract) |
| Service.LookupPhone | api-repo/app/services/crud_service.py:26 | the phone looked up on create, `data.telefone or ""` (no contract) |
| Service.UsesLlm | api-repo/app/services/crud_service.py:31 | the LLM path is taken when `texto_livre` is truthy and `nome` is not (no contract) |
| Service.RequiredGiven | api-repo/app/services/crud_service.py:50 | `all([nome, telefone, motivo])` (no contract) |
| Service.ManualRecord | api-repo/app/services/crud_service.py:53-58 | the manual path's record (no contract; `Service.ManualRecordStored` states what is stored) |
| Service.LlmRecord | api-repo/app/services/crud_service.py:34-41 | the LLM path's record, entities under `metadata` (no contract; `Service.LlmRecordStored` states what is stored) |
| Service.UpdateConflict | api-repo/app/services/crud_service.py:93-96 | the update's duplicate-phone condition (no contract; `Service.UpdateConflictMeans` states it) |
| Service.CreatePlan | api-repo/app/services/crud_service.py:25-58 | success implies no duplicate; the missing-fields error only on the manual path with a required field missing; an LLM error only on the LLM path, carrying the extraction's error |
| Service.DuplicateRefusedFirst | api-repo/app/services/crud_service.py:26-28 | a known phone is refused whatever else the request holds |
| Service.PlanPaths | api-repo/app/services/crud_service.py:31-58 | the LLM path passes on the extraction's failure or builds its record; the manual path succeeds exactly when nome, telefone and motivo are given |
| Service.ManualRecordStored | api-repo/app/services/crud_service.py:50-58 | a manual record that passed the check never fails the insert and is stored as given, with "pendente" and no extra data |
| Service.LlmRecordStored | api-repo/app/services/crud_service.py:34-41 | an LLM record fails the insert exactly when a required entity is missing; status is "pendente" and `extra_data` stays NULL |
| Service.UpdateConflictMeans | api-repo/app/services/crud_service.py:93-96 | no phone sent means no conflict; a conflict means another contact holds the phone; a phone held only by this contact is no conflict |
| Service.ContatoService.CreateContato | api-repo/app/services/crud_service.py:19-62 | the outcome is `CreatePlan` followed by the repository's insert: a refused plan or insert changes no row and no id counter, a successful insert appends the stored row under the next id and advances the counter by one; the model is called exactly on the LLM path without a duplicate |
| Service.ContatoService.GetContato | api-repo/app/services/crud_service.py:64-69 | the repository's answer, a row with the id asked for |
| Service.ContatoService.UpdateContato | api-repo/app/services/crud_service.py:83-101 | fails, changing nothing, exactly on a phone conflict; otherwise the repository's update; the id counter never changes |
| Service.ContatoService.DeleteContato | api-repo/app/services/crud_service.py:103-105 | true exactly when the id existed; then that row alone is removed and the count drops by one; the id counter never changes; afterwards no row has the id |

## Left out

- HTTP, the Ollama runtime and JSON decoding are outside the model. The runtime's reply and `json.loads` are parameters (`reply`/`post` and `decode`). A decode yields a record or fails; JSON that decodes to something other than an object, and the `AttributeError` that would follow, are not modelled.
- LlmIntegration.LLMIntegration.ExtractEntities: the tenacity retry decorator is not modelled. A failing request is posted once here; the source tries three times and then raises tenacity's `RetryError`, not the original exception.
- Extractor.OllamaClient.Generate: the tenacity retry on `OllamaClient.generate` (llm-repo/app/ollama_client/client.py:21-24) is not modelled. One call here sends one request; the source may send up to `OLLAMA_MAX_RETRIES` (3, llm-repo/app/core/config.py:20) requests, waiting between them, and a lasting failure ends in tenacity's `RetryError`.
- Service.Describe: the text of a failed extraction is approximated. Python's `TypeError` messages name the offending type, and under retry `str(e)` is the `RetryError` text.
- Extractor.EntityExtractor.ExtractEntities: the prompt template (Jinja, in the prompt-template manager) is a rendering parameter. That file is not part of this model.
- LlmIntegration.NormalizeTelefone: every truthy non-string phone fails with `PhoneNotText`. In Python only a number or boolean raises `TypeError` there (not iterable). A JSON list is iterated element by element: if an element is not a string, `str.isdigit` raises `TypeError`; otherwise the all-digit string elements are kept and the others dropped, and if the kept ones join to 10 or 11 characters a formatted string comes back (`["tel", "11999998888"]` gives `11-99999-8888`), otherwise the list comes back unchanged. A JSON object is treated the same way over its keys. None of this is modelled.
- Validator.Confidence: computed as an exact rational. `round(…, 2)` and floating point are not modelled.
- Text: only ASCII is modelled. Python's Unicode whitespace, digits and case mapping are outside the model, and so are the `.` and `\d` of the regexes beyond ASCII.
- Repository.Filtered: it keeps the table's insertion order. The query in api-repo/app/crud/contato.py:40-47 has no `ORDER BY`, so SQL promises no order; the model fixes the order SQLite happens to use for a plain table scan.
- Repository.ContatoRepository.ListAll: SQLite's `LIKE` is case-insensitive for ASCII and treats `%` and `_` in the filter as wildcards. The model uses an exact substring test.
- Repository.ContatoRepository.Create: ids come from a counter that never reuses a value. SQLite without AUTOINCREMENT may reuse the id of a deleted last row.
- Timestamps (`data_cadastro`, `created_at`, `updated_at`) and the server clock are not modelled.
- Unknown keyword names passed to `Contato(...)` raise `TypeError` in SQLAlchemy. The model drops every non-column key, which covers the `metadata` key the service passes.
- Repository.ContatoRepository.Update: a key that is not a column would be set as a plain Python attribute and never stored. The model writes it into the row's fields.
- `ContatoOut.model_validate` of the results, logging, the FastAPI routers and the MCP router are not modelled.
- The database session itself is not modelled: commits, transaction rollback after an `IntegrityError`, and concurrent requests.
- `export_to_excel` and `list_contatos` are not modelled. The latter only forwards to `list_all`, which is modelled.
