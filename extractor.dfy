/** The LLM service's `EntityExtractor`: guards on the input text, one call to
    the model runtime, the JSON span search with its all-`None` fallback, and
    the per-field cleaning of what the model returned.

    The model runtime (`OllamaClient.generate`), template rendering and
    `json.loads` are not interpreted: the runtime is a reply function held by
    the client object, rendering a function from text to prompt, and decoding
    a function from text to an optional record. */
module Extractor {
  import opened Values
  import opened Text
  import opened Phone
  import opened Entities

  /** `settings.MAX_TEXT_LENGTH` of the LLM service. */
  const MaxTextLength: nat := 2000

  /** Why `extract_entities` raises: the two `ValueError`s of its guards, an
      exception of the runtime call (re-raised unchanged), or the `TypeError`
      of `re.search` when the reply's "response" is not a string. */
  datatype ExtractError = TextEmpty | TextTooLong | GenerateFailed(reason: string) | ResponseNotText

  /** The messages of the two guards. */
  function GuardMessage(e: ExtractError): (m: string)
    requires e.TextEmpty? || e.TextTooLong?
  {
    if e.TextEmpty? then "Text cannot be empty" else "Text too long (max 2000 characters)"
  }

  /** The first guard, `not text or len(text.strip()) == 0`. */
  predicate IsBlank(text: string) {
    text == [] || |Strip(text)| == 0
  }

  /** The first guard rejects exactly the texts made only of whitespace. */
  lemma BlankIff(text: string)
    ensures IsBlank(text) <==> AllSpace(text)
  {
    StripEmptyIff(text);
  }

  // ---------------------------------------------------------------------
  // _parse_entities
  // ---------------------------------------------------------------------

  /** `_parse_entities`: decode the span from the first `{` to the last `}`;
      without a span, or when decoding fails, the all-`None` record. */
  function ParseEntities(response: string, decode: string -> Option<Record>): (r: Record)
    ensures JsonSpan(response).None? ==> r == AllNull
    ensures JsonSpan(response).Some? && decode(JsonSpan(response).value).None? ==> r == AllNull
    ensures JsonSpan(response).Some? && decode(JsonSpan(response).value).Some? ==>
              r == decode(JsonSpan(response).value).value
  {
    match JsonSpan(response)
    case None => AllNull
    case Some(span) =>
      match decode(span)
      case None => AllNull
      case Some(entities) => entities
  }

  /** A reply without braces, the empty default included, parses to the
      all-`None` record whatever the decoder. */
  lemma ParseNoBrace(response: string, decode: string -> Option<Record>)
    requires forall k :: 0 <= k < |response| ==> response[k] != '{'
    ensures ParseEntities(response, decode) == AllNull
  {
    NoBraceNoSpan(response);
  }

  // ---------------------------------------------------------------------
  // _validate_entities
  // ---------------------------------------------------------------------

  /** nome, motivo and data: a string that is not blank is kept stripped;
      anything else becomes `None`. */
  function CleanText(v: Val): (r: Val)
    ensures r == Null || (v.Str? && r == Str(Strip(v.s)) && Strip(v.s) != [])
  {
    if Truthy(v) && v.Str? && |Strip(v.s)| > 0 then Str(Strip(v.s)) else Null
  }

  /** telefone: any non-empty string goes through the normaliser, unstripped;
      anything else becomes `None`. */
  function CleanPhone(v: Val): (r: Val)
    ensures r == Null <==> !(v.Str? && v.s != [])
  {
    if Truthy(v) && v.Str? then Str(NormalizePhone(v.s)) else Null
  }

  /** email: a string containing `@` is kept stripped and lower-cased;
      anything else becomes `None`. */
  function CleanEmail(v: Val): (r: Val)
    ensures r == Null <==> !(v.Str? && '@' in v.s)
  {
    if Truthy(v) && v.Str? && '@' in v.s then Str(Lower(Strip(v.s))) else Null
  }

  /** What `_validate_entities` returns: exactly the five fields, each
      cleaned by its rule; every other key of the input is dropped. */
  function Cleaned(entities: Record): (r: Record)
    ensures r.Keys == FieldSet
  {
    map["nome" := CleanText(Get(entities, "nome")),
        "telefone" := CleanPhone(Get(entities, "telefone")),
        "email" := CleanEmail(Get(entities, "email")),
        "motivo" := CleanText(Get(entities, "motivo")),
        "data" := CleanText(Get(entities, "data"))]
  }

  /** `_validate_entities`, filling the result one field at a time. */
  method ValidateEntities(entities: Record) returns (validated: Record)
    ensures validated == Cleaned(entities)
  {
    validated := map[];

    var nome := Get(entities, "nome");
    if Truthy(nome) && nome.Str? && |Strip(nome.s)| > 0 {
      validated := validated["nome" := Str(Strip(nome.s))];
    } else {
      validated := validated["nome" := Null];
    }

    assert validated == map["nome" := CleanText(nome)];

    var telefone := Get(entities, "telefone");
    if Truthy(telefone) && telefone.Str? {
      validated := validated["telefone" := Str(NormalizePhone(telefone.s))];
    } else {
      validated := validated["telefone" := Null];
    }

    assert validated == map["nome" := CleanText(nome), "telefone" := CleanPhone(telefone)];

    var email := Get(entities, "email");
    if Truthy(email) && email.Str? && '@' in email.s {
      validated := validated["email" := Str(Lower(Strip(email.s)))];
    } else {
      validated := validated["email" := Null];
    }

    assert validated == map["nome" := CleanText(nome), "telefone" := CleanPhone(telefone), "email" := CleanEmail(email)];

    var motivo := Get(entities, "motivo");
    if Truthy(motivo) && motivo.Str? && |Strip(motivo.s)| > 0 {
      validated := validated["motivo" := Str(Strip(motivo.s))];
    } else {
      validated := validated["motivo" := Null];
    }

    assert validated == map["nome" := CleanText(nome), "telefone" := CleanPhone(telefone), "email" := CleanEmail(email), "motivo" := CleanText(motivo)];

    var data := Get(entities, "data");
    if Truthy(data) && data.Str? && |Strip(data.s)| > 0 {
      validated := validated["data" := Str(Strip(data.s))];
    } else {
      validated := validated["data" := Null];
    }
  }

  /** A text field is kept exactly when it holds a non-whitespace character,
      and what is kept has no whitespace at either end. */
  lemma CleanTextIff(v: Val)
    ensures CleanText(v) != Null <==> v.Str? && !AllSpace(v.s)
    ensures CleanText(v).Str? ==> !IsSpace(CleanText(v).s[0])
                                  && !IsSpace(CleanText(v).s[|CleanText(v).s| - 1])
  {
    if v.Str? {
      StripEmptyIff(v.s);
      StripSpec(v.s);
    }
  }

  /** A kept phone is in canonical form when it had 10 or 11 digits, keeping
      those digits, and is the input itself otherwise. */
  lemma CleanPhoneShape(v: Val)
    requires v.Str? && v.s != []
    ensures |Digits(v.s)| in {10, 11} ==>
              IsCanonical(CleanPhone(v).s) && Digits(CleanPhone(v).s) == Digits(v.s)
    ensures |Digits(v.s)| !in {10, 11} ==> CleanPhone(v) == v
  {
    NormalizeShape(v.s);
  }

  /** A kept email still contains `@`. */
  lemma CleanEmailKeepsAt(v: Val)
    requires CleanEmail(v) != Null
    ensures '@' in CleanEmail(v).s
  {
    StripKeeps(v.s, '@');
    var t := Strip(v.s);
    var k :| 0 <= k < |t| && t[k] == '@';
    assert Lower(t)[k] == '@';
  }

  lemma CleanTextIdempotent(v: Val)
    ensures CleanText(CleanText(v)) == CleanText(v)
  {
    if CleanText(v) != Null {
      StripIdempotent(v.s);
    }
  }

  lemma CleanPhoneIdempotent(v: Val)
    ensures CleanPhone(CleanPhone(v)) == CleanPhone(v)
  {
    if CleanPhone(v) != Null {
      NormalizeShape(v.s);
      NormalizeIdempotent(v.s);
    }
  }

  lemma CleanEmailIdempotent(v: Val)
    ensures CleanEmail(CleanEmail(v)) == CleanEmail(v)
  {
    if CleanEmail(v) != Null {
      CleanEmailKeepsAt(v);
      var t := Strip(v.s);
      LowerKeepsSpace(t);
      StripIdempotent(v.s);
      LowerIdempotent(t);
    }
  }

  /** Cleaning a cleaned record changes nothing. */
  lemma CleanedIdempotent(entities: Record)
    ensures Cleaned(Cleaned(entities)) == Cleaned(entities)
  {
    var c := Cleaned(entities);
    CleanTextIdempotent(Get(entities, "nome"));
    CleanPhoneIdempotent(Get(entities, "telefone"));
    CleanEmailIdempotent(Get(entities, "email"));
    CleanTextIdempotent(Get(entities, "motivo"));
    CleanTextIdempotent(Get(entities, "data"));
    assert Get(c, "nome") == CleanText(Get(entities, "nome"));
    assert Get(c, "telefone") == CleanPhone(Get(entities, "telefone"));
    assert Get(c, "email") == CleanEmail(Get(entities, "email"));
    assert Get(c, "motivo") == CleanText(Get(entities, "motivo"));
    assert Get(c, "data") == CleanText(Get(entities, "data"));
  }

  /** Only the five fields matter: records that agree on them clean alike. */
  lemma CleanedIgnoresOtherKeys(a: Record, b: Record)
    requires forall k :: k in FieldSet ==> Get(a, k) == Get(b, k)
    ensures Cleaned(a) == Cleaned(b)
  {
    assert "nome" in FieldSet && "telefone" in FieldSet && "email" in FieldSet;
    assert "motivo" in FieldSet && "data" in FieldSet;
  }

  /** The fallback record cleans to itself. */
  lemma CleanedAllNull()
    ensures Cleaned(AllNull) == AllNull
  {
    AllNullShape();
  }

  // ---------------------------------------------------------------------
  // extract_entities
  // ---------------------------------------------------------------------

  /** The model runtime client: every prompt sent is logged, and the reply
      to a prompt is given by `reply` (a reply record, or the message of the
      exception the call raises). */
  class OllamaClient {
    var prompts: seq<string>
    const reply: string -> Result<Record, string>

    constructor(reply: string -> Result<Record, string>)
      ensures prompts == [] && this.reply == reply
    {
      prompts := [];
      this.reply := reply;
    }

    /** `generate(prompt)`. */
    method Generate(prompt: string) returns (r: Result<Record, string>)
      modifies this
      ensures prompts == old(prompts) + [prompt]
      ensures r == reply(prompt)
    {
      prompts := prompts + [prompt];
      r := reply(prompt);
    }
  }

  /** What `extract_entities(text)` returns or raises, given the rendering
      of prompts, the runtime's reply function and the JSON decoder. */
  function Extraction(text: string, render: string -> string,
                      reply: string -> Result<Record, string>,
                      decode: string -> Option<Record>): (r: Result<Record, ExtractError>)
    ensures r.Success? ==> r.value.Keys == FieldSet
  {
    if IsBlank(text) then Failure(TextEmpty)
    else if |text| > MaxTextLength then Failure(TextTooLong)
    else match reply(render(text))
      case Failure(e) => Failure(GenerateFailed(e))
      case Success(response) =>
        match ResponseText(response)
        case None => Failure(ResponseNotText)
        case Some(s) => Success(Cleaned(ParseEntities(s, decode)))
  }

  class EntityExtractor {
    const ollama: OllamaClient
    const render: string -> string
    const decode: string -> Option<Record>

    constructor(reply: string -> Result<Record, string>, render: string -> string,
                decode: string -> Option<Record>)
      ensures fresh(ollama) && ollama.prompts == [] && ollama.reply == reply
      ensures this.render == render && this.decode == decode
    {
      ollama := new OllamaClient(reply);
      this.render := render;
      this.decode := decode;
    }

    /** `extract_entities`: the guards first, then exactly one prompt sent. */
    method ExtractEntities(text: string) returns (r: Result<Record, ExtractError>)
      modifies ollama
      ensures r == Extraction(text, render, ollama.reply, decode)
      ensures r == Failure(TextEmpty) || r == Failure(TextTooLong) <==>
                ollama.prompts == old(ollama.prompts)
      ensures ollama.prompts != old(ollama.prompts) ==>
                ollama.prompts == old(ollama.prompts) + [render(text)]
    {
      if text == [] || |Strip(text)| == 0 {
        return Failure(TextEmpty);
      }
      if |text| > MaxTextLength {
        return Failure(TextTooLong);
      }
      var prompt := render(text);
      var response := ollama.Generate(prompt);
      if response.Failure? {
        return Failure(GenerateFailed(response.error));
      }
      var llmResponse := ResponseText(response.value);
      if llmResponse.None? {
        return Failure(ResponseNotText);
      }
      var entities := ParseEntities(llmResponse.value, decode);
      var validated := ValidateEntities(entities);
      return Success(validated);
    }
  }

  /** Whitespace-only text is refused as empty, however long it is: the
      emptiness guard comes first. */
  lemma BlankTextRejected(text: string, render: string -> string,
                          reply: string -> Result<Record, string>, decode: string -> Option<Record>)
    requires AllSpace(text)
    ensures Extraction(text, render, reply, decode) == Failure(TextEmpty)
  {
    BlankIff(text);
  }

  /** Text with content but longer than 2000 characters is refused as too
      long. */
  lemma LongTextRejected(text: string, render: string -> string,
                         reply: string -> Result<Record, string>, decode: string -> Option<Record>)
    requires !AllSpace(text) && |text| > MaxTextLength
    ensures Extraction(text, render, reply, decode) == Failure(TextTooLong)
  {
    BlankIff(text);
  }

  /** Text that passes both guards fails only when the runtime call or the
      reply's type fails; otherwise the result is a cleaned record. */
  lemma AcceptedTextOutcome(text: string, render: string -> string,
                            reply: string -> Result<Record, string>, decode: string -> Option<Record>)
    requires !AllSpace(text) && |text| <= MaxTextLength
    ensures reply(render(text)).Failure? ==>
              Extraction(text, render, reply, decode) == Failure(GenerateFailed(reply(render(text)).error))
    ensures reply(render(text)).Success? && ResponseText(reply(render(text)).value).Some? ==>
              Extraction(text, render, reply, decode).Success?
              && Cleaned(Extraction(text, render, reply, decode).value)
                 == Extraction(text, render, reply, decode).value
  {
    BlankIff(text);
    if reply(render(text)).Success? && ResponseText(reply(render(text)).value).Some? {
      CleanedIdempotent(ParseEntities(ResponseText(reply(render(text)).value).value, decode));
    }
  }

  /** A reply without a "response" key reads as the empty text, which gives
      the all-`None` record. */
  lemma MissingResponseAllNull(text: string, render: string -> string,
                               reply: string -> Result<Record, string>, decode: string -> Option<Record>)
    requires !AllSpace(text) && |text| <= MaxTextLength
    requires reply(render(text)).Success? && "response" !in reply(render(text)).value
    ensures Extraction(text, render, reply, decode) == Success(AllNull)
  {
    BlankIff(text);
    ParseNoBrace("", decode);
    CleanedAllNull();
  }
}
