/** The API's `LLMIntegration`: the extraction prompt, one request to the
    model runtime, and its own reading of the reply, which normalises only
    the phone and otherwise returns what was decoded.

    The HTTP exchange (`POST {base_url}/api/generate`, `raise_for_status`,
    `response.json()`) is a function from prompt to the decoded reply body or
    the message of the exception raised; `json.loads` is a function from text
    to an optional record. */
module LlmIntegration {
  import opened Values
  import opened Text
  import opened Phone
  import opened Entities

  // ---------------------------------------------------------------------
  // _build_extraction_prompt
  // ---------------------------------------------------------------------

  /** One line of the prompt's list of entities. */
  function FieldLine(name: string, description: string): string
  {
    "- " + name + ": " + description + "\n"
  }

  /** Each line of the list names its field. */
  lemma FieldLineNames(name: string, description: string)
    ensures Contains(FieldLine(name, description), name)
  {
    ContainsSelf(name);
    ContainsPrefix(name, name, ": " + description + "\n");
    ContainsSuffix("- ", name, name + ": " + description + "\n");
    assert "- " + name + ": " + description + "\n" == "- " + (name + (": " + description + "\n"));
  }

  const Intro: string :=
    "Você é um assistente especializado em extrair informações estruturadas de texto livre.\n"
    + "\nTarefa: Extraia as seguintes entidades do texto fornecido:\n"

  const NomeLine: string := FieldLine("nome", "Nome completo da pessoa")
  const TelefoneLine: string :=
    FieldLine("telefone", "Número de telefone no formato brasileiro (XX) XXXXX-XXXX")
  const EmailLine: string := FieldLine("email", "Email válido (opcional)")
  const MotivoLine: string :=
    FieldLine("motivo", "Motivo do contato (apoio emocional, orientação jurídica, etc.)")
  const DataLine: string := FieldLine("data", "Data do contato se mencionada (formato YYYY-MM-DD)")

  const InputHeading: string := "\nTexto de entrada:\n"

  /** Everything before the text. */
  const PromptHead: string :=
    Intro + NomeLine + TelefoneLine + EmailLine + MotivoLine + DataLine + InputHeading

  /** Everything after the text: the instructions and the output format. */
  const PromptTail: string :=
    "\n\nInstruções:\n"
    + "1. Extraia APENAS as entidades explicitamente mencionadas no texto\n"
    + "2. Se uma entidade não for mencionada, retorne null\n"
    + "3. Telefone deve estar no formato brasileiro: XX-XXXX-XXXX (sem parênteses)\n"
    + "4. Email deve ser válido (contendo @)\n"
    + "5. Retorne APENAS JSON válido, sem markdown, sem explicações\n"
    + "\nFormato de saída (JSON):\n"
    + "{\n"
    + "  \"nome\": \"...\",\n"
    + "  \"telefone\": \"...\",\n"
    + "  \"email\": \"...\" ou null,\n"
    + "  \"motivo\": \"...\",\n"
    + "  \"data\": \"...\" ou null\n"
    + "}\n"

  /** `_build_extraction_prompt(text)`: the text between a fixed head and
      tail. */
  function BuildExtractionPrompt(text: string): string
  {
    PromptHead + text + PromptTail
  }

  /** What lies between a known head and tail: for a prompt, the text it was
      built from. */
  function Between(p: string, head: string, tail: string): (text: string)
    requires |p| >= |head| + |tail|
    ensures |text| == |p| - |head| - |tail|
  {
    p[|head|..|p| - |tail|]
  }

  /** Text placed between a head and a tail can be cut out again. */
  lemma EmbedRoundTrip(head: string, text: string, tail: string)
    ensures |head + text + tail| >= |head| + |tail|
    ensures Between(head + text + tail, head, tail) == text
  {
  }

  /** Text placed between a head and a tail occurs in the result. */
  lemma EmbedContains(head: string, text: string, tail: string)
    ensures Contains(head + text + tail, text)
  {
    ContainsSelf(text);
    ContainsPrefix(text, text, tail);
    ContainsSuffix(head, text, text + tail);
    assert head + text + tail == head + (text + tail);
  }

  /** The text is embedded verbatim: it can be read back from the prompt, so
      different texts give different prompts. */
  lemma PromptTextRoundTrip(text: string, p: string)
    requires p == BuildExtractionPrompt(text)
    ensures |p| >= |PromptHead| + |PromptTail|
    ensures Between(p, PromptHead, PromptTail) == text
  {
    EmbedRoundTrip(PromptHead, text, PromptTail);
  }

  lemma PromptInjective(a: string, b: string)
    requires BuildExtractionPrompt(a) == BuildExtractionPrompt(b)
    ensures a == b
  {
    PromptTextRoundTrip(a, BuildExtractionPrompt(a));
    PromptTextRoundTrip(b, BuildExtractionPrompt(b));
  }

  /** The prompt contains the input text. */
  lemma PromptContainsText(text: string)
    ensures Contains(BuildExtractionPrompt(text), text)
  {
    EmbedContains(PromptHead, text, PromptTail);
  }

  lemma EitherSide(x: string, y: string, w: string)
    requires Contains(x, w) || Contains(y, w)
    ensures Contains(x + y, w)
  {
    if Contains(x, w) {
      ContainsPrefix(x, w, y);
    } else {
      ContainsSuffix(x, w, y);
    }
  }

  /** A word in one of the seven pieces of the head is in the prompt. */
  lemma InHeadPiece(i: string, a: string, b: string, c: string, d: string, e: string,
                    h: string, text: string, t: string, w: string)
    requires Contains(a, w) || Contains(b, w) || Contains(c, w) || Contains(d, w) || Contains(e, w)
    ensures Contains(i + a + b + c + d + e + h + text + t, w)
  {
    if Contains(a, w) {
      EitherSide(i, a, w);
    }
    if Contains(i + a, w) || Contains(b, w) {
      EitherSide(i + a, b, w);
    }
    if Contains(i + a + b, w) || Contains(c, w) {
      EitherSide(i + a + b, c, w);
    }
    if Contains(i + a + b + c, w) || Contains(d, w) {
      EitherSide(i + a + b + c, d, w);
    }
    EitherSide(i + a + b + c + d, e, w);
    EitherSide(i + a + b + c + d + e, h, w);
    EitherSide(i + a + b + c + d + e + h, text, w);
    EitherSide(i + a + b + c + d + e + h + text, t, w);
  }

  /** The prompt names the five fields. */
  lemma PromptNamesFields(text: string)
    ensures Contains(BuildExtractionPrompt(text), "nome")
    ensures Contains(BuildExtractionPrompt(text), "telefone")
    ensures Contains(BuildExtractionPrompt(text), "email")
    ensures Contains(BuildExtractionPrompt(text), "motivo")
    ensures Contains(BuildExtractionPrompt(text), "data")
  {
    PromptNamesNome(text);
    PromptNamesTelefone(text);
    PromptNamesEmail(text);
    PromptNamesMotivo(text);
    PromptNamesData(text);
  }

  lemma PromptNamesNome(text: string)
    ensures Contains(BuildExtractionPrompt(text), "nome")
  {
    FieldLineNames("nome", "Nome completo da pessoa");
    InHeadPiece(Intro, NomeLine, TelefoneLine, EmailLine, MotivoLine, DataLine,
                InputHeading, text, PromptTail, "nome");
  }

  lemma PromptNamesTelefone(text: string)
    ensures Contains(BuildExtractionPrompt(text), "telefone")
  {
    FieldLineNames("telefone", "Número de telefone no formato brasileiro (XX) XXXXX-XXXX");
    InHeadPiece(Intro, NomeLine, TelefoneLine, EmailLine, MotivoLine, DataLine,
                InputHeading, text, PromptTail, "telefone");
  }

  lemma PromptNamesEmail(text: string)
    ensures Contains(BuildExtractionPrompt(text), "email")
  {
    FieldLineNames("email", "Email válido (opcional)");
    InHeadPiece(Intro, NomeLine, TelefoneLine, EmailLine, MotivoLine, DataLine,
                InputHeading, text, PromptTail, "email");
  }

  lemma PromptNamesMotivo(text: string)
    ensures Contains(BuildExtractionPrompt(text), "motivo")
  {
    FieldLineNames("motivo", "Motivo do contato (apoio emocional, orientação jurídica, etc.)");
    InHeadPiece(Intro, NomeLine, TelefoneLine, EmailLine, MotivoLine, DataLine,
                InputHeading, text, PromptTail, "motivo");
  }

  lemma PromptNamesData(text: string)
    ensures Contains(BuildExtractionPrompt(text), "data")
  {
    FieldLineNames("data", "Data do contato se mencionada (formato YYYY-MM-DD)");
    InHeadPiece(Intro, NomeLine, TelefoneLine, EmailLine, MotivoLine, DataLine,
                InputHeading, text, PromptTail, "data");
  }

  // ---------------------------------------------------------------------
  // _parse_entities
  // ---------------------------------------------------------------------

  /** Why `extract_entities` raises: the request failed (connection, HTTP
      status or body decoding), the reply's "response" is not a string
      (`re.search` raises `TypeError`), or a truthy phone is not a string
      (`filter` over it raises `TypeError`). */
  datatype LlmError = RequestFailed(reason: string) | ResponseNotText | PhoneNotText

  /** The in-place phone update of a decoded record: a truthy "telefone" is
      normalised, everything else is left as decoded. */
  function NormalizeTelefone(entities: Record): (r: Result<Record, LlmError>)
    ensures r.Failure? <==> Truthy(Get(entities, "telefone")) && !Get(entities, "telefone").Str?
    ensures r.Failure? ==> r.error == PhoneNotText
    ensures r.Success? ==> r.value.Keys == entities.Keys
    ensures r.Success? ==> forall k :: k in entities && k != "telefone" ==> r.value[k] == entities[k]
    ensures r.Success? && Truthy(Get(entities, "telefone")) ==>
              r.value["telefone"] == Str(NormalizePhone(entities["telefone"].s))
    ensures r.Success? && !Truthy(Get(entities, "telefone")) ==> r.value == entities
  {
    var t := Get(entities, "telefone");
    if !Truthy(t) then Success(entities)
    else if t.Str? then Success(entities["telefone" := Str(NormalizePhone(t.s))])
    else Failure(PhoneNotText)
  }

  /** What `_parse_entities(response)` returns or raises: the all-`None`
      record when there is no span or it does not decode. */
  function Parsed(response: string, decode: string -> Option<Record>): (r: Result<Record, LlmError>)
    ensures JsonSpan(response).None? ==> r == Success(AllNull)
    ensures JsonSpan(response).Some? && decode(JsonSpan(response).value).None? ==> r == Success(AllNull)
    ensures JsonSpan(response).Some? && decode(JsonSpan(response).value).Some? ==>
              r == NormalizeTelefone(decode(JsonSpan(response).value).value)
  {
    match JsonSpan(response)
    case None => Success(AllNull)
    case Some(span) =>
      match decode(span)
      case None => Success(AllNull)
      case Some(entities) => NormalizeTelefone(entities)
  }

  /** A second pass of the phone update changes nothing. */
  lemma NormalizeTelefoneIdempotent(entities: Record)
    requires NormalizeTelefone(entities).Success?
    ensures NormalizeTelefone(NormalizeTelefone(entities).value) == NormalizeTelefone(entities)
  {
    var t := Get(entities, "telefone");
    if Truthy(t) {
      var r := NormalizeTelefone(entities).value;
      NormalizeShape(t.s);
      NormalizeIdempotent(t.s);
      assert Get(r, "telefone") == Str(NormalizePhone(t.s)) && NormalizePhone(t.s) != [];
      assert r["telefone" := Str(NormalizePhone(NormalizePhone(t.s)))] == r;
    }
  }

  /** A phone that the update touches keeps its digits, and is in canonical
      form when it has 10 or 11 of them. */
  lemma NormalizeTelefoneDigits(entities: Record)
    requires Get(entities, "telefone").Str? && Get(entities, "telefone").s != []
    ensures NormalizeTelefone(entities).Success?
    ensures |Digits(entities["telefone"].s)| in {10, 11} ==>
              IsCanonical(NormalizeTelefone(entities).value["telefone"].s)
    ensures Digits(NormalizeTelefone(entities).value["telefone"].s) == Digits(entities["telefone"].s)
  {
    NormalizeShape(entities["telefone"].s);
  }

  /** The sample reply of the test suite keeps its already canonical phone. */
  lemma CanonicalPhoneKept(entities: Record)
    requires Get(entities, "telefone").Str? && IsCanonical(Get(entities, "telefone").s)
    ensures NormalizeTelefone(entities) == Success(entities)
  {
    CanonicalIsFixedPoint(entities["telefone"].s);
    assert entities["telefone" := entities["telefone"]] == entities;
  }

  // ---------------------------------------------------------------------
  // extract_entities
  // ---------------------------------------------------------------------

  /** What `extract_entities(text)` returns or raises, one attempt. */
  function Extraction(text: string, post: string -> Result<Record, string>,
                      decode: string -> Option<Record>): (r: Result<Record, LlmError>)
    ensures post(BuildExtractionPrompt(text)).Failure? ==>
              r == Failure(RequestFailed(post(BuildExtractionPrompt(text)).error))
  {
    match post(BuildExtractionPrompt(text))
    case Failure(e) => Failure(RequestFailed(e))
    case Success(result) =>
      match ResponseText(result)
      case None => Failure(ResponseNotText)
      case Some(s) => Parsed(s, decode)
  }

  /** A reply body without "response" gives the all-`None` record. */
  lemma MissingResponseAllNull(text: string, post: string -> Result<Record, string>,
                               decode: string -> Option<Record>)
    requires post(BuildExtractionPrompt(text)).Success?
    requires "response" !in post(BuildExtractionPrompt(text)).value
    ensures Extraction(text, post, decode) == Success(AllNull)
  {
    NoBraceNoSpan("");
  }

  class LLMIntegration {
    /** The prompts sent, in order. */
    var prompts: seq<string>
    const post: string -> Result<Record, string>
    const decode: string -> Option<Record>

    constructor(post: string -> Result<Record, string>, decode: string -> Option<Record>)
      ensures prompts == [] && this.post == post && this.decode == decode
    {
      prompts := [];
      this.post := post;
      this.decode := decode;
    }

    /** `_parse_entities`, updating the decoded record in place. */
    method ParseEntities(response: string) returns (r: Result<Record, LlmError>)
      ensures r == Parsed(response, decode)
    {
      var jsonMatch := JsonSpan(response);
      if jsonMatch.Some? {
        var decoded := decode(jsonMatch.value);
        if decoded.Some? {
          var entities := decoded.value;
          if Truthy(Get(entities, "telefone")) {
            var telefone := entities["telefone"];
            if !telefone.Str? {
              return Failure(PhoneNotText);
            }
            entities := entities["telefone" := Str(NormalizePhone(telefone.s))];
          }
          return Success(entities);
        }
      }
      return Success(AllNull);
    }

    /** `extract_entities`: one prompt sent, the reply parsed. */
    method ExtractEntities(text: string) returns (r: Result<Record, LlmError>)
      modifies this
      ensures prompts == old(prompts) + [BuildExtractionPrompt(text)]
      ensures r == Extraction(text, post, decode)
    {
      var prompt := BuildExtractionPrompt(text);
      prompts := prompts + [prompt];
      var result := post(prompt);
      if result.Failure? {
        return Failure(RequestFailed(result.error));
      }
      var response := ResponseText(result.value);
      if response.None? {
        return Failure(ResponseNotText);
      }
      r := ParseEntities(response.value);
    }
  }
}
