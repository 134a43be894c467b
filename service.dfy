/** The API's `ContatoService`: the decisions of `create_contato` and
    `update_contato` around the repository and the LLM integration, and the
    two operations that only delegate. */
module Service {
  import opened Values
  import opened Repository
  import opened LlmIntegration

  /** The body of a create request (`ContatoCreate`). */
  datatype ContatoCreate = ContatoCreate(nome: Option<string>, telefone: Option<string>,
                                         email: Option<string>, motivo: Option<string>,
                                         textoLivre: Option<string>)

  /** Why a service operation raises `ValueError`, or, for `Integrity`, why
      the database refused the insert. */
  datatype ServiceError = DuplicatePhone | LlmFailed(cause: LlmError) | MissingFields | Integrity(reason: string)

  /** `str(e)` for an extraction failure.  For the two `TypeError`s Python
      also names the offending type, which is not modelled. */
  function Describe(e: LlmError): string {
    match e
    case RequestFailed(reason) => reason
    case ResponseNotText => "expected string or bytes-like object"
    case PhoneNotText => "object is not iterable"
  }

  /** The messages of the service's `ValueError`s. */
  function Message(e: ServiceError): (m: string)
    requires !e.Integrity?
  {
    match e
    case DuplicatePhone => "Contact with this phone number already exists"
    case LlmFailed(cause) =>
      "LLM extraction failed: " + Describe(cause) + ". Please provide explicit fields (nome, telefone, motivo)."
    case MissingFields => "Nome, telefone and motivo are required"
  }

  /** `data.telefone or ""`: the phone looked up before anything else. */
  function LookupPhone(data: ContatoCreate): Val {
    Str(data.telefone.GetOr(""))
  }

  /** `data.texto_livre and not data.nome`: the LLM path. */
  predicate UsesLlm(data: ContatoCreate) {
    Truthy(OptStr(data.textoLivre)) && !Truthy(OptStr(data.nome))
  }

  /** `all([data.nome, data.telefone, data.motivo])`. */
  predicate RequiredGiven(data: ContatoCreate) {
    Truthy(OptStr(data.nome)) && Truthy(OptStr(data.telefone)) && Truthy(OptStr(data.motivo))
  }

  /** The record of the manual path. */
  function ManualRecord(data: ContatoCreate): Record {
    map["nome" := OptStr(data.nome), "telefone" := OptStr(data.telefone),
        "email" := OptStr(data.email), "motivo" := OptStr(data.motivo)]
  }

  /** The record of the LLM path.  The entities themselves go under
      "metadata", a name every mapped class has (its table metadata), so the
      constructor accepts it; it is not a column and is not stored. */
  function LlmRecord(entities: Record): Record {
    map["nome" := Get(entities, "nome"), "telefone" := Get(entities, "telefone"),
        "email" := Get(entities, "email"), "motivo" := Get(entities, "motivo"),
        "metadata" := Other(entities != map[]), "status_mcp" := Str("pendente")]
  }

  /** What `create_contato` decides before inserting: the record to insert,
      or the error it raises.  `duplicate` says whether the lookup of
      `LookupPhone(data)` found a row; `extraction` is what the LLM
      integration gives for the free text. */
  function CreatePlan(duplicate: bool, data: ContatoCreate,
                      extraction: Result<Record, LlmError>): (r: Result<Record, ServiceError>)
    ensures r.Success? ==> !duplicate
    ensures r == Failure(MissingFields) ==> !UsesLlm(data) && !RequiredGiven(data)
    ensures r.Failure? && r.error.LlmFailed? ==> UsesLlm(data) && extraction == Failure(r.error.cause)
    ensures !r.Failure? || !r.error.Integrity?
  {
    if duplicate then Failure(DuplicatePhone)
    else if UsesLlm(data) then
      match extraction
      case Failure(e) => Failure(LlmFailed(e))
      case Success(entities) => Success(LlmRecord(entities))
    else if !RequiredGiven(data) then Failure(MissingFields)
    else Success(ManualRecord(data))
  }

  /** A known phone is refused before anything else is looked at. */
  lemma DuplicateRefusedFirst(data: ContatoCreate, extraction: Result<Record, LlmError>)
    ensures CreatePlan(true, data, extraction) == Failure(DuplicatePhone)
  {
  }

  /** The outcomes of the two paths. */
  lemma PlanPaths(data: ContatoCreate, extraction: Result<Record, LlmError>)
    ensures UsesLlm(data) && extraction.Failure? ==>
              CreatePlan(false, data, extraction) == Failure(LlmFailed(extraction.error))
    ensures UsesLlm(data) && extraction.Success? ==>
              CreatePlan(false, data, extraction) == Success(LlmRecord(extraction.value))
    ensures !UsesLlm(data) ==>
              (CreatePlan(false, data, extraction).Success? <==> RequiredGiven(data))
  {
  }

  /** The manual path's check is the table's NOT NULL rule and more: what it
      lets through never fails the insert, and is stored as given, with
      status "pendente" and no extra data. */
  lemma ManualRecordStored(data: ContatoCreate)
    requires RequiredGiven(data)
    ensures !InsertFails(ManualRecord(data))
    ensures Stored(ManualRecord(data)) ==
              map["nome" := OptStr(data.nome), "telefone" := OptStr(data.telefone),
                  "email" := OptStr(data.email), "motivo" := OptStr(data.motivo),
                  "status_mcp" := Str("pendente"), "extra_data" := Null]
  {
  }

  /** The LLM path is not checked: an extraction without a name reaches the
      insert and fails there, and the extracted entities are never stored. */
  lemma LlmRecordStored(entities: Record)
    ensures InsertFails(LlmRecord(entities)) <==>
              Get(entities, "nome") == Null || Get(entities, "telefone") == Null
              || Get(entities, "motivo") == Null
    ensures Stored(LlmRecord(entities))["status_mcp"] == Str("pendente")
    ensures Stored(LlmRecord(entities))["extra_data"] == Null
    ensures Stored(LlmRecord(entities))["telefone"] == Get(entities, "telefone")
  {
  }

  /** `update_contato`'s phone rule: a conflict is reported when telefone is
      among the fields sent and the first row holding that phone is another
      contact. */
  predicate UpdateConflict(rows: seq<Contato>, id: int, data: Record) {
    && "telefone" in data
    && IndexOfPhone(rows, data["telefone"]).Some?
    && rows[IndexOfPhone(rows, data["telefone"]).value].id != id
  }

  /** A contact may keep, or re-send, its own phone; only a phone held by
      another contact is a conflict. */
  lemma UpdateConflictMeans(rows: seq<Contato>, id: int, data: Record)
    ensures "telefone" !in data ==> !UpdateConflict(rows, id, data)
    ensures UpdateConflict(rows, id, data) ==>
              exists c :: c in rows && c.id != id && Get(c.fields, "telefone") == data["telefone"]
    ensures "telefone" in data
            && (forall c :: c in rows && Get(c.fields, "telefone") == data["telefone"] ==> c.id == id)
            ==> !UpdateConflict(rows, id, data)
  {
  }

  class ContatoService {
    const repository: ContatoRepository
    const llm: LLMIntegration

    constructor(post: string -> Result<Record, string>, decode: string -> Option<Record>)
      ensures fresh(repository) && fresh(llm)
      ensures repository.Valid() && repository.rows == [] && llm.prompts == []
      ensures llm.post == post && llm.decode == decode
    {
      repository := new ContatoRepository();
      llm := new LLMIntegration(post, decode);
    }

    /** `create_contato`. */
    method CreateContato(data: ContatoCreate) returns (r: Result<Contato, ServiceError>)
      requires repository.Valid()
      modifies repository, llm
      ensures repository.Valid()
      ensures var plan := CreatePlan(old(repository.GetByTelefone(LookupPhone(data))).Some?, data,
                                     Extraction(data.textoLivre.GetOr(""), llm.post, llm.decode));
              && (plan.Failure? ==> r == Failure(plan.error))
              && (plan.Success? && InsertFails(plan.value) ==> r.Failure? && r.error.Integrity?)
              && (r.Failure? ==> repository.rows == old(repository.rows)
                                 && repository.nextId == old(repository.nextId))
              && (plan.Success? && !InsertFails(plan.value) ==>
                    r == Success(Contato(old(repository.nextId), Stored(plan.value)))
                    && repository.rows == old(repository.rows) + [r.value]
                    && repository.nextId == old(repository.nextId) + 1)
      ensures old(repository.GetByTelefone(LookupPhone(data))).None? && UsesLlm(data) ==>
                llm.prompts == old(llm.prompts) + [BuildExtractionPrompt(data.textoLivre.value)]
      ensures !(old(repository.GetByTelefone(LookupPhone(data))).None? && UsesLlm(data)) ==>
                llm.prompts == old(llm.prompts)
    {
      var existing := repository.GetByTelefone(LookupPhone(data));
      if existing.Some? {
        return Failure(DuplicatePhone);
      }
      var contatoData: Record;
      if UsesLlm(data) {
        var entities := llm.ExtractEntities(data.textoLivre.value);
        if entities.Failure? {
          return Failure(LlmFailed(entities.error));
        }
        contatoData := LlmRecord(entities.value);
      } else {
        if !RequiredGiven(data) {
          return Failure(MissingFields);
        }
        contatoData := ManualRecord(data);
      }
      var contato := repository.Create(contatoData);
      if contato.Failure? {
        return Failure(Integrity(contato.error));
      }
      return Success(contato.value);
    }

    /** `get_contato`. */
    method GetContato(id: int) returns (r: Option<Contato>)
      ensures r == repository.Get(id)
      ensures r.Some? ==> r.value.id == id
    {
      r := repository.Get(id);
    }

    /** `update_contato`: the phone rule, then the repository's update;
        `None` when the id is missing. */
    method UpdateContato(id: int, data: Record) returns (r: Result<Option<Contato>, ServiceError>)
      requires repository.Valid()
      modifies repository
      ensures repository.Valid()
      ensures repository.nextId == old(repository.nextId)
      ensures r.Failure? <==> UpdateConflict(old(repository.rows), id, data)
      ensures r.Failure? ==> r.error == DuplicatePhone && repository.rows == old(repository.rows)
      ensures r.Success? && IndexOfId(old(repository.rows), id).None? ==>
                r.value.None? && repository.rows == old(repository.rows)
      ensures r.Success? && IndexOfId(old(repository.rows), id).Some? ==>
                var i := IndexOfId(old(repository.rows), id).value;
                r.value == Some(Contato(id, Patched(old(repository.rows)[i].fields, data)))
                && repository.rows == old(repository.rows)[i := r.value.value]
    {
      if "telefone" in data {
        var existing := repository.GetByTelefone(data["telefone"]);
        if existing.Some? && existing.value.id != id {
          return Failure(DuplicatePhone);
        }
      }
      var contato := repository.Update(id, data);
      return Success(contato);
    }

    /** `delete_contato`: the repository's answer. */
    method DeleteContato(id: int) returns (deleted: bool)
      requires repository.Valid()
      modifies repository
      ensures repository.Valid()
      ensures deleted <==> old(repository.Get(id)).Some?
      ensures repository.nextId == old(repository.nextId)
      ensures !deleted ==> repository.rows == old(repository.rows)
      ensures deleted ==> var i := IndexOfId(old(repository.rows), id).value;
                          repository.rows == old(repository.rows)[..i] + old(repository.rows)[i + 1..]
      ensures deleted ==> repository.Count() == old(repository.Count()) - 1
      ensures repository.Get(id).None?
    {
      deleted := repository.Delete(id);
    }
  }
}
