/** `DataValidator`: checks a contact record field by field, returns the
    corrected record and the error messages in check order, and scores how
    complete an extracted record is. */
module Validator {
  import opened Values
  import opened Text
  import opened Phone
  import opened Entities

  /** The six things the validator can report, in the order of the checks. */
  datatype Issue = NomeTooShort | TelefoneMissing | TelefoneBadFormat
                 | EmailInvalid | MotivoTooShort | DataInvalid

  /** The message the validator appends for an issue. */
  function Message(i: Issue): (m: string)
    ensures |m| > 0
  {
    match i
    case NomeTooShort => "Nome deve ter pelo menos 2 caracteres"
    case TelefoneMissing => "Telefone é obrigatório"
    case TelefoneBadFormat => "Telefone deve estar no formato XX-XXXX-XXXX"
    case EmailInvalid => "Email deve ter formato válido"
    case MotivoTooShort => "Motivo deve ter pelo menos 3 caracteres"
    case DataInvalid => "Data deve estar no formato YYYY-MM-DD"
  }

  /** Different issues have different messages, so the message list tells
      which checks failed. */
  lemma MessageInjective(i: Issue, j: Issue)
    ensures Message(i) == Message(j) ==> i == j
  {
    MessageMarks(i);
    MessageMarks(j);
  }

  /** The length and the last character tell the messages apart. */
  lemma MessageMarks(i: Issue)
    ensures (|Message(i)|, Message(i)[|Message(i)| - 1]) == match i
      case NomeTooShort => (37, 's')
      case TelefoneMissing => (22, 'o')
      case TelefoneBadFormat => (43, 'X')
      case EmailInvalid => (29, 'o')
      case MotivoTooShort => (39, 's')
      case DataInvalid => (37, 'D')
  {
  }

  /** The position in `Fields` of the field an issue is about. */
  function FieldOf(i: Issue): (k: nat)
    ensures k < 5
  {
    match i
    case NomeTooShort => 0
    case TelefoneMissing => 1
    case TelefoneBadFormat => 1
    case EmailInvalid => 2
    case MotivoTooShort => 3
    case DataInvalid => 4
  }

  /** The messages of a list of issues, in the same order. */
  function MessagesOf(issues: seq<Issue>): (r: seq<string>)
    ensures |r| == |issues|
    ensures forall k :: 0 <= k < |issues| ==> r[k] == Message(issues[k])
  {
    seq(|issues|, k requires 0 <= k < |issues| => Message(issues[k]))
  }

  // ---------------------------------------------------------------------
  // The e-mail and date patterns

  predicate IsLetter(c: char) {
    'a' <= c <= 'z' || 'A' <= c <= 'Z'
  }

  /** `[a-zA-Z0-9._%+-]` */
  predicate IsLocalChar(c: char) {
    IsLetter(c) || IsDigit(c) || c == '.' || c == '_' || c == '%' || c == '+' || c == '-'
  }

  /** `[a-zA-Z0-9.-]` */
  predicate IsDomainChar(c: char) {
    IsLetter(c) || IsDigit(c) || c == '.' || c == '-'
  }

  /** One way of matching `[a-zA-Z0-9._%+-]+@[a-zA-Z0-9.-]+\.[a-zA-Z]{2,}`
      against all of `s`: the `@` at `at` and the literal `\.` at `dot`. */
  predicate EmailSplit(s: string, at: int, dot: int) {
    && 0 < at && at + 1 < dot && dot + 2 < |s|
    && s[at] == '@' && s[dot] == '.'
    && (forall k :: 0 <= k < at ==> IsLocalChar(s[k]))
    && (forall k :: at < k < dot ==> IsDomainChar(s[k]))
    && (forall k :: dot < k < |s| ==> IsLetter(s[k]))
  }

  /** The regular-expression reading: some split matches. */
  ghost predicate EmailRegex(s: string) {
    exists at, dot :: EmailSplit(s, at, dot)
  }

  /** The recogniser the validator runs: the only possible split has the
      `@` at the first `@` and the dot at the last `.`. */
  predicate IsEmailShape(s: string) {
    match FirstIndex(s, '@')
    case None => false
    case Some(at) =>
      match LastIndex(s, '.')
      case None => false
      case Some(dot) => EmailSplit(s, at, dot)
  }

  /** The recogniser accepts exactly the strings the pattern matches. */
  lemma EmailShapeIsRegex(s: string)
    ensures IsEmailShape(s) <==> EmailRegex(s)
  {
    if EmailRegex(s) {
      var at, dot :| EmailSplit(s, at, dot);
      assert !IsLocalChar('@') && !IsLetter('.');
      assert FirstIndex(s, '@') == Some(at);
      assert LastIndex(s, '.') == Some(dot);
    }
  }

  /** `email_pattern.match(s)`: Python's `$` also matches before a final newline. */
  predicate EmailPatternMatches(s: string) {
    IsEmailShape(s) || (|s| > 0 && s[|s| - 1] == '\n' && IsEmailShape(s[..|s| - 1]))
  }

  /** `date_pattern.match(s)` for `^\d{4}-\d{2}-\d{2}$`: a shape check only. */
  predicate DatePatternMatches(s: string) {
    DashedDigits(s, 4, 2, 2) || (|s| > 0 && s[|s| - 1] == '\n' && DashedDigits(s[..|s| - 1], 4, 2, 2))
  }

  // ---------------------------------------------------------------------
  // The five field rules

  /** The outcome of checking one field: its corrected value and at most one issue. */
  datatype FieldCheck = FieldCheck(value: Val, issue: Option<Issue>)

  function IssueList(c: FieldCheck): (r: seq<Issue>)
    ensures |r| <= 1
    ensures c.issue.Some? ==> r == [c.issue.value]
    ensures c.issue.None? ==> r == []
  {
    match c.issue
    case None => []
    case Some(i) => [i]
  }

  /** nome: a string whose stripped length is at least 2. */
  function CheckNome(v: Val): (c: FieldCheck)
    ensures c.issue.None? <==> v.Str? && |Strip(v.s)| >= 2
    ensures c.issue.None? ==> c.value == Str(Strip(v.s))
    ensures c.issue.Some? ==> c == FieldCheck(Null, Some(NomeTooShort))
  {
    if !Truthy(v) || !v.Str? || |Strip(v.s)| < 2 then FieldCheck(Null, Some(NomeTooShort))
    else FieldCheck(Str(Strip(v.s)), None)
  }

  /** telefone: required; normalised with the shared normaliser, then matched. */
  function CheckTelefone(v: Val): (c: FieldCheck)
    ensures !(v.Str? && v.s != "") <==> c == FieldCheck(Null, Some(TelefoneMissing))
    ensures v.Str? && v.s != "" ==>
              (c.issue.None? <==> PhonePatternMatches(NormalizePhone(v.s)))
    ensures c.issue.None? ==> c.value == Str(NormalizePhone(v.s))
    ensures c.issue.Some? ==> c.value == Null && c.issue.value in {TelefoneMissing, TelefoneBadFormat}
  {
    if !Truthy(v) || !v.Str? then FieldCheck(Null, Some(TelefoneMissing))
    else
      var normalized := NormalizePhone(v.s);
      if !PhonePatternMatches(normalized) then FieldCheck(Null, Some(TelefoneBadFormat))
      else FieldCheck(Str(normalized), None)
  }

  /** email: optional; when given, stripped, lower-cased and matched. */
  function CheckEmail(v: Val): (c: FieldCheck)
    ensures !(v.Str? && Strip(v.s) != "") ==> c == FieldCheck(Null, None)
    ensures v.Str? && Strip(v.s) != "" ==>
              (c.issue.None? <==> EmailPatternMatches(Lower(Strip(v.s))))
    ensures c.issue.Some? ==> c == FieldCheck(Null, Some(EmailInvalid))
    ensures c.value != Null ==> v.Str? && c.value == Str(Lower(Strip(v.s)))
  {
    if Truthy(v) && v.Str? && Strip(v.s) != "" then
      var email := Lower(Strip(v.s));
      if !EmailPatternMatches(email) then FieldCheck(Null, Some(EmailInvalid))
      else FieldCheck(Str(email), None)
    else FieldCheck(Null, None)
  }

  /** motivo: a string whose stripped length is at least 3. */
  function CheckMotivo(v: Val): (c: FieldCheck)
    ensures c.issue.None? <==> v.Str? && |Strip(v.s)| >= 3
    ensures c.issue.None? ==> c.value == Str(Strip(v.s))
    ensures c.issue.Some? ==> c == FieldCheck(Null, Some(MotivoTooShort))
  {
    if !Truthy(v) || !v.Str? || |Strip(v.s)| < 3 then FieldCheck(Null, Some(MotivoTooShort))
    else FieldCheck(Str(Strip(v.s)), None)
  }

  /** data: optional; when given, stripped and matched against `YYYY-MM-DD`. */
  function CheckData(v: Val): (c: FieldCheck)
    ensures !(v.Str? && Strip(v.s) != "") ==> c == FieldCheck(Null, None)
    ensures v.Str? && Strip(v.s) != "" ==>
              (c.issue.None? <==> DatePatternMatches(Strip(v.s)))
    ensures c.issue.Some? ==> c == FieldCheck(Null, Some(DataInvalid))
    ensures c.value != Null ==> v.Str? && c.value == Str(Strip(v.s))
  {
    if Truthy(v) && v.Str? && Strip(v.s) != "" then
      var date := Strip(v.s);
      if !DatePatternMatches(date) then FieldCheck(Null, Some(DataInvalid))
      else FieldCheck(Str(date), None)
    else FieldCheck(Null, None)
  }

  datatype ValidationResult = ValidationResult(isValid: bool, corrected: Record, issues: seq<Issue>)
  {
    /** The `errors` list: the message of each issue, in order. */
    function Errors(): seq<string> {
      MessagesOf(issues)
    }
  }

  /** The result built from the five checks: the issues concatenated in
      check order, the five corrected values under their keys. */
  function Assemble(nome: FieldCheck, telefone: FieldCheck, email: FieldCheck,
                    motivo: FieldCheck, date: FieldCheck): ValidationResult
  {
    var issues := IssueList(nome) + IssueList(telefone) + IssueList(email)
                  + IssueList(motivo) + IssueList(date);
    ValidationResult(
      issues == [],
      map["nome" := nome.value, "telefone" := telefone.value, "email" := email.value,
          "motivo" := motivo.value, "data" := date.value],
      issues)
  }

  /** What `validate_contact_data` returns for `data`: each field checked on its own. */
  function Validation(data: Record): ValidationResult
  {
    Assemble(CheckNome(Get(data, "nome")), CheckTelefone(Get(data, "telefone")),
             CheckEmail(Get(data, "email")), CheckMotivo(Get(data, "motivo")),
             CheckData(Get(data, "data")))
  }

  // `validate_contact_data` works through the fields one block at a time;
  // each block below appends its message, if any, to the errors so far and
  // yields the field's corrected value.

  method ValidateNome(data: Record, errors: seq<string>) returns (value: Val, errors': seq<string>)
    ensures value == CheckNome(Get(data, "nome")).value
    ensures errors' == errors + MessagesOf(IssueList(CheckNome(Get(data, "nome"))))
  {
    var nome := Get(data, "nome");
    if !Truthy(nome) || !nome.Str? || |Strip(nome.s)| < 2 {
      errors' := errors + [Message(NomeTooShort)];
      value := Null;
    } else {
      errors' := errors;
      value := Str(Strip(nome.s));
    }
  }

  method ValidateTelefone(data: Record, errors: seq<string>) returns (value: Val, errors': seq<string>)
    ensures value == CheckTelefone(Get(data, "telefone")).value
    ensures errors' == errors + MessagesOf(IssueList(CheckTelefone(Get(data, "telefone"))))
  {
    var telefone := Get(data, "telefone");
    if !Truthy(telefone) || !telefone.Str? {
      errors' := errors + [Message(TelefoneMissing)];
      value := Null;
    } else {
      var normalizedPhone := NormalizePhone(telefone.s);
      if !PhonePatternMatches(normalizedPhone) {
        errors' := errors + [Message(TelefoneBadFormat)];
        value := Null;
      } else {
        errors' := errors;
        value := Str(normalizedPhone);
      }
    }
  }

  method ValidateEmail(data: Record, errors: seq<string>) returns (value: Val, errors': seq<string>)
    ensures value == CheckEmail(Get(data, "email")).value
    ensures errors' == errors + MessagesOf(IssueList(CheckEmail(Get(data, "email"))))
  {
    var email := Get(data, "email");
    errors' := errors;
    if Truthy(email) && email.Str? && Strip(email.s) != "" {
      var cleaned := Lower(Strip(email.s));
      if !EmailPatternMatches(cleaned) {
        errors' := errors + [Message(EmailInvalid)];
        value := Null;
      } else {
        value := Str(cleaned);
      }
    } else {
      value := Null;
    }
  }

  method ValidateMotivo(data: Record, errors: seq<string>) returns (value: Val, errors': seq<string>)
    ensures value == CheckMotivo(Get(data, "motivo")).value
    ensures errors' == errors + MessagesOf(IssueList(CheckMotivo(Get(data, "motivo"))))
  {
    var motivo := Get(data, "motivo");
    if !Truthy(motivo) || !motivo.Str? || |Strip(motivo.s)| < 3 {
      errors' := errors + [Message(MotivoTooShort)];
      value := Null;
    } else {
      errors' := errors;
      value := Str(Strip(motivo.s));
    }
  }

  method ValidateData(data: Record, errors: seq<string>) returns (value: Val, errors': seq<string>)
    ensures value == CheckData(Get(data, "data")).value
    ensures errors' == errors + MessagesOf(IssueList(CheckData(Get(data, "data"))))
  {
    var dataContato := Get(data, "data");
    errors' := errors;
    if Truthy(dataContato) && dataContato.Str? && Strip(dataContato.s) != "" {
      var date := Strip(dataContato.s);
      if !DatePatternMatches(date) {
        errors' := errors + [Message(DataInvalid)];
        value := Null;
      } else {
        value := Str(date);
      }
    } else {
      value := Null;
    }
  }

  /** `validate_contact_data`: the five blocks in order, the errors list
      growing by appending, each corrected value stored under its key. */
  method ValidateContactData(data: Record) returns (isValid: bool, corrected: Record, errors: seq<string>)
    ensures isValid == Validation(data).isValid
    ensures corrected == Validation(data).corrected
    ensures errors == Validation(data).Errors()
    ensures isValid <==> errors == []
  {
    errors := [];
    corrected := map[];
    var value: Val;
    value, errors := ValidateNome(data, errors);
    corrected := corrected["nome" := value];
    value, errors := ValidateTelefone(data, errors);
    corrected := corrected["telefone" := value];
    value, errors := ValidateEmail(data, errors);
    corrected := corrected["email" := value];
    value, errors := ValidateMotivo(data, errors);
    corrected := corrected["motivo" := value];
    value, errors := ValidateData(data, errors);
    corrected := corrected["data" := value];
    isValid := |errors| == 0;
    EmptyAppend(MessagesOf(IssueList(CheckNome(Get(data, "nome")))));
    MessagesOfFive(IssueList(CheckNome(Get(data, "nome"))), IssueList(CheckTelefone(Get(data, "telefone"))),
                   IssueList(CheckEmail(Get(data, "email"))), IssueList(CheckMotivo(Get(data, "motivo"))),
                   IssueList(CheckData(Get(data, "data"))));
  }

  /** `is_valid` is `len(errors) == 0`. */
  lemma ValidIffNoErrors(data: Record)
    ensures Validation(data).isValid <==> Validation(data).Errors() == []
  {
  }

  lemma EmptyAppend(s: seq<string>)
    ensures [] + s == s
  {
  }

  lemma MessagesOfConcat(a: seq<Issue>, b: seq<Issue>)
    ensures MessagesOf(a + b) == MessagesOf(a) + MessagesOf(b)
  {
  }

  lemma MessagesOfFive(l0: seq<Issue>, l1: seq<Issue>, l2: seq<Issue>, l3: seq<Issue>, l4: seq<Issue>)
    ensures MessagesOf(l0 + l1 + l2 + l3 + l4)
            == MessagesOf(l0) + MessagesOf(l1) + MessagesOf(l2) + MessagesOf(l3) + MessagesOf(l4)
  {
    MessagesOfConcat(l0, l1);
    MessagesOfConcat(l0 + l1, l2);
    MessagesOfConcat(l0 + l1 + l2, l3);
    MessagesOfConcat(l0 + l1 + l2 + l3, l4);
  }

  // ---------------------------------------------------------------------
  // Properties of the validation

  /** What the five checks guarantee about their outcomes: each reports only
      its own issue, and a required field is `None` exactly when it reports. */
  predicate ChecksOk(nome: FieldCheck, telefone: FieldCheck, email: FieldCheck,
                     motivo: FieldCheck, date: FieldCheck)
  {
    && (nome.issue.Some? ==> nome.issue.value == NomeTooShort)
    && (nome.issue.Some? <==> nome.value == Null)
    && (telefone.issue.Some? ==> telefone.issue.value in {TelefoneMissing, TelefoneBadFormat})
    && (telefone.issue.Some? <==> telefone.value == Null)
    && (email.issue.Some? ==> email.issue.value == EmailInvalid && email.value == Null)
    && (motivo.issue.Some? ==> motivo.issue.value == MotivoTooShort)
    && (motivo.issue.Some? <==> motivo.value == Null)
    && (date.issue.Some? ==> date.issue.value == DataInvalid && date.value == Null)
  }

  lemma ChecksOkHold(v0: Val, v1: Val, v2: Val, v3: Val, v4: Val)
    ensures ChecksOk(CheckNome(v0), CheckTelefone(v1), CheckEmail(v2), CheckMotivo(v3), CheckData(v4))
  {
  }

  /** Issues strictly ordered by field, every field below `bound`. */
  predicate Ascending(issues: seq<Issue>, bound: nat) {
    && (forall k :: 0 <= k < |issues| ==> FieldOf(issues[k]) < bound)
    && (forall i, j :: 0 <= i < j < |issues| ==> FieldOf(issues[i]) < FieldOf(issues[j]))
  }

  lemma AscendingAppend(issues: seq<Issue>, bound: nat, c: FieldCheck)
    requires Ascending(issues, bound)
    requires c.issue.Some? ==> FieldOf(c.issue.value) == bound
    ensures Ascending(issues + IssueList(c), bound + 1)
  {
  }

  /** Five checks, each reporting only for its own field, give their issues
      in strictly increasing field order. */
  lemma AssembleAscending(c0: FieldCheck, c1: FieldCheck, c2: FieldCheck, c3: FieldCheck, c4: FieldCheck)
    requires ChecksOk(c0, c1, c2, c3, c4)
    ensures Ascending(Assemble(c0, c1, c2, c3, c4).issues, 5)
  {
    var l := IssueList(c0);
    AscendingAppend([], 0, c0);
    assert [] + l == l;
    AscendingAppend(l, 1, c1);
    l := l + IssueList(c1);
    AscendingAppend(l, 2, c2);
    l := l + IssueList(c2);
    AscendingAppend(l, 3, c3);
    l := l + IssueList(c3);
    AscendingAppend(l, 4, c4);
  }

  /** The shape of every result: at most one issue per field, and the issues
      in the order nome, telefone, email, motivo, data. */
  lemma ValidationShape(data: Record)
    ensures |Validation(data).issues| <= 5
    ensures forall i, j :: 0 <= i < j < |Validation(data).issues| ==>
              FieldOf(Validation(data).issues[i]) < FieldOf(Validation(data).issues[j])
  {
    var v0, v1, v2, v3, v4 := Get(data, "nome"), Get(data, "telefone"), Get(data, "email"),
                              Get(data, "motivo"), Get(data, "data");
    ChecksOkHold(v0, v1, v2, v3, v4);
    AssembleAscending(CheckNome(v0), CheckTelefone(v1), CheckEmail(v2), CheckMotivo(v3), CheckData(v4));
  }

  /** The corrected record always has exactly the five fields. */
  lemma CorrectedKeys(data: Record)
    ensures Validation(data).corrected.Keys == FieldSet
  {
  }

  /** A message is in a message list exactly when its issue is in the issue list. */
  lemma MessageInIff(issues: seq<Issue>, i: Issue)
    ensures Message(i) in MessagesOf(issues) <==> i in issues
  {
    if Message(i) in MessagesOf(issues) {
      var k :| 0 <= k < |issues| && MessagesOf(issues)[k] == Message(i);
      MessageInjective(i, issues[k]);
    }
  }

  /** A message is among the errors exactly when its issue was reported. */
  lemma ErrorMessageIff(data: Record, i: Issue)
    ensures Message(i) in Validation(data).Errors() <==> i in Validation(data).issues
  {
    MessageInIff(Validation(data).issues, i);
  }

  lemma AssembleMembers(c0: FieldCheck, c1: FieldCheck, c2: FieldCheck, c3: FieldCheck, c4: FieldCheck, i: Issue)
    ensures i in Assemble(c0, c1, c2, c3, c4).issues <==>
              c0.issue == Some(i) || c1.issue == Some(i) || c2.issue == Some(i)
              || c3.issue == Some(i) || c4.issue == Some(i)
  {
    var l0, l1, l2, l3, l4 := IssueList(c0), IssueList(c1), IssueList(c2), IssueList(c3), IssueList(c4);
    assert l0 + l1 + l2 + l3 + l4 == l0 + (l1 + (l2 + (l3 + l4)));
  }

  /** For the three required fields, the corrected value is `None` exactly
      when that field reported an issue; the optional ones are `None` when they
      report (and also when absent or blank, without an issue). */
  lemma AssembleRejected(c0: FieldCheck, c1: FieldCheck, c2: FieldCheck, c3: FieldCheck, c4: FieldCheck)
    requires ChecksOk(c0, c1, c2, c3, c4)
    ensures var r := Assemble(c0, c1, c2, c3, c4);
      && (NomeTooShort in r.issues <==> r.corrected["nome"] == Null)
      && ((TelefoneMissing in r.issues || TelefoneBadFormat in r.issues) <==> r.corrected["telefone"] == Null)
      && (MotivoTooShort in r.issues <==> r.corrected["motivo"] == Null)
      && (EmailInvalid in r.issues ==> r.corrected["email"] == Null)
      && (DataInvalid in r.issues ==> r.corrected["data"] == Null)
  {
    AssembleMembers(c0, c1, c2, c3, c4, NomeTooShort);
    AssembleMembers(c0, c1, c2, c3, c4, TelefoneMissing);
    AssembleMembers(c0, c1, c2, c3, c4, TelefoneBadFormat);
    AssembleMembers(c0, c1, c2, c3, c4, EmailInvalid);
    AssembleMembers(c0, c1, c2, c3, c4, MotivoTooShort);
    AssembleMembers(c0, c1, c2, c3, c4, DataInvalid);
  }

  lemma IssueIffRejected(data: Record)
    ensures NomeTooShort in Validation(data).issues <==> Validation(data).corrected["nome"] == Null
    ensures (TelefoneMissing in Validation(data).issues || TelefoneBadFormat in Validation(data).issues)
              <==> Validation(data).corrected["telefone"] == Null
    ensures MotivoTooShort in Validation(data).issues <==> Validation(data).corrected["motivo"] == Null
    ensures EmailInvalid in Validation(data).issues ==> Validation(data).corrected["email"] == Null
    ensures DataInvalid in Validation(data).issues ==> Validation(data).corrected["data"] == Null
  {
    var v0, v1, v2, v3, v4 := Get(data, "nome"), Get(data, "telefone"), Get(data, "email"),
                              Get(data, "motivo"), Get(data, "data");
    ChecksOkHold(v0, v1, v2, v3, v4);
    AssembleRejected(CheckNome(v0), CheckTelefone(v1), CheckEmail(v2), CheckMotivo(v3), CheckData(v4));
  }

  /** The phone rule end to end: a telefone is accepted exactly when it is a
      non-empty string with 10 or 11 digits, and then the corrected value is its
      normalised form. */
  lemma TelefoneAcceptedIff(data: Record)
    ensures Validation(data).corrected["telefone"] != Null <==>
              (Get(data, "telefone").Str? && Get(data, "telefone").s != ""
               && |Digits(Get(data, "telefone").s)| in {10, 11})
    ensures Validation(data).corrected["telefone"] != Null ==>
              Validation(data).corrected["telefone"] == Str(NormalizePhone(Get(data, "telefone").s))
  {
    var v := Get(data, "telefone");
    if v.Str? && v.s != "" {
      NormalizedMatchesIff(v.s);
    }
  }

  // Checking a corrected value again changes nothing, field by field.

  lemma NomeStable(v: Val)
    ensures CheckNome(CheckNome(v).value).value == CheckNome(v).value
    ensures CheckNome(v).issue.None? ==> CheckNome(CheckNome(v).value).issue.None?
  {
    if v.Str? { StripIdempotent(v.s); }
  }

  lemma TelefoneStable(v: Val)
    ensures CheckTelefone(CheckTelefone(v).value).value == CheckTelefone(v).value
    ensures CheckTelefone(v).issue.None? ==> CheckTelefone(CheckTelefone(v).value).issue.None?
  {
    if CheckTelefone(v).issue.None? {
      var n := NormalizePhone(v.s);
      NormalizeIdempotent(v.s);
      PatternHasTenOrElevenDigits(n);
    }
  }

  lemma EmailStable(v: Val)
    ensures CheckEmail(CheckEmail(v).value).value == CheckEmail(v).value
    ensures CheckEmail(v).issue.None? ==> CheckEmail(CheckEmail(v).value).issue.None?
  {
    if CheckEmail(v).value != Null {
      var e := Lower(Strip(v.s));
      StripIdempotent(v.s);
      LowerKeepsSpace(Strip(v.s));
      LowerIdempotent(Strip(v.s));
      assert Strip(e) == e;
      assert e != "" by { StripEmptyIff(v.s); }
    }
  }

  lemma MotivoStable(v: Val)
    ensures CheckMotivo(CheckMotivo(v).value).value == CheckMotivo(v).value
    ensures CheckMotivo(v).issue.None? ==> CheckMotivo(CheckMotivo(v).value).issue.None?
  {
    if v.Str? { StripIdempotent(v.s); }
  }

  lemma DataStable(v: Val)
    ensures CheckData(CheckData(v).value).value == CheckData(v).value
    ensures CheckData(v).issue.None? ==> CheckData(CheckData(v).value).issue.None?
  {
    if CheckData(v).value != Null {
      StripIdempotent(v.s);
    }
  }

  /** The corrected record holds the five checked values. */
  lemma CorrectedValues(data: Record)
    ensures Validation(data).corrected
            == map["nome" := CheckNome(Get(data, "nome")).value,
                   "telefone" := CheckTelefone(Get(data, "telefone")).value,
                   "email" := CheckEmail(Get(data, "email")).value,
                   "motivo" := CheckMotivo(Get(data, "motivo")).value,
                   "data" := CheckData(Get(data, "data")).value]
    ensures Validation(data).isValid <==>
              CheckNome(Get(data, "nome")).issue.None? && CheckTelefone(Get(data, "telefone")).issue.None?
              && CheckEmail(Get(data, "email")).issue.None? && CheckMotivo(Get(data, "motivo")).issue.None?
              && CheckData(Get(data, "data")).issue.None?
  {
    AssembleValid(CheckNome(Get(data, "nome")), CheckTelefone(Get(data, "telefone")),
                  CheckEmail(Get(data, "email")), CheckMotivo(Get(data, "motivo")),
                  CheckData(Get(data, "data")));
  }

  lemma AssembleValid(c0: FieldCheck, c1: FieldCheck, c2: FieldCheck, c3: FieldCheck, c4: FieldCheck)
    ensures Assemble(c0, c1, c2, c3, c4).isValid <==>
              c0.issue.None? && c1.issue.None? && c2.issue.None? && c3.issue.None? && c4.issue.None?
  {
  }

  /** Reading the five fields back out of a record built from them. */
  lemma GetFields(v0: Val, v1: Val, v2: Val, v3: Val, v4: Val)
    ensures var r := map["nome" := v0, "telefone" := v1, "email" := v2, "motivo" := v3, "data" := v4];
      Get(r, "nome") == v0 && Get(r, "telefone") == v1 && Get(r, "email") == v2
      && Get(r, "motivo") == v3 && Get(r, "data") == v4
  {
  }

  /** Correcting is stable: validating a corrected record again returns the
      same corrected record, and a valid record stays valid. */
  lemma RevalidationStable(data: Record)
    ensures Validation(Validation(data).corrected).corrected == Validation(data).corrected
    ensures Validation(data).isValid ==> Validation(Validation(data).corrected).isValid
  {
    var v0, v1, v2, v3, v4 := Get(data, "nome"), Get(data, "telefone"), Get(data, "email"),
                              Get(data, "motivo"), Get(data, "data");
    NomeStable(v0);
    TelefoneStable(v1);
    EmailStable(v2);
    MotivoStable(v3);
    DataStable(v4);
    CorrectedValues(data);
    var c := Validation(data).corrected;
    GetFields(CheckNome(v0).value, CheckTelefone(v1).value, CheckEmail(v2).value,
              CheckMotivo(v3).value, CheckData(v4).value);
    CorrectedValues(c);
  }

  // ---------------------------------------------------------------------
  // Confidence

  /** The keys whose value is not `None` (all keys, not only the five fields). */
  function FilledKeys(entities: Record): set<string> {
    set k | k in entities && entities[k] != Null
  }

  /** How many of nome, telefone and motivo are present. */
  function RequiredFilled(entities: Record): (n: nat)
    ensures n <= 3
  {
    (if Get(entities, "nome") != Null then 1 else 0)
    + (if Get(entities, "telefone") != Null then 1 else 0)
    + (if Get(entities, "motivo") != Null then 1 else 0)
  }

  /** `validate_extraction_confidence` as an exact rational (before rounding):
      `min(filled / 5 + 0.3 * required / 3, 1.0)`. */
  function Confidence(entities: Record): (r: real)
    ensures 0.0 <= r <= 1.0
  {
    var base := |FilledKeys(entities)| as real / 5.0;
    var bonus := (RequiredFilled(entities) as real / 3.0) * 0.3;
    if base + bonus <= 1.0 then base + bonus else 1.0
  }

  lemma SubsetCard(a: set<string>, b: set<string>)
    requires a <= b
    ensures |a| <= |b|
  {
    assert b == a + (b - a);
  }

  /** Filling in more fields never lowers the score. */
  lemma ConfidenceMonotone(e1: Record, e2: Record)
    requires FilledKeys(e1) <= FilledKeys(e2)
    ensures Confidence(e1) <= Confidence(e2)
  {
    SubsetCard(FilledKeys(e1), FilledKeys(e2));
    assert Get(e1, "nome") != Null ==> "nome" in FilledKeys(e1);
    assert Get(e1, "telefone") != Null ==> "telefone" in FilledKeys(e1);
    assert Get(e1, "motivo") != Null ==> "motivo" in FilledKeys(e1);
    assert RequiredFilled(e1) <= RequiredFilled(e2);
  }

  /** In particular, giving a `None` (or missing) key a value. */
  lemma ConfidenceGrowsWhenFilled(e: Record, k: string, v: Val)
    requires v != Null
    ensures Confidence(e) <= Confidence(e[k := v])
  {
    assert FilledKeys(e) <= FilledKeys(e[k := v]);
    ConfidenceMonotone(e, e[k := v]);
  }

  /** All three required fields and one more present: the score is capped at 1. */
  lemma ConfidenceFullWithFourFields(e: Record)
    requires Get(e, "nome") != Null && Get(e, "telefone") != Null && Get(e, "motivo") != Null
    requires Get(e, "email") != Null || Get(e, "data") != Null
    ensures Confidence(e) == 1.0
  {
    var extra := if Get(e, "email") != Null then "email" else "data";
    assert {"nome", "telefone", "motivo", extra} <= FilledKeys(e);
    SubsetCard({"nome", "telefone", "motivo", extra}, FilledKeys(e));
  }

  /** The record with every field `None` scores 0. */
  lemma ConfidenceOfAllNull()
    ensures Confidence(AllNull) == 0.0
  {
    assert FilledKeys(AllNull) == {};
  }

  // ---------------------------------------------------------------------
  // The cases of the test suite

  lemma MariaEmailMatches(e: string)
    requires e == "maria@example.com"
    ensures EmailPatternMatches(e)
  {
    assert EmailSplit(e, 5, 13);
    EmailShapeIsRegex(e);
  }

  lemma SampleFieldsAccepted(n: string, t: string, e: string, m: string)
    requires n == "Maria Silva" && t == "11-9999-8888" && e == "maria@example.com" && m == "apoio emocional"
    ensures CheckNome(Str(n)) == FieldCheck(Str(n), None)
    ensures CheckTelefone(Str(t)) == FieldCheck(Str(t), None)
    ensures CheckEmail(Str(e)) == FieldCheck(Str(e), None)
    ensures CheckMotivo(Str(m)) == FieldCheck(Str(m), None)
  {
    StripFixed(n);
    StripFixed(e);
    StripFixed(m);
    assert IsLandlineFormat(t);
    CanonicalIsFixedPoint(t);
    LowerFixed(e);
    MariaEmailMatches(e);
  }

  /** The well-formed record of the test suite is valid and already corrected. */
  lemma ValidSampleAccepted(d: Record, n: string, t: string, e: string, m: string)
    requires n == "Maria Silva" && t == "11-9999-8888" && e == "maria@example.com" && m == "apoio emocional"
    requires d == map["nome" := Str(n), "telefone" := Str(t), "email" := Str(e), "motivo" := Str(m), "data" := Null]
    ensures Validation(d).isValid
    ensures Validation(d).corrected == d
  {
    SampleFieldsAccepted(n, t, e, m);
    GetFields(Str(n), Str(t), Str(e), Str(m), Null);
    CorrectedValues(d);
  }

  lemma InvalidFieldsRejected(n: string, t: string, e: string, m: string)
    requires n == "A" && t == "invalid" && e == "invalid-email" && m == "OK"
    ensures CheckNome(Str(n)).issue == Some(NomeTooShort)
    ensures CheckTelefone(Str(t)).issue == Some(TelefoneBadFormat)
    ensures CheckEmail(Str(e)).issue == Some(EmailInvalid)
    ensures CheckMotivo(Str(m)).issue == Some(MotivoTooShort)
  {
    ShortTextRejected(n);
    ShortTextRejected(m);
    NormalizeExampleNoDigits();
    BadEmailRejected(e);
  }

  /** "A" is too short for a name and "OK" for a reason, though "OK" would
      pass as a name. */
  lemma ShortTextRejected(s: string)
    requires s == "A" || s == "OK"
    ensures s == "A" ==> CheckNome(Str(s)).issue == Some(NomeTooShort)
    ensures s == "OK" ==> CheckNome(Str(s)) == FieldCheck(Str(s), None)
    ensures CheckMotivo(Str(s)).issue == Some(MotivoTooShort)
  {
    StripFixed(s);
  }

  lemma BadEmailRejected(e: string)
    requires e == "invalid-email"
    ensures CheckEmail(Str(e)).issue == Some(EmailInvalid)
  {
    StripFixed(e);
    LowerFixed(e);
    NoAtSign(e);
  }

  lemma NoAtSign(e: string)
    requires e == "invalid-email"
    ensures !EmailPatternMatches(e)
  {
    assert forall k :: 0 <= k < |e| ==> e[k] != '@';
  }

  /** The malformed record of the test suite: four messages, in field order. */
  lemma InvalidSampleRejected(d: Record, n: string, t: string, e: string, m: string)
    requires n == "A" && t == "invalid" && e == "invalid-email" && m == "OK"
    requires d == map["nome" := Str(n), "telefone" := Str(t), "email" := Str(e), "motivo" := Str(m)]
    ensures Validation(d).issues == [NomeTooShort, TelefoneBadFormat, EmailInvalid, MotivoTooShort]
    ensures Validation(d).Errors() == [Message(NomeTooShort), Message(TelefoneBadFormat),
                                       Message(EmailInvalid), Message(MotivoTooShort)]
    ensures !Validation(d).isValid
  {
    InvalidFieldsRejected(n, t, e, m);
    assert Get(d, "nome") == Str(n) && Get(d, "telefone") == Str(t) && Get(d, "email") == Str(e)
           && Get(d, "motivo") == Str(m) && Get(d, "data") == Null;
  }
}
