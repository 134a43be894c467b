/** The API's `ContatoRepository`, with the `contatos` table as an in-memory
    sequence of rows in insertion order and the id sequence as a counter. */
module Repository {
  import opened Values
  import opened Text

  /** The stored columns of a contact besides its id (the timestamps are
      not modelled). */
  const Columns: set<string> := {"nome", "telefone", "email", "motivo", "status_mcp", "extra_data"}

  /** A row of `contatos`: its id and its column values. */
  datatype Contato = Contato(id: nat, fields: Record)

  /** The columns declared NOT NULL hold a value. */
  predicate RowOk(c: Contato) {
    Get(c.fields, "nome") != Null && Get(c.fields, "telefone") != Null && Get(c.fields, "motivo") != Null
  }

  /** The column values of `Contato(**data)` once inserted: a value given
      and not `None` is stored; otherwise the column default, which is
      "pendente" for status_mcp and NULL for the others.  Keys that are not
      columns are not stored. */
  function Stored(data: Record): (stored: Record)
    ensures stored.Keys == Columns
  {
    map k | k in Columns ::
      if k in data && data[k] != Null then data[k]
      else if k == "status_mcp" then Str("pendente")
      else Null
  }

  /** Inserting `data` violates NOT NULL exactly when a required column
      would be NULL. */
  predicate InsertFails(data: Record) {
    Get(data, "nome") == Null || Get(data, "telefone") == Null || Get(data, "motivo") == Null
  }

  lemma StoredRowOk(id: nat, data: Record)
    ensures RowOk(Contato(id, Stored(data))) <==> !InsertFails(data)
    ensures Stored(data)["status_mcp"] == if Get(data, "status_mcp") != Null then data["status_mcp"] else Str("pendente")
  {
    assert "nome" in Columns && "telefone" in Columns && "motivo" in Columns && "status_mcp" in Columns;
  }

  /** The row an update leaves: every key given with a value other than
      `None` is overwritten, every other field is kept. */
  function Patched(fields: Record, data: Record): (r: Record)
    ensures forall k :: k in data && data[k] != Null ==> k in r && r[k] == data[k]
    ensures forall k :: k in fields && !(k in data && data[k] != Null) ==> k in r && r[k] == fields[k]
    ensures forall k :: k in r ==> k in fields || (k in data && data[k] != Null)
  {
    map k | k in fields.Keys + data.Keys && (k in fields || data[k] != Null) ::
      if k in data && data[k] != Null then data[k] else fields[k]
  }

  /** Position of the row with id `id`. */
  function IndexOfId(rows: seq<Contato>, id: int): (r: Option<nat>)
    ensures r.Some? ==> r.value < |rows| && rows[r.value].id == id
    ensures r.Some? ==> forall k :: 0 <= k < r.value ==> rows[k].id != id
    ensures r.None? ==> forall k :: 0 <= k < |rows| ==> rows[k].id != id
  {
    if rows == [] then None
    else if rows[0].id == id then Some(0)
    else match IndexOfId(rows[1..], id)
      case None => None
      case Some(i) => Some(i + 1)
  }

  /** Position of the first row whose telefone is `t`. */
  function IndexOfPhone(rows: seq<Contato>, t: Val): (r: Option<nat>)
    ensures r.Some? ==> r.value < |rows| && Get(rows[r.value].fields, "telefone") == t
    ensures r.Some? ==> forall k :: 0 <= k < r.value ==> Get(rows[k].fields, "telefone") != t
    ensures r.None? ==> forall k :: 0 <= k < |rows| ==> Get(rows[k].fields, "telefone") != t
  {
    if rows == [] then None
    else if Get(rows[0].fields, "telefone") == t then Some(0)
    else match IndexOfPhone(rows[1..], t)
      case None => None
      case Some(i) => Some(i + 1)
  }

  /** The filters of `list_all`: a non-empty `motivo` must occur in the
      row's motivo, a non-empty `status_mcp` must equal the row's. */
  predicate Matches(c: Contato, motivo: Option<string>, status: Option<string>) {
    && (motivo.Some? && motivo.value != [] ==>
          Get(c.fields, "motivo").Str? && Contains(Get(c.fields, "motivo").s, motivo.value))
    && (status.Some? && status.value != [] ==> Get(c.fields, "status_mcp") == Str(status.value))
  }

  /** The rows that pass the filters, in table order. */
  function Filtered(rows: seq<Contato>, motivo: Option<string>, status: Option<string>): (r: seq<Contato>)
    ensures |r| <= |rows|
    ensures forall c :: c in r <==> c in rows && Matches(c, motivo, status)
  {
    if rows == [] then []
    else (if Matches(rows[0], motivo, status) then [rows[0]] else [])
         + Filtered(rows[1..], motivo, status)
  }

  /** `.offset(skip).limit(limit)`. */
  function Page(rows: seq<Contato>, skip: nat, limit: nat): (r: seq<Contato>)
    ensures |r| <= limit
    ensures |rows| <= skip ==> r == []
    ensures skip < |rows| ==> |r| == if limit < |rows| - skip then limit else |rows| - skip
    ensures forall i :: 0 <= i < |r| ==> r[i] == rows[skip + i]
  {
    if |rows| <= skip then []
    else if limit < |rows| - skip then rows[skip..skip + limit]
    else rows[skip..]
  }

  /** Ids increase strictly along the table. */
  predicate Increasing(rows: seq<Contato>) {
    forall i, j :: 0 <= i < j < |rows| ==> rows[i].id < rows[j].id
  }

  /** The field loop of `update`: `setattr` for every key given with a value
      other than `None`. */
  method PatchFields(original: Record, data: Record) returns (fields: Record)
    ensures fields == Patched(original, data)
  {
    fields := original;
    var todo := data.Keys;
    while todo != {}
      invariant todo <= data.Keys
      invariant forall k :: k in fields <==>
                  k in original || (k in data && k !in todo && data[k] != Null)
      invariant forall k :: k in fields ==>
                  fields[k] == if k in data && k !in todo && data[k] != Null then data[k] else original[k]
      decreases todo
    {
      var k :| k in todo;
      if data[k] != Null {
        fields := fields[k := data[k]];
      }
      todo := todo - {k};
    }
  }

  class ContatoRepository {
    var rows: seq<Contato>
    /** The id the next inserted row receives. */
    var nextId: nat

    /** Ids start at 1 and increase along the table, all below the counter,
        and no NOT NULL column is NULL. */
    ghost predicate Valid()
      reads this
    {
      && 0 < nextId
      && Increasing(rows)
      && (forall i :: 0 <= i < |rows| ==> 0 < rows[i].id < nextId)
      && (forall i :: 0 <= i < |rows| ==> RowOk(rows[i]))
    }

    constructor()
      ensures Valid() && rows == [] && nextId == 1
    {
      rows := [];
      nextId := 1;
    }

    /** `get`: the row with that id, if any. */
    function Get(id: int): (r: Option<Contato>)
      reads this
      ensures r.Some? ==> r.value in rows && r.value.id == id
      ensures r.None? <==> forall c :: c in rows ==> c.id != id
    {
      match IndexOfId(rows, id)
      case None => None
      case Some(i) => Some(rows[i])
    }

    /** `get_by_telefone`: the first row with that phone, if any. */
    function GetByTelefone(t: Val): (r: Option<Contato>)
      reads this
      ensures r.Some? ==> r.value in rows && Values.Get(r.value.fields, "telefone") == t
      ensures r.None? <==> forall c :: c in rows ==> Values.Get(c.fields, "telefone") != t
    {
      match IndexOfPhone(rows, t)
      case None => None
      case Some(i) => Some(rows[i])
    }

    /** `list_all`: filter first, then page. */
    function ListAll(skip: nat, limit: nat, motivo: Option<string>, status: Option<string>): (r: seq<Contato>)
      reads this
      ensures r == Page(Filtered(rows, motivo, status), skip, limit)
      ensures |r| <= limit
      ensures forall c :: c in r ==> c in rows && Matches(c, motivo, status)
    {
      Page(Filtered(rows, motivo, status), skip, limit)
    }

    /** `count`. */
    function Count(): nat
      reads this
    {
      |rows|
    }

    /** `create`: on success exactly one row is appended, with a fresh id. */
    method Create(data: Record) returns (r: Result<Contato, string>)
      requires Valid()
      modifies this
      ensures Valid()
      ensures r.Failure? <==> InsertFails(data)
      ensures r.Failure? ==> rows == old(rows) && nextId == old(nextId)
      ensures r.Success? ==> r.value == Contato(old(nextId), Stored(data))
                             && rows == old(rows) + [r.value] && nextId == old(nextId) + 1
      ensures r.Success? ==> Count() == old(Count()) + 1 && old(Get(r.value.id)).None?
    {
      StoredRowOk(nextId, data);
      if InsertFails(data) {
        return Failure("NOT NULL constraint failed");
      }
      var contato := Contato(nextId, Stored(data));
      rows := rows + [contato];
      nextId := nextId + 1;
      r := Success(contato);
    }

    /** `update`: a missing id changes nothing; otherwise the fields given
        with a value are overwritten, one at a time. */
    method Update(id: int, data: Record) returns (r: Option<Contato>)
      requires Valid()
      modifies this
      ensures Valid()
      ensures nextId == old(nextId)
      ensures IndexOfId(old(rows), id).None? ==> r.None? && rows == old(rows)
      ensures IndexOfId(old(rows), id).Some? ==>
                var i := IndexOfId(old(rows), id).value;
                r == Some(Contato(id, Patched(old(rows)[i].fields, data)))
                && rows == old(rows)[i := r.value]
    {
      var index := IndexOfId(rows, id);
      if index.None? {
        return None;
      }
      var i := index.value;
      var fields := PatchFields(rows[i].fields, data);
      var contato := Contato(id, fields);
      PatchedRowOk(rows[i], data);
      rows := rows[i := contato];
      r := Some(contato);
    }

    /** `delete`: removes the row when it exists. */
    method Delete(id: int) returns (deleted: bool)
      requires Valid()
      modifies this
      ensures Valid()
      ensures nextId == old(nextId)
      ensures deleted <==> old(Get(id)).Some?
      ensures !deleted ==> rows == old(rows)
      ensures deleted ==> var i := IndexOfId(old(rows), id).value;
                          rows == old(rows)[..i] + old(rows)[i + 1..]
      ensures deleted ==> Count() == old(Count()) - 1
      ensures Get(id).None?
    {
      var index := IndexOfId(rows, id);
      if index.None? {
        return false;
      }
      var i := index.value;
      ghost var before := rows;
      rows := rows[..i] + rows[i + 1..];
      RemovedIdGone(before, i);
      return true;
    }
  }

  /** Overwriting with values other than `None` keeps NOT NULL columns
      filled. */
  lemma PatchedRowOk(c: Contato, data: Record)
    requires RowOk(c)
    ensures RowOk(Contato(c.id, Patched(c.fields, data)))
  {
  }

  /** With increasing ids, removing a row removes its id from the table and
      keeps the order. */
  lemma RemovedIdGone(rows: seq<Contato>, i: nat)
    requires i < |rows|
    requires Increasing(rows)
    ensures forall c :: c in rows[..i] + rows[i + 1..] ==> c.id != rows[i].id
    ensures Increasing(rows[..i] + rows[i + 1..])
  {
  }

  /** Ids are unique, so `get` finds the one row with that id. */
  lemma IdsUnique(rows: seq<Contato>, c: Contato, d: Contato)
    requires Increasing(rows)
    requires c in rows && d in rows && c.id == d.id
    ensures c == d
  {
  }

  /** Filtering one row keeps it exactly when it passes. */
  lemma FilteredSingle(c: Contato, motivo: Option<string>, status: Option<string>)
    ensures Filtered([c], motivo, status) == if Matches(c, motivo, status) then [c] else []
  {
  }

  /** Filtering works row by row: the rows kept from `a + b` are those kept
      from `a` followed by those kept from `b`, so order and repetitions are
      those of the table. */
  lemma {:induction false} FilteredConcat(a: seq<Contato>, b: seq<Contato>,
                                          motivo: Option<string>, status: Option<string>)
    ensures Filtered(a + b, motivo, status) == Filtered(a, motivo, status) + Filtered(b, motivo, status)
  {
    if a == [] {
      assert a + b == b;
    } else {
      assert (a + b)[1..] == a[1..] + b;
      FilteredConcat(a[1..], b, motivo, status);
    }
  }

  /** Without filters every row passes, so the page is a slice of the
      table. */
  lemma {:induction false} NoFilterKeepsAll(rows: seq<Contato>)
    ensures Filtered(rows, None, None) == rows
  {
    if rows != [] {
      NoFilterKeepsAll(rows[1..]);
      assert rows == [rows[0]] + rows[1..];
    }
  }
}
