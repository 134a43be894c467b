/** What the two entity parsers (the LLM service's extractor and the API's LLM
    integration) have in common: the five contact fields, the all-`None`
    fallback record, reading the model's text out of the runtime's reply, and
    the search `re.search(r"\{.*\}", response, re.DOTALL)`. */
module Entities {
  import opened Values

  /** The five fields of a contact record, in the order they are checked. */
  const Fields: seq<string> := ["nome", "telefone", "email", "motivo", "data"]

  const FieldSet: set<string> := {"nome", "telefone", "email", "motivo", "data"}

  /** The fallback record: all five fields `None`. */
  const AllNull: Record := map["nome" := Null, "telefone" := Null, "email" := Null,
                               "motivo" := Null, "data" := Null]

  lemma AllNullShape()
    ensures AllNull.Keys == FieldSet
    ensures forall k :: k in AllNull ==> AllNull[k] == Null
  {
  }

  /** `reply.get("response", "")`, the text the runtime generated.  A value
      that is not a string makes the subsequent `re.search` raise `TypeError`,
      which shows here as `None`. */
  function ResponseText(reply: Record): (r: Option<string>)
    ensures "response" !in reply ==> r == Some("")
    ensures "response" in reply ==> (r.Some? <==> reply["response"].Str?)
    ensures r.Some? && "response" in reply ==> reply["response"] == Str(r.value)
  {
    if "response" !in reply then Some("")
    else match reply["response"]
      case Str(s) => Some(s)
      case _ => None
  }

  /** Index of the first occurrence of `c` in `s`. */
  function FirstIndex(s: string, c: char): (r: Option<nat>)
    ensures r.Some? ==> r.value < |s| && s[r.value] == c
    ensures r.Some? ==> forall k :: 0 <= k < r.value ==> s[k] != c
    ensures r.None? ==> forall k :: 0 <= k < |s| ==> s[k] != c
  {
    if s == [] then None
    else if s[0] == c then Some(0)
    else match FirstIndex(s[1..], c)
      case None => None
      case Some(i) => Some(i + 1)
  }

  /** Index of the last occurrence of `c` in `s`. */
  function LastIndex(s: string, c: char): (r: Option<nat>)
    ensures r.Some? ==> r.value < |s| && s[r.value] == c
    ensures r.Some? ==> forall k :: r.value < k < |s| ==> s[k] != c
    ensures r.None? ==> forall k :: 0 <= k < |s| ==> s[k] != c
  {
    if s == [] then None
    else if s[|s| - 1] == c then Some(|s| - 1)
    else LastIndex(s[..|s| - 1], c)
  }

  /** The text of the match of `\{.*\}` (with `.` matching newlines): from the
      first `{` to the last `}`, if that `}` comes after the `{`. */
  function JsonSpan(s: string): (r: Option<string>)
  {
    match FirstIndex(s, '{')
    case None => None
    case Some(i) =>
      match LastIndex(s, '}')
      case None => None
      case Some(j) => if i < j then Some(s[i..j + 1]) else None
  }

  /** `s[i..j]` is a match of `\{.*\}`: it opens with `{`, closes with `}`
      and has at least those two characters. */
  predicate SpanAt(s: string, i: int, j: int) {
    0 <= i && i + 2 <= j <= |s| && s[i] == '{' && s[j - 1] == '}'
  }

  /** `JsonSpan` is what `re.search` returns for this pattern: there is a
      result exactly when some match exists, and then it is the leftmost match,
      and among the matches starting there the longest (the greedy `.*`). */
  lemma JsonSpanIsLeftmostLongest(s: string)
    ensures JsonSpan(s).None? <==> forall i, j :: !SpanAt(s, i, j)
    ensures JsonSpan(s).Some? ==>
      exists i, j :: SpanAt(s, i, j) && JsonSpan(s).value == s[i..j]
        && forall i', j' :: SpanAt(s, i', j') ==> i < i' || (i == i' && j' <= j)
  {
    var fi := FirstIndex(s, '{');
    var lj := LastIndex(s, '}');
    if fi.Some? && lj.Some? && fi.value < lj.value {
      var i, j := fi.value, lj.value + 1;
      assert SpanAt(s, i, j);
    }
  }

  /** A text without braces (the empty reply included) has no span. */
  lemma NoBraceNoSpan(s: string)
    requires forall k :: 0 <= k < |s| ==> s[k] != '{'
    ensures JsonSpan(s) == None
  {
  }
}
