/** Conventions of the document store the backend talks to.

    A collection is kept as a sequence of records in insertion order, and
    `findOne` without a sort returns the first record that matches its
    filter. Object ids are natural numbers; an id that arrives from a
    request (a query parameter, a session claim) is either absent,
    impossible to cast to an ObjectId, or a real id. */
module Documents {

  datatype Option<+T> = None | Some(value: T)

  type ObjectId = nat

  /** An id as it arrives from outside: `Missing` is an absent or empty
      value (falsy in JavaScript), `Unparseable` a value the store refuses
      to cast to an ObjectId (the query then throws). */
  datatype IdParam = Missing | Unparseable | Id(id: ObjectId)

  /** The position `findOne` returns: the first element satisfying `p`. */
  function FindFirst<T>(s: seq<T>, p: T -> bool): (r: Option<nat>)
    ensures r.Some? ==> r.value < |s| && p(s[r.value])
    ensures r.Some? ==> forall j :: 0 <= j < r.value ==> !p(s[j])
    ensures r.None? <==> forall j :: 0 <= j < |s| ==> !p(s[j])
  {
    if |s| == 0 then None
    else if p(s[0]) then Some(0)
    else match FindFirst(s[1..], p)
      case None => None
      case Some(i) => Some(i + 1)
  }

  /** The first match is determined by which elements match, nothing else. */
  lemma FindFirstUnique<T>(s: seq<T>, p: T -> bool, i: nat)
    requires i < |s| && p(s[i])
    requires forall j :: 0 <= j < i ==> !p(s[j])
    ensures FindFirst(s, p) == Some(i)
  {
  }

  /** A first match past the head is the first match of the tail, one
      position earlier. */
  lemma FirstAfterHead<T>(s: seq<T>, p: T -> bool, i: nat)
    requires FindFirst(s, p) == Some(i) && i > 0
    ensures FindFirst(s[1..], p) == Some(i - 1)
  {
  }

  /** A head that does not match shifts the first match of the tail by one. */
  lemma SkipHead<T>(s: seq<T>, p: T -> bool, j: nat)
    requires |s| > 0 && !p(s[0]) && FindFirst(s[1..], p) == Some(j)
    ensures FindFirst(s, p) == Some(j + 1)
  {
  }

  /** Rewriting one record in place does not move the first match, as long
      as the rewritten record still matches exactly when it did before. */
  lemma FindFirstAfterUpdate<T>(s: seq<T>, p: T -> bool, k: nat, x: T)
    requires k < |s| && p(x) == p(s[k])
    ensures FindFirst(s[k := x], p) == FindFirst(s, p)
  {
    var s' := s[k := x];
    assert forall j :: 0 <= j < |s| ==> p(s'[j]) == p(s[j]);
    match FindFirst(s, p)
    case None =>
    case Some(i) => FindFirstUnique(s', p, i);
  }

  /** Inserting a record never changes an existing first match; a filter
      nothing matched so far finds the new record exactly when it matches. */
  lemma FindFirstAfterAppend<T>(s: seq<T>, p: T -> bool, x: T)
    ensures FindFirst(s + [x], p) ==
      match FindFirst(s, p)
      case Some(i) => Some(i)
      case None => if p(x) then Some(|s|) else None
  {
    var s' := s + [x];
    assert forall j :: 0 <= j < |s| ==> s'[j] == s[j];
    match FindFirst(s, p)
    case Some(i) => FindFirstUnique(s', p, i);
    case None =>
      if p(x) { FindFirstUnique(s', p, |s|); }
  }

  /** `r` is `s` with some records left out and the others kept in their
      order. */
  ghost predicate SubsequenceOf<T>(r: seq<T>, s: seq<T>)
  {
    if r == [] then true
    else if s == [] then false
    else (r[0] == s[0] && SubsequenceOf(r[1..], s[1..])) || SubsequenceOf(r, s[1..])
  }
}
