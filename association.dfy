/**
 * `Cohesion::Association`: a directed edge of some `kind` from one entity to
 * another, with a data bag and a creation time, and its two wire forms: the
 * response shape the service sends, and the request shape `to_hash` builds.
 */
module Associations {
  import opened Wrappers
  import opened Values
  import Entities

  type Entity = Entities.Entity

  /** A DateTime value; its representation is left to the date library. */
  type Time(==, 00)

  /** `DateTime.rfc3339`: `None` when the library rejects the string. */
  type TimeParser = string -> Option<Time>

  /**
   * `to` is `None` for edges addressed at every target of a kind (bulk
   * operations); `data` is whatever value the bag holds, nil included.
   */
  datatype Association = Association(from: Entity, kind: Json, to: Option<Entity>, data: Json, time: Option<Time>)

  /** `Association#==`; `None` stands for an operand that is not an Association. */
  function Equals(a: Association, other: Option<Association>): (r: bool)
    ensures r <==> other == Some(a)
  {
    if other.None? then false
    else
      var b := other.value;
      && Entities.Equals(a.from, Some(b.from))
      && a.kind == b.kind
      && (if a.to.None? then b.to.None? else Entities.Equals(a.to.value, b.to))
      && a.data == b.data
      && a.time == b.time
  }

  /** `DateTime.rfc3339(j)`: a string it accepts, or an exception. */
  function ParseTime(j: Json, parse: TimeParser): (r: Result<Time, Error>)
    ensures r.Ok? <==> j.Leaf? && j.scalar.Str? && parse(j.scalar.s).Some?
    ensures r.Ok? ==> parse(j.scalar.s) == Some(r.value)
  {
    match j
    case Leaf(Str(s)) => (match parse(s) case Some(t) => Ok(t) case None => Err(InvalidDate))
    case _ => Err(TypeMismatch)
  }

  /**
   * One element `e` of a response's `to` array, made into an Association
   * sharing the response's `from` and `kind`.
   */
  function FromTarget(from: Entity, kind: Json, e: Json, parse: TimeParser): (r: Result<Association, Error>)
    ensures r.Ok? ==> Indexable(e)
    ensures r.Ok? ==> r.value.from == from && r.value.kind == kind
    ensures r.Ok? ==> r.value.to.Some? && Entities.FromHash(Lookup(e, "target")) == Ok(r.value.to.value)
    ensures r.Ok? ==> r.value.data == Lookup(e, "data")
    ensures r.Ok? ==> r.value.time.Some? && ParseTime(Lookup(e, "time"), parse) == Ok(r.value.time.value)
  {
    if !Indexable(e) then Err(TypeMismatch)
    else
      var to :- Entities.FromHash(Lookup(e, "target"));
      var t :- ParseTime(Lookup(e, "time"), parse);
      Ok(Association(from, kind, Some(to), Lookup(e, "data"), Some(t)))
  }

  /** `Association.from_hash(h)`: built from the response's first target only. */
  function FromHash(h: Json, parse: TimeParser): (r: Result<Association, Error>)
    ensures r.Ok? ==> Indexable(h) && First(Lookup(h, "to")).Ok?
    ensures r.Ok? ==> Entities.FromHash(Lookup(h, "from")) == Ok(r.value.from) && r.value.kind == Lookup(h, "kind")
    ensures r.Ok? ==> r == FromTarget(r.value.from, r.value.kind, First(Lookup(h, "to")).value, parse)
  {
    if !Indexable(h) then Err(TypeMismatch)
    else
      var first :- First(Lookup(h, "to"));
      var from :- Entities.FromHash(Lookup(h, "from"));
      FromTarget(from, Lookup(h, "kind"), first, parse)
  }

  /**
   * Parses the targets in order and stops at the first one that raises, as
   * the `each` loop of `list_from_hash` does.
   */
  function ParseTargets(from: Entity, kind: Json, items: seq<Json>, parse: TimeParser): (r: Result<seq<Association>, Error>)
    ensures r.Ok? <==> forall i :: 0 <= i < |items| ==> FromTarget(from, kind, items[i], parse).Ok?
    ensures r.Ok? ==> |r.value| == |items|
    ensures r.Ok? ==> forall i :: 0 <= i < |items| ==> r.value[i] == FromTarget(from, kind, items[i], parse).value
    ensures r.Err? ==> exists i :: 0 <= i < |items| && FirstFailure(from, kind, items, parse, i) && r.error == FromTarget(from, kind, items[i], parse).error
  {
    if items == [] then Ok([])
    else
      var head :- FromTarget(from, kind, items[0], parse);
      var rest := ParseTargets(from, kind, items[1..], parse);
      if rest.Err? then
        assert exists i :: 0 <= i < |items| && FirstFailure(from, kind, items, parse, i) && rest.error == FromTarget(from, kind, items[i], parse).error by {
          var i :| 0 <= i < |items[1..]| && FirstFailure(from, kind, items[1..], parse, i) && rest.error == FromTarget(from, kind, items[1..][i], parse).error;
          assert FirstFailure(from, kind, items, parse, i + 1);
        }
        Err(rest.error)
      else
        assert forall i :: 1 <= i < |items| ==> items[i] == items[1..][i - 1];
        Ok([head] + rest.value)
  }

  /** Element `i` is the first of `items` that fails to parse. */
  ghost predicate FirstFailure(from: Entity, kind: Json, items: seq<Json>, parse: TimeParser, i: int)
    requires 0 <= i < |items|
  {
    && FromTarget(from, kind, items[i], parse).Err?
    && forall j :: 0 <= j < i ==> FromTarget(from, kind, items[j], parse).Ok?
  }

  /** What `Association.list_from_hash(h)` returns, or the exception it raises. */
  function ListOf(h: Json, parse: TimeParser): (r: Result<seq<Association>, Error>)
    ensures !Indexable(h) ==> r == Err(TypeMismatch)
    ensures Indexable(h) && Entities.FromHash(Lookup(h, "from")).Err? ==> r == Err(Entities.FromHash(Lookup(h, "from")).error)
    ensures r.Ok? ==> Indexable(h) && Elements(Lookup(h, "to")).Ok? && |r.value| == |Elements(Lookup(h, "to")).value|
    ensures Indexable(h) && Entities.FromHash(Lookup(h, "from")).Ok? && Elements(Lookup(h, "to")).Err? ==> r.Err?
  {
    if !Indexable(h) then Err(TypeMismatch)
    else
      var from :- Entities.FromHash(Lookup(h, "from"));
      var items :- Elements(Lookup(h, "to"));
      ParseTargets(from, Lookup(h, "kind"), items, parse)
  }

  lemma FirstFailureUnique(from: Entity, kind: Json, items: seq<Json>, parse: TimeParser, i: int, k: int)
    requires 0 <= i < |items| && 0 <= k < |items|
    requires FirstFailure(from, kind, items, parse, i) && FirstFailure(from, kind, items, parse, k)
    ensures i == k
  {
  }

  /**
   * `Association.list_from_hash(h)`: one Association per element of
   * `h['to']`, appended in order inside the `each` loop.
   */
  method ListFromHash(h: Json, parse: TimeParser) returns (r: Result<seq<Association>, Error>)
    ensures r == ListOf(h, parse)
  {
    if !Indexable(h) {
      return Err(TypeMismatch);
    }
    var from :- Entities.FromHash(Lookup(h, "from"));
    var items :- Elements(Lookup(h, "to"));
    ghost var spec := ParseTargets(from, Lookup(h, "kind"), items, parse);
    var list: seq<Association> := [];
    var i := 0;
    while i < |items|
      invariant 0 <= i <= |items|
      invariant |list| == i
      invariant forall j :: 0 <= j < i ==> FromTarget(from, Lookup(h, "kind"), items[j], parse) == Ok(list[j])
    {
      var a := FromTarget(from, Lookup(h, "kind"), items[i], parse);
      if a.Err? {
        assert FirstFailure(from, Lookup(h, "kind"), items, parse, i);
        assert spec.Err?;
        ghost var k :| 0 <= k < |items| && FirstFailure(from, Lookup(h, "kind"), items, parse, k) && spec.error == FromTarget(from, Lookup(h, "kind"), items[k], parse).error;
        FirstFailureUnique(from, Lookup(h, "kind"), items, parse, i, k);
        return Err(a.error);
      }
      list := list + [a.value];
      i := i + 1;
    }
    assert spec.Ok? && spec.value == list;
    r := Ok(list);
  }

  /** Every parsed element shares the response's `from` and `kind`, in the server's order. */
  lemma ListShape(h: Json, parse: TimeParser)
    requires ListOf(h, parse).Ok?
    ensures Indexable(h) && Elements(Lookup(h, "to")).Ok?
    ensures var list := ListOf(h, parse).value;
      var items := Elements(Lookup(h, "to")).value;
      && |list| == |items|
      && forall i :: 0 <= i < |list| ==>
           && Entities.FromHash(Lookup(h, "from")) == Ok(list[i].from)
           && list[i].kind == Lookup(h, "kind")
           && FromTarget(list[i].from, list[i].kind, items[i], parse) == Ok(list[i])
  {
  }

  /** An empty `to` array, or an empty hash in its place, parses to the empty list. */
  lemma EmptyTargets(h: Json, parse: TimeParser)
    requires Indexable(h) && Entities.FromHash(Lookup(h, "from")).Ok?
    requires Lookup(h, "to") == List([]) || Lookup(h, "to") == EmptyHash
    ensures ListOf(h, parse) == Ok([])
  {
  }

  /** `from_hash` agrees with the head of `list_from_hash` whenever the latter succeeds with a non-empty list. */
  lemma FromHashIsHead(h: Json, parse: TimeParser)
    requires ListOf(h, parse).Ok? && |ListOf(h, parse).value| > 0
    ensures FromHash(h, parse) == Ok(ListOf(h, parse).value[0])
  {
    var to := Lookup(h, "to");
    var items := Elements(to).value;
    assert |items| > 0;
    assert First(to) == Ok(items[0]);
  }

  /** `from_hash` looks at nothing but the first element of `to`. */
  lemma FromHashReadsFirstOnly(h: map<string, Json>, first: Json, rest1: seq<Json>, rest2: seq<Json>, parse: TimeParser)
    ensures FromHash(Hash(h["to" := List([first] + rest1)]), parse) == FromHash(Hash(h["to" := List([first] + rest2)]), parse)
  {
  }

  /**
   * The request shape of `Association#to_hash`: always `from` and `kind`,
   * `to` only for a target entity, `data_bag` only for a bag that is neither
   * nil nor false (an empty hash is still sent).
   */
  function WireHash(a: Association): (h: map<string, Json>)
    ensures h.Keys <= {"from", "kind", "to", "data_bag"}
    ensures "from" in h && h["from"] == Entities.ToHash(a.from)
    ensures "kind" in h && h["kind"] == a.kind
    ensures "to" in h <==> a.to.Some?
    ensures a.to.Some? ==> h["to"] == Entities.ToHash(a.to.value)
    ensures "data_bag" in h <==> a.data != Leaf(Nil) && a.data != Leaf(Bool(false))
    ensures "data_bag" in h ==> h["data_bag"] == a.data
  {
    var base := map["from" := Entities.ToHash(a.from), "kind" := a.kind];
    var withTo := if a.to.Some? then base["to" := Entities.ToHash(a.to.value)] else base;
    if Truthy(a.data) then withTo["data_bag" := a.data] else withTo
  }

  /** `Association#to_hash`, filling the hash key by key. */
  method ToHash(a: Association) returns (h: map<string, Json>)
    ensures h == WireHash(a)
  {
    h := map[];
    h := h["from" := Entities.ToHash(a.from)];
    h := h["kind" := a.kind];
    if a.to.Some? {
      h := h["to" := Entities.ToHash(a.to.value)];
    }
    if Truthy(a.data) {
      h := h["data_bag" := a.data];
    }
  }
}
