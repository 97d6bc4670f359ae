/**
 * `Cohesion::API::AssociationV1`: the version 1 association endpoints. Each
 * operation normalises the entities it is given, checks its arguments,
 * sends at most one request through the client and turns the answer into a
 * Ruby value.
 *
 * Every operation has a specification function (`...Spec`) that says, from
 * the server, the requests sent before and the arguments as they were on
 * entry, which requests the call sends (`sent`) and what it returns or
 * raises (`result`). The methods of `AssociationV1` are proved against them.
 */
module ApiV1 {
  import opened Wrappers
  import opened Values
  import Entities
  import Associations
  import Paths
  import opened Transport

  type Entity = Entities.Entity
  type Association = Associations.Association
  type Time = Associations.Time
  type TimeParser = Associations.TimeParser

  /** A caller's `Entity` instance; `normalize_entity` overwrites its `id`. */
  class EntityObject {
    var value: Entity

    constructor(value: Entity)
      ensures this.value == value
    {
      this.value := value;
    }
  }

  /** What a caller passes where an entity is expected: an array `[kind, id]` or an Entity. */
  datatype Argument = ArrayArg(items: seq<Scalar>) | ObjectArg(obj: EntityObject)

  /** The value of an `Argument` at one moment. */
  datatype ArgValue = ArrayValue(items: seq<Scalar>) | EntityValue(entity: Entity)

  function Objects(e: Argument): set<object>
  {
    if e.ObjectArg? then {e.obj} else {}
  }

  function Snapshot(e: Argument): ArgValue
    reads Objects(e)
  {
    match e
    case ArrayArg(items) => ArrayValue(items)
    case ObjectArg(obj) => EntityValue(obj.value)
  }

  /** `Array#[]`: nil past the end. */
  function Element(items: seq<Scalar>, i: nat): Scalar
  {
    if i < |items| then items[i] else Nil
  }

  /**
   * The entity `normalize_entity` yields: an array becomes a new Entity of
   * kind `e[0]` and id `e[1]`; in both cases the id is replaced by its `to_s`.
   */
  function Normalize(v: ArgValue): (e: Entity)
    ensures e.id.Str?
    ensures v.ArrayValue? ==> e.kind == Element(v.items, 0) && e.id == Str(ToS(Element(v.items, 1)))
    ensures v.EntityValue? ==> e.kind == v.entity.kind && e.id == Str(ToS(v.entity.id))
  {
    var e := match v
      case ArrayValue(items) => Entities.Entity(Element(items, 1), Element(items, 0))
      case EntityValue(entity) => entity;
    e.(id := Str(ToS(e.id)))
  }

  /** Normalising an entity twice changes nothing more: ids are already strings. */
  lemma NormalizeIdempotent(v: ArgValue)
    ensures Normalize(EntityValue(Normalize(v))) == Normalize(v)
  {
  }

  /** An Entity whose id is already a string is left as it is. */
  lemma NormalizeKeepsStrings(e: Entity)
    requires e.id.Str?
    ensures Normalize(EntityValue(e)) == e
  {
  }

  const SameEntitiesMessage: string := "from and to entities cannot be the same"
  const EmptyDataMessage: string := "no associations to be updated"

  /** `different_entities?`: true, or an ArgumentError for an edge from an entity to itself. */
  function DifferentEntities(from: Entity, to: Entity): (r: Result<bool, Error>)
    ensures r.Ok? <==> from.kind != to.kind || from.id != to.id
    ensures r.Ok? ==> r.value
    ensures r.Err? ==> r.error == ArgumentError(SameEntitiesMessage)
  {
    if from.kind == to.kind && from.id == to.id then Err(ArgumentError(SameEntitiesMessage)) else Ok(true)
  }

  /** `empty_data?`: false, or an ArgumentError when there is nothing to update. */
  function EmptyData(data: Json): (r: Result<bool, Error>)
    ensures r.Err? <==> data == EmptyHash
    ensures r.Ok? ==> !r.value
    ensures r.Err? ==> r.error == ArgumentError(EmptyDataMessage)
  {
    if data == EmptyHash then Err(ArgumentError(EmptyDataMessage)) else Ok(false)
  }

  /** The requests one call sends, in order, and what it returns or raises. */
  datatype Step<T> = Step(sent: seq<Request>, result: Result<T, Error>)

  /** One request whose answer is dropped: the call returns true unless the transport raised. */
  function Command(server: Server, trace: seq<Request>, req: Request): (s: Step<bool>)
    ensures s.sent == [req]
    ensures s.result.Ok? <==> server(trace, req).Answered?
    ensures s.result.Ok? ==> s.result.value
    ensures s.result.Err? ==> s.result.error == Exchange(server, trace, req).error
  {
    var answer := Exchange(server, trace, req);
    Step([req], if answer.Ok? then Ok(true) else Err(answer.error))
  }

  /** `create`: a PUT of `data` to the edge, unless from and to are one entity. */
  function CreateSpec(server: Server, trace: seq<Request>, from: ArgValue, kind: Scalar, to: ArgValue,
                      data: Json, now: Time): (s: Step<Association>)
    ensures Normalize(from) == Normalize(to) ==> s == Step([], Err(ArgumentError(SameEntitiesMessage)))
    ensures Normalize(from) != Normalize(to) ==>
      && s.sent == [Request(Put, Paths.ResourcePath(Normalize(from), kind, Normalize(to)), Some(data))]
      && (s.result.Ok? <==> server(trace, s.sent[0]).Answered?)
      && (s.result.Ok? ==> s.result.value == Associations.Association(Normalize(from), Leaf(kind), Some(Normalize(to)), data, Some(now)))
      && (s.result.Err? ==> s.result.error == Exchange(server, trace, s.sent[0]).error)
  {
    var f := Normalize(from);
    var t := Normalize(to);
    match DifferentEntities(f, t)
    case Err(e) => Step([], Err(e))
    case Ok(_) =>
      var req := Request(Put, Paths.ResourcePath(f, kind, t), Some(data));
      var answer := Exchange(server, trace, req);
      Step([req], if answer.Err? then Err(answer.error) else Ok(Associations.Association(f, Leaf(kind), Some(t), data, Some(now))))
  }

  /** `delete`: a DELETE of the edge, unless from and to are one entity. */
  function DeleteSpec(server: Server, trace: seq<Request>, from: ArgValue, kind: Scalar, to: ArgValue): (s: Step<bool>)
    ensures Normalize(from) == Normalize(to) ==> s == Step([], Err(ArgumentError(SameEntitiesMessage)))
    ensures Normalize(from) != Normalize(to) ==>
      s == Command(server, trace, Request(Delete, Paths.ResourcePath(Normalize(from), kind, Normalize(to)), None))
  {
    var f := Normalize(from);
    var t := Normalize(to);
    match DifferentEntities(f, t)
    case Err(e) => Step([], Err(e))
    case Ok(_) => Command(server, trace, Request(Delete, Paths.ResourcePath(f, kind, t), None))
  }

  /** `bulk_delete`: a DELETE of every edge of `kind` from `from` to entities of `bulkKind`. */
  function BulkDeleteSpec(server: Server, trace: seq<Request>, from: ArgValue, kind: Scalar, bulkKind: Scalar): (s: Step<bool>)
    ensures s.sent == [Request(Delete, Paths.CollectionPath(Normalize(from), kind, bulkKind), None)]
    ensures s == Command(server, trace, s.sent[0])
  {
    Command(server, trace, Request(Delete, Paths.CollectionPath(Normalize(from), kind, bulkKind), None))
  }

  /** `update`: a POST of `data` to the edge, with neither argument check. */
  function UpdateSpec(server: Server, trace: seq<Request>, from: ArgValue, kind: Scalar, to: ArgValue, data: Json): (s: Step<bool>)
    ensures s.sent == [Request(Post, Paths.ResourcePath(Normalize(from), kind, Normalize(to)), Some(data))]
    ensures s == Command(server, trace, s.sent[0])
  {
    Command(server, trace, Request(Post, Paths.ResourcePath(Normalize(from), kind, Normalize(to)), Some(data)))
  }

  /** `batch_update` (PATCH) and `bulk_update` (POST) of the collection, unless `data` is `{}`. */
  function MultiUpdateSpec(server: Server, trace: seq<Request>, verb: Verb, from: ArgValue, kind: Scalar, bulkKind: Scalar,
                           data: Json): (s: Step<bool>)
    ensures data == EmptyHash ==> s == Step([], Err(ArgumentError(EmptyDataMessage)))
    ensures data != EmptyHash ==>
      s == Command(server, trace, Request(verb, Paths.CollectionPath(Normalize(from), kind, bulkKind), Some(data)))
  {
    match EmptyData(data)
    case Err(e) => Step([], Err(e))
    case Ok(_) => Command(server, trace, Request(verb, Paths.CollectionPath(Normalize(from), kind, bulkKind), Some(data)))
  }

  /**
   * `fetch`: nil without a request when from and to are one entity; nil
   * when the edge does not exist; otherwise the parsed response.
   */
  function FetchSpec(server: Server, trace: seq<Request>, from: ArgValue, kind: Scalar, to: ArgValue,
                     priority: Option<string>, parse: TimeParser): (s: Step<Option<Association>>)
    ensures Normalize(from) == Normalize(to) ==> s == Step([], Ok(None))
    ensures Normalize(from) != Normalize(to) ==>
      && s.sent == [Request(Get, Paths.FetchPath(Normalize(from), kind, Normalize(to), priority), None)]
      && (server(trace, s.sent[0]).NotFound? ==> s.result == Ok(None))
      && (server(trace, s.sent[0]).Failed? ==> s.result == Err(ClientError))
      && (server(trace, s.sent[0]).Answered? ==>
            s.result == match Associations.FromHash(server(trace, s.sent[0]).body, parse)
                        case Ok(a) => Ok(Some(a))
                        case Err(e) => Err(e))
  {
    var f := Normalize(from);
    var t := Normalize(to);
    if f.kind == t.kind && f.id == t.id then Step([], Ok(None))
    else
      var req := Request(Get, Paths.FetchPath(f, kind, t, priority), None);
      match server(trace, req)
      case NotFound => Step([req], Ok(None))
      case Failed => Step([req], Err(ClientError))
      case Answered(body) =>
        match Associations.FromHash(body, parse)
        case Ok(a) => Step([req], Ok(Some(a)))
        case Err(e) => Step([req], Err(e))
  }

  /** The hash `list` returns: `:cursor` and `:results`. */
  datatype Listing = Listing(cursor: Json, results: seq<Association>)

  /** `response['cursor'] || ''`. */
  function CursorOf(response: Json): (r: Result<Json, Error>)
    ensures r.Ok? <==> Indexable(response)
    ensures r.Ok? ==> Truthy(r.value)
    ensures r.Ok? && Truthy(Lookup(response, "cursor")) ==> r.value == Lookup(response, "cursor")
    ensures r.Ok? && !Truthy(Lookup(response, "cursor")) ==> r.value == Leaf(Str(""))
  {
    var c :- Index(response, "cursor");
    Ok(if Truthy(c) then c else Leaf(Str("")))
  }

  /** `list`: one GET of the collection with the `list` query, and the cursor and associations of the answer. */
  function ListSpec(server: Server, trace: seq<Request>, from: ArgValue, kind: Scalar, bulkKind: Scalar,
                    sort: Scalar, offset: Scalar, limit: Scalar, priority: Option<string>, cursor: Option<string>,
                    parse: TimeParser): (s: Step<Listing>)
    ensures s.sent == [Request(Get, Paths.ListPath(Normalize(from), kind, bulkKind, sort, limit, offset, cursor, priority), None)]
    ensures !server(trace, s.sent[0]).Answered? ==> s.result == Exchange(server, trace, s.sent[0]).PropagateFailure()
    ensures s.result.Ok? ==> server(trace, s.sent[0]).Answered?
    ensures server(trace, s.sent[0]).Answered? ==>
      var body := server(trace, s.sent[0]).body;
      && (s.result.Ok? <==> CursorOf(body).Ok? && Associations.ListOf(body, parse).Ok?)
      && (s.result.Ok? ==> s.result.value == Listing(CursorOf(body).value, Associations.ListOf(body, parse).value))
      && (CursorOf(body).Err? ==> s.result == Err(CursorOf(body).error))
      && (CursorOf(body).Ok? && Associations.ListOf(body, parse).Err? ==> s.result == Err(Associations.ListOf(body, parse).error))
  {
    var req := Request(Get, Paths.ListPath(Normalize(from), kind, bulkKind, sort, limit, offset, cursor, priority), None);
    Step([req],
      var body :- Exchange(server, trace, req);
      var c :- CursorOf(body);
      var results :- Associations.ListOf(body, parse);
      Ok(Listing(c, results)))
  }

  /** `count`: one GET of the collection's count, and the answer's `count`. */
  function CountSpec(server: Server, trace: seq<Request>, from: ArgValue, kind: Scalar, bulkKind: Scalar): (s: Step<Json>)
    ensures s.sent == [Request(Get, Paths.CountPath(Normalize(from), kind, bulkKind), None)]
    ensures s.result.Ok? <==> server(trace, s.sent[0]).Answered? && Indexable(server(trace, s.sent[0]).body)
    ensures s.result.Ok? ==> s.result.value == Lookup(server(trace, s.sent[0]).body, "count")
    ensures !server(trace, s.sent[0]).Answered? ==> s.result == Exchange(server, trace, s.sent[0]).PropagateFailure()
    ensures server(trace, s.sent[0]).Answered? && !Indexable(server(trace, s.sent[0]).body) ==> s.result == Err(TypeMismatch)
  {
    var req := Request(Get, Paths.CountPath(Normalize(from), kind, bulkKind), None);
    Step([req],
      var body :- Exchange(server, trace, req);
      Index(body, "count"))
  }

  /** One element of a batch: `assoc.to_hash` with `'operation' => tag` added. */
  function Operation(tag: string, a: Association): (h: Json)
    ensures h.Hash? && h.fields.Keys == Associations.WireHash(a).Keys + {"operation"}
    ensures h.fields["operation"] == Leaf(Str(tag))
    ensures forall k :: k in Associations.WireHash(a) ==> h.fields[k] == Associations.WireHash(a)[k]
  {
    Hash(Associations.WireHash(a)["operation" := Leaf(Str(tag))])
  }

  /** The body of `batch`: one element per operation, in the caller's order. */
  function BatchBody(ops: seq<(string, Association)>): (items: seq<Json>)
    ensures |items| == |ops|
    ensures forall i :: 0 <= i < |ops| ==> items[i] == Operation(ops[i].0, ops[i].1)
  {
    seq(|ops|, i requires 0 <= i < |ops| => Operation(ops[i].0, ops[i].1))
  }

  /** `batch`: one POST of every operation. */
  function BatchSpec(server: Server, trace: seq<Request>, ops: seq<(string, Association)>): (s: Step<bool>)
    ensures s.sent == [Request(Post, Paths.BatchPath, Some(List(BatchBody(ops))))]
    ensures s == Command(server, trace, s.sent[0])
  {
    Command(server, trace, Request(Post, Paths.BatchPath, Some(List(BatchBody(ops)))))
  }

  /** Normalising one argument and then another reads the second as normalised if both are one object. */
  lemma SecondNormalization(first: Argument, second: Argument, before: ArgValue, after: ArgValue)
    requires second.ObjectArg? && first.ObjectArg? && first.obj == second.obj ==> after == EntityValue(Normalize(before))
    requires !(second.ObjectArg? && first.ObjectArg? && first.obj == second.obj) ==> after == before
    ensures Normalize(after) == Normalize(before)
  {
    NormalizeIdempotent(before);
  }

  /** The path of `list`, extended parameter by parameter as the source does. */
  method ListAddress(f: Entity, kind: Scalar, bulkKind: Scalar, sort: Scalar, offset: Scalar, limit: Scalar,
                     priority: Option<string>, cursor: Option<string>) returns (path: string)
    ensures path == Paths.ListPath(f, kind, bulkKind, sort, limit, offset, cursor, priority)
  {
    var base := Paths.CollectionPath(f, kind, bulkKind);
    path := base + "?sort=" + ToS(sort) + "&limit=" + ToS(limit);
    ghost var ps := [Paths.Param("sort", ToS(sort)), Paths.Param("limit", ToS(limit))];
    Paths.ListQueryStart(base, ToS(sort), ToS(limit));
    Paths.AppendParam(base, ps, offset != Int(0), "&offset=", "offset", ToS(offset));
    if offset != Int(0) {
      path := path + "&offset=" + ToS(offset);
    }
    ps := ps + Paths.Optional(offset != Int(0), Paths.Param("offset", ToS(offset)));
    ghost var cv := if cursor.Some? then cursor.value else "";
    Paths.AppendParam(base, ps, Paths.Present(cursor), "&cursor=", "cursor", cv);
    if cursor.Some? && cursor.value != "" {
      path := path + "&cursor=" + cursor.value;
    }
    ps := ps + Paths.Optional(Paths.Present(cursor), Paths.Param("cursor", cv));
    ghost var pv := if priority.Some? then priority.value else "";
    Paths.AppendParam(base, ps, Paths.Present(priority), "&priority=", "priority", pv);
    if priority.Some? && priority.value != "" {
      path := path + "&priority=" + priority.value;
    }
    ps := ps + Paths.Optional(Paths.Present(priority), Paths.Param("priority", pv));
  }

  class AssociationV1 {
    const client: Client
    /** `DateTime.rfc3339`, which `from_hash` and `list_from_hash` apply to times. */
    const parse: TimeParser

    constructor(client: Client, parse: TimeParser)
      ensures this.client == client && this.parse == parse
    {
      this.client := client;
      this.parse := parse;
    }

    /** `normalize_entity(e)`, which writes the string id back into an Entity argument. */
    method NormalizeEntity(e: Argument) returns (r: Entity)
      modifies Objects(e)
      ensures r == Normalize(old(Snapshot(e)))
      ensures e.ObjectArg? ==> e.obj.value == r
    {
      match e
      case ArrayArg(items) =>
        var created := Entities.Entity(Element(items, 1), Element(items, 0));
        r := created.(id := Str(ToS(created.id)));
      case ObjectArg(obj) =>
        obj.value := obj.value.(id := Str(ToS(obj.value.id)));
        r := obj.value;
    }

    /** Normalises `from` and then `to`, which may be the same object. */
    method NormalizePair(from: Argument, to: Argument) returns (f: Entity, t: Entity)
      modifies Objects(from), Objects(to)
      ensures f == Normalize(old(Snapshot(from))) && t == Normalize(old(Snapshot(to)))
      ensures from.ObjectArg? ==> from.obj.value == f
      ensures to.ObjectArg? ==> to.obj.value == t
    {
      ghost var before := Snapshot(to);
      f := NormalizeEntity(from);
      ghost var after := Snapshot(to);
      SecondNormalization(from, to, before, after);
      t := NormalizeEntity(to);
    }

    method Create(from: Argument, kind: Scalar, to: Argument, data: Json, now: Time) returns (r: Result<Association, Error>)
      modifies client, Objects(from), Objects(to)
      ensures var s := CreateSpec(client.server, old(client.trace), old(Snapshot(from)), kind, old(Snapshot(to)), data, now);
        client.trace == old(client.trace) + s.sent && r == s.result
      ensures from.ObjectArg? ==> from.obj.value == Normalize(old(Snapshot(from)))
      ensures to.ObjectArg? ==> to.obj.value == Normalize(old(Snapshot(to)))
    {
      var f, t := NormalizePair(from, to);
      var different :- DifferentEntities(f, t);
      var body :- client.Send(Request(Put, Paths.ResourcePath(f, kind, t), Some(data)));
      r := Ok(Associations.Association(f, Leaf(kind), Some(t), data, Some(now)));
    }

    method Delete(from: Argument, kind: Scalar, to: Argument) returns (r: Result<bool, Error>)
      modifies client, Objects(from), Objects(to)
      ensures var s := DeleteSpec(client.server, old(client.trace), old(Snapshot(from)), kind, old(Snapshot(to)));
        client.trace == old(client.trace) + s.sent && r == s.result
      ensures from.ObjectArg? ==> from.obj.value == Normalize(old(Snapshot(from)))
      ensures to.ObjectArg? ==> to.obj.value == Normalize(old(Snapshot(to)))
    {
      var f, t := NormalizePair(from, to);
      var different :- DifferentEntities(f, t);
      var body :- client.Send(Request(Verb.Delete, Paths.ResourcePath(f, kind, t), None));
      r := Ok(true);
    }

    method BulkDelete(from: Argument, kind: Scalar, bulkKind: Scalar) returns (r: Result<bool, Error>)
      modifies client, Objects(from)
      ensures var s := BulkDeleteSpec(client.server, old(client.trace), old(Snapshot(from)), kind, bulkKind);
        client.trace == old(client.trace) + s.sent && r == s.result
      ensures from.ObjectArg? ==> from.obj.value == Normalize(old(Snapshot(from)))
    {
      var f := NormalizeEntity(from);
      var body :- client.Send(Request(Verb.Delete, Paths.CollectionPath(f, kind, bulkKind), None));
      r := Ok(true);
    }

    method Update(from: Argument, kind: Scalar, to: Argument, data: Json) returns (r: Result<bool, Error>)
      modifies client, Objects(from), Objects(to)
      ensures var s := UpdateSpec(client.server, old(client.trace), old(Snapshot(from)), kind, old(Snapshot(to)), data);
        client.trace == old(client.trace) + s.sent && r == s.result
      ensures from.ObjectArg? ==> from.obj.value == Normalize(old(Snapshot(from)))
      ensures to.ObjectArg? ==> to.obj.value == Normalize(old(Snapshot(to)))
    {
      var f, t := NormalizePair(from, to);
      var body :- client.Send(Request(Post, Paths.ResourcePath(f, kind, t), Some(data)));
      r := Ok(true);
    }

    /** `batch_update` (PATCH) and `bulk_update` (POST): `from` is normalised only after the data check. */
    method MultiUpdate(verb: Verb, from: Argument, kind: Scalar, bulkKind: Scalar, data: Json) returns (r: Result<bool, Error>)
      modifies client, Objects(from)
      ensures var s := MultiUpdateSpec(client.server, old(client.trace), verb, old(Snapshot(from)), kind, bulkKind, data);
        client.trace == old(client.trace) + s.sent && r == s.result
      ensures from.ObjectArg? ==> from.obj.value == if data == EmptyHash then old(from.obj.value) else Normalize(old(Snapshot(from)))
    {
      var empty :- EmptyData(data);
      var f := NormalizeEntity(from);
      var body :- client.Send(Request(verb, Paths.CollectionPath(f, kind, bulkKind), Some(data)));
      r := Ok(true);
    }

    method BatchUpdate(from: Argument, kind: Scalar, bulkKind: Scalar, data: Json) returns (r: Result<bool, Error>)
      modifies client, Objects(from)
      ensures var s := MultiUpdateSpec(client.server, old(client.trace), Patch, old(Snapshot(from)), kind, bulkKind, data);
        client.trace == old(client.trace) + s.sent && r == s.result
      ensures from.ObjectArg? ==> from.obj.value == if data == EmptyHash then old(from.obj.value) else Normalize(old(Snapshot(from)))
    {
      r := MultiUpdate(Patch, from, kind, bulkKind, data);
    }

    method BulkUpdate(from: Argument, kind: Scalar, bulkKind: Scalar, data: Json) returns (r: Result<bool, Error>)
      modifies client, Objects(from)
      ensures var s := MultiUpdateSpec(client.server, old(client.trace), Post, old(Snapshot(from)), kind, bulkKind, data);
        client.trace == old(client.trace) + s.sent && r == s.result
      ensures from.ObjectArg? ==> from.obj.value == if data == EmptyHash then old(from.obj.value) else Normalize(old(Snapshot(from)))
    {
      r := MultiUpdate(Post, from, kind, bulkKind, data);
    }

    /** `fetch`, building the path and then adding `?priority=` when a priority is present. */
    method Fetch(from: Argument, kind: Scalar, to: Argument, priority: Option<string>) returns (r: Result<Option<Association>, Error>)
      modifies client, Objects(from), Objects(to)
      ensures var s := FetchSpec(client.server, old(client.trace), old(Snapshot(from)), kind, old(Snapshot(to)), priority, parse);
        client.trace == old(client.trace) + s.sent && r == s.result
      ensures from.ObjectArg? ==> from.obj.value == Normalize(old(Snapshot(from)))
      ensures to.ObjectArg? ==> to.obj.value == Normalize(old(Snapshot(to)))
    {
      var f, t := NormalizePair(from, to);
      if f.kind == t.kind && f.id == t.id {
        return Ok(None);
      }
      var path := Paths.ResourcePath(f, kind, t);
      if priority.Some? && priority.value != "" {
        path := path + "?priority=" + priority.value;
      }
      Paths.FetchPathSpelledOut(f, kind, t, priority);
      var response := client.Send(Request(Get, path, None));
      if response.Err? {
        if response.error == ResourceNotFound {
          return Ok(None);
        }
        return Err(response.error);
      }
      var a :- Associations.FromHash(response.value, parse);
      r := Ok(Some(a));
    }

    /** `list`: one GET, then the cursor (`''` when missing) and the parsed associations. */
    method List(from: Argument, kind: Scalar, bulkKind: Scalar, sort: Scalar, offset: Scalar, limit: Scalar,
                priority: Option<string>, cursor: Option<string>) returns (r: Result<Listing, Error>)
      modifies client, Objects(from)
      ensures var s := ListSpec(client.server, old(client.trace), old(Snapshot(from)), kind, bulkKind,
                                sort, offset, limit, priority, cursor, parse);
        client.trace == old(client.trace) + s.sent && r == s.result
      ensures from.ObjectArg? ==> from.obj.value == Normalize(old(Snapshot(from)))
    {
      var f := NormalizeEntity(from);
      var path := ListAddress(f, kind, bulkKind, sort, offset, limit, priority, cursor);
      var response :- client.Send(Request(Get, path, None));
      var next :- CursorOf(response);
      var results :- Associations.ListFromHash(response, parse);
      r := Ok(Listing(next, results));
    }

    method Count(from: Argument, kind: Scalar, bulkKind: Scalar) returns (r: Result<Json, Error>)
      modifies client, Objects(from)
      ensures var s := CountSpec(client.server, old(client.trace), old(Snapshot(from)), kind, bulkKind);
        client.trace == old(client.trace) + s.sent && r == s.result
      ensures from.ObjectArg? ==> from.obj.value == Normalize(old(Snapshot(from)))
    {
      var f := NormalizeEntity(from);
      var response :- client.Send(Request(Get, Paths.CountPath(f, kind, bulkKind), None));
      r := Index(response, "count");
    }

    /** `batch`, appending one element per operation inside the loop. */
    method Batch(ops: seq<(string, Association)>) returns (r: Result<bool, Error>)
      modifies client
      ensures var s := BatchSpec(client.server, old(client.trace), ops);
        client.trace == old(client.trace) + s.sent && r == s.result
    {
      var data: seq<Json> := [];
      var i := 0;
      while i < |ops|
        invariant 0 <= i <= |ops|
        invariant client.trace == old(client.trace)
        invariant |data| == i
        invariant forall j :: 0 <= j < i ==> data[j] == Operation(ops[j].0, ops[j].1)
      {
        var (tag, assoc) := ops[i];
        var oper := Associations.ToHash(assoc);
        oper := oper["operation" := Leaf(Str(tag))];
        data := data + [Hash(oper)];
        i := i + 1;
      }
      assert data == BatchBody(ops);
      var body :- client.Send(Request(Post, Paths.BatchPath, Some(Json.List(data))));
      r := Ok(true);
    }
  }
}
