/**
 * The Hystrix commands of `Cohesion`: each binds the arguments of one
 * `AssociationV1` operation, `Run` performs that operation, and `Execute`
 * returns what `Run` returns or, when it raises, the command's fallback.
 * `client.associations` is modelled by the `api` field itself.
 */
module Commands {
  import opened Wrappers
  import opened Values
  import Associations
  import Paths
  import opened Transport
  import opened ApiV1

  /** Hystrix settings of `CohesionCmd` and of `BulkDeleteAssociationsCmd`; the model records them only. */
  const DefaultTimeoutMs: nat := 500
  const BulkDeleteTimeoutMs: nat := 2000
  const MinRequests: nat := 5

  /** The sort order the `ListAssociationsCmd` constructor keeps: `"desc"` for nil or an empty string. */
  function SortOrDefault(sort: Option<string>): (s: string)
    ensures s != ""
    ensures Paths.Present(sort) ==> s == sort.value
    ensures !Paths.Present(sort) ==> s == "desc"
  {
    if sort.None? || |sort.value| == 0 then "desc" else sort.value
  }

  /** A sort order already chosen is kept by a second constructor. */
  lemma SortOrDefaultIdempotent(sort: Option<string>)
    ensures SortOrDefault(Some(SortOrDefault(sort))) == SortOrDefault(sort)
  {
  }

  /**
   * The association `UpdateAssociationsCmd#run` returns for the fetched
   * association `a` once the update has been sent: its data bag merged with
   * `data['data_bag']` and its kind replaced by `data['new_assoc_kind']`, each
   * only when `data` has that key.
   */
  function Projected(a: Association, data: Json): (r: Result<Association, Error>)
    ensures r.Ok? <==> data.Hash? && ("data_bag" in data.fields ==> a.data.Hash? && data.fields["data_bag"].Hash?)
    ensures r.Ok? ==> r.value.from == a.from && r.value.to == a.to && r.value.time == a.time
    ensures r.Ok? ==> r.value.kind == if "new_assoc_kind" in data.fields then data.fields["new_assoc_kind"] else a.kind
    ensures r.Ok? && "data_bag" !in data.fields ==> r.value.data == a.data
    ensures r.Ok? && "data_bag" in data.fields ==>
      var bag := data.fields["data_bag"].fields;
      && r.value.data.Hash?
      && r.value.data.fields.Keys == a.data.fields.Keys + bag.Keys
      && (forall k :: k in bag ==> r.value.data.fields[k] == bag[k])
      && (forall k :: k in a.data.fields && k !in bag ==> r.value.data.fields[k] == a.data.fields[k])
    ensures data.Hash? && data.fields.Keys !! {"data_bag", "new_assoc_kind"} ==> r == Ok(a)
  {
    var hasBag :- HasKey(data, "data_bag");
    var merged :- if hasBag then Merge(a.data, Lookup(data, "data_bag")) else Ok(a.data);
    Ok(a.(data := merged, kind := if "new_assoc_kind" in data.fields then Lookup(data, "new_assoc_kind") else a.kind))
  }

  /** Merging a bag overwrites the keys it names and keeps the others. */
  lemma ProjectedMergesBag(a: Association)
    requires a.data == Hash(map["update" := Leaf(Bool(false)), "value" := Leaf(Str("val"))])
    ensures Projected(a, Hash(map["data_bag" := Hash(map["update" := Leaf(Bool(true))])]))
         == Ok(a.(data := Hash(map["update" := Leaf(Bool(true)), "value" := Leaf(Str("val"))])))
  {
    var merged := Hash(a.data.fields + map["update" := Leaf(Bool(true))]);
    assert merged.fields == map["update" := Leaf(Bool(true)), "value" := Leaf(Str("val"))];
  }

  /** A new kind and a bag merged into an empty bag, as in one request. */
  lemma ProjectedRenames(a: Association)
    requires a.data == EmptyHash
    ensures Projected(a, Hash(map["data_bag" := Hash(map["update" := Leaf(Bool(true))]),
                                  "new_assoc_kind" := Leaf(Str("hidden_follows"))]))
         == Ok(a.(data := Hash(map["update" := Leaf(Bool(true))]), kind := Leaf(Str("hidden_follows"))))
  {
    var merged := Hash(a.data.fields + map["update" := Leaf(Bool(true))]);
    assert merged.fields == map["update" := Leaf(Bool(true))];
  }

  /**
   * `UpdateAssociationsCmd#run`: a fetch with the default priority; nothing
   * more when it finds no association; otherwise an update with the caller's
   * `data`, and the fetched association as `Projected` makes it.
   */
  function UpdateRunSpec(server: Server, trace: seq<Request>, from: ArgValue, kind: Scalar, to: ArgValue,
                         data: Json, parse: Associations.TimeParser): (s: Step<Option<Association>>)
    ensures var fetch := FetchSpec(server, trace, from, kind, to, Some(""), parse);
      !(fetch.result.Ok? && fetch.result.value.Some?) ==> s == fetch
    ensures var fetch := FetchSpec(server, trace, from, kind, to, Some(""), parse);
      fetch.result.Ok? && fetch.result.value.Some? ==>
        var update := Request(Post, Paths.ResourcePath(Normalize(from), kind, Normalize(to)), Some(data));
        && s.sent == fetch.sent + [update]
        && (s.result.Ok? <==> server(trace + fetch.sent, update).Answered? && Projected(fetch.result.value.value, data).Ok?)
        && (s.result.Ok? ==> s.result.value == Some(Projected(fetch.result.value.value, data).value))
        && (!server(trace + fetch.sent, update).Answered? ==> s.result.error == Exchange(server, trace + fetch.sent, update).error)
        && (server(trace + fetch.sent, update).Answered? && Projected(fetch.result.value.value, data).Err? ==>
              s.result == Err(Projected(fetch.result.value.value, data).error))
  {
    var fetch := FetchSpec(server, trace, from, kind, to, Some(""), parse);
    if !(fetch.result.Ok? && fetch.result.value.Some?) then fetch
    else
      var update := UpdateSpec(server, trace + fetch.sent, from, kind, to, data);
      Step(fetch.sent + update.sent,
        var done :- update.result;
        var b :- Projected(fetch.result.value.value, data);
        Ok(Some(b)))
  }

  class FetchAssociationCmd {
    const api: AssociationV1
    var from: Argument
    var assocKind: Scalar
    var to: Argument
    var priority: Option<string>

    constructor(api: AssociationV1, from: Argument, assocKind: Scalar, to: Argument, priority: Option<string>)
      ensures this.api == api && this.from == from && this.assocKind == assocKind && this.to == to && this.priority == priority
    {
      this.api := api;
      this.from := from;
      this.assocKind := assocKind;
      this.to := to;
      this.priority := priority;
    }

    method Run() returns (r: Result<Option<Association>, Error>)
      modifies api.client, Objects(from), Objects(to)
      ensures from.ObjectArg? ==> from.obj.value == Normalize(old(Snapshot(from)))
      ensures to.ObjectArg? ==> to.obj.value == Normalize(old(Snapshot(to)))
      ensures var s := FetchSpec(api.client.server, old(api.client.trace), old(Snapshot(from)), assocKind, old(Snapshot(to)), priority, api.parse);
        api.client.trace == old(api.client.trace) + s.sent && r == s.result
    {
      r := api.Fetch(from, assocKind, to, priority);
    }

    /** The same value whatever `error` is. */
    function Fallback(error: Error): (v: Option<Association>)
      ensures v == None
    {
      None
    }

    method Execute() returns (v: Option<Association>)
      modifies api.client, Objects(from), Objects(to)
      ensures from.ObjectArg? ==> from.obj.value == Normalize(old(Snapshot(from)))
      ensures to.ObjectArg? ==> to.obj.value == Normalize(old(Snapshot(to)))
      ensures var s := FetchSpec(api.client.server, old(api.client.trace), old(Snapshot(from)), assocKind, old(Snapshot(to)), priority, api.parse);
        && api.client.trace == old(api.client.trace) + s.sent
        && (s.result.Ok? ==> v == s.result.value)
        && (s.result.Err? ==> v == None)
    {
      var r := Run();
      v := if r.Ok? then r.value else Fallback(r.error);
    }
  }

  class ListAssociationsCmd {
    const api: AssociationV1
    var from: Argument
    var assocKind: Scalar
    var bulkKind: Scalar
    var limit: Scalar
    var offset: Scalar
    var priority: Option<string>
    var sort: string
    var cursor: Option<string>

    constructor(api: AssociationV1, from: Argument, assocKind: Scalar, bulkKind: Scalar, limit: Scalar, offset: Scalar,
                priority: Option<string>, sort: Option<string>, cursor: Option<string>)
      ensures this.api == api && this.from == from && this.assocKind == assocKind && this.bulkKind == bulkKind
      ensures this.limit == limit && this.offset == offset && this.priority == priority && this.cursor == cursor
      ensures this.sort == SortOrDefault(sort)
    {
      this.api := api;
      this.from := from;
      this.assocKind := assocKind;
      this.bulkKind := bulkKind;
      this.limit := limit;
      this.offset := offset;
      this.priority := priority;
      var chosen := sort;
      if chosen.None? || |chosen.value| == 0 {
        chosen := Some("desc");
      }
      this.sort := chosen.value;
      this.cursor := cursor;
    }

    method Run() returns (r: Result<Listing, Error>)
      modifies api.client, Objects(from)
      ensures from.ObjectArg? ==> from.obj.value == Normalize(old(Snapshot(from)))
      ensures var s := ListSpec(api.client.server, old(api.client.trace), old(Snapshot(from)), assocKind, bulkKind,
                                Str(sort), offset, limit, priority, cursor, api.parse);
        api.client.trace == old(api.client.trace) + s.sent && r == s.result
    {
      r := api.List(from, assocKind, bulkKind, Str(sort), offset, limit, priority, cursor);
    }

    /** The same value whatever `error` is. */
    function Fallback(error: Error): (v: Listing)
      ensures v == Listing(Leaf(Str("")), [])
    {
      Listing(Leaf(Str("")), [])
    }

    method Execute() returns (v: Listing)
      modifies api.client, Objects(from)
      ensures from.ObjectArg? ==> from.obj.value == Normalize(old(Snapshot(from)))
      ensures var s := ListSpec(api.client.server, old(api.client.trace), old(Snapshot(from)), assocKind, bulkKind,
                                Str(sort), offset, limit, priority, cursor, api.parse);
        && api.client.trace == old(api.client.trace) + s.sent
        && (s.result.Ok? ==> v == s.result.value)
        && (s.result.Err? ==> v == Listing(Leaf(Str("")), []))
    {
      var r := Run();
      v := if r.Ok? then r.value else Fallback(r.error);
    }
  }

  class CreateAssociationCmd {
    const api: AssociationV1
    var from: Argument
    var assocKind: Scalar
    var to: Argument
    var data: Json

    constructor(api: AssociationV1, from: Argument, assocKind: Scalar, to: Argument, data: Json)
      ensures this.api == api && this.from == from && this.assocKind == assocKind && this.to == to && this.data == data
    {
      this.api := api;
      this.from := from;
      this.assocKind := assocKind;
      this.to := to;
      this.data := data;
    }

    method Run(now: Associations.Time) returns (r: Result<Association, Error>)
      modifies api.client, Objects(from), Objects(to)
      ensures from.ObjectArg? ==> from.obj.value == Normalize(old(Snapshot(from)))
      ensures to.ObjectArg? ==> to.obj.value == Normalize(old(Snapshot(to)))
      ensures var s := CreateSpec(api.client.server, old(api.client.trace), old(Snapshot(from)), assocKind, old(Snapshot(to)), data, now);
        api.client.trace == old(api.client.trace) + s.sent && r == s.result
    {
      r := api.Create(from, assocKind, to, data, now);
    }

    /** The same value whatever `error` is. */
    function Fallback(error: Error): (v: Option<Association>)
      ensures v == None
    {
      None
    }

    method Execute(now: Associations.Time) returns (v: Option<Association>)
      modifies api.client, Objects(from), Objects(to)
      ensures from.ObjectArg? ==> from.obj.value == Normalize(old(Snapshot(from)))
      ensures to.ObjectArg? ==> to.obj.value == Normalize(old(Snapshot(to)))
      ensures var s := CreateSpec(api.client.server, old(api.client.trace), old(Snapshot(from)), assocKind, old(Snapshot(to)), data, now);
        && api.client.trace == old(api.client.trace) + s.sent
        && (s.result.Ok? ==> v == Some(s.result.value))
        && (s.result.Err? ==> v == None)
    {
      var r := Run(now);
      v := if r.Ok? then Some(r.value) else Fallback(r.error);
    }
  }

  class DeleteAssociationCmd {
    const api: AssociationV1
    var from: Argument
    var assocKind: Scalar
    var to: Argument

    constructor(api: AssociationV1, from: Argument, assocKind: Scalar, to: Argument)
      ensures this.api == api && this.from == from && this.assocKind == assocKind && this.to == to
    {
      this.api := api;
      this.from := from;
      this.assocKind := assocKind;
      this.to := to;
    }

    method Run() returns (r: Result<bool, Error>)
      modifies api.client, Objects(from), Objects(to)
      ensures from.ObjectArg? ==> from.obj.value == Normalize(old(Snapshot(from)))
      ensures to.ObjectArg? ==> to.obj.value == Normalize(old(Snapshot(to)))
      ensures var s := DeleteSpec(api.client.server, old(api.client.trace), old(Snapshot(from)), assocKind, old(Snapshot(to)));
        api.client.trace == old(api.client.trace) + s.sent && r == s.result
    {
      r := api.Delete(from, assocKind, to);
    }

    /** The same value whatever `error` is. */
    function Fallback(error: Error): (v: bool)
      ensures v == false
    {
      false
    }

    method Execute() returns (v: bool)
      modifies api.client, Objects(from), Objects(to)
      ensures from.ObjectArg? ==> from.obj.value == Normalize(old(Snapshot(from)))
      ensures to.ObjectArg? ==> to.obj.value == Normalize(old(Snapshot(to)))
      ensures var s := DeleteSpec(api.client.server, old(api.client.trace), old(Snapshot(from)), assocKind, old(Snapshot(to)));
        && api.client.trace == old(api.client.trace) + s.sent
        && (v <==> s.result.Ok?)
    {
      var r := Run();
      v := if r.Ok? then r.value else Fallback(r.error);
    }
  }

  class BulkDeleteAssociationsCmd {
    const api: AssociationV1
    var from: Argument
    var assocKind: Scalar
    var bulkKind: Scalar

    constructor(api: AssociationV1, from: Argument, assocKind: Scalar, bulkKind: Scalar)
      ensures this.api == api && this.from == from && this.assocKind == assocKind && this.bulkKind == bulkKind
    {
      this.api := api;
      this.from := from;
      this.assocKind := assocKind;
      this.bulkKind := bulkKind;
    }

    method Run() returns (r: Result<bool, Error>)
      modifies api.client, Objects(from)
      ensures from.ObjectArg? ==> from.obj.value == Normalize(old(Snapshot(from)))
      ensures var s := BulkDeleteSpec(api.client.server, old(api.client.trace), old(Snapshot(from)), assocKind, bulkKind);
        api.client.trace == old(api.client.trace) + s.sent && r == s.result
    {
      r := api.BulkDelete(from, assocKind, bulkKind);
    }

    /** The same value whatever `error` is. */
    function Fallback(error: Error): (v: bool)
      ensures v == false
    {
      false
    }

    method Execute() returns (v: bool)
      modifies api.client, Objects(from)
      ensures from.ObjectArg? ==> from.obj.value == Normalize(old(Snapshot(from)))
      ensures var s := BulkDeleteSpec(api.client.server, old(api.client.trace), old(Snapshot(from)), assocKind, bulkKind);
        && api.client.trace == old(api.client.trace) + s.sent
        && (v <==> s.result.Ok?)
    {
      var r := Run();
      v := if r.Ok? then r.value else Fallback(r.error);
    }
  }

  class UpdateAssociationsCmd {
    const api: AssociationV1
    var from: Argument
    var assocKind: Scalar
    var to: Argument
    var data: Json

    constructor(api: AssociationV1, from: Argument, assocKind: Scalar, to: Argument, data: Json)
      ensures this.api == api && this.from == from && this.assocKind == assocKind && this.to == to && this.data == data
    {
      this.api := api;
      this.from := from;
      this.to := to;
      this.assocKind := assocKind;
      this.data := data;
    }

    /** The fetch normalises the arguments in place; the update then sees the same entities. */
    method Run() returns (r: Result<Option<Association>, Error>)
      modifies api.client, Objects(from), Objects(to)
      ensures from.ObjectArg? ==> from.obj.value == Normalize(old(Snapshot(from)))
      ensures to.ObjectArg? ==> to.obj.value == Normalize(old(Snapshot(to)))
      ensures var s := UpdateRunSpec(api.client.server, old(api.client.trace), old(Snapshot(from)), assocKind, old(Snapshot(to)), data, api.parse);
        api.client.trace == old(api.client.trace) + s.sent && r == s.result
    {
      ghost var trace0, from0, to0 := api.client.trace, Snapshot(from), Snapshot(to);
      ghost var fetch := FetchSpec(api.client.server, trace0, from0, assocKind, to0, Some(""), api.parse);
      var found :- api.Fetch(from, assocKind, to, Some(""));
      if found.None? {
        return Ok(None);
      }
      NormalizeIdempotent(from0);
      NormalizeIdempotent(to0);
      ghost var update := UpdateSpec(api.client.server, trace0 + fetch.sent, from0, assocKind, to0, data);
      assert UpdateSpec(api.client.server, trace0 + fetch.sent, Snapshot(from), assocKind, Snapshot(to), data) == update;
      var updated :- api.Update(from, assocKind, to, data);
      assert api.client.trace == trace0 + (fetch.sent + update.sent);
      var a := found.value;
      var hasBag :- HasKey(data, "data_bag");
      if hasBag {
        var merged :- Merge(a.data, Lookup(data, "data_bag"));
        a := a.(data := merged);
      }
      if "new_assoc_kind" in data.fields {
        a := a.(kind := Lookup(data, "new_assoc_kind"));
      }
      r := Ok(Some(a));
    }

    /** The same value whatever `error` is. */
    function Fallback(error: Error): (v: Option<Association>)
      ensures v == None
    {
      None
    }

    method Execute() returns (v: Option<Association>)
      modifies api.client, Objects(from), Objects(to)
      ensures from.ObjectArg? ==> from.obj.value == Normalize(old(Snapshot(from)))
      ensures to.ObjectArg? ==> to.obj.value == Normalize(old(Snapshot(to)))
      ensures var s := UpdateRunSpec(api.client.server, old(api.client.trace), old(Snapshot(from)), assocKind, old(Snapshot(to)), data, api.parse);
        && api.client.trace == old(api.client.trace) + s.sent
        && (s.result.Ok? ==> v == s.result.value)
        && (s.result.Err? ==> v == None)
    {
      var r := Run();
      v := if r.Ok? then r.value else Fallback(r.error);
    }
  }

  /** `BatchUpdateAssociationsCmd`: its fallback is the one `MultiUpdateCmd` gives it. */
  class BatchUpdateAssociationsCmd {
    const api: AssociationV1
    var from: Argument
    var assocKind: Scalar
    var bulkKind: Scalar
    var data: Json

    constructor(api: AssociationV1, from: Argument, assocKind: Scalar, bulkKind: Scalar, data: Json)
      ensures this.api == api && this.from == from && this.assocKind == assocKind && this.bulkKind == bulkKind && this.data == data
    {
      this.api := api;
      this.from := from;
      this.bulkKind := bulkKind;
      this.assocKind := assocKind;
      this.data := data;
    }

    method Run() returns (r: Result<bool, Error>)
      modifies api.client, Objects(from)
      ensures from.ObjectArg? ==> from.obj.value == if data == EmptyHash then old(from.obj.value) else Normalize(old(Snapshot(from)))
      ensures var s := MultiUpdateSpec(api.client.server, old(api.client.trace), Patch, old(Snapshot(from)), assocKind, bulkKind, data);
        api.client.trace == old(api.client.trace) + s.sent && r == s.result
    {
      r := api.BatchUpdate(from, assocKind, bulkKind, data);
    }

    /** The same value whatever `error` is. */
    function Fallback(error: Error): (v: bool)
      ensures v == false
    {
      false
    }

    method Execute() returns (v: bool)
      modifies api.client, Objects(from)
      ensures from.ObjectArg? ==> from.obj.value == if data == EmptyHash then old(from.obj.value) else Normalize(old(Snapshot(from)))
      ensures var s := MultiUpdateSpec(api.client.server, old(api.client.trace), Patch, old(Snapshot(from)), assocKind, bulkKind, data);
        && api.client.trace == old(api.client.trace) + s.sent
        && (v <==> s.result.Ok?)
    {
      var r := Run();
      v := if r.Ok? then r.value else Fallback(r.error);
    }
  }

  /** `BulkUpdateAssociationsCmd`: its fallback is the one `MultiUpdateCmd` gives it. */
  class BulkUpdateAssociationsCmd {
    const api: AssociationV1
    var from: Argument
    var assocKind: Scalar
    var bulkKind: Scalar
    var data: Json

    constructor(api: AssociationV1, from: Argument, assocKind: Scalar, bulkKind: Scalar, data: Json)
      ensures this.api == api && this.from == from && this.assocKind == assocKind && this.bulkKind == bulkKind && this.data == data
    {
      this.api := api;
      this.from := from;
      this.bulkKind := bulkKind;
      this.assocKind := assocKind;
      this.data := data;
    }

    method Run() returns (r: Result<bool, Error>)
      modifies api.client, Objects(from)
      ensures from.ObjectArg? ==> from.obj.value == if data == EmptyHash then old(from.obj.value) else Normalize(old(Snapshot(from)))
      ensures var s := MultiUpdateSpec(api.client.server, old(api.client.trace), Post, old(Snapshot(from)), assocKind, bulkKind, data);
        api.client.trace == old(api.client.trace) + s.sent && r == s.result
    {
      r := api.BulkUpdate(from, assocKind, bulkKind, data);
    }

    /** The same value whatever `error` is. */
    function Fallback(error: Error): (v: bool)
      ensures v == false
    {
      false
    }

    method Execute() returns (v: bool)
      modifies api.client, Objects(from)
      ensures from.ObjectArg? ==> from.obj.value == if data == EmptyHash then old(from.obj.value) else Normalize(old(Snapshot(from)))
      ensures var s := MultiUpdateSpec(api.client.server, old(api.client.trace), Post, old(Snapshot(from)), assocKind, bulkKind, data);
        && api.client.trace == old(api.client.trace) + s.sent
        && (v <==> s.result.Ok?)
    {
      var r := Run();
      v := if r.Ok? then r.value else Fallback(r.error);
    }
  }

  class CountAssociationsCmd {
    const api: AssociationV1
    var from: Argument
    var assocKind: Scalar
    var bulkKind: Scalar

    constructor(api: AssociationV1, from: Argument, assocKind: Scalar, bulkKind: Scalar)
      ensures this.api == api && this.from == from && this.assocKind == assocKind && this.bulkKind == bulkKind
    {
      this.api := api;
      this.from := from;
      this.assocKind := assocKind;
      this.bulkKind := bulkKind;
    }

    method Run() returns (r: Result<Json, Error>)
      modifies api.client, Objects(from)
      ensures from.ObjectArg? ==> from.obj.value == Normalize(old(Snapshot(from)))
      ensures var s := CountSpec(api.client.server, old(api.client.trace), old(Snapshot(from)), assocKind, bulkKind);
        api.client.trace == old(api.client.trace) + s.sent && r == s.result
    {
      r := api.Count(from, assocKind, bulkKind);
    }

    /** The same value whatever `error` is. */
    function Fallback(error: Error): (v: Json)
      ensures v == Leaf(Int(0))
    {
      Leaf(Int(0))
    }

    method Execute() returns (v: Json)
      modifies api.client, Objects(from)
      ensures from.ObjectArg? ==> from.obj.value == Normalize(old(Snapshot(from)))
      ensures var s := CountSpec(api.client.server, old(api.client.trace), old(Snapshot(from)), assocKind, bulkKind);
        && api.client.trace == old(api.client.trace) + s.sent
        && (s.result.Ok? ==> v == s.result.value)
        && (s.result.Err? ==> v == Leaf(Int(0)))
    {
      var r := Run();
      v := if r.Ok? then r.value else Fallback(r.error);
    }
  }
}
