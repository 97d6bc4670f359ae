/**
 * The REST addresses `AssociationV1` builds: the resource path of one edge,
 * the collection path of all edges of a kind, and the query strings of
 * `fetch` and `list`. Next to them sit the readers a server would apply
 * (cut at the first `?`, split the path at `/`, the query at `&` and each
 * parameter at its first `=`), used to state that nothing is lost or mixed up.
 */
module Paths {
  import opened Wrappers
  import opened Values
  import Text
  import Entities

  type Entity = Entities.Entity

  /** The components every association address starts with. */
  const Root: seq<string> := ["", "v1", "associations"]

  /** `/v1/associations/{from.kind}/{from.id}/{kind}/{to.kind}/{to.id}` */
  function ResourceSegments(from: Entity, kind: Scalar, to: Entity): seq<string>
  {
    Root + [ToS(from.kind), ToS(from.id), ToS(kind), ToS(to.kind), ToS(to.id)]
  }

  /** `/v1/associations/{from.kind}/{from.id}/{kind}/{bulk_kind}` */
  function CollectionSegments(from: Entity, kind: Scalar, bulkKind: Scalar): seq<string>
  {
    Root + [ToS(from.kind), ToS(from.id), ToS(kind), ToS(bulkKind)]
  }

  function ResourcePath(from: Entity, kind: Scalar, to: Entity): string
  {
    Text.Join(ResourceSegments(from, kind, to), '/')
  }

  function CollectionPath(from: Entity, kind: Scalar, bulkKind: Scalar): string
  {
    Text.Join(CollectionSegments(from, kind, bulkKind), '/')
  }

  function CountPath(from: Entity, kind: Scalar, bulkKind: Scalar): string
  {
    Text.Join(CollectionSegments(from, kind, bulkKind) + ["count"], '/')
  }

  const BatchPath: string := "/v1/associations/batch"

  lemma RootJoined()
    ensures Text.Join(Root, '/') + "/" == "/v1/associations/"
  {
    assert Root[1..] == ["v1", "associations"];
    assert Root[1..][1..] == ["associations"];
  }

  /** The joined components are the string the source interpolates. */
  lemma {:induction false} ResourcePathSpelledOut(from: Entity, kind: Scalar, to: Entity)
    ensures ResourcePath(from, kind, to)
         == "/v1/associations/" + ToS(from.kind) + "/" + ToS(from.id) + "/" + ToS(kind) + "/" + ToS(to.kind) + "/" + ToS(to.id)
  {
    var p1 := Root + [ToS(from.kind)];
    var p2 := p1 + [ToS(from.id)];
    var p3 := p2 + [ToS(kind)];
    var p4 := p3 + [ToS(to.kind)];
    var p5 := p4 + [ToS(to.id)];
    RootJoined();
    Text.JoinAppend(Root, ToS(from.kind), '/');
    Text.JoinAppend(p1, ToS(from.id), '/');
    Text.JoinAppend(p2, ToS(kind), '/');
    Text.JoinAppend(p3, ToS(to.kind), '/');
    Text.JoinAppend(p4, ToS(to.id), '/');
    assert p5 == ResourceSegments(from, kind, to);
  }

  lemma {:induction false} CollectionPathSpelledOut(from: Entity, kind: Scalar, bulkKind: Scalar)
    ensures CollectionPath(from, kind, bulkKind)
         == "/v1/associations/" + ToS(from.kind) + "/" + ToS(from.id) + "/" + ToS(kind) + "/" + ToS(bulkKind)
    ensures CountPath(from, kind, bulkKind) == CollectionPath(from, kind, bulkKind) + "/count"
  {
    var p1 := Root + [ToS(from.kind)];
    var p2 := p1 + [ToS(from.id)];
    var p3 := p2 + [ToS(kind)];
    var p4 := p3 + [ToS(bulkKind)];
    RootJoined();
    Text.JoinAppend(Root, ToS(from.kind), '/');
    Text.JoinAppend(p1, ToS(from.id), '/');
    Text.JoinAppend(p2, ToS(kind), '/');
    Text.JoinAppend(p3, ToS(bulkKind), '/');
    assert p4 == CollectionSegments(from, kind, bulkKind);
    Text.JoinAppend(p4, "count", '/');
  }

  // ---------------------------------------------------------------- queries

  datatype Param = Param(key: string, value: string)

  /** `key=value`, one per parameter. */
  function Render(ps: seq<Param>): (items: seq<string>)
    ensures |items| == |ps|
    ensures forall i :: 0 <= i < |ps| ==> items[i] == ps[i].key + "=" + ps[i].value
  {
    if ps == [] then [] else [ps[0].key + "=" + ps[0].value] + Render(ps[1..])
  }

  /** Empty for no parameters, otherwise `?` and the parameters joined by `&`. */
  function QueryString(ps: seq<Param>): string
  {
    if ps == [] then "" else "?" + Text.Join(Render(ps), '&')
  }

  /** A non-nil, non-empty string argument (`!x.nil? && !x.empty?`). */
  predicate Present(x: Option<string>)
  {
    x.Some? && x.value != ""
  }

  /** Position of each `list` parameter in the query; 5 for any other key. */
  function Rank(key: string): nat
  {
    if key == "sort" then 0
    else if key == "limit" then 1
    else if key == "offset" then 2
    else if key == "cursor" then 3
    else if key == "priority" then 4
    else 5
  }

  /** The value of the first parameter named `key`. */
  function Find(ps: seq<Param>, key: string): Option<string>
  {
    if ps == [] then None else if ps[0].key == key then Some(ps[0].value) else Find(ps[1..], key)
  }

  lemma {:induction false} FindAppend(ps: seq<Param>, qs: seq<Param>, key: string)
    ensures Find(ps + qs, key) == if Find(ps, key).Some? then Find(ps, key) else Find(qs, key)
  {
    if ps != [] {
      assert (ps + qs)[0] == ps[0];
      assert (ps + qs)[1..] == ps[1..] + qs;
      FindAppend(ps[1..], qs, key);
    } else {
      assert ps + qs == qs;
    }
  }

  function Optional(wanted: bool, p: Param): seq<Param>
  {
    if wanted then [p] else []
  }

  lemma FindOptional(wanted: bool, p: Param, key: string)
    ensures Find(Optional(wanted, p), key) == if wanted && p.key == key then Some(p.value) else None
  {
    if wanted {
      assert Optional(wanted, p)[1..] == [];
    }
  }

  lemma FindPast(a: Param, b: Param, key: string)
    requires a.key != key && b.key != key
    ensures Find([a, b], key) == None
  {
    var t := [b];
    assert t[1..] == [];
    assert Find(t, key) == None;
    assert [a, b][1..] == t;
  }

  lemma {:induction false} FindList(fixed: seq<Param>, o: seq<Param>, c: seq<Param>, p: seq<Param>, key: string)
    requires Find(fixed, key) == None
    ensures Find(fixed + o + c + p, key)
         == if Find(o, key).Some? then Find(o, key) else if Find(c, key).Some? then Find(c, key) else Find(p, key)
  {
    FindAppend(fixed + o + c, p, key);
    FindAppend(fixed + o, c, key);
    FindAppend(fixed, o, key);
  }

  /** Each parameter's key ranks strictly after the keys before it. */
  predicate Ascending(ps: seq<Param>)
  {
    forall i, j :: 0 <= i < j < |ps| ==> Rank(ps[i].key) < Rank(ps[j].key)
  }

  lemma AscendingAppend(ps: seq<Param>, qs: seq<Param>, bound: nat)
    requires Ascending(ps) && Ascending(qs)
    requires forall i :: 0 <= i < |ps| ==> Rank(ps[i].key) < bound
    requires forall j :: 0 <= j < |qs| ==> bound <= Rank(qs[j].key)
    ensures Ascending(ps + qs)
  {
    forall i, j | 0 <= i < j < |ps + qs| ensures Rank((ps + qs)[i].key) < Rank((ps + qs)[j].key) {
      if j < |ps| {
        assert (ps + qs)[i] == ps[i] && (ps + qs)[j] == ps[j];
      } else if i < |ps| {
        assert (ps + qs)[i] == ps[i] && (ps + qs)[j] == qs[j - |ps|];
      } else {
        assert (ps + qs)[i] == qs[i - |ps|] && (ps + qs)[j] == qs[j - |ps|];
      }
    }
  }

  /**
   * The parameters of a `list` query: `sort` and `limit` always, `offset`
   * unless it is 0, `cursor` and `priority` only when present, in this order.
   */
  function ListParams(sort: Scalar, limit: Scalar, offset: Scalar, cursor: Option<string>, priority: Option<string>): (ps: seq<Param>)
    ensures |ps| >= 2 && ps[0] == Param("sort", ToS(sort)) && ps[1] == Param("limit", ToS(limit))
  {
    [Param("sort", ToS(sort)), Param("limit", ToS(limit))]
    + Optional(offset != Int(0), Param("offset", ToS(offset)))
    + Optional(Present(cursor), Param("cursor", if cursor.Some? then cursor.value else ""))
    + Optional(Present(priority), Param("priority", if priority.Some? then priority.value else ""))
  }

  lemma OptionalRanked(wanted: bool, p: Param, r: nat)
    requires Rank(p.key) == r
    ensures Ascending(Optional(wanted, p))
    ensures forall i :: 0 <= i < |Optional(wanted, p)| ==> Rank(Optional(wanted, p)[i].key) == r
  {
  }

  /** Every key of `ps` ranks below `bound`. */
  predicate RankedBelow(ps: seq<Param>, bound: nat)
  {
    forall i :: 0 <= i < |ps| ==> Rank(ps[i].key) < bound
  }

  lemma {:induction false} Extend(ps: seq<Param>, wanted: bool, p: Param, bound: nat)
    requires Ascending(ps) && RankedBelow(ps, bound)
    requires Rank(p.key) == bound
    ensures Ascending(ps + Optional(wanted, p)) && RankedBelow(ps + Optional(wanted, p), bound + 1)
  {
    OptionalRanked(wanted, p, bound);
    AscendingAppend(ps, Optional(wanted, p), bound);
    var qs := ps + Optional(wanted, p);
    forall i | 0 <= i < |qs| ensures Rank(qs[i].key) < bound + 1 {
      if i >= |ps| {
        assert qs[i] == p;
      } else {
        assert qs[i] == ps[i];
      }
    }
  }

  /** The keys of a `list` query come in the fixed order sort, limit, offset, cursor, priority, each at most once. */
  lemma {:induction false} ListParamsOrdered(sort: Scalar, limit: Scalar, offset: Scalar, cursor: Option<string>, priority: Option<string>)
    ensures Ascending(ListParams(sort, limit, offset, cursor, priority))
    ensures RankedBelow(ListParams(sort, limit, offset, cursor, priority), 5)
  {
    var fixed := [Param("sort", ToS(sort)), Param("limit", ToS(limit))];
    assert Ascending(fixed) && RankedBelow(fixed, 2);
    var o := Param("offset", ToS(offset));
    var c := Param("cursor", if cursor.Some? then cursor.value else "");
    var p := Param("priority", if priority.Some? then priority.value else "");
    Extend(fixed, offset != Int(0), o, 2);
    var s1 := fixed + Optional(offset != Int(0), o);
    Extend(s1, Present(cursor), c, 3);
    var s2 := s1 + Optional(Present(cursor), c);
    Extend(s2, Present(priority), p, 4);
  }

  /** `offset` is sent unless it is 0, `cursor` and `priority` only when present, each with its value. */
  lemma ListParamsValues(sort: Scalar, limit: Scalar, offset: Scalar, cursor: Option<string>, priority: Option<string>)
    ensures var ps := ListParams(sort, limit, offset, cursor, priority);
      && Find(ps, "sort") == Some(ToS(sort))
      && Find(ps, "limit") == Some(ToS(limit))
      && Find(ps, "offset") == (if offset != Int(0) then Some(ToS(offset)) else None)
      && Find(ps, "cursor") == (if Present(cursor) then Some(cursor.value) else None)
      && Find(ps, "priority") == (if Present(priority) then Some(priority.value) else None)
  {
    var fixed := [Param("sort", ToS(sort)), Param("limit", ToS(limit))];
    var po := Param("offset", ToS(offset));
    var pc := Param("cursor", if cursor.Some? then cursor.value else "");
    var pp := Param("priority", if priority.Some? then priority.value else "");
    var o := Optional(offset != Int(0), po);
    var c := Optional(Present(cursor), pc);
    var p := Optional(Present(priority), pp);
    var ps := fixed + o + c + p;
    assert ps[0] == fixed[0];
    assert ps[1..][0] == fixed[1];
    FindList(fixed, o, c, p, "offset") by { FindPast(fixed[0], fixed[1], "offset"); }
    FindList(fixed, o, c, p, "cursor") by { FindPast(fixed[0], fixed[1], "cursor"); }
    FindList(fixed, o, c, p, "priority") by { FindPast(fixed[0], fixed[1], "priority"); }
    FindOptional(offset != Int(0), po, "offset");
    FindOptional(Present(cursor), pc, "offset");
    FindOptional(Present(priority), pp, "offset");
    FindOptional(offset != Int(0), po, "cursor");
    FindOptional(Present(cursor), pc, "cursor");
    FindOptional(Present(priority), pp, "cursor");
    FindOptional(offset != Int(0), po, "priority");
    FindOptional(Present(cursor), pc, "priority");
    FindOptional(Present(priority), pp, "priority");
  }

  /** The parameters of a `fetch` query: `priority` when present, nothing otherwise. */
  function FetchParams(priority: Option<string>): (ps: seq<Param>)
    ensures Find(ps, "priority") == if Present(priority) then Some(priority.value) else None
    ensures forall i :: 0 <= i < |ps| ==> ps[i].key == "priority"
  {
    if Present(priority) then [Param("priority", priority.value)] else []
  }

  function ListPath(from: Entity, kind: Scalar, bulkKind: Scalar, sort: Scalar, limit: Scalar, offset: Scalar,
                    cursor: Option<string>, priority: Option<string>): string
  {
    CollectionPath(from, kind, bulkKind) + QueryString(ListParams(sort, limit, offset, cursor, priority))
  }

  function FetchPath(from: Entity, kind: Scalar, to: Entity, priority: Option<string>): string
  {
    ResourcePath(from, kind, to) + QueryString(FetchParams(priority))
  }

  // ---------------------------------------------------------------- reading back

  /** `s` cut before its first `c`; the second part starts with `c` unless `c` does not occur. */
  function Cut(s: string, c: char): (r: (string, string))
    ensures r.0 + r.1 == s
    ensures c !in r.0
    ensures r.1 == [] || r.1[0] == c
  {
    if s == [] then ([], [])
    else if s[0] == c then ([], s)
    else
      var rest := Cut(s[1..], c);
      assert [s[0]] + rest.0 + rest.1 == s;
      ([s[0]] + rest.0, rest.1)
  }

  lemma {:induction false} CutAt(a: string, b: string, c: char)
    requires c !in a
    requires b == [] || b[0] == c
    ensures Cut(a + b, c) == (a, b)
  {
    if a != [] {
      assert (a + b)[0] == a[0];
      assert (a + b)[1..] == a[1..] + b;
      CutAt(a[1..], b, c);
      assert [a[0]] + a[1..] == a;
    } else {
      assert a + b == b;
    }
  }

  /** A `key=value` item, split at its first `=`. */
  function DecodeParam(item: string): Option<Param>
  {
    var (k, rest) := Cut(item, '=');
    if rest == [] then None else Some(Param(k, rest[1..]))
  }

  function DecodeParams(items: seq<string>): Option<seq<Param>>
  {
    if items == [] then Some([])
    else
      var p :- DecodeParam(items[0]);
      var ps :- DecodeParams(items[1..]);
      Some([p] + ps)
  }

  /** Reads a query string back: empty, or `?` followed by `&`-separated parameters. */
  function DecodeQuery(q: string): Option<seq<Param>>
  {
    if q == [] then Some([])
    else if q[0] != '?' then None
    else DecodeParams(Text.Split(q[1..], '&'))
  }

  /** Reads an address back into its path components and its parameters. */
  function DecodeUrl(url: string): (seq<string>, Option<seq<Param>>)
  {
    var (path, query) := Cut(url, '?');
    (Text.Split(path, '/'), DecodeQuery(query))
  }

  /** No key holds `=` or `&`, no value holds `&`. */
  predicate Unambiguous(ps: seq<Param>)
  {
    forall i :: 0 <= i < |ps| ==> '=' !in ps[i].key && '&' !in ps[i].key && '&' !in ps[i].value
  }

  lemma UnambiguousAppend(ps: seq<Param>, qs: seq<Param>)
    requires Unambiguous(ps) && Unambiguous(qs)
    ensures Unambiguous(ps + qs)
  {
    forall i | 0 <= i < |ps + qs| ensures '=' !in (ps + qs)[i].key && '&' !in (ps + qs)[i].key && '&' !in (ps + qs)[i].value {
      if i >= |ps| {
        assert (ps + qs)[i] == qs[i - |ps|];
      }
    }
  }

  /** The `list` parameters are unambiguous when no value holds `&`. */
  lemma ListParamsUnambiguous(sort: Scalar, limit: Scalar, offset: Scalar, cursor: Option<string>, priority: Option<string>)
    requires '&' !in ToS(sort) && '&' !in ToS(limit) && '&' !in ToS(offset)
    requires cursor.Some? ==> '&' !in cursor.value
    requires priority.Some? ==> '&' !in priority.value
    ensures Unambiguous(ListParams(sort, limit, offset, cursor, priority))
  {
    var fixed := [Param("sort", ToS(sort)), Param("limit", ToS(limit))];
    var o := Optional(offset != Int(0), Param("offset", ToS(offset)));
    var c := Optional(Present(cursor), Param("cursor", if cursor.Some? then cursor.value else ""));
    var p := Optional(Present(priority), Param("priority", if priority.Some? then priority.value else ""));
    assert '=' !in "sort" && '=' !in "limit" && '=' !in "offset" && '=' !in "cursor" && '=' !in "priority";
    assert '&' !in "sort" && '&' !in "limit" && '&' !in "offset" && '&' !in "cursor" && '&' !in "priority";
    assert Unambiguous(fixed);
    assert Unambiguous(o) && Unambiguous(c) && Unambiguous(p);
    UnambiguousAppend(fixed, o);
    UnambiguousAppend(fixed + o, c);
    UnambiguousAppend(fixed + o + c, p);
  }

  lemma {:induction false} DecodeRendered(ps: seq<Param>)
    requires Unambiguous(ps)
    ensures DecodeParams(Render(ps)) == Some(ps)
  {
    if ps != [] {
      var p := ps[0];
      CutAt(p.key, "=" + p.value, '=');
      assert p.key + "=" + p.value == p.key + ("=" + p.value);
      assert ("=" + p.value)[1..] == p.value;
      assert Render(ps)[1..] == Render(ps[1..]);
      assert Unambiguous(ps[1..]) by {
        forall i | 0 <= i < |ps[1..]| ensures '=' !in ps[1..][i].key && '&' !in ps[1..][i].key && '&' !in ps[1..][i].value {
          assert ps[1..][i] == ps[i + 1];
        }
      }
      DecodeRendered(ps[1..]);
      assert [p] + ps[1..] == ps;
    }
  }

  /** Reading a query string back gives the parameters it was made of, in order. */
  lemma {:induction false} QueryRoundTrip(ps: seq<Param>)
    requires Unambiguous(ps)
    ensures DecodeQuery(QueryString(ps)) == Some(ps)
  {
    if ps != [] {
      var items := Render(ps);
      forall i | 0 <= i < |items| ensures '&' !in items[i] {
        assert items[i] == ps[i].key + "=" + ps[i].value;
      }
      Text.SplitJoin(items, '&');
      assert ("?" + Text.Join(items, '&'))[1..] == Text.Join(items, '&');
      DecodeRendered(ps);
    }
  }

  /** A path component that neither ends the component nor starts the query. */
  predicate Segment(s: string)
  {
    '/' !in s && '?' !in s
  }

  lemma {:induction false} UrlRoundTrip(segments: seq<string>, ps: seq<Param>)
    requires |segments| > 0
    requires forall i :: 0 <= i < |segments| ==> Segment(segments[i])
    requires Unambiguous(ps)
    ensures DecodeUrl(Text.Join(segments, '/') + QueryString(ps)) == (segments, Some(ps))
  {
    var path := Text.Join(segments, '/');
    Text.JoinExcludes(segments, '/', '?');
    CutAt(path, QueryString(ps), '?');
    Text.SplitJoin(segments, '/');
    QueryRoundTrip(ps);
  }

  /**
   * A `list` address reads back into the collection's components and the
   * `list` parameters, as long as no component holds `/` or `?` and no
   * parameter value holds `&`.
   */
  lemma ListUrlRoundTrip(from: Entity, kind: Scalar, bulkKind: Scalar, sort: Scalar, limit: Scalar, offset: Scalar,
                         cursor: Option<string>, priority: Option<string>)
    requires forall s :: s in CollectionSegments(from, kind, bulkKind) ==> Segment(s)
    requires '&' !in ToS(sort) && '&' !in ToS(limit) && '&' !in ToS(offset)
    requires cursor.Some? ==> '&' !in cursor.value
    requires priority.Some? ==> '&' !in priority.value
    ensures DecodeUrl(ListPath(from, kind, bulkKind, sort, limit, offset, cursor, priority))
         == (CollectionSegments(from, kind, bulkKind), Some(ListParams(sort, limit, offset, cursor, priority)))
  {
    var segments := CollectionSegments(from, kind, bulkKind);
    assert forall i :: 0 <= i < |segments| ==> segments[i] in segments;
    ListParamsUnambiguous(sort, limit, offset, cursor, priority);
    UrlRoundTrip(segments, ListParams(sort, limit, offset, cursor, priority));
  }

  /** A `fetch` address reads back into the edge's components and its `priority`, if any. */
  lemma FetchUrlRoundTrip(from: Entity, kind: Scalar, to: Entity, priority: Option<string>)
    requires forall s :: s in ResourceSegments(from, kind, to) ==> Segment(s)
    requires priority.Some? ==> '&' !in priority.value
    ensures DecodeUrl(FetchPath(from, kind, to, priority))
         == (ResourceSegments(from, kind, to), Some(FetchParams(priority)))
  {
    var segments := ResourceSegments(from, kind, to);
    assert forall i :: 0 <= i < |segments| ==> segments[i] in segments;
    UrlRoundTrip(segments, FetchParams(priority));
  }

  lemma DefaultLimitSpelled()
    ensures ToS(Int(30)) == "30"
  {
    assert Text.NatToDecimal(3) == "3";
    assert Text.NatToDecimal(30) == Text.NatToDecimal(3) + [Text.DigitChar(0)];
  }

  lemma DefaultQuery()
    ensures QueryString(ListParams(Str("desc"), Int(30), Int(0), Some(""), Some(""))) == "?sort=desc&limit=30"
  {
    DefaultLimitSpelled();
    var ps := ListParams(Str("desc"), Int(30), Int(0), Some(""), Some(""));
    assert ps == [Param("sort", "desc"), Param("limit", "30")];
    var items := Render(ps);
    assert items[0] == "sort=desc" && items[1] == "limit=30";
    assert items[1..] == ["limit=30"];
    assert Text.Join(items, '&') == "sort=desc" + "&" + "limit=30";
  }

  /** Adding one more parameter adds `&key=value` to a non-empty query. */
  lemma {:induction false} QueryStringSnoc(ps: seq<Param>, p: Param)
    requires ps != []
    ensures QueryString(ps + [p]) == QueryString(ps) + "&" + p.key + "=" + p.value
  {
    assert Render(ps + [p]) == Render(ps) + [p.key + "=" + p.value];
    Text.JoinAppend(Render(ps), p.key + "=" + p.value, '&');
  }

  /**
   * What the source's `path = "#{path}&key=#{value}" if wanted` does to an
   * address that already has a query.
   */
  lemma AppendParam(base: string, ps: seq<Param>, wanted: bool, fragment: string, key: string, value: string)
    requires ps != []
    requires fragment == "&" + key + "="
    ensures wanted ==> base + QueryString(ps) + fragment + value == base + QueryString(ps + Optional(wanted, Param(key, value)))
    ensures !wanted ==> base + QueryString(ps) == base + QueryString(ps + Optional(wanted, Param(key, value)))
  {
    if wanted {
      QueryStringSnoc(ps, Param(key, value));
    } else {
      assert ps + Optional(wanted, Param(key, value)) == ps;
    }
  }

  /** `fetch` adds `?priority=P` to the resource path exactly when a priority is present. */
  lemma FetchPathSpelledOut(from: Entity, kind: Scalar, to: Entity, priority: Option<string>)
    ensures Present(priority) ==> FetchPath(from, kind, to, priority) == ResourcePath(from, kind, to) + "?priority=" + priority.value
    ensures !Present(priority) ==> FetchPath(from, kind, to, priority) == ResourcePath(from, kind, to)
  {
    if Present(priority) {
      assert Render([Param("priority", priority.value)])[1..] == [];
      assert QueryString([Param("priority", priority.value)]) == "?priority=" + priority.value;
    } else {
      assert ResourcePath(from, kind, to) + [] == ResourcePath(from, kind, to);
    }
  }

  /** What the source's `"#{base}?sort=#{sort}&limit=#{limit}"` builds. */
  lemma ListQueryStart(base: string, sort: string, limit: string)
    ensures base + "?sort=" + sort + "&limit=" + limit == base + QueryString([Param("sort", sort), Param("limit", limit)])
  {
    var a, b := Param("sort", sort), Param("limit", limit);
    assert [a, b] == [a] + [b];
    QueryStringSnoc([a], b);
    assert Render([a]) == [a.key + "=" + a.value];
    assert QueryString([a]) == "?sort=" + sort;
  }

  /** With the defaults of `list` (sort `desc`, limit 30, offset 0, no cursor, no priority). */
  lemma ListDefaults(from: Entity, kind: Scalar, bulkKind: Scalar)
    ensures ListPath(from, kind, bulkKind, Str("desc"), Int(30), Int(0), Some(""), Some(""))
         == CollectionPath(from, kind, bulkKind) + "?sort=desc&limit=30"
  {
    DefaultQuery();
  }
}
