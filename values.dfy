/**
 * The dynamically typed Ruby values the client handles: decoded JSON bodies,
 * data bags and the ids and kinds of entities, together with the few Ruby
 * operations on them that the client performs (`to_s`, truthiness, `[]`,
 * `each`, `has_key?`, `merge`) and the exceptions those operations raise.
 */
module Values {
  import opened Wrappers
  import Text

  /** The exceptions the modelled code raises or lets through. */
  datatype Error =
    | ArgumentError(message: string)  // raised by the argument guards of AssociationV1
    | InvalidDate                     // DateTime.rfc3339 rejected a time string
    | ResourceNotFound                // the transport answered 404
    | ClientError                     // the transport failed in any other way
    | TypeMismatch                    // NoMethodError or TypeError on an unexpected value

  /** Scalar Ruby values: nil, true/false, integers and strings. */
  datatype Scalar = Nil | Bool(b: bool) | Int(i: int) | Str(s: string)

  /** Decoded JSON, or a Ruby literal built from arrays and hashes with string keys. */
  datatype Json = Leaf(scalar: Scalar) | List(items: seq<Json>) | Hash(fields: map<string, Json>)

  const EmptyHash: Json := Hash(map[])

  /** Ruby's `to_s`, as string interpolation applies it. */
  function ToS(x: Scalar): (s: string)
    ensures x.Str? ==> s == x.s
    ensures x.Int? ==> Text.ParseDecimal(s) == x.i
  {
    match x
    case Nil => ""
    case Bool(b) => if b then "true" else "false"
    case Int(i) => Text.IntToDecimal(i)
    case Str(s) => s
  }

  /**
   * The decimal `to_s` gives an integer is the canonical one: no leading zero,
   * and a minus sign exactly for a negative number.
   */
  lemma ToSCanonical(x: Scalar)
    requires x.Int?
    ensures Text.CanonicalInt(ToS(x))
    ensures ToS(x)[0] == '-' <==> x.i < 0
    ensures Text.ParseDecimal(ToS(x)) == x.i
  {
    Text.IntToDecimalCanonical(x.i);
  }

  /** Ruby truthiness: everything except nil and false. */
  predicate Truthy(x: Json)
  {
    x != Leaf(Nil) && x != Leaf(Bool(false))
  }

  predicate OccursAt(k: string, s: string, i: int)
  {
    0 <= i <= |s| - |k| && s[i..i + |k|] == k
  }

  /** Whether `k` occurs in `s`, as `String#[]` with a string argument tests. */
  predicate IsSubstring(k: string, s: string)
  {
    exists i :: 0 <= i <= |s| && OccursAt(k, s, i)
  }

  /** Receivers of `[]` with a string key that do not raise: hashes and strings. */
  predicate Indexable(recv: Json)
  {
    recv.Hash? || (recv.Leaf? && recv.scalar.Str?)
  }

  /**
   * `recv[key]` on an indexable receiver: a hash lookup that gives nil for a
   * missing key, or a substring search on a string.
   */
  function Lookup(recv: Json, key: string): (v: Json)
    requires Indexable(recv)
    ensures recv.Hash? ==> v == if key in recv.fields then recv.fields[key] else Leaf(Nil)
  {
    match recv
    case Hash(m) => if key in m then m[key] else Leaf(Nil)
    case Leaf(Str(s)) => if IsSubstring(key, s) then Leaf(Str(key)) else Leaf(Nil)
  }

  /** `recv[key]` with a string key: `Lookup`, or an exception on any other receiver. */
  function Index(recv: Json, key: string): (r: Result<Json, Error>)
    ensures r.Ok? <==> Indexable(recv)
    ensures r.Ok? ==> r.value == Lookup(recv, key)
    ensures !Indexable(recv) ==> r == Err(TypeMismatch)
  {
    if Indexable(recv) then Ok(Lookup(recv, key)) else Err(TypeMismatch)
  }

  /**
   * `recv[0]`: the first element of an array (nil when empty), nil for a hash
   * with string keys, the first character of a string, bit 0 of an integer.
   */
  function First(recv: Json): (r: Result<Json, Error>)
    ensures recv.List? ==> r == Ok(if recv.items == [] then Leaf(Nil) else recv.items[0])
    ensures r.Err? <==> recv == Leaf(Nil) || (recv.Leaf? && recv.scalar.Bool?)
  {
    match recv
    case List(items) => Ok(if items == [] then Leaf(Nil) else items[0])
    case Hash(_) => Ok(Leaf(Nil))
    case Leaf(Str(s)) => Ok(if s == [] then Leaf(Nil) else Leaf(Str(s[..1])))
    case Leaf(Int(n)) => Ok(Leaf(Int(n % 2)))
    case Leaf(_) => Err(TypeMismatch)
  }

  /**
   * The elements `recv.each` hands to a block that indexes each of them with
   * a string. A hash yields `[key, value]` arrays, on which that indexing
   * raises, so only an empty hash gets through; other values have no `each`.
   */
  function Elements(recv: Json): (r: Result<seq<Json>, Error>)
    ensures recv.List? ==> r == Ok(recv.items)
    ensures r.Ok? <==> recv.List? || recv == EmptyHash
  {
    match recv
    case List(items) => Ok(items)
    case Hash(m) => if m == map[] then Ok([]) else Err(TypeMismatch)
    case Leaf(_) => Err(TypeMismatch)
  }

  /** `recv.has_key?(key)`. */
  function HasKey(recv: Json, key: string): (r: Result<bool, Error>)
    ensures r.Ok? <==> recv.Hash?
    ensures r.Ok? ==> (r.value <==> key in recv.fields)
  {
    if recv.Hash? then Ok(key in recv.fields) else Err(TypeMismatch)
  }

  /** `recv.merge(other)`: a shallow union in which the keys of `other` win. */
  function Merge(recv: Json, other: Json): (r: Result<Json, Error>)
    ensures r.Ok? <==> recv.Hash? && other.Hash?
    ensures r.Ok? ==> r.value.Hash? && r.value.fields.Keys == recv.fields.Keys + other.fields.Keys
    ensures r.Ok? ==> forall k :: k in other.fields ==> r.value.fields[k] == other.fields[k]
    ensures r.Ok? ==> forall k :: k in recv.fields && k !in other.fields ==> r.value.fields[k] == recv.fields[k]
  {
    if recv.Hash? && other.Hash? then Ok(Hash(recv.fields + other.fields)) else Err(TypeMismatch)
  }
}
