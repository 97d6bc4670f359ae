/** `Cohesion::Entity`: a node of the association graph, of some `kind`, with an `id`. */
module Entities {
  import opened Wrappers
  import opened Values

  datatype Entity = Entity(id: Scalar, kind: Scalar)

  /** A scalar read from a decoded body; arrays and hashes are rejected. */
  function ScalarOf(j: Json): (r: Result<Scalar, Error>)
    ensures r.Ok? <==> j.Leaf?
    ensures r.Ok? ==> Leaf(r.value) == j
  {
    if j.Leaf? then Ok(j.scalar) else Err(TypeMismatch)
  }

  /** `Entity.from_hash(h)`: `id` and `kind` are taken as they are, without coercion. */
  function FromHash(h: Json): (r: Result<Entity, Error>)
    ensures r.Ok? <==> Indexable(h) && Lookup(h, "id").Leaf? && Lookup(h, "kind").Leaf?
    ensures r.Ok? ==> Lookup(h, "id") == Leaf(r.value.id) && Lookup(h, "kind") == Leaf(r.value.kind)
  {
    if !Indexable(h) then Err(TypeMismatch)
    else
      var id :- ScalarOf(Lookup(h, "id"));
      var kind :- ScalarOf(Lookup(h, "kind"));
      Ok(Entity(id, kind))
  }

  /** `Entity#to_hash`: a hash with exactly the keys `id` and `kind`, which `FromHash` reads back. */
  function ToHash(e: Entity): (h: Json)
    ensures h.Hash? && h.fields.Keys == {"id", "kind"}
    ensures FromHash(h) == Ok(e)
  {
    Hash(map["id" := Leaf(e.id), "kind" := Leaf(e.kind)])
  }

  /**
   * `Entity#==`. The right operand is `None` when it is not an Entity at all
   * (nil included), which makes the comparison false.
   */
  function Equals(e: Entity, other: Option<Entity>): (r: bool)
    ensures r <==> other == Some(e)
  {
    if other.None? then false else e.id == other.value.id && e.kind == other.value.kind
  }

  /** `Entity#==` is reflexive and symmetric. */
  lemma EqualsReflexiveSymmetric(a: Entity, b: Entity)
    ensures Equals(a, Some(a))
    ensures Equals(a, Some(b)) <==> Equals(b, Some(a))
  {
  }
}
