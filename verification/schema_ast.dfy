/**
 * The `project` declaration of the schema AST and the opaque `FieldId`
 * handles through which other passes refer to its fields
 * (psl/schema-ast/src/ast/project.rs).
 *
 * The grammar layer's `Field`, `Attribute`, `Identifier` and `Span` are
 * the type parameters `Field`, `Attribute`, `Ident` and `Sp`: this module
 * only cares about their order and count.
 * Of a doc `Comment` only its `text` is visible here.
 */
module SchemaAst {
  import opened Options

  /** Rust's `u32`. */
  newtype uint32 = x: int | 0 <= x < 0x1_0000_0000

  const U32_MODULUS: int := 0x1_0000_0000
  const U32_MAX: uint32 := 0xFFFF_FFFF

  /** Rust's `usize as u32`: keeps the low 32 bits. */
  function AsU32(idx: nat): (r: uint32)
    ensures idx < U32_MODULUS ==> r as int == idx
    ensures (r as int - idx) % U32_MODULUS == 0
  {
    (idx % U32_MODULUS) as uint32
  }

  /** A position in one project's field list; meaningful only with that project. */
  datatype FieldId = FieldId(value: uint32)

  /** Range bounds for ordered maps keyed by `FieldId`. */
  const MIN: FieldId := FieldId(0)
  const MAX: FieldId := FieldId(U32_MAX)

  datatype Ordering = Less | Equal | Greater

  /** The derived `Ord` of a one-field tuple struct: the order of the inner `u32`. */
  function Cmp(a: FieldId, b: FieldId): (r: Ordering)
    ensures r == Less <==> a.value < b.value
    ensures r == Equal <==> a == b
    ensures r == Greater <==> b.value < a.value
  {
    if a.value < b.value then Less
    else if a.value == b.value then Equal
    else Greater
  }

  /** The derived `<` of `PartialOrd`: `partial_cmp` answers `Less`. */
  predicate Lt(a: FieldId, b: FieldId)
    ensures Lt(a, b) <==> a.value < b.value
  {
    Cmp(a, b) == Less
  }

  /** The derived `<=` of `PartialOrd`: `partial_cmp` answers `Less` or `Equal`. */
  predicate Le(a: FieldId, b: FieldId)
    ensures Le(a, b) <==> a.value <= b.value
  {
    Cmp(a, b) != Greater
  }

  /** `Le` is a total order that agrees with equality, as a `BTreeMap` key needs. */
  lemma FieldIdOrderIsTotal(a: FieldId, b: FieldId, c: FieldId)
    ensures Le(a, a)
    ensures Le(a, b) && Le(b, a) ==> a == b
    ensures Le(a, b) && Le(b, c) ==> Le(a, c)
    ensures Le(a, b) || Le(b, a)
    ensures Lt(a, b) <==> Le(a, b) && a != b
  {
  }

  /** Every id lies between the two sentinels. */
  lemma SentinelBounds(id: FieldId)
    ensures Le(MIN, id) && Le(id, MAX)
  {
  }

  datatype Comment = Comment(text: string)

  /**
   * `Iterator::enumerate`, as `iter_fields` uses it: each element paired with
   * its position. `iter_fields` counts from 0; `start` exists only so that the
   * recursion can count on from the element it has reached.
   */
  function Enumerate<T>(xs: seq<T>, start: nat): (r: seq<(nat, T)>)
    ensures |r| == |xs|
    ensures forall i :: 0 <= i < |r| ==> r[i] == (start + i, xs[i])
    decreases |xs|
  {
    if xs == [] then []
    else [(start, xs[0])] + Enumerate(xs[1..], start + 1)
  }

  /** A `project` declaration. */
  datatype Project<Field, Attribute, Ident, Sp> = Project(
    name: Ident,
    fields: seq<Field>,
    attributes: seq<Attribute>,
    documentation: Option<Comment>,
    span: Sp)
  {
    /** The pairs handed out by `iter_fields`, in declaration order. */
    function IterFields(): (r: seq<(FieldId, Field)>)
      ensures |r| == |fields|
      ensures forall i :: 0 <= i < |r| ==> r[i].1 == fields[i] && r[i].0 == FieldId(AsU32(i))
    {
      var pairs := Enumerate(fields, 0);
      seq(|pairs|, i requires 0 <= i < |pairs| => (FieldId(AsU32(pairs[i].0)), pairs[i].1))
    }

    /** An id the project can be indexed with; any other makes `Vec` indexing panic. */
    predicate ValidId(id: FieldId) {
      (id.value as int) < |fields|
    }

    /** `project[id]`: the field that `iter_fields` pairs with position `id`. */
    function Index(id: FieldId): (f: Field)
      requires ValidId(id)
      ensures f == IterFields()[id.value as int].1
    {
      fields[id.value as int]
    }

    /** `WithIdentifier::identifier`: the stored name. */
    function Identifier(): (r: Ident)
      ensures Project(r, fields, attributes, documentation, span) == this
    {
      name
    }

    /** `WithSpan::span`: the stored span. */
    function Span(): (r: Sp)
      ensures Project(name, fields, attributes, documentation, r) == this
    {
      span
    }

    /** `WithAttributes::attributes`: the stored attributes, in order. */
    function Attributes(): (r: seq<Attribute>)
      ensures Project(name, fields, r, documentation, span) == this
    {
      attributes
    }

    /** The doc comment's text, if there is one. */
    function Documentation(): (r: Option<string>)
      ensures r.None? <==> documentation.None?
      ensures r.Some? ==> r.value == documentation.value.text
    {
      match documentation
      case None => None
      case Some(doc) => Some(doc.text)
    }
  }

  /**
   * Indexing with the i-th id yielded gives back the i-th field yielded,
   * for every position that fits in a `u32`.
   */
  lemma IterIndexRoundTrip<F, A, I, S>(p: Project<F, A, I, S>, i: nat)
    requires i < |p.IterFields()| && i < U32_MODULUS
    ensures p.ValidId(p.IterFields()[i].0)
    ensures p.Index(p.IterFields()[i].0) == p.IterFields()[i].1 == p.fields[i]
  {
  }

  /** The ids yielded are exactly the ids the project can be indexed with. */
  lemma YieldedIdsAreExactlyValidIds<F, A, I, S>(p: Project<F, A, I, S>, id: FieldId)
    ensures p.ValidId(id) <==> exists i :: 0 <= i < |p.IterFields()| && p.IterFields()[i].0 == id
  {
    var it := p.IterFields();
    if p.ValidId(id) {
      var i := id.value as int;
      assert it[i].0 == id;
    }
  }

  /** Ids come out strictly increasing under the derived order, up to position 2^32 - 1. */
  lemma IterFieldsIncreasing<F, A, I, S>(p: Project<F, A, I, S>, i: nat, j: nat)
    requires i < j < |p.IterFields()| && j < U32_MODULUS
    ensures Lt(p.IterFields()[i].0, p.IterFields()[j].0)
  {
  }

  /** One past the last field is not an index of the project. */
  lemma OnePastLastIsInvalid<F, A, I, S>(p: Project<F, A, I, S>)
    requires |p.fields| < U32_MODULUS
    ensures !p.ValidId(FieldId(AsU32(|p.fields|)))
  {
  }

  /** The `MIN` sentinel indexes the first field of every non-empty project. */
  lemma MinSentinelValidity<F, A, I, S>(p: Project<F, A, I, S>)
    ensures p.ValidId(MIN) <==> |p.fields| > 0
  {
  }

  /** The `MAX` sentinel indexes a field only in a project with at least 2^32 fields. */
  lemma MaxSentinelValidity<F, A, I, S>(p: Project<F, A, I, S>)
    ensures p.ValidId(MAX) <==> |p.fields| >= U32_MODULUS
  {
  }

  /** Beyond 2^32 fields `idx as u32` wraps, and the 2^32-th field gets field 0's id. */
  lemma IdsCollideBeyondU32<F, A, I, S>(p: Project<F, A, I, S>)
    requires |p.fields| > U32_MODULUS
    ensures p.IterFields()[U32_MODULUS].0 == p.IterFields()[0].0
    ensures p.Index(p.IterFields()[U32_MODULUS].0) == p.fields[0]
  {
  }

  /** The accessors return the stored data. */
  lemma AccessorsReturnStoredData<F, A, I, S>(p: Project<F, A, I, S>)
    ensures p.Identifier() == p.name
    ensures p.Span() == p.span
    ensures p.Attributes() == p.attributes
  {
  }

  /** A project with fields `id`, `name`, `email`. */
  lemma ThreeFieldExample(p: Project<string, string, string, (nat, nat)>)
    requires p.fields == ["id", "name", "email"]
    ensures p.IterFields() == [(FieldId(0), "id"), (FieldId(1), "name"), (FieldId(2), "email")]
    ensures p.ValidId(FieldId(1)) && p.Index(FieldId(1)) == "name"
    ensures !p.ValidId(FieldId(3))
  {
  }
}
