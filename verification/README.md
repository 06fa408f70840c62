# Project declarations, field ids and unquoted constants

A Dafny model of three small pieces of a Prisma-style schema toolchain:

- `SchemaAst` — the schema AST's `project` declaration: a name, an ordered
  list of fields, attributes, an optional doc comment and a span. Other
  passes can refer to a field by its `FieldId`, an opaque `u32` position
  handed out by `iter_fields` and resolved again with `project[id]`,
  instead of storing a reference to it. `FieldId` is totally ordered (it keys ordered maps) and
  has two sentinels, `MIN` and `MAX`, for range scans.
- `DatamodelRenderer` — `Constant<T>`, the renderer's wrapper for a value
  written into generated schema text bare, with no quoting, escaping or
  validation.
- `Dml` — the DML crate's own `Project` record: a name, fields and
  documentation, with `Project::new` and the derived `Default` and
  `PartialEq`.

`Options` holds the `Option` datatype the other modules share.

Everything in the source is a pure projection over immutable data, so the
model is datatypes, functions and lemmas. The grammar layer's `Field`,
`Attribute`, `Identifier` and `Span` are the type parameters `Field`,
`Attribute`, `Ident` and `Sp`; of a `Comment`
only its `text` is visible. A `Display` implementation is a function
`T -> string` passed to `Render`.

`idx as u32` in `iter_fields` keeps the low 32 bits of the position
(`AsU32`). The round trip and the increasing order therefore hold for
the positions below 2^32, in a project of any size; `IdsCollideBeyondU32`
shows how both fail at position 2^32. That the ids yielded are exactly the valid
ids holds for every project. Indexing out of range makes `Vec` indexing
panic, so `Index` carries the precondition `ValidId`.

The sentinels are documented only as range bounds for ordered-map scans;
nothing stops them from being used as indices. `MIN` indexes the first
field of every non-empty project (`MinSentinelValidity`), and `MAX` is a
valid index in every project with at least 2^32 fields
(`MaxSentinelValidity`).

## Model

| member | source | states |
|---|---|---|
| `SchemaAst.AsU32` | psl/schema-ast/src/ast/project.rs:82 | `idx as u32` agrees with `idx` modulo 2^32 and is `idx` itself below 2^32 |
| `SchemaAst.Cmp` | psl/schema-ast/src/ast/project.rs:5-6 | the derived `Ord` of `FieldId` is the numeric order of the inner `u32`, and `Equal` exactly when the ids are equal |
| `SchemaAst.Lt` | psl/schema-ast/src/ast/project.rs:5-6 | the derived `<` on ids holds exactly when the inner `u32` is smaller |
| `SchemaAst.Le` | psl/schema-ast/src/ast/project.rs:5-6 | the derived `<=` on ids holds exactly when the inner `u32` is smaller or equal |
| `SchemaAst.FieldIdOrderIsTotal` | psl/schema-ast/src/ast/project.rs:5-6 | `<=` on ids is reflexive, antisymmetric, transitive and total, and `<` is `<=` without equality |
| `SchemaAst.SentinelBounds` | psl/schema-ast/src/ast/project.rs:10-12 | every id lies between `MIN` and `MAX` |
| `SchemaAst.Enumerate` | psl/schema-ast/src/ast/project.rs:79-81 | `enumerate` yields one pair per element, the i-th being `(start + i, xs[i])` |
| `SchemaAst.Project.IterFields` | psl/schema-ast/src/ast/project.rs:78-83 | exactly as many pairs as fields; the i-th pairs the i-th field with the id `i as u32` |
| `SchemaAst.Project.Index` | psl/schema-ast/src/ast/project.rs:15-20 | only a valid id may index the project, and it resolves to the field `iter_fields` pairs with that position |
| `SchemaAst.IterIndexRoundTrip` | psl/schema-ast/src/ast/project.rs:15-20 | for every position i below 2^32 (in a project of any size), indexing the project with the i-th id yielded is allowed and gives back the i-th field yielded, which is the i-th declared field |
| `SchemaAst.YieldedIdsAreExactlyValidIds` | psl/schema-ast/src/ast/project.rs:18-19 | in every project, of any size, an id can index the project if and only if `iter_fields` yields it |
| `SchemaAst.IterFieldsIncreasing` | psl/schema-ast/src/ast/project.rs:81-82 | the ids yielded at positions below 2^32 (in a project of any size) are strictly increasing under `FieldId`'s order |
| `SchemaAst.OnePastLastIsInvalid` | psl/schema-ast/src/ast/project.rs:18-19 | the id one past the last field is not a valid index |
| `SchemaAst.MinSentinelValidity` | psl/schema-ast/src/ast/project.rs:10 | `MIN` is a valid index exactly when the project has a field |
| `SchemaAst.MaxSentinelValidity` | psl/schema-ast/src/ast/project.rs:12 | `MAX` is a valid index exactly when the project has at least 2^32 fields |
| `SchemaAst.IdsCollideBeyondU32` | psl/schema-ast/src/ast/project.rs:82 | past 2^32 fields the truncating cast gives field 2^32 the id of field 0, and indexing with it returns field 0 |
| `SchemaAst.Project.Identifier` | psl/schema-ast/src/ast/project.rs:86-90 | `identifier` returns the name stored in the project: put back, it rebuilds the same project |
| `SchemaAst.Project.Span` | psl/schema-ast/src/ast/project.rs:92-96 | `span` returns the span stored in the project: put back, it rebuilds the same project |
| `SchemaAst.Project.Attributes` | psl/schema-ast/src/ast/project.rs:98-102 | `attributes` returns the stored attributes in order: put back, they rebuild the same project |
| `SchemaAst.AccessorsReturnStoredData` | psl/schema-ast/src/ast/project.rs:86-102 | `identifier`, `span` and `attributes` return the stored name, span and attributes |
| `SchemaAst.Project.Documentation` | psl/schema-ast/src/ast/project.rs:104-107 | no documentation exactly when no comment is stored; otherwise the comment's text |
| `SchemaAst.ThreeFieldExample` | psl/schema-ast/src/ast/project.rs:15-83 | fields `id`, `name`, `email` yield ids 0, 1, 2 in order; id 1 resolves to `name`; id 3 is not a valid index |
| `DatamodelRenderer.NewNoValidate` | introspection-engine/datamodel-renderer/src/value/constant.rs:31-33 | the wrapper holds the given value, whatever it is |
| `DatamodelRenderer.IntoInner` | introspection-engine/datamodel-renderer/src/value/constant.rs:35-37 | the value returned is the one the wrapper holds |
| `DatamodelRenderer.From` | introspection-engine/datamodel-renderer/src/value/constant.rs:49-55 | `from` wraps exactly as `new_no_validate` does |
| `DatamodelRenderer.Render` | introspection-engine/datamodel-renderer/src/value/constant.rs:40-47 | rendering a constant is the inner value's own rendering |
| `DatamodelRenderer.WrapUnwrap` | introspection-engine/datamodel-renderer/src/value/constant.rs:31-37 | `into_inner(new_no_validate(v)) == v` and `into_inner(from(v)) == v` for every `v` |
| `DatamodelRenderer.UnwrapWrap` | introspection-engine/datamodel-renderer/src/value/constant.rs:31-37 | rewrapping an unwrapped constant gives the same constant |
| `DatamodelRenderer.RenderIsInnerDisplay` | introspection-engine/datamodel-renderer/src/value/constant.rs:40-47 | a wrapped value renders exactly as the value, with nothing added |
| `DatamodelRenderer.CloneStr` | introspection-engine/datamodel-renderer/src/value/constant.rs:7-11 | a clone holds the same string |
| `DatamodelRenderer.CloneRendersTheSame` | introspection-engine/datamodel-renderer/src/value/constant.rs:7-13 | a clone (or copy) equals the original, renders identically and has the same string view |
| `DatamodelRenderer.AsRefStr` | introspection-engine/datamodel-renderer/src/value/constant.rs:15-19 | the string view of `Constant<&str>` is the inner string |
| `DatamodelRenderer.AsRefStrIsRendering` | introspection-engine/datamodel-renderer/src/value/constant.rs:15-19 | for `&str` the string view equals the rendering |
| `DatamodelRenderer.CowContents` | introspection-engine/datamodel-renderer/src/value/constant.rs:23-24 | a borrowed or owned `Cow` reads as the string it carries |
| `DatamodelRenderer.AsRefCow` | introspection-engine/datamodel-renderer/src/value/constant.rs:21-25 | the string view of `Constant<Cow<str>>` is the inner `Cow`'s contents |
| `DatamodelRenderer.CowViewIgnoresOwnership` | introspection-engine/datamodel-renderer/src/value/constant.rs:21-25 | borrowed and owned `Cow`s of one string give the same view and rendering, that string |
| `DatamodelRenderer.BareIdentifierExample` | introspection-engine/datamodel-renderer/src/value/constant.rs:40-55 | `from("UserId")` renders as `UserId`, with no leading quote |
| `Dml.Default` | libs/dml/src/project.rs:4-12 | the derived default has an empty name, no fields and no documentation |
| `Dml.New` | libs/dml/src/project.rs:16-22 | `Project::new(name)` is the default project with that name |
| `Dml.Eq` | libs/dml/src/project.rs:4 | the derived field-wise `PartialEq` holds exactly when the records are equal |
| `Dml.NewInitialState` | libs/dml/src/project.rs:16-22 | a new project has the given name, no fields and no documentation |
| `Dml.NewEmptyIsDefault` | libs/dml/src/project.rs:4-22 | `Project::new("")` equals `Project::default()` |
| `Dml.NewIsInjective` | libs/dml/src/project.rs:16-22 | two new projects are equal if and only if their names are |

## Left out

- The inner structure of `Field`, `Attribute`, `Identifier`, `Comment` and `Span`: they belong to the grammar layer and are type parameters here (a `Comment` exposes only `text`). `crate::field::Field` of the DML record is not part of this model either.
- The `fmt::Formatter` and `fmt::Result` machinery: `Display` is a total function from a value to its text, so writing can neither fail nor be partial in the model.
- The derived `Debug` and `Hash` implementations: nothing is stated about them.
- Borrowing, lifetimes, `Cow` ownership and iterator laziness: `iter_fields` is a sequence of pairs, `&str` and `String` are both `string`, and a `Cow` is a string tagged borrowed or owned.
- Dml.Eq: takes the `PartialEq` of `crate::field::Field` to be equality; the record derives only `PartialEq`, so for a `Field` whose `==` is not reflexive the derived comparison can differ from equality of values.
- `DatamodelRenderer.DisplayStr` stands for the standard library's `Display for str`, which is not part of this model beyond writing the string unchanged.
- `SchemaAst.Project.Index`: an out-of-range id is a precondition, where the source panics; the model has no panic.
