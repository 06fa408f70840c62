/**
 * The DML `Project` record (libs/dml/src/project.rs). `crate::field::Field`
 * is not part of this model: it is the type parameter `Field`.
 */
module Dml {
  import opened Options

  datatype Project<Field> = Project(
    name: string,
    fields: seq<Field>,
    documentation: Option<string>)

  /** The derived `Default`: empty name, no fields, no documentation. */
  function Default<Field>(): (p: Project<Field>)
    ensures |p.name| == 0 && |p.fields| == 0 && p.documentation.None?
  {
    Project("", [], None)
  }

  /** `Project::new`: the default project with the given name. */
  function New<Field>(name: string): (p: Project<Field>)
    ensures p == Default().(name := name)
  {
    Project(name, [], None)
  }

  /** The derived `PartialEq`: field by field. */
  function Eq<Field(==)>(a: Project<Field>, b: Project<Field>): (r: bool)
    ensures r <==> a == b
  {
    a.name == b.name && a.fields == b.fields && a.documentation == b.documentation
  }

  /** A new project keeps its name and starts with no fields and no documentation. */
  lemma NewInitialState<Field>(name: string)
    ensures New<Field>(name).name == name
    ensures New<Field>(name).fields == []
    ensures New<Field>(name).documentation == None
  {
  }

  /** `Project::new(String::new()) == Project::default()`. */
  lemma NewEmptyIsDefault<Field>()
    ensures Eq(New<Field>(""), Default())
  {
  }

  /** Two new projects are equal exactly when their names are. */
  lemma NewIsInjective<Field>(a: string, b: string)
    ensures Eq(New<Field>(a), New<Field>(b)) <==> a == b
  {
  }
}
