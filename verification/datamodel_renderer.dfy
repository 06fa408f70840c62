/**
 * `Constant<T>`, the renderer's marker for a value written out bare:
 * no quotes, no escaping, no validation
 * (introspection-engine/datamodel-renderer/src/value/constant.rs).
 *
 * A `Display` implementation is modelled as a total function
 * `display: T -> string` passed to whatever renders a `T`.
 */
module DatamodelRenderer {

  datatype Constant<T> = Constant(inner: T)

  /** Wraps `value` as it is; nothing about it is checked. */
  function NewNoValidate<T>(value: T): (c: Constant<T>)
    ensures c.inner == value
  {
    Constant(value)
  }

  /** Gives the wrapped value back. */
  function IntoInner<T>(c: Constant<T>): (value: T)
    ensures Constant(value) == c
  {
    c.inner
  }

  /** `From<T>`: the same wrapping as `NewNoValidate`. */
  function From<T>(value: T): (c: Constant<T>)
    ensures c == NewNoValidate(value)
  {
    Constant(value)
  }

  /** `Display for Constant<T>`: delegates to the inner value's `Display`. */
  function Render<T>(c: Constant<T>, display: T -> string): (s: string)
    ensures s == display(IntoInner(c))
  {
    display(c.inner)
  }

  /** Wrapping then unwrapping gives the value back, for any value. */
  lemma WrapUnwrap<T>(value: T)
    ensures IntoInner(NewNoValidate(value)) == value
    ensures IntoInner(From(value)) == value
  {
  }

  /** Unwrapping then wrapping gives the wrapper back. */
  lemma UnwrapWrap<T>(c: Constant<T>)
    ensures NewNoValidate(IntoInner(c)) == c
    ensures From(IntoInner(c)) == c
  {
  }

  /** Rendering a wrapped value is rendering the value: nothing is added or escaped. */
  lemma RenderIsInnerDisplay<T>(value: T, display: T -> string)
    ensures Render(From(value), display) == display(value)
    ensures Render(NewNoValidate(value), display) == display(value)
  {
  }

  /** `Display for str`: the text itself. */
  function DisplayStr(s: string): string {
    s
  }

  /** `Clone`/`Copy for Constant<&str>`: copies the reference. */
  function CloneStr(c: Constant<string>): (d: Constant<string>)
    ensures IntoInner(d) == IntoInner(c)
  {
    Constant(c.inner)
  }

  /** `AsRef<str> for Constant<&str>`. */
  function AsRefStr(c: Constant<string>): (s: string)
    ensures s == IntoInner(c)
  {
    c.inner
  }

  /** A clone renders, and reads as a string, exactly like the original. */
  lemma CloneRendersTheSame(c: Constant<string>)
    ensures CloneStr(c) == c
    ensures Render(CloneStr(c), DisplayStr) == Render(c, DisplayStr)
    ensures AsRefStr(CloneStr(c)) == AsRefStr(c)
  {
  }

  /** For `&str` the string view and the rendering coincide. */
  lemma AsRefStrIsRendering(c: Constant<string>)
    ensures AsRefStr(c) == Render(c, DisplayStr)
  {
  }

  /** `Cow<str>`: borrowed or owned, the same string contents. */
  datatype Cow = Borrowed(borrowed: string) | Owned(owned: string)

  /** `Cow<str>`'s `AsRef<str>` and `Display`: its contents. */
  function CowContents(c: Cow): (s: string)
    ensures c.Borrowed? ==> s == c.borrowed
    ensures c.Owned? ==> s == c.owned
  {
    match c
    case Borrowed(b) => b
    case Owned(o) => o
  }

  /** `AsRef<str> for Constant<Cow<str>>`. */
  function AsRefCow(c: Constant<Cow>): (s: string)
    ensures s == CowContents(IntoInner(c))
  {
    CowContents(c.inner)
  }

  /** Ownership makes no difference to the string view or the rendering. */
  lemma CowViewIgnoresOwnership(s: string)
    ensures AsRefCow(From(Borrowed(s))) == AsRefCow(From(Owned(s))) == s
    ensures Render(From(Borrowed(s)), CowContents) == Render(From(Owned(s)), CowContents) == s
  {
  }

  /** `Constant::from("UserId")` renders as the bare `UserId`, without quotes. */
  lemma BareIdentifierExample()
    ensures Render(From("UserId"), DisplayStr) == "UserId"
    ensures Render(From("UserId"), DisplayStr)[0] != '"'
  {
  }
}
