/**
 * The code the derive emits, as abstract syntax instead of token streams: the
 * extraction expression of one struct field, the trait bounds of the where
 * clause, and functions that say what an expression means (its type, what it
 * reads from the row, how it handles failure, which bounds it relies on).
 */
module Generated {
  import opened Wrappers

  /** The tokens of a Rust type, as declared on a field or parsed from an attribute string. */
  type Ty = string

  /**
   * One extraction expression. `client` is the database client crate the impl
   * is generated for (`postgres` or `tokio_postgres`).
   */
  datatype Expr =
    | Get(client: string, column: string, ty: Ty)        // client::Row::get::<&str, ty>(row, column)
    | TryGet(client: string, column: string, ty: Ty)     // client::Row::try_get::<&str, ty>(row, column)
    | NestedFromRow(ty: Ty)                              // <ty as FromRow>::from_row(row)
    | NestedTryFromRow(ty: Ty)                           // <ty as FromRow>::try_from_row(row)
    | Propagate(inner: Expr)                             // inner?
    | FromConv(fieldTy: Ty, sourceTy: Ty, inner: Expr)     // <fieldTy as From<sourceTy>>::from(inner)
    | TryFromConv(fieldTy: Ty, sourceTy: Ty, inner: Expr)  // <fieldTy as TryFrom<sourceTy>>::try_from(inner)
    | Expect(inner: Expr, message: string)               // inner.expect(message)

  /** One entry `ident: value` of a generated `Self { .. }` initialiser. */
  datatype FieldInit = FieldInit(ident: string, value: Expr)

  /** One predicate of the where clause of the generated impl. */
  datatype Predicate =
    | Written(text: string)                   // a predicate of the struct's own where clause
    | FromRowBound(ty: Ty)                    // ty: postgres_from_row::FromRow
    | FromSqlBound(client: string, ty: Ty)    // ty: for<'a> client::types::FromSql<'a>
    | FromBound(fieldTy: Ty, sourceTy: Ty)    // fieldTy: std::convert::From<sourceTy>
    | TryFromBound(fieldTy: Ty, sourceTy: Ty) // fieldTy: std::convert::TryFrom<sourceTy>

  /** What an expression evaluates to: a value of a type, or a `Result` of it that may fail. */
  datatype ValueTy = Plain(ty: Ty) | Fallible(ty: Ty)

  /** What an expression reads from the row: one column, or the whole row through a nested `FromRow`. */
  datatype Source = Column(name: string, ty: Ty) | Nested(ty: Ty)

  /**
   * The type of an expression, or None when it is ill-typed: a conversion
   * must be applied to a plain value of its source type, and `?` and
   * `.expect` must be applied to a fallible one.
   */
  function TypeOf(e: Expr): Option<ValueTy> {
    match e
    case Get(_, _, t) => Some(Plain(t))
    case TryGet(_, _, t) => Some(Fallible(t))
    case NestedFromRow(t) => Some(Plain(t))
    case NestedTryFromRow(t) => Some(Fallible(t))
    case Propagate(i) => Unwrapped(TypeOf(i))
    case Expect(i, _) => Unwrapped(TypeOf(i))
    case FromConv(ft, st, i) => if TypeOf(i) == Some(Plain(st)) then Some(Plain(ft)) else None
    case TryFromConv(ft, st, i) => if TypeOf(i) == Some(Plain(st)) then Some(Fallible(ft)) else None
  }

  function Unwrapped(v: Option<ValueTy>): Option<ValueTy> {
    match v
    case Some(Fallible(t)) => Some(Plain(t))
    case _ => None
  }

  /** The number of steps that can fail: column reads with try_get, nested try_from_row, TryFrom conversions. */
  function Fallibles(e: Expr): nat {
    match e
    case Get(_, _, _) => 0
    case TryGet(_, _, _) => 1
    case NestedFromRow(_) => 0
    case NestedTryFromRow(_) => 1
    case Propagate(i) => Fallibles(i)
    case Expect(i, _) => Fallibles(i)
    case FromConv(_, _, i) => Fallibles(i)
    case TryFromConv(_, _, i) => Fallibles(i) + 1
  }

  /** The number of `?` operators: the places where an error leaves the generated function. */
  function Propagations(e: Expr): nat {
    match e
    case Get(_, _, _) => 0
    case TryGet(_, _, _) => 0
    case NestedFromRow(_) => 0
    case NestedTryFromRow(_) => 0
    case Propagate(i) => Propagations(i) + 1
    case Expect(i, _) => Propagations(i)
    case FromConv(_, _, i) => Propagations(i)
    case TryFromConv(_, _, i) => Propagations(i)
  }

  /** The number of `.expect(..)` calls: the places where the generated code panics. */
  function Expects(e: Expr): nat {
    match e
    case Get(_, _, _) => 0
    case TryGet(_, _, _) => 0
    case NestedFromRow(_) => 0
    case NestedTryFromRow(_) => 0
    case Propagate(i) => Expects(i)
    case Expect(i, _) => Expects(i) + 1
    case FromConv(_, _, i) => Expects(i)
    case TryFromConv(_, _, i) => Expects(i)
  }

  /** What the expression reads from the row, innermost first. */
  function Sources(e: Expr): seq<Source> {
    match e
    case Get(_, c, t) => [Column(c, t)]
    case TryGet(_, c, t) => [Column(c, t)]
    case NestedFromRow(t) => [Nested(t)]
    case NestedTryFromRow(t) => [Nested(t)]
    case Propagate(i) => Sources(i)
    case Expect(i, _) => Sources(i)
    case FromConv(_, _, i) => Sources(i)
    case TryFromConv(_, _, i) => Sources(i)
  }

  /** The trait bounds the expression relies on to compile, innermost first. */
  function Required(e: Expr): seq<Predicate> {
    match e
    case Get(c, _, t) => [FromSqlBound(c, t)]
    case TryGet(c, _, t) => [FromSqlBound(c, t)]
    case NestedFromRow(t) => [FromRowBound(t)]
    case NestedTryFromRow(t) => [FromRowBound(t)]
    case Propagate(i) => Required(i)
    case Expect(i, _) => Required(i)
    case FromConv(ft, st, i) => Required(i) + [FromBound(ft, st)]
    case TryFromConv(ft, st, i) => Required(i) + [TryFromBound(ft, st)]
  }

  /**
   * The expression with its error handling erased: fallible reads become the
   * panicking ones, and `?` and `.expect` disappear. What is left is what the
   * expression reads and how it converts it.
   */
  function Erase(e: Expr): Expr {
    match e
    case Get(c, n, t) => Get(c, n, t)
    case TryGet(c, n, t) => Get(c, n, t)
    case NestedFromRow(t) => NestedFromRow(t)
    case NestedTryFromRow(t) => NestedFromRow(t)
    case Propagate(i) => Erase(i)
    case Expect(i, _) => Erase(i)
    case FromConv(ft, st, i) => FromConv(ft, st, Erase(i))
    case TryFromConv(ft, st, i) => TryFromConv(ft, st, Erase(i))
  }

  /**
   * A bound holds under `preds` when it is one of them, or when it is a
   * `TryFrom` bound whose `From` counterpart is one of them: the standard
   * library implements `TryFrom<U>` for every `T: From<U>`.
   */
  predicate Entails(preds: seq<Predicate>, p: Predicate) {
    p in preds || (p.TryFromBound? && FromBound(p.fieldTy, p.sourceTy) in preds)
  }

  /**
   * In a well-typed expression every step that can fail is consumed by
   * exactly one `?` or one `.expect`, except the outermost one when the
   * expression as a whole is fallible.
   */
  lemma {:induction false} HandledFallibles(e: Expr)
    requires TypeOf(e).Some?
    ensures TypeOf(e).value.Plain? ==> Fallibles(e) == Propagations(e) + Expects(e)
    ensures TypeOf(e).value.Fallible? ==> Fallibles(e) == Propagations(e) + Expects(e) + 1
  {
    match e
    case Get(_, _, _) =>
    case TryGet(_, _, _) =>
    case NestedFromRow(_) =>
    case NestedTryFromRow(_) =>
    case Propagate(i) => HandledFallibles(i);
    case Expect(i, _) => HandledFallibles(i);
    case FromConv(_, _, i) => HandledFallibles(i);
    case TryFromConv(_, _, i) => HandledFallibles(i);
  }
}
