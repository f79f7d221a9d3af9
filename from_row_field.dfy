/**
 * One field of the struct the derive is applied to, and the rules that turn
 * it into an entry of the generated `from_row` and `try_from_row` initialisers
 * (`FromRowField` in postgres-from-row-derive/src/lib.rs).
 */
module FromRowField {
  import opened Wrappers
  import opened Generated

  /** The diagnostics the derive reports instead of an impl. */
  datatype Error =
    | UnsupportedShape(shape: string, span: string)  // darling::Error::unsupported_shape, spanned on the struct name
    | LexError(text: string)                         // a `from` / `try_from` string that is not a type

  /** Parsing a string into type tokens; None when the string does not lex. */
  type TypeParser = string -> Option<Ty>

  /**
   * A field of a named struct with its `#[from_row(..)]` options: `flatten`
   * (default false), `try_from = ".."` and `from = ".."`.
   */
  datatype Field = Field(ident: string, ty: Ty, flatten: bool, tryFrom: Option<string>, from: Option<string>)

  /** The message of the `.expect(..)` that follows a `try_from` conversion in `from_row`. */
  const ConvertMessage := "could not convert column"

  /** True when the field is read as another type and converted into its own. */
  predicate Converted(f: Field) {
    f.from.Some? || f.tryFrom.Some?
  }

  function ParseTy(s: string, parse: TypeParser): (r: Result<Ty, Error>)
    ensures r.Ok? <==> parse(s).Some?
    ensures r.Ok? ==> parse(s) == Some(r.value)
    ensures r.Err? ==> r.error == LexError(s)
  {
    match parse(s)
    case Some(t) => Ok(t)
    case None => Err(LexError(s))
  }

  /**
   * The type the column (or nested row) is read as: the `from` type when it
   * is set, otherwise the `try_from` type when that is set, otherwise the
   * declared field type.
   */
  function TargetTy(f: Field, parse: TypeParser): (r: Result<Ty, Error>)
    ensures !Converted(f) ==> r == Ok(f.ty)
    ensures f.from.Some? ==> r == ParseTy(f.from.value, parse)
    ensures f.from.None? && f.tryFrom.Some? ==> r == ParseTy(f.tryFrom.value, parse)
  {
    if f.from.Some? then ParseTy(f.from.value, parse)
    else if f.tryFrom.Some? then ParseTy(f.tryFrom.value, parse)
    else Ok(f.ty)
  }

  /** The entry of the panicking `from_row` initialiser for `f`. */
  function GenerateFromRow(f: Field, client: string, parse: TypeParser): (r: Result<FieldInit, Error>)
    ensures r.Ok? <==> TargetTy(f, parse).Ok?
    ensures r.Err? ==> r.error == TargetTy(f, parse).error
    ensures r.Ok? ==> var t, e := TargetTy(f, parse).value, r.value.value;
      && r.value.ident == f.ident
      && TypeOf(e) == Some(Plain(f.ty))
      && Sources(e) == [if f.flatten then Nested(t) else Column(f.ident, t)]
      && Propagations(e) == 0
      && Expects(e) == (if f.from.None? && f.tryFrom.Some? then 1 else 0)
      && Required(e) == [if f.flatten then FromRowBound(t) else FromSqlBound(client, t)]
                        + (if f.from.Some? then [FromBound(f.ty, t)]
                           else if f.tryFrom.Some? then [TryFromBound(f.ty, t)]
                           else [])
  {
    match TargetTy(f, parse)
    case Err(err) => Err(err)
    case Ok(target) =>
      var base := if f.flatten then NestedFromRow(target) else Get(client, f.ident, target);
      assert TypeOf(base) == Some(Plain(target)) && Fallibles(base) == 0;
      assert Propagations(base) == 0 && Expects(base) == 0;
      assert Sources(base) == [if f.flatten then Nested(target) else Column(f.ident, target)];
      assert Required(base) == [if f.flatten then FromRowBound(target) else FromSqlBound(client, target)];
      var value :=
        if f.from.Some? then FromConv(f.ty, target, base)
        else if f.tryFrom.Some? then Expect(TryFromConv(f.ty, target, base), ConvertMessage)
        else base;
      Ok(FieldInit(f.ident, value))
  }

  /** The entry of the fallible `try_from_row` initialiser for `f`. */
  function GenerateTryFromRow(f: Field, client: string, parse: TypeParser): (r: Result<FieldInit, Error>)
    ensures r.Ok? <==> TargetTy(f, parse).Ok?
    ensures r.Err? ==> r.error == TargetTy(f, parse).error
    ensures r.Ok? ==> var t, e := TargetTy(f, parse).value, r.value.value;
      && r.value.ident == f.ident
      && TypeOf(e) == Some(Plain(f.ty))
      && Sources(e) == [if f.flatten then Nested(t) else Column(f.ident, t)]
      && Propagations(e) == (if f.from.None? && f.tryFrom.Some? then 2 else 1)
      && Expects(e) == 0
      && Required(e) == [if f.flatten then FromRowBound(t) else FromSqlBound(client, t)]
                        + (if f.from.Some? then [FromBound(f.ty, t)]
                           else if f.tryFrom.Some? then [TryFromBound(f.ty, t)]
                           else [])
  {
    match TargetTy(f, parse)
    case Err(err) => Err(err)
    case Ok(target) =>
      var read := if f.flatten then NestedTryFromRow(target) else TryGet(client, f.ident, target);
      var base := Propagate(read);
      assert TypeOf(read) == Some(Fallible(target)) && Propagations(read) == 0 && Expects(read) == 0;
      assert TypeOf(base) == Some(Plain(target)) && Propagations(base) == 1 && Expects(base) == 0;
      assert Sources(base) == Sources(read) && Required(base) == Required(read) && Fallibles(base) == 1;
      var value :=
        if f.from.Some? then FromConv(f.ty, target, base)
        else if f.tryFrom.Some? then Propagate(TryFromConv(f.ty, target, base))
        else base;
      Ok(FieldInit(f.ident, value))
  }

  /**
   * `from` takes precedence over `try_from`: once `from` is set, whatever
   * `try_from` says (even a string that does not parse) changes nothing.
   */
  lemma FromTakesPrecedence(f: Field, other: Option<string>, client: string, parse: TypeParser)
    requires f.from.Some?
    ensures TargetTy(f.(tryFrom := other), parse) == TargetTy(f, parse)
    ensures GenerateFromRow(f.(tryFrom := other), client, parse) == GenerateFromRow(f, client, parse)
    ensures GenerateTryFromRow(f.(tryFrom := other), client, parse) == GenerateTryFromRow(f, client, parse)
  {
  }

  /**
   * The two generated paths read the same things and apply the same
   * conversion; they differ only in how failure is handled.
   */
  lemma PathsDifferOnlyInErrorHandling(f: Field, client: string, parse: TypeParser)
    requires TargetTy(f, parse).Ok?
    ensures Erase(GenerateFromRow(f, client, parse).value.value)
         == Erase(GenerateTryFromRow(f, client, parse).value.value)
  {
    var t := TargetTy(f, parse).value;
    var read := if f.flatten then NestedFromRow(t) else Get(client, f.ident, t);
    var tryRead := if f.flatten then NestedTryFromRow(t) else TryGet(client, f.ident, t);
    assert Erase(tryRead) == read;
    assert Erase(read) == read;
    assert Erase(Propagate(tryRead)) == read;
  }

  /**
   * Every step that can fail is handled with `.expect` in `from_row` and
   * with `?` in `try_from_row`; only a `try_from` field has a step that can
   * fail in `from_row`.
   */
  lemma {:induction false} FailuresHandledPerPath(f: Field, client: string, parse: TypeParser)
    requires TargetTy(f, parse).Ok?
    ensures var e := GenerateFromRow(f, client, parse).value.value;
      Fallibles(e) == Expects(e) && (Fallibles(e) > 0 <==> f.from.None? && f.tryFrom.Some?)
    ensures var e := GenerateTryFromRow(f, client, parse).value.value;
      Fallibles(e) == Propagations(e) && Fallibles(e) > 0
  {
    HandledFallibles(GenerateFromRow(f, client, parse).value.value);
    HandledFallibles(GenerateTryFromRow(f, client, parse).value.value);
  }
}
