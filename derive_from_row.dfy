/**
 * The derive as a whole (`DeriveFromRow::generate` in
 * postgres-from-row-derive/src/lib.rs): check the struct's shape, build the
 * two initialiser lists field by field, and build the where clause of the
 * generated `impl FromRow`.
 */
module DeriveFromRow {
  import opened Wrappers
  import opened Generated
  import opened FromRowField

  /** How a struct declares its fields (darling's `ast::Style`). */
  datatype Style = UnitStyle | TupleStyle | StructStyle

  /** The body of the item the derive is applied to: an enum, or a struct of some style. */
  datatype Data = EnumData | StructData(style: Style, fields: seq<Field>)

  /** A where clause as written on the struct: its predicates and whether a comma follows the last one. */
  datatype WhereClause = WhereClause(predicates: seq<Predicate>, trailingComma: bool)

  /** The item the derive is applied to, after attribute parsing. */
  datatype DeriveInput = DeriveInput(ident: string, whereClause: Option<WhereClause>, data: Data)

  /** The where clause of the generated impl, token by token. */
  datatype WhereToken = Pred(p: Predicate) | Comma

  /**
   * The generated `impl FromRow for <ident> where <whereClause>`, with the
   * initialiser entries of `from_row` and of `try_from_row`.
   */
  datatype Impl = Impl(
    ident: string,
    client: string,
    whereClause: seq<WhereToken>,
    fromRowFields: seq<FieldInit>,
    tryFromRowFields: seq<FieldInit>)

  predicate IsNamedStruct(input: DeriveInput) {
    input.data.StructData? && input.data.style.StructStyle?
  }

  /** Every field's target type can be determined. */
  predicate TargetsParse(fields: seq<Field>, parse: TypeParser) {
    forall i :: 0 <= i < |fields| ==> TargetTy(fields[i], parse).Ok?
  }

  /**
   * `iter().map(g).collect::<Result<Vec<_>, _>>()`: all results in order when
   * every element succeeds, otherwise the error of the first that fails.
   */
  function CollectResults<A, B>(xs: seq<A>, g: A -> Result<B, Error>): (r: Result<seq<B>, Error>)
    ensures r.Ok? <==> forall i :: 0 <= i < |xs| ==> g(xs[i]).Ok?
    ensures r.Ok? ==> |r.value| == |xs| && forall i :: 0 <= i < |xs| ==> g(xs[i]) == Ok(r.value[i])
    ensures r.Err? ==> exists i :: 0 <= i < |xs| && g(xs[i]) == Err(r.error)
                                   && forall j :: 0 <= j < i ==> g(xs[j]).Ok?
  {
    if xs == [] then Ok([])
    else
      match g(xs[0])
      case Err(e) => Err(e)
      case Ok(b) =>
        var rest := CollectResults(xs[1..], g);
        assert forall i :: 1 <= i < |xs| ==> xs[i] == xs[1..][i - 1];
        match rest
        case Err(e) =>
          var k :| 0 <= k < |xs[1..]| && g(xs[1..][k]) == Err(e) && forall j :: 0 <= j < k ==> g(xs[1..][j]).Ok?;
          assert g(xs[k + 1]) == Err(e);
          Err(e)
        case Ok(bs) =>
          assert forall i :: 1 <= i < |xs| ==> ([b] + bs)[i] == bs[i - 1];
          Ok([b] + bs)
  }

  /**
   * The bounds one iteration of the predicate loop adds for a field whose
   * target type is `target`.
   */
  function FieldBounds(f: Field, client: string, target: Ty): (r: seq<Predicate>)
    ensures |r| == if Converted(f) then 2 else 1
    ensures r[0] == if f.flatten then FromRowBound(target) else FromSqlBound(client, target)
    ensures Converted(f) ==> r[1] == FromBound(f.ty, target)
  {
    [if f.flatten then FromRowBound(target) else FromSqlBound(client, target)]
    + (if f.from.Some? then [FromBound(f.ty, target)]
       else if f.tryFrom.Some? then [FromBound(f.ty, target)]
       else [])
  }

  /** The bounds the predicate loop has built after visiting `fields`. */
  function Bounds(fields: seq<Field>, client: string, parse: TypeParser): (r: seq<Predicate>)
    requires TargetsParse(fields, parse)
    ensures forall p :: p in r ==> p.FromRowBound? || p.FromSqlBound? || p.FromBound?
  {
    if fields == [] then []
    else
      var n := |fields| - 1;
      Bounds(fields[..n], client, parse) + FieldBounds(fields[n], client, TargetTy(fields[n], parse).value)
  }

  /** The number of fields with a `from` or `try_from` option. */
  function ConvertedCount(fields: seq<Field>): nat {
    if fields == [] then 0
    else ConvertedCount(fields[..|fields| - 1]) + (if Converted(fields[|fields| - 1]) then 1 else 0)
  }

  /** `p1, p2, .., pn`: the predicates separated by commas, with no trailing comma. */
  function Punctuate(ps: seq<Predicate>): (ts: seq<WhereToken>)
    ensures |ts| == if ps == [] then 0 else 2 * |ps| - 1
    ensures forall i :: 0 <= i < |ts| ==> ts[i] == if i % 2 == 0 then Pred(ps[i / 2]) else Comma
  {
    if ps == [] then []
    else if |ps| == 1 then [Pred(ps[0])]
    else
      var rest := Punctuate(ps[1..]);
      assert forall i :: 2 <= i < 2 + |rest| ==> (i - 2) % 2 == i % 2 && (i - 2) / 2 + 1 == i / 2;
      [Pred(ps[0]), Comma] + rest
  }

  /** Rust's where-clause grammar: `(predicate ,)* predicate?`. */
  predicate WellFormedWhere(ts: seq<WhereToken>) {
    ts == [] || (ts[0].Pred? && (|ts| == 1 || (ts[1].Comma? && WellFormedWhere(ts[2..]))))
  }

  /** The predicates among the tokens, in order. */
  function PredicatesOf(ts: seq<WhereToken>): seq<Predicate> {
    if ts == [] then []
    else (if ts[0].Pred? then [ts[0].p] else []) + PredicatesOf(ts[1..])
  }

  function OriginalPredicates(w: Option<WhereClause>): seq<Predicate> {
    if w.Some? then w.value.predicates else []
  }

  /** The struct's own where clause, re-emitted as written (syn prints a trailing comma it parsed). */
  function OriginalTokens(w: Option<WhereClause>): (ts: seq<WhereToken>)
    ensures WellFormedWhere(ts)
    ensures PredicatesOf(ts) == OriginalPredicates(w)
    ensures (ts != [] && ts[|ts| - 1] == Comma) <==> (w.Some? && w.value.trailingComma && w.value.predicates != [])
  {
    match w
    case None => []
    case Some(c) =>
      var ps := c.predicates;
      var tail := if c.trailingComma && ps != [] then [Comma] else [];
      PunctuateWellFormed(ps);
      PredicatesOfAppend(Punctuate(ps), tail);
      if ps != [] then
        WellFormedAfterList(ps, tail);
        assert tail != [] ==> tail[1..] == [];
        Punctuate(ps) + tail
      else
        Punctuate(ps) + tail
  }

  /**
   * The where clause as the source writes it: the struct's own predicates,
   * then the derived ones, with no separator between the two lists.
   */
  function WhereTokensAsWritten(w: Option<WhereClause>, derived: seq<Predicate>): (ts: seq<WhereToken>)
    ensures PredicatesOf(ts) == OriginalPredicates(w) + derived
  {
    PunctuateWellFormed(derived);
    PredicatesOfAppend(OriginalTokens(w), Punctuate(derived));
    OriginalTokens(w) + Punctuate(derived)
  }

  /** The where clause as intended: one comma-separated list of the struct's own predicates, then the derived ones. */
  function WhereTokens(w: Option<WhereClause>, derived: seq<Predicate>): (ts: seq<WhereToken>)
    ensures WellFormedWhere(ts)
    ensures PredicatesOf(ts) == OriginalPredicates(w) + derived
  {
    PunctuateWellFormed(OriginalPredicates(w) + derived);
    Punctuate(OriginalPredicates(w) + derived)
  }

  /**
   * The derive: reject every shape but a struct with named fields, build the
   * `from_row` and `try_from_row` entries of every field, then the where
   * clause: the struct's own predicates followed by the bounds of each field.
   */
  method Generate(input: DeriveInput, client: string, parse: TypeParser) returns (r: Result<Impl, Error>)
    ensures input.data.EnumData? ==> r == Err(UnsupportedShape("enum", input.ident))
    ensures input.data.StructData? && input.data.style.UnitStyle? ==> r == Err(UnsupportedShape("unit struct", input.ident))
    ensures input.data.StructData? && input.data.style.TupleStyle? ==> r == Err(UnsupportedShape("tuple struct", input.ident))
    ensures IsNamedStruct(input) ==> (r.Ok? <==> TargetsParse(input.data.fields, parse))
    ensures IsNamedStruct(input) && r.Err? ==>
      var fields := input.data.fields;
      exists i :: 0 <= i < |fields| && TargetTy(fields[i], parse) == Err(r.error)
                  && forall j :: 0 <= j < i ==> TargetTy(fields[j], parse).Ok?
    ensures r.Ok? ==> IsNamedStruct(input) && r.value.ident == input.ident && r.value.client == client
    ensures r.Ok? ==> var fields, out := input.data.fields, r.value;
      && |out.fromRowFields| == |fields| && |out.tryFromRowFields| == |fields|
      && (forall i :: 0 <= i < |fields| ==>
            && out.fromRowFields[i].ident == fields[i].ident
            && out.tryFromRowFields[i].ident == fields[i].ident
            && GenerateFromRow(fields[i], client, parse) == Ok(out.fromRowFields[i])
            && GenerateTryFromRow(fields[i], client, parse) == Ok(out.tryFromRowFields[i]))
      && out.whereClause == WhereTokens(input.whereClause, Bounds(fields, client, parse))
      && WellFormedWhere(out.whereClause)
      && PredicatesOf(out.whereClause) == OriginalPredicates(input.whereClause) + Bounds(fields, client, parse)
    ensures r.Ok? ==> var out := r.value;
      forall i, p :: 0 <= i < |out.fromRowFields| && p in Required(out.fromRowFields[i].value) + Required(out.tryFromRowFields[i].value)
                     ==> Entails(PredicatesOf(out.whereClause), p)
  {
    if input.data.EnumData? {
      return Err(UnsupportedShape("enum", input.ident));
    }
    match input.data.style {
      case UnitStyle => return Err(UnsupportedShape("unit struct", input.ident));
      case TupleStyle => return Err(UnsupportedShape("tuple struct", input.ident));
      case StructStyle =>
    }
    var fields := input.data.fields;

    var fromRow := CollectResults(fields, f => GenerateFromRow(f, client, parse));
    if fromRow.Err? {
      return Err(fromRow.error);
    }
    assert TargetsParse(fields, parse);
    // every target type parsed above, so neither this collect nor the predicate loop can fail
    var tryFromRow := CollectResults(fields, f => GenerateTryFromRow(f, client, parse));
    var predicates := BoundPredicates(fields, client, parse);

    var out := Impl(input.ident, client, WhereTokens(input.whereClause, predicates.value), fromRow.value, tryFromRow.value);
    forall k, p | 0 <= k < |out.fromRowFields| && p in Required(out.fromRowFields[k].value) + Required(out.tryFromRowFields[k].value)
      ensures Entails(PredicatesOf(out.whereClause), p)
    {
      assert out.fromRowFields[k] == GenerateFromRow(fields[k], client, parse).value;
      assert out.tryFromRowFields[k] == GenerateTryFromRow(fields[k], client, parse).value;
      WhereClauseCoversFields(fields, input.whereClause, client, parse);
    }
    r := Ok(out);
  }

  /**
   * The predicate loop of the derive: for each field in order, one bound on
   * its target type (`FromRow` for a flattened field, `FromSql` otherwise),
   * then a `From<target>` bound on the field type when `from` or `try_from`
   * is set. Stops at the first field whose target type does not parse.
   */
  method BoundPredicates(fields: seq<Field>, client: string, parse: TypeParser) returns (r: Result<seq<Predicate>, Error>)
    ensures r.Ok? <==> TargetsParse(fields, parse)
    ensures r.Ok? ==> r.value == Bounds(fields, client, parse)
    ensures r.Err? ==> exists i :: 0 <= i < |fields| && TargetTy(fields[i], parse) == Err(r.error)
                                   && forall j :: 0 <= j < i ==> TargetTy(fields[j], parse).Ok?
  {
    var predicates: seq<Predicate> := [];
    var i := 0;
    while i < |fields|
      invariant 0 <= i <= |fields|
      invariant TargetsParse(fields[..i], parse)
      invariant predicates == Bounds(fields[..i], client, parse)
    {
      var field := fields[i];
      var target := TargetTy(field, parse);
      if target.Err? {
        assert forall j :: 0 <= j < i ==> fields[j] == fields[..i][j];
        return Err(target.error);
      }
      var ty := target.value;
      ghost var before := predicates;
      predicates := predicates + [if field.flatten then FromRowBound(ty) else FromSqlBound(client, ty)];
      if field.from.Some? {
        predicates := predicates + [FromBound(field.ty, ty)];
      } else if field.tryFrom.Some? {
        predicates := predicates + [FromBound(field.ty, ty)];
      }
      assert predicates == before + FieldBounds(field, client, ty);
      assert fields[..i + 1][..i] == fields[..i];
      i := i + 1;
    }
    assert fields[..i] == fields;
    r := Ok(predicates);
  }

  // ---------------------------------------------------------------------------
  // The where clause

  lemma TargetsParseSplit(a: seq<Field>, b: seq<Field>, parse: TypeParser)
    requires TargetsParse(a + b, parse)
    ensures TargetsParse(a, parse) && TargetsParse(b, parse)
  {
    assert forall i :: 0 <= i < |a| ==> a[i] == (a + b)[i];
    assert forall i :: 0 <= i < |b| ==> b[i] == (a + b)[|a| + i];
  }

  /** Appending fields appends their bounds: the loop keeps declaration order. */
  lemma {:induction false} BoundsAppend(a: seq<Field>, b: seq<Field>, client: string, parse: TypeParser)
    requires TargetsParse(a + b, parse)
    ensures TargetsParse(a, parse) && TargetsParse(b, parse)
    ensures Bounds(a + b, client, parse) == Bounds(a, client, parse) + Bounds(b, client, parse)
    decreases |b|
  {
    TargetsParseSplit(a, b, parse);
    if b == [] {
      assert a + b == a;
    } else {
      var n := |b| - 1;
      assert a + b == (a + b[..n]) + [b[n]];
      TargetsParseSplit(a + b[..n], [b[n]], parse);
      BoundsAppend(a, b[..n], client, parse);
      assert (a + b)[..|a + b| - 1] == a + b[..n];
    }
  }

  /** One bound per field, plus one per field with a `from` or `try_from` option. */
  lemma {:induction false} BoundsCount(fields: seq<Field>, client: string, parse: TypeParser)
    requires TargetsParse(fields, parse)
    ensures |Bounds(fields, client, parse)| == |fields| + ConvertedCount(fields)
  {
    if fields != [] {
      BoundsCount(fields[..|fields| - 1], client, parse);
    }
  }

  /** The bounds of field `i` form one contiguous run of the where-clause bounds. */
  lemma BoundsOfField(fields: seq<Field>, i: nat, client: string, parse: TypeParser)
    requires TargetsParse(fields, parse) && i < |fields|
    ensures var t := TargetTy(fields[i], parse).value;
      Bounds(fields, client, parse)
      == Bounds(fields[..i], client, parse) + FieldBounds(fields[i], client, t) + Bounds(fields[i + 1..], client, parse)
  {
    assert fields == fields[..i + 1] + fields[i + 1..];
    BoundsAppend(fields[..i + 1], fields[i + 1..], client, parse);
    assert fields[..i + 1][..i] == fields[..i];
  }

  /**
   * Every trait bound that a generated entry relies on holds under the
   * where clause: for `try_from` fields through the `From` bound, which
   * implies `TryFrom`.
   */
  lemma BoundsCoverRequirements(fields: seq<Field>, i: nat, client: string, parse: TypeParser)
    requires TargetsParse(fields, parse) && i < |fields|
    ensures forall p :: p in Required(GenerateFromRow(fields[i], client, parse).value.value)
                        ==> Entails(Bounds(fields, client, parse), p)
    ensures forall p :: p in Required(GenerateTryFromRow(fields[i], client, parse).value.value)
                        ==> Entails(Bounds(fields, client, parse), p)
  {
    BoundsOfField(fields, i, client, parse);
  }

  /** The same for all fields at once, with the struct's own predicates in front. */
  lemma WhereClauseCoversFields(fields: seq<Field>, w: Option<WhereClause>, client: string, parse: TypeParser)
    requires TargetsParse(fields, parse)
    ensures forall i, p :: 0 <= i < |fields|
                           && p in Required(GenerateFromRow(fields[i], client, parse).value.value)
                                   + Required(GenerateTryFromRow(fields[i], client, parse).value.value)
                           ==> Entails(OriginalPredicates(w) + Bounds(fields, client, parse), p)
  {
    forall i | 0 <= i < |fields| {
      BoundsCoverRequirements(fields, i, client, parse);
    }
  }

  lemma {:induction false} PredicatesOfAppend(a: seq<WhereToken>, b: seq<WhereToken>)
    ensures PredicatesOf(a + b) == PredicatesOf(a) + PredicatesOf(b)
  {
    if a == [] {
      assert a + b == b;
    } else {
      var head := if a[0].Pred? then [a[0].p] else [];
      PredicatesOfAppend(a[1..], b);
      assert (a + b)[0] == a[0];
      assert (a + b)[1..] == a[1..] + b;
      assert PredicatesOf(a + b) == head + PredicatesOf(a[1..] + b);
      assert PredicatesOf(a) == head + PredicatesOf(a[1..]);
    }
  }

  /**
   * The converse of BoundsCoverRequirements for a `try_from` field without
   * `from`: its `From<target>` bound is demanded although neither entry
   * relies on it, and the `TryFrom` the entries rely on does not imply it.
   */
  lemma TryFromFieldDemandsFrom(f: Field, client: string, parse: TypeParser)
    requires f.from.None? && f.tryFrom.Some? && TargetTy(f, parse).Ok?
    ensures var t := TargetTy(f, parse).value;
      && FromBound(f.ty, t) in FieldBounds(f, client, t)
      && TryFromBound(f.ty, t) !in FieldBounds(f, client, t)
      && !Entails(Required(GenerateFromRow(f, client, parse).value.value), FromBound(f.ty, t))
      && !Entails(Required(GenerateTryFromRow(f, client, parse).value.value), FromBound(f.ty, t))
  {
  }

  lemma {:induction false} PunctuateWellFormed(ps: seq<Predicate>)
    ensures WellFormedWhere(Punctuate(ps))
    ensures PredicatesOf(Punctuate(ps)) == ps
  {
    if |ps| > 1 {
      PunctuateWellFormed(ps[1..]);
      var ts := Punctuate(ps);
      assert ts[2..] == Punctuate(ps[1..]);
      assert ts[1..][1..] == ts[2..];
      assert ps == [ps[0]] + ps[1..];
    } else if |ps| == 1 {
      assert Punctuate(ps)[1..] == [];
    }
  }

  /** A non-empty punctuated list can be followed by `rest` only if `rest` starts with a comma. */
  lemma {:induction false} WellFormedAfterList(ps: seq<Predicate>, rest: seq<WhereToken>)
    requires ps != []
    ensures WellFormedWhere(Punctuate(ps) + rest) <==> rest == [] || (rest[0].Comma? && WellFormedWhere(rest[1..]))
  {
    var ts := Punctuate(ps) + rest;
    if |ps| == 1 {
      if rest != [] {
        assert ts[1] == rest[0];
        assert ts[2..] == rest[1..];
      }
    } else {
      WellFormedAfterList(ps[1..], rest);
      assert ts[2..] == Punctuate(ps[1..]) + rest;
    }
  }

  /**
   * Two well-formed where clauses put end to end form one exactly when either
   * is empty or the first ends with a comma.
   */
  lemma {:induction false} WellFormedConcat(a: seq<WhereToken>, b: seq<WhereToken>)
    requires WellFormedWhere(a) && WellFormedWhere(b)
    ensures WellFormedWhere(a + b) <==> a == [] || b == [] || a[|a| - 1] == Comma
    decreases |a|
  {
    if a == [] {
      assert a + b == b;
    } else if |a| == 1 {
      assert (a + b)[1..] == b;
    } else {
      WellFormedConcat(a[2..], b);
      assert (a + b)[2..] == a[2..] + b;
      assert a[2..] != [] ==> a[2..][|a[2..]| - 1] == a[|a| - 1];
    }
  }

  /**
   * The where clause as written is well formed exactly when the struct has
   * no where predicates, or ends them with a comma, or gets no derived
   * bounds.
   */
  lemma AsWrittenWellFormedIff(w: Option<WhereClause>, derived: seq<Predicate>)
    ensures WellFormedWhere(WhereTokensAsWritten(w, derived))
        <==> w.None? || w.value.predicates == [] || w.value.trailingComma || derived == []
  {
    var original := OriginalTokens(w);
    PunctuateWellFormed(derived);
    WellFormedConcat(original, Punctuate(derived));
    assert original == [] ==> OriginalPredicates(w) == [];
  }

  /** `struct S<T> where T: Clone { a: T }`: the derived bound follows `T: Clone` with no comma. */
  lemma MissingCommaExample()
    ensures var w := Some(WhereClause([Written("T: Clone")], false));
      !WellFormedWhere(WhereTokensAsWritten(w, FieldBounds(Field("a", "T", false, None, None), "postgres", "T")))
  {
    var w := Some(WhereClause([Written("T: Clone")], false));
    AsWrittenWellFormedIff(w, FieldBounds(Field("a", "T", false, None, None), "postgres", "T"));
  }
}
