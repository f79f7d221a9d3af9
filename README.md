# postgres-from-row derive, modelled in Dafny

The `postgres-from-row` crate's derive macro (`#[derive(FromRow)]`) writes an
`impl FromRow for S` for a struct `S`. The impl has two methods:

- a panicking `from_row(row)`;
- a fallible `try_from_row(row) -> Result<Self, Error>`.

This project models the decisions the derive makes, with abstract syntax
in place of token streams:

- which item shapes it accepts: only a struct with named fields;
- which type each field is read as, its *target type*. This is the `from`
  type, else the `try_from` type, else the declared type.
- what each field's initialiser entry is in both methods. It is either a read
  of the column named after the field, or, for a `flatten` field, a call of the
  target type's own `FromRow` on the whole row. It can be wrapped once in a
  `From` or `TryFrom` conversion. `?` handles errors in `try_from_row`;
  `.expect` handles the `TryFrom` in `from_row`.
- which trait bounds the where clause of the impl receives.

Modules:

- `Wrappers` (`wrappers.dfy`): `Option` and `Result`.
- `Generated` (`generated.dfy`): the emitted code as data. `Expr` is one
  extraction expression and `Predicate` one where-clause bound. Functions
  give each expression its meaning: its type (`TypeOf`), what it reads from
  the row (`Sources`), how many `?` and `.expect` it contains, which bounds it
  relies on (`Required`) and what is left once error handling is erased
  (`Erase`).
- `FromRowField` (`from_row_field.dfy`): a field and its options, the target
  type and the two initialiser entries.
- `DeriveFromRow` (`derive_from_row.dfy`): the shape check, the two
  `map(..).collect()` passes over the fields, and the loop that builds the
  bounds. It also holds the where clause of the impl as a list of tokens.

Text that the source parses into a type (`from = ".."`, `try_from = ".."`) goes
through a parser passed in as `parse: string -> Option<Ty>`. `None` means the
string does not lex, and the derive then reports a `LexError`.

The item the derive is applied to is a `DeriveInput` value. It holds the name,
the struct's own where clause and its fields with their options already
parsed. The client crate (`postgres` or `tokio_postgres`) is the `client`
parameter.

## Model

| member | source | states |
|---|---|---|
| `FromRowField.ParseTy` | postgres-from-row-derive/src/lib.rs:125-129 | parsing an attribute string succeeds exactly when the parser accepts it; otherwise the error is a lex error naming that string |
| `FromRowField.TargetTy` | postgres-from-row-derive/src/lib.rs:124-132 | the target type is the parsed `from` type when `from` is set, else the parsed `try_from` type when that is set, else the declared type; a field without conversion options never fails |
| `FromRowField.FromTakesPrecedence` | postgres-from-row-derive/src/lib.rs:124-175 | once `from` is set, changing `try_from` (even to a string that does not parse) changes neither the target type nor either generated entry |
| `FromRowField.GenerateFromRow` | postgres-from-row-derive/src/lib.rs:134-154 | fails exactly when the target type fails, with its error; otherwise the entry is labelled with the field's identifier and has the field's declared type. A plain field reads the column named by its identifier at the target type; a flatten field reads the whole row through the target type's `FromRow`. It has no `?`, and one `.expect` only for a `try_from` field without `from`. It relies on `FromSql`/`FromRow` for the target type plus `From` (for `from`) or `TryFrom` (for `try_from`) |
| `FromRowField.GenerateTryFromRow` | postgres-from-row-derive/src/lib.rs:156-175 | the same target, label, type, source and bounds as the panicking entry, but with no `.expect`: one `?` after the read, and a second after the `TryFrom` of a `try_from` field |
| `FromRowField.PathsDifferOnlyInErrorHandling` | postgres-from-row-derive/src/lib.rs:134-175 | erasing error handling (`?`, `.expect`, `get` against `try_get`) makes the two entries of a field identical: both read the same thing and apply the same conversion |
| `FromRowField.FailuresHandledPerPath` | postgres-from-row-derive/src/lib.rs:141-172 | in `from_row` every step that can fail is handled by `.expect`, and such a step exists only for a `try_from` field; in `try_from_row` every step that can fail (at least the read) is propagated by `?` |
| `Generated.HandledFallibles` | postgres-from-row-derive/src/lib.rs:141-172 | in any well-typed expression every step that can fail is consumed by exactly one `?` or `.expect`, except the outermost one when the expression itself is fallible |
| `DeriveFromRow.CollectResults` | postgres-from-row-derive/src/lib.rs:63-71 | collecting per-field results succeeds exactly when every field succeeds, giving the results in field order; otherwise it gives the error of the first field that fails |
| `DeriveFromRow.Generate` | postgres-from-row-derive/src/lib.rs:43-109 | an enum, a unit struct or a tuple struct is rejected with the matching unsupported-shape error at the struct name. A named struct gives an impl exactly when every field's target type parses, and otherwise gives the first failing field's error. The impl has one `from_row` and one `try_from_row` entry per field, in declaration order, each labelled with its field's identifier. Its where clause (corrected, see Findings) is well formed, holds the struct's own predicates followed by the derived bounds, and entails every bound `Required` lists for any entry |
| `DeriveFromRow.FieldBounds` | postgres-from-row-derive/src/lib.rs:79-89 | one iteration of the predicate loop adds one or two bounds. The first is `FromRow` on the target type for a flatten field and `FromSql` on it otherwise. A second one, `From<target>` on the declared type, follows exactly when `from` or `try_from` is set |
| `DeriveFromRow.Bounds` | postgres-from-row-derive/src/lib.rs:76-90 | the bounds the loop accumulates are only `FromRow`, `FromSql` and `From` bounds: it never emits `TryFrom` or a predicate of the struct's own |
| `DeriveFromRow.BoundPredicates` | postgres-from-row-derive/src/lib.rs:73-90 | the predicate loop returns exactly the derived bounds of all fields in order, or the error of the first field whose target type fails |
| `DeriveFromRow.BoundsAppend` | postgres-from-row-derive/src/lib.rs:76-90 | the bounds of two field lists put end to end are the bounds of the first followed by those of the second, so the bounds keep declaration order |
| `DeriveFromRow.BoundsCount` | postgres-from-row-derive/src/lib.rs:76-90 | the number of derived bounds is the number of fields plus the number of fields with `from` or `try_from` |
| `DeriveFromRow.BoundsOfField` | postgres-from-row-derive/src/lib.rs:76-90 | field `i`'s bounds sit between those of the fields before it and those of the fields after it |
| `DeriveFromRow.BoundsCoverRequirements` | postgres-from-row-derive/src/lib.rs:76-90 | every bound either entry of a field relies on is entailed by the derived bounds. A `try_from` field's `TryFrom` requirement is entailed through the emitted `From` bound. The converse does not hold: see `TryFromFieldDemandsFrom` |
| `DeriveFromRow.TryFromFieldDemandsFrom` | postgres-from-row-derive/src/lib.rs:87-88 | for a `try_from` field without `from`, the loop emits `From<target>` and no `TryFrom<target>` bound. Neither entry relies on `From<target>`, and the `TryFrom` bound they do rely on does not imply it. So the impl asks more of the field type than its code uses |
| `DeriveFromRow.WhereClauseCoversFields` | postgres-from-row-derive/src/lib.rs:73-93 | the same for every field at once, with the struct's own predicates in front |
| `DeriveFromRow.Punctuate` | postgres-from-row-derive/src/lib.rs:93 | `#(..),*` on n predicates gives 2n-1 tokens (none for no predicates): the predicates in order at the even positions, a comma at every odd one, so no comma at either end |
| `DeriveFromRow.OriginalTokens` | postgres-from-row-derive/src/lib.rs:73-93 | the struct's own where clause, re-emitted, is well formed and holds exactly its predicates in order. It ends with a comma exactly when the struct's where clause has predicates and ends with a comma |
| `DeriveFromRow.WhereTokensAsWritten` | postgres-from-row-derive/src/lib.rs:93 | the where clause as written loses no predicate: it holds the struct's own predicates followed by the derived bounds. Only the separator between the two lists is at fault |
| `DeriveFromRow.PunctuateWellFormed` | postgres-from-row-derive/src/lib.rs:93 | a comma-separated list of predicates is a well-formed where clause and holds exactly those predicates, in order |
| `DeriveFromRow.WhereTokens` | postgres-from-row-derive/src/lib.rs:73-93 | the where clause (corrected, see Findings) is well formed and lists the struct's own predicates followed by the derived bounds |
| `DeriveFromRow.WellFormedConcat` | postgres-from-row-derive/src/lib.rs:93 | two well-formed where-clause token lists emitted side by side form a well-formed one exactly when either is empty or the first ends with a comma |
| `DeriveFromRow.AsWrittenWellFormedIff` | postgres-from-row-derive/src/lib.rs:73-93 | the where clause as written is well formed if and only if at least one holds: the struct has no where predicates, its where clause ends with a comma, or no bounds are derived |
| `DeriveFromRow.MissingCommaExample` | postgres-from-row-derive/src/lib.rs:93 | `struct S<T> where T: Clone { a: T }` gets a where clause as written that is not well formed |

## Findings

| source | as written | input that shows it | evidently intended | confidence | as-written member | corrected member |
|---|---|---|---|---|---|---|
| postgres-from-row-derive/src/lib.rs:73-93 | `#(#original_predicates),* #(#predicates),*` emits the struct's own where predicates (one punctuated list) and then the derived bounds with no comma between the two lists | `struct S<T> where T: Clone { a: T }` (a where clause without a trailing comma, at least one field): the impl reads `where T: Clone T: for<'a> FromSql<'a>` | one comma-separated list: the struct's predicates, then the derived bounds | medium, not executed | `DeriveFromRow.WhereTokensAsWritten`, `DeriveFromRow.AsWrittenWellFormedIff`, `DeriveFromRow.MissingCommaExample` | `DeriveFromRow.WhereTokens`, used by `DeriveFromRow.Generate` |

## Left out

- Attribute parsing by darling (postgres-from-row-derive/src/lib.rs:26, 30-40, 112-121) is foreign library code. The model starts from a parsed `DeriveInput`. darling's own `supports(struct_named)` check, which already refuses enums, unit structs and tuple structs, is left out; the model keeps `generate`'s own shape checks.
- Token-stream construction with `quote!`, `syn` and `proc_macro2`, and reporting errors through `write_errors` (lines 17-23, 92-108), are foreign calls. Expressions and bounds are datatypes; errors are returned as `Err` values.
- Parsing a type from a string (`str::parse` at lines 126 and 128) is an oracle parameter. The model does not capture which strings lex.
- Generic parameters (`split_for_impl`, line 46) are not modelled: the impl keeps only the struct name and the where clause.
- The two entry points `derive_from_row_tokio_postgres` and `derive_from_row_postgres` (lines 7-15) only choose the client crate name. That name is the `client` parameter.
- Error spans are reduced to the struct name (for shape errors) or the text that failed to parse.
- `ident.unwrap()` (lines 135 and 157) cannot fail for a struct with named fields, so `Field.ident` is a plain string.
- The `collect` at lines 68-71 and the `?` at line 77 re-run the same target-type parse as lines 63-66. Once those lines succeed, neither can fail. `Generate` therefore takes their results without a second error branch. `BoundPredicates` still models the `?` of line 77 in isolation.
- `Generated.TypeOf`: does not model the error-type conversion that `?` performs into the client's `Error`, nor the `Debug` bound that `.expect` needs. `?` and `.expect` unwrap any fallible value.
- Runtime behaviour of `Row::get` and `Row::try_get` (column lookup, SQL decoding) is external library code and I/O.
- src/lib.rs only declares the `FromRow` trait and re-exports items chosen by cargo features; it has no logic. tests/integration.rs is a compile-only usage example.
- The crate has no option to rename a column and does not reject `from` together with `try_from`: when both are set, `from` silently wins. The model follows the code.
