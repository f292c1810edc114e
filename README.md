# sqlitemeta table parser: a verified model of the projection layer

sqlitemeta hands a SQLite `CREATE TABLE` / `ALTER TABLE` statement to an
external C parser. It then turns the parsed statement into R values
(`src/table-parser.c`). The result is a named list of 11 fields. Two of them
are tibbles: one row per column definition (16 columns) and one row per table
constraint (14 columns). Each constraint row in turn holds a tibble of its
indexed columns (3 columns).

This project models that projection in Dafny.

- `wrappers.dfy`: `Option`. An absent string in the AST is a NULL `sql3string *`.
- `ast.dfy`: the parsed statement as the projection reads it through the parser's
  accessors: `Table`, `Column`, `Constraint`, `IdxColumn` and `ForeignKeyClause`.
  Each C enumeration is a datatype whose `Ordinal()` is the raw C value and whose
  `Label()` is the level name R shows.
- `rvalues.dfy`: R values as data, with `names`, `class`, `levels` and
  `row.names` as plain fields. Also `rstr`, `rchr`, `list_to_df`, and total
  accessors that read a cell back out of a value.
- `table_parser.dfy`: the projectors.
  - Each projector is a method that reads the count N and returns NULL when N
    is 0. Otherwise it preallocates N-element vectors and fills element i from
    the i-th AST element in a `for` loop, as the C code does.
  - Each method is proved equal to a specification function. That function
    maps each AST element to a row record (`IdxRowOf`, `ConstraintRowOf`,
    `ColumnRowOf`) and then lays the rows out column by column.
  - Lemmas give the frame's shape, read row i back, and show what the factors
    display.
- `readback.dfy`: inverse decoders from the R values back to the AST.
  - Round-trip lemmas show the projection loses nothing: `TableOf(TableInfo(t)) == t`.
    So `TableInfo` is injective.
  - A lemma shows the consequence of the duplicated "fk_cols" name: a lookup
    by that name finds column 6, and no name reaches column 9.

Encodings the model fixes, as the code writes them:

- **Absent strings.** An absent string is `NULL` at the top level (`rstr`) and
  `NA_character_` inside a vector (`rchr`).
- **Empty collections.** Every projector returns `NULL` when its count is 0.
- **Factors.** These factors store raw value + 1 as the code:
  - the column's `order_pk` and its three conflict clauses;
  - the constraint's `type`;
  - `fk_on_delete`, `fk_on_update` and `fk_deferrable`.

  Two plain integer columns store the raw value, with no offset: the
  constraint's `conflict_clause` and the indexed column's `order`.
- **Foreign-key gating.** A constraint without a REFERENCES clause has NA in
  `fk_table`, `fk_num_cols`, `fk_on_delete`, `fk_on_update`, `fk_match` and
  `fk_deferrable`, and `NULL` in its `fk_cols` cell. `num_fk_cols` (the count
  of local foreign-key columns) is filled in either way.

Three choices of the code that a reader might expect to go the other way; the
model follows the code:

- Gating depends on whether the clause is present (src/table-parser.c:249-250),
  not on the constraint's kind.
- The constraint's conflict clause is a raw integer column, not a factor of
  policy names (src/table-parser.c:244).
- An empty column or constraint list is `NULL`, not an empty frame
  (src/table-parser.c:175-177, 357-359).

## Model

| member | source | states |
|---|---|---|
| RValues.Rstr | src/table-parser.c:17-22 | NULL exactly for an absent string; otherwise a length-one character vector whose text is the string |
| RValues.Rchr | src/table-parser.c:27-32 | NA_STRING exactly for an absent string; otherwise an element holding exactly that text |
| RValues.ListToDf | src/table-parser.c:38-64 | names and columns kept; class `tbl_df, tbl, data.frame`; compact row names `c(NA, -n)` read back as n rows |
| TableParser.OrderCode | src/table-parser.c:489 | `order_pk` code is raw + 1, and at ORDER_LEVELS it shows the order's own name |
| TableParser.ConflictCode | src/table-parser.c:490-492 | column conflict codes are raw + 1, and at CONFLICT_LEVELS they show the policy's name |
| TableParser.FkActionCode | src/table-parser.c:254-255 | on delete / on update codes are raw + 1, and at FK_ACTION_LEVELS they show the action's name |
| TableParser.DeferrableCode | src/table-parser.c:257 | deferrable code is raw + 1, and at DEFERRABLE_LEVELS (7 levels) it shows the mode's name |
| TableParser.ConstraintTypeCode | src/table-parser.c:242 | constraint type code is raw + 1, and at CONSTRAINT_TYPE_LEVELS it shows the kind's name |
| TableParser.StatementTypeLabel | src/table-parser.c:525-532 | `types[kind]` is the statement kind's own label |
| TableParser.ChrVector | src/table-parser.c:123-131 | NULL exactly for an empty list; otherwise a character vector of the same length whose i-th element reads back as the i-th name (NA for absent) |
| TableParser.ParseFkColumn | src/table-parser.c:118-135 | `parse_fk_column` equals ChrVector of the constraint's local foreign-key columns |
| TableParser.ParseFkGetColumn | src/table-parser.c:142-159 | `parse_fk_get_column` equals ChrVector of the clause's referenced columns |
| TableParser.IdxRowOf | src/table-parser.c:102-105 | name and collation read back as the AST's (NA for absent); `order` is the raw value, in 0..2, with no +1 |
| TableParser.IdxColumnFrame | src/table-parser.c:74-78 | NULL exactly when there are no indexed columns; otherwise a data frame with the three names and N rows |
| TableParser.IdxColumnFrameShape | src/table-parser.c:80-98 | a non-empty list gives a tibble with names name/collate/order, every column of length N, typed character, character, integer |
| TableParser.IdxColumnFrameRow | src/table-parser.c:101-106 | row i of the frame is exactly the i-th indexed column's row: order and length preserved |
| TableParser.ParseIndexedColumn | src/table-parser.c:71-112 | the method's result equals IdxColumnFrame of the constraint's indexed columns |
| TableParser.ConstraintRowOf | src/table-parser.c:241-266 | name and check text read back; type shows its label; conflict is raw in 0..5; idx_cols is the indexed-column frame; num_fk_cols is the local count and fk_cols (6) the local list, always; fk_num_cols is NA exactly without a clause; without one every fk cell is NA or NULL, with one the cells describe that clause |
| TableParser.ConstraintFrame | src/table-parser.c:173-177 | NULL exactly when there are no constraints; otherwise a data frame with the 14 names and N rows |
| TableParser.ConstraintFrameShape | src/table-parser.c:179-235 | a non-empty list gives a 14-column tibble, every column of length N, with the column types and the level tables of its four factors |
| TableParser.ConstraintFrameRow | src/table-parser.c:238-267 | row i of the frame is exactly the i-th constraint's row |
| TableParser.ConstraintFrameLabels | src/table-parser.c:272-334 | row i's type factor shows the kind's name; the action and deferrable factors show their names with a clause and NA without |
| TableParser.ParseTableConstraints | src/table-parser.c:166-340 | the method's result equals ConstraintFrame of the table's constraints |
| TableParser.ColumnRowOf | src/table-parser.c:476-496 | every string reads back (NA for absent); the four flags are copied; order and the three conflicts show their names through 1-based codes |
| TableParser.ColumnFrame | src/table-parser.c:355-359 | NULL exactly when there are no columns; otherwise a data frame with the 16 names and N rows |
| TableParser.ColumnFrameShape | src/table-parser.c:364-470 | a non-empty list gives a 16-column tibble, every column of length N, with character, logical and factor columns where the code puts them |
| TableParser.ColumnFrameRow | src/table-parser.c:474-497 | row i of the frame is exactly the i-th column's row |
| TableParser.ColumnFrameLabels | src/table-parser.c:411-445 | row i's order_pk and conflict factors show the names of the column's order and conflict policies |
| TableParser.ParseColumnInfo | src/table-parser.c:348-503 | the method's result equals ColumnFrame of the table's columns |
| TableParser.TableInfo | src/table-parser.c:534-559 | an 11-field list with the table-info names: name, schema, comment and the rename targets read back (NULL exactly when absent); the flags as length-one logicals; the two frames; `type` the kind's label |
| TableParser.Parse | src/table-parser.c:512-565 | no parsed table gives the error "Couldn't parse CREATE TABLE from given sql" and frees nothing; a parsed table gives TableInfo of it and frees it exactly once |
| Readback.StatementTypeLabelIndex | src/table-parser.c:525-532 | the `types[]` labels are distinct: a kind's label is first found at the kind's own index |
| Readback.ChrListRoundTrip | src/table-parser.c:129-131 | decoding a projected name list gives back the list, NA entries and order included |
| Readback.IdxColumnsRoundTrip | src/table-parser.c:101-106 | decoding the indexed-column frame gives back the indexed columns, the raw order included |
| Readback.ConstraintRowRoundTrip | src/table-parser.c:241-266 | decoding a constraint row gives back the constraint; the clause is recovered from whether fk_num_cols is NA |
| Readback.ConstraintsRoundTrip | src/table-parser.c:238-267 | decoding the constraint frame gives back the constraint list |
| Readback.ColumnRowRoundTrip | src/table-parser.c:478-496 | decoding a column row gives back the column definition |
| Readback.ColumnsRoundTrip | src/table-parser.c:474-497 | decoding the column frame gives back the column list |
| Readback.TableRoundTrip | src/table-parser.c:549-559 | decoding the table-info list gives back the whole parsed statement |
| Readback.TableInfoInjective | src/table-parser.c:549-559 | two statements with the same table-info list are equal |
| Readback.FkColsIndex | src/table-parser.c:185-198 | names 6 and 9 are both "fk_cols"; the first "fk_cols" is at 6; no name is first found at 9 |
| Readback.FkColsNameShadowsReferencedColumns | src/table-parser.c:191-194 | in any frame with these names, `df[["fk_cols"]]` is column 6 and no name selects column 9 |
| Readback.ConstraintFrameFkColsLookup | src/table-parser.c:191-194 | in the constraint frame, lookup by "fk_cols" returns the local foreign-key column |

## Left out

- The SQL tokenizer and parser (`sql3parse_table` and every `sql3*` accessor) are an external library. Their result is the input: `Parse` takes an `Option<Table>`, with None for a NULL table.
- The SQL text argument and `asChar`/`CHAR` on it are not modelled, because only the parser reads them.
- Enumerations are datatypes, so a raw value outside an enum's range cannot be expressed. Such a value would read outside `types[]` (src/table-parser.c:557) or give an out-of-range factor code. Typing therefore supplies the range preconditions of the C code.
- R memory management (`PROTECT`, `UNPROTECT`, the `nprotect` counters, `mkChar`/`mkString` allocation, garbage collection) is left out; it has no observable effect on the result.
- `setAttrib`, `SET_CLASS` and the `"factor"` class string are not modelled as operations. Names, class, levels and row names are fields of the R value, and the `Factor` constructor stands for an integer vector with class "factor" and those levels.
- `sql3table_free` is only counted (`freeCalls`), because deallocation has nothing to verify.
- `error()` never returns in R; here it is the `Failure` outcome carrying the message.
- Strings are `seq<char>`. `sql3string_cstring`, NUL termination and character encoding are not modelled.
- `-nrows` in `list_to_df` negates an `unsigned int` before storing it as an int. For counts below 2^31 this is -n; wrap-around is not modelled.
- R integers are unbounded `int`s, and NA_INTEGER (INT_MIN in R) is the separate `NAInteger` constructor.
- RValues.ListToDf: modelled as a function returning the data frame, not as a procedure that sets attributes on its argument in place.
- TableParser.ParseTableConstraints: the 14 column vectors are sequence values updated element by element (`v[i := x]`), not heap arrays. As values they cannot alias one another, which keeps the proof that the loop builds the constraint frame small. In-place update and aliasing of these vectors are not captured.
- TableParser.ParseColumnInfo: the 16 column vectors are sequence values updated element by element, for the same reason; in-place update and aliasing are not captured.
- TableParser.Parse: the 11-slot list is a sequence value filled slot by slot, not a heap vector.
- `parse_indexed_column` (src/table-parser.c:96-98), `parse_table_constraints` (src/table-parser.c:222-235) and `parse_column_info` (src/table-parser.c:451-469) store the empty vectors in the list first (`SET_VECTOR_ELT`) and fill them afterwards through that alias. The model assembles the list after the loop, which gives the same final value.
- `src/init.c` is not part of this model; it only registers the `.Call` entry points with R.
