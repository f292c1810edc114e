/**
 * The projection of a parsed CREATE TABLE / ALTER TABLE statement into R
 * values (src/table-parser.c).
 *
 * Each projector is a method that, like the C code, reads a count N,
 * returns NULL when N is 0, and otherwise allocates N-element vectors and
 * fills element i from the i-th AST element in a `for` loop.  Each is proved
 * equal to a specification function that first maps every AST element to a
 * row record (`IdxRowOf`, `ConstraintRowOf`, `ColumnRowOf`) and then lays the
 * rows out column by column.  `IdxRowAt`, `ConstraintRowAt` and `ColumnRowAt`
 * read row i back out of a data frame.
 */
module TableParser {
  import opened Wrappers
  import opened RValues
  import opened Ast

  const IDX_COLUMN_NAMES: seq<string> := ["name", "collate", "order"]

  /** The constraint frame's column names; "fk_cols" names both column 6 and column 9. */
  const CONSTRAINT_NAMES: seq<string> := [
    "name", "type", "idx_cols", "conflict_clause", "check_expr", "num_fk_cols", "fk_cols",
    "fk_table", "fk_num_cols", "fk_cols", "fk_on_delete", "fk_on_update", "fk_match", "fk_deferrable"]

  const COLUMN_NAMES: seq<string> := [
    "name", "type", "length", "constraint_name", "comment",
    "primary_key", "auto_increment", "not_null", "unique",
    "order_pk", "conflict_pk", "conflict_no_null", "conflict_unique",
    "check_expr", "default_expr", "collate_name"]

  const TABLE_INFO_NAMES: seq<string> := [
    "name", "schema", "comment", "temporary", "if_not_exists", "without_rowid",
    "columns", "constraints", "type", "current_name", "new_name"]

  const ORDER_LEVELS: seq<string> := ["none", "ascending", "descending"]
  const CONFLICT_LEVELS: seq<string> := ["none", "rollback", "abort", "fail", "ignore", "replace"]
  const FK_ACTION_LEVELS: seq<string> := ["none", "set null", "set default", "cascade", "restrict", "no action"]
  const DEFERRABLE_LEVELS: seq<string> := [
    "none", "deferrable", "deferrable initially deferred", "deferrable initially immediate",
    "not deferrable", "not deferrable initially deferred", "not deferrable initially immediate"]
  const CONSTRAINT_TYPE_LEVELS: seq<string> := ["primary key", "unique", "check", "foreign key"]

  /** The `types[]` table that labels the statement kind. */
  const STATEMENT_TYPES: seq<string> := [
    "unknown", "table", "rename table", "rename column", "add column", "drop column"]

  const PARSE_ERROR: string := "Couldn't parse CREATE TABLE from given sql"

  /** The result of `parse_`: the table-info list, or the R error it raises. */
  datatype Outcome = Success(info: RValue) | Failure(message: string)

  // ---------------------------------------------------------------------------
  // Factor codes

  /** The level an R factor shows for a 1-based code; None for NA or a code out of range. */
  function LabelOfCode(levels: seq<string>, code: RInt): Option<string>
  {
    if code.Int? && 1 <= code.value <= |levels| then Some(levels[code.value - 1]) else None
  }

  /** A factor with these levels shows, for element i, the level its code picks. */
  lemma FactorShows(v: RValue, levels: seq<string>, i: nat, code: RInt)
    requires v.Factor? && v.levels == levels && IntAt(v, i) == code
    ensures FactorLabel(v, i) == LabelOfCode(levels, code)
  {
  }

  /** A 1-based factor code (raw value + 1) shows the enumerator's own name. */
  function OrderCode(o: Order): (code: RInt)
    ensures code == Int(o.Ordinal() + 1)
    ensures LabelOfCode(ORDER_LEVELS, code) == Some(o.Label())
  {
    Int(o.Ordinal() + 1)
  }

  function ConflictCode(c: Conflict): (code: RInt)
    ensures code == Int(c.Ordinal() + 1)
    ensures LabelOfCode(CONFLICT_LEVELS, code) == Some(c.Label())
  {
    Int(c.Ordinal() + 1)
  }

  function FkActionCode(a: FkAction): (code: RInt)
    ensures code == Int(a.Ordinal() + 1)
    ensures LabelOfCode(FK_ACTION_LEVELS, code) == Some(a.Label())
  {
    Int(a.Ordinal() + 1)
  }

  function DeferrableCode(d: DefType): (code: RInt)
    ensures code == Int(d.Ordinal() + 1)
    ensures LabelOfCode(DEFERRABLE_LEVELS, code) == Some(d.Label())
  {
    Int(d.Ordinal() + 1)
  }

  function ConstraintTypeCode(k: ConstraintType): (code: RInt)
    ensures code == Int(k.Ordinal() + 1)
    ensures LabelOfCode(CONSTRAINT_TYPE_LEVELS, code) == Some(k.Label())
  {
    Int(k.Ordinal() + 1)
  }

  /** The statement kind's entry in `types[]` is its own name. */
  function StatementTypeLabel(k: StatementType): (s: string)
    ensures s == k.Label()
  {
    STATEMENT_TYPES[k.Ordinal()]
  }

  // ---------------------------------------------------------------------------
  // parse_fk_column, parse_fk_get_column

  /** A list of possibly absent names as this layer returns it: NULL when empty, else a character vector. */
  function ChrVector(xs: seq<Option<string>>): (r: RValue)
    ensures r.Nil? <==> |xs| == 0
    ensures |xs| > 0 ==> r.StrVec? && Length(r) == |xs|
    ensures forall i :: 0 <= i < |xs| ==> CharOf(ChrAt(r, i)) == xs[i]
  {
    if |xs| == 0 then Nil
    else StrVec(seq(|xs|, k requires 0 <= k < |xs| => Rchr(xs[k])))
  }

  /** `parse_fk_column`: the constraint's local foreign-key columns. */
  method ParseFkColumn(con: Constraint) returns (r: RValue)
    ensures r == ChrVector(con.fkColumns)
  {
    var n := |con.fkColumns|;
    if n == 0 {
      return Nil;
    }
    var vec := new RChar[n];
    for i := 0 to n
      invariant forall k :: 0 <= k < i ==> vec[k] == Rchr(con.fkColumns[k])
    {
      vec[i] := Rchr(con.fkColumns[i]);
    }
    r := StrVec(vec[..]);
  }

  /** `parse_fk_get_column`: the columns a REFERENCES clause names in the other table. */
  method ParseFkGetColumn(fk: ForeignKeyClause) returns (r: RValue)
    ensures r == ChrVector(fk.columns)
  {
    var n := |fk.columns|;
    if n == 0 {
      return Nil;
    }
    var vec := new RChar[n];
    for i := 0 to n
      invariant forall k :: 0 <= k < i ==> vec[k] == Rchr(fk.columns[k])
    {
      vec[i] := Rchr(fk.columns[i]);
    }
    r := StrVec(vec[..]);
  }

  // ---------------------------------------------------------------------------
  // parse_indexed_column

  datatype IdxRow = IdxRow(name: RChar, collate: RChar, order: RInt)

  /** One indexed column: NA for an absent name or collation; the sort order stored raw, without the +1. */
  function IdxRowOf(c: IdxColumn): (row: IdxRow)
    ensures CharOf(row.name) == c.name && CharOf(row.collate) == c.collate
    ensures row.order == Int(c.order.Ordinal()) && 0 <= row.order.value < |ORDER_LEVELS|
  {
    IdxRow(Rchr(c.name), Rchr(c.collate), Int(c.order.Ordinal()))
  }

  function IdxRowAt(df: RValue, i: nat): IdxRow
  {
    IdxRow(ChrAt(ColumnAt(df, 0), i), ChrAt(ColumnAt(df, 1), i), IntAt(ColumnAt(df, 2), i))
  }

  /** Lays indexed-column rows out column by column, as the 3-column frame. */
  function IdxFrameOf(rows: seq<IdxRow>): (r: RValue)
    ensures r.DataFrame? && r.names == IDX_COLUMN_NAMES && |r.columns| == 3
    ensures r.classes == TIBBLE_CLASSES && RowCount(r) == Some(|rows|)
  {
    var n := |rows|;
    ListToDf(NamedList(IDX_COLUMN_NAMES, [
      StrVec(seq(n, k requires 0 <= k < n => rows[k].name)),
      StrVec(seq(n, k requires 0 <= k < n => rows[k].collate)),
      IntVec(seq(n, k requires 0 <= k < n => rows[k].order))]), n)
  }

  /** Parallel vectors whose k-th entries form row k lay out as the frame of those rows. */
  lemma IdxLayout(rows: seq<IdxRow>, name: seq<RChar>, collate: seq<RChar>, order: seq<RInt>)
    requires |name| == |rows| && |collate| == |rows| && |order| == |rows|
    requires forall k :: 0 <= k < |rows| ==> IdxRow(name[k], collate[k], order[k]) == rows[k]
    ensures ListToDf(NamedList(IDX_COLUMN_NAMES, [StrVec(name), StrVec(collate), IntVec(order)]), |rows|)
            == IdxFrameOf(rows)
  {
    var n := |rows|;
    assert name == seq(n, k requires 0 <= k < n => rows[k].name);
    assert collate == seq(n, k requires 0 <= k < n => rows[k].collate);
    assert order == seq(n, k requires 0 <= k < n => rows[k].order);
  }

  function IdxColumnFrame(cs: seq<IdxColumn>): (r: RValue)
    ensures r.Nil? <==> |cs| == 0
    ensures |cs| > 0 ==> r.DataFrame? && r.names == IDX_COLUMN_NAMES && RowCount(r) == Some(|cs|)
  {
    if |cs| == 0 then Nil
    else IdxFrameOf(seq(|cs|, k requires 0 <= k < |cs| => IdxRowOf(cs[k])))
  }

  /** A non-empty list is a 3-column tibble of N rows: character, character and integer. */
  lemma IdxColumnFrameShape(cs: seq<IdxColumn>)
    requires |cs| > 0
    ensures IsTibble(IdxColumnFrame(cs), IDX_COLUMN_NAMES, |cs|)
    ensures var r := IdxColumnFrame(cs); ColumnAt(r, 0).StrVec? && ColumnAt(r, 1).StrVec? && ColumnAt(r, 2).IntVec?
  {
  }

  /** Row i of the frame is the i-th indexed column's row. */
  lemma IdxColumnFrameRow(cs: seq<IdxColumn>, i: nat)
    requires i < |cs|
    ensures IdxRowAt(IdxColumnFrame(cs), i) == IdxRowOf(cs[i])
  {
  }

  /** `parse_indexed_column`. */
  method ParseIndexedColumn(con: Constraint) returns (r: RValue)
    ensures r == IdxColumnFrame(con.idxColumns)
  {
    var cols := con.idxColumns;
    var n := |cols|;
    if n == 0 {
      return Nil;
    }
    var name := new RChar[n];
    var collate := new RChar[n];
    var order := new RInt[n];
    for i := 0 to n
      invariant forall k :: 0 <= k < i ==> IdxRow(name[k], collate[k], order[k]) == IdxRowOf(cols[k])
    {
      var idxCol := cols[i];
      name[i] := Rchr(idxCol.name);
      collate[i] := Rchr(idxCol.collate);
      order[i] := Int(idxCol.order.Ordinal());
    }
    r := ListToDf(NamedList(IDX_COLUMN_NAMES, [StrVec(name[..]), StrVec(collate[..]), IntVec(order[..])]), n);
    IdxLayout(seq(n, k requires 0 <= k < n => IdxRowOf(cols[k])), name[..], collate[..], order[..]);
  }

  // ---------------------------------------------------------------------------
  // parse_table_constraints

  datatype ConstraintRow = ConstraintRow(
    name: RChar,
    kind: RInt,
    idxCols: RValue,
    conflict: RInt,
    checkExpr: RChar,
    numFkCols: RInt,
    fkColnames: RValue,
    fkTable: RChar,
    fkNumCols: RInt,
    fkCols: RValue,
    fkOnDelete: RInt,
    fkOnUpdate: RInt,
    fkMatch: RChar,
    fkDeferrable: RInt)

  /** Every foreign-key cell of the row is NA (NULL for the column list). */
  predicate NoForeignKey(row: ConstraintRow)
  {
    && row.fkTable == NAString
    && row.fkNumCols == NAInteger
    && row.fkCols == Nil
    && row.fkOnDelete == NAInteger
    && row.fkOnUpdate == NAInteger
    && row.fkMatch == NAString
    && row.fkDeferrable == NAInteger
  }

  /** The foreign-key cells of the row describe this REFERENCES clause. */
  predicate ForeignKeyCells(row: ConstraintRow, fk: ForeignKeyClause)
  {
    && CharOf(row.fkTable) == fk.table
    && row.fkNumCols == Int(|fk.columns|)
    && row.fkCols == ChrVector(fk.columns)
    && LabelOfCode(FK_ACTION_LEVELS, row.fkOnDelete) == Some(fk.onDelete.Label())
    && LabelOfCode(FK_ACTION_LEVELS, row.fkOnUpdate) == Some(fk.onUpdate.Label())
    && CharOf(row.fkMatch) == fk.matchName
    && LabelOfCode(DEFERRABLE_LEVELS, row.fkDeferrable) == Some(fk.deferrable.Label())
  }

  /**
   * One constraint.  The type is a 1-based factor code, the conflict clause
   * raw; the local fk-column count is always filled in, the foreign-key cells
   * only when the constraint has a REFERENCES clause.
   */
  function ConstraintRowOf(c: Constraint): (row: ConstraintRow)
    ensures CharOf(row.name) == c.name && CharOf(row.checkExpr) == c.checkExpr
    ensures LabelOfCode(CONSTRAINT_TYPE_LEVELS, row.kind) == Some(c.kind.Label())
    ensures row.conflict == Int(c.conflict.Ordinal()) && 0 <= row.conflict.value < |CONFLICT_LEVELS|
    ensures row.idxCols == IdxColumnFrame(c.idxColumns)
    ensures row.numFkCols == Int(|c.fkColumns|)
    ensures row.fkColnames == ChrVector(c.fkColumns)
    ensures row.fkNumCols.NAInteger? <==> c.foreignKey.None?
    ensures c.foreignKey.None? ==> NoForeignKey(row)
    ensures c.foreignKey.Some? ==> ForeignKeyCells(row, c.foreignKey.value)
  {
    match c.foreignKey
    case Some(fk) =>
      ConstraintRow(
        Rchr(c.name), ConstraintTypeCode(c.kind), IdxColumnFrame(c.idxColumns), Int(c.conflict.Ordinal()),
        Rchr(c.checkExpr), Int(|c.fkColumns|), ChrVector(c.fkColumns),
        Rchr(fk.table), Int(|fk.columns|), ChrVector(fk.columns), FkActionCode(fk.onDelete),
        FkActionCode(fk.onUpdate), Rchr(fk.matchName), DeferrableCode(fk.deferrable))
    case None =>
      ConstraintRow(
        Rchr(c.name), ConstraintTypeCode(c.kind), IdxColumnFrame(c.idxColumns), Int(c.conflict.Ordinal()),
        Rchr(c.checkExpr), Int(|c.fkColumns|), ChrVector(c.fkColumns),
        NAString, NAInteger, Nil, NAInteger, NAInteger, NAString, NAInteger)
  }

  function ConstraintRowAt(df: RValue, i: nat): ConstraintRow
  {
    ConstraintRow(
      ChrAt(ColumnAt(df, 0), i), IntAt(ColumnAt(df, 1), i), ItemAt(ColumnAt(df, 2), i),
      IntAt(ColumnAt(df, 3), i), ChrAt(ColumnAt(df, 4), i), IntAt(ColumnAt(df, 5), i),
      ItemAt(ColumnAt(df, 6), i), ChrAt(ColumnAt(df, 7), i), IntAt(ColumnAt(df, 8), i),
      ItemAt(ColumnAt(df, 9), i), IntAt(ColumnAt(df, 10), i), IntAt(ColumnAt(df, 11), i),
      ChrAt(ColumnAt(df, 12), i), IntAt(ColumnAt(df, 13), i))
  }

  /** The R types of the constraint frame's columns, with the levels of its factors. */
  predicate ConstraintColumnTypes(df: RValue)
  {
    && ColumnAt(df, 0).StrVec?
    && ColumnAt(df, 1).Factor? && ColumnAt(df, 1).levels == CONSTRAINT_TYPE_LEVELS
    && ColumnAt(df, 2).List?
    && ColumnAt(df, 3).IntVec?
    && ColumnAt(df, 4).StrVec?
    && ColumnAt(df, 5).IntVec?
    && ColumnAt(df, 6).List?
    && ColumnAt(df, 7).StrVec?
    && ColumnAt(df, 8).IntVec?
    && ColumnAt(df, 9).List?
    && ColumnAt(df, 10).Factor? && ColumnAt(df, 10).levels == FK_ACTION_LEVELS
    && ColumnAt(df, 11).Factor? && ColumnAt(df, 11).levels == FK_ACTION_LEVELS
    && ColumnAt(df, 12).StrVec?
    && ColumnAt(df, 13).Factor? && ColumnAt(df, 13).levels == DEFERRABLE_LEVELS
  }

  /** Lays constraint rows out column by column, as the 14-column constraint frame. */
  function ConstraintFrameOf(rows: seq<ConstraintRow>): (r: RValue)
    ensures r.DataFrame? && r.names == CONSTRAINT_NAMES && |r.columns| == 14
    ensures r.classes == TIBBLE_CLASSES && RowCount(r) == Some(|rows|)
  {
    var n := |rows|;
    ListToDf(NamedList(CONSTRAINT_NAMES, [
      StrVec(seq(n, k requires 0 <= k < n => rows[k].name)),
      Factor(seq(n, k requires 0 <= k < n => rows[k].kind), CONSTRAINT_TYPE_LEVELS),
      List(seq(n, k requires 0 <= k < n => rows[k].idxCols)),
      IntVec(seq(n, k requires 0 <= k < n => rows[k].conflict)),
      StrVec(seq(n, k requires 0 <= k < n => rows[k].checkExpr)),
      IntVec(seq(n, k requires 0 <= k < n => rows[k].numFkCols)),
      List(seq(n, k requires 0 <= k < n => rows[k].fkColnames)),
      StrVec(seq(n, k requires 0 <= k < n => rows[k].fkTable)),
      IntVec(seq(n, k requires 0 <= k < n => rows[k].fkNumCols)),
      List(seq(n, k requires 0 <= k < n => rows[k].fkCols)),
      Factor(seq(n, k requires 0 <= k < n => rows[k].fkOnDelete), FK_ACTION_LEVELS),
      Factor(seq(n, k requires 0 <= k < n => rows[k].fkOnUpdate), FK_ACTION_LEVELS),
      StrVec(seq(n, k requires 0 <= k < n => rows[k].fkMatch)),
      Factor(seq(n, k requires 0 <= k < n => rows[k].fkDeferrable), DEFERRABLE_LEVELS)]), n)
  }

  /** Parallel vectors whose k-th entries form row k lay out as the frame of those rows. */
  lemma ConstraintLayout(
    rows: seq<ConstraintRow>, name: seq<RChar>, kind: seq<RInt>, idxCols: seq<RValue>,
    conflict: seq<RInt>, checkExpr: seq<RChar>, numFkCols: seq<RInt>, fkColnames: seq<RValue>,
    fkTable: seq<RChar>, fkNumCols: seq<RInt>, fkCols: seq<RValue>, fkOnDelete: seq<RInt>,
    fkOnUpdate: seq<RInt>, fkMatch: seq<RChar>, fkDeferrable: seq<RInt>)
    requires |name| == |rows| && |kind| == |rows| && |idxCols| == |rows| && |conflict| == |rows|
    requires |checkExpr| == |rows| && |numFkCols| == |rows| && |fkColnames| == |rows|
    requires |fkTable| == |rows| && |fkNumCols| == |rows| && |fkCols| == |rows|
    requires |fkOnDelete| == |rows| && |fkOnUpdate| == |rows| && |fkMatch| == |rows| && |fkDeferrable| == |rows|
    requires forall k :: 0 <= k < |rows| ==>
      ConstraintRow(
        name[k], kind[k], idxCols[k], conflict[k], checkExpr[k], numFkCols[k], fkColnames[k],
        fkTable[k], fkNumCols[k], fkCols[k], fkOnDelete[k], fkOnUpdate[k], fkMatch[k], fkDeferrable[k])
      == rows[k]
    ensures ListToDf(NamedList(CONSTRAINT_NAMES, [
              StrVec(name), Factor(kind, CONSTRAINT_TYPE_LEVELS), List(idxCols), IntVec(conflict),
              StrVec(checkExpr), IntVec(numFkCols), List(fkColnames), StrVec(fkTable), IntVec(fkNumCols),
              List(fkCols), Factor(fkOnDelete, FK_ACTION_LEVELS), Factor(fkOnUpdate, FK_ACTION_LEVELS),
              StrVec(fkMatch), Factor(fkDeferrable, DEFERRABLE_LEVELS)]), |rows|)
            == ConstraintFrameOf(rows)
  {
    var n := |rows|;
    assert name == seq(n, k requires 0 <= k < n => rows[k].name);
    assert kind == seq(n, k requires 0 <= k < n => rows[k].kind);
    assert idxCols == seq(n, k requires 0 <= k < n => rows[k].idxCols);
    assert conflict == seq(n, k requires 0 <= k < n => rows[k].conflict);
    assert checkExpr == seq(n, k requires 0 <= k < n => rows[k].checkExpr);
    assert numFkCols == seq(n, k requires 0 <= k < n => rows[k].numFkCols);
    assert fkColnames == seq(n, k requires 0 <= k < n => rows[k].fkColnames);
    assert fkTable == seq(n, k requires 0 <= k < n => rows[k].fkTable);
    assert fkNumCols == seq(n, k requires 0 <= k < n => rows[k].fkNumCols);
    assert fkCols == seq(n, k requires 0 <= k < n => rows[k].fkCols);
    assert fkOnDelete == seq(n, k requires 0 <= k < n => rows[k].fkOnDelete);
    assert fkOnUpdate == seq(n, k requires 0 <= k < n => rows[k].fkOnUpdate);
    assert fkMatch == seq(n, k requires 0 <= k < n => rows[k].fkMatch);
    assert fkDeferrable == seq(n, k requires 0 <= k < n => rows[k].fkDeferrable);
  }

  function ConstraintFrame(cs: seq<Constraint>): (r: RValue)
    ensures r.Nil? <==> |cs| == 0
    ensures |cs| > 0 ==> r.DataFrame? && r.names == CONSTRAINT_NAMES && RowCount(r) == Some(|cs|)
  {
    if |cs| == 0 then Nil
    else ConstraintFrameOf(seq(|cs|, k requires 0 <= k < |cs| => ConstraintRowOf(cs[k])))
  }

  /** A non-empty list is a 14-column tibble of N rows, its factors carrying their level tables. */
  lemma ConstraintFrameShape(cs: seq<Constraint>)
    requires |cs| > 0
    ensures IsTibble(ConstraintFrame(cs), CONSTRAINT_NAMES, |cs|)
    ensures ConstraintColumnTypes(ConstraintFrame(cs))
  {
  }

  /** Row i of the frame is the i-th constraint's row. */
  lemma ConstraintFrameRow(cs: seq<Constraint>, i: nat)
    requires i < |cs|
    ensures ConstraintRowAt(ConstraintFrame(cs), i) == ConstraintRowOf(cs[i])
  {
  }

  /**
   * The labels R shows for row i's factors: the constraint type always, the
   * foreign-key actions and deferrability only when there is a REFERENCES
   * clause (NA otherwise).
   */
  lemma ConstraintFrameLabels(cs: seq<Constraint>, i: nat)
    requires i < |cs|
    ensures FactorLabel(ColumnAt(ConstraintFrame(cs), 1), i) == Some(cs[i].kind.Label())
    ensures cs[i].foreignKey.Some? ==>
      && FactorLabel(ColumnAt(ConstraintFrame(cs), 10), i) == Some(cs[i].foreignKey.value.onDelete.Label())
      && FactorLabel(ColumnAt(ConstraintFrame(cs), 11), i) == Some(cs[i].foreignKey.value.onUpdate.Label())
      && FactorLabel(ColumnAt(ConstraintFrame(cs), 13), i) == Some(cs[i].foreignKey.value.deferrable.Label())
    ensures cs[i].foreignKey.None? ==>
      && FactorLabel(ColumnAt(ConstraintFrame(cs), 10), i) == None
      && FactorLabel(ColumnAt(ConstraintFrame(cs), 11), i) == None
      && FactorLabel(ColumnAt(ConstraintFrame(cs), 13), i) == None
  {
    var df := ConstraintFrame(cs);
    var row := ConstraintRowOf(cs[i]);
    ConstraintFrameShape(cs);
    ConstraintFrameRow(cs, i);
    FactorShows(ColumnAt(df, 1), CONSTRAINT_TYPE_LEVELS, i, row.kind);
    FactorShows(ColumnAt(df, 10), FK_ACTION_LEVELS, i, row.fkOnDelete);
    FactorShows(ColumnAt(df, 11), FK_ACTION_LEVELS, i, row.fkOnUpdate);
    FactorShows(ColumnAt(df, 13), DEFERRABLE_LEVELS, i, row.fkDeferrable);
  }

  /** `parse_table_constraints`. */
  method ParseTableConstraints(table: Table) returns (r: RValue)
    ensures r == ConstraintFrame(table.constraints)
  {
    var cs := table.constraints;
    var n := |cs|;
    if n == 0 {
      return Nil;
    }
    var conName: seq<RChar> := seq(n, _ => NAString);
    var conType: seq<RInt> := seq(n, _ => NAInteger);
    var idxCols: seq<RValue> := seq(n, _ => Nil);
    var conConflict: seq<RInt> := seq(n, _ => NAInteger);
    var conCheckExpr: seq<RChar> := seq(n, _ => NAString);
    var conNumFkCols: seq<RInt> := seq(n, _ => NAInteger);
    var fkColnames: seq<RValue> := seq(n, _ => Nil);
    var fkTable: seq<RChar> := seq(n, _ => NAString);
    var fkNumCols: seq<RInt> := seq(n, _ => NAInteger);
    var fkCols: seq<RValue> := seq(n, _ => Nil);
    var fkOnDelete: seq<RInt> := seq(n, _ => NAInteger);
    var fkOnUpdate: seq<RInt> := seq(n, _ => NAInteger);
    var fkMatch: seq<RChar> := seq(n, _ => NAString);
    var fkDeferrable: seq<RInt> := seq(n, _ => NAInteger);
    for i := 0 to n
      invariant |conName| == n && |conType| == n && |idxCols| == n && |conConflict| == n && |conCheckExpr| == n && |conNumFkCols| == n && |fkColnames| == n
      invariant |fkTable| == n && |fkNumCols| == n && |fkCols| == n && |fkOnDelete| == n && |fkOnUpdate| == n && |fkMatch| == n && |fkDeferrable| == n
      invariant forall k :: 0 <= k < i ==>
        ConstraintRow(
          conName[k], conType[k], idxCols[k], conConflict[k], conCheckExpr[k], conNumFkCols[k],
          fkColnames[k], fkTable[k], fkNumCols[k], fkCols[k], fkOnDelete[k], fkOnUpdate[k],
          fkMatch[k], fkDeferrable[k])
        == ConstraintRowOf(cs[k])
    {
      var con := cs[i];
      conName := conName[i := Rchr(con.name)];
      conType := conType[i := Int(1 + con.kind.Ordinal())];
      var idx := ParseIndexedColumn(con);
      idxCols := idxCols[i := idx];
      conConflict := conConflict[i := Int(con.conflict.Ordinal())];
      conCheckExpr := conCheckExpr[i := Rchr(con.checkExpr)];
      conNumFkCols := conNumFkCols[i := Int(|con.fkColumns|)];
      var local := ParseFkColumn(con);
      fkColnames := fkColnames[i := local];
      match con.foreignKey {
        case Some(fk) =>
          fkTable := fkTable[i := Rchr(fk.table)];
          fkNumCols := fkNumCols[i := Int(|fk.columns|)];
          var referenced := ParseFkGetColumn(fk);
          fkCols := fkCols[i := referenced];
          fkOnDelete := fkOnDelete[i := Int(1 + fk.onDelete.Ordinal())];
          fkOnUpdate := fkOnUpdate[i := Int(1 + fk.onUpdate.Ordinal())];
          fkMatch := fkMatch[i := Rchr(fk.matchName)];
          fkDeferrable := fkDeferrable[i := Int(1 + fk.deferrable.Ordinal())];
        case None =>
          fkTable := fkTable[i := NAString];
          fkNumCols := fkNumCols[i := NAInteger];
          fkCols := fkCols[i := Nil];
          fkOnDelete := fkOnDelete[i := NAInteger];
          fkOnUpdate := fkOnUpdate[i := NAInteger];
          fkMatch := fkMatch[i := NAString];
          fkDeferrable := fkDeferrable[i := NAInteger];
      }
    }
    r := ListToDf(NamedList(CONSTRAINT_NAMES, [
      StrVec(conName), Factor(conType, CONSTRAINT_TYPE_LEVELS), List(idxCols),
      IntVec(conConflict), StrVec(conCheckExpr), IntVec(conNumFkCols),
      List(fkColnames), StrVec(fkTable), IntVec(fkNumCols), List(fkCols),
      Factor(fkOnDelete, FK_ACTION_LEVELS), Factor(fkOnUpdate, FK_ACTION_LEVELS),
      StrVec(fkMatch), Factor(fkDeferrable, DEFERRABLE_LEVELS)]), n);
    ConstraintLayout(
      seq(n, k requires 0 <= k < n => ConstraintRowOf(cs[k])),
      conName, conType, idxCols, conConflict, conCheckExpr, conNumFkCols,
      fkColnames, fkTable, fkNumCols, fkCols, fkOnDelete, fkOnUpdate, fkMatch, fkDeferrable);
  }

  // ---------------------------------------------------------------------------
  // parse_column_info

  datatype ColumnRow = ColumnRow(
    name: RChar,
    declType: RChar,
    length: RChar,
    constraintName: RChar,
    comment: RChar,
    primaryKey: bool,
    autoIncrement: bool,
    notNull: bool,
    unique: bool,
    orderPk: RInt,
    conflictPk: RInt,
    conflictNotNull: RInt,
    conflictUnique: RInt,
    checkExpr: RChar,
    defaultExpr: RChar,
    collateName: RChar)

  /** One column: NA for each absent string, the flags as logicals, the order and conflicts as 1-based factor codes. */
  function ColumnRowOf(c: Column): (row: ColumnRow)
    ensures CharOf(row.name) == c.name && CharOf(row.declType) == c.declType
    ensures CharOf(row.length) == c.length && CharOf(row.constraintName) == c.constraintName
    ensures CharOf(row.comment) == c.comment && CharOf(row.checkExpr) == c.checkExpr
    ensures CharOf(row.defaultExpr) == c.defaultExpr && CharOf(row.collateName) == c.collateName
    ensures row.primaryKey == c.isPrimaryKey && row.autoIncrement == c.isAutoincrement
    ensures row.notNull == c.isNotNull && row.unique == c.isUnique
    ensures LabelOfCode(ORDER_LEVELS, row.orderPk) == Some(c.pkOrder.Label())
    ensures LabelOfCode(CONFLICT_LEVELS, row.conflictPk) == Some(c.pkConflict.Label())
    ensures LabelOfCode(CONFLICT_LEVELS, row.conflictNotNull) == Some(c.notNullConflict.Label())
    ensures LabelOfCode(CONFLICT_LEVELS, row.conflictUnique) == Some(c.uniqueConflict.Label())
  {
    ColumnRow(
      Rchr(c.name), Rchr(c.declType), Rchr(c.length), Rchr(c.constraintName), Rchr(c.comment),
      c.isPrimaryKey, c.isAutoincrement, c.isNotNull, c.isUnique,
      OrderCode(c.pkOrder), ConflictCode(c.pkConflict), ConflictCode(c.notNullConflict),
      ConflictCode(c.uniqueConflict),
      Rchr(c.checkExpr), Rchr(c.defaultExpr), Rchr(c.collateName))
  }

  function ColumnRowAt(df: RValue, i: nat): ColumnRow
  {
    ColumnRow(
      ChrAt(ColumnAt(df, 0), i), ChrAt(ColumnAt(df, 1), i), ChrAt(ColumnAt(df, 2), i),
      ChrAt(ColumnAt(df, 3), i), ChrAt(ColumnAt(df, 4), i),
      LglAt(ColumnAt(df, 5), i), LglAt(ColumnAt(df, 6), i), LglAt(ColumnAt(df, 7), i),
      LglAt(ColumnAt(df, 8), i),
      IntAt(ColumnAt(df, 9), i), IntAt(ColumnAt(df, 10), i), IntAt(ColumnAt(df, 11), i),
      IntAt(ColumnAt(df, 12), i),
      ChrAt(ColumnAt(df, 13), i), ChrAt(ColumnAt(df, 14), i), ChrAt(ColumnAt(df, 15), i))
  }

  /** The R types of the column frame's columns, with the levels of its factors. */
  predicate ColumnColumnTypes(df: RValue)
  {
    && ColumnAt(df, 0).StrVec? && ColumnAt(df, 1).StrVec? && ColumnAt(df, 2).StrVec?
    && ColumnAt(df, 3).StrVec? && ColumnAt(df, 4).StrVec?
    && ColumnAt(df, 5).LglVec? && ColumnAt(df, 6).LglVec? && ColumnAt(df, 7).LglVec?
    && ColumnAt(df, 8).LglVec?
    && ColumnAt(df, 9).Factor? && ColumnAt(df, 9).levels == ORDER_LEVELS
    && ColumnAt(df, 10).Factor? && ColumnAt(df, 10).levels == CONFLICT_LEVELS
    && ColumnAt(df, 11).Factor? && ColumnAt(df, 11).levels == CONFLICT_LEVELS
    && ColumnAt(df, 12).Factor? && ColumnAt(df, 12).levels == CONFLICT_LEVELS
    && ColumnAt(df, 13).StrVec? && ColumnAt(df, 14).StrVec? && ColumnAt(df, 15).StrVec?
  }

  /** Lays column rows out column by column, as the 16-column column frame. */
  function ColumnFrameOf(rows: seq<ColumnRow>): (r: RValue)
    ensures r.DataFrame? && r.names == COLUMN_NAMES && |r.columns| == 16
    ensures r.classes == TIBBLE_CLASSES && RowCount(r) == Some(|rows|)
  {
    var n := |rows|;
    ListToDf(NamedList(COLUMN_NAMES, [
      StrVec(seq(n, k requires 0 <= k < n => rows[k].name)),
      StrVec(seq(n, k requires 0 <= k < n => rows[k].declType)),
      StrVec(seq(n, k requires 0 <= k < n => rows[k].length)),
      StrVec(seq(n, k requires 0 <= k < n => rows[k].constraintName)),
      StrVec(seq(n, k requires 0 <= k < n => rows[k].comment)),
      LglVec(seq(n, k requires 0 <= k < n => rows[k].primaryKey)),
      LglVec(seq(n, k requires 0 <= k < n => rows[k].autoIncrement)),
      LglVec(seq(n, k requires 0 <= k < n => rows[k].notNull)),
      LglVec(seq(n, k requires 0 <= k < n => rows[k].unique)),
      Factor(seq(n, k requires 0 <= k < n => rows[k].orderPk), ORDER_LEVELS),
      Factor(seq(n, k requires 0 <= k < n => rows[k].conflictPk), CONFLICT_LEVELS),
      Factor(seq(n, k requires 0 <= k < n => rows[k].conflictNotNull), CONFLICT_LEVELS),
      Factor(seq(n, k requires 0 <= k < n => rows[k].conflictUnique), CONFLICT_LEVELS),
      StrVec(seq(n, k requires 0 <= k < n => rows[k].checkExpr)),
      StrVec(seq(n, k requires 0 <= k < n => rows[k].defaultExpr)),
      StrVec(seq(n, k requires 0 <= k < n => rows[k].collateName))]), n)
  }

  /** Parallel vectors whose k-th entries form row k lay out as the frame of those rows. */
  lemma ColumnLayout(
    rows: seq<ColumnRow>, name: seq<RChar>, declType: seq<RChar>, length: seq<RChar>,
    constraintName: seq<RChar>, comment: seq<RChar>, primaryKey: seq<bool>, autoIncrement: seq<bool>,
    notNull: seq<bool>, unique: seq<bool>, orderPk: seq<RInt>, conflictPk: seq<RInt>,
    conflictNotNull: seq<RInt>, conflictUnique: seq<RInt>, checkExpr: seq<RChar>,
    defaultExpr: seq<RChar>, collateName: seq<RChar>)
    requires |name| == |rows| && |declType| == |rows| && |length| == |rows| && |constraintName| == |rows|
    requires |comment| == |rows| && |primaryKey| == |rows| && |autoIncrement| == |rows| && |notNull| == |rows|
    requires |unique| == |rows| && |orderPk| == |rows| && |conflictPk| == |rows| && |conflictNotNull| == |rows|
    requires |conflictUnique| == |rows| && |checkExpr| == |rows| && |defaultExpr| == |rows| && |collateName| == |rows|
    requires forall k :: 0 <= k < |rows| ==>
      ColumnRow(
        name[k], declType[k], length[k], constraintName[k], comment[k],
        primaryKey[k], autoIncrement[k], notNull[k], unique[k],
        orderPk[k], conflictPk[k], conflictNotNull[k], conflictUnique[k],
        checkExpr[k], defaultExpr[k], collateName[k])
      == rows[k]
    ensures ListToDf(NamedList(COLUMN_NAMES, [
              StrVec(name), StrVec(declType), StrVec(length), StrVec(constraintName), StrVec(comment),
              LglVec(primaryKey), LglVec(autoIncrement), LglVec(notNull), LglVec(unique),
              Factor(orderPk, ORDER_LEVELS), Factor(conflictPk, CONFLICT_LEVELS),
              Factor(conflictNotNull, CONFLICT_LEVELS), Factor(conflictUnique, CONFLICT_LEVELS),
              StrVec(checkExpr), StrVec(defaultExpr), StrVec(collateName)]), |rows|)
            == ColumnFrameOf(rows)
  {
    var n := |rows|;
    assert name == seq(n, k requires 0 <= k < n => rows[k].name);
    assert declType == seq(n, k requires 0 <= k < n => rows[k].declType);
    assert length == seq(n, k requires 0 <= k < n => rows[k].length);
    assert constraintName == seq(n, k requires 0 <= k < n => rows[k].constraintName);
    assert comment == seq(n, k requires 0 <= k < n => rows[k].comment);
    assert primaryKey == seq(n, k requires 0 <= k < n => rows[k].primaryKey);
    assert autoIncrement == seq(n, k requires 0 <= k < n => rows[k].autoIncrement);
    assert notNull == seq(n, k requires 0 <= k < n => rows[k].notNull);
    assert unique == seq(n, k requires 0 <= k < n => rows[k].unique);
    assert orderPk == seq(n, k requires 0 <= k < n => rows[k].orderPk);
    assert conflictPk == seq(n, k requires 0 <= k < n => rows[k].conflictPk);
    assert conflictNotNull == seq(n, k requires 0 <= k < n => rows[k].conflictNotNull);
    assert conflictUnique == seq(n, k requires 0 <= k < n => rows[k].conflictUnique);
    assert checkExpr == seq(n, k requires 0 <= k < n => rows[k].checkExpr);
    assert defaultExpr == seq(n, k requires 0 <= k < n => rows[k].defaultExpr);
    assert collateName == seq(n, k requires 0 <= k < n => rows[k].collateName);
  }

  function ColumnFrame(cs: seq<Column>): (r: RValue)
    ensures r.Nil? <==> |cs| == 0
    ensures |cs| > 0 ==> r.DataFrame? && r.names == COLUMN_NAMES && RowCount(r) == Some(|cs|)
  {
    if |cs| == 0 then Nil
    else ColumnFrameOf(seq(|cs|, k requires 0 <= k < |cs| => ColumnRowOf(cs[k])))
  }

  /** A non-empty column list is a 16-column tibble of N rows, its factors carrying their level tables. */
  lemma ColumnFrameShape(cs: seq<Column>)
    requires |cs| > 0
    ensures IsTibble(ColumnFrame(cs), COLUMN_NAMES, |cs|)
    ensures ColumnColumnTypes(ColumnFrame(cs))
  {
  }

  /** Row i of the frame is the i-th column's row. */
  lemma ColumnFrameRow(cs: seq<Column>, i: nat)
    requires i < |cs|
    ensures ColumnRowAt(ColumnFrame(cs), i) == ColumnRowOf(cs[i])
  {
  }

  /** The labels R shows for row i's factors: the primary-key order and the three conflict clauses by name. */
  lemma ColumnFrameLabels(cs: seq<Column>, i: nat)
    requires i < |cs|
    ensures FactorLabel(ColumnAt(ColumnFrame(cs), 9), i) == Some(cs[i].pkOrder.Label())
    ensures FactorLabel(ColumnAt(ColumnFrame(cs), 10), i) == Some(cs[i].pkConflict.Label())
    ensures FactorLabel(ColumnAt(ColumnFrame(cs), 11), i) == Some(cs[i].notNullConflict.Label())
    ensures FactorLabel(ColumnAt(ColumnFrame(cs), 12), i) == Some(cs[i].uniqueConflict.Label())
  {
    var df := ColumnFrame(cs);
    var row := ColumnRowOf(cs[i]);
    ColumnFrameShape(cs);
    ColumnFrameRow(cs, i);
    FactorShows(ColumnAt(df, 9), ORDER_LEVELS, i, row.orderPk);
    FactorShows(ColumnAt(df, 10), CONFLICT_LEVELS, i, row.conflictPk);
    FactorShows(ColumnAt(df, 11), CONFLICT_LEVELS, i, row.conflictNotNull);
    FactorShows(ColumnAt(df, 12), CONFLICT_LEVELS, i, row.conflictUnique);
  }

  /** `parse_column_info`. */
  method ParseColumnInfo(table: Table) returns (r: RValue)
    ensures r == ColumnFrame(table.columns)
  {
    var cs := table.columns;
    var n := |cs|;
    if n == 0 {
      return Nil;
    }
    var colNames: seq<RChar> := seq(n, _ => NAString);
    var colTypes: seq<RChar> := seq(n, _ => NAString);
    var colLens: seq<RChar> := seq(n, _ => NAString);
    var colCnames: seq<RChar> := seq(n, _ => NAString);
    var colComm: seq<RChar> := seq(n, _ => NAString);
    var colPrimkey: seq<bool> := seq(n, _ => false);
    var colAutoinc: seq<bool> := seq(n, _ => false);
    var colNotnull: seq<bool> := seq(n, _ => false);
    var colUnique: seq<bool> := seq(n, _ => false);
    var colOrder: seq<RInt> := seq(n, _ => NAInteger);
    var colConfPk: seq<RInt> := seq(n, _ => NAInteger);
    var colConfNotNull: seq<RInt> := seq(n, _ => NAInteger);
    var colConfUnique: seq<RInt> := seq(n, _ => NAInteger);
    var colCheckExpr: seq<RChar> := seq(n, _ => NAString);
    var colDefaultExpr: seq<RChar> := seq(n, _ => NAString);
    var colCollateName: seq<RChar> := seq(n, _ => NAString);
    for colIdx := 0 to n
      invariant |colNames| == n && |colTypes| == n && |colLens| == n && |colCnames| == n && |colComm| == n
      invariant |colPrimkey| == n && |colAutoinc| == n && |colNotnull| == n && |colUnique| == n
      invariant |colOrder| == n && |colConfPk| == n && |colConfNotNull| == n && |colConfUnique| == n
      invariant |colCheckExpr| == n && |colDefaultExpr| == n && |colCollateName| == n
      invariant forall k :: 0 <= k < colIdx ==>
        ColumnRow(
          colNames[k], colTypes[k], colLens[k], colCnames[k], colComm[k],
          colPrimkey[k], colAutoinc[k], colNotnull[k], colUnique[k],
          colOrder[k], colConfPk[k], colConfNotNull[k], colConfUnique[k],
          colCheckExpr[k], colDefaultExpr[k], colCollateName[k])
        == ColumnRowOf(cs[k])
    {
      var col := cs[colIdx];
      colNames := colNames[colIdx := Rchr(col.name)];
      colTypes := colTypes[colIdx := Rchr(col.declType)];
      colLens := colLens[colIdx := Rchr(col.length)];
      colCnames := colCnames[colIdx := Rchr(col.constraintName)];
      colComm := colComm[colIdx := Rchr(col.comment)];
      colPrimkey := colPrimkey[colIdx := col.isPrimaryKey];
      colAutoinc := colAutoinc[colIdx := col.isAutoincrement];
      colNotnull := colNotnull[colIdx := col.isNotNull];
      colUnique := colUnique[colIdx := col.isUnique];
      colOrder := colOrder[colIdx := Int(1 + col.pkOrder.Ordinal())];
      colConfPk := colConfPk[colIdx := Int(1 + col.pkConflict.Ordinal())];
      colConfNotNull := colConfNotNull[colIdx := Int(1 + col.notNullConflict.Ordinal())];
      colConfUnique := colConfUnique[colIdx := Int(1 + col.uniqueConflict.Ordinal())];
      colCheckExpr := colCheckExpr[colIdx := Rchr(col.checkExpr)];
      colDefaultExpr := colDefaultExpr[colIdx := Rchr(col.defaultExpr)];
      colCollateName := colCollateName[colIdx := Rchr(col.collateName)];
    }
    r := ListToDf(NamedList(COLUMN_NAMES, [
      StrVec(colNames), StrVec(colTypes), StrVec(colLens), StrVec(colCnames), StrVec(colComm),
      LglVec(colPrimkey), LglVec(colAutoinc), LglVec(colNotnull), LglVec(colUnique),
      Factor(colOrder, ORDER_LEVELS), Factor(colConfPk, CONFLICT_LEVELS),
      Factor(colConfNotNull, CONFLICT_LEVELS), Factor(colConfUnique, CONFLICT_LEVELS),
      StrVec(colCheckExpr), StrVec(colDefaultExpr), StrVec(colCollateName)]), n);
    ColumnLayout(
      seq(n, k requires 0 <= k < n => ColumnRowOf(cs[k])),
      colNames, colTypes, colLens, colCnames, colComm, colPrimkey, colAutoinc, colNotnull, colUnique,
      colOrder, colConfPk, colConfNotNull, colConfUnique, colCheckExpr, colDefaultExpr, colCollateName);
  }

  // ---------------------------------------------------------------------------
  // parse_

  /** The 11-field table-info list for a parsed statement. */
  function TableInfo(t: Table): (r: RValue)
    ensures r.NamedList? && r.names == TABLE_INFO_NAMES && |r.items| == 11
    ensures StringOf(r.items[0]) == t.name && (r.items[0].Nil? <==> t.name.None?)
    ensures StringOf(r.items[1]) == t.schema && (r.items[1].Nil? <==> t.schema.None?)
    ensures StringOf(r.items[2]) == t.comment && (r.items[2].Nil? <==> t.comment.None?)
    ensures r.items[3] == LglVec([t.isTemporary])
    ensures r.items[4] == LglVec([t.ifNotExists])
    ensures r.items[5] == LglVec([t.withoutRowid])
    ensures r.items[6] == ColumnFrame(t.columns)
    ensures r.items[7] == ConstraintFrame(t.constraints)
    ensures r.items[8] == StrVec([Chr(t.kind.Label())])
    ensures StringOf(r.items[9]) == t.currentName && (r.items[9].Nil? <==> t.currentName.None?)
    ensures StringOf(r.items[10]) == t.newName && (r.items[10].Nil? <==> t.newName.None?)
  {
    NamedList(TABLE_INFO_NAMES, [
      Rstr(t.name), Rstr(t.schema), Rstr(t.comment),
      LglVec([t.isTemporary]), LglVec([t.ifNotExists]), LglVec([t.withoutRowid]),
      ColumnFrame(t.columns), ConstraintFrame(t.constraints),
      StrVec([Chr(StatementTypeLabel(t.kind))]),
      Rstr(t.currentName), Rstr(t.newName)])
  }

  /** Eleven slots, each holding what `parse_` stores there, make up the table-info list. */
  lemma TableInfoLayout(t: Table, items: seq<RValue>)
    requires |items| == 11
    requires items[0] == Rstr(t.name) && items[1] == Rstr(t.schema) && items[2] == Rstr(t.comment)
    requires items[3] == LglVec([t.isTemporary]) && items[4] == LglVec([t.ifNotExists])
    requires items[5] == LglVec([t.withoutRowid])
    requires items[6] == ColumnFrame(t.columns) && items[7] == ConstraintFrame(t.constraints)
    requires items[8] == StrVec([Chr(t.kind.Label())])
    requires items[9] == Rstr(t.currentName) && items[10] == Rstr(t.newName)
    ensures NamedList(TABLE_INFO_NAMES, items) == TableInfo(t)
  {
  }

  /**
   * `parse_`.  The SQL text is not modelled: `parsed` is what the external
   * parser returned for it, None for NULL.  `freeCalls` counts the calls of
   * `sql3table_free`.
   */
  method Parse(parsed: Option<Table>) returns (r: Outcome, freeCalls: nat)
    ensures parsed.None? ==> r == Failure(PARSE_ERROR) && freeCalls == 0
    ensures parsed.Some? ==> r == Success(TableInfo(parsed.value)) && freeCalls == 1
  {
    if parsed.None? {
      return Failure(PARSE_ERROR), 0;
    }
    var table := parsed.value;
    var info: seq<RValue> := seq(11, _ => Nil);
    info := info[0 := Rstr(table.name)];
    info := info[1 := Rstr(table.schema)];
    info := info[2 := Rstr(table.comment)];
    info := info[3 := LglVec([table.isTemporary])];
    info := info[4 := LglVec([table.ifNotExists])];
    info := info[5 := LglVec([table.withoutRowid])];
    var columns := ParseColumnInfo(table);
    info := info[6 := columns];
    var constraints := ParseTableConstraints(table);
    info := info[7 := constraints];
    info := info[8 := StrVec([Chr(STATEMENT_TYPES[table.kind.Ordinal()])])];
    info := info[9 := Rstr(table.currentName)];
    info := info[10 := Rstr(table.newName)];
    freeCalls := 1;
    TableInfoLayout(table, info);
    r := Success(NamedList(TABLE_INFO_NAMES, info));
  }
}
