/**
 * Reading the R values of the table-info list back into the statement they
 * describe.  Every decoder here is the inverse of one projection in
 * `TableParser`, and the round-trip lemmas show that the projection keeps
 * every piece of the AST it reads: two statements with the same table-info
 * list are the same statement.  The decoders follow the encodings exactly:
 * NA is an absent string, the factor codes are 1-based, the constraint's
 * conflict clause and the indexed column's order are raw, and the
 * foreign-key cells count as present exactly when `fk_num_cols` is not NA.
 */
module Readback {
  import opened Wrappers
  import opened RValues
  import opened Ast
  import opened TableParser

  /** The integer an element holds; -1 stands in for NA, which no enumerator uses. */
  function CodeValue(code: RInt): int
  {
    if code.Int? then code.value else -1
  }

  function OrderFromRaw(code: RInt): Order
  {
    match OrderOf(CodeValue(code))
    case Some(o) => o
    case None => OrderNone
  }

  function OrderFromCode(code: RInt): Order
  {
    match OrderOf(CodeValue(code) - 1)
    case Some(o) => o
    case None => OrderNone
  }

  function ConflictFromRaw(code: RInt): Conflict
  {
    match ConflictOf(CodeValue(code))
    case Some(c) => c
    case None => ConflictNone
  }

  function ConflictFromCode(code: RInt): Conflict
  {
    match ConflictOf(CodeValue(code) - 1)
    case Some(c) => c
    case None => ConflictNone
  }

  function FkActionFromCode(code: RInt): FkAction
  {
    match FkActionOf(CodeValue(code) - 1)
    case Some(a) => a
    case None => ActionNone
  }

  function DefTypeFromCode(code: RInt): DefType
  {
    match DefTypeOf(CodeValue(code) - 1)
    case Some(d) => d
    case None => DeferNone
  }

  function ConstraintTypeFromCode(code: RInt): ConstraintType
  {
    match ConstraintTypeOf(CodeValue(code) - 1)
    case Some(k) => k
    case None => PrimaryKeyConstraint
  }

  /** The statement kind whose `types[]` entry is this label; "unknown" for anything else. */
  function StatementTypeFromLabel(s: Option<string>): StatementType
  {
    match s
    case None => UnknownStatement
    case Some(t) =>
      match StatementTypeOf(FirstIndex(STATEMENT_TYPES, t))
      case Some(k) => k
      case None => UnknownStatement
  }

  /** The entries of `types[]` are distinct, so a kind's label is found at the kind's own index. */
  lemma StatementTypeLabelIndex(k: StatementType)
    ensures FirstIndex(STATEMENT_TYPES, StatementTypeLabel(k)) == k.Ordinal()
  {
    var x := StatementTypeLabel(k);
    var j := FirstIndex(STATEMENT_TYPES, x);
    assert STATEMENT_TYPES[k.Ordinal()] == x;
    assert j <= k.Ordinal();
    assert STATEMENT_TYPES[j] == x;
  }

  /** The text of each element of a character vector; NULL (or anything else) is the empty list. */
  function ChrListOf(v: RValue): (xs: seq<Option<string>>)
    ensures v.StrVec? ==> |xs| == |v.chars| && forall k :: 0 <= k < |xs| ==> xs[k] == CharOf(v.chars[k])
    ensures !v.StrVec? ==> xs == []
  {
    if v.StrVec? then seq(|v.chars|, k requires 0 <= k < |v.chars| => CharOf(v.chars[k])) else []
  }

  /** `ChrListOf` undoes `ChrVector`: the names, their order and the NA entries all come back. */
  lemma ChrListRoundTrip(xs: seq<Option<string>>)
    ensures ChrListOf(ChrVector(xs)) == xs
  {
    if |xs| > 0 {
      var v := ChrVector(xs);
      forall k | 0 <= k < |xs|
        ensures ChrListOf(v)[k] == xs[k]
      {
        assert CharOf(ChrAt(v, k)) == xs[k];
      }
    }
  }

  // ---------------------------------------------------------------------------
  // Indexed columns

  function IdxColumnOfRow(row: IdxRow): IdxColumn
  {
    IdxColumn(CharOf(row.name), CharOf(row.collate), OrderFromRaw(row.order))
  }

  /** The indexed columns a frame lists, one per row; none for NULL. */
  function IdxColumnsOf(df: RValue): seq<IdxColumn>
  {
    match RowCount(df)
    case None => []
    case Some(n) => seq(n, i requires 0 <= i < n => IdxColumnOfRow(IdxRowAt(df, i)))
  }

  lemma IdxColumnsRoundTrip(cs: seq<IdxColumn>)
    ensures IdxColumnsOf(IdxColumnFrame(cs)) == cs
  {
    if |cs| > 0 {
      var df := IdxColumnFrame(cs);
      forall i | 0 <= i < |cs|
        ensures IdxColumnsOf(df)[i] == cs[i]
      {
        IdxColumnFrameRow(cs, i);
        assert OrderOf(cs[i].order.Ordinal()) == Some(cs[i].order);
      }
    }
  }

  // ---------------------------------------------------------------------------
  // Constraints

  /** The REFERENCES clause a row describes: absent exactly when `fk_num_cols` is NA. */
  function ForeignKeyOfRow(row: ConstraintRow): Option<ForeignKeyClause>
  {
    if row.fkNumCols.NAInteger? then None
    else Some(ForeignKeyClause(
      CharOf(row.fkTable), ChrListOf(row.fkCols), FkActionFromCode(row.fkOnDelete),
      FkActionFromCode(row.fkOnUpdate), CharOf(row.fkMatch), DefTypeFromCode(row.fkDeferrable)))
  }

  function ConstraintOfRow(row: ConstraintRow): Constraint
  {
    Constraint(
      CharOf(row.name), ConstraintTypeFromCode(row.kind), IdxColumnsOf(row.idxCols),
      ConflictFromRaw(row.conflict), CharOf(row.checkExpr), ChrListOf(row.fkColnames),
      ForeignKeyOfRow(row))
  }

  lemma ConstraintRowRoundTrip(c: Constraint)
    ensures ConstraintOfRow(ConstraintRowOf(c)) == c
  {
    var row := ConstraintRowOf(c);
    IdxColumnsRoundTrip(c.idxColumns);
    ChrListRoundTrip(c.fkColumns);
    assert ConstraintTypeOf(c.kind.Ordinal()) == Some(c.kind);
    assert ConflictOf(c.conflict.Ordinal()) == Some(c.conflict);
    match c.foreignKey {
      case None =>
      case Some(fk) =>
        ChrListRoundTrip(fk.columns);
        assert FkActionOf(fk.onDelete.Ordinal()) == Some(fk.onDelete);
        assert FkActionOf(fk.onUpdate.Ordinal()) == Some(fk.onUpdate);
        assert DefTypeOf(fk.deferrable.Ordinal()) == Some(fk.deferrable);
        assert ForeignKeyOfRow(row) == Some(fk);
    }
  }

  /** The constraints a frame lists, one per row; none for NULL. */
  function ConstraintsOf(df: RValue): seq<Constraint>
  {
    match RowCount(df)
    case None => []
    case Some(n) => seq(n, i requires 0 <= i < n => ConstraintOfRow(ConstraintRowAt(df, i)))
  }

  lemma ConstraintsRoundTrip(cs: seq<Constraint>)
    ensures ConstraintsOf(ConstraintFrame(cs)) == cs
  {
    if |cs| > 0 {
      var df := ConstraintFrame(cs);
      forall i | 0 <= i < |cs|
        ensures ConstraintsOf(df)[i] == cs[i]
      {
        ConstraintFrameRow(cs, i);
        ConstraintRowRoundTrip(cs[i]);
      }
    }
  }

  // ---------------------------------------------------------------------------
  // Columns

  function ColumnOfRow(row: ColumnRow): Column
  {
    Column(
      CharOf(row.name), CharOf(row.declType), CharOf(row.length), CharOf(row.constraintName),
      CharOf(row.comment), row.primaryKey, row.autoIncrement, row.notNull, row.unique,
      OrderFromCode(row.orderPk), ConflictFromCode(row.conflictPk),
      ConflictFromCode(row.conflictNotNull), ConflictFromCode(row.conflictUnique),
      CharOf(row.checkExpr), CharOf(row.defaultExpr), CharOf(row.collateName))
  }

  lemma ColumnRowRoundTrip(c: Column)
    ensures ColumnOfRow(ColumnRowOf(c)) == c
  {
    assert OrderOf(c.pkOrder.Ordinal()) == Some(c.pkOrder);
    assert ConflictOf(c.pkConflict.Ordinal()) == Some(c.pkConflict);
    assert ConflictOf(c.notNullConflict.Ordinal()) == Some(c.notNullConflict);
    assert ConflictOf(c.uniqueConflict.Ordinal()) == Some(c.uniqueConflict);
  }

  /** The column definitions a frame lists, one per row; none for NULL. */
  function ColumnsOf(df: RValue): seq<Column>
  {
    match RowCount(df)
    case None => []
    case Some(n) => seq(n, i requires 0 <= i < n => ColumnOfRow(ColumnRowAt(df, i)))
  }

  lemma ColumnsRoundTrip(cs: seq<Column>)
    ensures ColumnsOf(ColumnFrame(cs)) == cs
  {
    if |cs| > 0 {
      var df := ColumnFrame(cs);
      forall i | 0 <= i < |cs|
        ensures ColumnsOf(df)[i] == cs[i]
      {
        ColumnFrameRow(cs, i);
        ColumnRowRoundTrip(cs[i]);
      }
    }
  }

  // ---------------------------------------------------------------------------
  // The table-info list

  /** The statement a table-info list describes. */
  function TableOf(info: RValue): Table
  {
    Table(
      StringOf(ColumnAt(info, 0)), StringOf(ColumnAt(info, 1)), StringOf(ColumnAt(info, 2)),
      LglAt(ColumnAt(info, 3), 0), LglAt(ColumnAt(info, 4), 0), LglAt(ColumnAt(info, 5), 0),
      ColumnsOf(ColumnAt(info, 6)), ConstraintsOf(ColumnAt(info, 7)),
      StatementTypeFromLabel(StringOf(ColumnAt(info, 8))),
      StringOf(ColumnAt(info, 9)), StringOf(ColumnAt(info, 10)))
  }

  /** The table-info list keeps every field of the statement. */
  lemma TableRoundTrip(t: Table)
    ensures TableOf(TableInfo(t)) == t
  {
    var info := TableInfo(t);
    ColumnsRoundTrip(t.columns);
    ConstraintsRoundTrip(t.constraints);
    StatementTypeLabelIndex(t.kind);
    assert StringOf(ColumnAt(info, 8)) == Some(StatementTypeLabel(t.kind));
  }

  /** Different statements never give the same table-info list. */
  lemma TableInfoInjective(t1: Table, t2: Table)
    requires TableInfo(t1) == TableInfo(t2)
    ensures t1 == t2
  {
    TableRoundTrip(t1);
    TableRoundTrip(t2);
  }

  // ---------------------------------------------------------------------------
  // The duplicated "fk_cols" name

  /** "fk_cols" is first found at index 6, and no name is first found at index 9. */
  lemma FkColsIndex()
    ensures CONSTRAINT_NAMES[6] == CONSTRAINT_NAMES[9] == "fk_cols"
    ensures FirstIndex(CONSTRAINT_NAMES, "fk_cols") == 6
    ensures forall x :: FirstIndex(CONSTRAINT_NAMES, x) != 9
  {
    var names := CONSTRAINT_NAMES;
    assert names[6] == "fk_cols";
    assert forall j :: 0 <= j < 6 ==> names[j] != "fk_cols";
    forall x
      ensures FirstIndex(names, x) != 9
    {
      assert names[6] == names[9];
    }
  }

  /**
   * Columns 6 (the constraint's own foreign-key columns) and 9 (the columns
   * the REFERENCES clause names) are both called "fk_cols".  Looking a
   * column up by that name finds column 6, and no name at all finds
   * column 9: the referenced columns can be reached by position only.
   * This holds for any data frame with the constraint frame's names.
   */
  lemma FkColsNameShadowsReferencedColumns(df: RValue)
    requires df.DataFrame? && df.names == CONSTRAINT_NAMES && |df.columns| == |CONSTRAINT_NAMES|
    ensures ColumnNamed(df, "fk_cols") == Some(ColumnAt(df, 6))
    ensures forall x :: FirstIndex(df.names, x) != 9
  {
    FkColsIndex();
  }

  /** In particular for the frame `parse_table_constraints` builds. */
  lemma ConstraintFrameFkColsLookup(cs: seq<Constraint>)
    requires |cs| > 0
    ensures ColumnNamed(ConstraintFrame(cs), "fk_cols") == Some(ColumnAt(ConstraintFrame(cs), 6))
  {
    ConstraintFrameShape(cs);
    FkColsNameShadowsReferencedColumns(ConstraintFrame(cs));
  }
}
