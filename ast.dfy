/**
 * The abstract syntax tree that the SQLite DDL parser hands to the projection
 * layer, as far as the projection reads it through the parser's accessor calls.
 *
 * Every enumeration keeps the declaration order of the parser's C enum, so
 * `Ordinal()` is the raw integer value the accessor returns.  `Label()` is the
 * enumerator's name written as the SQL words it stands for.
 */
module Ast {
  import opened Wrappers

  /** Sort order of an indexed column or of a column's PRIMARY KEY clause. */
  datatype Order = OrderNone | OrderAsc | OrderDesc
  {
    function Ordinal(): (n: nat)
      ensures n < 3 && OrderOf(n) == Some(this)
    {
      match this
      case OrderNone => 0
      case OrderAsc => 1
      case OrderDesc => 2
    }

    function Label(): string
    {
      match this
      case OrderNone => "none"
      case OrderAsc => "ascending"
      case OrderDesc => "descending"
    }
  }

  function OrderOf(n: int): Option<Order>
  {
    if n == 0 then Some(OrderNone)
    else if n == 1 then Some(OrderAsc)
    else if n == 2 then Some(OrderDesc)
    else None
  }

  /** The ON CONFLICT resolution policy (SQL3CONFLICT_*). */
  datatype Conflict = ConflictNone | Rollback | Abort | Fail | Ignore | Replace
  {
    function Ordinal(): (n: nat)
      ensures n < 6 && ConflictOf(n) == Some(this)
    {
      match this
      case ConflictNone => 0
      case Rollback => 1
      case Abort => 2
      case Fail => 3
      case Ignore => 4
      case Replace => 5
    }

    function Label(): string
    {
      match this
      case ConflictNone => "none"
      case Rollback => "rollback"
      case Abort => "abort"
      case Fail => "fail"
      case Ignore => "ignore"
      case Replace => "replace"
    }
  }

  function ConflictOf(n: int): Option<Conflict>
  {
    if n == 0 then Some(ConflictNone)
    else if n == 1 then Some(Rollback)
    else if n == 2 then Some(Abort)
    else if n == 3 then Some(Fail)
    else if n == 4 then Some(Ignore)
    else if n == 5 then Some(Replace)
    else None
  }

  /** A foreign key's ON DELETE / ON UPDATE action (SQL3FKACTION_*). */
  datatype FkAction = ActionNone | SetNull | SetDefault | Cascade | Restrict | NoAction
  {
    function Ordinal(): (n: nat)
      ensures n < 6 && FkActionOf(n) == Some(this)
    {
      match this
      case ActionNone => 0
      case SetNull => 1
      case SetDefault => 2
      case Cascade => 3
      case Restrict => 4
      case NoAction => 5
    }

    function Label(): string
    {
      match this
      case ActionNone => "none"
      case SetNull => "set null"
      case SetDefault => "set default"
      case Cascade => "cascade"
      case Restrict => "restrict"
      case NoAction => "no action"
    }
  }

  function FkActionOf(n: int): Option<FkAction>
  {
    if n == 0 then Some(ActionNone)
    else if n == 1 then Some(SetNull)
    else if n == 2 then Some(SetDefault)
    else if n == 3 then Some(Cascade)
    else if n == 4 then Some(Restrict)
    else if n == 5 then Some(NoAction)
    else None
  }

  /** A foreign key's deferrability clause (SQL3DEFTYPE_*). */
  datatype DefType =
    | DeferNone
    | Deferrable
    | DeferrableInitiallyDeferred
    | DeferrableInitiallyImmediate
    | NotDeferrable
    | NotDeferrableInitiallyDeferred
    | NotDeferrableInitiallyImmediate
  {
    function Ordinal(): (n: nat)
      ensures n < 7 && DefTypeOf(n) == Some(this)
    {
      match this
      case DeferNone => 0
      case Deferrable => 1
      case DeferrableInitiallyDeferred => 2
      case DeferrableInitiallyImmediate => 3
      case NotDeferrable => 4
      case NotDeferrableInitiallyDeferred => 5
      case NotDeferrableInitiallyImmediate => 6
    }

    function Label(): string
    {
      match this
      case DeferNone => "none"
      case Deferrable => "deferrable"
      case DeferrableInitiallyDeferred => "deferrable initially deferred"
      case DeferrableInitiallyImmediate => "deferrable initially immediate"
      case NotDeferrable => "not deferrable"
      case NotDeferrableInitiallyDeferred => "not deferrable initially deferred"
      case NotDeferrableInitiallyImmediate => "not deferrable initially immediate"
    }
  }

  function DefTypeOf(n: int): Option<DefType>
  {
    if n == 0 then Some(DeferNone)
    else if n == 1 then Some(Deferrable)
    else if n == 2 then Some(DeferrableInitiallyDeferred)
    else if n == 3 then Some(DeferrableInitiallyImmediate)
    else if n == 4 then Some(NotDeferrable)
    else if n == 5 then Some(NotDeferrableInitiallyDeferred)
    else if n == 6 then Some(NotDeferrableInitiallyImmediate)
    else None
  }

  /** The kind of a table constraint (SQL3TABLECONSTRAINT_*). */
  datatype ConstraintType = PrimaryKeyConstraint | UniqueConstraint | CheckConstraint | ForeignKeyConstraint
  {
    function Ordinal(): (n: nat)
      ensures n < 4 && ConstraintTypeOf(n) == Some(this)
    {
      match this
      case PrimaryKeyConstraint => 0
      case UniqueConstraint => 1
      case CheckConstraint => 2
      case ForeignKeyConstraint => 3
    }

    function Label(): string
    {
      match this
      case PrimaryKeyConstraint => "primary key"
      case UniqueConstraint => "unique"
      case CheckConstraint => "check"
      case ForeignKeyConstraint => "foreign key"
    }
  }

  function ConstraintTypeOf(n: int): Option<ConstraintType>
  {
    if n == 0 then Some(PrimaryKeyConstraint)
    else if n == 1 then Some(UniqueConstraint)
    else if n == 2 then Some(CheckConstraint)
    else if n == 3 then Some(ForeignKeyConstraint)
    else None
  }

  /** The kind of statement the parser recognised. */
  datatype StatementType = UnknownStatement | CreateTable | RenameTable | RenameColumn | AddColumn | DropColumn
  {
    function Ordinal(): (n: nat)
      ensures n < 6 && StatementTypeOf(n) == Some(this)
    {
      match this
      case UnknownStatement => 0
      case CreateTable => 1
      case RenameTable => 2
      case RenameColumn => 3
      case AddColumn => 4
      case DropColumn => 5
    }

    function Label(): string
    {
      match this
      case UnknownStatement => "unknown"
      case CreateTable => "table"
      case RenameTable => "rename table"
      case RenameColumn => "rename column"
      case AddColumn => "add column"
      case DropColumn => "drop column"
    }
  }

  function StatementTypeOf(n: int): Option<StatementType>
  {
    if n == 0 then Some(UnknownStatement)
    else if n == 1 then Some(CreateTable)
    else if n == 2 then Some(RenameTable)
    else if n == 3 then Some(RenameColumn)
    else if n == 4 then Some(AddColumn)
    else if n == 5 then Some(DropColumn)
    else None
  }

  /** One column definition (`sql3column`). */
  datatype Column = Column(
    name: Option<string>,
    declType: Option<string>,
    length: Option<string>,
    constraintName: Option<string>,
    comment: Option<string>,
    isPrimaryKey: bool,
    isAutoincrement: bool,
    isNotNull: bool,
    isUnique: bool,
    pkOrder: Order,
    pkConflict: Conflict,
    notNullConflict: Conflict,
    uniqueConflict: Conflict,
    checkExpr: Option<string>,
    defaultExpr: Option<string>,
    collateName: Option<string>)

  /** One entry of a constraint's indexed-column list (`sql3idxcolumn`). */
  datatype IdxColumn = IdxColumn(name: Option<string>, collate: Option<string>, order: Order)

  /** A REFERENCES clause (`sql3foreignkey`). */
  datatype ForeignKeyClause = ForeignKeyClause(
    table: Option<string>,
    columns: seq<Option<string>>,
    onDelete: FkAction,
    onUpdate: FkAction,
    matchName: Option<string>,
    deferrable: DefType)

  /** One table constraint (`sql3tableconstraint`). */
  datatype Constraint = Constraint(
    name: Option<string>,
    kind: ConstraintType,
    idxColumns: seq<IdxColumn>,
    conflict: Conflict,
    checkExpr: Option<string>,
    fkColumns: seq<Option<string>>,
    foreignKey: Option<ForeignKeyClause>)

  /** The parsed statement (`sql3table`). */
  datatype Table = Table(
    name: Option<string>,
    schema: Option<string>,
    comment: Option<string>,
    isTemporary: bool,
    ifNotExists: bool,
    withoutRowid: bool,
    columns: seq<Column>,
    constraints: seq<Constraint>,
    kind: StatementType,
    currentName: Option<string>,
    newName: Option<string>)
}
