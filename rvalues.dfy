/**
 * The R values the projection builds, as plain data: attributes (names,
 * class, levels, row.names) are fields of the value rather than results of
 * `setAttrib`.  Also the two string helpers `rstr`/`rchr` and `list_to_df`.
 */
module RValues {
  import opened Wrappers

  /** One element of a character vector: NA_STRING or a CHARSXP with its text. */
  datatype RChar = NAString | Chr(text: string)

  /** One element of an integer vector: NA_INTEGER or a value. */
  datatype RInt = NAInteger | Int(value: int)

  datatype RValue =
    | Nil                                                   // R_NilValue
    | StrVec(chars: seq<RChar>)                             // STRSXP
    | IntVec(ints: seq<RInt>)                               // plain INTSXP
    | LglVec(lgls: seq<bool>)                               // LGLSXP
    | Factor(codes: seq<RInt>, levels: seq<string>)         // INTSXP, class "factor", levels
    | List(items: seq<RValue>)                              // VECSXP without names
    | NamedList(names: seq<string>, items: seq<RValue>)     // VECSXP with names
    | DataFrame(names: seq<string>, columns: seq<RValue>, classes: seq<string>, rowNames: seq<RInt>)

  /** R's `length()` of a value: the element count of a vector, the column count of a data frame. */
  function Length(v: RValue): nat
  {
    match v
    case Nil => 0
    case StrVec(cs) => |cs|
    case IntVec(xs) => |xs|
    case LglVec(bs) => |bs|
    case Factor(codes, _) => |codes|
    case List(items) => |items|
    case NamedList(_, items) => |items|
    case DataFrame(_, cols, _, _) => |cols|
  }

  /** The text a character element holds, None for NA. */
  function CharOf(c: RChar): Option<string>
  {
    match c
    case NAString => None
    case Chr(s) => Some(s)
  }

  /** The text of a length-one character vector, None for anything else (NULL among others). */
  function StringOf(v: RValue): Option<string>
  {
    if v.StrVec? && |v.chars| == 1 then CharOf(v.chars[0]) else None
  }

  /** `rstr`: an absent string is NULL, a present one a length-one character vector. */
  function Rstr(s: Option<string>): (v: RValue)
    ensures v.Nil? <==> s.None?
    ensures s.Some? ==> v.StrVec? && Length(v) == 1
    ensures StringOf(v) == s
  {
    match s
    case None => Nil
    case Some(t) => StrVec([Chr(t)])
  }

  /** `rchr`: an absent string is NA_STRING, a present one a CHARSXP with exactly that text. */
  function Rchr(s: Option<string>): (c: RChar)
    ensures c.NAString? <==> s.None?
    ensures CharOf(c) == s
  {
    match s
    case None => NAString
    case Some(t) => Chr(t)
  }

  const TIBBLE_CLASSES: seq<string> := ["tbl_df", "tbl", "data.frame"]

  /**
   * The row count R reads from compact row names `c(NA_integer_, -n)`,
   * None when the value is not a data frame with such row names.
   */
  function RowCount(df: RValue): Option<nat>
  {
    if df.DataFrame? && |df.rowNames| == 2 && df.rowNames[0].NAInteger?
       && df.rowNames[1].Int? && df.rowNames[1].value <= 0
    then Some(-df.rowNames[1].value)
    else None
  }

  /** `list_to_df`: a named list becomes a tibble of `nrows` rows with automatic row names. */
  function ListToDf(l: RValue, nrows: nat): (df: RValue)
    requires l.NamedList?
    ensures df.DataFrame? && df.names == l.names && df.columns == l.items
    ensures df.classes == TIBBLE_CLASSES
    ensures RowCount(df) == Some(nrows)
  {
    DataFrame(l.names, l.items, TIBBLE_CLASSES, [NAInteger, Int(-(nrows as int))])
  }

  /** A tibble with exactly these column names, `nrows` rows, and every column of that length. */
  predicate IsTibble(v: RValue, names: seq<string>, nrows: nat)
  {
    && v.DataFrame?
    && v.names == names
    && |v.columns| == |names|
    && v.classes == TIBBLE_CLASSES
    && RowCount(v) == Some(nrows)
    && forall j :: 0 <= j < |v.columns| ==> Length(v.columns[j]) == nrows
  }

  // Reading values back. Each accessor is total: out of range or of the wrong
  // kind, it yields R's missing value for that element type.

  /** Column `j` of a data frame (element `j` of a list); NULL when absent. */
  function ColumnAt(v: RValue, j: nat): RValue
  {
    match v
    case DataFrame(_, cols, _, _) => if j < |cols| then cols[j] else Nil
    case NamedList(_, items) => if j < |items| then items[j] else Nil
    case List(items) => if j < |items| then items[j] else Nil
    case _ => Nil
  }

  function ChrAt(v: RValue, i: nat): RChar
  {
    if v.StrVec? && i < |v.chars| then v.chars[i] else NAString
  }

  /** Element `i` of an integer vector or the code of a factor. */
  function IntAt(v: RValue, i: nat): RInt
  {
    if v.IntVec? && i < |v.ints| then v.ints[i]
    else if v.Factor? && i < |v.codes| then v.codes[i]
    else NAInteger
  }

  function LglAt(v: RValue, i: nat): bool
  {
    v.LglVec? && i < |v.lgls| && v.lgls[i]
  }

  /** Element `i` of an unnamed list column. */
  function ItemAt(v: RValue, i: nat): RValue
  {
    if v.List? && i < |v.items| then v.items[i] else Nil
  }

  /** The level a factor shows for element `i`: the 1-based code picks a level; None if out of range or NA. */
  function FactorLabel(v: RValue, i: nat): Option<string>
  {
    if v.Factor? && i < |v.codes| && v.codes[i].Int?
       && 1 <= v.codes[i].value <= |v.levels|
    then Some(v.levels[v.codes[i].value - 1])
    else None
  }

  /** The index of the first occurrence of `x`, or `|names|` when there is none. */
  function FirstIndex(names: seq<string>, x: string): (k: nat)
    ensures k <= |names|
    ensures k < |names| ==> names[k] == x
    ensures forall j :: 0 <= j < k ==> names[j] != x
  {
    if names == [] then 0
    else if names[0] == x then 0
    else 1 + FirstIndex(names[1..], x)
  }

  /** Lookup of a data frame column by name, as `df[["x"]]` does it: the first column so named. */
  function ColumnNamed(df: RValue, x: string): Option<RValue>
  {
    if df.DataFrame? && FirstIndex(df.names, x) < |df.columns|
    then Some(df.columns[FirstIndex(df.names, x)])
    else None
  }
}
