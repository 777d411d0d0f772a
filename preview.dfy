/** Shaping a lookup result for the preview grid: the rows gain a synthetic
    `id` column, and each field becomes a grid column header. */
module Preview {

  /** A cell value of a preview row. */
  datatype Cell = Num(n: int) | Str(s: string) | Null

  /** A preview row: column name to value. */
  type Row = map<string, Cell>

  /** A field of a lookup result: its name, physical type and logical type. */
  datatype Field = Field(name: string, fieldType: string, logicalType: string)

  /** The parts of a grid column header that this step decides: the column's
      id and field (both the field name), the type whose icon labels it, its
      width and its minimum width. */
  datatype Header = Header(id: string, field: string, iconType: string, width: int, minWidth: int)

  const IdColumn := "id"
  const UnknownType := "UNKNOWN"
  const MinColumnWidth := 100

  /** `_getRows` numbers the rows only when the first row has no `id`. */
  predicate NeedsIds(rows: seq<Row>)
  {
    |rows| > 0 && IdColumn !in rows[0]
  }

  /** `_getRows`: when the first row has no `id`, every row gets `id` set to
      its position; otherwise the rows are returned as they are. */
  function GetRows(rows: seq<Row>): (r: seq<Row>)
    ensures |r| == |rows|
    ensures !NeedsIds(rows) ==> r == rows
    ensures NeedsIds(rows) ==> forall i :: 0 <= i < |r| ==> IdColumn in r[i] && r[i][IdColumn] == Num(i)
    ensures forall i :: 0 <= i < |r| ==> r[i].Keys == rows[i].Keys + (if NeedsIds(rows) then {IdColumn} else {})
    ensures forall i, k :: 0 <= i < |r| && k in rows[i] && k != IdColumn ==> k in r[i] && r[i][k] == rows[i][k]
  {
    if NeedsIds(rows) then seq(|rows|, i requires 0 <= i < |rows| => rows[i][IdColumn := Num(i)])
    else rows
  }

  /** Numbering the rows a second time changes nothing. */
  lemma GetRowsIdempotent(rows: seq<Row>)
    ensures GetRows(GetRows(rows)) == GetRows(rows)
  {
    var once := GetRows(rows);
    if |rows| > 0 {
      assert IdColumn in once[0];
    }
  }

  /** The type whose icon labels a column: the logical type when the
      physical type is `UNKNOWN`, the physical type otherwise. */
  function ResolvedType(f: Field): (t: string)
    ensures t == f.fieldType || t == f.logicalType
    ensures t == UnknownType ==> f.fieldType == UnknownType && f.logicalType == UnknownType
  {
    if f.fieldType == UnknownType then f.logicalType else f.fieldType
  }

  /** The header `_getHeaders` builds for one field: keyed by the field's
      name, at least 20 wide, and at least as wide as its minimum exactly
      when the name has eight or more characters. */
  function MakeHeader(f: Field): (h: Header)
    ensures h.id == f.name && h.field == f.name && h.minWidth == MinColumnWidth
    ensures h.width >= 20 && (h.width >= h.minWidth <==> |f.name| >= 8)
  {
    Header(f.name, f.name, ResolvedType(f), 10 * |f.name| + 20, MinColumnWidth)
  }

  /** `_getHeaders`: one header per field, in field order. */
  function GetHeaders(fields: seq<Field>): (hs: seq<Header>)
    ensures |hs| == |fields|
  {
    seq(|fields|, i requires 0 <= i < |fields| => MakeHeader(fields[i]))
  }

  /** Each header is keyed by its field's name, is 10 units wide per
      character of the name plus 20, has minimum width 100, and shows the
      logical type exactly when the physical type is `UNKNOWN`. */
  lemma HeaderColumns(fields: seq<Field>, i: int)
    requires 0 <= i < |fields|
    ensures var h := GetHeaders(fields)[i];
            && h.id == fields[i].name && h.field == fields[i].name
            && h.width == 10 * |fields[i].name| + 20
            && h.minWidth == MinColumnWidth
            && (fields[i].fieldType == UnknownType ==> h.iconType == fields[i].logicalType)
            && (fields[i].fieldType != UnknownType ==> h.iconType == fields[i].fieldType)
  {
  }

  /** A column's own width reaches its minimum exactly when its name has at
      least eight characters; shorter names get the minimum width. */
  lemma HeaderWidthAboveMinimum(fields: seq<Field>, i: int)
    requires 0 <= i < |fields|
    ensures var h := GetHeaders(fields)[i];
            h.width >= h.minWidth <==> |fields[i].name| >= 8
  {
  }
}
