/** The spreadsheet as the monitor sees it once it is loaded: rows of cells keyed
    by column name, and the numeric coercion applied to the spend column. */
module Cells {
  import opened Wrappers

  /** One cell of the loaded sheet: text, a number, or an empty/NaN cell. */
  datatype Cell = Text(s: string) | Num(x: real) | Null

  /** A row maps column names to cells. The analysis tests `col in row` where the
      source tests `col in df.columns`; the two agree for every sheet the
      spreadsheet library produces, whose rows are keyed by exactly its columns,
      but a `Table` value is not required to be such a sheet. */
  type Row = map<string, Cell>

  /** A loaded sheet: its columns and its rows, in file order. */
  datatype Table = Table(columns: set<string>, rows: seq<Row>)

  /** How a text cell reads as a number (`None` when it does not parse). The
      parsing rules of the spreadsheet library are not modelled, so every
      operation that coerces takes one of these as a parameter. */
  type Parser = string -> Option<real>

  /** `row.get(col, default)`: the cell under `col`, or `default` when the
      sheet has no such column. */
  function Get(row: Row, col: string, default: Cell): (c: Cell)
    ensures col in row ==> c == row[col]
    ensures col !in row ==> c == default
  {
    if col in row then row[col] else default
  }

  /** Numeric coercion of one cell with errors mapped to NaN: numbers stay,
      empty cells stay NaN, text becomes what `parse` makes of it. */
  function ToNumeric(parse: Parser, c: Cell): (r: Option<real>)
    ensures c.Num? ==> r == Some(c.x)
    ensures c.Null? ==> r == None
    ensures c.Text? ==> r == parse(c.s)
  {
    match c
    case Num(x) => Some(x)
    case Null => None
    case Text(s) => parse(s)
  }

  /** The cell that a coerced value is stored back as: a number, or NaN. */
  function FromNumeric(v: Option<real>): (c: Cell)
    ensures !c.Text?
    ensures v.Some? <==> c.Num?
    ensures v.Some? ==> c.x == v.value
  {
    match v
    case Some(x) => Num(x)
    case None => Null
  }

  /** The row after the spend column has been coerced to numbers (NaN on
      failure); a sheet without that column is left unchanged. */
  function CoerceColumn(parse: Parser, row: Row, col: string): (r: Row)
    ensures r.Keys == row.Keys
    ensures col in row ==> r[col] == FromNumeric(ToNumeric(parse, row[col]))
    ensures forall k :: k in row && k != col ==> r[k] == row[k]
  {
    if col in row then row[col := FromNumeric(ToNumeric(parse, row[col]))] else row
  }

  /** Storing a coerced value back in the sheet and reading it as a number
      again gives the same value, whatever the text parser. */
  lemma CoercionRoundTrip(parse: Parser, v: Option<real>)
    ensures ToNumeric(parse, FromNumeric(v)) == v
  {
  }

  /** Coercing a column that has already been coerced changes nothing: after
      one coercion the column holds only numbers and NaN. */
  lemma CoerceColumnIdempotent(parse: Parser, row: Row, col: string)
    ensures CoerceColumn(parse, CoerceColumn(parse, row, col), col) == CoerceColumn(parse, row, col)
  {
    if col in row {
      CoercionRoundTrip(parse, ToNumeric(parse, row[col]));
    }
  }
}
