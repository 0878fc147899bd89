/**
 * The encodings the server uses for pixels stored in the Redis hash `canvas:{id}`:
 * the field `x:y` names a cell, and the value is either a bare colour (normal canvases)
 * or `color|owner` (game canvases).
 */
module PixelField {
  import opened Wrappers
  import opened JsText

  /**
   * A cell of the canvas. The model keys hashes and dirty sets by the cell a field names;
   * `FieldOf` is the string Redis stores, and `FieldRoundTrip`/`FieldInjective` show that
   * the string names exactly that cell.
   */
  datatype Cell = Cell(x: int, y: int)

  /** The hash field of the cell at (x, y): `${x}:${y}`. */
  function FieldOf(x: int, y: int): string {
    IntToString(x) + ":" + IntToString(y)
  }

  /** `const [x, y] = field.split(':').map(Number)`; a missing second part reads as NaN. */
  function CoordsOf(field: string): (JsNum, JsNum) {
    var parts := Split(field, ':');
    (ToNumber(parts[0]), if |parts| > 1 then ToNumber(parts[1]) else NaN)
  }

  /** Decoding a field written by `FieldOf` gives back the coordinates. */
  lemma FieldRoundTrip(x: int, y: int)
    ensures CoordsOf(FieldOf(x, y)) == (Num(x), Num(y))
  {
    IntToStringHasNo(x, ':');
    IntToStringHasNo(y, ':');
    assert FieldOf(x, y) == Join([IntToString(x), IntToString(y)], ':');
    SplitJoin([IntToString(x), IntToString(y)], ':');
    ToNumberOfIntToString(x);
    ToNumberOfIntToString(y);
  }

  /** Distinct cells have distinct fields, so one hash field never holds two cells. */
  lemma FieldInjective(x1: int, y1: int, x2: int, y2: int)
    ensures FieldOf(x1, y1) == FieldOf(x2, y2) <==> x1 == x2 && y1 == y2
  {
    if FieldOf(x1, y1) == FieldOf(x2, y2) {
      FieldRoundTrip(x1, y1);
      FieldRoundTrip(x2, y2);
    }
  }

  /** The game's hash value `${color}|${owner}`; an absent owner leaves the part after '|' empty. */
  function CellValue(color: string, owner: Option<string>): string {
    color + "|" + owner.GetOr("")
  }

  /** `const [color, owner] = value.split('|')`, with `owner || null`. */
  function ColorOwnerOf(value: string): (string, Option<string>) {
    var parts := Split(value, '|');
    (parts[0], if |parts| > 1 && parts[1] != "" then Some(parts[1]) else None)
  }

  /** Splitting a game cell value gives back its colour and owner. */
  lemma CellRoundTrip(color: string, owner: Option<string>)
    requires '|' !in color
    requires owner.Some? ==> '|' !in owner.value && owner.value != ""
    ensures ColorOwnerOf(CellValue(color, owner)) == (color, owner)
  {
    var o := owner.GetOr("");
    assert CellValue(color, owner) == Join([color, o], '|');
    SplitJoin([color, o], '|');
  }

  /** A bare colour (no '|') decodes as that colour without owner. */
  lemma BareColor(color: string)
    requires '|' !in color
    ensures ColorOwnerOf(color) == (color, None)
  {
    SplitWithout(color, '|');
  }
}
