/**
 * What the four load-test generators share: a CSV row becomes a pixel record whose user id
 * is the row's position offset by a start id; a payload file holds one `json.dump` of each
 * record per line; the emit template binds the payload's four fields.
 *
 * The CSV rows are given already parsed (`int(row["x"])`, `int(row["y"])`); reading the
 * file is not modelled.
 */
module LoadTest {
  import opened JsText
  import opened Sorting

  /** One CSV row after `int()` on its coordinates. */
  datatype Row = Row(x: int, y: int, color: string)

  /** The dictionary `{"x", "y", "color", "user_id"}` each generator builds per row. */
  datatype Pixel = Pixel(x: int, y: int, color: string, userId: int)

  // ---------------------------------------------------------------------------
  // Records

  /** The records of `rows` numbered from `start`: row i gets user id `start + i`. */
  function Records(rows: seq<Row>, start: int): (r: seq<Pixel>)
    ensures |r| == |rows|
    ensures forall i :: 0 <= i < |rows| ==>
      r[i] == Pixel(rows[i].x, rows[i].y, rows[i].color, start + i)
    decreases |rows|
  {
    if rows == [] then []
    else
      var n := |rows| - 1;
      Records(rows[..n], start) + [Pixel(rows[n].x, rows[n].y, rows[n].color, start + n)]
  }

  /** `csv_to_json`: the `for i, row in enumerate(reader)` loop appending one record per row. */
  method CsvToJson(rows: seq<Row>, startUserId: int) returns (pixels: seq<Pixel>)
    ensures pixels == Records(rows, startUserId)
  {
    pixels := [];
    var i := 0;
    while i < |rows|
      invariant 0 <= i <= |rows|
      invariant pixels == Records(rows[..i], startUserId)
    {
      assert rows[..i + 1][..i] == rows[..i];
      pixels := pixels + [Pixel(rows[i].x, rows[i].y, rows[i].color, startUserId + i)];
      i := i + 1;
    }
    assert rows[..i] == rows;
  }

  /** The user ids of a list of records. */
  function UserIds(pixels: seq<Pixel>): (ids: set<int>)
    ensures forall i :: 0 <= i < |pixels| ==> pixels[i].userId in ids
    ensures forall id :: id in ids ==> exists i :: 0 <= i < |pixels| && pixels[i].userId == id
  {
    set i | 0 <= i < |pixels| :: pixels[i].userId
  }

  /** The ids of `Records(rows, start)` are exactly start .. start + |rows| - 1. */
  lemma RecordIds(rows: seq<Row>, start: int)
    ensures forall id :: id in UserIds(Records(rows, start)) <==> start <= id < start + |rows|
  {
    var ps := Records(rows, start);
    forall id | start <= id < start + |rows|
      ensures id in UserIds(ps)
    {
      assert ps[id - start].userId == id;
    }
  }

  /** Concatenating two teams numbered 1.. and |team1|+1.. numbers the whole list 1..n. */
  lemma ConsecutiveTeams(rows1: seq<Row>, rows2: seq<Row>)
    ensures var all := Records(rows1, 1) + Records(rows2, |rows1| + 1);
      |all| == |rows1| + |rows2| &&
      (forall i :: 0 <= i < |all| ==> all[i].userId == i + 1) &&
      (forall i, j :: 0 <= i < |all| && 0 <= j < |all| && all[i].userId == all[j].userId ==> i == j)
  {
    var all := Records(rows1, 1) + Records(rows2, |rows1| + 1);
    forall i | 0 <= i < |all|
      ensures all[i].userId == i + 1
    {
      if i >= |rows1| {
        assert all[i] == Records(rows2, |rows1| + 1)[i - |rows1|];
      }
    }
  }

  // ---------------------------------------------------------------------------
  // Mirroring

  /** The coordinate transform `63 - x`, `63 - y`; colour and user id are kept. */
  function Mirror(p: Pixel): (q: Pixel)
    ensures q.x + p.x == 63 && q.y + p.y == 63 && q.color == p.color && q.userId == p.userId
  {
    Pixel(63 - p.x, 63 - p.y, p.color, p.userId)
  }

  /** Every pixel mirrored, in order. */
  function MirrorAll(pixels: seq<Pixel>): (r: seq<Pixel>)
    ensures |r| == |pixels|
    ensures forall i :: 0 <= i < |pixels| ==> r[i] == Mirror(pixels[i])
    decreases |pixels|
  {
    if pixels == [] then []
    else MirrorAll(pixels[..|pixels| - 1]) + [Mirror(pixels[|pixels| - 1])]
  }

  /** Mirroring twice restores every pixel. */
  lemma MirrorInvolution(pixels: seq<Pixel>)
    ensures MirrorAll(MirrorAll(pixels)) == pixels
  {
    assert forall i :: 0 <= i < |pixels| ==> Mirror(Mirror(pixels[i])) == pixels[i];
  }

  /** Inside the 64 x 64 board, the mirror image is inside it too. */
  lemma MirrorStaysOnBoard(p: Pixel)
    requires 0 <= p.x < 64 && 0 <= p.y < 64
    ensures 0 <= Mirror(p).x < 64 && 0 <= Mirror(p).y < 64
  {
  }

  // ---------------------------------------------------------------------------
  // Sorting by x

  /** The key `lambda p: p["x"]` as a "may precede" relation. */
  predicate ByX(a: Pixel, b: Pixel) {
    a.x <= b.x
  }

  predicate AnyPixel(p: Pixel) {
    true
  }

  /** `pixels.sort(key=lambda p: p["x"])`. */
  function SortedByX(pixels: seq<Pixel>): seq<Pixel> {
    SortBy(pixels, ByX)
  }

  /** The pixels whose x is `v`, in order. */
  function Column(pixels: seq<Pixel>, v: int): (r: seq<Pixel>)
    ensures forall i :: 0 <= i < |r| ==> r[i].x == v
    decreases |pixels|
  {
    if pixels == [] then []
    else (if pixels[0].x == v then [pixels[0]] else []) + Column(pixels[1..], v)
  }

  /** The column of a concatenation is the concatenation of the columns. */
  lemma {:induction false} ColumnAppend(a: seq<Pixel>, b: seq<Pixel>, v: int)
    ensures Column(a + b, v) == Column(a, v) + Column(b, v)
    decreases |a|
  {
    if a != [] {
      assert (a + b)[0] == a[0];
      assert (a + b)[1..] == a[1..] + b;
      ColumnAppend(a[1..], b, v);
    } else {
      assert a + b == b;
    }
  }

  /** The column of one pixel. */
  lemma ColumnSingle(q: Pixel, v: int)
    ensures Column([q], v) == if q.x == v then [q] else []
  {
    assert [q][1..] == [];
  }

  /** A pixel left of column v passes over it: putting it in front commutes with the column. */
  lemma ColumnSkip(q: Pixel, p: Pixel, rest: seq<Pixel>, tail: seq<Pixel>, v: int)
    requires q.x < p.x
    requires Column(rest, v) == Column([p], v) + Column(tail, v)
    ensures Column([q] + rest, v) == Column([p], v) + Column([q] + tail, v)
  {
    ColumnAppend([q], rest, v);
    ColumnAppend([q], tail, v);
    ColumnSingle(q, v);
    ColumnSingle(p, v);
    if p.x == v {
      assert Column([q], v) == [];
    } else {
      assert Column([p], v) == [];
    }
  }

  lemma {:induction false} InsertColumn(p: Pixel, s: seq<Pixel>, v: int)
    ensures Column(Insert(p, s, ByX), v) == (if p.x == v then [p] else []) + Column(s, v)
    decreases |s|
  {
    ColumnSingle(p, v);
    if s == [] || ByX(p, s[0]) {
      ColumnAppend([p], s, v);
    } else {
      InsertColumn(p, s[1..], v);
      ColumnSkip(s[0], p, Insert(p, s[1..], ByX), s[1..], v);
      assert s == [s[0]] + s[1..];
    }
  }

  /** Stability: pixels with equal x keep their relative order. */
  lemma {:induction false} SortedByXStable(pixels: seq<Pixel>, v: int)
    ensures Column(SortedByX(pixels), v) == Column(pixels, v)
    decreases |pixels|
  {
    if pixels != [] {
      SortedByXStable(pixels[1..], v);
      InsertColumn(pixels[0], SortBy(pixels[1..], ByX), v);
    }
  }

  /** The sorted list has non-decreasing x and holds the same pixels. */
  lemma SortedByXOrdered(pixels: seq<Pixel>)
    ensures forall i, j :: 0 <= i < j < |SortedByX(pixels)| ==> SortedByX(pixels)[i].x <= SortedByX(pixels)[j].x
    ensures multiset(SortedByX(pixels)) == multiset(pixels)
  {
    SortBySorted(pixels, ByX, AnyPixel);
  }

  /** `list.sort` works in place: the caller's list ends up sorted. */
  method SortInPlace(a: array<Pixel>)
    modifies a
    ensures a[..] == SortedByX(old(a[..]))
  {
    var sorted := SortedByX(a[..]);
    forall i | 0 <= i < a.Length {
      a[i] := sorted[i];
    }
  }

  // ---------------------------------------------------------------------------
  // JSON lines

  predicate Printable(s: string) {
    forall c :: c in s ==> ' ' <= c <= '~'
  }

  function HexDigit(d: nat): (c: char)
    requires d < 16
    ensures ' ' <= c <= '~'
  {
    "0123456789abcdef"[d]
  }

  /** Four lower-case hex digits, as `'\\u{0:04x}'` writes them. */
  function Hex4(v: nat): (s: string)
    requires v < 0x1_0000
    ensures |s| == 4 && Printable(s)
  {
    [HexDigit(v / 0x1000), HexDigit(v / 0x100 % 16), HexDigit(v / 0x10 % 16), HexDigit(v % 16)]
  }

  /**
   * One character as `json.dump` writes it with `ensure_ascii`: the short escapes, `\uXXXX`
   * for every other character outside ' '..'~', and a surrogate pair beyond the BMP.
   */
  function EscapeChar(c: char): (s: string)
    ensures Printable(s)
    ensures ' ' <= c <= '~' && c != '"' && c != '\\' ==> s == [c]
  {
    if c == '"' then "\\\""
    else if c == '\\' then "\\\\"
    else if c == '\n' then "\\n"
    else if c == '\r' then "\\r"
    else if c == '\t' then "\\t"
    else if c == '\U{8}' then "\\b"
    else if c == '\U{c}' then "\\f"
    else if ' ' <= c <= '~' then [c]
    else
      var n := c as int;
      if n < 0x1_0000 then "\\u" + Hex4(n)
      else
        var v := n - 0x1_0000;
        "\\u" + Hex4(0xD800 + v / 0x400) + "\\u" + Hex4(0xDC00 + v % 0x400)
  }

  function EscapeAll(s: string): (r: string)
    ensures Printable(r)
    ensures |r| >= |s|
  {
    if s == [] then "" else EscapeChar(s[0]) + EscapeAll(s[1..])
  }

  /** A string in JSON. */
  function JsonString(s: string): (r: string)
    ensures Printable(r)
  {
    "\"" + EscapeAll(s) + "\""
  }

  lemma IntToStringPrintable(n: int)
    ensures Printable(IntToString(n))
  {
    var s := IntToString(n);
    forall c | c in s
      ensures ' ' <= c <= '~'
    {
      var i :| 0 <= i < |s| && s[i] == c;
      if n < 0 && i > 0 {
        assert s[i] == NatToString(-n)[i - 1];
      }
    }
  }

  /** `json.dump(pixel)` with the default separators, keys in insertion order. */
  function JsonLine(p: Pixel): string {
    "{\"x\": " + IntToString(p.x) + ", \"y\": " + IntToString(p.y) + ", \"color\": " + JsonString(p.color) +
    ", \"user_id\": " + IntToString(p.userId) + "}"
  }

  /** A record's line is printable ASCII: in particular it holds no newline. */
  lemma JsonLinePrintable(p: Pixel)
    ensures Printable(JsonLine(p)) && '\n' !in JsonLine(p)
  {
    IntToStringPrintable(p.x);
    IntToStringPrintable(p.y);
    IntToStringPrintable(p.userId);
    var a := "{\"x\": " + IntToString(p.x);
    assert Printable(a);
    var b := a + ", \"y\": " + IntToString(p.y);
    assert Printable(b);
    var c := b + ", \"color\": " + JsonString(p.color);
    assert Printable(c);
    var d := c + ", \"user_id\": " + IntToString(p.userId);
    assert Printable(d);
    assert JsonLine(p) == d + "}";
  }

  /** The payload file: each record's line followed by `'\n'`. */
  function Payload(pixels: seq<Pixel>): string
    decreases |pixels|
  {
    if pixels == [] then "" else JsonLine(pixels[0]) + "\n" + Payload(pixels[1..])
  }

  function Lines(pixels: seq<Pixel>): (r: seq<string>)
    ensures |r| == |pixels|
    ensures forall i :: 0 <= i < |pixels| ==> r[i] == JsonLine(pixels[i])
    decreases |pixels|
  {
    if pixels == [] then [] else [JsonLine(pixels[0])] + Lines(pixels[1..])
  }

  lemma {:induction false} PayloadAppend(pixels: seq<Pixel>, p: Pixel)
    ensures Payload(pixels + [p]) == Payload(pixels) + (JsonLine(p) + "\n")
    decreases |pixels|
  {
    if pixels != [] {
      var head, rest, tail := JsonLine(pixels[0]) + "\n", pixels[1..], JsonLine(p) + "\n";
      assert (pixels + [p])[0] == pixels[0];
      assert (pixels + [p])[1..] == rest + [p];
      PayloadAppend(rest, p);
      AppendAssoc(head, Payload(rest), tail);
    }
  }

  lemma AppendAssoc(a: string, b: string, c: string)
    ensures a + (b + c) == (a + b) + c
  {
  }

  lemma PayloadPrefix(pixels: seq<Pixel>, i: int)
    requires 0 <= i < |pixels|
    ensures Payload(pixels[..i + 1]) == Payload(pixels[..i]) + (JsonLine(pixels[i]) + "\n")
  {
    assert pixels[..i + 1] == pixels[..i] + [pixels[i]];
    PayloadAppend(pixels[..i], pixels[i]);
  }

  /** The `for pixel in ...: json.dump(pixel, f); f.write('\n')` loop, as the text it writes. */
  method WritePayload(pixels: seq<Pixel>) returns (text: string)
    ensures text == Payload(pixels)
  {
    text := "";
    var i := 0;
    while i < |pixels|
      invariant 0 <= i <= |pixels|
      invariant text == Payload(pixels[..i])
    {
      PayloadPrefix(pixels, i);
      text := text + (JsonLine(pixels[i]) + "\n");
      i := i + 1;
    }
    assert pixels[..i] == pixels;
  }

  lemma {:induction false} PayloadIsJoin(pixels: seq<Pixel>)
    ensures Payload(pixels) == Join(Lines(pixels) + [""], '\n')
    decreases |pixels|
  {
    if pixels != [] {
      PayloadIsJoin(pixels[1..]);
      assert (Lines(pixels) + [""])[1..] == Lines(pixels[1..]) + [""];
    }
  }

  /** Reading the payload back line by line gives one record per line, in list order. */
  lemma PayloadLines(pixels: seq<Pixel>)
    ensures Split(Payload(pixels), '\n') == Lines(pixels) + [""]
  {
    PayloadIsJoin(pixels);
    var parts := Lines(pixels) + [""];
    forall i | 0 <= i < |parts|
      ensures '\n' !in parts[i]
    {
      if i < |pixels| {
        JsonLinePrintable(pixels[i]);
      }
    }
    SplitJoin(parts, '\n');
  }

  // ---------------------------------------------------------------------------
  // Scenario templates

  /** The payload's fields, `["x", "y", "color", "user_id"]`. */
  const Fields: seq<string> := ["x", "y", "color", "user_id"]

  /** Artillery's `{{ name }}` reference to a payload field. */
  function Placeholder(field: string): string {
    "{{ " + field + " }}"
  }

  /** The `draw_pixel_simul` data template: the canvas id and one placeholder per field. */
  function EmitTemplate(canvasId: int): map<string, string> {
    map["canvas_id" := IntToString(canvasId), "x" := "{{ x }}", "y" := "{{ y }}",
        "color" := "{{ color }}", "user_id" := "{{ user_id }}"]
  }

  /** The single-scenario configuration of the merged generators: one payload, one phase. */
  datatype MergedConfig = MergedConfig(arrivalCount: int, duration: int, payloadPath: string,
                                       fields: seq<string>, channel: string, data: map<string, string>)

  /** The template binds exactly the payload's fields, each to its own value. */
  lemma TemplateBindsFields(canvasId: int)
    ensures EmitTemplate(canvasId).Keys == {"canvas_id"} + set f | f in Fields
    ensures forall f :: f in Fields ==> EmitTemplate(canvasId)[f] == Placeholder(f)
    ensures EmitTemplate(canvasId)["canvas_id"] == IntToString(canvasId)
  {
    assert Placeholder("x") == "{{ x }}";
    assert Placeholder("y") == "{{ y }}";
    assert Placeholder("color") == "{{ color }}";
    assert Placeholder("user_id") == "{{ user_id }}";
    assert (set f | f in Fields) == {"x", "y", "color", "user_id"};
  }
}
