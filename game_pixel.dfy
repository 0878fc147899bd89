/**
 * Game-canvas pixel helpers: the stored canvas size with its defaults, and freeing every
 * pixel a dead player owns (recoloured black, owner cleared).
 */
module GamePixel {
  import opened Wrappers
  import opened JsText
  import opened PixelField
  import opened CanvasService

  /** `parseInt(get('canvas:{id}:sizeX') || '100', 10)`: a missing or empty value means 100. */
  function SizeOf(stored: Option<string>): JsNum {
    ParseInt(if stored.None? || stored.value == "" then "100" else stored.value)
  }

  /** `getCanvasSize`: both dimensions, each read with its own default. */
  function GetCanvasSize(storedX: Option<string>, storedY: Option<string>): (size: (JsNum, JsNum))
    ensures storedX.Some? && storedX.value != "" ==> size.0 == ParseInt(storedX.value)
    ensures storedY.Some? && storedY.value != "" ==> size.1 == ParseInt(storedY.value)
    ensures (storedX.None? || storedX == Some("")) ==> size.0 == ParseInt("100")
    ensures (storedY.None? || storedY == Some("")) ==> size.1 == ParseInt("100")
  {
    (SizeOf(storedX), SizeOf(storedY))
  }

  /** A missing or empty dimension reads as 100, and a stored size reads back as itself. */
  lemma CanvasSizeDefaults(storedY: Option<string>, n: nat)
    ensures GetCanvasSize(None, storedY).0 == Num(100)
    ensures GetCanvasSize(Some(""), storedY).0 == Num(100)
    ensures GetCanvasSize(Some(IntToString(n)), storedY).0 == Num(n)
  {
    assert NatToString(1) == "1";
    assert NatToString(10) == NatToString(1) + [DigitChar(0)];
    assert NatToString(100) == NatToString(10) + [DigitChar(0)];
    ParseIntOfNatString(100, "");
    assert NatToString(100) + "" == "100";
    ParseIntOfNatString(n, "");
    assert IntToString(n) + "" == IntToString(n);
  }

  /**
   * The owner a loaded pixel carries: a user id, the column's null, or no `owner` property
   * at all (what `getAllPixels` returns, since it reads only x, y and colour).
   */
  datatype Owner = OwnerId(id: int) | NullOwner | NoOwnerField

  /** A pixel with the owner it is compared on. */
  datatype OwnedPixel = OwnedPixel(x: int, y: int, color: string, owner: Owner)

  /** A pixel reported as freed. */
  datatype FreedPixel = FreedPixel(x: int, y: int, color: string)

  const Black := "#000000"

  /** `String(pixel.owner)`: the id's digits, "null", or "undefined" for a missing property. */
  function OwnerText(owner: Owner): (t: string)
    ensures owner.OwnerId? ==> t == IntToString(owner.id)
    ensures owner.NullOwner? ==> t == "null"
    ensures owner.NoOwnerField? ==> t == "undefined"
  {
    match owner
    case OwnerId(id) => IntToString(id)
    case NullOwner => "null"
    case NoOwnerField => "undefined"
  }

  /** `String(pixel.owner) === String(userId)`, as a test on pixels. */
  function OwnedBy(userId: string): OwnedPixel -> bool {
    (p: OwnedPixel) => OwnerText(p.owner) == userId
  }

  function Freed(p: OwnedPixel): FreedPixel {
    FreedPixel(p.x, p.y, Black)
  }

  /** The pixels that pass `owned`, in input order, reported black. */
  function FreedOf(pixels: seq<OwnedPixel>, owned: OwnedPixel -> bool): seq<FreedPixel>
    decreases |pixels|
  {
    if pixels == [] then []
    else
      var last := pixels[|pixels| - 1];
      FreedOf(pixels[..|pixels| - 1], owned) + (if owned(last) then [Freed(last)] else [])
  }

  /**
   * Every freed pixel is black; every pixel that passes is freed, and every freed pixel
   * is one that passed; nothing is freed exactly when no pixel passes.
   */
  lemma {:induction false} FreedOfExactly(pixels: seq<OwnedPixel>, owned: OwnedPixel -> bool)
    ensures forall q :: q in FreedOf(pixels, owned) ==> q.color == Black
    ensures forall j :: 0 <= j < |pixels| && owned(pixels[j]) ==> Freed(pixels[j]) in FreedOf(pixels, owned)
    ensures forall q :: q in FreedOf(pixels, owned) ==>
      (exists j :: 0 <= j < |pixels| && owned(pixels[j]) && q == Freed(pixels[j]))
    ensures FreedOf(pixels, owned) == [] <==> forall j :: 0 <= j < |pixels| ==> !owned(pixels[j])
    decreases |pixels|
  {
    if pixels != [] {
      var front := pixels[..|pixels| - 1];
      var last := pixels[|pixels| - 1];
      FreedOfExactly(front, owned);
      forall j | 0 <= j < |pixels| && owned(pixels[j])
        ensures Freed(pixels[j]) in FreedOf(pixels, owned)
      {
        if j < |front| {
          assert pixels[j] == front[j];
        }
      }
      forall q | q in FreedOf(pixels, owned)
        ensures exists j :: 0 <= j < |pixels| && owned(pixels[j]) && q == Freed(pixels[j])
      {
        if !(owned(last) && q == Freed(last)) {
          var j :| 0 <= j < |front| && owned(front[j]) && q == Freed(front[j]);
          assert pixels[j] == front[j];
        }
      }
      if forall j :: 0 <= j < |pixels| ==> !owned(pixels[j]) {
        forall j | 0 <= j < |front|
          ensures !owned(front[j])
        {
          assert front[j] == pixels[j];
        }
      }
    }
  }

  /** The pixels as `getAllPixels` really delivers them: coordinates and colour, no `owner`. */
  function OwnersDropped(pixels: seq<OwnedPixel>): (r: seq<OwnedPixel>)
    ensures |r| == |pixels|
    ensures forall i :: 0 <= i < |pixels| ==>
      r[i] == OwnedPixel(pixels[i].x, pixels[i].y, pixels[i].color, NoOwnerField)
    decreases |pixels|
  {
    if pixels == [] then []
    else
      var last := pixels[|pixels| - 1];
      OwnersDropped(pixels[..|pixels| - 1]) + [OwnedPixel(last.x, last.y, last.color, NoOwnerField)]
  }

  /**
   * As written, the loaded pixels carry no owner, so `String(pixel.owner)` is "undefined":
   * nothing is freed for any real user id, and everything is freed for a caller whose id
   * itself renders as "undefined".
   */
  lemma AsWrittenFreesNothing(pixels: seq<OwnedPixel>, userId: string)
    ensures FreedOf(OwnersDropped(pixels), OwnedBy(userId)) == [] <==> userId != "undefined" || pixels == []
    ensures userId == "undefined" ==> |FreedOf(OwnersDropped(pixels), OwnedBy(userId))| == |pixels|
  {
    var loaded := OwnersDropped(pixels);
    FreedOfExactly(loaded, OwnedBy(userId));
    FreedOfLength(loaded, OwnedBy(userId));
    if userId == "undefined" && pixels != [] {
      assert OwnedBy(userId)(loaded[0]);
    }
  }

  /** When every pixel passes, every pixel is freed. */
  lemma {:induction false} FreedOfLength(pixels: seq<OwnedPixel>, owned: OwnedPixel -> bool)
    ensures (forall j :: 0 <= j < |pixels| ==> owned(pixels[j])) ==> |FreedOf(pixels, owned)| == |pixels|
    decreases |pixels|
  {
    if pixels != [] {
      var front := pixels[..|pixels| - 1];
      FreedOfLength(front, owned);
      if forall j :: 0 <= j < |pixels| ==> owned(pixels[j]) {
        forall j | 0 <= j < |front|
          ensures owned(front[j])
        {
          assert front[j] == pixels[j];
        }
      }
    }
  }

  /** The game's hash value of a freed cell: black, no owner (`#000000|`). */
  function FreedValue(): string {
    CellValue(Black, None)
  }

  /** The hash after HSET of every freed pixel's field to `#000000|`, in order. */
  function Blackened(hash: map<Cell, string>, freed: seq<FreedPixel>): map<Cell, string>
    decreases |freed|
  {
    if freed == [] then hash
    else
      var last := freed[|freed| - 1];
      Blackened(hash, freed[..|freed| - 1])[Cell(last.x, last.y) := FreedValue()]
  }

  /** Freed cells read `#000000|` afterwards; every other field keeps its value. */
  lemma {:induction false} BlackenedFields(hash: map<Cell, string>, freed: seq<FreedPixel>, f: Cell)
    ensures (exists i :: 0 <= i < |freed| && Cell(freed[i].x, freed[i].y) == f) ==>
      f in Blackened(hash, freed) && Blackened(hash, freed)[f] == FreedValue()
    ensures (forall i :: 0 <= i < |freed| ==> Cell(freed[i].x, freed[i].y) != f) ==>
      (f in Blackened(hash, freed) <==> f in hash) && (f in hash ==> Blackened(hash, freed)[f] == hash[f])
    decreases |freed|
  {
    if freed != [] {
      var front := freed[..|freed| - 1];
      var last := freed[|freed| - 1];
      BlackenedFields(hash, front, f);
      if Cell(last.x, last.y) != f {
        if exists i :: 0 <= i < |freed| && Cell(freed[i].x, freed[i].y) == f {
          var i :| 0 <= i < |freed| && Cell(freed[i].x, freed[i].y) == f;
          assert front[i] == freed[i];
        } else {
          forall k | 0 <= k < |front|
            ensures Cell(front[k].x, front[k].y) != f
          {
            assert front[k] == freed[k];
          }
        }
      }
    }
  }

  /**
   * `freeAllPixelsOfUser`: `loaded` is the pixel list with the owners recorded for it
   * (`None` when loading threw); as written the source's list has none (`OwnersDropped`).
   * Owned pixels are collected in order and their fields queued as `#000000|`; the queued
   * writes run only when something was freed.
   */
  method FreeAllPixelsOfUser(canvas: CanvasStore, canvasId: string, userId: string,
                             loaded: Option<seq<OwnedPixel>>)
    returns (freed: seq<FreedPixel>)
    modifies canvas`cells
    ensures freed == FreedOf(loaded.GetOr([]), OwnedBy(userId))
    ensures freed == [] ==> canvas.cells == old(canvas.cells)
    ensures freed != [] ==> canvas.cells == old(canvas.cells)[canvasId := Blackened(old(canvas.Hash(canvasId)), freed)]
  {
    var staged;
    freed, staged := CollectFreed(canvas.Hash(canvasId), loaded.GetOr([]), userId);
    if |freed| > 0 {
      canvas.cells := canvas.cells[canvasId := staged];
    }
  }

  /** The loop of `freeAllPixelsOfUser`: collects the freed pixels and stages their writes. */
  method CollectFreed(base: map<Cell, string>, pixels: seq<OwnedPixel>, userId: string)
    returns (freed: seq<FreedPixel>, staged: map<Cell, string>)
    ensures freed == FreedOf(pixels, OwnedBy(userId))
    ensures staged == Blackened(base, freed)
  {
    staged := base;
    freed := [];
    var i := 0;
    while i < |pixels|
      invariant 0 <= i <= |pixels|
      invariant freed == FreedOf(pixels[..i], OwnedBy(userId))
      invariant staged == Blackened(base, freed)
    {
      var p := pixels[i];
      assert pixels[..i + 1][..i] == pixels[..i];
      if OwnedBy(userId)(p) {
        var q := Freed(p);
        assert (freed + [q])[..|freed|] == freed;
        staged := staged[Cell(q.x, q.y) := FreedValue()];
        freed := freed + [q];
      }
      i := i + 1;
    }
    assert pixels[..i] == pixels;
  }
}
