// The content-bounds scan of the front preview (components/Builder/CardPreview.tsx,
// `cutoutBounds`): the padded bounding box of the visible pixels of a cutout photo.
module ContentBounds {
  import opened Common

  /** One channel of a canvas pixel. */
  type Byte = x: int | 0 <= x < 256

  /** A rectangle in source-image pixels; x and y may be negative after padding. */
  datatype Box = Box(x: int, y: int, width: nat, height: nat)

  const AlphaThreshold := 12
  const LargeImagePixels := 2000000

  /**
   * `a * b` by repeated addition, so that the solver reasons about pixel
   * offsets without non-linear arithmetic.
   */
  function Times(a: nat, b: nat): nat
  {
    if a == 0 then 0 else Times(a - 1, b) + b
  }

  lemma {:induction false} TimesIsProduct(a: nat, b: nat)
    ensures Times(a, b) == a * b
  {
    if a > 0 {
      TimesIsProduct(a - 1, b);
    }
  }

  /**
   * Every pixel is sampled, or every second one on both axes for images of
   * more than two million pixels (`Times(w, h)` is `w * h`, see SampleStepRule).
   */
  function SampleStep(w: nat, h: nat): (step: nat)
    ensures step == 1 || step == 2
  {
    if Times(w, h) > LargeImagePixels then 2 else 1
  }

  lemma SampleStepRule(w: nat, h: nat)
    ensures SampleStep(w, h) == 2 <==> w * h > LargeImagePixels
    ensures SampleStep(w, h) == 1 <==> w * h <= LargeImagePixels
  {
    TimesIsProduct(w, h);
  }

  /** Padding added on every side: twice the step plus 5% of the shorter side, rounded. */
  function Padding(w: nat, h: nat): (pad: nat)
    ensures pad >= 2 * SampleStep(w, h)
  {
    2 * SampleStep(w, h) + Round(Min(w as real, h as real) * 0.05)
  }

  /** Offset of the alpha byte of pixel (x, y) in an RGBA buffer of width `w`: `(y * w + x) * 4 + 3`. */
  function AlphaIndex(w: nat, x: nat, y: nat): nat
  {
    (Times(y, w) + x) * 4 + 3
  }

  /** Alpha of pixel (x, y) (0 outside the buffer). */
  function AlphaAt(data: seq<Byte>, w: nat, x: int, y: int): Byte
  {
    if x < 0 || y < 0 then 0
    else
      var i := AlphaIndex(w, x, y);
      if i < |data| then data[i] else 0
  }

  /** `v` is visited by a loop that starts at 0 and advances by `step` (1 or 2). */
  predicate OnGrid(v: int, step: nat)
  {
    step == 1 || v % 2 == 0
  }

  /** Pixel (x, y) is on the sampling grid and visible. */
  ghost predicate Hit(data: seq<Byte>, w: nat, h: nat, step: nat, x: int, y: int)
  {
    0 <= x < w && 0 <= y < h && OnGrid(x, step) && OnGrid(y, step) && AlphaAt(data, w, x, y) > AlphaThreshold
  }

  ghost predicate AnyHit(data: seq<Byte>, w: nat, h: nat)
  {
    var step := SampleStep(w, h);
    exists x, y :: Hit(data, w, h, step, x, y)
  }

  /**
   * `b` is the tight box of the sampled visible pixels grown by `Padding` on
   * every side: every hit lies inside the unpadded box and each of its four
   * edges is attained by some hit.
   */
  ghost predicate IsPaddedBox(data: seq<Byte>, w: nat, h: nat, b: Box)
  {
    var pad := Padding(w, h);
    var step := SampleStep(w, h);
    && (forall x, y :: Hit(data, w, h, step, x, y) ==>
          b.x + pad <= x <= b.x + b.width - 1 - pad && b.y + pad <= y <= b.y + b.height - 1 - pad)
    && (exists x, y :: Hit(data, w, h, step, x, y) && x == b.x + pad)
    && (exists x, y :: Hit(data, w, h, step, x, y) && x == b.x + b.width - 1 - pad)
    && (exists x, y :: Hit(data, w, h, step, x, y) && y == b.y + pad)
    && (exists x, y :: Hit(data, w, h, step, x, y) && y == b.y + b.height - 1 - pad)
  }

  lemma {:induction false} TimesGrows(a: nat, c: nat, b: nat)
    requires a < c
    ensures Times(a, b) + b <= Times(c, b)
  {
    if a + 1 < c {
      TimesGrows(a, c - 1, b);
    }
  }

  /** Every pixel of a w-by-h image has its alpha byte inside the read-back buffer. */
  lemma PixelIndexInRange(w: nat, h: nat, x: nat, y: nat)
    requires x < w && y < h
    ensures AlphaIndex(w, x, y) < Times(h, w) * 4
  {
    TimesGrows(y, h, w);
  }

  lemma BufferLength(w: nat, h: nat)
    ensures Times(h, w) * 4 == w * h * 4
  {
    TimesIsProduct(h, w);
  }

  /** Running extremes of the scan: `maxX < 0` until the first hit. */
  datatype Extent = Extent(minX: int, minY: int, maxX: int, maxY: int)

  /** Hits that realise each extreme (proof bookkeeping only). */
  datatype Witnesses = Witnesses(ax: int, ay: int, lx: int, ly: int, cx: int, cy: int, dx: int, dy: int)

  /** (px, py) comes before (x, y) in row-major scan order. */
  predicate Before(px: int, py: int, x: int, y: int)
  {
    py < y || (py == y && px < x)
  }

  /** What the scan knows after visiting every grid pixel before (x, y). */
  ghost predicate ScanInv(data: seq<Byte>, w: nat, h: nat, step: nat, e: Extent, t: Witnesses, x: int, y: int)
  {
    && (forall px, py :: Hit(data, w, h, step, px, py) && Before(px, py, x, y) ==>
          e.minX <= px <= e.maxX && e.minY <= py <= e.maxY)
    && (e.maxX < 0 <==> e.maxY < 0)
    && (e.maxX < 0 ==> w <= e.minX && h <= e.minY)
    && (e.maxX < 0 ==> forall px, py :: Hit(data, w, h, step, px, py) ==> !Before(px, py, x, y))
    && (e.maxX >= 0 ==>
          && Hit(data, w, h, step, t.ax, t.ay) && t.ax == e.minX
          && Hit(data, w, h, step, t.lx, t.ly) && t.ly == e.minY
          && Hit(data, w, h, step, t.cx, t.cy) && t.cx == e.maxX
          && Hit(data, w, h, step, t.dx, t.dy) && t.dy == e.maxY)
  }

  /** The four `if` updates of the loop body for a visible pixel (x, y). */
  function Visit(e: Extent, x: int, y: int): Extent
  {
    Extent(if x < e.minX then x else e.minX, if y < e.minY then y else e.minY,
           if x > e.maxX then x else e.maxX, if y > e.maxY then y else e.maxY)
  }

  /** Visiting grid pixel (x, y) extends the invariant to the next column. */
  lemma VisitPreserves(data: seq<Byte>, w: nat, h: nat, step: nat, e: Extent, t: Witnesses, x: int, y: int)
    returns (t2: Witnesses)
    requires step == 1 || step == 2
    requires 0 <= x < w && 0 <= y < h && OnGrid(x, step) && OnGrid(y, step)
    requires ScanInv(data, w, h, step, e, t, x, y)
    ensures ScanInv(data, w, h, step, if Hit(data, w, h, step, x, y) then Visit(e, x, y) else e, t2, x + step, y)
  {
    NextColumn(data, w, h, step, x, y);
    if !Hit(data, w, h, step, x, y) {
      t2 := t;
      VisitMiss(data, w, h, step, e, t, x, y);
    } else if e.maxX < 0 {
      t2 := Witnesses(x, y, x, y, x, y, x, y);
      VisitFirstHit(data, w, h, step, e, t, x, y);
    } else {
      t2 := VisitLaterHit(data, w, h, step, e, t, x, y);
    }
  }

  /** The grid pixels before the next column are those before (x, y) and (x, y) itself. */
  lemma NextColumn(data: seq<Byte>, w: nat, h: nat, step: nat, x: int, y: int)
    requires step == 1 || step == 2
    requires OnGrid(x, step)
    ensures forall px, py :: Hit(data, w, h, step, px, py) && Before(px, py, x + step, y) ==>
              Before(px, py, x, y) || (px == x && py == y)
  {
  }

  lemma VisitMiss(data: seq<Byte>, w: nat, h: nat, step: nat, e: Extent, t: Witnesses, x: int, y: int)
    requires !Hit(data, w, h, step, x, y)
    requires ScanInv(data, w, h, step, e, t, x, y)
    requires forall px, py :: Hit(data, w, h, step, px, py) && Before(px, py, x + step, y) ==>
               Before(px, py, x, y) || (px == x && py == y)
    ensures ScanInv(data, w, h, step, e, t, x + step, y)
  {
  }

  lemma VisitFirstHit(data: seq<Byte>, w: nat, h: nat, step: nat, e: Extent, t: Witnesses, x: int, y: int)
    requires Hit(data, w, h, step, x, y) && e.maxX < 0
    requires ScanInv(data, w, h, step, e, t, x, y)
    requires forall px, py :: Hit(data, w, h, step, px, py) && Before(px, py, x + step, y) ==>
               Before(px, py, x, y) || (px == x && py == y)
    ensures ScanInv(data, w, h, step, Visit(e, x, y), Witnesses(x, y, x, y, x, y, x, y), x + step, y)
  {
  }

  lemma VisitLaterHit(data: seq<Byte>, w: nat, h: nat, step: nat, e: Extent, t: Witnesses, x: int, y: int)
    returns (t2: Witnesses)
    requires Hit(data, w, h, step, x, y) && e.maxX >= 0
    requires ScanInv(data, w, h, step, e, t, x, y)
    requires forall px, py :: Hit(data, w, h, step, px, py) && Before(px, py, x + step, y) ==>
               Before(px, py, x, y) || (px == x && py == y)
    ensures ScanInv(data, w, h, step, Visit(e, x, y), t2, x + step, y)
  {
    t2 := t;
    if x < e.minX { t2 := t2.(ax := x, ay := y); }
    if y < e.minY { t2 := t2.(lx := x, ly := y); }
    if x > e.maxX { t2 := t2.(cx := x, cy := y); }
    if y > e.maxY { t2 := t2.(dx := x, dy := y); }
  }

  /** A grid pixel inside the image is a hit exactly when its alpha byte exceeds the threshold. */
  lemma HitAt(data: seq<Byte>, w: nat, h: nat, step: nat, x: nat, y: nat)
    requires x < w && y < h && OnGrid(x, step) && OnGrid(y, step)
    requires AlphaIndex(w, x, y) < |data|
    ensures Hit(data, w, h, step, x, y) <==> data[AlphaIndex(w, x, y)] > AlphaThreshold
  {
  }

  /** Finishing a row (x has passed the width) moves the invariant to the next grid row. */
  lemma RowDone(data: seq<Byte>, w: nat, h: nat, step: nat, e: Extent, t: Witnesses, x: int, y: int)
    requires step == 1 || step == 2
    requires w <= x && 0 <= y && OnGrid(y, step)
    requires ScanInv(data, w, h, step, e, t, x, y)
    ensures ScanInv(data, w, h, step, e, t, 0, y + step)
  {
    forall px, py | Hit(data, w, h, step, px, py) && Before(px, py, 0, y + step)
      ensures Before(px, py, x, y)
    {
    }
  }

  /** The box the scan returns for the extremes `e`: padded on every side, width and height inclusive. */
  function PaddedBox(e: Extent, pad: nat): Box
    requires e.minX <= e.maxX && e.minY <= e.maxY
  {
    var paddedMinX := e.minX - pad;
    var paddedMinY := e.minY - pad;
    var paddedMaxX := e.maxX + pad;
    var paddedMaxY := e.maxY + pad;
    Box(paddedMinX, paddedMinY, paddedMaxX - paddedMinX + 1, paddedMaxY - paddedMinY + 1)
  }

  /** Once every row is scanned, the padded extremes are the box `IsPaddedBox` describes. */
  lemma ScanComplete(data: seq<Byte>, w: nat, h: nat, e: Extent, t: Witnesses, y: int)
    requires h <= y
    requires ScanInv(data, w, h, SampleStep(w, h), e, t, 0, y)
    ensures e.maxY < 0 <==> e.maxX < 0
    ensures e.maxX < 0 ==> !AnyHit(data, w, h)
    ensures e.maxX >= 0 ==> e.minX <= e.maxX && e.minY <= e.maxY
                            && IsPaddedBox(data, w, h, PaddedBox(e, Padding(w, h)))
  {
    var step := SampleStep(w, h);
    forall px, py | Hit(data, w, h, step, px, py) ensures Before(px, py, 0, y) {}
  }

  /** Before the first pixel nothing has been seen. */
  lemma ScanStart(data: seq<Byte>, w: nat, h: nat, step: nat, t: Witnesses)
    ensures ScanInv(data, w, h, step, Extent(w, h, -1, -1), t, 0, 0)
  {
  }

  /** The inner loop: one grid row of the scan. */
  method ScanRow(data: seq<Byte>, w: nat, h: nat, step: nat, y: nat,
                 minX0: int, minY0: int, maxX0: int, maxY0: int, ghost t0: Witnesses)
    returns (minX: int, minY: int, maxX: int, maxY: int, ghost t: Witnesses)
    requires step == 1 || step == 2
    requires |data| == Times(h, w) * 4 && y < h && OnGrid(y, step)
    requires ScanInv(data, w, h, step, Extent(minX0, minY0, maxX0, maxY0), t0, 0, y)
    ensures ScanInv(data, w, h, step, Extent(minX, minY, maxX, maxY), t, 0, y + step)
  {
    minX, minY, maxX, maxY, t := minX0, minY0, maxX0, maxY0, t0;
    var x := 0;
    while x < w
      invariant 0 <= x < w + step && OnGrid(x, step)
      invariant ScanInv(data, w, h, step, Extent(minX, minY, maxX, maxY), t, x, y)
      decreases w - x
    {
      var e := Extent(minX, minY, maxX, maxY);
      PixelIndexInRange(w, h, x, y);
      HitAt(data, w, h, step, x, y);
      t := VisitPreserves(data, w, h, step, e, t, x, y);
      if data[AlphaIndex(w, x, y)] > AlphaThreshold {
        var next := Visit(e, x, y);
        minX, minY, maxX, maxY := next.minX, next.minY, next.maxX, next.maxY;
      }
      x := x + step;
    }
    RowDone(data, w, h, step, Extent(minX, minY, maxX, maxY), t, x, y);
  }

  /** The two nested loops of the scan over a non-empty w-by-h read-back. */
  method ScanPixels(w: nat, h: nat, data: seq<Byte>) returns (r: Option<Box>)
    requires 0 < w && 0 < h && |data| == Times(h, w) * 4
    ensures r.None? <==> !AnyHit(data, w, h)
    ensures r.Some? ==> IsPaddedBox(data, w, h, r.value)
  {
    var minX, minY, maxX, maxY := w as int, h as int, -1, -1;
    var step := SampleStep(w, h);
    ghost var t := Witnesses(0, 0, 0, 0, 0, 0, 0, 0);
    ScanStart(data, w, h, step, t);
    var y := 0;
    while y < h
      invariant 0 <= y < h + step && OnGrid(y, step)
      invariant ScanInv(data, w, h, step, Extent(minX, minY, maxX, maxY), t, 0, y)
      decreases h - y
    {
      minX, minY, maxX, maxY, t := ScanRow(data, w, h, step, y, minX, minY, maxX, maxY, t);
      y := y + step;
    }
    ScanComplete(data, w, h, Extent(minX, minY, maxX, maxY), t, y);

    if maxX < 0 || maxY < 0 {
      return None;
    }
    var expand := step * 2;
    var padding := Padding(w, h) - expand;
    r := Some(PaddedBox(Extent(minX, minY, maxX, maxY), expand + padding));
  }

  /**
   * `cutoutBounds`. `present` is false when no photo is loaded and
   * `hasContext` is false when the off-screen canvas gives no 2D context;
   * `data` is the canvas read-back of the w-by-h image.
   */
  method ScanContentBounds(present: bool, isCutout: bool, hasContext: bool,
                           w: nat, h: nat, data: seq<Byte>) returns (r: Option<Box>)
    requires |data| == w * h * 4
    ensures r.None? <==> !present || !isCutout || w == 0 || h == 0 || !hasContext || !AnyHit(data, w, h)
    ensures r.Some? ==> IsPaddedBox(data, w, h, r.value)
  {
    if !present || !isCutout || w == 0 || h == 0 || !hasContext {
      return None;
    }
    BufferLength(w, h);
    r := ScanPixels(w, h, data);
  }

  /**
   * On a fully opaque image sampled at every pixel, the box is the whole image
   * grown by the padding on every side (it is not clamped to the image).
   */
  lemma {:induction false} OpaqueImageBox(data: seq<Byte>, w: nat, h: nat, b: Box)
    requires w > 0 && h > 0 && |data| == w * h * 4 && SampleStep(w, h) == 1
    requires forall x, y :: 0 <= x < w && 0 <= y < h ==> AlphaAt(data, w, x, y) > AlphaThreshold
    requires IsPaddedBox(data, w, h, b)
    ensures b == Box(-(Padding(w, h) as int), -(Padding(w, h) as int), w + 2 * Padding(w, h), h + 2 * Padding(w, h))
  {
    var pad := Padding(w, h);
    assert Hit(data, w, h, 1, 0, 0);
    assert Hit(data, w, h, 1, w - 1, h - 1);
    var x1, y1 :| Hit(data, w, h, 1, x1, y1) && x1 == b.x + pad;
    var x2, y2 :| Hit(data, w, h, 1, x2, y2) && x2 == b.x + b.width - 1 - pad;
    var x3, y3 :| Hit(data, w, h, 1, x3, y3) && y3 == b.y + pad;
    var x4, y4 :| Hit(data, w, h, 1, x4, y4) && y4 == b.y + b.height - 1 - pad;
  }

  /** A fully transparent image has no hit, so the scan reports no content. */
  lemma TransparentImageHasNoHit(data: seq<Byte>, w: nat, h: nat)
    requires forall i :: 0 <= i < |data| ==> data[i] <= AlphaThreshold
    ensures !AnyHit(data, w, h)
  {
  }
}
