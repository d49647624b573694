// Placement of the player photo inside the front frame
// (components/Builder/CardPreview.tsx): the cover transform, the range of
// positions that keep the frame covered, the slack-widened drag bounds, the
// subject treatment switches, and the drag handlers that turn pointer
// movement into a percentage offset.
module PhotoLayout {
  import opened Common
  import opened CardTypes
  import ContentBounds

  const AutoFitHeadroom: real := 0.06

  /** Result of `playerLayout`, in frame-local pixels. */
  datatype Layout = Layout(
    x: real, y: real,                   // photo position before the user's offset
    width: real, height: real,          // scaled full image
    contentOffsetX: real, contentOffsetY: real,
    contentWidth: real, contentHeight: real,
    minX: real, maxX: real, minY: real, maxY: real)

  /** Scale-to-cover: the smallest scale at which a cw-by-ch box covers the frame. */
  function CoverScale(frameW: NonNeg, frameH: NonNeg, cw: real, ch: real): (scale: real)
    requires cw > 0.0 && ch > 0.0
    ensures scale >= 0.0
    ensures scale * cw >= frameW && scale * ch >= frameH
    ensures scale * cw == frameW || scale * ch == frameH
  {
    Max(frameW / cw, frameH / ch)
  }

  /** `Math.min(a, b)` / `Math.max(a, b)` of the two candidate ends of an offset range. */
  function OrderedRange(a: real, b: real): (r: (real, real))
    ensures r.0 <= r.1
    ensures {r.0, r.1} == {a, b}
  {
    (Min(a, b), Max(a, b))
  }

  /**
   * `playerLayout`. `image` holds the loaded photo's natural size; `bounds`
   * is the content box found by the scan (absent for non-cutouts or when the
   * scan found nothing, in which case the whole image is the content).
   */
  function PlayerLayout(image: Option<(nat, nat)>, frameW: NonNeg, frameH: NonNeg,
                        bounds: Option<ContentBounds.Box>, isCutout: bool): (r: Option<Layout>)
    ensures r.None? <==>
      || image.None? || image.value.0 == 0 || image.value.1 == 0 || frameW == 0.0 || frameH == 0.0
      || (bounds.Some? && (bounds.value.width == 0 || bounds.value.height == 0))
    ensures r.Some? ==> LayoutCovers(r.value, frameW, frameH)
  {
    if image.None? then None
    else
      var (imageWidth, imageHeight) := image.value;
      if imageWidth == 0 || imageHeight == 0 || frameW == 0.0 || frameH == 0.0 then None
      else
        var contentBounds := ContentOf(image.value, bounds);
        if contentBounds.width == 0 || contentBounds.height == 0 then None
        else
          var scale := CoverScale(frameW, frameH, contentBounds.width as real, contentBounds.height as real);
          var imageScale := Scaled(scale, imageWidth, imageHeight);
          var contentOffset := Scaled(scale, contentBounds.x, contentBounds.y);
          var contentSize := Scaled(scale, contentBounds.width, contentBounds.height);
          Some(Arrange(frameW, frameH, contentOffset.0, contentOffset.1, contentSize.0, contentSize.1,
                       imageScale.0, imageScale.1, isCutout))
  }

  /** Two lengths multiplied by the same scale. */
  function Scaled(scale: real, a: int, b: int): (r: (real, real))
    ensures r.0 == a as real * scale && r.1 == b as real * scale
  {
    (a as real * scale, b as real * scale)
  }

  /**
   * The position part of `playerLayout`, once the content box has been
   * scaled (offset ox, oy and size cw, ch; whole image width by height):
   * the offset range, the centred base position, the cutout headroom and
   * the clamp into the range.
   */
  function Arrange(frameW: real, frameH: real, ox: real, oy: real, cw: real, ch: real,
                   width: real, height: real, isCutout: bool): (l: Layout)
    requires 0.0 <= frameH && cw >= frameW && ch >= frameH && (cw == frameW || ch == frameH)
    ensures LayoutCovers(l, frameW, frameH)
    ensures l.width == width && l.height == height
    ensures l.contentOffsetX == ox && l.contentOffsetY == oy && l.contentWidth == cw && l.contentHeight == ch
    ensures l.x + ox + cw / 2.0 == frameW / 2.0
    ensures !isCutout ==> l.y + oy + ch / 2.0 == frameH / 2.0
    ensures isCutout ==> l.y == Min(l.maxY, (frameH - ch) / 2.0 - oy + AutoFitHeadroom * frameH)
  {
    var (boundMinX, boundMaxX) := OrderedRange(frameW - (ox + cw), -ox);
    var (boundMinY, boundMaxY) := OrderedRange(frameH - (oy + ch), -oy);
    var baseX := (frameW - cw) / 2.0 - ox;
    var baseY := (frameH - ch) / 2.0 - oy;
    var headroom := if isCutout then frameH * AutoFitHeadroom else 0.0;
    Layout(
      Clamp(baseX, boundMinX, boundMaxX), Clamp(baseY + headroom, boundMinY, boundMaxY),
      width, height, ox, oy, cw, ch,
      boundMinX, boundMaxX, boundMinY, boundMaxY)
  }

  /** `cutoutBounds ?? { x: 0, y: 0, width: imageWidth, height: imageHeight }` */
  function ContentOf(image: (nat, nat), bounds: Option<ContentBounds.Box>): (b: ContentBounds.Box)
    ensures bounds.None? ==> b == ContentBounds.Box(0, 0, image.0, image.1)
    ensures bounds.Some? ==> b == bounds.value
  {
    if bounds.Some? then bounds.value else ContentBounds.Box(0, 0, image.0, image.1)
  }

  /** The content box is centred horizontally, and vertically too unless the cutout headroom raises it. */
  lemma PlayerLayoutPlacement(image: Option<(nat, nat)>, frameW: NonNeg, frameH: NonNeg,
                              bounds: Option<ContentBounds.Box>, isCutout: bool)
    ensures var r := PlayerLayout(image, frameW, frameH, bounds, isCutout);
            r.Some? ==>
              var l := r.value;
              && l.x + l.contentOffsetX + l.contentWidth / 2.0 == frameW / 2.0
              && (!isCutout ==> l.y + l.contentOffsetY + l.contentHeight / 2.0 == frameH / 2.0)
              && (isCutout ==>
                    l.y == Min(l.maxY, (frameH - l.contentHeight) / 2.0 - l.contentOffsetY + AutoFitHeadroom * frameH))
  {
  }

  /** Image, content offset and content size all carry the same cover scale. */
  lemma PlayerLayoutScale(image: Option<(nat, nat)>, frameW: NonNeg, frameH: NonNeg,
                          bounds: Option<ContentBounds.Box>, isCutout: bool)
    ensures var r := PlayerLayout(image, frameW, frameH, bounds, isCutout);
            r.Some? ==>
              var c := ContentOf(image.value, bounds);
              var scale := CoverScale(frameW, frameH, c.width as real, c.height as real);
              && r.value.width == image.value.0 as real * scale
              && r.value.height == image.value.1 as real * scale
              && r.value.contentOffsetX == c.x as real * scale && r.value.contentOffsetY == c.y as real * scale
              && r.value.contentWidth == c.width as real * scale && r.value.contentHeight == c.height as real * scale
  {
  }

  /**
   * The layout's guarantees: the scaled content box covers the frame (tight on
   * one axis), the ranges are ordered, the photo sits inside them, and at any
   * position in range the content box spans the whole frame.
   */
  ghost predicate LayoutCovers(l: Layout, frameW: real, frameH: real)
  {
    && l.contentWidth >= frameW && l.contentHeight >= frameH
    && (l.contentWidth == frameW || l.contentHeight == frameH)
    && l.minX <= l.x <= l.maxX && l.minY <= l.y <= l.maxY
    && l.minX == frameW - (l.contentOffsetX + l.contentWidth) && l.maxX == -l.contentOffsetX
    && l.minY == frameH - (l.contentOffsetY + l.contentHeight) && l.maxY == -l.contentOffsetY
  }

  /** Any position inside the layout range leaves no gap in the frame. */
  lemma RangeCoversFrame(l: Layout, frameW: real, frameH: real, px: real, py: real)
    requires LayoutCovers(l, frameW, frameH)
    requires l.minX <= px <= l.maxX && l.minY <= py <= l.maxY
    ensures px + l.contentOffsetX <= 0.0 && px + l.contentOffsetX + l.contentWidth >= frameW
    ensures py + l.contentOffsetY <= 0.0 && py + l.contentOffsetY + l.contentHeight >= frameH
  {
  }

  // ------------------------------------------------------------ drag bounds

  datatype Bounds = Bounds(minX: real, maxX: real, minY: real, maxY: real)

  function SlackX(frameW: real): real { Max(frameW * 0.12, 16.0) }
  function SlackY(frameH: real): real { Max(frameH * 0.1, 16.0) }

  /**
   * `dragBounds`: the layout range, widened on both sides of an axis by that
   * axis's slack when the range is narrower than the slack.
   */
  function DragBounds(layout: Option<Layout>, frameW: NonNeg, frameH: NonNeg): (r: Option<Bounds>)
    ensures r.None? <==> layout.None? || frameW == 0.0 || frameH == 0.0
    ensures r.Some? ==> var l := layout.value; var b := r.value;
      && b.minX <= l.minX && l.maxX <= b.maxX && b.minY <= l.minY && l.maxY <= b.maxY
      && (l.maxX - l.minX < SlackX(frameW) <==> b.minX < l.minX)
      && (l.maxX - l.minX < SlackX(frameW) <==> l.maxX < b.maxX)
      && (l.maxY - l.minY < SlackY(frameH) <==> b.minY < l.minY)
      && (l.maxY - l.minY < SlackY(frameH) <==> l.maxY < b.maxY)
      && (b.minX < l.minX ==> l.minX - b.minX == b.maxX - l.maxX == SlackX(frameW))
      && (b.minY < l.minY ==> l.minY - b.minY == b.maxY - l.maxY == SlackY(frameH))
  {
    if layout.None? || frameW == 0.0 || frameH == 0.0 then None
    else
      var l := layout.value;
      var rangeX := l.maxX - l.minX;
      var rangeY := l.maxY - l.minY;
      var slackX := SlackX(frameW);
      var slackY := SlackY(frameH);
      Some(Bounds(
        if rangeX < slackX then l.minX - slackX else l.minX,
        if rangeX < slackX then l.maxX + slackX else l.maxX,
        if rangeY < slackY then l.minY - slackY else l.minY,
        if rangeY < slackY then l.maxY + slackY else l.maxY))
  }

  predicate InBounds(b: Bounds, p: Point)
  {
    b.minX <= p.x <= b.maxX && b.minY <= p.y <= b.maxY
  }

  /** The photo group's `dragBoundFunc`: clamp into the drag bounds, or pass through without them. */
  function GroupDragBound(bounds: Option<Bounds>, pos: Point): (r: Point)
    requires bounds.Some? ==> bounds.value.minX <= bounds.value.maxX && bounds.value.minY <= bounds.value.maxY
    ensures bounds.None? ==> r == pos
    ensures bounds.Some? ==> InBounds(bounds.value, r)
    ensures bounds.Some? && InBounds(bounds.value, pos) ==> r == pos
    ensures bounds.Some? && pos.x < bounds.value.minX ==> r.x == bounds.value.minX
    ensures bounds.Some? && bounds.value.maxX < pos.x ==> r.x == bounds.value.maxX
    ensures bounds.Some? && pos.y < bounds.value.minY ==> r.y == bounds.value.minY
    ensures bounds.Some? && bounds.value.maxY < pos.y ==> r.y == bounds.value.maxY
  {
    if bounds.None? then pos
    else Point(Clamp(pos.x, bounds.value.minX, bounds.value.maxX),
               Clamp(pos.y, bounds.value.minY, bounds.value.maxY))
  }

  /** Where the photo group is drawn: the layout position moved by the percentage offset. */
  function PhotoPosition(l: Layout, offset: Point, frameW: real, frameH: real): Point
  {
    Point(Place(l.x, offset.x, frameW), Place(l.y, offset.y, frameH))
  }

  /** A percentage of the frame placed at `base`: `base + (pct / 100) * frame`. */
  function Place(base: real, pct: real, frame: real): real
  {
    base + (pct / 100.0) * frame
  }

  /** A position measured from `base` in percent of the frame: `((pos - base) / frame) * 100`. */
  function Percent(base: real, pos: real, frame: real): real
    requires frame > 0.0
  {
    ((pos - base) / frame) * 100.0
  }

  /** With the auto-fit offset {0, 0} the photo is drawn at the layout position, so the frame is covered. */
  lemma AutoFitCoversFrame(l: Layout, frameW: real, frameH: real)
    requires LayoutCovers(l, frameW, frameH)
    ensures PhotoPosition(l, Point(0.0, 0.0), frameW, frameH) == Point(l.x, l.y)
    ensures l.x + l.contentOffsetX <= 0.0 && l.x + l.contentOffsetX + l.contentWidth >= frameW
    ensures l.y + l.contentOffsetY <= 0.0 && l.y + l.contentOffsetY + l.contentHeight >= frameH
  {
    RangeCoversFrame(l, frameW, frameH, l.x, l.y);
  }

  // --------------------------------------------------------- subject styles

  /** Which rendering passes the photo receives, and their strengths. */
  datatype Treatment = Treatment(
    outlineLayer: bool,     // first glow/outline copy under the photo
    neonCoolLayer: bool,    // second, cool-coloured neon glow
    fireLayers: bool,       // two warm fire glows
    filtered: bool,         // brighten / contrast / HSL filters on the photo itself
    outlineBlur: real,
    brightness: real, contrast: real, saturation: real)

  /** `outlineBlur`: a fraction of the card width (2.5% neon, 3% fire, else 1.5%), at least 6px. */
  function OutlineBlur(style: SubjectStyle, cardWidth: NonNeg): (blur: real)
    ensures blur >= 6.0
    ensures blur >= cardWidth * (match style case Neon => 0.025 case Fire => 0.03 case _ => 0.015)
    ensures blur == 6.0 || blur == cardWidth * (match style case Neon => 0.025 case Fire => 0.03 case _ => 0.015)
  {
    Max(6.0, cardWidth * (if style == Neon then 0.025 else if style == Fire then 0.03 else 0.015))
  }

  function PhotoTreatment(style: SubjectStyle, isCutout: bool, cardWidth: NonNeg): (t: Treatment)
    ensures t.outlineLayer <==> style != Classic && isCutout
    ensures t.neonCoolLayer <==> style == Neon
    ensures t.fireLayers <==> style == Fire
    ensures t.filtered <==> style != Classic
    ensures !t.filtered ==> t.brightness == 0.0 && t.contrast == 0.0 && t.saturation == 0.0
    ensures t.filtered ==> t.brightness > 0.0 && t.contrast > 0.0 && t.saturation > 0.0
    ensures t.outlineBlur >= 6.0
  {
    var stylized := style == Stylized;
    var neon := style == Neon;
    var fire := style == Fire;
    Treatment(
      (stylized || neon || fire) && isCutout, neon, fire, stylized || neon || fire,
      OutlineBlur(style, cardWidth),
      if neon then 0.12 else if fire then 0.1 else if stylized then 0.08 else 0.0,
      if neon then 20.0 else if fire then 18.0 else if stylized then 12.0 else 0.0,
      if neon then 0.28 else if fire then 0.2 else if stylized then 0.12 else 0.0)
  }

  // ---------------------------------------------------------- drag handlers

  /**
   * The photo-offset state the drag handlers share: `photoOffsetRef`, the
   * last pointer position of an overlay drag (`dragPointerRef`), and the
   * offsets reported to the builder through `onPhotoOffsetChange`.
   */
  class PhotoDrag {
    var offset: Point
    var pointer: Option<Point>
    var reported: seq<Point>

    constructor (initial: Point)
      ensures offset == initial && pointer.None? && reported == []
    {
      offset := initial;
      pointer := None;
      reported := [];
    }

    /** The effect that mirrors the `photoOffset` prop into the ref. */
    method SyncOffset(prop: Point)
      modifies this`offset
      ensures offset == prop
    {
      offset := prop;
    }

    /** Overlay `onDragStart`: remember the stage pointer (if the stage reports one). */
    method OverlayDragStart(at: Option<Point>)
      modifies this`pointer
      ensures pointer == at
    {
      pointer := at;
    }

    /** Overlay `onDragEnd`. */
    method OverlayDragEnd()
      modifies this`pointer
      ensures pointer.None?
    {
      pointer := None;
    }

    /**
     * Overlay `onDragMove`. The overlay exists only while the layout and the
     * drag bounds do, so both are given. The pointer delta is added to the
     * offset in percent of the frame; the resulting position is clamped into
     * the drag bounds and converted back before it is stored and reported.
     */
    method OverlayDragMove(current: Option<Point>, hasCallback: bool, l: Layout, b: Bounds,
                           frameW: real, frameH: real)
      requires frameW > 0.0 && frameH > 0.0 && b.minX <= b.maxX && b.minY <= b.maxY
      modifies this
      ensures !hasCallback || current.None? || old(pointer).None? ==> unchanged(this)
      ensures hasCallback && current.Some? && old(pointer).Some? ==>
        && pointer == current
        && InBounds(b, PhotoPosition(l, offset, frameW, frameH))
        && reported == old(reported) + [offset]
        && var dx := current.value.x - old(pointer).value.x;
           var dy := current.value.y - old(pointer).value.y;
           var want := Point(Shifted(old(offset).x, dx, frameW), Shifted(old(offset).y, dy, frameH));
           && (InBounds(b, PhotoPosition(l, want, frameW, frameH)) ==> offset == want)
           && PhotoPosition(l, offset, frameW, frameH) == GroupDragBound(Some(b), PhotoPosition(l, want, frameW, frameH))
    {
      if !hasCallback {
        return;
      }
      if current.None? || pointer.None? {
        return;
      }
      var deltaX := current.value.x - pointer.value.x;
      var deltaY := current.value.y - pointer.value.y;
      pointer := current;
      var next := DragOffset(l, b, offset, Point(deltaX, deltaY), frameW, frameH);
      offset := next;
      reported := reported + [next];
    }

    /**
     * Photo group `onDragMove` (after its animation frame) and `onDragEnd`:
     * the group node's position, read in the frame's own coordinates, is
     * stored and reported as a percentage offset from the layout position.
     */
    method GroupDragCommit(node: Point, isAutoFit: bool, isEditingPhoto: bool, hasCallback: bool,
                           l: Option<Layout>, b: Option<Bounds>, frameW: real, frameH: real)
      requires b.Some? ==> frameW > 0.0 && frameH > 0.0
      modifies this`offset, this`reported
      ensures isAutoFit || !isEditingPhoto || !hasCallback || l.None? || b.None? ==>
                offset == old(offset) && reported == old(reported)
      ensures !isAutoFit && isEditingPhoto && hasCallback && l.Some? && b.Some? ==>
                && PhotoPosition(l.value, offset, frameW, frameH) == node
                && reported == old(reported) + [offset]
    {
      if isAutoFit || !isEditingPhoto || !hasCallback {
        return;
      }
      if l.None? || b.None? {
        return;
      }
      var nextX := Percent(l.value.x, node.x, frameW);
      var nextY := Percent(l.value.y, node.y, frameH);
      OffsetRoundTrip(l.value.x, node.x, frameW);
      OffsetRoundTrip(l.value.y, node.y, frameH);
      offset := Point(nextX, nextY);
      reported := reported + [offset];
    }
  }

  /** An offset in percent of the frame moved by a pointer delta in pixels. */
  function Shifted(pct: real, delta: real, frame: real): real
    requires frame > 0.0
  {
    pct + (delta / frame) * 100.0
  }

  /**
   * The offset an overlay drag stores: the old offset moved by the pointer
   * delta, with the resulting photo position clamped into the drag bounds.
   */
  function DragOffset(l: Layout, b: Bounds, offset: Point, delta: Point, frameW: real, frameH: real): (r: Point)
    requires frameW > 0.0 && frameH > 0.0 && b.minX <= b.maxX && b.minY <= b.maxY
    ensures InBounds(b, PhotoPosition(l, r, frameW, frameH))
    ensures var want := Point(Shifted(offset.x, delta.x, frameW), Shifted(offset.y, delta.y, frameH));
            InBounds(b, PhotoPosition(l, want, frameW, frameH)) ==> r == want
    ensures var want := Point(Shifted(offset.x, delta.x, frameW), Shifted(offset.y, delta.y, frameH));
            PhotoPosition(l, r, frameW, frameH) == GroupDragBound(Some(b), PhotoPosition(l, want, frameW, frameH))
  {
    Point(ClampedAxis(l.x, Shifted(offset.x, delta.x, frameW), b.minX, b.maxX, frameW),
          ClampedAxis(l.y, Shifted(offset.y, delta.y, frameH), b.minY, b.maxY, frameH))
  }

  /**
   * One axis of the overlay drag: the offset `pct` placed at `base`, clamped
   * into [lo, hi] and measured back in percent.
   */
  function ClampedAxis(base: real, pct: real, lo: real, hi: real, frame: real): (r: real)
    requires frame > 0.0 && lo <= hi
    ensures lo <= Place(base, r, frame) <= hi
    ensures lo <= Place(base, pct, frame) <= hi ==> r == pct
    ensures Place(base, pct, frame) < lo ==> Place(base, r, frame) == lo
    ensures hi < Place(base, pct, frame) ==> Place(base, r, frame) == hi
  {
    var clamped := Clamp(Place(base, pct, frame), lo, hi);
    OffsetRoundTrip(base, clamped, frame);
    PercentRoundTripAt(base, pct, frame);
    Percent(base, clamped, frame)
  }

  /** Placing a percentage offset and measuring it back gives the same percentage. */
  lemma PercentRoundTripAt(base: real, pct: real, frame: real)
    requires frame > 0.0
    ensures Percent(base, Place(base, pct, frame), frame) == pct
  {
  }

  /** Measuring a position in percent and placing it back gives the same position. */
  lemma OffsetRoundTrip(base: real, pos: real, frame: real)
    requires frame > 0.0
    ensures Place(base, Percent(base, pos, frame), frame) == pos
  {
  }
}
