// The back of the card (components/Builder/CardBackPreview.tsx): the
// generated art placed to cover the optional photo frame, and the text boxes
// of the back fields.
module BackPreview {
  import opened Common
  import opened CardTypes
  import PhotoLayout

  /** The frame in stage pixels; every dimension is 0 when the template has no back frame. */
  datatype Rect = Rect(x: real, y: real, w: real, h: real)

  function FrameRect(frame: Option<PhotoFrame>, cardW: real, cardH: real): (r: Rect)
    ensures frame.None? ==> r == Rect(0.0, 0.0, 0.0, 0.0)
    ensures frame.Some? ==>
      && r.x == PercentToPx(frame.value.x, cardW) && r.y == PercentToPx(frame.value.y, cardH)
      && r.w == PercentToPx(frame.value.w, cardW) && r.h == PercentToPx(frame.value.h, cardH)
  {
    if frame.None? then Rect(0.0, 0.0, 0.0, 0.0)
    else Rect(PercentToPx(frame.value.x, cardW), PercentToPx(frame.value.y, cardH),
              PercentToPx(frame.value.w, cardW), PercentToPx(frame.value.h, cardH))
  }

  /** `aiLayout`: where the art is drawn, relative to the frame. */
  datatype Art = Art(x: real, y: real, width: real, height: real)

  /**
   * Scale the art to cover the frame and centre it; nothing without an
   * image, with a zero frame dimension or with a zero image dimension.
   */
  function ArtLayout(image: Option<(nat, nat)>, frameW: NonNeg, frameH: NonNeg): (r: Option<Art>)
    ensures r.None? <==> image.None? || frameW == 0.0 || frameH == 0.0 || image.value.0 == 0 || image.value.1 == 0
    ensures r.Some? ==> var a := r.value;
      && a.width >= frameW && a.height >= frameH
      && (a.width == frameW || a.height == frameH)
      && a.x <= 0.0 && a.x + a.width >= frameW && a.y <= 0.0 && a.y + a.height >= frameH
      && a.x == -(a.x + a.width - frameW) && a.y == -(a.y + a.height - frameH)
    ensures r.Some? ==> var (iw, ih) := image.value; var s := PhotoLayout.CoverScale(frameW, frameH, iw as real, ih as real);
      r.value.width == iw as real * s && r.value.height == ih as real * s
  {
    if image.None? || frameW == 0.0 || frameH == 0.0 then None
    else
      var (imageWidth, imageHeight) := image.value;
      if imageWidth == 0 || imageHeight == 0 then None
      else
        var scale := PhotoLayout.CoverScale(frameW, frameH, imageWidth as real, imageHeight as real);
        var width := imageWidth as real * scale;
        var height := imageHeight as real * scale;
        Some(Art((frameW - width) / 2.0, (frameH - height) / 2.0, width, height))
  }

  /** The art is the image scaled uniformly: its sides keep the image's aspect ratio. */
  lemma ArtKeepsAspect(image: Option<(nat, nat)>, frameW: NonNeg, frameH: NonNeg)
    requires ArtLayout(image, frameW, frameH).Some?
    ensures var a := ArtLayout(image, frameW, frameH).value; var (iw, ih) := image.value;
            a.width * ih as real == a.height * iw as real
  {
    var (iw, ih) := image.value;
    var s := PhotoLayout.CoverScale(frameW, frameH, iw as real, ih as real);
    ProductSwap(iw as real, ih as real, s);
  }

  lemma ProductSwap(a: real, b: real, s: real)
    ensures (a * s) * b == (b * s) * a
  {
  }

  /** What the frame group shows. */
  datatype PhotoPass = NoFrame | Placeholder(w: real, h: real) | Artwork(art: Art)

  function BackPhoto(frame: Option<PhotoFrame>, image: Option<(nat, nat)>, cardW: NonNeg, cardH: NonNeg): (p: PhotoPass)
    requires frame.Some? ==> frame.value.w >= 0.0 && frame.value.h >= 0.0
    ensures frame.None? <==> p.NoFrame?
    ensures p.Artwork? <==> frame.Some? && ArtLayout(image, FrameRect(frame, cardW, cardH).w,
                                                     FrameRect(frame, cardW, cardH).h).Some?
    ensures p.Artwork? ==> p.art == ArtLayout(image, FrameRect(frame, cardW, cardH).w, FrameRect(frame, cardW, cardH).h).value
    ensures p.Placeholder? ==> p.w == FrameRect(frame, cardW, cardH).w && p.h == FrameRect(frame, cardW, cardH).h
  {
    if frame.None? then NoFrame
    else
      var rect := FrameRect(frame, cardW, cardH);
      var layout := ArtLayout(image, rect.w, rect.h);
      if image.Some? && layout.Some? then Artwork(layout.value) else Placeholder(rect.w, rect.h)
  }

  // ------------------------------------------------------------- text boxes

  datatype BackFieldRender = BackFieldRender(
    key: BackFieldKey, x: real, y: real, width: real, textHeight: real,
    fontSize: real, lineHeight: real, bold: bool, family: Family,
    text: string, color: string, align: Align)

  function BackLineHeight(key: BackFieldKey): real
  {
    if key == Bio then 1.35 else 1.2
  }

  /** One back field: nothing when blank, else a box sized from its overlay. */
  function LayoutBackField(key: BackFieldKey, value: string, base: BackRecord<TextOverlay>,
                           overrides: BackOverrides, cardW: real, cardH: real): (r: Option<BackFieldRender>)
    ensures r.None? <==> IsBlank(value)
    ensures r.Some? ==> var o := WithOverride(base.Get(key), Lookup(overrides, key)); var f := r.value;
      && f.key == key && f.text == value
      && f.x == PercentToPx(o.x, cardW) && f.y == PercentToPx(o.y, cardH)
      && f.width == PercentToPx(o.maxWidth, cardW)
      && f.fontSize == PercentToPx(o.fontSize, cardW)
      && f.textHeight == f.fontSize * f.lineHeight
      && (f.lineHeight == 1.35 <==> key == Bio) && (key != Bio ==> f.lineHeight == 1.2)
      && (f.bold <==> o.fontWeight >= 700)
      && (f.family == BebasNeue <==> key == FooterNote)
      && f.color == o.color && f.align == o.align
  {
    if IsBlank(value) then None
    else
      var overlay := WithOverride(base.Get(key), Lookup(overrides, key));
      var fontSize := PercentToPx(overlay.fontSize, cardW);
      var lineHeight := BackLineHeight(key);
      Some(BackFieldRender(
        key, PercentToPx(overlay.x, cardW), PercentToPx(overlay.y, cardH),
        PercentToPx(overlay.maxWidth, cardW), fontSize * lineHeight, fontSize, lineHeight,
        IsBold(overlay.fontWeight), if key == FooterNote then BebasNeue else Barlow,
        value, overlay.color, overlay.align))
  }

  /** `backFieldOrder.map(...)`: one entry per listed key, null (None) for a blank field. */
  function BackBoxes(order: seq<BackFieldKey>, fields: BackRecord<string>, base: BackRecord<TextOverlay>,
                     overrides: BackOverrides, cardW: real, cardH: real): (b: seq<Option<BackFieldRender>>)
    ensures |b| == |order|
  {
    seq(|order|, i requires 0 <= i < |order| => LayoutBackField(order[i], fields.Get(order[i]), base, overrides, cardW, cardH))
  }

  /** The children React draws from a list: the non-null entries, in order. */
  function Drawn<T>(s: seq<Option<T>>): (r: seq<T>)
    ensures |r| <= |s|
    ensures forall i :: 0 <= i < |r| ==> Some(r[i]) in s
    ensures forall j :: 0 <= j < |s| && s[j].Some? ==> s[j].value in r
    decreases |s|
  {
    if |s| == 0 then []
    else
      var rest := Drawn(s[1..]);
      var r := (if s[0].Some? then [s[0].value] else []) + rest;
      assert forall i :: 0 <= i < |rest| ==> r[|r| - |rest| + i] == rest[i];
      assert forall j :: 1 <= j < |s| ==> s[j] == s[1..][j - 1];
      r
  }

  /** Entries whose keys differ pairwise stay so once the nulls are dropped. */
  lemma {:induction false} DrawnKeysDistinct<T, K>(s: seq<Option<T>>, key: T -> K)
    requires forall i, j :: 0 <= i < j < |s| && s[i].Some? && s[j].Some? ==> key(s[i].value) != key(s[j].value)
    ensures forall i, j :: 0 <= i < j < |Drawn(s)| ==> key(Drawn(s)[i]) != key(Drawn(s)[j])
    decreases |s|
  {
    if |s| > 0 {
      var r := Drawn(s);
      var rest := Drawn(s[1..]);
      assert r == (if s[0].Some? then [s[0].value] else []) + rest;
      assert forall i, j :: 0 <= i < j < |s| - 1 ==> s[1..][i] == s[i + 1] && s[1..][j] == s[j + 1];
      DrawnKeysDistinct(s[1..], key);
      if s[0].Some? {
        assert r == [s[0].value] + rest;
        forall i, j | 0 <= i < j < |r| ensures key(r[i]) != key(r[j]) {
          if i == 0 {
            assert r[j] == rest[j - 1];
            assert Some(rest[j - 1]) in s[1..];
            var k :| 0 <= k < |s| - 1 && s[1..][k] == Some(rest[j - 1]);
            assert s[k + 1] == Some(r[j]) && s[0] == Some(r[0]);
          } else {
            assert r[i] == rest[i - 1] && r[j] == rest[j - 1];
          }
        }
      } else {
        assert r == rest;
      }
    }
  }

  /**
   * The back text layer: the boxes of `order` with the blank fields
   * dropped. Each box drawn is the one its own field lays out, and every
   * listed non-blank field is drawn.
   */
  function LayoutBack(order: seq<BackFieldKey>, fields: BackRecord<string>, base: BackRecord<TextOverlay>,
                      overrides: BackOverrides, cardW: real, cardH: real): (r: seq<BackFieldRender>)
    ensures |r| <= |order|
    ensures forall i :: 0 <= i < |r| ==> r[i].key in order && !IsBlank(fields.Get(r[i].key))
    ensures forall i :: 0 <= i < |r| ==>
              LayoutBackField(r[i].key, fields.Get(r[i].key), base, overrides, cardW, cardH) == Some(r[i])
    ensures forall k :: k in order && !IsBlank(fields.Get(k)) ==>
              LayoutBackField(k, fields.Get(k), base, overrides, cardW, cardH).value in r
  {
    var boxes := BackBoxes(order, fields, base, overrides, cardW, cardH);
    var r := Drawn(boxes);
    forall i | 0 <= i < |r|
      ensures r[i].key in order && !IsBlank(fields.Get(r[i].key))
      ensures LayoutBackField(r[i].key, fields.Get(r[i].key), base, overrides, cardW, cardH) == Some(r[i])
    {
      var j :| 0 <= j < |boxes| && boxes[j] == Some(r[i]);
      assert boxes[j] == LayoutBackField(order[j], fields.Get(order[j]), base, overrides, cardW, cardH);
    }
    forall k | k in order && !IsBlank(fields.Get(k))
      ensures LayoutBackField(k, fields.Get(k), base, overrides, cardW, cardH).value in r
    {
      var j :| 0 <= j < |order| && order[j] == k;
      assert boxes[j] == LayoutBackField(k, fields.Get(k), base, overrides, cardW, cardH);
    }
    r
  }

  /** With each key listed once, each back field is drawn at most once. */
  lemma LayoutBackKeysDistinct(order: seq<BackFieldKey>, fields: BackRecord<string>,
                               base: BackRecord<TextOverlay>, overrides: BackOverrides, cardW: real, cardH: real)
    requires Distinct(order)
    ensures var r := LayoutBack(order, fields, base, overrides, cardW, cardH);
            forall i, j :: 0 <= i < j < |r| ==> r[i].key != r[j].key
  {
    var boxes := BackBoxes(order, fields, base, overrides, cardW, cardH);
    var key := (b: BackFieldRender) => b.key;
    forall i, j | 0 <= i < j < |boxes| && boxes[i].Some? && boxes[j].Some?
      ensures key(boxes[i].value) != key(boxes[j].value)
    {
      assert boxes[i] == LayoutBackField(order[i], fields.Get(order[i]), base, overrides, cardW, cardH);
      assert boxes[j] == LayoutBackField(order[j], fields.Get(order[j]), base, overrides, cardW, cardH);
    }
    DrawnKeysDistinct(boxes, key);
    assert LayoutBack(order, fields, base, overrides, cardW, cardH) == Drawn(boxes);
  }
}
