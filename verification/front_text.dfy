// Front text layout (components/Builder/CardPreview.tsx): per-field metrics,
// the background-chip placement driven by the running `lastTextBottom`
// cursor, and the loop that lays the fields out in `frontFieldOrder`.
module FrontText {
  import opened Common
  import opened CardTypes
  import Templates

  /** What the text engine reports for a field laid out at its maximum width. */
  datatype Measured = Measured(textWidth: real, height: real)

  /** One `textMetrics` entry. */
  datatype Metrics = Metrics(width: real, height: real, fontSize: real, lineHeight: real,
                             text: string, family: Family, bold: bool)

  function LineHeight(key: FrontFieldKey): real
  {
    if key == Description then 1.25 else 1.05
  }

  function FamilyOf(key: FrontFieldKey): Family
  {
    if key == Name || key == Number || key == Position then BebasNeue else Barlow
  }

  /** The position field is shown upper-cased. */
  function DisplayValue(key: FrontFieldKey, value: string): (r: string)
    ensures |r| == |value|
    ensures key != Position ==> r == value
    ensures key == Position ==> r == ToUpperAscii(value)
  {
    if key == Position then ToUpperAscii(value) else value
  }

  /** The overlay a field is drawn with: the template's, moved by the field's override. */
  function EffectiveOverlay(base: FrontRecord<TextOverlay>, overrides: FrontOverrides, key: FrontFieldKey): TextOverlay
  {
    WithOverride(base.Get(key), Lookup(overrides, key))
  }

  /** The metrics of one non-blank field, from the measurement of its text. */
  function FieldMetrics(key: FrontFieldKey, value: string, overlay: TextOverlay, measured: Measured,
                        cardWidth: real): (m: Metrics)
    ensures m.width <= PercentToPx(overlay.maxWidth, cardWidth) && m.width <= measured.textWidth
    ensures m.width == measured.textWidth || m.width == PercentToPx(overlay.maxWidth, cardWidth)
    ensures m.height == measured.height
    ensures m.fontSize == PercentToPx(overlay.fontSize, cardWidth)
    ensures m.bold <==> overlay.fontWeight >= 700
    ensures m.text == DisplayValue(key, value)
  {
    var maxWidth := PercentToPx(overlay.maxWidth, cardWidth);
    Metrics(Min(measured.textWidth, maxWidth), measured.height, PercentToPx(overlay.fontSize, cardWidth),
            LineHeight(key), DisplayValue(key, value), FamilyOf(key), IsBold(overlay.fontWeight))
  }

  /**
   * `textMetrics`: nothing on an empty stage; otherwise an entry for every
   * non-blank field, measured with its effective overlay.
   */
  method MeasureFields(fields: FrontRecord<string>, base: FrontRecord<TextOverlay>, overrides: FrontOverrides,
                       measured: FrontRecord<Measured>, cardWidth: real, cardHeight: real)
    returns (metrics: map<FrontFieldKey, Metrics>)
    ensures cardWidth == 0.0 || cardHeight == 0.0 ==> metrics == map[]
    ensures cardWidth != 0.0 && cardHeight != 0.0 ==>
              forall k :: k in metrics <==> !IsBlank(fields.Get(k))
    ensures forall k :: k in metrics ==>
              metrics[k] == FieldMetrics(k, fields.Get(k), EffectiveOverlay(base, overrides, k),
                                         measured.Get(k), cardWidth)
  {
    metrics := map[];
    if cardWidth == 0.0 || cardHeight == 0.0 {
      return;
    }
    var order := Templates.FrontFieldOrder();
    for i := 0 to |order|
      invariant forall k :: k in metrics <==> k in order[..i] && !IsBlank(fields.Get(k))
      invariant forall k :: k in metrics ==>
                  metrics[k] == FieldMetrics(k, fields.Get(k), EffectiveOverlay(base, overrides, k),
                                             measured.Get(k), cardWidth)
    {
      var key := order[i];
      var value := fields.Get(key);
      if IsBlank(value) {
        continue;
      }
      var overlay := EffectiveOverlay(base, overrides, key);
      metrics := metrics[key := FieldMetrics(key, value, overlay, measured.Get(key), cardWidth)];
    }
    assert order[..|order|] == order;
  }

  // ------------------------------------------------------------------ chips

  /** A background chip, relative to the field's group origin. */
  datatype Chip = Chip(x: real, y: real, width: real, height: real, borderWidth: real, radius: real)

  /** The chip's vertical padding in pixels (`paddingY ?? 0.2` font sizes). */
  function PadY(bg: TextBackground, fontSize: real): real { OrDefault(bg.paddingY, 0.2) * fontSize }
  function PadX(bg: TextBackground, fontSize: real): real { OrDefault(bg.paddingX, 0.4) * fontSize }
  function MinGap(bg: TextBackground, fontSize: real): real { OrDefault(bg.minGap, 0.0) * fontSize }

  /**
   * Chip placement for a field at `overlayY` when the text above ends at
   * `lastBottom`: the chip takes its full top padding when there is room
   * for it below `lastBottom + minGap`, otherwise only what room is left.
   * Returns the chip and the new cursor, the chip's bottom edge.
   */
  function PlaceChip(bg: TextBackground, align: Align, overlayY: real, overlayWidth: real,
                     textWidth: real, textHeight: real, fontSize: real, lastBottom: real): (r: (Chip, real))
    ensures var (chip, next) := r;
      && overlayY + chip.y >= Min(overlayY, lastBottom + MinGap(bg, fontSize))
      && -chip.y <= PadY(bg, fontSize)
      && (PadY(bg, fontSize) >= 0.0 ==> chip.y <= 0.0)
      && (overlayY - lastBottom - MinGap(bg, fontSize) >= PadY(bg, fontSize) ==> -chip.y == PadY(bg, fontSize))
      && (0.0 <= overlayY - lastBottom - MinGap(bg, fontSize) <= PadY(bg, fontSize) ==>
            overlayY + chip.y == lastBottom + MinGap(bg, fontSize))
      && next == overlayY + chip.y + chip.height
      && next == overlayY + textHeight + PadY(bg, fontSize)
    ensures var chip := r.0;
      && 0.0 <= chip.x && chip.x + chip.width <= overlayWidth
      && chip.width <= overlayWidth
      && (textWidth + 2.0 * PadX(bg, fontSize) <= overlayWidth ==> chip.width == textWidth + 2.0 * PadX(bg, fontSize))
      && (textWidth + 2.0 * PadX(bg, fontSize) > overlayWidth ==> chip.width == overlayWidth)
      && (align == Left ==> chip.x == 0.0)
      && (align == Center ==> chip.x - 0.0 == overlayWidth - (chip.x + chip.width))
      && (align == Right ==> chip.x + chip.width == overlayWidth)
  {
    var paddingX := PadX(bg, fontSize);
    var paddingY := PadY(bg, fontSize);
    var minGap := MinGap(bg, fontSize);
    var rectWidth := Min(textWidth + paddingX * 2.0, overlayWidth);
    var availableTop := Max(0.0, overlayY - lastBottom - minGap);
    var topPadding := Min(paddingY, availableTop);
    var rectHeight := textHeight + paddingY + topPadding;
    var alignOffset :=
      match align
      case Center => (overlayWidth - rectWidth) / 2.0
      case Right => overlayWidth - rectWidth
      case Left => 0.0;
    (Chip(alignOffset, -topPadding, rectWidth, rectHeight,
          OrDefault(bg.borderWidth, 0.0) * fontSize, OrDefault(bg.radius, 0.0) * fontSize),
     overlayY - topPadding + rectHeight)
  }

  /** With a non-negative gap, a chip below the cursor never reaches above it. */
  lemma ChipStaysBelowCursor(bg: TextBackground, align: Align, overlayY: real, overlayWidth: real,
                             textWidth: real, textHeight: real, fontSize: real, lastBottom: real)
    requires MinGap(bg, fontSize) >= 0.0 && overlayY >= lastBottom
    ensures overlayY + PlaceChip(bg, align, overlayY, overlayWidth, textWidth, textHeight, fontSize, lastBottom).0.y
              >= lastBottom
  {
    var (chip, _) := PlaceChip(bg, align, overlayY, overlayWidth, textWidth, textHeight, fontSize, lastBottom);
    assert overlayY + chip.y >= Min(overlayY, lastBottom + MinGap(bg, fontSize));
  }

  // ------------------------------------------------------------ field loop

  /** Everything a front field is drawn with. */
  datatype FieldRender = FieldRender(
    key: FrontFieldKey, x: real, y: real, width: real, textHeight: real,
    fontSize: real, lineHeight: real, text: string, family: Family, bold: bool,
    letterSpacing: real, color: string, align: Align, chip: Option<Chip>)

  /** The inputs the field loop reads. */
  datatype FrontInputs = FrontInputs(
    fields: FrontRecord<string>, base: FrontRecord<TextOverlay>, overrides: FrontOverrides,
    metrics: map<FrontFieldKey, Metrics>, cardWidth: real, cardHeight: real)

  /**
   * One iteration of the field loop: a blank field draws nothing and keeps
   * the cursor; otherwise the field is drawn at its overlay position, with a
   * chip when its overlay declares a background. Each metric falls back to
   * the overlay when `textMetrics` has no entry for the field.
   */
  function LayoutField(key: FrontFieldKey, inp: FrontInputs, lastBottom: real): (r: (Option<FieldRender>, real))
    ensures IsBlank(inp.fields.Get(key)) ==> r == (None, lastBottom)
    ensures !IsBlank(inp.fields.Get(key)) ==> r.0.Some? && r.0.value.key == key
    ensures r.0.Some? ==> var o := EffectiveOverlay(inp.base, inp.overrides, key);
      && r.0.value.x == PercentToPx(o.x, inp.cardWidth) && r.0.value.y == PercentToPx(o.y, inp.cardHeight)
      && r.0.value.width == PercentToPx(o.maxWidth, inp.cardWidth)
      && (r.0.value.chip.Some? <==> o.background.Some?)
      && (o.background.None? ==> r.1 == Max(lastBottom, r.0.value.y + r.0.value.textHeight))
    ensures r.0.Some? ==> var o := EffectiveOverlay(inp.base, inp.overrides, key); var f := r.0.value;
      var m := Lookup(inp.metrics, key);
      && f.fontSize == (if m.Some? then m.value.fontSize else PercentToPx(o.fontSize, inp.cardWidth))
      && f.lineHeight == (if m.Some? then m.value.lineHeight else LineHeight(key))
      && f.textHeight == (if m.Some? then m.value.height else f.fontSize * f.lineHeight)
      && f.text == (if m.Some? then m.value.text else DisplayValue(key, inp.fields.Get(key)))
      && (o.background.Some? ==>
            (f.chip.value, r.1) == PlaceChip(o.background.value, o.align, f.y, f.width,
                                             if m.Some? then m.value.width else f.width,
                                             f.textHeight, f.fontSize, lastBottom))
  {
    var value := inp.fields.Get(key);
    if IsBlank(value) then (None, lastBottom)
    else
      var overlay := EffectiveOverlay(inp.base, inp.overrides, key);
      var m := Lookup(inp.metrics, key);
      var fontSize := if m.Some? then m.value.fontSize else PercentToPx(overlay.fontSize, inp.cardWidth);
      var overlayX := PercentToPx(overlay.x, inp.cardWidth);
      var overlayY := PercentToPx(overlay.y, inp.cardHeight);
      var overlayWidth := PercentToPx(overlay.maxWidth, inp.cardWidth);
      var text := if m.Some? then m.value.text else DisplayValue(key, value);
      var bold := if m.Some? then m.value.bold else IsBold(overlay.fontWeight);
      var family := if m.Some? then m.value.family else FamilyOf(key);
      var lineHeight := if m.Some? then m.value.lineHeight else LineHeight(key);
      var textHeight := if m.Some? then m.value.height else fontSize * lineHeight;
      var textWidth := if m.Some? then m.value.width else overlayWidth;
      var letterSpacing := fontSize * (if key == Number then 0.08 else 0.02);
      var (chip, next) :=
        if overlay.background.Some? then
          var (c, n) := PlaceChip(overlay.background.value, overlay.align, overlayY, overlayWidth,
                                  textWidth, textHeight, fontSize, lastBottom);
          (Some(c), n)
        else (None, Max(lastBottom, overlayY + textHeight));
      (Some(FieldRender(key, overlayX, overlayY, overlayWidth, textHeight, fontSize, lineHeight, text,
                        family, bold, letterSpacing, overlay.color, overlay.align, chip)),
       next)
  }

  /** The field loop over `keys`, starting from cursor `lastBottom`. */
  function LayoutFrom(keys: seq<FrontFieldKey>, inp: FrontInputs, lastBottom: real): seq<FieldRender>
    decreases |keys|
  {
    if |keys| == 0 then []
    else
      var step := LayoutField(keys[0], inp, lastBottom);
      Piece(step.0) + LayoutFrom(keys[1..], inp, step.1)
  }

  function Piece(r: Option<FieldRender>): seq<FieldRender>
  {
    if r.Some? then [r.value] else []
  }

  function KeysOf(rs: seq<FieldRender>): seq<FrontFieldKey>
  {
    if |rs| == 0 then [] else [rs[0].key] + KeysOf(rs[1..])
  }

  /** The keys of `keys` whose value is not blank, in order. */
  function NonBlank(keys: seq<FrontFieldKey>, fields: FrontRecord<string>): seq<FrontFieldKey>
  {
    if |keys| == 0 then []
    else (if IsBlank(fields.Get(keys[0])) then [] else [keys[0]]) + NonBlank(keys[1..], fields)
  }

  /** The loop draws exactly the non-blank fields, in field order, whatever the cursor. */
  lemma {:induction false} LayoutDrawsNonBlank(keys: seq<FrontFieldKey>, inp: FrontInputs, lastBottom: real)
    ensures KeysOf(LayoutFrom(keys, inp, lastBottom)) == NonBlank(keys, inp.fields)
    decreases |keys|
  {
    if |keys| > 0 {
      var step := LayoutField(keys[0], inp, lastBottom);
      LayoutDrawsNonBlank(keys[1..], inp, step.1);
      KeysOfAppend(Piece(step.0), LayoutFrom(keys[1..], inp, step.1));
    }
  }

  lemma {:induction false} KeysOfAppend(a: seq<FieldRender>, b: seq<FieldRender>)
    ensures KeysOf(a + b) == KeysOf(a) + KeysOf(b)
    decreases |a|
  {
    if |a| == 0 {
      assert a + b == b;
    } else {
      assert (a + b)[0] == a[0];
      assert (a + b)[1..] == a[1..] + b;
      KeysOfAppend(a[1..], b);
    }
  }

  /** Unfolds the loop specification by one field. */
  lemma LayoutFromStep(order: seq<FrontFieldKey>, i: nat, inp: FrontInputs, lastBottom: real)
    requires i < |order|
    ensures var step := LayoutField(order[i], inp, lastBottom);
            LayoutFrom(order[i..], inp, lastBottom)
              == Piece(step.0) + LayoutFrom(order[i + 1..], inp, step.1)
  {
    assert order[i..][0] == order[i];
    assert order[i..][1..] == order[i + 1..];
  }

  /**
   * The text layer of the front: `lastTextBottom` starts at 0 and each field
   * of `order` (the card passes `frontFieldOrder`) may draw itself and move
   * the cursor.
   */
  method LayoutFront(order: seq<FrontFieldKey>, inp: FrontInputs) returns (drawn: seq<FieldRender>)
    ensures drawn == LayoutFrom(order, inp, 0.0)
    ensures KeysOf(drawn) == NonBlank(order, inp.fields)
  {
    var lastTextBottom := 0.0;
    drawn := [];
    for i := 0 to |order|
      invariant drawn + LayoutFrom(order[i..], inp, lastTextBottom) == LayoutFrom(order, inp, 0.0)
    {
      var step := LayoutField(order[i], inp, lastTextBottom);
      LayoutFromStep(order, i, inp, lastTextBottom);
      assert drawn + LayoutFrom(order[i..], inp, lastTextBottom)
          == (drawn + Piece(step.0)) + LayoutFrom(order[i + 1..], inp, step.1);
      drawn := drawn + Piece(step.0);
      lastTextBottom := step.1;
    }
    assert order[|order|..] == [];
    LayoutDrawsNonBlank(order, inp, 0.0);
  }

  /** Every front field key is drawn at most once, and exactly when its value is not blank. */
  lemma {:induction false} FrontDrawsEachFilledFieldOnce(fields: FrontRecord<string>)
    ensures var ks := NonBlank(Templates.FrontFieldOrder(), fields);
            (forall k :: k in ks <==> !IsBlank(fields.Get(k)))
            && Distinct(ks)
  {
    var order := Templates.FrontFieldOrder();
    NonBlankMembers(order, fields);
    NonBlankDistinct(order, fields);
  }

  lemma {:induction false} NonBlankMembers(keys: seq<FrontFieldKey>, fields: FrontRecord<string>)
    ensures forall k :: k in NonBlank(keys, fields) <==> k in keys && !IsBlank(fields.Get(k))
    decreases |keys|
  {
    if |keys| > 0 {
      NonBlankMembers(keys[1..], fields);
      assert forall k :: k in keys <==> k == keys[0] || k in keys[1..];
    }
  }

  lemma {:induction false} NonBlankDistinct(keys: seq<FrontFieldKey>, fields: FrontRecord<string>)
    requires Distinct(keys)
    ensures Distinct(NonBlank(keys, fields))
    decreases |keys|
  {
    if |keys| > 0 {
      NonBlankDistinct(keys[1..], fields);
      NonBlankMembers(keys[1..], fields);
      assert keys[0] !in keys[1..] by {
        forall j | 0 <= j < |keys[1..]| ensures keys[1..][j] != keys[0] {
          assert keys[1..][j] == keys[j + 1];
        }
      }
      var rest := NonBlank(keys[1..], fields);
      if !IsBlank(fields.Get(keys[0])) {
        var ks := NonBlank(keys, fields);
        assert ks == [keys[0]] + rest;
        forall i, j | 0 <= i < j < |ks| ensures ks[i] != ks[j] {
          if i == 0 {
            assert ks[j] == rest[j - 1] && rest[j - 1] in rest;
          } else {
            assert ks[i] == rest[i - 1] && ks[j] == rest[j - 1];
          }
        }
      } else {
        assert NonBlank(keys, fields) == [] + rest == rest;
      }
    }
  }
}
