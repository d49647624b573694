// The builder's data model (lib/types.ts): field keys, text overlays, photo
// frames and templates, all in percent-of-card units.
module CardTypes {
  import opened Common

  datatype FrontFieldKey = Name | Team | Position | Number | StatsLine1 | StatsLine2 | Description
  datatype BackFieldKey = Bio | SeasonSummary | FooterNote

  /** A value per front field (`Record<FrontFieldKey, T>`). */
  datatype FrontRecord<T> = FrontRecord(name: T, team: T, position: T, number: T,
                                        statsLine1: T, statsLine2: T, description: T)
  {
    function Get(k: FrontFieldKey): T
    {
      match k
      case Name => name
      case Team => team
      case Position => position
      case Number => number
      case StatsLine1 => statsLine1
      case StatsLine2 => statsLine2
      case Description => description
    }

    /** `{ ...prev, [k]: v }` */
    function Set(k: FrontFieldKey, v: T): (r: FrontRecord<T>)
      ensures r.Get(k) == v
      ensures forall j :: j != k ==> r.Get(j) == Get(j)
    {
      match k
      case Name => this.(name := v)
      case Team => this.(team := v)
      case Position => this.(position := v)
      case Number => this.(number := v)
      case StatsLine1 => this.(statsLine1 := v)
      case StatsLine2 => this.(statsLine2 := v)
      case Description => this.(description := v)
    }
  }

  /** A value per back field (`Record<BackFieldKey, T>`). */
  datatype BackRecord<T> = BackRecord(bio: T, seasonSummary: T, footerNote: T)
  {
    function Get(k: BackFieldKey): T
    {
      match k
      case Bio => bio
      case SeasonSummary => seasonSummary
      case FooterNote => footerNote
    }

    function Set(k: BackFieldKey, v: T): (r: BackRecord<T>)
      ensures r.Get(k) == v
      ensures forall j :: j != k ==> r.Get(j) == Get(j)
    {
      match k
      case Bio => this.(bio := v)
      case SeasonSummary => this.(seasonSummary := v)
      case FooterNote => this.(footerNote := v)
    }
  }

  datatype Align = Left | Center | Right

  /** The two type families the cards use. */
  datatype Family = BebasNeue | Barlow

  /** Optional chip behind a text field; every length is a multiple of the font size. */
  datatype TextBackground = TextBackground(
    color: string,
    borderColor: Option<string>,
    borderWidth: Option<real>,
    radius: Option<real>,
    paddingX: Option<real>,
    paddingY: Option<real>,
    minGap: Option<real>)

  datatype TextOverlay = TextOverlay(
    x: real, y: real, maxWidth: real,
    fontSize: real, fontWeight: int,
    align: Align, color: string,
    background: Option<TextBackground>)

  datatype Point = Point(x: real, y: real)

  datatype PhotoFrame = PhotoFrame(x: real, y: real, w: real, h: real, radius: real)

  datatype FrontSide = FrontSide(background: string, photoFrame: PhotoFrame, text: FrontRecord<TextOverlay>)
  datatype BackSide = BackSide(background: string, photoFrame: Option<PhotoFrame>, text: BackRecord<TextOverlay>)

  datatype Template = Template(id: string, name: string, front: FrontSide, back: BackSide)

  /** The four subject treatments a user can pick. */
  datatype SubjectStyle = Classic | Stylized | Neon | Fire
  {
    function Name(): string
    {
      match this
      case Classic => "classic"
      case Stylized => "stylized"
      case Neon => "neon"
      case Fire => "fire"
    }
  }

  /** Sparse per-field position overrides (`Partial<Record<Key, Pick<TextOverlay, "x" | "y">>>`). */
  type FrontOverrides = map<FrontFieldKey, Point>
  type BackOverrides = map<BackFieldKey, Point>

  /**
   * `{ ...base, ...override }`: an override moves the overlay and leaves every
   * other attribute as the template declares it.
   */
  function WithOverride(base: TextOverlay, o: Option<Point>): (r: TextOverlay)
    ensures o.None? ==> r == base
    ensures o.Some? ==> r.x == o.value.x && r.y == o.value.y
    ensures r.maxWidth == base.maxWidth && r.fontSize == base.fontSize
    ensures r.fontWeight == base.fontWeight && r.align == base.align
    ensures r.color == base.color && r.background == base.background
  {
    match o
    case None => base
    case Some(p) => base.(x := p.x, y := p.y)
  }

  function Lookup<K, V>(m: map<K, V>, k: K): Option<V>
  {
    if k in m then Some(m[k]) else None
  }

  // ------------------------------------------------ shared card geometry

  /** Both previews size the stage as width by width * 7/5. */
  const CardRatio: real := 7.0 / 5.0

  function CardHeight(width: NonNeg): (h: real)
    ensures 5.0 * h == 7.0 * width
    ensures h >= width && (width > 0.0 ==> h > width)
  {
    width * CardRatio
  }

  /** `fontWeight >= 700 ? "bold" : "normal"` */
  predicate IsBold(fontWeight: int)
  {
    fontWeight >= 700
  }

  /** A percent-of-card coordinate in stage pixels. */
  function PercentToPx(p: real, extent: real): real
  {
    p / 100.0 * extent
  }

  /** A stage pixel coordinate as a percent of the card. */
  function PxToPercent(px: real, extent: real): (p: real)
    requires extent != 0.0
    ensures PercentToPx(p, extent) == px
  {
    px / extent * 100.0
  }

  /** Storing a rendered position and rendering it again gives back the stored percentage. */
  lemma PercentRoundTrip(p: real, extent: real)
    requires extent != 0.0
    ensures PxToPercent(PercentToPx(p, extent), extent) == p
  {
  }

  /**
   * A text group's `dragBoundFunc` on either side: keep the box's origin in
   * [0, max(0, W - boxWidth)] by [0, max(0, H - boxHeight)].
   */
  function TextDragBound(cardW: real, cardH: real, boxW: real, boxH: real, pos: Point): (r: Point)
    ensures 0.0 <= r.x <= Max(0.0, cardW - boxW) && 0.0 <= r.y <= Max(0.0, cardH - boxH)
    ensures boxW <= cardW ==> r.x + boxW <= cardW
    ensures boxH <= cardH ==> r.y + boxH <= cardH
    ensures 0.0 <= pos.x <= cardW - boxW ==> r.x == pos.x
    ensures 0.0 <= pos.y <= cardH - boxH ==> r.y == pos.y
    ensures pos.x < 0.0 ==> r.x == 0.0
    ensures pos.y < 0.0 ==> r.y == 0.0
    ensures Max(0.0, cardW - boxW) < pos.x ==> r.x == Max(0.0, cardW - boxW)
    ensures Max(0.0, cardH - boxH) < pos.y ==> r.y == Max(0.0, cardH - boxH)
  {
    var maxX := Max(0.0, cardW - boxW);
    var maxY := Max(0.0, cardH - boxH);
    Point(Min(maxX, Max(0.0, pos.x)), Min(maxY, Max(0.0, pos.y)))
  }

  /** Clamping a clamped position again changes nothing. */
  lemma TextDragBoundIdempotent(cardW: real, cardH: real, boxW: real, boxH: real, pos: Point)
    ensures var r := TextDragBound(cardW, cardH, boxW, boxH, pos);
            TextDragBound(cardW, cardH, boxW, boxH, r) == r
  {
  }

  /**
   * A text group's `onDragEnd` on either side: the position reported to the
   * builder, in percent of the card, or nothing when layout editing is off or
   * no listener is attached. The stage exists only at a positive width, so
   * both extents are positive.
   */
  function TextDragEnd(isEditingLayout: bool, hasCallback: bool, node: Point,
                       cardW: real, cardH: real): (r: Option<Point>)
    requires cardW > 0.0 && cardH > 0.0
    ensures r.Some? <==> isEditingLayout && hasCallback
    ensures r.Some? ==> PercentToPx(r.value.x, cardW) == node.x && PercentToPx(r.value.y, cardH) == node.y
  {
    if !isEditingLayout || !hasCallback then None
    else Some(Point(PxToPercent(node.x, cardW), PxToPercent(node.y, cardH)))
  }
}
