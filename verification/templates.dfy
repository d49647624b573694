// The shipped template catalogue and the field orders that drive text layout
// (lib/templates.ts).
module Templates {
  import opened Common
  import opened CardTypes

  /** Order in which the front fields are laid out (and therefore stacked). */
  function FrontFieldOrder(): (r: seq<FrontFieldKey>)
    ensures |r| == 7
    ensures forall k: FrontFieldKey :: k in r
    ensures Distinct(r)
  {
    var r := [Position, Number, Name, Team, StatsLine1, StatsLine2, Description];
    EveryFrontKeyListed(r);
    r
  }

  lemma EveryFrontKeyListed(r: seq<FrontFieldKey>)
    requires r == [Position, Number, Name, Team, StatsLine1, StatsLine2, Description]
    ensures forall k: FrontFieldKey :: k in r
  {
    forall k: FrontFieldKey ensures k in r {
      match k
      case Position => assert r[0] == k;
      case Number => assert r[1] == k;
      case Name => assert r[2] == k;
      case Team => assert r[3] == k;
      case StatsLine1 => assert r[4] == k;
      case StatsLine2 => assert r[5] == k;
      case Description => assert r[6] == k;
    }
  }

  function BackFieldOrder(): (r: seq<BackFieldKey>)
    ensures |r| == 3
    ensures forall k: BackFieldKey :: k in r
    ensures Distinct(r)
  {
    var r := [Bio, SeasonSummary, FooterNote];
    EveryBackKeyListed(r);
    r
  }

  lemma EveryBackKeyListed(r: seq<BackFieldKey>)
    requires r == [Bio, SeasonSummary, FooterNote]
    ensures forall k: BackFieldKey :: k in r
  {
    forall k: BackFieldKey ensures k in r {
      match k
      case Bio => assert r[0] == k;
      case SeasonSummary => assert r[1] == k;
      case FooterNote => assert r[2] == k;
    }
  }

  const BrandRed := "#E63946"
  const BrandWhite := "#F8FCFB"
  const SlateGray := "#B9C6C0"

  function Overlay(x: real, y: real, maxWidth: real, fontSize: real, fontWeight: int,
                   align: Align, color: string): TextOverlay
  {
    TextOverlay(x, y, maxWidth, fontSize, fontWeight, align, color, None)
  }

  /** The back text of both shipped templates (the two records in the source are identical). */
  function StyleBackText(): BackRecord<TextOverlay>
  {
    BackRecord(
      Overlay(8.0, 72.0, 84.0, 2.6, 500, Center, BrandWhite),
      Overlay(8.0, 64.0, 84.0, 3.2, 700, Center, BrandWhite),
      Overlay(8.0, 90.0, 84.0, 2.3, 600, Center, BrandWhite))
  }

  function StyleFrontText(): FrontRecord<TextOverlay>
  {
    FrontRecord(
      Overlay(8.0, 71.0, 84.0, 6.6, 700, Center, BrandWhite),
      Overlay(8.0, 80.0, 70.0, 3.6, 600, Center, BrandWhite),
      Overlay(8.0, 6.5, 40.0, 3.3, 700, Left, BrandWhite),
      Overlay(78.0, 4.8, 14.0, 7.0, 800, Right, BrandRed),
      Overlay(8.0, 86.0, 84.0, 3.0, 600, Center, BrandWhite),
      Overlay(8.0, 90.0, 84.0, 3.0, 600, Center, SlateGray),
      Overlay(8.0, 93.5, 84.0, 2.5, 500, Center, SlateGray))
  }

  /** An overlay whose position and width are percentages of the card. */
  predicate OverlayInPercent(o: TextOverlay)
  {
    0.0 <= o.x <= 100.0 && 0.0 <= o.y <= 100.0 && 0.0 <= o.maxWidth <= 100.0
  }

  /** A frame that lies on the card. */
  predicate FrameOnCard(f: PhotoFrame)
  {
    0.0 <= f.x && 0.0 <= f.y && 0.0 < f.w && 0.0 < f.h && f.x + f.w <= 100.0 && f.y + f.h <= 100.0
  }

  /** The invariants every shipped template keeps. */
  predicate WellFormed(t: Template)
  {
    && FrameOnCard(t.front.photoFrame)
    && t.back.photoFrame.Some? && FrameOnCard(t.back.photoFrame.value)
    && (forall k :: OverlayInPercent(t.front.text.Get(k)) && t.front.text.Get(k).background.None?)
    && (forall k :: OverlayInPercent(t.back.text.Get(k)) && t.back.text.Get(k).background.None?)
  }

  function AllTemplates(): (r: seq<Template>)
    ensures |r| == 2
    ensures r[0].id == "style-1"
    ensures forall i, j :: 0 <= i < j < |r| ==> r[i].id != r[j].id
    ensures forall i :: 0 <= i < |r| ==> WellFormed(r[i])
  {
    [ Template("style-1", "Style 1",
        FrontSide("/templates/style-1-front.png", PhotoFrame(9.4, 9.8, 83.7, 71.8, 10.0), StyleFrontText()),
        BackSide("/templates/style-1-back.png", Some(PhotoFrame(9.3, 9.9, 83.6, 48.1, 10.0)), StyleBackText())),
      Template("style-2", "Style 2",
        FrontSide("/templates/style-2-front.png", PhotoFrame(9.6, 10.3, 83.4, 47.9, 10.0), StyleFrontText()),
        BackSide("/templates/style-2-back.png", Some(PhotoFrame(9.5, 10.2, 83.3, 48.0, 10.0)), StyleBackText()))
    ]
  }

  /** `templates.find(t => t.id === id) ?? templates[0]` */
  function FindTemplate(id: string): (t: Template)
    ensures t in AllTemplates()
    ensures (exists i :: 0 <= i < |AllTemplates()| && AllTemplates()[i].id == id) ==> t.id == id
    ensures (forall i :: 0 <= i < |AllTemplates()| ==> AllTemplates()[i].id != id) ==> t == AllTemplates()[0]
  {
    var ts := AllTemplates();
    if ts[0].id == id then ts[0] else if ts[1].id == id then ts[1] else ts[0]
  }
}
