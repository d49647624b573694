// The pure helpers of the builder session (components/Builder/BuilderShell.tsx):
// the image-size parser, the geometry of the scaled back-art source, the
// choice of back-art source and its de-duplication key, the progress text of
// background removal, and the status the session derives for the back art.
module BuilderLogic {
  import opened Common
  import opened CardTypes

  // ------------------------------------------------------- parseImageSize

  predicate IsDigit(c: char) { '0' <= c <= '9' }

  predicate AllDigits(s: string) { forall i :: 0 <= i < |s| ==> IsDigit(s[i]) }

  /** What `parseInt` skips before the number: leading white space. */
  function DropLeadingWhitespace(s: string): (r: string)
    ensures |r| <= |s| && r == s[|s| - |r|..]
    ensures forall i :: 0 <= i < |s| - |r| ==> IsJsWhitespace(s[i])
    ensures |r| > 0 ==> !IsJsWhitespace(r[0])
    decreases |s|
  {
    if |s| > 0 && IsJsWhitespace(s[0]) then DropLeadingWhitespace(s[1..]) else s
  }

  /** The longest run of decimal digits at the start of `s`. */
  function LeadingDigits(s: string): (r: string)
    ensures r <= s && AllDigits(r)
    ensures |r| < |s| ==> !IsDigit(s[|r|])
    decreases |s|
  {
    if |s| > 0 && IsDigit(s[0]) then [s[0]] + LeadingDigits(s[1..]) else []
  }

  /** The value of a digit string, most significant digit first. */
  function DigitsValue(d: string): nat
    requires AllDigits(d)
    decreases |d|
  {
    if |d| == 0 then 0 else 10 * DigitsValue(d[..|d| - 1]) + (d[|d| - 1] as int - '0' as int)
  }

  /**
   * `Number.parseInt(s, 10)`: optional white space and sign, then the
   * leading digits; no digits at all is NaN, modelled as None.
   */
  function ParseInt(s: string): (r: Option<int>)
    ensures r.None? <==> LeadingDigits(SkipSign(DropLeadingWhitespace(s)).1) == []
    ensures r.Some? && r.value < 0 ==> SkipSign(DropLeadingWhitespace(s)).0
    ensures r.Some? ==> var (negative, body) := SkipSign(DropLeadingWhitespace(s));
              r.value == (if negative then -1 else 1) * DigitsValue(LeadingDigits(body))
  {
    var t := DropLeadingWhitespace(s);
    var (negative, body) := SkipSign(t);
    var digits := LeadingDigits(body);
    if |digits| == 0 then None
    else Some(if negative then -(DigitsValue(digits) as int) else DigitsValue(digits))
  }

  function SkipSign(t: string): (r: (bool, string))
    ensures r.0 <==> |t| > 0 && t[0] == '-'
    ensures r.1 == (if |t| > 0 && (t[0] == '-' || t[0] == '+') then t[1..] else t)
  {
    if |t| > 0 && t[0] == '-' then (true, t[1..])
    else if |t| > 0 && t[0] == '+' then (false, t[1..])
    else (false, t)
  }

  /**
   * `parseImageSize`: the number before the first "x" when it is a positive
   * integer, otherwise 1024.
   */
  function ParseImageSize(value: string): (n: int)
    ensures n > 0
    ensures var p := ParseInt(TakeUntil(value, 'x'));
            (p.Some? && p.value > 0 ==> n == p.value) && (p.None? || p.value <= 0 ==> n == 1024)
  {
    var parsed := ParseInt(TakeUntil(value, 'x'));
    if parsed.Some? && parsed.value > 0 then parsed.value else 1024
  }

  /** Reading back a rendered decimal number gives the number. */
  lemma {:induction false} DigitsValueOfNat(n: nat)
    ensures AllDigits(NatToString(n)) && DigitsValue(NatToString(n)) == n
    decreases n
  {
    var s := NatToString(n);
    if n >= 10 {
      DigitsValueOfNat(n / 10);
      assert s[..|s| - 1] == NatToString(n / 10);
    }
  }

  /** A size written "<n>x<anything>" with a positive n parses to n. */
  lemma ParseImageSizeRoundTrip(n: nat, rest: string)
    requires n > 0
    ensures ParseImageSize(NatToString(n) + "x" + rest) == n
  {
    var d := NatToString(n);
    DigitsValueOfNat(n);
    HeadBeforeX(d, rest);
    ParseIntOfDigits(d);
  }

  lemma HeadBeforeX(d: string, rest: string)
    requires AllDigits(d)
    ensures TakeUntil(d + "x" + rest, 'x') == d
  {
    var s := d + "x" + rest;
    assert forall i :: 0 <= i < |d| ==> s[i] == d[i] && s[i] != 'x';
    assert s[|d|] == 'x';
  }

  lemma ParseIntOfDigits(d: string)
    requires |d| > 0 && AllDigits(d)
    ensures ParseInt(d) == Some(DigitsValue(d) as int)
  {
    assert !IsJsWhitespace(d[0]);
    assert DropLeadingWhitespace(d) == d;
    assert SkipSign(d) == (false, d);
    assert LeadingDigits(d) == d;
  }

  /** The back-art request size "512x512" gives a 512-pixel canvas. */
  lemma BackAiSizeIs512()
    ensures ParseImageSize("512x512") == 512
  {
    assert NatToString(512) == "512";
    assert "512x512" == NatToString(512) + "x" + "512";
    ParseImageSizeRoundTrip(512, "512");
  }

  // ----------------------------------------------------- createScaledDataUrl

  /** Where the photo is drawn on the square canvas sent for back art. */
  datatype Placement = Placement(width: int, height: int, offsetX: int, offsetY: int)

  /**
   * The geometry of `createScaledDataUrl`: shrink (never enlarge) so the
   * longer side fits `maxSize`, round each side to at least one pixel, and
   * centre the result on a `maxSize` square. A decoded bitmap has positive
   * dimensions.
   */
  function ScaledPlacement(w: nat, h: nat, maxSize: nat): (p: Placement)
    requires w > 0 && h > 0 && maxSize > 0
    ensures 1 <= p.width <= maxSize && 1 <= p.height <= maxSize
    ensures p.width <= w && p.height <= h
    ensures w <= maxSize && h <= maxSize ==> p.width == w && p.height == h
    ensures 0 <= p.offsetX && p.offsetX + p.width <= maxSize
    ensures 0 <= p.offsetY && p.offsetY + p.height <= maxSize
    ensures p.width == DrawnSide(w, ShrinkFactor(w, h, maxSize))
    ensures p.height == DrawnSide(h, ShrinkFactor(w, h, maxSize))
    ensures p.offsetX == Round((maxSize - p.width) as real / 2.0)
    ensures p.offsetY == Round((maxSize - p.height) as real / 2.0)
  {
    var longest := if w >= h then w else h;
    var scale := ShrinkFactor(w, h, maxSize);
    ScaledSide(w, longest, maxSize, scale);
    ScaledSide(h, longest, maxSize, scale);
    var width := DrawnSide(w, scale);
    var height := DrawnSide(h, scale);
    CentredOffset(width, maxSize);
    CentredOffset(height, maxSize);
    Placement(width, height, Round((maxSize - width) as real / 2.0), Round((maxSize - height) as real / 2.0))
  }

  /** `Math.min(1, maxSize / Math.max(w, h))`: the factor that shrinks the longer side to the canvas, never enlarging. */
  function ShrinkFactor(w: nat, h: nat, maxSize: nat): (scale: real)
    requires w > 0 && h > 0
    ensures 0.0 <= scale <= 1.0
    ensures w <= maxSize && h <= maxSize ==> scale == 1.0
  {
    var longest := if w >= h then w else h;
    var q := maxSize as real / longest as real;
    QuotientFactor(longest as real, maxSize as real, q);
    if q < 1.0 then
      ShrunkBelowLongest(longest as real, maxSize as real, q);
      Min(1.0, q)
    else Min(1.0, q)
  }

  /** `Math.max(1, Math.round(side * scale))`: a scaled side, never below one pixel. */
  function DrawnSide(side: nat, scale: real): int
  {
    AtLeastOne(Round(side as real * scale))
  }

  /** `Math.max(1, n)`. */
  function AtLeastOne(n: int): (m: int)
    ensures m >= 1 && m >= n
    ensures n >= 1 ==> m == n
  {
    if n >= 1 then n else 1
  }

  /** A side scaled by min(1, S / longest) fits both the canvas and its original length. */
  lemma ScaledSide(side: nat, longest: nat, maxSize: nat, scale: real)
    requires 0 < side <= longest && maxSize > 0
    requires scale == Min(1.0, maxSize as real / longest as real)
    ensures Round(side as real * scale) <= maxSize && Round(side as real * scale) <= side
    ensures longest <= maxSize ==> Round(side as real * scale) == side
    ensures 1 <= DrawnSide(side, scale) <= maxSize && DrawnSide(side, scale) <= side
    ensures longest <= maxSize ==> DrawnSide(side, scale) == side
  {
    var q := maxSize as real / longest as real;
    QuotientFactor(longest as real, maxSize as real, q);
    if q >= 1.0 {
      UnscaledSide(side, longest, maxSize, q);
    } else {
      ShrunkSide(side, longest, maxSize, q);
    }
  }

  // The helpers below keep the products apart, one or two per proof, so the
  // solver's arithmetic stays linear over them.

  lemma UnscaledSide(side: nat, longest: nat, maxSize: nat, q: real)
    requires 0 < side <= longest && maxSize > 0
    requires longest as real * q == maxSize as real && q >= 1.0
    ensures longest <= maxSize
    ensures Round(side as real * 1.0) == side
  {
    MulMonoRight(1.0, q, longest as real);
    assert longest as real * q == q * longest as real;
    RoundOfInt(side);
  }

  lemma ShrunkSide(side: nat, longest: nat, maxSize: nat, q: real)
    requires 0 < side <= longest && maxSize > 0
    requires longest as real * q == maxSize as real && 0.0 <= q < 1.0
    ensures maxSize < longest
    ensures Round(side as real * q) <= maxSize && Round(side as real * q) <= side
  {
    ShrunkBelowLongest(longest as real, maxSize as real, q);
    RoundedBelowMax(side, longest, maxSize, q);
    RoundedBelowSide(side, q);
  }

  lemma RoundedBelowSide(side: nat, q: real)
    requires 0.0 <= q <= 1.0
    ensures Round(side as real * q) <= side
  {
    MulAtMostOne(side as real, q);
    RoundBelowInt(side as real * q, side);
  }

  lemma RoundedBelowMax(side: nat, longest: nat, maxSize: nat, q: real)
    requires side <= longest && longest as real * q == maxSize as real && 0.0 <= q
    ensures Round(side as real * q) <= maxSize
  {
    MulMonoRight(side as real, longest as real, q);
    RoundBelowInt(side as real * q, maxSize);
  }

  lemma ShrunkBelowLongest(l: real, m: real, q: real)
    requires 0.0 < l && l * q == m && q < 1.0
    ensures m < l
  {
    MulStrictRight(q, 1.0, l);
    assert l * q == q * l;
  }

  lemma QuotientFactor(l: real, m: real, q: real)
    requires 0.0 < l && 0.0 <= m && q == m / l
    ensures l * q == m && 0.0 <= q
  {
  }

  /** Multiplying by a non-negative factor on the right preserves order. */
  lemma MulMonoRight(a: real, b: real, c: real)
    requires a <= b && 0.0 <= c
    ensures a * c <= b * c
  {
  }

  /** Multiplying by a positive factor on the right preserves strict order. */
  lemma MulStrictRight(a: real, b: real, c: real)
    requires a < b && 0.0 < c
    ensures a * c < b * c
  {
  }

  lemma MulAtMostOne(c: real, a: real)
    requires 0.0 <= c && a <= 1.0
    ensures c * a <= c
  {
    MulMonoRight(a, 1.0, c);
    assert c * a == a * c;
  }

  /** Rounding half the free space keeps the drawn side inside the canvas. */
  lemma CentredOffset(side: int, maxSize: int)
    requires 1 <= side <= maxSize
    ensures 0 <= Round((maxSize - side) as real / 2.0)
    ensures Round((maxSize - side) as real / 2.0) + side <= maxSize
  {
    var o := Round((maxSize - side) as real / 2.0);
    assert (o as real) <= (maxSize - side) as real / 2.0 + 0.5;
    if side == maxSize {
      assert o == 0;
    } else {
      assert 2 * o <= maxSize - side + 1;
    }
  }

  // ------------------------------------------------- back-art source and key

  datatype PhotoFile = PhotoFile(name: string, size: nat, lastModified: nat)

  /** What the back art is generated from. */
  datatype BackSource = FileSource(file: PhotoFile) | CutoutSource(url: string)

  /**
   * `getBackSource`: the cutout when background removal is on and has
   * finished, the raw photo when removal is off, and nothing otherwise.
   */
  function GetBackSource(photoFile: Option<PhotoFile>, removeBackground: bool, cutoutUrl: Option<string>)
    : (r: Option<BackSource>)
    ensures photoFile.None? ==> r.None?
    ensures photoFile.Some? && removeBackground && cutoutUrl.Some? ==> r == Some(CutoutSource(cutoutUrl.value))
    ensures photoFile.Some? && !removeBackground ==> r == Some(FileSource(photoFile.value))
    ensures removeBackground && cutoutUrl.None? ==> r.None?
  {
    if photoFile.None? then None
    else if removeBackground && cutoutUrl.Some? then Some(CutoutSource(cutoutUrl.value))
    else if !removeBackground then Some(FileSource(photoFile.value))
    else None
  }

  /** The source part of the dedup key: the cutout URL, or "name-size-lastModified". */
  function SourceKey(source: BackSource): string
  {
    match source
    case CutoutSource(url) => url
    case FileSource(f) => f.name + "-" + NatToString(f.size) + "-" + NatToString(f.lastModified)
  }

  /** `${key}:${subjectStyle}` */
  function CompositeKey(source: BackSource, style: SubjectStyle): (k: string)
    ensures SourceKey(source) + ":" <= k
    ensures k[|SourceKey(source)| + 1..] == style.Name()
  {
    SourceKey(source) + ":" + style.Name()
  }

  /** Changing the subject style always changes the key, so it is never taken for a repeat. */
  lemma CompositeKeySeparatesStyles(source: BackSource, a: SubjectStyle, b: SubjectStyle)
    requires a != b
    ensures CompositeKey(source, a) != CompositeKey(source, b)
  {
  }

  /** The photo the front preview shows: the cutout when removal is on and it exists. */
  function ActivePhotoUrl(removeBackground: bool, cutoutUrl: Option<string>, photoUrl: Option<string>)
    : (r: Option<string>)
    ensures !removeBackground ==> r == photoUrl
    ensures removeBackground && cutoutUrl.Some? ==> r == cutoutUrl
    ensures removeBackground && cutoutUrl.None? ==> r == photoUrl
  {
    if removeBackground then (if cutoutUrl.Some? then cutoutUrl else photoUrl) else photoUrl
  }

  // ----------------------------------------------------------- status texts

  const RemovingStatus := "Removing background..."
  const WaitingStatus := "Waiting for background removal..."
  const GeneratingStatus := "Generating back art..."
  const ReadyStatus := "Ready"
  const FailedStatus := "Failed"
  const ReadyToGenerateStatus := "Ready to generate"
  const DownloadingPrefix := "Downloading "

  /**
   * The model file's name as shown while it downloads: the first "/models/"
   * and then the first ".onnx" removed.
   */
  function FriendlyKey(key: string): string
  {
    ReplaceFirst(ReplaceFirst(key, "/models/", ""), ".onnx", "")
  }

  /** The removal status shown for a progress report of the current job. */
  function ProgressStatus(key: string, current: real, total: real): (r: string)
    ensures "compute:" <= key ==> r == RemovingStatus
    ensures !("compute:" <= key) ==>
              r == DownloadingPrefix + FriendlyKey(key)
                   + (if total == 0.0 then "..." else " " + IntToString(Round(current / total * 100.0)) + "%")
  {
    if "compute:" <= key then RemovingStatus
    else
      var friendlyKey := FriendlyKey(key);
      if total == 0.0 then DownloadingPrefix + friendlyKey + "..."
      else DownloadingPrefix + friendlyKey + " " + IntToString(Round(current / total * 100.0)) + "%"
  }

  /** A download that has fetched part of its total reports a percentage between 0 and 100. */
  lemma ProgressPercentInRange(current: real, total: real)
    requires 0.0 <= current <= total && total > 0.0
    ensures 0 <= Round(current / total * 100.0) <= 100
  {
    var f := current / total;
    assert f * total == current;
    assert 0.0 <= f <= 1.0;
    RoundMonotone(0.0, f * 100.0);
    RoundMonotone(f * 100.0, 100.0);
    RoundOfInt(0);
    RoundOfInt(100);
  }

  /**
   * The status effect of the back-art panel: with no photo or while a job
   * runs it leaves the status alone (None); otherwise it reports the art as
   * ready, waiting for the cutout, or ready to generate.
   */
  function DerivedBackStatus(hasPhoto: bool, isGenerating: bool, hasBackArt: bool,
                             removeBackground: bool, hasCutout: bool): (r: Option<string>)
    ensures r.None? <==> !hasPhoto || isGenerating
    ensures r.Some? && hasBackArt ==> r.value == ReadyStatus
    ensures r.Some? && !hasBackArt ==>
              (r.value == WaitingStatus <==> removeBackground && !hasCutout)
    ensures r.Some? && !hasBackArt && !(removeBackground && !hasCutout) ==> r.value == ReadyToGenerateStatus
    ensures r.Some? ==> r.value in {ReadyStatus, WaitingStatus, ReadyToGenerateStatus}
  {
    if !hasPhoto || isGenerating then None
    else if hasBackArt then Some(ReadyStatus)
    else if removeBackground && !hasCutout then Some(WaitingStatus)
    else Some(ReadyToGenerateStatus)
  }

  /**
   * Whether the Generate button is enabled (it exists only with a photo).
   * When it is, a back-art source exists.
   */
  function GenerateEnabled(photoFile: Option<PhotoFile>, isGenerating: bool, removeBackground: bool,
                           cutoutUrl: Option<string>): (enabled: bool)
    ensures enabled ==> GetBackSource(photoFile, removeBackground, cutoutUrl).Some?
    ensures enabled <==> photoFile.Some? && !isGenerating && GetBackSource(photoFile, removeBackground, cutoutUrl).Some?
  {
    photoFile.Some? && !(isGenerating || (removeBackground && cutoutUrl.None?))
  }
}
