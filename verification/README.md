# Flexcards card builder — a Dafny model

Flexcards is a web builder for trading cards. A user picks a template, types
the front and back texts, and uploads a portrait. The builder can remove the
photo's background, place the photo so it covers the front frame, and ask a
server endpoint for generated back art. The finished front and back can be
exported as images.

This project models the composition core of that builder and proves its
properties:

- **Front card.** The player photo placement (`PhotoLayout`):
  - the cover scale over the subject's content box;
  - the range of positions that keeps the frame covered;
  - the slack-widened drag bounds;
  - the per-style treatment passes;
  - the drag handlers that turn pointer moves into percentage offsets.

  The scan for the cutout's content box (`ContentBounds`) and the front text
  layer (`FrontText`) belong here too. The text layer covers per-field
  metrics, background chips and the `lastTextBottom` cursor over
  `frontFieldOrder`.
- **Back card.** The generated art is placed to cover the optional back frame,
  and the back text boxes are laid out (`BackPreview`).
- **Builder session.** The `Builder` class in `BuilderShell` holds the React
  state and the four refs that guard the two asynchronous jobs (background
  removal and back-art generation). Each job is split into a start step and
  completion events that carry the job's request id. A stale job can then be
  shown to change nothing. `BuilderLogic` holds the pure helpers:
  - `parseImageSize`;
  - the scaled-placement arithmetic;
  - the back-art source and its dedup key;
  - the status texts.
- **Back-art endpoint** (`GenerateBack`):
  - the validation chain;
  - the data-URL split;
  - the optional mask;
  - the style note;
  - the size and model routing with its single fallback;
  - the mapping of every outcome to a response.

  The image service's results are parameters.
- **Shared pieces.**
  - the template catalogue and field orders (`Templates`);
  - the image-loading hook with its per-attempt cancellation (`LoadedImage`);
  - print sizes (`PrintSpec`);
  - export file names (`SnapshotName`);
  - the data model (`CardTypes`);
  - the numeric and string helpers standing in for JavaScript built-ins (`Common`).

Lengths are `real`. JavaScript's `Math.round` is `floor(x + 1/2)`. Strings are
`seq<char>`.

## Model

| member | source | states |
|---|---|---|
| Common.Clamp | components/Builder/CardPreview.tsx:191-192 | the result lies in [lo, hi]; it is v when v is inside and the nearer end otherwise |
| Common.ClampIdempotent | components/Builder/CardPreview.tsx:346-347 | clamping twice equals clamping once |
| Common.Round | lib/printSpec.ts:11-12 | `Math.round`: the result is within half a unit of x, and halves round up |
| Common.RoundOfInt | lib/printSpec.ts:11-12 | a whole number rounds to itself |
| Common.RoundMonotone | lib/printSpec.ts:11-12 | rounding preserves order |
| Common.RoundBelowInt | components/Builder/BuilderShell.tsx:268-269 | a value at most n rounds to at most n |
| Common.SecondSegment | app/api/generate-back/route.ts:32 | `split(sep)[1]`: absent iff sep does not occur; otherwise the comma-free text between the first separator and the next one or the end |
| Common.ToLowerAscii | app/api/generate-back/route.ts:97 | same length; A–Z become a–z and every other character is kept |
| Common.ToUpperAscii | components/Builder/CardPreview.tsx:249 | same length; a–z become A–Z and every other character is kept |
| Common.NatToString | components/Builder/BuilderShell.tsx:371 | decimal rendering: non-empty and all digits |
| Common.IntToString | components/Builder/BuilderShell.tsx:231-232 | a negative number renders as "-" and its magnitude; others as the natural number |
| Common.FindFirst | components/Builder/BuilderShell.tsx:226 | the index found holds an occurrence of the pattern and no earlier index does; none means no index holds one |
| Common.ReplaceFirst | components/Builder/BuilderShell.tsx:226 | `replace` with a string pattern: no occurrence leaves s unchanged; otherwise the text before the first occurrence, then rep, then the text after that occurrence, wherever it lies |
| CardTypes.FrontRecord.Set | components/Builder/BuilderShell.tsx:466-468 | the edited field holds the new value and every other field is unchanged |
| CardTypes.BackRecord.Set | components/Builder/BuilderShell.tsx:470-472 | the edited field holds the new value and every other field is unchanged |
| CardTypes.WithOverride | components/Builder/CardBackPreview.tsx:123-126 | an override replaces only x and y; size, weight, alignment, colour and chip stay as the template declares |
| CardTypes.CardHeight | components/Builder/CardBackPreview.tsx:40-41 | height is 7/5 of the width, so it exceeds any positive width |
| CardTypes.PxToPercent | components/Builder/CardBackPreview.tsx:151-152 | the stored percentage renders back to the pixel position it came from |
| CardTypes.PercentRoundTrip | components/Builder/CardBackPreview.tsx:136-152 | storing a rendered percentage position gives back the same percentage |
| CardTypes.TextDragBound | components/Builder/CardBackPreview.tsx:140-147 | x is kept in [0, max(0, W − boxW)] and y in [0, max(0, H − boxH)]; a box that fits stays on the card; an in-range position is unchanged, and an out-of-range one goes to the nearer end, 0 or max(0, W − boxW) (likewise for y) |
| CardTypes.TextDragBoundIdempotent | components/Builder/CardPreview.tsx:613-620 | the text drag clamp is idempotent |
| CardTypes.TextDragEnd | components/Builder/CardPreview.tsx:621-627 | a position is reported iff layout editing is on and a listener exists; it is exactly the inverse of the render position |
| Templates.FrontFieldOrder | lib/templates.ts:3-11 | seven keys, each front key exactly once |
| Templates.EveryFrontKeyListed | lib/templates.ts:3-11 | every front key occurs in the order |
| Templates.BackFieldOrder | lib/templates.ts:13-17 | three keys, each back key exactly once |
| Templates.EveryBackKeyListed | lib/templates.ts:13-17 | every back key occurs in the order |
| Templates.AllTemplates | lib/templates.ts:84-241 | two templates with distinct ids; the first is "style-1"; every frame lies on the card, both declare a back frame, every overlay is in percent, and no overlay declares a chip |
| Templates.FindTemplate | components/Builder/BuilderShell.tsx:147-150 | the template with that id, or the first one when no id matches |
| PrintSpec.InchesToPx | lib/printSpec.ts:11-12 | the nearest whole pixel to inches·dpi |
| PrintSpec.InchesToPxMonotone | lib/printSpec.ts:11-12 | more inches never give fewer pixels at a fixed non-negative dpi |
| PrintSpec.TrimSizePx | lib/printSpec.ts:14-17 | 750 × 1050 |
| PrintSpec.FullBleedSizePx | lib/printSpec.ts:19-28 | 825 × 1125 |
| PrintSpec.FullBleedExceedsTrim | lib/printSpec.ts:6-28 | full bleed is strictly larger than trim on both axes |
| SnapshotName.BuildSnapshotFileName | lib/utils.ts:1-4 | starts with "snapshot-card-" and the id, ends with ".png", and has "-back" before the extension exactly for the back |
| SnapshotName.FrontAndBackNamesDiffer | lib/utils.ts:4 | the front and back names of one template differ |
| SnapshotName.NamesInjective | lib/utils.ts:4 | equal names for one side imply equal template ids |
| LoadedImage.ImageLoader.Current | lib/useLoadedImage.ts:40 | an image is returned only for a non-empty src, and only when it was loaded for that same src |
| LoadedImage.ImageLoader.constructor | lib/useLoadedImage.ts:19-38 | the first render starts one attempt for a non-empty src and none otherwise |
| LoadedImage.ImageLoader.Cleanup | lib/useLoadedImage.ts:35-37 | every attempt is cancelled afterwards and the stored image is kept |
| LoadedImage.ImageLoader.Render | lib/useLoadedImage.ts:19-38 | an unchanged src does nothing; a new one cancels every earlier attempt and starts one more when non-empty |
| LoadedImage.ImageLoader.Unmount | lib/useLoadedImage.ts:35-37 | the last attempt is cancelled |
| LoadedImage.ImageLoader.OnLoad | lib/useLoadedImage.ts:25-28 | a cancelled attempt changes nothing; a live one stores (src, image) and the hook then returns it |
| LoadedImage.ImageLoader.OnError | lib/useLoadedImage.ts:29-32 | a cancelled attempt changes nothing; a live one clears the stored image |
| LoadedImage.StaleLoadIsIgnored | lib/useLoadedImage.ts:19-40 | after the src changes, a late load for the earlier src is dropped: nothing is returned until the new src loads, and then its image |
| ContentBounds.SampleStep | components/Builder/CardPreview.tsx:113 | the sampling step is 1 or 2 |
| ContentBounds.SampleStepRule | components/Builder/CardPreview.tsx:113 | the step is 2 exactly when w·h > 2,000,000 |
| ContentBounds.Padding | components/Builder/CardPreview.tsx:131-132 | the padding is at least twice the step |
| ContentBounds.ScanRow | components/Builder/CardPreview.tsx:116-124 | one row of samples keeps the scan invariant: the extent is the tight min/max of every hit seen so far |
| ContentBounds.ScanPixels | components/Builder/CardPreview.tsx:108-142 | no box iff no sampled pixel has alpha > 12; otherwise the tight sampled box grown by 2·step + round(0.05·min(w,h)) on every side, unclamped |
| ContentBounds.ScanContentBounds | components/Builder/CardPreview.tsx:86-143 | no box without an image, for a non-cutout, for a zero dimension, without a context, or with no opaque sample; otherwise the padded box |
| ContentBounds.OpaqueImageBox | components/Builder/CardPreview.tsx:131-142 | a fully opaque image gives the whole image grown by the padding, including negative x and y |
| ContentBounds.TransparentImageHasNoHit | components/Builder/CardPreview.tsx:118-129 | an image whose alpha never exceeds 12 has no hit |
| PhotoLayout.CoverScale | components/Builder/CardPreview.tsx:170-173 | scale·cw ≥ frameW and scale·ch ≥ frameH, with equality on at least one axis |
| PhotoLayout.OrderedRange | components/Builder/CardPreview.tsx:184-187 | the two ends, ordered |
| PhotoLayout.PlayerLayout | components/Builder/CardPreview.tsx:156-208 | no layout iff the image, a frame side or a content side is zero; otherwise the content covers the frame, the ranges are ordered and the position lies inside them |
| PhotoLayout.Arrange | components/Builder/CardPreview.tsx:180-192 | the content box is centred, and the y of a cutout is the centred base plus 0.06·frameH clamped into the range |
| PhotoLayout.ContentOf | components/Builder/CardPreview.tsx:162-167 | the scanned box, or the whole image when there is none |
| PhotoLayout.PlayerLayoutPlacement | components/Builder/CardPreview.tsx:188-192 | centred on x; centred on y unless the photo is a cutout, whose y gets the headroom and the clamp |
| PhotoLayout.PlayerLayoutScale | components/Builder/CardPreview.tsx:170-179 | image size, content offset and content size all carry the one cover scale |
| PhotoLayout.RangeCoversFrame | components/Builder/CardPreview.tsx:180-187 | at any position inside the range the content spans the whole frame |
| PhotoLayout.DragBounds | components/Builder/CardPreview.tsx:283-307 | the bounds contain the layout range; an axis is widened iff its range is below its slack, and then by exactly the slack on both sides |
| PhotoLayout.GroupDragBound | components/Builder/CardPreview.tsx:343-349 | the position passes through without bounds; otherwise it lands inside them, is unchanged when already inside, and each coordinate beyond a side goes to that side's bound |
| PhotoLayout.AutoFitCoversFrame | components/Builder/CardPreview.tsx:338-341 | with the auto-fit offset (0, 0) the photo is drawn at the layout position and covers the frame |
| PhotoLayout.OutlineBlur | components/Builder/CardPreview.tsx:276 | at least 6, and the larger of 6 and the style's fraction of the card width |
| PhotoLayout.PhotoTreatment | components/Builder/CardPreview.tsx:379-468 | outline layer iff styled and a cutout; neon layer iff neon; fire layers iff fire; filters iff styled, with positive strengths exactly then |
| PhotoLayout.PhotoDrag.constructor | components/Builder/CardPreview.tsx:50-51 | no pointer, the offset from the prop, nothing reported |
| PhotoLayout.PhotoDrag.SyncOffset | components/Builder/CardPreview.tsx:53-55 | the ref mirrors the prop |
| PhotoLayout.PhotoDrag.OverlayDragStart | components/Builder/CardPreview.tsx:505-508 | the pointer is remembered |
| PhotoLayout.PhotoDrag.OverlayDragEnd | components/Builder/CardPreview.tsx:537-539 | the pointer is forgotten |
| PhotoLayout.PhotoDrag.OverlayDragMove | components/Builder/CardPreview.tsx:509-536 | without a listener, pointer or previous pointer nothing changes; otherwise the stored and reported offset places the photo where GroupDragBound puts the unclamped position (so at the nearest bound when outside), and equals the unclamped sum whenever that is in bounds |
| PhotoLayout.DragOffset | components/Builder/CardPreview.tsx:515-533 | the stored offset places the photo exactly where GroupDragBound clamps the position of the old offset moved by the pointer delta: that offset itself when inside, the nearest bound on each axis otherwise |
| PhotoLayout.ClampedAxis | components/Builder/CardPreview.tsx:522-533 | on one axis, the clamped offset places the photo within [lo, hi]; an offset already placed within them is kept exactly, one placed below lo lands at lo and one above hi lands at hi |
| PhotoLayout.PercentRoundTripAt | components/Builder/CardPreview.tsx:524-532 | placing a percentage offset and measuring it back gives the same percentage |
| PhotoLayout.PhotoDrag.GroupDragCommit | components/Builder/CardPreview.tsx:350-377 | when editing is allowed the stored and reported offset renders exactly at the dragged position; otherwise nothing changes |
| PhotoLayout.OffsetRoundTrip | components/Builder/CardPreview.tsx:358-359 | measuring a position in percent of the frame and placing it back gives the same position |
| FrontText.DisplayValue | components/Builder/CardPreview.tsx:249 | same length; every field but the position is shown as typed; the position is upper-cased, each a–z letter becoming its capital and every other character kept |
| FrontText.FieldMetrics | components/Builder/CardPreview.tsx:241-270 | the width is the measured width or maxWidth, whichever is smaller; font size in px; bold iff weight ≥ 700 |
| FrontText.MeasureFields | components/Builder/CardPreview.tsx:221-274 | nothing on an empty stage; otherwise an entry exactly for the non-blank fields, each from its effective overlay |
| FrontText.PlaceChip | components/Builder/CardPreview.tsx:569-601 | the chip gets its full top padding when there is room below lastBottom + minGap, and otherwise starts exactly there; it never starts above min(y, lastBottom + minGap); its width is min(textWidth + 2·paddingX, overlayWidth); it stays inside [0, overlayWidth] and follows the alignment; the cursor becomes the chip bottom, y + textHeight + paddingY |
| FrontText.ChipStaysBelowCursor | components/Builder/CardPreview.tsx:575-578 | with a non-negative gap, a chip never reaches above the previous text bottom |
| FrontText.LayoutField | components/Builder/CardPreview.tsx:546-604 | a blank field draws nothing and keeps the cursor; otherwise it is drawn at its overlay position, with a chip iff a background is declared; font size, line height, text height and text come from the field's metrics entry or fall back to the overlay; with a background, the chip and the new cursor are PlaceChip's for that field, and without one the cursor becomes max(cursor, y + textHeight) |
| FrontText.LayoutDrawsNonBlank | components/Builder/CardPreview.tsx:546-548 | the loop draws exactly the non-blank fields, in order, whatever the cursor |
| FrontText.LayoutFront | components/Builder/CardPreview.tsx:543-604 | the imperative loop from cursor 0 produces the specified layout, whose keys are the non-blank fields in order |
| FrontText.FrontDrawsEachFilledFieldOnce | components/Builder/CardPreview.tsx:546-548 | over `frontFieldOrder`, each key is drawn iff its value is not blank, and at most once |
| FrontText.NonBlankMembers | components/Builder/CardPreview.tsx:546-548 | a key is kept iff it is listed and its value is not blank |
| FrontText.NonBlankDistinct | components/Builder/CardPreview.tsx:546-548 | skipping blank fields keeps keys distinct |
| BackPreview.FrameRect | components/Builder/CardBackPreview.tsx:51-55 | the frame in pixels, with every dimension 0 when there is no back frame |
| BackPreview.ArtLayout | components/Builder/CardBackPreview.tsx:57-68 | none iff no image or a zero side; otherwise both image sides are multiplied by the cover scale max(frameW/iw, frameH/ih), so the art covers the frame, touches it on one axis and is centred with equal overhang on both sides |
| BackPreview.ArtKeepsAspect | components/Builder/CardBackPreview.tsx:62-64 | the art keeps the image's aspect ratio: width·ih == height·iw |
| BackPreview.BackPhoto | components/Builder/CardBackPreview.tsx:83-118 | nothing without a frame; exactly ArtLayout's art of the frame rectangle when it has one; otherwise a placeholder the size of the frame |
| BackPreview.LayoutBackField | components/Builder/CardBackPreview.tsx:120-172 | a blank field draws nothing; otherwise textHeight = fontSize·lineHeight, lineHeight 1.35 iff bio else 1.2, bold iff weight ≥ 700, Bebas Neue iff footer note, at the overridden position |
| BackPreview.BackBoxes | components/Builder/CardBackPreview.tsx:120-122 | `backFieldOrder.map`: one entry per listed key |
| BackPreview.Drawn | components/Builder/CardBackPreview.tsx:120-122 | the null entries are dropped: every drawn child is a non-null entry, and every non-null entry is drawn |
| BackPreview.DrawnKeysDistinct | components/Builder/CardBackPreview.tsx:120-135 | entries with pairwise different keys still have pairwise different keys once the nulls are dropped |
| BackPreview.LayoutBack | components/Builder/CardBackPreview.tsx:120-172 | every drawn box is the one LayoutBackField gives for its own listed, non-blank key, and every listed non-blank key's box is drawn |
| BackPreview.LayoutBackKeysDistinct | components/Builder/CardBackPreview.tsx:120-135 | with each key listed once, no field is drawn twice |
| BuilderLogic.DropLeadingWhitespace | components/Builder/BuilderShell.tsx:103 | a suffix whose first character is not white space |
| BuilderLogic.LeadingDigits | components/Builder/BuilderShell.tsx:103 | the longest all-digit prefix |
| BuilderLogic.ParseInt | components/Builder/BuilderShell.tsx:103 | `parseInt(s, 10)`: NaN (none) exactly when no digit follows the leading white space and optional sign; otherwise the value of the leading digits, negated exactly after a minus sign |
| BuilderLogic.ParseImageSize | components/Builder/BuilderShell.tsx:102-105 | always positive; the parsed number before the first "x" when that is positive, else 1024 |
| BuilderLogic.DigitsValueOfNat | components/Builder/BuilderShell.tsx:103 | the digits of a natural number read back as that number |
| BuilderLogic.ParseImageSizeRoundTrip | components/Builder/BuilderShell.tsx:102-105 | a size string "n" + "x…" with n > 0 parses to n |
| BuilderLogic.HeadBeforeX | components/Builder/BuilderShell.tsx:103 | the text before the first "x" of digits + "x…" is the digits |
| BuilderLogic.ParseIntOfDigits | components/Builder/BuilderShell.tsx:103 | a non-empty digit string parses to its value |
| BuilderLogic.BackAiSizeIs512 | components/Builder/BuilderShell.tsx:100-105 | the back-art target size is 512 |
| BuilderLogic.ShrinkFactor | components/Builder/BuilderShell.tsx:264-267 | a factor in [0, 1] that is exactly 1 when the image already fits |
| BuilderLogic.ScaledPlacement | components/Builder/BuilderShell.tsx:264-281 | each drawn side is max(1, round(side·scale)) with the shrink factor, lies in [1, S] and never exceeds the source; an image that fits keeps its size; each offset is round((S − side)/2) and keeps the drawing inside the S×S canvas |
| BuilderLogic.ScaledSide | components/Builder/BuilderShell.tsx:264-269 | a scaled side is between 1 and S and no larger than the source side |
| BuilderLogic.CentredOffset | components/Builder/BuilderShell.tsx:279-280 | the rounded centring offset keeps a side of at most S inside the canvas |
| BuilderLogic.GetBackSource | components/Builder/BuilderShell.tsx:350-359 | none without a photo; the cutout when removal is on and done; the file when removal is off; none while the cutout is pending |
| BuilderLogic.CompositeKey | components/Builder/BuilderShell.tsx:368-373 | the source key, ":", then the style name |
| BuilderLogic.CompositeKeySeparatesStyles | components/Builder/BuilderShell.tsx:373 | different styles never share a key |
| BuilderLogic.ActivePhotoUrl | components/Builder/BuilderShell.tsx:512 | the cutout when removal is on and it exists, else the photo |
| BuilderLogic.ProgressStatus | components/Builder/BuilderShell.tsx:220-233 | compute steps show the removing text; a download shows "Downloading " and the key with its first "/models/" and then its first ".onnx" removed, followed by "..." without a total or by " ", round(current/total·100) and "%" with one |
| BuilderLogic.ProgressPercentInRange | components/Builder/BuilderShell.tsx:231-232 | a download between 0 and its total reports a percentage between 0 and 100 |
| BuilderLogic.DerivedBackStatus | components/Builder/BuilderShell.tsx:514-525 | no change without a photo or while generating; otherwise Ready with art, waiting while the cutout is pending, else ready to generate |
| BuilderLogic.GenerateEnabled | components/Builder/BuilderShell.tsx:725-733 | the button is enabled exactly when a photo and a source exist and nothing is generating |
| BuilderShell.Builder.constructor | components/Builder/BuilderShell.tsx:108-142 | the initial state: first template, default texts, removal and auto-fit on, counters 0, no controller |
| BuilderShell.Builder.StartBackgroundRemoval | components/Builder/BuilderShell.tsx:198-202 | flag set, error cleared, the removing status shown, and a fresh id captured and running |
| BuilderShell.Builder.RemovalProgress | components/Builder/BuilderShell.tsx:220-233 | only the current job changes the status |
| BuilderShell.Builder.CompleteBackgroundRemoval | components/Builder/BuilderShell.tsx:236-254 | a stale job changes nothing; the current one stores the cutout or the error (default "Background removal failed.") and clears the flag |
| BuilderShell.Builder.StartBackArt | components/Builder/BuilderShell.tsx:297-306 | a fresh id; the previous controller aborted; the new one held; generating shown |
| BuilderShell.Builder.CompleteBackArt | components/Builder/BuilderShell.tsx:307-347 | a stale request changes nothing; the current one stores the art, or records the error and keeps the old art; abort only runs `finally`; the controller is released only by its own request |
| BuilderShell.Builder.RequestBackGeneration | components/Builder/BuilderShell.tsx:361-376 | nothing without a photo; only the waiting status without a source; a job iff forced or the composite key is new, which is then stored |
| BuilderShell.Builder.ResetBackArt | components/Builder/BuilderShell.tsx:378-389 | every running request goes stale; the key is forgotten; the controller is aborted and dropped; the art and error are cleared; the given status is shown |
| BuilderShell.Builder.Unmount | components/Builder/BuilderShell.tsx:173-180 | the held controller is aborted and dropped |
| BuilderShell.Builder.PhotoChange | components/Builder/BuilderShell.tsx:391-412 | corrected handler: the running removal goes stale and its flag is cleared; the back art is reset and the held back-art controller is aborted; only a zero offset for the selected template is kept; a removal starts iff removal is on |
| BuilderShell.Builder.PhotoChangeAsWritten | components/Builder/BuilderShell.tsx:391-412 | with removal off, the counter moves on but the removing flag is kept; with removal on, a new removal starts and holds the flag; either way the held back-art controller is aborted |
| BuilderShell.Builder.ToggleRemoveBackground | components/Builder/BuilderShell.tsx:414-423 | a removal starts iff turning on with a photo, no cutout and nothing running (setting the flag and clearing its error); the back art and its error are reset and the controller aborted either way; every other part of the state is unchanged |
| BuilderShell.Builder.ToggleAutoFit | components/Builder/BuilderShell.tsx:425-436 | turning on zeroes only the selected offset and leaves photo mode |
| BuilderShell.Builder.LayoutModeChange | components/Builder/BuilderShell.tsx:438-443 | photo mode turns auto-fit off |
| BuilderShell.Builder.AutoFitEffect | components/Builder/BuilderShell.tsx:158-165 | with auto-fit on, the selected template's offset is (0, 0) |
| BuilderShell.Builder.PhotoModeEffect | components/Builder/BuilderShell.tsx:167-171 | photo mode turns auto-fit off |
| BuilderShell.Builder.ClearPhoto | components/Builder/BuilderShell.tsx:445-464 | both jobs go stale; the held back-art controller is aborted; no photo, cutout or offsets; the flag is cleared; the set of running removals is unchanged |
| BuilderShell.Builder.FrontFieldChange | components/Builder/BuilderShell.tsx:466-468 | one front text changes |
| BuilderShell.Builder.BackFieldChange | components/Builder/BuilderShell.tsx:470-472 | one back text changes |
| BuilderShell.Builder.PhotoOffsetChange | components/Builder/BuilderShell.tsx:474-479 | the selected offset becomes next and the other templates' offsets are kept |
| BuilderShell.Builder.FrontTextPositionChange | components/Builder/BuilderShell.tsx:481-492 | merged into the selected template's entry for that field; other fields and templates unchanged |
| BuilderShell.Builder.BackTextPositionChange | components/Builder/BuilderShell.tsx:494-505 | the same for a back field |
| BuilderShell.Builder.ResetLayout | components/Builder/BuilderShell.tsx:507-510 | both sides' overrides of the selected template are emptied, and only those |
| BuilderShell.Builder.SelectTemplate | components/Builder/BuilderShell.tsx:790 | the selected id changes and nothing else |
| BuilderShell.Builder.SelectSubjectStyle | components/Builder/BuilderShell.tsx:671-708 | the style changes and nothing else |
| BuilderShell.Builder.SyncBackStatus | components/Builder/BuilderShell.tsx:514-525 | the status becomes the derived one when there is one |
| BuilderShell.StaleBackArtIsDropped | components/Builder/BuilderShell.tsx:297-347 | after a second request, the first one's late outcome changes nothing and its controller was aborted |
| BuilderShell.ResetDropsInFlightResult | components/Builder/BuilderShell.tsx:378-389 | a result arriving after a reset is dropped |
| BuilderShell.RepeatedRequestIsDeduplicated | components/Builder/BuilderShell.tsx:361-376 | once a request for a source and style has started a job, repeating it starts none, while a forced request always starts one |
| BuilderShell.StuckRemovalAsWritten | components/Builder/BuilderShell.tsx:391-423 | the event sequence, driven by the written handler for both uploads, under which it leaves the flag set with no job, so re-enabling removal starts nothing |
| BuilderShell.RemovalRestartsWhenCorrected | components/Builder/BuilderShell.tsx:391-423 | the same sequence with the corrected handler restarts the removal |
| GenerateBack.StyleNote | app/api/generate-back/route.ts:56-64 | one of four notes; each of stylized, neon and fire has its own, and everything else gets the classic one |
| GenerateBack.Rejection | app/api/generate-back/route.ts:16-38 | 500 without a key, 500 for a body that is not JSON, 400 "Image data is required." for a missing or empty URL, 400 "Invalid image data." exactly for a non-empty URL with an empty or absent second segment, in that order; accepted exactly when none applies |
| GenerateBack.MaskOf | app/api/generate-back/route.ts:44-53 | a mask exactly when the mask URL and its second segment are non-empty |
| GenerateBack.ApiErrorResponse | app/api/generate-back/route.ts:125-143 | status `error.status ?? 500`; message from the nested error, then the error, then the default |
| GenerateBack.Settle | app/api/generate-back/route.ts:114-149 | an image becomes 200 with a PNG data URL; no image gives 502; an APIError is mapped; anything else gives 500 "Failed to generate back art." |
| GenerateBack.Post | app/api/generate-back/route.ts:14-151 | a rejected request makes no call; other sizes make one dall-e-2 call with the mask; 1024 calls gpt-image-1 and falls back to dall-e-2 only on a 403 mentioning "verified"; the response settles the last call |
| GenerateBack.PngDataUrlRoundTrip | app/api/generate-back/route.ts:32-38 | a PNG data URL of base64 text passes validation, and exactly that text is forwarded |

## Left out

- Rendering is not modelled: JSX, Konva stages and layers, clip paths, shadow colours and opacities, `cache()`/`batchDraw`, and the dashed editing rectangles. The model keeps the numbers and switches they are given.
- Text measurement is not modelled. Konva's measured width and height arrive as a `Measured` value per field.
- Canvas and bitmap calls are not modelled: `getImageData`, `drawImage`, `toDataURL`, `createImageBitmap`, `createMaskDataUrl`. Pixel data is a byte sequence given to the scan, and data URLs are opaque strings.
- Images are known by their natural size. The `naturalWidth || width` fallback is not modelled.
- Object URL creation and revocation are not modelled. A URL may be revoked twice (in an updater and again in an effect cleanup), so no exactly-once claim is made.
- Asynchrony is reduced to start and completion events. Interleavings, the AbortController's signal delivery, `requestAnimationFrame` and `ResizeObserver` are not modelled. The card width is a parameter.
- PhotoLayout.PhotoDrag.GroupDragCommit: the animation-frame callback is treated as running at once. The `Number.isFinite` fallback is not modelled because the frame sides are positive whenever drag bounds exist.
- Konva's coordinate frames are not modelled. GroupDragBound applies the drag bounds, which are in the frame's coordinates, to whatever position Konva hands `dragBoundFunc`. Konva passes that function absolute positions while the photo group sits inside the clip group at the frame origin (components/Builder/CardPreview.tsx:322-349), so the source may clamp in the wrong frame; the overlay drag (components/Builder/CardPreview.tsx:520-533) clamps in frame coordinates.
- Floating point is not modelled. All geometry is over exact reals.
- External services are not modelled: the background-removal library and its model download, the image service SDK, `fetch`, and `Buffer`/`toFile` base64 decoding. Their outcomes are event or method parameters.
- BuilderShell.Builder.CompleteBackgroundRemoval: the library-loading fallback is not modelled. Its failure arrives as one `RemovalFailed` outcome with its message.
- GenerateBack.Post: the prompt wording is not modelled. Only the style note chosen for it is.
- GenerateBack.Post: a payload field that is not a string is not modelled. A non-string image URL is treated as missing.
- GenerateBack.Post: a JSON `null` body is modelled as an empty payload.
- `console.error` logging and the file input reset in `handleClearPhoto` are not modelled.
- BuilderLogic.ParseInt: does not model the overflow of very long digit strings to `Infinity`. The integers here are unbounded.
- Common.ToUpperAscii: case mapping covers ASCII letters only. The same holds for Common.ToLowerAscii.
- BackPreview.LayoutBack: drops the blank entries of `backFieldOrder.map` in order by definition, but no lemma states the relative order of the drawn fields.
- BuilderShell.Builder.PhotoChangeAsWritten: states the flag, counters, running removals and abort for both removal settings, but not the rest of the new ui, which the corrected PhotoChange states in full.
- The storefront, cart, checkout, site chrome, template picker, text field inputs, export button and `triggerDownload` are not modelled: they are static markup or DOM glue.
- Only the first outline layer of the photo treatment checks `isCutout`; the neon cool glow and the two fire glows are drawn for any photo in those styles (components/Builder/CardPreview.tsx:379-432), and `PhotoLayout.PhotoTreatment` states exactly that.

## Findings

| source | as written | input that shows it | evidently intended | confidence | as-written member | corrected member |
|---|---|---|---|---|---|---|
| components/Builder/BuilderShell.tsx:391-412 | `handlePhotoChange` makes the running removal stale (it bumps `removeRequestRef`) but leaves `isRemovingBackground` set when removal is off. The stale job's `finally` does not clear the flag, and `handleToggleRemoveBackground` (line 417) will not start a removal while the flag is set. | Removal on, upload photo A (removal starts); turn removal off; upload photo B; A's removal settles; turn removal on. Photo B then has no cutout, nothing runs, and the status stays "Removing background..." | clear the flag when a new photo makes the running job stale, as `handleClearPhoto` does at line 450 | not executed | BuilderShell.StuckRemovalAsWritten | BuilderShell.RemovalRestartsWhenCorrected |
