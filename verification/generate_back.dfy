// The back-art endpoint (app/api/generate-back/route.ts): request
// validation, the data-URL split, the optional mask, the style note, the
// choice of image model with its one narrow fallback, and the mapping of
// every outcome to an HTTP response. The image service is not called: the
// outcome each model would give is a parameter, and the calls the handler
// makes are returned as a list.
module GenerateBack {
  import opened Common

  /** The fields of the JSON body the handler reads; a JSON `null` body has none of them. */
  datatype Payload = Payload(imageDataUrl: Option<string>, maskDataUrl: Option<string>,
                             style: Option<string>, size: Option<string>)

  /** `await request.json()`: either a payload or a parse failure, which throws. */
  datatype RequestBody = NotJson | Parsed(payload: Payload)

  /** An `APIError` of the image service: HTTP status, the nested error's message, its own message. */
  datatype ApiError = ApiError(status: Option<int>, nestedMessage: Option<string>, message: Option<string>,
                               requestId: Option<string>)

  /** What one `images.edit` call gives: a first image's base64 (if any), an `APIError`, or another throw. */
  datatype EditOutcome = Returned(b64: Option<string>) | ApiFailure(error: ApiError) | OtherFailure

  datatype Model = GptImage1 | DallE2

  /** One `images.edit` call: the model, size, source image, mask (if any) and the style note in the prompt. */
  datatype EditCall = EditCall(model: Model, size: string, image: string, mask: Option<string>, styleNote: string)

  datatype ResponseBody =
    | ErrorBody(error: string)
    | ApiErrorBody(error: string, apiStatus: Option<int>, requestId: Option<string>)
    | ImageBody(imageDataUrl: string)

  datatype Response = Response(status: int, body: ResponseBody)

  const MissingKeyMessage := "Missing OPENAI_API_KEY."
  const ImageRequiredMessage := "Image data is required."
  const InvalidImageMessage := "Invalid image data."
  const NoImageMessage := "No image returned from OpenAI."
  const GenericFailureMessage := "Failed to generate back art."
  const ApiFailureMessage := "OpenAI request failed."
  const PngPrefix := "data:image/png;base64,"
  const DefaultSize := "512x512"
  const LargeSize := "1024x1024"

  const StylizedNote := "Style note: emphasize bold inked outlines and graphic cel shading."
  const NeonNote := "Style note: add subtle neon rim lighting and cool glow accents."
  const FireNote := "Style note: add a warm fire aura with ember-like highlights."
  const ClassicNote := "Style note: keep the lighting clean and athletic with balanced contrast."

  /** A PNG data URL around base64 text, as `canvas.toDataURL` and the success response produce. */
  function PngDataUrl(b64: string): string { PngPrefix + b64 }

  /**
   * The style note of the prompt. Three styles have their own note; every
   * other value, "classic" included, gets the classic one.
   */
  function StyleNote(style: string): (note: string)
    ensures note in {StylizedNote, NeonNote, FireNote, ClassicNote}
    ensures note == StylizedNote <==> style == "stylized"
    ensures note == NeonNote <==> style == "neon"
    ensures note == FireNote <==> style == "fire"
  {
    if style == "stylized" then StylizedNote
    else if style == "neon" then NeonNote
    else if style == "fire" then FireNote
    else ClassicNote
  }

  /**
   * The early returns, in order: no API key (500), a body that is not JSON
   * (the outer catch: 500), no image data URL (400), and a data URL with
   * nothing between its first and second comma (400). None means the
   * request goes on to the image service.
   */
  function Rejection(apiKey: Option<string>, body: RequestBody): (r: Option<Response>)
    ensures apiKey.None? || apiKey.value == "" ==> r == Some(Response(500, ErrorBody(MissingKeyMessage)))
    ensures apiKey.Some? && apiKey.value != "" && body.NotJson? ==>
              r == Some(Response(500, ErrorBody(GenericFailureMessage)))
    ensures apiKey.Some? && apiKey.value != "" && body.Parsed? && OrDefault(body.payload.imageDataUrl, "") == "" ==>
              r == Some(Response(400, ErrorBody(ImageRequiredMessage)))
    ensures apiKey.Some? && apiKey.value != "" && body.Parsed? && OrDefault(body.payload.imageDataUrl, "") != ""
            && OrDefault(SecondSegment(body.payload.imageDataUrl.value, ','), "") == "" ==>
              r == Some(Response(400, ErrorBody(InvalidImageMessage)))
    ensures r.Some? ==> r.value.status in {400, 500} && r.value.body.ErrorBody?
    ensures r.None? <==>
              && apiKey.Some? && apiKey.value != "" && body.Parsed?
              && OrDefault(body.payload.imageDataUrl, "") != ""
              && OrDefault(SecondSegment(body.payload.imageDataUrl.value, ','), "") != ""
    ensures r.Some? && r.value.status == 400 && r.value.body.error == InvalidImageMessage ==>
              body.Parsed? && body.payload.imageDataUrl.Some?
              && OrDefault(SecondSegment(body.payload.imageDataUrl.value, ','), "") == ""
  {
    if apiKey.None? || apiKey.value == "" then Some(Response(500, ErrorBody(MissingKeyMessage)))
    else if body.NotJson? then Some(Response(500, ErrorBody(GenericFailureMessage)))
    else if body.payload.imageDataUrl.None? || body.payload.imageDataUrl.value == "" then
      Some(Response(400, ErrorBody(ImageRequiredMessage)))
    else if OrDefault(SecondSegment(body.payload.imageDataUrl.value, ','), "") == "" then
      Some(Response(400, ErrorBody(InvalidImageMessage)))
    else None
  }

  /** The mask sent with dall-e-2: the segment after the first comma, when the mask URL and that segment are non-empty. */
  function MaskOf(maskDataUrl: Option<string>): (mask: Option<string>)
    ensures mask.Some? <==> maskDataUrl.Some? && maskDataUrl.value != ""
                            && OrDefault(SecondSegment(maskDataUrl.value, ','), "") != ""
    ensures mask.Some? ==> ',' !in mask.value && mask == SecondSegment(maskDataUrl.value, ',')
  {
    if maskDataUrl.None? || maskDataUrl.value == "" then None
    else
      var segment := SecondSegment(maskDataUrl.value, ',');
      if segment.Some? && segment.value != "" then segment else None
  }

  /** The gpt-image-1 failure that sends a 1024 request to dall-e-2: a 403 whose message mentions "verified", in any case. */
  predicate VerificationRequired(outcome: EditOutcome)
  {
    && outcome.ApiFailure?
    && outcome.error.status == Some(403)
    && outcome.error.message.Some?
    && Contains(ToLowerAscii(outcome.error.message.value), "verified")
  }

  /** The outer catch for an `APIError`: its status (500 if it has none) and the first message it carries. */
  function ApiErrorResponse(e: ApiError): (r: Response)
    ensures e.status.Some? ==> r.status == e.status.value
    ensures e.status.None? ==> r.status == 500
    ensures r.body.ApiErrorBody? && r.body.apiStatus == e.status && r.body.requestId == e.requestId
    ensures e.nestedMessage.Some? ==> r.body.error == e.nestedMessage.value
    ensures e.nestedMessage.None? && e.message.Some? ==> r.body.error == e.message.value
    ensures e.nestedMessage.None? && e.message.None? ==> r.body.error == ApiFailureMessage
  {
    var message := if e.nestedMessage.Some? then e.nestedMessage.value
                   else OrDefault(e.message, ApiFailureMessage);
    Response(if e.status.Some? then e.status.value else 500, ApiErrorBody(message, e.status, e.requestId))
  }

  /**
   * The response once the last image call has settled: an image becomes a
   * PNG data URL (200), no image a 502, an `APIError` its mapped response
   * and any other throw a plain 500.
   */
  function Settle(outcome: EditOutcome): (r: Response)
    ensures r.body.ImageBody? <==> outcome.Returned? && OrDefault(outcome.b64, "") != ""
    ensures outcome.Returned? && OrDefault(outcome.b64, "") != "" ==>
              r == Response(200, ImageBody(PngDataUrl(outcome.b64.value)))
    ensures outcome.Returned? && OrDefault(outcome.b64, "") == "" ==> r == Response(502, ErrorBody(NoImageMessage))
    ensures outcome.ApiFailure? ==> r == ApiErrorResponse(outcome.error)
    ensures outcome.OtherFailure? ==> r == Response(500, ErrorBody(GenericFailureMessage))
  {
    match outcome
    case Returned(b64) =>
      if OrDefault(b64, "") == "" then Response(502, ErrorBody(NoImageMessage))
      else Response(200, ImageBody(PngDataUrl(b64.value)))
    case ApiFailure(e) => ApiErrorResponse(e)
    case OtherFailure => Response(500, ErrorBody(GenericFailureMessage))
  }

  /**
   * `POST`: reject by the validation chain, or else send the source image
   * to the image service and answer with what the last call gave. A size
   * other than 1024x1024 goes to dall-e-2 with the mask; 1024x1024 goes to
   * gpt-image-1 without it, and only a verification refusal sends it on to
   * dall-e-2, every other failure being answered as it is.
   */
  method Post(apiKey: Option<string>, body: RequestBody, gpt: EditOutcome, dalle: EditOutcome)
    returns (resp: Response, calls: seq<EditCall>)
    ensures Rejection(apiKey, body).Some? ==> resp == Rejection(apiKey, body).value && calls == []
    ensures Rejection(apiKey, body).None? ==>
      var p := body.payload;
      var image := SecondSegment(p.imageDataUrl.value, ',').value;
      var size := OrDefault(p.size, DefaultSize);
      var note := StyleNote(OrDefault(p.style, "classic"));
      var dalleCall := EditCall(DallE2, size, image, MaskOf(p.maskDataUrl), note);
      && (size != LargeSize ==> calls == [dalleCall] && resp == Settle(dalle))
      && (size == LargeSize && !VerificationRequired(gpt) ==>
            calls == [EditCall(GptImage1, LargeSize, image, None, note)] && resp == Settle(gpt))
      && (size == LargeSize && VerificationRequired(gpt) ==>
            calls == [EditCall(GptImage1, LargeSize, image, None, note), dalleCall] && resp == Settle(dalle))
  {
    var rejected := Rejection(apiKey, body);
    if rejected.Some? {
      return rejected.value, [];
    }
    var p := body.payload;
    var image := SecondSegment(p.imageDataUrl.value, ',').value;
    var mask := MaskOf(p.maskDataUrl);
    var note := StyleNote(OrDefault(p.style, "classic"));
    var size := OrDefault(p.size, DefaultSize);
    var last: EditOutcome;
    if size != LargeSize {
      calls := [EditCall(DallE2, size, image, mask, note)];
      last := dalle;
    } else {
      calls := [EditCall(GptImage1, LargeSize, image, None, note)];
      last := gpt;
      if VerificationRequired(gpt) {
        calls := calls + [EditCall(DallE2, LargeSize, image, mask, note)];
        last := dalle;
      }
    }
    resp := Settle(last);
  }

  /** The first `c` in `a + [c] + b` is the one after `a` when `a` has none. */
  lemma {:induction false} IndexOfAfter(a: string, c: char, b: string)
    requires c !in a
    ensures IndexOf(a + [c] + b, c) == |a|
  {
    if |a| > 0 {
      assert (a + [c] + b)[1..] == a[1..] + [c] + b;
      IndexOfAfter(a[1..], c, b);
    }
  }

  /**
   * A PNG data URL around base64 text (which has no comma) passes the
   * validation chain, and the segment sent on is exactly that text. The
   * success response's data URL is of this form, so it would be accepted
   * back as a source image carrying the same image.
   */
  lemma PngDataUrlRoundTrip(b64: string, key: string, p: Payload)
    requires b64 != "" && ',' !in b64 && key != ""
    requires p.imageDataUrl == Some(PngDataUrl(b64))
    ensures SecondSegment(PngDataUrl(b64), ',') == Some(b64)
    ensures Rejection(Some(key), Parsed(p)).None?
  {
    var head := "data:image/png;base64";
    assert PngDataUrl(b64) == head + [','] + b64;
    IndexOfAfter(head, ',', b64);
    assert PngDataUrl(b64)[|head| + 1..] == b64;
    assert TakeUntil(b64, ',') == b64;
    assert IndexOf(PngDataUrl(b64), ',') == |head|;
  }
}
