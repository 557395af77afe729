/** The image-generation service wrapper (services/gemini.ts): the API-key
    check, the split of the uploaded data URI into payload and MIME type, the
    choice of the first part of the first candidate as the result, and the
    mapping of thrown messages mentioning 403 or 503 to fixed messages.
    The SDK call itself is a parameter: a function from the request that
    would be sent to what the call resolved to or threw. */
module Gemini {
  import opened Wrappers
  import opened JsString

  const ModelName := "gemini-2.5-flash-image"
  // The messages are written as several literals each: the same text, in
  // pieces short enough for the verifier to inspect character by character.
  const MissingKeyMessage := "API Key is missing. " + "Please check your " + "environment " + "configuration."
  const NoImageMessage := "No image data " + "received from the model."
  const PermissionDeniedMessage := "API Key invalid or " + "permission denied."
  const UnavailableMessage := "Service temporarily " + "unavailable. " + "Please try again."
  const PngPrefix := "data:image/png;base64,"

  /** A thrown value, seen through its possibly missing `message` property. */
  datatype Thrown = Thrown(message: Option<string>)

  /** `new Error(msg)`. */
  function Error(msg: string): Thrown {
    Thrown(Some(msg))
  }

  // The parts of the SDK response the service reads; every level may be absent.
  datatype InlineData = InlineData(data: Option<string>, mimeType: Option<string>)
  datatype Part = Part(inlineData: Option<InlineData>, text: Option<string>)
  datatype Content = Content(parts: Option<seq<Part>>)
  datatype Candidate = Candidate(content: Option<Content>)
  datatype Response = Response(candidates: Option<seq<Candidate>>)

  /** The single multimodal request: one inline image and one text part,
      asking for image output only. */
  datatype Request = Request(model: string, data: string, mimeType: string, text: string, imageOnly: bool)

  /** What awaiting `generateContent` gives: a response, or a thrown value. */
  datatype CallOutcome = Responded(response: Response) | Threw(thrown: Thrown)

  /** The string a FileReader data URL (and the service's own result) has:
      `data:<mime>;base64,<payload>`. */
  function DataUri(mime: string, payload: string): string {
    "data:" + mime + ";base64," + payload
  }

  /** `imageBase64.split(',')[1] || imageBase64`: the second comma-separated
      segment when it exists and is non-empty, the whole input otherwise. */
  function Base64Payload(image: string): (r: string)
    ensures r == image || (r != "" && ',' !in r && ',' in image)
  {
    var segments := Split(image, ',');
    if |segments| > 1 && segments[1] != "" then segments[1] else image
  }

  /** `imageBase64.substring(indexOf(":") + 1, indexOf(";"))`. */
  function MimeTypeOf(image: string): (r: string)
    ensures Includes(image, r)
  {
    Substring(image, IndexOf(image, ':') + 1, IndexOf(image, ';'))
  }

  /** The request for the uploaded image and the instruction. */
  function RequestFor(image: string, prompt: string): (r: Request)
    ensures r.model == ModelName && r.text == prompt && r.imageOnly
    ensures r.data == image || (r.data != "" && ',' !in r.data)
    ensures Includes(image, r.mimeType)
  {
    Request(ModelName, Base64Payload(image), MimeTypeOf(image), prompt, true)
  }

  /** `response.candidates?.[0]?.content?.parts?.[0]`. */
  function FirstPart(response: Response): (r: Option<Part>)
    ensures r.Some? ==>
              response.candidates.Some? && response.candidates.value != [] &&
              response.candidates.value[0].content.Some? &&
              response.candidates.value[0].content.value.parts.Some? &&
              response.candidates.value[0].content.value.parts.value != [] &&
              r.value == response.candidates.value[0].content.value.parts.value[0]
  {
    match response.candidates
    case Some(cs) =>
      if cs == [] then None
      else
        (match cs[0].content
         case Some(Content(Some(ps))) => if ps == [] then None else Some(ps[0])
         case _ => None)
    case None => None
  }

  /** `part && part.inlineData && part.inlineData.data`: the first part's
      inline data when it is present and non-empty. */
  function FirstImageData(response: Response): (r: Option<string>)
    ensures r.Some? ==> r.value != ""
    ensures r.Some? ==>
              response.candidates.Some? && response.candidates.value != [] &&
              response.candidates.value[0].content.Some? &&
              response.candidates.value[0].content.value.parts.Some? &&
              response.candidates.value[0].content.value.parts.value != [] &&
              response.candidates.value[0].content.value.parts.value[0].inlineData.Some? &&
              response.candidates.value[0].content.value.parts.value[0].inlineData.value.data == r
  {
    match FirstPart(response)
    case Some(Part(Some(InlineData(Some(d), _)), _)) => if d != "" then Some(d) else None
    case _ => None
  }

  /** The body of the `try` after the call: wrap the image data as a PNG data
      URI, or throw the no-image error. */
  function ExtractImage(response: Response): (r: Result<string, Thrown>)
    ensures r.Success? <==> FirstImageData(response).Some?
    ensures r.Success? ==>
              |r.value| > |PngPrefix| && r.value[..|PngPrefix|] == PngPrefix &&
              r.value[|PngPrefix|..] == FirstImageData(response).value
    ensures r.Failure? ==> r.error == Error(NoImageMessage)
  {
    match FirstImageData(response)
    case Some(d) => Success(PngPrefix + d)
    case None => Failure(Error(NoImageMessage))
  }

  /** The `catch` block: a message mentioning 403 (checked first) or 503 is
      replaced by a fixed one; anything else is rethrown as it is. */
  function Classify(e: Thrown): (r: Thrown)
    ensures r in {Error(PermissionDeniedMessage), Error(UnavailableMessage), e}
  {
    if e.message.Some? && Includes(e.message.value, "403") then Error(PermissionDeniedMessage)
    else if e.message.Some? && Includes(e.message.value, "503") then Error(UnavailableMessage)
    else e
  }

  /** generateEditedImage: the key check outside the `try`, the request built
      from the uploaded image, then the response or the thrown value mapped
      through the classifier. */
  function GenerateEditedImage(apiKey: Option<string>, image: string, prompt: string,
                               service: Request -> CallOutcome): (r: Result<string, Thrown>)
    ensures r.Success? ==> |r.value| > |PngPrefix| && r.value[..|PngPrefix|] == PngPrefix
  {
    if !Truthy(apiKey) then Failure(Error(MissingKeyMessage))
    else
      match service(RequestFor(image, prompt))
      case Threw(e) => Failure(Classify(e))
      case Responded(response) =>
        match ExtractImage(response)
        case Success(url) => Success(url)
        case Failure(e) => Failure(Classify(e))
  }

  // ---------------------------------------------------------------------------
  // The data URI parse

  /** The payload is the text between the first and the second comma (or the
      end) when that text is non-empty, and the whole input otherwise. */
  lemma PayloadBetweenFirstCommas(image: string)
    ensures var i := IndexOf(image, ',');
            var rest := image[i + 1..];
            var j := IndexOf(rest, ',');
            var segment := if j < 0 then rest else rest[..j];
            Base64Payload(image) == if i >= 0 && segment != "" then segment else image
  {
    var i := IndexOf(image, ',');
    var segments := Split(image, ',');
    SplitSecond(image, ',');
    if i < 0 {
      assert |segments| == 1;
    } else {
      var rest := image[i + 1..];
      var j := IndexOf(rest, ',');
      assert segments[1] == if j < 0 then rest else rest[..j];
    }
  }

  /** An input without a comma is sent whole. */
  lemma PayloadWithoutComma(image: string)
    requires ',' !in image
    ensures Base64Payload(image) == image
  {
    PayloadBetweenFirstCommas(image);
  }

  /** The payload of a data URI whose MIME type has no comma is its
      non-empty payload. */
  lemma PayloadOfDataUri(mime: string, payload: string)
    requires ',' !in mime && ',' !in payload && payload != ""
    ensures Base64Payload(DataUri(mime, payload)) == payload
  {
    var s := DataUri(mime, payload);
    var k := |"data:" + mime + ";base64"|;
    assert s[..k] == "data:" + mime + ";base64";
    assert ',' !in s[..k];
    assert s[k] == ',';
    assert IndexOf(s, ',') == k;
    assert s[k + 1..] == payload;
    PayloadBetweenFirstCommas(s);
  }

  /** A data URI with an empty payload is sent whole, header and all. */
  lemma PayloadOfEmptyDataUri(mime: string)
    requires ',' !in mime
    ensures Base64Payload(DataUri(mime, "")) == DataUri(mime, "")
  {
    var s := DataUri(mime, "");
    var k := |"data:" + mime + ";base64"|;
    assert s[..k] == "data:" + mime + ";base64";
    assert IndexOf(s, ',') == k;
    PayloadBetweenFirstCommas(s);
  }

  /** The MIME type of a data URI whose type contains no ':' and no ';' is
      exactly that type. */
  lemma MimeTypeOfDataUri(mime: string, payload: string)
    requires ':' !in mime && ';' !in mime
    ensures MimeTypeOf(DataUri(mime, payload)) == mime
  {
    var s := DataUri(mime, payload);
    assert s[..4] == "data" && s[4] == ':';
    assert IndexOf(s, ':') == 4;
    var k := 5 + |mime|;
    assert s[..k] == "data:" + mime;
    assert s[k] == ';';
    assert IndexOf(s, ';') == k;
    assert s[5..k] == mime;
  }

  /** Parsing what a data URI was built from gives back the payload and the
      MIME type. */
  lemma {:induction false} DataUriRoundTrip(mime: string, payload: string, prompt: string)
    requires ':' !in mime && ';' !in mime && ',' !in mime
    requires ',' !in payload && payload != ""
    ensures RequestFor(DataUri(mime, payload), prompt).data == payload
    ensures RequestFor(DataUri(mime, payload), prompt).mimeType == mime
  {
    PayloadOfDataUri(mime, payload);
    MimeTypeOfDataUri(mime, payload);
  }

  /** The service's own result, fed back in as an input image, is sent as
      PNG with the same payload. */
  lemma {:induction false} ResultParsesBack(payload: string, prompt: string)
    requires ',' !in payload && payload != ""
    ensures var req := RequestFor(PngPrefix + payload, prompt);
            req.data == payload && req.mimeType == "image/png" && req.text == prompt
  {
    assert PngPrefix + payload == DataUri("image/png", payload);
    DataUriRoundTrip("image/png", payload, prompt);
  }

  /** Without any ':' or ';' (say a bare base64 payload) the MIME type is empty. */
  lemma MimeTypeWithoutHeader(image: string)
    requires ':' !in image && ';' !in image
    ensures MimeTypeOf(image) == ""
  {
  }

  /** With a ':' but no ';', the end position -1 clamps to 0 and the arguments
      swap: the MIME type is everything up to and including the ':'. */
  lemma MimeTypeWithoutSemicolon(image: string)
    requires ':' in image && ';' !in image
    ensures MimeTypeOf(image) == image[..IndexOf(image, ':') + 1]
  {
  }

  /** With a ';' but no ':', the MIME type is everything before the ';'. */
  lemma MimeTypeWithoutColon(image: string)
    requires ':' !in image && ';' in image
    ensures MimeTypeOf(image) == image[..IndexOf(image, ';')]
  {
  }

  /** With the first ';' before the first ':', the arguments swap. */
  lemma MimeTypeSemicolonFirst(image: string)
    requires ':' in image && ';' in image && IndexOf(image, ';') < IndexOf(image, ':')
    ensures MimeTypeOf(image) == image[IndexOf(image, ';')..IndexOf(image, ':') + 1]
  {
  }

  // ---------------------------------------------------------------------------
  // The result and the errors

  /** A string without the digits 4 and 5 mentions neither status. */
  lemma {:induction false} NoStatusWithoutDigits(s: string)
    requires '4' !in s && '5' !in s
    ensures !Includes(s, "403") && !Includes(s, "503")
  {
    IncludesNeedsFirstChar(s, "403");
    IncludesNeedsFirstChar(s, "503");
  }

  /** None of the service's own messages mentions a status. */
  lemma {:induction false} FixedMessagesMentionNoStatus()
    ensures !Includes(MissingKeyMessage, "403") && !Includes(MissingKeyMessage, "503")
    ensures !Includes(NoImageMessage, "403") && !Includes(NoImageMessage, "503")
    ensures !Includes(PermissionDeniedMessage, "403") && !Includes(PermissionDeniedMessage, "503")
    ensures !Includes(UnavailableMessage, "403") && !Includes(UnavailableMessage, "503")
  {
    MissingKeyMessageHasNoDigits();
    NoImageMessageHasNoDigits();
    PermissionDeniedMessageHasNoDigits();
    UnavailableMessageHasNoDigits();
    NoStatusWithoutDigits(MissingKeyMessage);
    NoStatusWithoutDigits(NoImageMessage);
    NoStatusWithoutDigits(PermissionDeniedMessage);
    NoStatusWithoutDigits(UnavailableMessage);
  }

  // One lemma per message, piece by piece, keeps each character check small.
  lemma MissingKeyMessageHasNoDigits()
    ensures '4' !in MissingKeyMessage && '5' !in MissingKeyMessage
  {
    assert '4' !in "API Key is missing. " && '5' !in "API Key is missing. ";
    assert '4' !in "Please check your " && '5' !in "Please check your ";
    assert '4' !in "environment " && '5' !in "environment ";
    assert '4' !in "configuration." && '5' !in "configuration.";
  }

  lemma NoImageMessageHasNoDigits()
    ensures '4' !in NoImageMessage && '5' !in NoImageMessage
  {
    assert '4' !in "No image data " && '5' !in "No image data ";
    assert '4' !in "received from the model." && '5' !in "received from the model.";
  }

  lemma PermissionDeniedMessageHasNoDigits()
    ensures '4' !in PermissionDeniedMessage && '5' !in PermissionDeniedMessage
  {
    assert '4' !in "API Key invalid or " && '5' !in "API Key invalid or ";
    assert '4' !in "permission denied." && '5' !in "permission denied.";
  }

  lemma UnavailableMessageHasNoDigits()
    ensures '4' !in UnavailableMessage && '5' !in UnavailableMessage
  {
    assert '4' !in "Service temporarily " && '5' !in "Service temporarily ";
    assert '4' !in "unavailable. " && '5' !in "unavailable. ";
    assert '4' !in "Please try again." && '5' !in "Please try again.";
  }

  /** A message mentioning 403 becomes the permission message, whether or not
      it also mentions 503. */
  lemma Classify403First(msg: string)
    requires Includes(msg, "403")
    ensures Classify(Thrown(Some(msg))) == Error(PermissionDeniedMessage)
  {
  }

  lemma Classify503(msg: string)
    requires !Includes(msg, "403") && Includes(msg, "503")
    ensures Classify(Thrown(Some(msg))) == Error(UnavailableMessage)
  {
  }

  /** Anything that mentions neither status, or has no message, is rethrown unchanged. */
  lemma ClassifyPassesThrough(e: Thrown)
    requires e.message.Some? ==> !Includes(e.message.value, "403") && !Includes(e.message.value, "503")
    ensures Classify(e) == e
  {
  }

  /** Classifying an already classified error changes nothing: neither fixed
      message mentions a status. */
  lemma {:induction false} ClassifyIdempotent(e: Thrown)
    ensures Classify(Classify(e)) == Classify(e)
  {
    FixedMessagesMentionNoStatus();
  }

  /** A missing or empty key fails with the key message, whatever the service
      would have done, and the classifier would not have rewritten it either. */
  lemma {:induction false} MissingKeyShortCircuits(apiKey: Option<string>, image: string, prompt: string,
                                                   service: Request -> CallOutcome)
    requires !Truthy(apiKey)
    ensures GenerateEditedImage(apiKey, image, prompt, service) == Failure(Error(MissingKeyMessage))
    ensures Classify(Error(MissingKeyMessage)) == Error(MissingKeyMessage)
  {
    FixedMessagesMentionNoStatus();
  }

  /** Success exactly when there is a key, the call resolved and the first part
      of the first candidate carries non-empty data; the result is that data
      as a PNG data URI. */
  lemma SuccessIff(apiKey: Option<string>, image: string, prompt: string, service: Request -> CallOutcome)
    ensures var r := GenerateEditedImage(apiKey, image, prompt, service);
            var outcome := service(RequestFor(image, prompt));
            (r.Success? <==> Truthy(apiKey) && outcome.Responded? && FirstImageData(outcome.response).Some?) &&
            (r.Success? ==> r.value == PngPrefix + FirstImageData(outcome.response).value)
  {
  }

  /** A response without usable image data fails with the no-image message,
      which passes through the classifier unchanged. */
  lemma {:induction false} NoImageFailure(apiKey: Option<string>, image: string, prompt: string,
                                          service: Request -> CallOutcome)
    requires Truthy(apiKey)
    requires service(RequestFor(image, prompt)).Responded?
    requires FirstImageData(service(RequestFor(image, prompt)).response).None?
    ensures GenerateEditedImage(apiKey, image, prompt, service) == Failure(Error(NoImageMessage))
  {
    FixedMessagesMentionNoStatus();
  }

  /** A thrown call fails with the classified error. */
  lemma ThrownCallIsClassified(apiKey: Option<string>, image: string, prompt: string,
                               service: Request -> CallOutcome)
    requires Truthy(apiKey)
    requires service(RequestFor(image, prompt)).Threw?
    ensures GenerateEditedImage(apiKey, image, prompt, service)
            == Failure(Classify(service(RequestFor(image, prompt)).thrown))
  {
  }

  /** The data of the first part of the first candidate is selected when it is
      non-empty, whatever follows it. */
  lemma FirstImageDataFound(d: string, mime: Option<string>, text: Option<string>,
                            moreParts: seq<Part>, moreCandidates: seq<Candidate>)
    ensures FirstImageData(Response(Some([Candidate(Some(Content(Some(
              [Part(Some(InlineData(Some(d), mime)), text)] + moreParts))))] + moreCandidates)))
            == if d != "" then Some(d) else None
  {
  }

  /** Every way the optional chain can stop short gives no image data: no
      candidates, an empty candidate list, no content, no or empty parts, no
      inline data, or no data. */
  lemma FirstImageDataAbsent(mime: Option<string>, text: Option<string>,
                             moreParts: seq<Part>, moreCandidates: seq<Candidate>)
    ensures FirstImageData(Response(None)) == None
    ensures FirstImageData(Response(Some([]))) == None
    ensures FirstImageData(Response(Some([Candidate(None)] + moreCandidates))) == None
    ensures FirstImageData(Response(Some([Candidate(Some(Content(None)))] + moreCandidates))) == None
    ensures FirstImageData(Response(Some([Candidate(Some(Content(Some([]))))] + moreCandidates))) == None
    ensures FirstImageData(Response(Some([Candidate(Some(Content(Some(
              [Part(None, text)] + moreParts))))] + moreCandidates))) == None
    ensures FirstImageData(Response(Some([Candidate(Some(Content(Some(
              [Part(Some(InlineData(None, mime)), text)] + moreParts))))] + moreCandidates))) == None
  {
  }

  /** Only the first part of the first candidate is looked at: later parts
      and later candidates do not change the result. */
  lemma OnlyFirstPartMatters(p: Part, moreParts: seq<Part>, moreCandidates: seq<Candidate>)
    ensures ExtractImage(Response(Some([Candidate(Some(Content(Some([p] + moreParts))))] + moreCandidates)))
            == ExtractImage(Response(Some([Candidate(Some(Content(Some([p]))))])))
  {
  }
}
