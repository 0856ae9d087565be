/**
 * The document-analysis request to the OpenRouter chat endpoint: the request parts built from the
 * page images, the classification of the HTTP reply, the unwrapping of a fenced JSON answer, and
 * the error mapping of the surrounding do/catch.
 *
 * JPEG and base64 encoding, JSON coding and the transport are foreign; they are the fields of a
 * `Backend` value. The encoded payload is an opaque string.
 */
module LLMService {
  import opened Wrappers
  import opened DocumentProcessor

  /** An error raised by foreign code (URLSession, JSONDecoder), with the description it carries. */
  datatype ForeignError = TransportError(description: string) | DecodingError(description: string)

  datatype LLMError =
    | InvalidResponse
    | NetworkError(cause: ForeignError)
    | ProcessingError
    | MissingAPIKey
    | ApiError(message: string)

  /** `errorDescription`; a foreign error's `localizedDescription` is its description. */
  function ErrorDescription(e: LLMError): (text: string) {
    match e
    case InvalidResponse => "Invalid response from LLM service"
    case NetworkError(cause) => "Network error: " + cause.description
    case ProcessingError => "Error processing document"
    case MissingAPIKey => "API key is missing"
    case ApiError(message) => "API error: " + message
  }

  /**
   * The description tells the cases apart: equal descriptions mean the same case, and the same
   * error unless both are network errors, whose descriptions only carry the cause's description.
   */
  lemma ErrorDescriptionIdentifiesCase(a: LLMError, b: LLMError)
    requires ErrorDescription(a) == ErrorDescription(b)
    ensures a.NetworkError? <==> b.NetworkError?
    ensures a.NetworkError? ==> a.cause.description == b.cause.description
    ensures !a.NetworkError? ==> a == b
  {
    var d := ErrorDescription(a);
    assert d[0] == (if a.InvalidResponse? then 'I' else if a.NetworkError? then 'N'
                    else if a.ProcessingError? then 'E' else 'A');
    assert d[0] == (if b.InvalidResponse? then 'I' else if b.NetworkError? then 'N'
                    else if b.ProcessingError? then 'E' else 'A');
    if a.MissingAPIKey? || a.ApiError? {
      assert d[4] == (if a.MissingAPIKey? then 'k' else 'e');
      assert d[4] == (if b.MissingAPIKey? then 'k' else 'e');
    }
    if a.NetworkError? {
      assert a.cause.description == d[|"Network error: "|..];
      assert b.cause.description == d[|"Network error: "|..];
    }
    if a.ApiError? {
      assert a.message == d[|"API error: "|..];
      assert b.message == d[|"API error: "|..];
    }
  }

  /** The description of an API error gives back its message, and those of different messages differ. */
  lemma ApiErrorDescriptionKeepsMessage(a: string, b: string)
    ensures ErrorDescription(ApiError(a))[|"API error: "|..] == a
    ensures ErrorDescription(ApiError(a)) == ErrorDescription(ApiError(b)) ==> a == b
  {
    assert ErrorDescription(ApiError(a))[|"API error: "|..] == a;
    assert ErrorDescription(ApiError(b))[|"API error: "|..] == b;
  }

  // ---------------------------------------------------------------------------
  // Request parts
  // ---------------------------------------------------------------------------

  datatype ImageUrlDetail = ImageUrlDetail(url: string)

  /** One element of the message's `content` array. */
  datatype ContentPart = ContentPart(partType: string, text: Option<string>, imageUrl: Option<ImageUrlDetail>)

  /** The text initialiser, with its default type "text". */
  function TextPart(text: string): ContentPart {
    ContentPart("text", Some(text), None)
  }

  /** The image initialiser, with the type "image_url". */
  function ImagePart(imageUrl: ImageUrlDetail): ContentPart {
    ContentPart("image_url", None, Some(imageUrl))
  }

  /** A part built by either initialiser carries exactly one of text and image URL, as its type says. */
  lemma PartsCarryOnePayload(text: string, imageUrl: ImageUrlDetail)
    ensures TextPart(text).text == Some(text) && TextPart(text).imageUrl.None?
    ensures ImagePart(imageUrl).imageUrl == Some(imageUrl) && ImagePart(imageUrl).text.None?
    ensures TextPart(text).partType != ImagePart(imageUrl).partType
  {
    assert TextPart(text).partType[0] != ImagePart(imageUrl).partType[0];
  }

  const DataUrlPrefix: string := "data:image/jpeg;base64,"

  /** A data URL (section 3 of RFC 2397) of base64-encoded JPEG data. */
  function JpegDataUrl(payload: string): (url: string) {
    DataUrlPrefix + payload
  }

  /** The payload can be read back from the data URL, so distinct images give distinct URLs. */
  lemma JpegDataUrlPayload(payload: string, other: string)
    ensures JpegDataUrl(payload)[..|DataUrlPrefix|] == DataUrlPrefix
    ensures JpegDataUrl(payload)[|DataUrlPrefix|..] == payload
    ensures JpegDataUrl(payload) == JpegDataUrl(other) ==> payload == other
  {
    assert JpegDataUrl(payload)[|DataUrlPrefix|..] == payload;
    assert JpegDataUrl(other)[|DataUrlPrefix|..] == other;
  }

  const Prompt: string :=
    "Analyze these document images and provide:\n" +
    "1. A concise summary of the content\n" +
    "2. A suitable title for the document\n" +
    "\n" +
    "Format your response as JSON with two fields:\n" +
    "{\n" +
    "    \"summary\": \"your summary here\",\n" +
    "    \"title\": \"your title here\"\n" +
    "}"

  /** `compactMap` of the JPEG-then-base64 encoding over the images. */
  function EncodedImages(images: seq<UIImage>, encode: UIImage -> Option<string>): (payloads: seq<string>)
    ensures |payloads| <= |images|
  {
    if images == [] then []
    else
      var rest := EncodedImages(images[1..], encode);
      match encode(images[0])
      case Some(payload) => [payload] + rest
      case None => rest
  }

  /** Nothing is lost or invented: every payload is some image's encoding, and each image that encodes contributes one. */
  lemma {:induction false} EncodedImagesComplete(images: seq<UIImage>, encode: UIImage -> Option<string>)
    ensures forall p :: p in EncodedImages(images, encode) <==>
      exists k :: 0 <= k < |images| && encode(images[k]) == Some(p)
    ensures |EncodedImages(images, encode)| == |images| <==> forall k :: 0 <= k < |images| ==> encode(images[k]).Some?
  {
    if images != [] {
      EncodedImagesComplete(images[1..], encode);
      if forall k :: 0 <= k < |images| - 1 ==> encode(images[1..][k]).Some? {
        assert forall k :: 1 <= k < |images| ==> encode(images[k]).Some? by {
          forall k | 1 <= k < |images| ensures encode(images[k]).Some? {
            assert images[k] == images[1..][k - 1];
          }
        }
      } else {
        var k :| 0 <= k < |images| - 1 && encode(images[1..][k]).None?;
        assert encode(images[k + 1]).None?;
      }
      forall p | exists k :: 0 <= k < |images| && encode(images[k]) == Some(p)
        ensures p in EncodedImages(images, encode)
      {
        var k :| 0 <= k < |images| && encode(images[k]) == Some(p);
        if k > 0 {
          assert encode(images[1..][k - 1]) == Some(p);
        }
      }
      forall p | p in EncodedImages(images, encode)
        ensures exists k :: 0 <= k < |images| && encode(images[k]) == Some(p)
      {
        if p in EncodedImages(images[1..], encode) {
          var k :| 0 <= k < |images| - 1 && encode(images[1..][k]) == Some(p);
          assert encode(images[k + 1]) == Some(p);
        } else {
          assert encode(images[0]) == Some(p);
        }
      }
    }
  }

  /** An image that encodes to nothing adds nothing; one that encodes adds its payload, in order. */
  lemma EncodedImagesAppend(images: seq<UIImage>, image: UIImage, encode: UIImage -> Option<string>)
    ensures EncodedImages(images + [image], encode) ==
      EncodedImages(images, encode) + (if encode(image).Some? then [encode(image).value] else [])
    decreases |images|
  {
    if images != [] {
      assert (images + [image])[1..] == images[1..] + [image];
    }
  }

  /**
   * The `contentParts` loop: the prompt's text part first, then one image part per payload, in
   * payload order.
   */
  method BuildContentParts(prompt: string, payloads: seq<string>) returns (parts: seq<ContentPart>)
    ensures |parts| == |payloads| + 1
    ensures parts[0] == TextPart(prompt)
    ensures forall k :: 0 <= k < |payloads| ==> parts[k + 1] == ImagePart(ImageUrlDetail(JpegDataUrl(payloads[k])))
    ensures parts == RequestParts(prompt, payloads)
  {
    parts := [];
    parts := parts + [TextPart(prompt)];
    for i := 0 to |payloads|
      invariant |parts| == i + 1
      invariant parts[0] == TextPart(prompt)
      invariant forall k :: 0 <= k < i ==> parts[k + 1] == ImagePart(ImageUrlDetail(JpegDataUrl(payloads[k])))
    {
      var imageUrlDetail := ImageUrlDetail(JpegDataUrl(payloads[i]));
      parts := parts + [ImagePart(imageUrlDetail)];
    }
    assert forall k :: 0 <= k < |parts| ==> parts[k] == RequestParts(prompt, payloads)[k];
  }

  /** The parts the loop above builds, as one value: the prompt's part, then the pages' parts. */
  function RequestParts(prompt: string, payloads: seq<string>): seq<ContentPart> {
    [TextPart(prompt)] + seq(|payloads|, k requires 0 <= k < |payloads| => ImagePart(ImageUrlDetail(JpegDataUrl(payloads[k]))))
  }

  // ---------------------------------------------------------------------------
  // Reply status
  // ---------------------------------------------------------------------------

  function DigitChar(d: nat): char
    requires d < 10
  {
    "0123456789"[d]
  }

  /** Decimal digits of a natural number, most significant first, without leading zeros. */
  function NatToString(n: nat): (s: string)
    ensures |s| >= 1
    ensures forall k :: 0 <= k < |s| ==> '0' <= s[k] <= '9'
    decreases n
  {
    if n < 10 then [DigitChar(n)] else NatToString(n / 10) + [DigitChar(n % 10)]
  }

  /** Swift's `"\(n)"` of an Int. */
  function IntToString(n: int): string {
    if n < 0 then "-" + NatToString(-n) else NatToString(n)
  }

  function DigitsValue(s: string): nat
    requires forall k :: 0 <= k < |s| ==> '0' <= s[k] <= '9'
  {
    if s == [] then 0 else DigitsValue(s[..|s| - 1]) * 10 + (s[|s| - 1] as int - '0' as int)
  }

  lemma {:induction false} NatToStringRoundTrip(n: nat)
    ensures DigitsValue(NatToString(n)) == n
    decreases n
  {
    var s := NatToString(n);
    if n >= 10 {
      NatToStringRoundTrip(n / 10);
      assert s[..|s| - 1] == NatToString(n / 10);
    }
  }

  lemma NatToStringInjective(m: nat, n: nat)
    requires NatToString(m) == NatToString(n)
    ensures m == n
  {
    NatToStringRoundTrip(m);
    NatToStringRoundTrip(n);
  }

  /** The sign shows in the first character. */
  lemma IntToStringSign(a: int)
    ensures |IntToString(a)| >= 1
    ensures a < 0 <==> IntToString(a)[0] == '-'
  {
    if a >= 0 {
      assert '0' <= NatToString(a)[0];
    }
  }

  lemma IntToStringInjective(a: int, b: int)
    requires IntToString(a) == IntToString(b)
    ensures a == b
  {
    var sa, sb := IntToString(a), IntToString(b);
    IntToStringSign(a);
    IntToStringSign(b);
    if a < 0 {
      assert b < 0;
      assert NatToString(-a) == sa[1..] && NatToString(-b) == sb[1..];
      NatToStringInjective(-a, -b);
    } else {
      assert b >= 0;
      NatToStringInjective(a, b);
    }
  }

  /** Different status codes give different "HTTP <code>" messages. */
  lemma StatusTextInjective(a: int, b: int)
    requires "HTTP " + IntToString(a) == "HTTP " + IntToString(b)
    ensures a == b
  {
    assert IntToString(a) == ("HTTP " + IntToString(a))[5..];
    assert IntToString(b) == ("HTTP " + IntToString(b))[5..];
    IntToStringInjective(a, b);
  }

  /**
   * The HTTP check: a status outside 200...299 is an `apiError` with the decoded error message,
   * or "HTTP <code>" when the body is not an error document; a reply that is not HTTP is not checked.
   */
  function StatusError(httpStatus: Option<int>, decodedMessage: Option<string>): (error: Option<LLMError>)
    ensures error.None? <==> (httpStatus.None? || 200 <= httpStatus.value <= 299)
    ensures error.Some? ==> error.value.ApiError?
    ensures error.Some? && decodedMessage.Some? ==> error.value.message == decodedMessage.value
    ensures error.Some? && decodedMessage.None? ==> error.value.message == "HTTP " + IntToString(httpStatus.value)
  {
    match httpStatus
    case None => None
    case Some(status) =>
      if 200 <= status <= 299 then None
      else match decodedMessage
        case Some(message) => Some(ApiError(message))
        case None => Some(ApiError("HTTP " + IntToString(status)))
  }

  // ---------------------------------------------------------------------------
  // Fence stripping
  // ---------------------------------------------------------------------------

  const OpeningFence: string := "```json\n"
  const ClosingFence: string := "\n```"

  predicate HasPrefix(s: string, p: string) {
    |p| <= |s| && s[..|p|] == p
  }

  predicate HasSuffix(s: string, p: string) {
    |p| <= |s| && s[|s| - |p|..] == p
  }

  /** A leading opening fence removed once, then a trailing closing fence removed once. */
  function FenceStripped(content: string): string {
    var afterOpening := if HasPrefix(content, OpeningFence) then content[|OpeningFence|..] else content;
    if HasSuffix(afterOpening, ClosingFence) then afterOpening[..|afterOpening| - |ClosingFence|]
    else afterOpening
  }

  /** The two `if`s that reassign `content`. */
  method StripCodeFence(content: string) returns (stripped: string)
    ensures stripped == FenceStripped(content)
  {
    stripped := content;
    if HasPrefix(stripped, OpeningFence) {
      stripped := stripped[|OpeningFence|..];
    }
    if HasSuffix(stripped, ClosingFence) {
      stripped := stripped[..|stripped| - |ClosingFence|];
    }
  }

  /** A fenced answer comes out as exactly what was inside the fences. */
  lemma FenceStrippedRoundTrip(s: string)
    ensures FenceStripped(OpeningFence + s + ClosingFence) == s
  {
    var fenced := OpeningFence + s + ClosingFence;
    assert fenced[..|OpeningFence|] == OpeningFence;
    assert fenced[|OpeningFence|..] == s + ClosingFence;
    assert (s + ClosingFence)[|s|..] == ClosingFence;
    assert (s + ClosingFence)[..|s|] == s;
  }

  /** Content that neither starts nor ends with a fence is left alone. */
  lemma FenceStrippedUnfenced(content: string)
    requires !HasPrefix(content, OpeningFence) && !HasSuffix(content, ClosingFence)
    ensures FenceStripped(content) == content
  {
  }

  /**
   * The result is a slice of the content, shorter by 0, 4, 8 or 12 characters: by 8 exactly when
   * the opening fence was there, plus 4 when a closing fence followed it.
   */
  lemma FenceStrippedSlice(content: string)
    ensures var r := FenceStripped(content);
      var start := if HasPrefix(content, OpeningFence) then |OpeningFence| else 0;
      && |content| - |r| in {0, 4, 8, 12}
      && start + |r| <= |content|
      && r == content[start..start + |r|]
  {
  }

  /** Only one opening fence goes: a doubled one leaves the inner fence in place. */
  lemma FenceStrippedOnce(s: string)
    requires !HasSuffix(OpeningFence + s, ClosingFence)
    ensures FenceStripped(OpeningFence + OpeningFence + s) == OpeningFence + s
  {
    var content := OpeningFence + OpeningFence + s;
    assert content[..|OpeningFence|] == OpeningFence;
    assert content[|OpeningFence|..] == OpeningFence + s;
  }

  // ---------------------------------------------------------------------------
  // The exchange and its error mapping
  // ---------------------------------------------------------------------------

  /** What a `catch` clause receives: an `LLMError` thrown inside the `do`, or a foreign error. */
  datatype CaughtError = Thrown(error: LLMError) | Foreign(cause: ForeignError)

  /** `catch let error as LLMError { throw error } catch { throw .networkError(error) }`. */
  function Rethrown(caught: CaughtError): (error: LLMError)
    ensures caught.Thrown? ==> error == caught.error
    ensures caught.Foreign? ==> error == NetworkError(caught.cause)
  {
    match caught
    case Thrown(e) => e
    case Foreign(cause) => NetworkError(cause)
  }

  /** Passing an error through the catch clauses twice changes nothing more than passing it once. */
  lemma RethrownIdempotent(caught: CaughtError)
    ensures Rethrown(Thrown(Rethrown(caught))) == Rethrown(caught)
    ensures Rethrown(caught).NetworkError? || caught.Thrown?
  {
  }

  /** An HTTP-level reply: the status code when it is an HTTPURLResponse, and the body. */
  datatype Reply = Reply(httpStatus: Option<int>, body: Data)

  /** The parsed answer. */
  datatype Analysis = Analysis(summary: string, title: string)

  /**
   * The foreign half: JPEG/base64 encoding of a page, whether JSON-encoding the request throws,
   * the transport, and the three JSON decodings (error document, chat reply to its choices'
   * message contents, the answer object).
   */
  datatype Backend = Backend(
    encode: UIImage -> Option<string>,
    requestEncodingFails: bool,
    send: seq<ContentPart> -> Result<Reply, ForeignError>,
    decodeErrorMessage: Data -> Option<string>,
    decodeChoices: Data -> Result<seq<string>, ForeignError>,
    decodeAnswer: string -> Option<Analysis>)

  /** What the `do` block from the request onwards ends with, as a value. */
  function ExchangeOutcome(backend: Backend, parts: seq<ContentPart>): Result<Analysis, CaughtError> {
    match backend.send(parts)
    case Failure(cause) => Failure(Foreign(cause))
    case Success(reply) =>
      match StatusError(reply.httpStatus, backend.decodeErrorMessage(reply.body))
      case Some(error) => Failure(Thrown(error))
      case None =>
        match backend.decodeChoices(reply.body)
        case Failure(cause) => Failure(Foreign(cause))
        case Success(choices) =>
          if choices == [] then Failure(Thrown(InvalidResponse))
          else match backend.decodeAnswer(FenceStripped(choices[0]))
            case None => Failure(Thrown(InvalidResponse))
            case Some(answer) => Success(answer)
  }

  /** The `do` block from the request onwards: any error leaves it as a `CaughtError`. */
  method Exchange(backend: Backend, parts: seq<ContentPart>) returns (outcome: Result<Analysis, CaughtError>)
    ensures outcome == ExchangeOutcome(backend, parts)
    ensures backend.send(parts).Failure? ==> outcome == Failure(Foreign(backend.send(parts).error))
    ensures backend.send(parts).Success? ==>
      var reply := backend.send(parts).value;
      var statusError := StatusError(reply.httpStatus, backend.decodeErrorMessage(reply.body));
      && (statusError.Some? ==> outcome == Failure(Thrown(statusError.value)))
      && (statusError.None? && backend.decodeChoices(reply.body).Failure? ==>
            outcome == Failure(Foreign(backend.decodeChoices(reply.body).error)))
      && (statusError.None? && backend.decodeChoices(reply.body) == Success([]) ==>
            outcome == Failure(Thrown(InvalidResponse)))
      && (statusError.None? && backend.decodeChoices(reply.body).Success? && backend.decodeChoices(reply.body).value != [] ==>
            var answer := backend.decodeAnswer(FenceStripped(backend.decodeChoices(reply.body).value[0]));
            outcome == if answer.Some? then Success(answer.value) else Failure(Thrown(InvalidResponse)))
  {
    var sent := backend.send(parts);
    if sent.Failure? {
      return Failure(Foreign(sent.error));
    }
    var reply := sent.value;
    var statusError := StatusError(reply.httpStatus, backend.decodeErrorMessage(reply.body));
    if statusError.Some? {
      return Failure(Thrown(statusError.value));
    }
    var decoded := backend.decodeChoices(reply.body);
    if decoded.Failure? {
      return Failure(Foreign(decoded.error));
    }
    var choices := decoded.value;
    if choices == [] {
      return Failure(Thrown(InvalidResponse));
    }
    var content := StripCodeFence(choices[0]);
    var answer := backend.decodeAnswer(content);
    if answer.None? {
      return Failure(Thrown(InvalidResponse));
    }
    return Success(answer.value);
  }

  /**
   * `analyzeDocument`: no encodable page, or a request that cannot be JSON-encoded, is a
   * `processingError` before anything is sent; otherwise the exchange's errors pass the catch clauses.
   */
  method AnalyzeDocument(images: seq<UIImage>, backend: Backend) returns (result: Result<Analysis, LLMError>)
    ensures result == Analyzed(images, backend)
    ensures EncodedImages(images, backend.encode) == [] ==> result == Failure(ProcessingError)
    ensures EncodedImages(images, backend.encode) != [] && backend.requestEncodingFails ==> result == Failure(ProcessingError)
    // Once both guards pass, the request carries exactly the prompt and the encodable pages, and
    // the exchange's outcome reaches the caller through the catch clauses.
    ensures EncodedImages(images, backend.encode) != [] && !backend.requestEncodingFails ==>
      var outcome := ExchangeOutcome(backend, RequestParts(Prompt, EncodedImages(images, backend.encode)));
      && (outcome.Failure? ==> result == Failure(Rethrown(outcome.error)))
      && (outcome.Success? ==> result == Success(outcome.value))
    ensures result.Failure? && result.error == ProcessingError ==>
      EncodedImages(images, backend.encode) == [] || backend.requestEncodingFails
    ensures result.Failure? ==> !result.error.MissingAPIKey?
  {
    var imageData := EncodedImages(images, backend.encode);
    if imageData == [] {
      return Failure(ProcessingError);
    }
    var contentParts := BuildContentParts(Prompt, imageData);
    if backend.requestEncodingFails {
      return Failure(ProcessingError);
    }
    var outcome := Exchange(backend, contentParts);
    if outcome.Failure? {
      return Failure(Rethrown(outcome.error));
    }
    return Success(outcome.value);
  }

  /** What `analyzeDocument` returns or throws, as a value. */
  function Analyzed(images: seq<UIImage>, backend: Backend): Result<Analysis, LLMError> {
    var payloads := EncodedImages(images, backend.encode);
    if payloads == [] || backend.requestEncodingFails then Failure(ProcessingError)
    else match ExchangeOutcome(backend, RequestParts(Prompt, payloads))
      case Failure(caught) => Failure(Rethrown(caught))
      case Success(analysis) => Success(analysis)
  }

  /**
   * How each failure of the exchange reaches the caller of `analyzeDocument`: a transport or
   * chat-reply decoding error becomes `networkError`, a non-2xx status is the same `apiError`,
   * and an empty choice list or an undecodable answer is `invalidResponse`. A success is the
   * answer decoded from the fence-stripped first choice.
   */
  lemma AnalyzedOutcomes(images: seq<UIImage>, backend: Backend)
    requires EncodedImages(images, backend.encode) != [] && !backend.requestEncodingFails
    ensures var parts := RequestParts(Prompt, EncodedImages(images, backend.encode));
      var result := Analyzed(images, backend);
      && (backend.send(parts).Failure? ==> result == Failure(NetworkError(backend.send(parts).error)))
      && (backend.send(parts).Success? ==>
            var reply := backend.send(parts).value;
            var statusError := StatusError(reply.httpStatus, backend.decodeErrorMessage(reply.body));
            && (statusError.Some? ==> result == Failure(statusError.value))
            && (statusError.None? && backend.decodeChoices(reply.body).Failure? ==>
                  result == Failure(NetworkError(backend.decodeChoices(reply.body).error)))
            && (statusError.None? && backend.decodeChoices(reply.body) == Success([]) ==>
                  result == Failure(InvalidResponse))
            && (statusError.None? && backend.decodeChoices(reply.body).Success? && backend.decodeChoices(reply.body).value != [] ==>
                  var answer := backend.decodeAnswer(FenceStripped(backend.decodeChoices(reply.body).value[0]));
                  result == if answer.Some? then Success(answer.value) else Failure(InvalidResponse)))
  {
  }

  /** A 500 reply whose error document decodes reaches the caller as that message. */
  lemma ServerErrorMessageReachesCaller(images: seq<UIImage>, backend: Backend, body: Data, message: string)
    requires EncodedImages(images, backend.encode) != [] && !backend.requestEncodingFails
    requires backend.send(RequestParts(Prompt, EncodedImages(images, backend.encode))) == Success(Reply(Some(500), body))
    requires backend.decodeErrorMessage(body) == Some(message)
    ensures Analyzed(images, backend) == Failure(ApiError(message))
  {
  }
}
