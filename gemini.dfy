/**
 * The Gemini request helpers used by disease detection: the language-name lookup, splitting an
 * image data URL (section 3 of RFC 2397) into MIME type and payload, the request parts, the
 * classification of the service's response into a result or an error, and the extraction of the
 * JSON span from the model's reply. The HTTP exchange itself is an input.
 */
module Gemini {
  import opened Wrappers
  import opened Text

  // ---------------------------------------------------------------------------
  // Language names

  const LanguageNames: map<string, string> := map[
    "en" := "English", "hi" := "Hindi", "te" := "Telugu", "ta" := "Tamil",
    "kn" := "Kannada", "ml" := "Malayalam", "mr" := "Marathi", "gu" := "Gujarati",
    "bn" := "Bengali", "pa" := "Punjabi", "ur" := "Urdu", "or" := "Odia"
  ]

  /** `languageNameMap[code] || 'English'`: unknown codes fall back to English. */
  function LanguageName(code: string): (r: string)
    ensures code in LanguageNames ==> r == LanguageNames[code]
    ensures code !in LanguageNames ==> r == "English"
    ensures r in LanguageNames.Values
  {
    assert LanguageNames["en"] == "English";
    if code in LanguageNames then LanguageNames[code] else "English"
  }

  // ---------------------------------------------------------------------------
  // Data URLs and request parts

  /** The message V8 gives a `TypeError` for reading `prop` of `undefined`. */
  function ReadingUndefined(prop: string): string {
    "Cannot read properties of undefined (reading '" + prop + "')"
  }

  /** `url.split(',')[0].split(':')[1].split(';')[0]`; reading past the pieces of the colon split
      is `undefined`, whose `.split` throws. */
  function MimeType(url: string): (r: Result<string, string>)
    ensures r.Success? ==> ',' !in r.value && ':' !in r.value && ';' !in r.value
    ensures r.Failure? <==> ':' !in SplitField(url, ',', 0).value
    ensures r.Failure? ==> r.error == ReadingUndefined("split")
  {
    var head := SplitField(url, ',', 0).value;
    SplitSingleIff(head, ':');
    match SplitField(head, ':', 1)
    case None => Failure(ReadingUndefined("split"))
    case Some(afterColon) => Success(SplitField(afterColon, ';', 0).value)
  }

  /** `url.split(',')[1]`: the payload, `undefined` when there is no comma. */
  function Payload(url: string): (r: Option<string>)
    ensures r.Some? ==> ',' !in r.value
    ensures r.None? <==> ',' !in url
  {
    SplitSingleIff(url, ',');
    SplitField(url, ',', 1)
  }

  /** A base64 data URL with a plain MIME type and payload splits back into exactly those two. */
  lemma DataUrlRoundTrip(mime: string, payload: string)
    requires ',' !in mime && ':' !in mime && ';' !in mime
    requires ',' !in payload
    ensures MimeType("data:" + mime + ";base64," + payload) == Success(mime)
    ensures Payload("data:" + mime + ";base64," + payload) == Some(payload)
  {
    var head := "data:" + mime + ";base64";
    var afterColon := mime + ";base64";
    assert "data:" + mime + ";base64," + payload == head + [','] + payload;
    SplitTwo(head, ',', payload);
    assert head == "data" + [':'] + afterColon;
    SplitTwo("data", ':', afterColon);
    assert afterColon == mime + [';'] + "base64";
    SplitTwo(mime, ';', "base64");
  }

  /** `{ inline_data: { data, mime_type } }`; an absent payload is `undefined`. */
  datatype ImagePart = ImagePart(data: Option<string>, mimeType: string)

  datatype RequestPart = TextPart(text: string) | InlineData(image: ImagePart)

  /** `images.map(...)`: the first image whose MIME type cannot be read throws. */
  function ImageParts(images: seq<string>): (r: Result<seq<ImagePart>, string>)
    ensures r.Success? <==> forall i :: 0 <= i < |images| ==> MimeType(images[i]).Success?
    ensures r.Success? ==> |r.value| == |images|
    ensures r.Success? ==> forall i :: 0 <= i < |images| ==>
      r.value[i] == ImagePart(Payload(images[i]), MimeType(images[i]).value)
    ensures r.Failure? ==> r.error == ReadingUndefined("split")
  {
    if images == [] then Success([])
    else
      match MimeType(images[0])
      case Failure(e) => Failure(e)
      case Success(mime) =>
        match ImageParts(images[1..])
        case Failure(e) =>
          assert forall i :: 1 <= i < |images| ==> images[i] == images[1..][i - 1];
          Failure(e)
        case Success(rest) =>
          assert forall i :: 1 <= i < |images| ==> images[i] == images[1..][i - 1];
          Success([ImagePart(Payload(images[0]), mime)] + rest)
  }

  const PromptOpening: string := "\n        Identify the disease in this "
  const PromptSymptoms: string := " plant.\n        User symptoms: "
  const PromptKeys: string :=
    ".\n        Provide a JSON response with these keys: disease, confidence, symptoms (array), "
    + "treatments (array), preventiveMeasures (array).\n        The values for disease, symptoms, "
    + "treatments, and preventiveMeasures MUST be in "
  const PromptClosing: string := ".\n        Reply ONLY with valid JSON.\n    "

  /** `symptoms || 'None'`. */
  function SymptomsOrNone(symptoms: string): (r: string)
    ensures r != ""
    ensures symptoms != "" ==> r == symptoms
  {
    if symptoms == "" then "None" else symptoms
  }

  /** The prompt sent with the images: it names the crop, the symptoms (or "None") and the
      language the answer must be written in. */
  function DiseasePrompt(crop: string, symptoms: string, language: string): (r: string)
    ensures Contains(r, crop)
    ensures Contains(r, SymptomsOrNone(symptoms))
    ensures Contains(r, LanguageName(language))
  {
    SecondOfSeven(PromptOpening, crop, PromptSymptoms, SymptomsOrNone(symptoms), PromptKeys,
                  LanguageName(language), PromptClosing);
    FourthOfSeven(PromptOpening, crop, PromptSymptoms, SymptomsOrNone(symptoms), PromptKeys,
                  LanguageName(language), PromptClosing);
    SixthOfSeven(PromptOpening, crop, PromptSymptoms, SymptomsOrNone(symptoms), PromptKeys,
                 LanguageName(language), PromptClosing);
    PromptOpening + crop + PromptSymptoms + SymptomsOrNone(symptoms) + PromptKeys + LanguageName(language)
    + PromptClosing
  }

  /** The request body's parts: the prompt first, then one part per image, in order. */
  function RequestParts(prompt: string, images: seq<ImagePart>): (r: seq<RequestPart>)
    ensures |r| == 1 + |images|
    ensures r[0] == TextPart(prompt)
    ensures forall i :: 0 <= i < |images| ==> r[i + 1] == InlineData(images[i])
  {
    [TextPart(prompt)] + seq(|images|, i requires 0 <= i < |images| => InlineData(images[i]))
  }

  /** The request the analysis sends, or the error building it throws. */
  function Request(images: seq<string>, crop: string, symptoms: string, language: string)
    : (r: Result<seq<RequestPart>, string>)
    ensures r.Success? <==> ImageParts(images).Success?
    ensures r.Success? ==> |r.value| == 1 + |images|
    ensures r.Success? ==> r.value[0] == TextPart(DiseasePrompt(crop, symptoms, language))
    ensures r.Success? ==> forall i :: 0 <= i < |images| ==>
      r.value[i + 1] == InlineData(ImagePart(Payload(images[i]), MimeType(images[i]).value))
    ensures r.Success? ==> r.value == RequestParts(DiseasePrompt(crop, symptoms, language), ImageParts(images).value)
    ensures r.Failure? ==> r.error == ReadingUndefined("split")
  {
    match ImageParts(images)
    case Failure(e) => Failure(e)
    case Success(parts) => Success(RequestParts(DiseasePrompt(crop, symptoms, language), parts))
  }

  lemma SecondOfSeven(a: string, b: string, c: string, d: string, e: string, f: string, g: string)
    ensures Contains(a + b + c + d + e + f + g, b)
  {
    var tail := c + d + e + f + g;
    assert a + b + c + d + e + f + g == a + b + tail;
    ContainsMiddle(a + b + c + d + e + f + g, a, b, tail);
  }

  lemma FourthOfSeven(a: string, b: string, c: string, d: string, e: string, f: string, g: string)
    ensures Contains(a + b + c + d + e + f + g, d)
  {
    var head, tail := a + b + c, e + f + g;
    assert a + b + c + d + e + f + g == head + d + tail;
    ContainsMiddle(a + b + c + d + e + f + g, head, d, tail);
  }

  lemma SixthOfSeven(a: string, b: string, c: string, d: string, e: string, f: string, g: string)
    ensures Contains(a + b + c + d + e + f + g, f)
  {
    ContainsMiddle(a + b + c + d + e + f + g, a + b + c + d + e, f, g);
  }

  // ---------------------------------------------------------------------------
  // The service's response

  /** `error: { message }`; `None` for a missing message. */
  datatype ApiError = ApiError(message: Option<string>)

  datatype Part = Part(text: Option<string>)

  datatype Content = Content(parts: Option<seq<Part>>)

  datatype Candidate = Candidate(content: Option<Content>)

  /** A response body: text that is not JSON (with the parser's message), or a JSON object whose
      `error` and `candidates` fields are present or absent (`None` for absent or falsy). */
  datatype Body =
    | NotJson(syntaxError: string)
    | Json(error: Option<ApiError>, candidates: Option<seq<Candidate>>)

  /** One `fetch`: it rejects (network failure), or resolves to a response. */
  datatype Exchange =
    | NetworkFailure(reason: string)
    | Response(ok: bool, status: nat, body: Body)

  /** `data.candidates && data.candidates[0] && data.candidates[0].content`. */
  function FirstContent(candidates: Option<seq<Candidate>>): (r: Option<Content>)
    ensures r.Some? <==> candidates.Some? && |candidates.value| > 0 && candidates.value[0].content.Some?
    ensures r.Some? ==> r == candidates.value[0].content
  {
    if candidates.Some? && |candidates.value| > 0 then candidates.value[0].content else None
  }

  /** `content.parts[0].text`: reading through a missing `parts` or `parts[0]` throws; a part
      without text reads as `undefined` (`None`). */
  function FirstPartText(c: Content): (r: Result<Option<string>, string>)
    ensures r.Success? <==> c.parts.Some? && |c.parts.value| > 0
    ensures r.Success? ==> r.value == c.parts.value[0].text
    ensures c.parts.None? ==> r == Failure(ReadingUndefined("0"))
    ensures c.parts == Some([]) ==> r == Failure(ReadingUndefined("text"))
  {
    match c.parts
    case None => Failure(ReadingUndefined("0"))
    case Some(parts) => if |parts| == 0 then Failure(ReadingUndefined("text")) else Success(parts[0].text)
  }

  // ---------------------------------------------------------------------------
  // The JSON span of the model's reply

  /** The match of `/\{[\s\S]*\}/`: from the first `{` to the last `}`, when one follows it. */
  function JsonSpanBounds(text: string): (r: Option<(nat, nat)>)
    ensures r.Some? ==> r.value.0 < r.value.1 < |text| && text[r.value.0] == '{' && text[r.value.1] == '}'
    ensures r.Some? ==> forall k :: 0 <= k < r.value.0 ==> text[k] != '{'
    ensures r.Some? ==> forall k :: r.value.1 < k < |text| ==> text[k] != '}'
    ensures r.None? <==> !exists i, j :: 0 <= i < j < |text| && text[i] == '{' && text[j] == '}'
  {
    match (FirstIndexOfChar(text, '{'), LastIndexOfChar(text, '}'))
    case (Some(i), Some(j)) =>
      if i < j then Some((i, j))
      else
        assert forall a, b :: 0 <= a < b < |text| && text[a] == '{' && text[b] == '}' ==> i <= a && b <= j;
        None
    case _ => None
  }

  /** `jsonMatch ? jsonMatch[0] : text`. */
  function JsonSpan(text: string): (r: string)
    ensures JsonSpanBounds(text).None? ==> r == text
    ensures JsonSpanBounds(text).Some? ==>
      var (i, j) := JsonSpanBounds(text).value;
      r == text[i..j + 1] && r[0] == '{' && r[|r| - 1] == '}'
  {
    match JsonSpanBounds(text)
    case None => text
    case Some((i, j)) => text[i..j + 1]
  }

  /** The span is the longest one that can be matched: it covers every `{` ... `}` pair of the
      text, and nothing is cut from a reply that is already a braced object. */
  lemma JsonSpanCoversEveryPair(text: string, a: nat, b: nat)
    requires a < b < |text| && text[a] == '{' && text[b] == '}'
    ensures JsonSpanBounds(text).Some?
    ensures JsonSpanBounds(text).value.0 <= a && b <= JsonSpanBounds(text).value.1
  {
  }

  /** A reply wrapped in prose around a braced object yields exactly that object. */
  lemma JsonSpanStripsProse(before: string, obj: string, after: string)
    requires '{' !in before && '}' !in after
    requires |obj| >= 2 && obj[0] == '{' && obj[|obj| - 1] == '}'
    ensures JsonSpan(before + obj + after) == obj
  {
    var text := before + obj + after;
    var i := |before|;
    var j := |before| + |obj| - 1;
    assert text[i] == '{' && text[j] == '}';
    assert forall k :: 0 <= k < i ==> text[k] == before[k];
    assert forall k :: j < k < |text| ==> text[k] == after[k - |before| - |obj|];
    assert text[i..j + 1] == obj;
  }

  // ---------------------------------------------------------------------------
  // The analysis outcome

  /** The JSON answer as the page reads it. */
  datatype Analysis = Analysis(
    disease: string, confidence: string,
    symptoms: seq<string>, treatments: seq<string>, preventiveMeasures: seq<string>)

  const NoResultMessage: string := "No analysis result was returned by the AI."

  /** The response that decides the outcome: the retry's, when the first one was not OK. */
  function Effective(first: Exchange, second: Exchange): (r: Exchange)
    ensures first.Response? && !first.ok ==> r == second
    ensures !(first.Response? && !first.ok) ==> r == first
  {
    if first.Response? && !first.ok then second else first
  }

  /** The body carries `error.message` and it is not empty (so `||` keeps it). */
  predicate HasApiMessage(body: Body) {
    body.Json? && body.error.Some? && body.error.value.message.Some? && body.error.value.message.value != ""
  }

  /** The message thrown for a non-OK response: the API's error message when it has a non-empty
      one (an unparsable body reads as `{}`), else the status line. */
  function NotOkMessage(status: nat, body: Body): (r: string)
    ensures r != ""
    ensures HasApiMessage(body) ==> r == body.error.value.message.value
    ensures !HasApiMessage(body) ==> r == "API request failed with status " + NatToString(status)
  {
    if HasApiMessage(body) then body.error.value.message.value
    else "API request failed with status " + NatToString(status)
  }

  /** Reading the analysis out of an OK body; `parse` is `JSON.parse` followed by the page's
      reading of the object. */
  function ReadBody(body: Body, parse: string -> Result<Analysis, string>): (r: Result<Analysis, string>)
    ensures body.NotJson? ==> r == Failure(body.syntaxError)
    ensures body.Json? && body.error.Some? ==> r == Failure(body.error.value.message.GetOr(""))
    ensures body.Json? && body.error.None? && FirstContent(body.candidates).None? ==> r == Failure(NoResultMessage)
    ensures r.Success? ==> body.Json? && body.error.None? && FirstContent(body.candidates).Some?
    ensures body.Json? && body.error.None? && FirstContent(body.candidates).Some? ==>
      var c := FirstContent(body.candidates).value;
      && (c.parts.None? ==> r == Failure(ReadingUndefined("0")))
      && (c.parts == Some([]) ==> r == Failure(ReadingUndefined("text")))
      && (c.parts.Some? && |c.parts.value| > 0 && c.parts.value[0].text.None? ==> r == Failure(ReadingUndefined("match")))
      && (c.parts.Some? && |c.parts.value| > 0 && c.parts.value[0].text.Some? ==>
            r == parse(JsonSpan(c.parts.value[0].text.value)))
  {
    match body
    case NotJson(e) => Failure(e)
    case Json(err, candidates) =>
      if err.Some? then Failure(err.value.message.GetOr(""))
      else match FirstContent(candidates)
        case None => Failure(NoResultMessage)
        case Some(content) =>
          match FirstPartText(content)
          case Failure(e) => Failure(e)
          case Success(None) => Failure(ReadingUndefined("match"))
          case Success(Some(text)) => parse(JsonSpan(text))
  }

  /** `analyzeDiseaseImages`: a thrown error is `Failure` with its message. */
  function AnalyzeDiseaseImages(
    images: seq<string>, crop: string, symptoms: string, language: string,
    first: Exchange, second: Exchange, parse: string -> Result<Analysis, string>)
    : (r: Result<Analysis, string>)
    ensures Request(images, crop, symptoms, language).Failure? ==> r == Failure(ReadingUndefined("split"))
    ensures r.Success? ==> Effective(first, second).Response? && Effective(first, second).ok
    ensures Request(images, crop, symptoms, language).Success? ==>
      var e := Effective(first, second);
      && (e.NetworkFailure? ==> r == Failure(e.reason))
      && (e.Response? && !e.ok ==> r == Failure(NotOkMessage(e.status, e.body)))
      && (e.Response? && e.ok ==> r == ReadBody(e.body, parse))
  {
    match Request(images, crop, symptoms, language)
    case Failure(e) => Failure(e)
    case Success(_) =>
      match Effective(first, second)
      case NetworkFailure(reason) => Failure(reason)
      case Response(ok, status, body) =>
        if !ok then Failure(NotOkMessage(status, body)) else ReadBody(body, parse)
  }

  /** Once the first response is OK the retry is never consulted. */
  lemma NoRetryAfterSuccess(images: seq<string>, crop: string, symptoms: string, language: string,
                            first: Exchange, s1: Exchange, s2: Exchange, parse: string -> Result<Analysis, string>)
    requires !(first.Response? && !first.ok)
    ensures AnalyzeDiseaseImages(images, crop, symptoms, language, first, s1, parse)
         == AnalyzeDiseaseImages(images, crop, symptoms, language, first, s2, parse)
  {
  }

  /** Two non-OK responses fail with the API's message or the status line. */
  lemma TwoFailuresReportStatus(images: seq<string>, crop: string, symptoms: string, language: string,
                                first: Exchange, second: Exchange, parse: string -> Result<Analysis, string>)
    requires ImageParts(images).Success?
    requires first.Response? && !first.ok && second.Response? && !second.ok
    ensures AnalyzeDiseaseImages(images, crop, symptoms, language, first, second, parse)
         == Failure(NotOkMessage(second.status, second.body))
    ensures second.body.NotJson? ==>
      AnalyzeDiseaseImages(images, crop, symptoms, language, first, second, parse)
      == Failure("API request failed with status " + NatToString(second.status))
  {
  }

  /** An OK reply whose first part carries text yields exactly what parsing its JSON span gives. */
  lemma SuccessParsesSpan(images: seq<string>, crop: string, symptoms: string, language: string,
                          first: Exchange, second: Exchange, parse: string -> Result<Analysis, string>,
                          text: string)
    requires ImageParts(images).Success?
    requires var e := Effective(first, second);
      && e.Response? && e.ok && e.body.Json? && e.body.error.None?
      && FirstContent(e.body.candidates).Some?
      && FirstPartText(FirstContent(e.body.candidates).value) == Success(Some(text))
    ensures AnalyzeDiseaseImages(images, crop, symptoms, language, first, second, parse) == parse(JsonSpan(text))
  {
  }

  /** An OK, error-free reply without a first candidate's content fails with the "no analysis
      result" message. */
  lemma NoContentFails(images: seq<string>, crop: string, symptoms: string, language: string,
                       first: Exchange, second: Exchange, parse: string -> Result<Analysis, string>)
    requires ImageParts(images).Success?
    requires Effective(first, second).Response? && Effective(first, second).ok
    requires Effective(first, second).body.Json?
    requires Effective(first, second).body.error.None?
    requires FirstContent(Effective(first, second).body.candidates).None?
    ensures AnalyzeDiseaseImages(images, crop, symptoms, language, first, second, parse) == Failure(NoResultMessage)
  {
  }
}
