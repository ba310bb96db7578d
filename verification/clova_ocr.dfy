/** The Naver Clova OCR client (app/services/clova_ocr.py): how one reply of
    the Clova REST endpoint, or an exception raised while calling it,
    becomes a normalised `OCRResult`. The request itself (base64 payload,
    request id, secret header) is I/O and not modelled; the reply is an
    input. */
module ClovaOcr {
  import opened Outcomes
  import opened Text
  import opened Schemas

  /** One recognised field; `inferText` may be missing from the JSON. */
  datatype Field = Field(inferText: Option<string>)

  /** One image entry of the reply; `fields` may be missing or null. */
  datatype Image = Image(fields: Option<seq<Field>>)

  /** The decoded JSON body; `images` may be missing or null. */
  datatype Document = Document(images: Option<seq<Image>>)

  /** What the HTTP call produced: an exception (connection, encoding, ...)
      or a response with a status, a body text and the outcome of decoding
      that body as JSON, which is attempted only for status 200. */
  datatype Reply =
    | Raised(message: string)
    | Http(status: nat, body: string, json: Result<Document, string>)

  const NoTextDetected := "No text detected"

  /** The error text for a non-200 response. */
  function ApiErrorMessage(status: nat, body: string): string {
    "API Error: " + Decimal(status) + " - " + body
  }

  /** The fields of the first image, when that image has a non-empty field
      list; every other image is ignored. */
  function DetectedFields(doc: Document): Option<seq<Field>> {
    var images := doc.images.GetOr([]);
    if |images| > 0 && images[0].fields.Some? && |images[0].fields.value| > 0
    then Some(images[0].fields.value)
    else None
  }

  /** Each field's `inferText`, with "" for a field that has none. */
  function FieldTexts(fields: seq<Field>): (texts: seq<string>)
    ensures |texts| == |fields|
    ensures forall i :: 0 <= i < |fields| ==> texts[i] == fields[i].inferText.GetOr("")
  {
    seq(|fields|, i requires 0 <= i < |fields| => fields[i].inferText.GetOr(""))
  }

  /** `extract_text`: a 200 reply whose first image has fields succeeds with
      the field texts joined by single spaces; a 200 reply without any is
      the distinct failure "No text detected"; any other status is an API
      error quoting status and body; an exception becomes its message. */
  function ExtractText(reply: Reply, processTime: real): (r: OCRResult)
    ensures r.provider == NaverClovaName && r.processTime == processTime
    ensures r.success <==> r.error.None?
    ensures !r.success ==> r.fullText == ""
    ensures r.success <==>
      reply.Http? && reply.status == 200 && reply.json.Ok? && DetectedFields(reply.json.value).Some?
    ensures r.success ==>
      reply.Http? && reply.json.Ok? && DetectedFields(reply.json.value).Some? &&
      r.fullText == Join(FieldTexts(DetectedFields(reply.json.value).value))
    ensures reply.Http? && reply.status == 200 && reply.json.Ok? && DetectedFields(reply.json.value).None? ==>
      r.error == Some(NoTextDetected)
    ensures reply.Http? && reply.status != 200 ==> r.error == Some(ApiErrorMessage(reply.status, reply.body))
    ensures reply.Http? && reply.status == 200 && reply.json.Err? ==> r.error == Some(reply.json.error)
    ensures reply.Raised? ==> r.error == Some(reply.message)
  {
    match reply
    case Raised(message) => Failed(message, processTime)
    case Http(status, body, json) =>
      if status == 200 then
        match json
        case Err(message) => Failed(message, processTime)
        case Ok(doc) =>
          match DetectedFields(doc)
          case Some(fields) =>
            OCRResult(NaverClovaName, Join(FieldTexts(fields)), true, processTime, None)
          case None => Failed(NoTextDetected, processTime)
      else
        Failed(ApiErrorMessage(status, body), processTime)
  }

  function Failed(message: string, processTime: real): OCRResult {
    OCRResult(NaverClovaName, "", false, processTime, Some(message))
  }

  /** When no field text contains a space, the joined text splits back into
      exactly the field texts, in the order the reply listed them. */
  lemma TextRecoversFields(doc: Document, body: string, processTime: real)
    requires DetectedFields(doc).Some?
    requires forall f :: f in DetectedFields(doc).value ==> ' ' !in f.inferText.GetOr("")
    ensures var r := ExtractText(Http(200, body, Ok(doc)), processTime);
            r.success && Split(r.fullText) == FieldTexts(DetectedFields(doc).value)
  {
    var fields := DetectedFields(doc).value;
    var texts := FieldTexts(fields);
    forall i | 0 <= i < |texts|
      ensures ' ' !in texts[i]
    {
      assert fields[i] in fields;
    }
    SplitJoin(texts);
  }

  /** A field without `inferText` contributes an empty piece, so two
      separators end up next to each other. */
  lemma MissingTextGivesDoubleSpace(a: string, b: string, body: string, processTime: real)
    ensures var doc := Document(Some([Image(Some([Field(Some(a)), Field(None), Field(Some(b))]))]));
            ExtractText(Http(200, body, Ok(doc)), processTime).fullText == a + "  " + b
  {
    var fields := [Field(Some(a)), Field(None), Field(Some(b))];
    var texts := [a, "", b];
    assert FieldTexts(fields) == texts;
    assert texts[1..] == ["", b] && texts[1..][1..] == [b];
    assert Join(["", b]) == " " + b;
    assert Join(texts) == a + " " + " " + b;
  }

  /** Only the first image is read: whatever follows it does not matter. */
  lemma OnlyFirstImageRead(first: Image, rest1: seq<Image>, rest2: seq<Image>, body: string, processTime: real)
    ensures ExtractText(Http(200, body, Ok(Document(Some([first] + rest1)))), processTime)
         == ExtractText(Http(200, body, Ok(Document(Some([first] + rest2)))), processTime)
  {
  }

  /** No images, a missing or null `images` key, or a first image without
      fields all give the same "No text detected" failure. */
  lemma NothingDetectedIsFailure(images: Option<seq<Image>>, body: string, processTime: real)
    requires images.None? || |images.value| == 0 || images.value[0].fields.None? || images.value[0].fields.value == []
    ensures ExtractText(Http(200, body, Ok(Document(images))), processTime)
         == OCRResult(NaverClovaName, "", false, processTime, Some(NoTextDetected))
  {
  }

  /** A non-200 reply's error names the status: two different statuses
      never produce the same error text for the same body. */
  lemma ApiErrorNamesStatus(s1: nat, s2: nat, body: string)
    requires ApiErrorMessage(s1, body) == ApiErrorMessage(s2, body)
    ensures s1 == s2
  {
    var p := "API Error: ";
    var m1 := ApiErrorMessage(s1, body);
    var m2 := ApiErrorMessage(s2, body);
    assert m1 == p + (Decimal(s1) + (" - " + body));
    assert m2 == p + (Decimal(s2) + (" - " + body));
    assert m1[|p|..] == Decimal(s1) + (" - " + body);
    assert m2[|p|..] == Decimal(s2) + (" - " + body);
    DigitsThenSeparator(Decimal(s1), Decimal(s2), " - " + body);
    DecimalInjective(s1, s2);
  }

  /** Two digit strings each followed by the same non-digit tail are equal
      when the concatenations are. */
  lemma DigitsThenSeparator(d1: string, d2: string, tail: string)
    requires AllDigits(d1) && AllDigits(d2)
    requires |tail| > 0 && !IsDigit(tail[0])
    requires d1 + tail == d2 + tail
    ensures d1 == d2
  {
    assert d1 == (d1 + tail)[..|d1|];
    assert d2 == (d2 + tail)[..|d2|];
  }
}
