/** The Google Cloud Vision client (app/services/google_vision.py): how the
    text-detection answer, or an exception raised by the SDK call, becomes
    a normalised `OCRResult`. The SDK call is not modelled; its answer is an
    input. */
module GoogleVision {
  import opened Outcomes
  import opened Schemas

  /** One text annotation; the first one is the full-page transcription. */
  datatype Annotation = Annotation(description: string)

  /** What `text_detection` produced: its annotations, or an exception. */
  datatype Reply =
    | Raised(message: string)
    | Annotated(annotations: seq<Annotation>)

  /** `extract_text`: an answer is a success whose text is the first
      annotation's description, or "" when there are no annotations; an
      exception is a failure carrying its message. */
  function ExtractText(reply: Reply, processTime: real): (r: OCRResult)
    ensures r.provider == GoogleVisionName && r.processTime == processTime
    ensures r.success <==> reply.Annotated?
    ensures r.success <==> r.error.None?
    ensures reply.Raised? ==> r.fullText == "" && r.error == Some(reply.message)
    ensures reply.Annotated? && |reply.annotations| > 0 ==> r.fullText == reply.annotations[0].description
    ensures reply.Annotated? && |reply.annotations| == 0 ==> r.fullText == ""
  {
    match reply
    case Annotated(annotations) =>
      var fullText := if |annotations| > 0 then annotations[0].description else "";
      OCRResult(GoogleVisionName, fullText, true, processTime, None)
    case Raised(message) =>
      OCRResult(GoogleVisionName, "", false, processTime, Some(message))
  }

  /** Annotations after the first never reach the result. */
  lemma OnlyFirstAnnotationRead(first: Annotation, rest1: seq<Annotation>, rest2: seq<Annotation>, processTime: real)
    ensures ExtractText(Annotated([first] + rest1), processTime) == ExtractText(Annotated([first] + rest2), processTime)
  {
  }
}
