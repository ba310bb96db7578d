/** The HTTP handlers (app/api/ocr.py) as pure functions of their inputs
    and of what the calls they make produced: upload validation, the
    500 path, and the `sheet_info` policy of POST /compare; the content-type
    check of the two single-provider endpoints. Routing, multipart parsing
    and JSON serialisation are not modelled. */
module OcrApi {
  import opened Outcomes
  import opened Text
  import opened Settings
  import opened Schemas
  import GoogleSheets
  import Comparator
  import ClovaOcr
  import GoogleVision

  const DefaultSheetName := "OCR Comparison"
  const NotImageDetail := "File must be an image"
  const TooLargeDetail := "File size exceeds 10MB limit"
  const NotRequestedMessage := "Not requested to save to sheet"

  /** The uploaded file as the handler sees it. */
  datatype Upload = Upload(filename: string, contentType: string, size: nat)

  /** A handler's answer: a 200 body, or an HTTPException with status and detail. */
  datatype HttpResult<T> = Respond(body: T) | Reject(status: nat, detail: string)

  predicate IsImageContentType(contentType: string) {
    StartsWith(contentType, "image/")
  }

  /** The 400 detail for an upload POST /compare refuses, if any: the
      content type is checked first, then the size against the ceiling. */
  function UploadError(upload: Upload): (r: Option<string>)
    ensures r.None? <==> IsImageContentType(upload.contentType) && upload.size <= MaxFileSize
    ensures !IsImageContentType(upload.contentType) ==> r == Some(NotImageDetail)
    ensures IsImageContentType(upload.contentType) && upload.size > MaxFileSize ==> r == Some(TooLargeDetail)
  {
    if !IsImageContentType(upload.contentType) then Some(NotImageDetail)
    else if upload.size > MaxFileSize then Some(TooLargeDetail)
    else None
  }

  /** A file of exactly 10 MiB passes; one byte more does not. */
  lemma SizeLimitIsInclusive(filename: string, contentType: string)
    requires IsImageContentType(contentType)
    ensures UploadError(Upload(filename, contentType, 10 * 1024 * 1024)).None?
    ensures UploadError(Upload(filename, contentType, 10 * 1024 * 1024 + 1)) == Some(TooLargeDetail)
  {
  }

  datatype CompareRequest = CompareRequest(upload: Upload, saveToSheet: bool, sheetName: string)

  /** The request as FastAPI builds it from the posted form: an omitted
      `save_to_sheet` is False, and an omitted or empty `sheet_name` is
      "OCR Comparison" (FastAPI reads an empty form value as absent), so the
      worksheet name is never empty. */
  function FormRequest(upload: Upload, saveToSheet: Option<bool>, sheetName: Option<string>): (req: CompareRequest)
    ensures req.upload == upload
    ensures req.saveToSheet <==> saveToSheet == Some(true)
    ensures sheetName.None? || sheetName.value == "" ==> req.sheetName == DefaultSheetName
    ensures sheetName.Some? && sheetName.value != "" ==> req.sheetName == sheetName.value
    ensures req.sheetName != ""
  {
    var name := if sheetName.Some? && sheetName.value != "" then sheetName.value else DefaultSheetName;
    CompareRequest(upload, saveToSheet.GetOr(false), name)
  }

  /** What the sheet side of a request sees: the configuration, gspread's
      answer to the spreadsheet lookup, the worksheet named by the request
      with the failures it may raise, and the formatted time for the row. */
  datatype SheetsEnv = SheetsEnv(
    config: Config,
    open: GoogleSheets.OpenOutcome,
    backend: GoogleSheets.SheetBackend,
    now: string)

  /** The handler passes the configured URL only when it is non-empty. */
  function ConfiguredUrl(config: Config): Option<string> {
    if config.spreadsheetUrl != "" then Some(config.spreadsheetUrl) else None
  }

  /** The row written for a request and its comparison. */
  function RowFor(req: CompareRequest, result: OCRComparisonResponse, now: string): GoogleSheets.RowInput {
    GoogleSheets.RowInput(
      now, req.upload.filename, req.upload.size,
      result.googleVision.AsDict(), result.naverClova.AsDict(), result.comparison.AsDict())
  }

  function Connect(env: SheetsEnv): Result<GoogleSheets.Spreadsheet, GoogleSheets.ConnectError> {
    GoogleSheets.GetOrCreateSpreadsheet(None, ConfiguredUrl(env.config), env.config, env.open)
  }

  /** The `sheet_info` for a request that asked to save: if connecting to
      the spreadsheet raised, not saved and the error text; otherwise saved,
      with the spreadsheet URL and whatever message the save returned
      (which may itself report a failure, since the save never raises). */
  function SaveToSheet(req: CompareRequest, result: OCRComparisonResponse, env: SheetsEnv): (info: SheetInfo)
    ensures info.sheetName == req.sheetName
    ensures info.saved <==> Connect(env).Ok?
    ensures info.saved ==>
      info.spreadsheetUrl == Some(Connect(env).value.url) &&
      info.message == Some(GoogleSheets.SaveOcrResults(env.backend, RowFor(req, result, env.now)).message) &&
      info.error.None?
    ensures !info.saved ==>
      info.error == Some(Connect(env).error.Text()) && info.message.None? && info.spreadsheetUrl.None?
  {
    match Connect(env)
    case Err(e) => SheetInfo(false, None, req.sheetName, None, Some(e.Text()))
    case Ok(sheet) =>
      var out := GoogleSheets.SaveOcrResults(env.backend, RowFor(req, result, env.now));
      SheetInfo(true, Some(sheet.url), req.sheetName, Some(out.message), None)
  }

  function NotRequested(sheetName: string): SheetInfo {
    SheetInfo(false, None, sheetName, Some(NotRequestedMessage), None)
  }

  /** POST /compare. `run` is what reading the upload and running the
      comparator produced, or the text of the exception either raised. */
  function CompareOcr(req: CompareRequest, run: Result<OCRComparisonResponse, string>, env: SheetsEnv)
    : (r: HttpResult<OCRComparisonResponse>)
    ensures UploadError(req.upload).Some? ==> r == Reject(400, UploadError(req.upload).value)
    ensures UploadError(req.upload).None? && run.Err? ==> r == Reject(500, run.error)
    ensures r.Respond? <==> UploadError(req.upload).None? && run.Ok?
    ensures r.Respond? ==>
      r.body.comparison == run.value.comparison &&
      r.body.googleVision == run.value.googleVision &&
      r.body.naverClova == run.value.naverClova &&
      r.body.timestamp == run.value.timestamp
    ensures r.Respond? ==>
      r.body.sheetInfo.Some? && r.body.sheetInfo.value.sheetName == req.sheetName &&
      (r.body.sheetInfo.value.message.Some? <==> r.body.sheetInfo.value.error.None?) &&
      (r.body.sheetInfo.value.saved ==> req.saveToSheet)
    ensures r.Respond? && !req.saveToSheet ==> r.body.sheetInfo == Some(NotRequested(req.sheetName))
    ensures r.Respond? && req.saveToSheet ==> r.body.sheetInfo == Some(SaveToSheet(req, run.value, env))
  {
    match UploadError(req.upload)
    case Some(detail) => Reject(400, detail)
    case None =>
      match run
      case Err(e) => Reject(500, e)
      case Ok(result) =>
        var info := if req.saveToSheet then SaveToSheet(req, result, env) else NotRequested(req.sheetName);
        Respond(result.(sheetInfo := Some(info)))
  }

  /** A form that names neither option never touches the spreadsheet: the
      answer reports "Not requested to save to sheet" for "OCR Comparison". */
  lemma OmittedFieldsNotSaved(upload: Upload, run: Result<OCRComparisonResponse, string>, env: SheetsEnv)
    ensures var r := CompareOcr(FormRequest(upload, None, None), run, env);
            r.Respond? ==> r.body.sheetInfo == Some(SheetInfo(false, None, "OCR Comparison", Some(NotRequestedMessage), None))
    ensures var r := CompareOcr(FormRequest(upload, None, Some("")), run, env);
            r.Respond? ==> r.body.sheetInfo == Some(SheetInfo(false, None, "OCR Comparison", Some(NotRequestedMessage), None))
  {
  }

  /** A refused upload is refused whatever the providers and the
      spreadsheet would have done: validation precedes all of them. */
  lemma ValidationPrecedesWork(req: CompareRequest, run1: Result<OCRComparisonResponse, string>, env1: SheetsEnv,
                               run2: Result<OCRComparisonResponse, string>, env2: SheetsEnv)
    requires UploadError(req.upload).Some?
    ensures CompareOcr(req, run1, env1) == CompareOcr(req, run2, env2)
    ensures CompareOcr(req, run1, env1).Reject? && CompareOcr(req, run1, env1).status == 400
  {
  }

  /** A failed connection to the spreadsheet does not fail the request: the
      comparison is returned with a not-saved `sheet_info` holding the
      error text. */
  lemma ConnectFailureStillResponds(req: CompareRequest, result: OCRComparisonResponse, env: SheetsEnv)
    requires UploadError(req.upload).None? && req.saveToSheet
    requires Connect(env).Err?
    ensures var r := CompareOcr(req, Ok(result), env);
            r.Respond? && r.body.comparison == result.comparison &&
            r.body.sheetInfo == Some(SheetInfo(false, None, req.sheetName, None, Some(Connect(env).error.Text())))
  {
  }

  /** Once connected, the request reports "saved" even when the save
      itself failed: the message then starts with "Error: "; otherwise it
      names the row the data went to. */
  lemma SavedEvenWhenWriteFails(req: CompareRequest, result: OCRComparisonResponse, env: SheetsEnv)
    requires UploadError(req.upload).None? && req.saveToSheet
    requires Connect(env).Ok?
    ensures var r := CompareOcr(req, Ok(result), env);
            r.Respond? && r.body.sheetInfo.value.saved &&
            (StartsWith(r.body.sheetInfo.value.message.value, GoogleSheets.ErrorPrefix) <==>
             env.backend.setupFailure.Some? || env.backend.writeFailure.Some?)
  {
    GoogleSheets.ErrorMessageIffFailure(env.backend, RowFor(req, result, env.now));
  }

  /** An invalid configured URL is reported in `sheet_info` as the
      "Invalid spreadsheet URL format" error, whatever gspread would say. */
  lemma InvalidConfiguredUrlReported(req: CompareRequest, result: OCRComparisonResponse, env: SheetsEnv)
    requires UploadError(req.upload).None? && req.saveToSheet
    requires env.config.spreadsheetUrl != "" && GoogleSheets.ExtractSpreadsheetId(env.config.spreadsheetUrl).None?
    ensures CompareOcr(req, Ok(result), env).body.sheetInfo.value.error == Some("Invalid spreadsheet URL format")
  {
  }

  /** End to end: a /compare response built from the two provider replies
      carries the comparison's timestamp at the top level, both provider
      labels, and never the "similar results" recommendation. */
  lemma CompareEndToEnd(req: CompareRequest, vision: GoogleVision.Reply, visionTime: real,
                        clova: ClovaOcr.Reply, clovaTime: real, now: int, env: SheetsEnv)
    requires UploadError(req.upload).None?
    ensures var r := CompareOcr(req, Ok(Comparator.CompareOcrResults(vision, visionTime, clova, clovaTime, now)), env);
            r.Respond? && r.body.timestamp == r.body.comparison.timestamp == now &&
            r.body.googleVision.provider == GoogleVisionName && r.body.naverClova.provider == NaverClovaName &&
            r.body.comparison.recommendation != Comparator.Recommendation.SimilarResults.Message()
  {
    var result := Comparator.CompareOcrResults(vision, visionTime, clova, clovaTime, now);
    Comparator.NeverSimilar(result.googleVision.AsDict(), result.naverClova.AsDict(), now);
  }

  /** POST /google-vision and POST /naver-clova: only the content type is
      checked. `run` is what reading the upload and calling the client
      produced, or the text of the exception raised. */
  function SingleProviderOcr(upload: Upload, run: Result<OCRResult, string>): (r: HttpResult<OCRResult>)
    ensures !IsImageContentType(upload.contentType) ==> r == Reject(400, NotImageDetail)
    ensures IsImageContentType(upload.contentType) && run.Err? ==> r == Reject(500, run.error)
    ensures IsImageContentType(upload.contentType) && run.Ok? ==> r == Respond(run.value)
  {
    if !IsImageContentType(upload.contentType) then Reject(400, NotImageDetail)
    else
      match run
      case Err(e) => Reject(500, e)
      case Ok(result) => Respond(result)
  }

  /** An image over 10 MiB is refused by /compare but served by the
      single-provider endpoints, which have no size check. */
  lemma SingleProviderHasNoSizeLimit(upload: Upload, result: OCRResult, save: bool, sheetName: string,
                                     run: Result<OCRComparisonResponse, string>, env: SheetsEnv)
    requires IsImageContentType(upload.contentType) && upload.size > MaxFileSize
    ensures SingleProviderOcr(upload, Ok(result)) == Respond(result)
    ensures CompareOcr(CompareRequest(upload, save, sheetName), run, env) == Reject(400, TooLargeDetail)
  {
  }
}
