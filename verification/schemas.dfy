/** The records that travel between the provider clients, the comparator,
    the sheet writer and the HTTP handler (app/models/schemas.py), plus the
    dictionary views the Python code reads them through with `.get`. */
module Schemas {
  import opened Outcomes

  /** Provider labels, used both as `provider` values and as response keys. */
  const GoogleVisionName := "google_vision"
  const NaverClovaName := "naver_clova"

  /** One provider's normalised answer. `processTime` is in milliseconds. */
  datatype OCRResult = OCRResult(
    provider: string,
    fullText: string,
    success: bool,
    processTime: real,
    error: Option<string>)
  {
    /** The result seen as a dictionary: every key present. */
    function AsDict(): ResultDict {
      ResultDict(Some(fullText), Some(success), Some(processTime))
    }
  }

  /** A provider result as a Python dictionary in which `full_text`,
      `success` and `process_time` may be missing. */
  datatype ResultDict = ResultDict(
    fullText: Option<string>,
    success: Option<bool>,
    processTime: Option<real>)
  {
    /** `d.get("full_text", "")` */
    function FullText(): string { fullText.GetOr("") }

    /** `d.get("success", False)` */
    function Success(): bool { success.GetOr(false) }

    /** `d.get("process_time", 0)` */
    function ProcessTime(): real { processTime.GetOr(0.0) }
  }

  /** One value per provider: the two-key dictionaries of the comparison. */
  datatype ByProvider<T> = ByProvider(googleVision: T, naverClova: T)

  datatype ComparisonResult = ComparisonResult(
    timestamp: int,
    textLengthComparison: ByProvider<nat>,
    processingTimeComparison: ByProvider<real>,
    similarityScore: real,
    bothSuccessful: bool,
    recommendation: string)
  {
    /** The comparison seen as a dictionary: every key present. */
    function AsDict(): ComparisonDict {
      ComparisonDict(Some(similarityScore), Some(bothSuccessful), Some(recommendation))
    }
  }

  /** The keys of a comparison dictionary the sheet writer reads, each of
      which may be missing. */
  datatype ComparisonDict = ComparisonDict(
    similarityScore: Option<real>,
    bothSuccessful: Option<bool>,
    recommendation: Option<string>)

  /** Outcome of the optional save to the spreadsheet. `sheetName` is the
      worksheet the request named; the handler always sets it. */
  datatype SheetInfo = SheetInfo(
    saved: bool,
    spreadsheetUrl: Option<string>,
    sheetName: string,
    message: Option<string>,
    error: Option<string>)

  datatype OCRComparisonResponse = OCRComparisonResponse(
    comparison: ComparisonResult,
    googleVision: OCRResult,
    naverClova: OCRResult,
    timestamp: int,
    sheetInfo: Option<SheetInfo>)
}
