/** The spreadsheet writer (app/services/google_sheets.py): how a
    spreadsheet is located (by the ID inside a URL, or by name), the fixed
    14-column layout of the comparison worksheet, where a new row goes, and
    how a failed save turns into an "Error: ..." message instead of an
    exception. The gspread calls are not modelled; what they answer is an
    input. */
module GoogleSheets {
  import opened Outcomes
  import opened Text
  import opened Settings
  import opened Schemas

  // ---------------------------------------------------------------------
  // Spreadsheet ID inside a URL: the first match of /d/([a-zA-Z0-9-_]+)

  /** A character of the class `[a-zA-Z0-9-_]`. */
  predicate IsIdChar(c: char) {
    ('a' <= c <= 'z') || ('A' <= c <= 'Z') || ('0' <= c <= '9') || c == '-' || c == '_'
  }

  predicate IsSpreadsheetId(id: string) {
    |id| >= 1 && forall k :: 0 <= k < |id| ==> IsIdChar(id[k])
  }

  /** `s` has the three characters "/d/" starting at `q`. */
  predicate MarkerAt(s: string, q: int) {
    0 <= q && q + 3 <= |s| && s[q] == '/' && s[q + 1] == 'd' && s[q + 2] == '/'
  }

  /** The pattern matches at `p`: the marker followed by at least one ID character. */
  predicate MatchAt(s: string, p: int) {
    MarkerAt(s, p) && p + 4 <= |s| && IsIdChar(s[p + 3])
  }

  /** Length of the longest run of ID characters starting at `start`. */
  function IdRunLength(s: string, start: nat): (n: nat)
    requires start <= |s|
    ensures start + n <= |s|
    ensures forall k :: start <= k < start + n ==> IsIdChar(s[k])
    ensures start + n == |s| || !IsIdChar(s[start + n])
    decreases |s| - start
  {
    if start < |s| && IsIdChar(s[start]) then 1 + IdRunLength(s, start + 1) else 0
  }

  /** The leftmost match position at or after `from`, if any. */
  function FindMatch(s: string, from: nat): (r: Option<nat>)
    ensures r.Some? ==> from <= r.value && MatchAt(s, r.value)
    ensures r.Some? ==> forall q :: from <= q < r.value ==> !MatchAt(s, q)
    ensures r.None? ==> forall q :: from <= q ==> !MatchAt(s, q)
    decreases |s| - from
  {
    if from + 4 > |s| then None
    else if MatchAt(s, from) then Some(from)
    else FindMatch(s, from + 1)
  }

  /** `id` is what `re.search` captures in `url` when the leftmost match is
      at `p`: the greedy, hence maximal, run of ID characters after "/d/". */
  ghost predicate IsLeftmostId(url: string, p: int, id: string) {
    && MatchAt(url, p)
    && (forall q :: 0 <= q < p ==> !MatchAt(url, q))
    && IsSpreadsheetId(id)
    && p + 3 + |id| <= |url|
    && url[p + 3..p + 3 + |id|] == id
    && (p + 3 + |id| == |url| || !IsIdChar(url[p + 3 + |id|]))
  }

  /** The spreadsheet ID inside a URL, or None when the pattern does not
      occur (the source then raises "Invalid spreadsheet URL format"). */
  function ExtractSpreadsheetId(url: string): (r: Option<string>)
    ensures r.None? <==> forall p :: !MatchAt(url, p)
    ensures r.Some? ==> exists p :: IsLeftmostId(url, p, r.value)
  {
    match FindMatch(url, 0)
    case None => None
    case Some(p) =>
      var n := IdRunLength(url, p + 3);
      var id := url[p + 3..p + 3 + n];
      assert IsLeftmostId(url, p, id);
      Some(id)
  }

  /** A URL whose first "/d/" introduces an ID that ends at the end of the
      URL or at a non-ID character yields exactly that ID. */
  lemma {:induction false} ExtractAfterMarker(pre: string, id: string, suf: string)
    requires forall q :: !MarkerAt(pre + "/", q)
    requires IsSpreadsheetId(id)
    requires suf == [] || !IsIdChar(suf[0])
    ensures ExtractSpreadsheetId(pre + "/d/" + id + suf) == Some(id)
  {
    var url := pre + "/d/" + id + suf;
    var p := |pre|;
    assert url[p] == '/' && url[p + 1] == 'd' && url[p + 2] == '/' && url[p + 3] == id[0];
    assert MatchAt(url, p);
    forall q | 0 <= q < p
      ensures !MatchAt(url, q)
    {
      if q + 3 <= p + 1 {
        assert url[q] == (pre + "/")[q] && url[q + 1] == (pre + "/")[q + 1] && url[q + 2] == (pre + "/")[q + 2];
        assert !MarkerAt(pre + "/", q);
      } else {
        assert url[q + 1] == '/';
      }
    }
    var m := FindMatch(url, 0);
    assert m == Some(p);
    var n := IdRunLength(url, p + 3);
    forall k | 0 <= k < |id|
      ensures url[p + 3 + k] == id[k]
    {
    }
    assert p + 3 + |id| < |url| ==> url[p + 3 + |id|] == suf[0];
    assert n == |id|;
    assert url[p + 3..p + 3 + n] == id;
  }

  const SpreadsheetUrlPrefix := "https://docs.google.com/spreadsheets/d/"

  /** The usual sharing URL of a spreadsheet gives back its ID. */
  lemma SharingUrlRoundTrip(id: string)
    requires IsSpreadsheetId(id)
    ensures ExtractSpreadsheetId(SpreadsheetUrlPrefix + id + "/edit") == Some(id)
  {
    var pre := "https://docs.google.com/spreadsheets";
    assert forall q :: 0 <= q && q + 3 <= |pre + "/"| ==>
      !((pre + "/")[q] == '/' && (pre + "/")[q + 1] == 'd' && (pre + "/")[q + 2] == '/');
    assert SpreadsheetUrlPrefix == pre + "/d/";
    ExtractAfterMarker(pre, id, "/edit");
  }

  // ---------------------------------------------------------------------
  // get_or_create_spreadsheet

  /** How a spreadsheet is looked up: by the ID from a URL, or by name. */
  datatype Target = ByKey(id: string) | ByName(name: string)

  /** What gspread answered for the lookup. */
  datatype OpenOutcome = Opened(url: string) | NotFound | OpenFailed(message: string)

  /** Why connecting failed; `Text()` is the text of the raised exception. */
  datatype ConnectError = InvalidUrlFormat | SpreadsheetNotFound(name: string) | ApiFailure(message: string) {
    function Text(): string {
      match this
      case InvalidUrlFormat => "Invalid spreadsheet URL format"
      case SpreadsheetNotFound(name) => "스프레드시트 '" + name + "'을 찾을 수 없습니다."
      case ApiFailure(message) => message
    }
  }

  datatype Spreadsheet = Spreadsheet(target: Target, url: string)

  /** `name or settings.SPREADSHEET_NAME`. */
  function SpreadsheetName(name: Option<string>, config: Config): string {
    if name.Some? && name.value != "" then name.value else config.spreadsheetName
  }

  /** `get_or_create_spreadsheet(name, spreadsheet_url)`: a non-empty URL is
      searched for an ID and opened by key, raising "Invalid spreadsheet URL
      format" when there is none; otherwise the spreadsheet is opened by
      name. A not-found answer is re-raised naming the spreadsheet name,
      even when the lookup was by key; any other failure of the lookup
      passes through with its own text. */
  function GetOrCreateSpreadsheet(name: Option<string>, url: Option<string>, config: Config,
                                  open: OpenOutcome): (r: Result<Spreadsheet, ConnectError>)
    ensures url.Some? && url.value != "" && ExtractSpreadsheetId(url.value).None? ==>
      r == Err(InvalidUrlFormat)
    ensures url.Some? && url.value != "" && ExtractSpreadsheetId(url.value).Some? ==>
      (r.Ok? ==> r.value.target == ByKey(ExtractSpreadsheetId(url.value).value))
    ensures (url.None? || url.value == "") ==> (r.Ok? ==> r.value.target == ByName(SpreadsheetName(name, config)))
    ensures r.Ok? <==> open.Opened? && !(url.Some? && url.value != "" && ExtractSpreadsheetId(url.value).None?)
    ensures r.Ok? ==> r.value.url == open.url
    ensures r == Err(SpreadsheetNotFound(SpreadsheetName(name, config))) <==>
      open.NotFound? && !(url.Some? && url.value != "" && ExtractSpreadsheetId(url.value).None?)
    ensures open.OpenFailed? && !(url.Some? && url.value != "" && ExtractSpreadsheetId(url.value).None?) ==>
      r == Err(ApiFailure(open.message))
  {
    var spreadsheetName := SpreadsheetName(name, config);
    var target :=
      if url.Some? && url.value != "" then
        match ExtractSpreadsheetId(url.value)
        case Some(id) => Ok(ByKey(id))
        case None => Err(InvalidUrlFormat)
      else Ok(ByName(spreadsheetName));
    match target
    case Err(e) => Err(e)
    case Ok(t) =>
      match open
      case Opened(u) => Ok(Spreadsheet(t, u))
      case NotFound => Err(SpreadsheetNotFound(spreadsheetName))
      case OpenFailed(message) => Err(ApiFailure(message))
  }

  /** With no name and no URL, the configured spreadsheet name is looked up. */
  lemma DefaultNameUsed(config: Config, u: string)
    ensures GetOrCreateSpreadsheet(None, None, config, Opened(u)) == Ok(Spreadsheet(ByName(config.spreadsheetName), u))
    ensures GetOrCreateSpreadsheet(Some(""), None, config, Opened(u)) == Ok(Spreadsheet(ByName(config.spreadsheetName), u))
  {
  }

  /** With neither SPREADSHEET_NAME nor SPREADSHEET_URL set, the service
      looks up "OCR Results Comparison" by name. */
  lemma UnconfiguredLookup(u: string)
    ensures GetOrCreateSpreadsheet(None, Some(Defaults.spreadsheetUrl), Defaults, Opened(u))
         == Ok(Spreadsheet(ByName("OCR Results Comparison"), u))
  {
  }

  // ---------------------------------------------------------------------
  // Worksheet layout

  /** A cell value. `KilobytesCell(b)` stands for the text
      `f"{b/1024:.2f} KB"` and `MillisecondsCell(t)` for `f"{t} ms"`. */
  datatype Cell =
    | TextCell(text: string)
    | FlagCell(flag: bool)
    | CountCell(count: nat)
    | NumberCell(number: real)
    | KilobytesCell(bytes: nat)
    | MillisecondsCell(ms: real)

  type Row = seq<Cell>

  const Headers: seq<string> := [
    "Timestamp", "Image_Name", "Image_Size",
    "Google_Success", "Google_Text_Length", "Google_Full_Text", "Google_Processing_Time",
    "Naver_Success", "Naver_Text_Length", "Naver_Full_Text", "Naver_Processing_Time",
    "Similarity_Score", "Both_Successful", "Recommendation"]

  /** The column names are pairwise different. */
  lemma HeadersDistinct()
    ensures |Headers| == 14
    ensures forall i, j :: 0 <= i < j < |Headers| ==> Headers[i] != Headers[j]
  {
  }

  /** The row `_add_headers` appends. */
  function HeaderRow(): (row: Row)
    ensures |row| == |Headers|
    ensures forall i :: 0 <= i < |Headers| ==> row[i] == TextCell(Headers[i])
  {
    seq(|Headers|, i requires 0 <= i < |Headers| => TextCell(Headers[i]))
  }

  /** Everything a data row is built from. `timestamp` is the formatted
      wall-clock time; the three dictionaries may lack keys. */
  datatype RowInput = RowInput(
    timestamp: string,
    imageName: string,
    imageSize: nat,
    google: ResultDict,
    naver: ResultDict,
    comparison: ComparisonDict)

  /** The data row `save_ocr_results` writes, in column order. */
  function BuildRow(input: RowInput): (row: Row)
    ensures |row| == |Headers|
  {
    [ TextCell(input.timestamp),
      TextCell(input.imageName),
      KilobytesCell(input.imageSize),
      FlagCell(input.google.Success()),
      CountCell(|input.google.FullText()|),
      TextCell(input.google.FullText()),
      MillisecondsCell(input.google.ProcessTime()),
      FlagCell(input.naver.Success()),
      CountCell(|input.naver.FullText()|),
      TextCell(input.naver.FullText()),
      MillisecondsCell(input.naver.ProcessTime()),
      NumberCell(input.comparison.similarityScore.GetOr(0.0)),
      FlagCell(input.comparison.bothSuccessful.GetOr(false)),
      TextCell(input.comparison.recommendation.GetOr("")) ]
  }

  /** What each named column means, stated per column name: lengths are of
      the untrimmed text, missing keys read as "", 0 or False. */
  function CellUnder(header: string, input: RowInput): Option<Cell> {
    if header == "Timestamp" then Some(TextCell(input.timestamp))
    else if header == "Image_Name" then Some(TextCell(input.imageName))
    else if header == "Image_Size" then Some(KilobytesCell(input.imageSize))
    else if header == "Google_Success" then Some(FlagCell(input.google.success.GetOr(false)))
    else if header == "Google_Text_Length" then Some(CountCell(|input.google.fullText.GetOr("")|))
    else if header == "Google_Full_Text" then Some(TextCell(input.google.fullText.GetOr("")))
    else if header == "Google_Processing_Time" then Some(MillisecondsCell(input.google.processTime.GetOr(0.0)))
    else if header == "Naver_Success" then Some(FlagCell(input.naver.success.GetOr(false)))
    else if header == "Naver_Text_Length" then Some(CountCell(|input.naver.fullText.GetOr("")|))
    else if header == "Naver_Full_Text" then Some(TextCell(input.naver.fullText.GetOr("")))
    else if header == "Naver_Processing_Time" then Some(MillisecondsCell(input.naver.processTime.GetOr(0.0)))
    else if header == "Similarity_Score" then Some(NumberCell(input.comparison.similarityScore.GetOr(0.0)))
    else if header == "Both_Successful" then Some(FlagCell(input.comparison.bothSuccessful.GetOr(false)))
    else if header == "Recommendation" then Some(TextCell(input.comparison.recommendation.GetOr("")))
    else None
  }

  /** Every cell of the data row sits under the header that names it. */
  lemma RowFollowsHeaders(input: RowInput)
    ensures forall i :: 0 <= i < |Headers| ==> CellUnder(Headers[i], input) == Some(BuildRow(input)[i])
  {
  }

  // ---------------------------------------------------------------------
  // Worksheet set-up and saving

  /** The named worksheet before a save: absent, or present with its rows
      (as `get_all_values` lists them). */
  datatype Worksheet = Missing | Existing(rows: seq<Row>)

  function Contents(ws: Worksheet): seq<Row> {
    match ws
    case Missing => []
    case Existing(rows) => rows
  }

  /** `setup_comparison_sheet`: the header row is written exactly when the
      worksheet is created or found empty; an existing non-empty worksheet
      is left alone. */
  function SetupComparisonSheet(ws: Worksheet): (rows: seq<Row>)
    ensures |rows| >= 1
    ensures ws.Missing? || ws.rows == [] ==> rows == [HeaderRow()]
    ensures ws.Existing? && ws.rows != [] ==> rows == ws.rows
  {
    if ws.Missing? || ws.rows == [] then [HeaderRow()] else ws.rows
  }

  /** Setting up an already set-up worksheet changes nothing. */
  lemma SetupIdempotent(ws: Worksheet)
    ensures SetupComparisonSheet(Existing(SetupComparisonSheet(ws))) == SetupComparisonSheet(ws)
  {
  }

  /** The 1-based row the data goes to. The source has a separate branch
      for an empty worksheet; both branches give `count + 1`. */
  function TargetRow(count: nat): (row: nat)
    ensures row == count + 1
  {
    if count == 0 then 1 else count + 1
  }

  /** The A1-notation cell the row is written from: "A1" literally for an
      empty worksheet, "A<n>" otherwise, which agree. */
  function TargetRange(count: nat): (range: string)
    ensures range == "A" + Decimal(count + 1)
  {
    if count == 0 then "A1" else "A" + Decimal(TargetRow(count))
  }

  /** The worksheet and the failures gspread may raise during a save.
      `setupFailure` is one raised before any header row is written: looking
      the worksheet up, reading it, creating it or appending the header row.
      `writeFailure` is one raised once the set-up rows are in place:
      formatting the fresh header row, reading the rows back to count them,
      or writing the data row. */
  datatype SheetBackend = SheetBackend(
    worksheet: Worksheet,
    setupFailure: Option<string>,
    writeFailure: Option<string>)

  /** The returned message and the worksheet's rows afterwards. */
  datatype SaveOutcome = SaveOutcome(message: string, rows: seq<Row>)

  const DataAddedPrefix := "Data added to row "
  const ErrorPrefix := "Error: "

  /** `save_ocr_results`: set the worksheet up, count its rows, write the
      data row just below them and report the row number; any failure is
      returned as "Error: <message>" and never raised. */
  function SaveOcrResults(backend: SheetBackend, input: RowInput): (out: SaveOutcome)
    ensures backend.setupFailure.Some? ==>
      out == SaveOutcome(ErrorPrefix + backend.setupFailure.value, Contents(backend.worksheet))
    ensures backend.setupFailure.None? && backend.writeFailure.Some? ==>
      out == SaveOutcome(ErrorPrefix + backend.writeFailure.value, SetupComparisonSheet(backend.worksheet))
    ensures backend.setupFailure.None? && backend.writeFailure.None? ==>
      var before := SetupComparisonSheet(backend.worksheet);
      out.message == DataAddedPrefix + Decimal(|before| + 1) &&
      out.rows == before + [BuildRow(input)]
  {
    match backend.setupFailure
    case Some(e) => SaveOutcome(ErrorPrefix + e, Contents(backend.worksheet))
    case None =>
      var rows := SetupComparisonSheet(backend.worksheet);
      var count := |rows|;
      match backend.writeFailure
      case Some(e) => SaveOutcome(ErrorPrefix + e, rows)
      case None =>
        var finalRow := TargetRow(count);
        SaveOutcome(DataAddedPrefix + Decimal(finalRow), rows + [BuildRow(input)])
  }

  /** A successful save reports the row that now holds the data: reading
      the number back out of the message and looking at that row of the
      worksheet finds the data row, with everything above it untouched.
      The header row is always above it, so the number is at least 2. */
  lemma SavedRowIsReported(backend: SheetBackend, input: RowInput)
    requires backend.setupFailure.None? && backend.writeFailure.None?
    ensures var out := SaveOcrResults(backend, input);
            var digits := out.message[|DataAddedPrefix|..];
            StartsWith(out.message, DataAddedPrefix) && AllDigits(digits) &&
            var n := ParseDecimal(digits);
            2 <= n == |out.rows| &&
            out.rows[n - 1] == BuildRow(input) &&
            out.rows[..n - 1] == SetupComparisonSheet(backend.worksheet)
  {
    var out := SaveOcrResults(backend, input);
    var before := SetupComparisonSheet(backend.worksheet);
    var d := Decimal(|before| + 1);
    assert out.message == DataAddedPrefix + d;
    assert out.message[|DataAddedPrefix|..] == d;
    ParseDecimalInverts(|before| + 1);
  }

  /** A failure after a fresh worksheet got its header row (formatting it,
      say) reports the error and leaves exactly the header row behind. */
  lemma FailureAfterHeadersKeepsHeaders(ws: Worksheet, failure: string, input: RowInput)
    requires ws.Missing? || ws.rows == []
    ensures SaveOcrResults(SheetBackend(ws, None, Some(failure)), input)
         == SaveOutcome(ErrorPrefix + failure, [HeaderRow()])
  {
  }

  /** The message tells failure from success: it starts with "Error: "
      exactly when some step failed. */
  lemma ErrorMessageIffFailure(backend: SheetBackend, input: RowInput)
    ensures StartsWith(SaveOcrResults(backend, input).message, ErrorPrefix) <==>
            backend.setupFailure.Some? || backend.writeFailure.Some?
  {
    var out := SaveOcrResults(backend, input);
    if backend.setupFailure.None? && backend.writeFailure.None? {
      assert out.message[0] == 'D';
    } else {
      assert out.message[..|ErrorPrefix|] == ErrorPrefix;
    }
  }
}
