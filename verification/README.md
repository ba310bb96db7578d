# OCR comparison service — a Dafny model of its decision logic

The service takes an uploaded image and sends it to two OCR providers:
Google Cloud Vision and Naver Clova OCR. It compares what they return and
can append the comparison to a Google Sheets worksheet. This project models
the decision logic between the provider calls and the HTTP response. Every
piece is a pure function over abstract inputs:

- **Provider clients** (`ClovaOcr`, `GoogleVision`). Each turns a provider
  reply, or an exception raised while calling the provider, into a uniform
  `OCRResult` record: provider, success, full text, processing time, error.
  Clova joins its field texts with single spaces. A reply with no fields is
  the distinct failure "No text detected". Vision takes the first annotation,
  and treats "no annotations" as a success with empty text.
- **Comparator** (`Comparator`). It derives:
  - the stripped text lengths;
  - a Jaccard similarity over lower-cased character sets, reported ×100;
  - the AND of the two success flags;
  - a recommendation chosen from a fixed, ordered decision table.
- **Sheet writer** (`GoogleSheets`). It covers:
  - the spreadsheet ID taken from a URL (the first match of
    `/d/([a-zA-Z0-9-_]+)`);
  - choosing between lookup by key and lookup by name;
  - the fixed 14-column header and data row;
  - the rule "write at row count + 1";
  - turning any save failure into an `"Error: …"` message.
- **HTTP handlers** (`OcrApi`). They cover content-type and size validation,
  the 500 path, and the `sheet_info` policy of `POST /compare`. They also
  cover the content-type-only check of the two single-provider endpoints.

The remaining modules are shared. `Outcomes` holds `Option` and `Result`.
`Text` models Python's `strip`, `lower`, `set(s)`, `' '.join`, `split(' ')`
and decimal rendering. `Settings` holds the configuration constants.
`Schemas` holds the records of `app/models/schemas.py`.

Python dictionaries read with `.get(key, default)` become records with
`Option` fields: `ResultDict` and `ComparisonDict`. A provider's full record
turns into one of these through `AsDict()`, with every key present.
Provider and gspread calls, clocks and timestamps are parameters:

- a `Reply` datatype per provider;
- an `OpenOutcome` for the spreadsheet lookup;
- a `SheetBackend` holding the worksheet's rows and the failures gspread may
  raise;
- `real` processing times and an `int` timestamp.

A few behaviours of the code are easy to misread, and the model keeps them
as written:

- The similarity short-circuit tests the untrimmed texts. A whitespace-only
  text therefore still gets a score.
- The recommendation compares untrimmed lengths, while the reported lengths
  are trimmed.
- `sheet_info` is always present on a 200 response of `POST /compare`.
- The single-provider endpoints check only the content type, not the size.

## Model

| member | source | states |
|---|---|---|
| Text.Strip | app/services/comparator.py:32-33 | `strip()` leaves no whitespace at either end. The result is empty exactly when the text is all whitespace. |
| Text.StripIsInfix | app/services/comparator.py:32-33 | The stripped text is the original minus leading and trailing whitespace: it is the slice right after the leading whitespace, and everything before and after that slice is whitespace. |
| Text.StripIdempotent | app/services/comparator.py:32-33 | Stripping twice equals stripping once. |
| Text.Lower | app/services/comparator.py:41-42 | `lower()` keeps the length. Each upper-case ASCII letter becomes its lower-case letter, every other character is kept, and no upper-case letter remains. |
| Text.LowerIdempotent | app/services/comparator.py:41-42 | Lower-casing twice equals lower-casing once. |
| Text.CharSetBound | app/services/comparator.py:41-42 | `set(s)` has no more members than `s` has characters. |
| Text.CharSetNonEmpty | app/services/comparator.py:41-42 | The set of a non-empty text holds its first character, so it is not empty. |
| Text.JoinLength | app/services/clova_ocr.py:54-57 | The joined text's length is the sum of the parts' lengths plus one separator between neighbours. |
| Text.SplitJoin | app/services/clova_ocr.py:54-57 | Joining parts that contain no space with `' '` and splitting on `' '` gives the parts back. |
| Text.ParseDecimalInverts | app/services/google_sheets.py:159 | Reading back a rendered row or status number gives the number. |
| Text.Decimal | app/services/clova_ocr.py:89 | An f-string renders a non-negative integer as a non-empty run of decimal digits. |
| Text.DecimalInjective | app/services/clova_ocr.py:89 | Different numbers render as different texts. |
| ClovaOcr.ExtractText | app/services/clova_ocr.py:49-101 | A 200 reply whose first image has fields succeeds, with the texts joined by single spaces in reply order. A 200 reply without any fails with "No text detected". Another status fails with "API Error: <status> - <body>". An exception or undecodable body fails with its message. The provider is "naver_clova" on every path. `error` is None exactly on success. Failures carry empty text. |
| ClovaOcr.TextRecoversFields | app/services/clova_ocr.py:53-57 | When no field text contains a space, the full text splits back into exactly the field texts, in order. |
| ClovaOcr.MissingTextGivesDoubleSpace | app/services/clova_ocr.py:54-57 | A field without `inferText` contributes "", so two spaces end up adjacent. |
| ClovaOcr.OnlyFirstImageRead | app/services/clova_ocr.py:51-56 | Images after the first never affect the result. |
| ClovaOcr.NothingDetectedIsFailure | app/services/clova_ocr.py:51-79 | Each of these gives the same "No text detected" failure: no images, a missing `images` key, or a first image with missing or empty fields. |
| ClovaOcr.ApiErrorNamesStatus | app/services/clova_ocr.py:80-90 | For the same body, different statuses give different API error texts. |
| GoogleVision.ExtractText | app/services/google_vision.py:24-52 | Success holds exactly when the SDK call returned. The text is the first annotation's description, or "" when there is none, with no error. An exception fails with its message and empty text. The provider is "google_vision" on both paths. |
| GoogleVision.OnlyFirstAnnotationRead | app/services/google_vision.py:28-29 | Annotations after the first never affect the result. |
| Comparator.MessagesDistinct | app/services/comparator.py:65-76 | The six recommendation texts are pairwise different. |
| Comparator.Jaccard | app/services/comparator.py:42-44 | The character-set Jaccard ratio lies in [0, 1]. |
| Comparator.JaccardOneIff | app/services/comparator.py:42-44 | The ratio is 1 exactly when the two sets are equal. |
| Comparator.Similarity | app/services/comparator.py:40-44 | The ratio lies in [0, 1]. It is 0 when either untrimmed text is empty. |
| Comparator.SimilaritySymmetric | app/services/comparator.py:40-44 | The similarity does not depend on argument order. |
| Comparator.SimilarityOneIff | app/services/comparator.py:40-44 | The similarity is 1 exactly when both texts are non-empty and have the same lower-cased character set. |
| Comparator.SimilarityIgnoresCase | app/services/comparator.py:40-43 | Lower-casing a text first never changes its similarity to another text. |
| Comparator.SelfSimilarity | app/services/comparator.py:40-44 | A non-empty text is fully similar to itself. |
| Comparator.DisjointTextsScoreZero | app/services/comparator.py:42-44 | Texts that share no character, ignoring case, have similarity 0. |
| Comparator.GetRecommendation | app/services/comparator.py:61-76 | The decision table in precedence order, stated case by case: both failed; only Google failed; only Clova failed; similarity > 80; Google's untrimmed text strictly longer; otherwise Clova. |
| Comparator.RecommendedProviderSucceeded | app/services/comparator.py:65-76 | The recommendation never favours a provider that failed. |
| Comparator.SwapMirrorsRecommendation | app/services/comparator.py:73-76 | Swapping the providers mirrors the verdict when their text lengths differ. |
| Comparator.TieFavorsClovaPosition | app/services/comparator.py:73-76 | On equal lengths, both orders pick the provider in Clova's position. |
| Comparator.TimesIgnored | app/services/comparator.py:61-76 | Processing times never change the recommendation. |
| Comparator.AnalyzeResults | app/services/comparator.py:25-59 | Gives the stripped lengths, the times with missing ones read as 0, and a score in [0, 100] that is 0 when either text is empty. `both_successful` is the AND of the flags, with a missing flag read as False. The recommendation is the decision table's text, given the raw 0–1 ratio and the untrimmed texts. |
| Comparator.ScoreIsScaledSimilarity | app/services/comparator.py:56 | The reported score is 100 × the similarity ratio. |
| Comparator.NeverSimilar | app/services/comparator.py:44-71 | As written, the analysis never yields "Both services produced similar results…". |
| Comparator.IdenticalTextsNotCalledSimilar | app/services/comparator.py:40-76 | Two successful identical non-empty texts score 100, yet get the length tie-break verdict. |
| Comparator.AnalyzeResultsIntended | app/services/comparator.py:56-58 | The corrected analysis reports the same score as the original. |
| Comparator.IntendedSimilarIff | app/services/comparator.py:56-71 | In the corrected analysis with both providers successful, the verdict is "similar results" exactly when the score exceeds 80. |
| Comparator.CompareOcrResults | app/services/comparator.py:10-23 | Both provider results pass through unchanged under their keys. The top-level timestamp equals the comparison's. `both_successful` and the lengths are those of the two results. The whole comparison is `_analyze_results` of the two results read as dictionaries: score, times and verdict included. |
| Comparator.BlankImageFavorsGoogle | app/services/comparator.py:10-23 | If neither provider finds text, Vision succeeds with "" but Clova fails, so Google "performed better". |
| Comparator.WhitespaceTextStillCompared | app/services/comparator.py:28-44 | Whitespace-only texts report length 0 but are still scored: identical ones score 100. |
| GoogleSheets.IdRunLength | app/services/google_sheets.py:41-43 | The greedy `[a-zA-Z0-9-_]+` run is maximal: every character in it is an ID character, and the next is not. |
| GoogleSheets.FindMatch | app/services/google_sheets.py:41-42 | `re.search` finds the leftmost position where "/d/" is followed by an ID character, or none exists. |
| GoogleSheets.ExtractSpreadsheetId | app/services/google_sheets.py:38-48 | No ID exactly when the pattern never matches. Otherwise the ID is the maximal run at the leftmost match. |
| GoogleSheets.ExtractAfterMarker | app/services/google_sheets.py:41-43 | Take a URL whose first "/d/" is followed by an ID that ends at a non-ID character or at the end. The extracted ID is exactly that ID. |
| GoogleSheets.SharingUrlRoundTrip | app/services/google_sheets.py:41-43 | `…/spreadsheets/d/<id>/edit` gives back `<id>`. |
| GoogleSheets.GetOrCreateSpreadsheet | app/services/google_sheets.py:34-63 | A non-empty URL without an ID raises "Invalid spreadsheet URL format". A URL with one opens by key. Otherwise the spreadsheet opens by name. Not-found is re-raised naming the spreadsheet name. Any other lookup failure passes through with its own text. |
| GoogleSheets.DefaultNameUsed | app/services/google_sheets.py:35 | With no name or an empty one, the configured SPREADSHEET_NAME is used. |
| GoogleSheets.UnconfiguredLookup | app/core/config.py:20-21 | With neither SPREADSHEET_NAME nor SPREADSHEET_URL set, the spreadsheet "OCR Results Comparison" is looked up by name. |
| GoogleSheets.HeadersDistinct | app/services/google_sheets.py:84-89 | There are exactly 14 headers, pairwise different. |
| GoogleSheets.HeaderRow | app/services/google_sheets.py:82-90 | The header row has one text cell per header, in order. |
| GoogleSheets.BuildRow | app/services/google_sheets.py:116-137 | The data row has as many cells as there are headers. |
| GoogleSheets.RowFollowsHeaders | app/services/google_sheets.py:116-137 | Each data cell is the value its header names. Lengths are of the untrimmed text. Missing keys read as "", 0 or False. |
| GoogleSheets.SetupComparisonSheet | app/services/google_sheets.py:65-80 | Headers are written exactly when the worksheet is new or empty. A non-empty worksheet is untouched. |
| GoogleSheets.SetupIdempotent | app/services/google_sheets.py:70-78 | Setting up a set-up worksheet changes nothing. |
| GoogleSheets.TargetRow | app/services/google_sheets.py:142-153 | Both branches put the data at row count + 1. |
| GoogleSheets.TargetRange | app/services/google_sheets.py:142-151 | The literal "A1" of the empty-sheet branch equals "A" + (count + 1). |
| GoogleSheets.SaveOcrResults | app/services/google_sheets.py:96-165 | A failure before any header row is written returns "Error: …" with the sheet untouched. A later failure (formatting the header row, re-reading the rows, writing the data row) returns "Error: …" with the set-up rows in place. Otherwise the row is appended below the set-up rows and "Data added to row <count+1>" is returned. |
| GoogleSheets.FailureAfterHeadersKeepsHeaders | app/services/google_sheets.py:75-91 | On a new or empty worksheet, a failure after the header row was appended reports "Error: …" and leaves exactly the header row. |
| GoogleSheets.SavedRowIsReported | app/services/google_sheets.py:111-159 | The row number in the success message is the row that now holds the data, everything above is unchanged, and the number is at least 2. |
| GoogleSheets.ErrorMessageIffFailure | app/services/google_sheets.py:159-165 | The message starts with "Error: " exactly when some step failed. |
| OcrApi.UploadError | app/api/ocr.py:20-24 | The content type is checked before the size. The upload passes exactly when it is `image/…` and at most MAX_FILE_SIZE bytes. |
| OcrApi.SizeLimitIsInclusive | app/api/ocr.py:23-24 | Exactly 10 MiB is accepted; one byte more is refused. |
| OcrApi.FormRequest | app/api/ocr.py:17 | An omitted `save_to_sheet` is False. An omitted or empty `sheet_name` is "OCR Comparison", because FastAPI reads an empty form value as absent; any other posted name is kept. The worksheet name is therefore never empty. |
| OcrApi.OmittedFieldsNotSaved | app/api/ocr.py:17-81 | A form that names neither option, or that posts an empty `sheet_name`, is answered on success with the not-saved `sheet_info`: "Not requested to save to sheet" for "OCR Comparison". |
| OcrApi.SaveToSheet | app/api/ocr.py:31-74 | Saved holds exactly when connecting succeeded, with the URL and the save's own message. Otherwise it is not saved and carries the error text. `sheet_name` is always the request's. |
| OcrApi.CompareOcr | app/api/ocr.py:16-85 | Validation gives 400s. A read or compare exception gives 500. Otherwise the comparison is returned unchanged. `sheet_info` always carries the request's `sheet_name` and exactly one of message and error. It is "Not requested…" when saving was not asked for. When saving was asked for, it is what `SaveToSheet` reports for this request and this result. |
| OcrApi.ValidationPrecedesWork | app/api/ocr.py:20-28 | A refused upload's answer does not depend on the providers or the spreadsheet. |
| OcrApi.ConnectFailureStillResponds | app/api/ocr.py:66-74 | A failed spreadsheet connection still returns the comparison, with a not-saved `sheet_info`. |
| OcrApi.SavedEvenWhenWriteFails | app/api/ocr.py:48-65 | Once connected, `saved` is True even when the save's message is an "Error: …". |
| OcrApi.InvalidConfiguredUrlReported | app/api/ocr.py:37-43 | A configured URL without an ID is reported as "Invalid spreadsheet URL format" in `sheet_info`. |
| OcrApi.CompareEndToEnd | app/api/ocr.py:26-28 | A response built from two provider replies has the comparison's timestamp and both provider labels. It never has the "similar results" verdict. |
| OcrApi.SingleProviderOcr | app/api/ocr.py:87-109 | The single-provider endpoints check only the content type. A 500 carries the exception text. Otherwise the provider result is returned unchanged. |
| OcrApi.SingleProviderHasNoSizeLimit | app/api/ocr.py:89-90 | An image over 10 MiB is served by a single-provider endpoint but refused by `/compare`. |

## Left out

- Text.Strip: whitespace is Python's `str.isspace` only within Latin-1. Other Unicode spaces are not stripped.
- Text.Lower: only ASCII letters are lower-cased. Python's full Unicode `str.lower()` is not modelled.
- Comparator.AnalyzeResults: the score is the exact ratio × 100, without `round(…, 2)`. The timestamp is a parameter in place of `int(time.time())`.
- ClovaOcr.ExtractText: `process_time` is a parameter in place of the measured, rounded wall-clock time. The request itself is not modelled: base64 encoding, request id, secret header and POST. Neither is the `TypeError` a JSON `null` `inferText` would raise; a missing key is modelled.
- GoogleVision.ExtractText: `process_time` is a parameter, and the SDK client and its credentials are not modelled.
- GoogleSheets.GetOrCreateSpreadsheet: the not-found message keeps only its first line, which names the spreadsheet. The setup instructions and service-account e-mail after it are left out. The source applies `.format(…)` to the whole joined message, name included, so a spreadsheet name containing `{` or `}` yields a different message, or an `IndexError`/`KeyError` in place of the `ValueError`; this is not modelled.
- GoogleSheets.BuildRow: the timestamp text (`datetime.now()`) is an input. The `"{size/1024:.2f} KB"` and `"<t> ms"` texts are cells denoting those renderings, not formatted strings.
- GoogleSheets.SaveOcrResults: gspread calls are abstract. The worksheet's rows and any raised failure are inputs, and the final re-count is not modelled. The "read count, then write" race between concurrent saves is a concurrency concern and is not modelled.
- OcrApi.SingleProviderOcr: the content type is always a string. A part without a Content-Type header, which makes `content_type.startswith` raise outside the `try` and end in an unhandled server error, is not modelled.
- OcrApi.CompareOcr: `sheet_info` carries `sheet_name` as the handler builds it. The declared response model's `SheetInfo` lacks that field, and serialising through it would drop it; JSON serialisation is not modelled. Neither are multipart reading, FastAPI routing, CORS, log prints, an `UploadFile.size` of None, or an `UploadFile.content_type` of None (a part without a Content-Type header). With no content type, `content_type.startswith` raises outside the `try` and the request ends in an unhandled server error, not a 400 or the handler's 500. The model's content type is always a string.
- `get_providers` (static list of the two providers) and `/test-sheet` (saves hand-written sample data) are left out. Neither makes a decision.
- `get_analysis_data` and the header cell formatting in `_add_headers` are left out. The first reads data back and the second only styles cells.
- Environment and credential loading and the service constructors are left out, as is server start-up (`main.py`, `app/main.py`). They are configuration and framework glue.
- `app/models/requests.py` is unused by the service and is left out.
- `tests/test_ocr.py` only asserts on a hand-written dictionary and is left out.

## Findings

| source | as written | input that shows it | evidently intended | confidence | as-written member | corrected member |
|---|---|---|---|---|---|---|
| app/services/comparator.py:44-71 | `_analyze_results` passes the raw Jaccard ratio, at most 1, to `_get_recommendation`, which tests `similarity > 80` | both providers succeed with the text "abc": the reported score is 100, but the verdict is "Naver Clova OCR extracted more text…" | compare the reported 0–100 score with 80 | high; not executed | Comparator.NeverSimilar | Comparator.IntendedSimilarIff |

The defect is modelled on two levels:

- `Comparator.AnalyzeResults` keeps the behaviour as written.
  `Comparator.NeverSimilar` proves the "similar" verdict unreachable, and
  `Comparator.IdenticalTextsNotCalledSimilar` gives the concrete input.
- `Comparator.AnalyzeResultsIntended` is the corrected definition. It feeds
  the scaled score to the same decision table.

`Comparator.CompareOcrResults` and the handlers describe the service as it
runs, so they keep the as-written analysis.
