/** The comparator (app/services/comparator.py): it runs both provider
    clients on the same image and derives a comparison from their two
    results: stripped text lengths, processing times, a Jaccard similarity
    over lower-cased character sets, whether both succeeded, and a
    recommendation picked from a fixed decision table. */
module Comparator {
  import opened Outcomes
  import opened Text
  import opened Schemas
  import ClovaOcr
  import GoogleVision

  /** The six recommendation texts `_get_recommendation` can return. */
  datatype Recommendation =
    | BothFailed
    | NaverPerformedBetter
    | GooglePerformedBetter
    | SimilarResults
    | GoogleExtractedMore
    | NaverExtractedMore
  {
    function Message(): string {
      match this
      case BothFailed => "Both OCR services failed. Please check the image quality."
      case NaverPerformedBetter => "Naver Clova OCR performed better for this image."
      case GooglePerformedBetter => "Google Vision API performed better for this image."
      case SimilarResults => "Both services produced similar results. Either service would work well."
      case GoogleExtractedMore => "Google Vision API extracted more text. Recommended for this image."
      case NaverExtractedMore => "Naver Clova OCR extracted more text. Recommended for this image."
    }

    /** The length of `Message()`; the six lengths differ. */
    function MessageLength(): nat {
      match this
      case BothFailed => 57
      case NaverPerformedBetter => 48
      case GooglePerformedBetter => 50
      case SimilarResults => 71
      case GoogleExtractedMore => 66
      case NaverExtractedMore => 64
    }

    /** The same verdict with the two providers' roles exchanged. */
    function Mirror(): Recommendation {
      match this
      case NaverPerformedBetter => GooglePerformedBetter
      case GooglePerformedBetter => NaverPerformedBetter
      case GoogleExtractedMore => NaverExtractedMore
      case NaverExtractedMore => GoogleExtractedMore
      case _ => this
    }
  }

  /** The six texts are pairwise different, so the text determines the verdict. */
  lemma MessagesDistinct(a: Recommendation, b: Recommendation)
    requires a.Message() == b.Message()
    ensures a == b
  {
    MessageHasLength(a);
    MessageHasLength(b);
  }

  lemma MessageHasLength(a: Recommendation)
    ensures |a.Message()| == a.MessageLength()
  {
    match a
    case BothFailed =>
    case NaverPerformedBetter =>
    case GooglePerformedBetter =>
    case SimilarResults =>
    case GoogleExtractedMore =>
    case NaverExtractedMore =>
  }

  /** |A ∩ B| / |A ∪ B|, or 0 when the union is empty. */
  function Jaccard(a: set<char>, b: set<char>): (r: real)
    ensures 0.0 <= r <= 1.0
  {
    var total := a + b;
    if |total| > 0 then
      IntersectionWithinUnion(a, b);
      (|a * b| as real) / (|total| as real)
    else 0.0
  }

  lemma IntersectionWithinUnion(a: set<char>, b: set<char>)
    ensures |a * b| <= |a + b|
  {
    assert a * b <= a + b;
    assert |(a + b) - (a * b)| == |a + b| - |a * b|;
  }

  /** The Jaccard ratio is 1 exactly when the two non-empty-union sets agree. */
  lemma JaccardOneIff(a: set<char>, b: set<char>)
    requires |a + b| > 0
    ensures Jaccard(a, b) == 1.0 <==> a == b
  {
    var i := a * b;
    var u := a + b;
    if Jaccard(a, b) == 1.0 {
      assert |i| == |u|;
      assert i <= u;
      assert |u - i| == |u| - |i| == 0;
      assert u - i == {};
      assert forall c :: c in a ==> c in u && c !in u - i ==> c in b;
      assert forall c :: c in b ==> c in u && c !in u - i ==> c in a;
    }
  }

  /** The ratio `_analyze_results` computes: 0 when either untrimmed text is
      empty, otherwise the Jaccard ratio of the lower-cased character sets. */
  function Similarity(a: string, b: string): (r: real)
    ensures 0.0 <= r <= 1.0
    ensures a == "" || b == "" ==> r == 0.0
  {
    if a != "" && b != "" then Jaccard(CharSet(Lower(a)), CharSet(Lower(b))) else 0.0
  }

  /** Similarity does not depend on which text comes first. */
  lemma SimilaritySymmetric(a: string, b: string)
    ensures Similarity(a, b) == Similarity(b, a)
  {
    var x := CharSet(Lower(a));
    var y := CharSet(Lower(b));
    assert x * y == y * x && x + y == y + x;
  }

  /** Similarity is 1 exactly when both texts are non-empty and use the same
      characters up to case; in particular a non-empty text is fully similar
      to itself, and a whitespace-only text counts as non-empty. */
  lemma SimilarityOneIff(a: string, b: string)
    ensures Similarity(a, b) == 1.0 <==> a != "" && b != "" && CharSet(Lower(a)) == CharSet(Lower(b))
  {
    if a != "" && b != "" {
      CharSetNonEmpty(Lower(a));
      JaccardOneIff(CharSet(Lower(a)), CharSet(Lower(b)));
    }
  }

  /** Case never matters: lower-casing a text first leaves its similarity
      to any other text unchanged. */
  lemma SimilarityIgnoresCase(a: string, b: string)
    ensures Similarity(Lower(a), b) == Similarity(a, b)
  {
    LowerIdempotent(a);
  }

  lemma SelfSimilarity(a: string)
    requires a != ""
    ensures Similarity(a, a) == 1.0
  {
    SimilarityOneIff(a, a);
  }

  /** Texts with no character in common, up to case, score 0. */
  lemma DisjointTextsScoreZero(a: string, b: string)
    requires CharSet(Lower(a)) * CharSet(Lower(b)) == {}
    ensures Similarity(a, b) == 0.0
  {
    JaccardDisjoint(CharSet(Lower(a)), CharSet(Lower(b)));
  }

  lemma JaccardDisjoint(x: set<char>, y: set<char>)
    requires x * y == {}
    ensures Jaccard(x, y) == 0.0
  {
  }

  /** `_get_recommendation`: the first matching row of the table wins:
      both failed; only Google failed; only Clova failed; similarity above
      80; Google's untrimmed text strictly longer; otherwise Clova. The two
      processing times are accepted and never read. */
  function GetRecommendation(google: ResultDict, clova: ResultDict, similarity: real,
                             googleTime: real, clovaTime: real): (r: Recommendation)
    ensures r == BothFailed <==> !google.Success() && !clova.Success()
    ensures r == NaverPerformedBetter <==> !google.Success() && clova.Success()
    ensures r == GooglePerformedBetter <==> google.Success() && !clova.Success()
    ensures r == SimilarResults <==> google.Success() && clova.Success() && similarity > 80.0
    ensures r == GoogleExtractedMore <==>
      google.Success() && clova.Success() && similarity <= 80.0 && |google.FullText()| > |clova.FullText()|
    ensures r == NaverExtractedMore <==>
      google.Success() && clova.Success() && similarity <= 80.0 && |google.FullText()| <= |clova.FullText()|
  {
    var googleSuccess := google.Success();
    var clovaSuccess := clova.Success();
    if !googleSuccess && !clovaSuccess then BothFailed
    else if !googleSuccess then NaverPerformedBetter
    else if !clovaSuccess then GooglePerformedBetter
    else if similarity > 80.0 then SimilarResults
    else if |google.FullText()| > |clova.FullText()| then GoogleExtractedMore
    else NaverExtractedMore
  }

  /** The verdict never favours a provider that failed. */
  lemma RecommendedProviderSucceeded(google: ResultDict, clova: ResultDict, similarity: real, gt: real, ct: real)
    ensures var r := GetRecommendation(google, clova, similarity, gt, ct);
            (r == GooglePerformedBetter || r == GoogleExtractedMore ==> google.Success()) &&
            (r == NaverPerformedBetter || r == NaverExtractedMore ==> clova.Success()) &&
            (r == SimilarResults ==> google.Success() && clova.Success())
  {
  }

  /** Exchanging the two providers mirrors the verdict, as long as their
      texts differ in length. */
  lemma SwapMirrorsRecommendation(google: ResultDict, clova: ResultDict, similarity: real, gt: real, ct: real)
    requires |google.FullText()| != |clova.FullText()|
    ensures GetRecommendation(clova, google, similarity, ct, gt) == GetRecommendation(google, clova, similarity, gt, ct).Mirror()
  {
  }

  /** On equal lengths the table is not symmetric: both orders favour the
      provider in the Clova position. */
  lemma TieFavorsClovaPosition(google: ResultDict, clova: ResultDict, similarity: real, gt: real, ct: real)
    requires google.Success() && clova.Success() && similarity <= 80.0
    requires |google.FullText()| == |clova.FullText()|
    ensures GetRecommendation(google, clova, similarity, gt, ct) == NaverExtractedMore
    ensures GetRecommendation(clova, google, similarity, ct, gt) == NaverExtractedMore
  {
  }

  /** Processing times never change the verdict. */
  lemma TimesIgnored(google: ResultDict, clova: ResultDict, similarity: real, gt1: real, ct1: real, gt2: real, ct2: real)
    ensures GetRecommendation(google, clova, similarity, gt1, ct1) == GetRecommendation(google, clova, similarity, gt2, ct2)
  {
  }

  /** `_analyze_results` as written: the reported score is the ratio times
      100, but the recommendation is given the raw ratio. */
  function AnalyzeResults(google: ResultDict, clova: ResultDict, now: int): (r: ComparisonResult)
    ensures r.timestamp == now
    ensures r.textLengthComparison == ByProvider(|Strip(google.FullText())|, |Strip(clova.FullText())|)
    ensures r.processingTimeComparison == ByProvider(google.ProcessTime(), clova.ProcessTime())
    ensures 0.0 <= r.similarityScore <= 100.0
    ensures google.FullText() == "" || clova.FullText() == "" ==> r.similarityScore == 0.0
    ensures r.bothSuccessful <==> google.Success() && clova.Success()
    ensures r.recommendation
         == GetRecommendation(google, clova, Similarity(google.FullText(), clova.FullText()),
                              google.ProcessTime(), clova.ProcessTime()).Message()
  {
    var googleText := google.FullText();
    var clovaText := clova.FullText();
    var googleTime := google.ProcessTime();
    var clovaTime := clova.ProcessTime();
    var similarity := Similarity(googleText, clovaText);
    ComparisonResult(
      now,
      ByProvider(|Strip(googleText)|, |Strip(clovaText)|),
      ByProvider(googleTime, clovaTime),
      similarity * 100.0,
      google.Success() && clova.Success(),
      GetRecommendation(google, clova, similarity, googleTime, clovaTime).Message())
  }

  /** The comparison's score is the similarity on a 0-100 scale. */
  lemma ScoreIsScaledSimilarity(google: ResultDict, clova: ResultDict, now: int)
    ensures AnalyzeResults(google, clova, now).similarityScore == 100.0 * Similarity(google.FullText(), clova.FullText())
  {
  }

  /** Because the ratio passed to the `> 80` test is at most 1, the
      "similar results" recommendation is never produced. */
  lemma NeverSimilar(google: ResultDict, clova: ResultDict, now: int)
    ensures AnalyzeResults(google, clova, now).recommendation != SimilarResults.Message()
  {
    var s := Similarity(google.FullText(), clova.FullText());
    var rec := GetRecommendation(google, clova, s, google.ProcessTime(), clova.ProcessTime());
    assert rec != SimilarResults;
    if rec.Message() == SimilarResults.Message() {
      MessagesDistinct(rec, SimilarResults);
    }
  }

  /** A concrete witness: two successful providers returning the same
      non-empty text score 100, yet the verdict is the length tie-break. */
  lemma IdenticalTextsNotCalledSimilar(text: string, gt: real, ct: real, now: int)
    requires text != ""
    ensures var google := ResultDict(Some(text), Some(true), Some(gt));
            var clova := ResultDict(Some(text), Some(true), Some(ct));
            var r := AnalyzeResults(google, clova, now);
            r.similarityScore == 100.0 && r.recommendation == NaverExtractedMore.Message()
  {
    SelfSimilarity(text);
  }

  /** The evidently intended analysis: the recommendation sees the same
      0-100 score that is reported. */
  function AnalyzeResultsIntended(google: ResultDict, clova: ResultDict, now: int): (r: ComparisonResult)
    ensures r.similarityScore == AnalyzeResults(google, clova, now).similarityScore
  {
    var asWritten := AnalyzeResults(google, clova, now);
    var rec := GetRecommendation(google, clova, asWritten.similarityScore, google.ProcessTime(), clova.ProcessTime());
    asWritten.(recommendation := rec.Message())
  }

  /** With the intended scale, when both providers succeed the verdict is
      "similar results" exactly when the reported score exceeds 80. */
  lemma IntendedSimilarIff(google: ResultDict, clova: ResultDict, now: int)
    requires google.Success() && clova.Success()
    ensures var r := AnalyzeResultsIntended(google, clova, now);
            r.recommendation == SimilarResults.Message() <==> r.similarityScore > 80.0
  {
    var r := AnalyzeResultsIntended(google, clova, now);
    var rec := GetRecommendation(google, clova, r.similarityScore, google.ProcessTime(), clova.ProcessTime());
    if rec.Message() == SimilarResults.Message() {
      MessagesDistinct(rec, SimilarResults);
    }
  }

  /** `compare_ocr_results`: Google first, then Clova, on the same image;
      both results are returned unchanged next to their comparison, and the
      top-level timestamp is the comparison's. Neither client raises, so a
      provider failure never prevents the comparison. */
  function CompareOcrResults(vision: GoogleVision.Reply, visionTime: real,
                             clova: ClovaOcr.Reply, clovaTime: real, now: int): (r: OCRComparisonResponse)
    ensures r.googleVision == GoogleVision.ExtractText(vision, visionTime)
    ensures r.naverClova == ClovaOcr.ExtractText(clova, clovaTime)
    ensures r.googleVision.provider == GoogleVisionName && r.naverClova.provider == NaverClovaName
    ensures r.timestamp == r.comparison.timestamp == now
    ensures r.sheetInfo.None?
    ensures r.comparison.bothSuccessful <==> r.googleVision.success && r.naverClova.success
    ensures r.comparison.textLengthComparison
         == ByProvider(|Strip(r.googleVision.fullText)|, |Strip(r.naverClova.fullText)|)
    ensures r.comparison == AnalyzeResults(r.googleVision.AsDict(), r.naverClova.AsDict(), now)
  {
    var googleResult := GoogleVision.ExtractText(vision, visionTime);
    var clovaResult := ClovaOcr.ExtractText(clova, clovaTime);
    var googleDict := googleResult.AsDict();
    var clovaDict := clovaResult.AsDict();
    assert googleDict.FullText() == googleResult.fullText && googleDict.Success() == googleResult.success;
    assert clovaDict.FullText() == clovaResult.fullText && clovaDict.Success() == clovaResult.success;
    var comparison := AnalyzeResults(googleDict, clovaDict, now);
    OCRComparisonResponse(comparison, googleResult, clovaResult, comparison.timestamp, None)
  }

  /** An image in which neither provider finds text is a Vision success with
      empty text but a Clova failure, so Google is declared better. */
  lemma BlankImageFavorsGoogle(body: string, visionTime: real, clovaTime: real, now: int)
    ensures var r := CompareOcrResults(GoogleVision.Annotated([]), visionTime,
                                       ClovaOcr.Http(200, body, Ok(ClovaOcr.Document(Some([])))), clovaTime, now);
            r.googleVision.success && r.googleVision.fullText == "" &&
            !r.naverClova.success && r.naverClova.error == Some(ClovaOcr.NoTextDetected) &&
            !r.comparison.bothSuccessful &&
            r.comparison.recommendation == GooglePerformedBetter.Message()
  {
    var g := GoogleVision.ExtractText(GoogleVision.Annotated([]), visionTime);
    var clovaReply := ClovaOcr.Http(200, body, Ok(ClovaOcr.Document(Some([]))));
    ClovaOcr.NothingDetectedIsFailure(Some([]), body, clovaTime);
    var c := ClovaOcr.ExtractText(clovaReply, clovaTime);
    assert g.success && g.fullText == "";
    assert !c.success;
    var gd := g.AsDict();
    var cd := c.AsDict();
    var s := Similarity(gd.FullText(), cd.FullText());
    assert GetRecommendation(gd, cd, s, gd.ProcessTime(), cd.ProcessTime()) == GooglePerformedBetter;
    assert AnalyzeResults(gd, cd, now).recommendation == GooglePerformedBetter.Message();
  }

  /** A whitespace-only text has stripped length 0 but is still compared:
      two identical such texts score 100. */
  lemma WhitespaceTextStillCompared(text: string, gt: real, ct: real, now: int)
    requires text != "" && AllSpace(text)
    ensures var google := ResultDict(Some(text), Some(true), Some(gt));
            var clova := ResultDict(Some(text), Some(true), Some(ct));
            var r := AnalyzeResults(google, clova, now);
            r.textLengthComparison == ByProvider(0, 0) && r.similarityScore == 100.0
  {
    SelfSimilarity(text);
  }
}
