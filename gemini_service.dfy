/** The receipt-classification service, without the network call itself: the
    image size arithmetic done before upload, the fixed result returned when
    no key is configured, and the post-processing of the model's answer, which
    forces the category and the business unit into the lists offered. */
module GeminiService {
  import opened Common
  import opened Types
  import opened Constants

  /** The default width cap of `resizeImage`. */
  const MAX_WIDTH: nat := 800

  /** `Math.round(n / d)` for non-negative `n` and positive `d`: the nearest
      integer, halves rounded up. */
  function RoundDiv(n: nat, d: nat): (q: nat)
    requires d > 0
    ensures 2 * n - d < 2 * d * q <= 2 * n + d
  {
    var q := (2 * n + d) / (2 * d);
    assert 2 * n + d == 2 * d * q + (2 * n + d) % (2 * d);
    q
  }

  lemma MulMono(c: nat, a: nat, b: nat)
    requires a <= b
    ensures c * a <= c * b
  {
    var k: nat := b - a;
    assert c * b == c * a + c * k;
  }

  lemma MulCancel(c: nat, a: nat, b: nat)
    requires c * a < c * b
    ensures a < b
  {
    if b <= a {
      MulMono(c, b, a);
    }
  }

  /** A rounded ratio below one scales a value down: `round(h * m / w) <= h` when `m < w`. */
  lemma ScaledDown(h: nat, m: nat, w: nat, q: nat)
    requires m < w
    requires 2 * w * q <= 2 * (h * m) + w
    ensures q <= h
  {
    MulMono(h, m, w - 1);
    assert h * (w - 1) == h * w - h;
    assert 2 * w * (h + 1) == 2 * (h * w) + 2 * w;
    MulCancel(2 * w, q, h + 1);
  }

  /** The width/height arithmetic of `resizeImage`: an image wider than the cap
      is brought to the cap and its height scaled by the same ratio, rounded;
      otherwise both sizes are kept. */
  method ResizeDims(imgWidth: nat, imgHeight: nat, maxWidth: nat) returns (width: nat, height: nat)
    ensures width <= maxWidth || width == imgWidth
    ensures imgWidth <= maxWidth ==> width == imgWidth && height == imgHeight
    ensures imgWidth > maxWidth ==> width == maxWidth && height <= imgHeight
    ensures imgWidth > maxWidth ==>
              2 * (imgHeight * maxWidth) - imgWidth < 2 * imgWidth * height <= 2 * (imgHeight * maxWidth) + imgWidth
  {
    width := imgWidth;
    height := imgHeight;
    if width > maxWidth {
      height := RoundDiv(height * maxWidth, width);
      ScaledDown(imgHeight, maxWidth, imgWidth, height);
      width := maxWidth;
    }
  }

  /** The resized width never exceeds the cap. */
  method ResizeWithinCap(imgWidth: nat, imgHeight: nat) returns (width: nat, height: nat)
    ensures width <= MAX_WIDTH
    ensures height <= imgHeight
  {
    width, height := ResizeDims(imgWidth, imgHeight, MAX_WIDTH);
  }

  /** The model's answer as parsed from its JSON text; every field may be absent. */
  datatype RawResponse = RawResponse(
    amount: Option<real>,
    date: Option<string>,
    merchant: Option<string>,
    description: Option<string>,
    referenceNumber: Option<string>,
    category: Option<string>,
    businessUnit: Option<string>)

  /** `ReceiptAnalysisResult`. */
  datatype AnalysisResult = AnalysisResult(
    amount: Option<real>,
    date: Option<string>,
    merchant: Option<string>,
    category: Option<string>,
    businessUnit: Option<string>,
    description: Option<string>,
    referenceNumber: Option<string>,
    confidence: real)

  const FALLBACK_CATEGORY: string := "Other"
  const ANALYSIS_FAILED: string := "Failed to analyze receipt image."

  /** JavaScript `a || b` on strings: the empty string is falsy. */
  function OrElse(a: string, b: string): (r: string)
    ensures r == a || r == b
    ensures r != "" <==> a != "" || b != ""
    ensures a != "" ==> r == a
  {
    if a != "" then a else b
  }

  /** The fixed answer used when no key is configured. */
  function MockResult(today: string, categories: seq<string>, businesses: seq<string>): (r: AnalysisResult)
    ensures r.confidence == 0.9 && r.amount == Some(1234.5) && r.date == Some(today)
    ensures r.category == Some(OrElse(FirstOrBlank(categories), "Materials"))
    ensures r.businessUnit == Some(OrElse(FirstOrBlank(businesses), "Head Office"))
  {
    AnalysisResult(Some(1234.5), Some(today), Some("Demo Merchant (No API Key)"),
                   Some(OrElse(FirstOrBlank(categories), "Materials")),
                   Some(OrElse(FirstOrBlank(businesses), "Head Office")),
                   Some("Auto-detected from receipt (Mock)"), Some("UPI-1234567890"), 0.9)
  }

  /** When the lists start with a non-empty entry, the mock picks entries of
      the lists; on empty lists it falls back to "Materials" and "Head Office". */
  lemma MockPicksFromLists(today: string, categories: seq<string>, businesses: seq<string>)
    ensures |categories| > 0 && categories[0] != "" ==> MockResult(today, categories, businesses).category.value in categories
    ensures |businesses| > 0 && businesses[0] != "" ==> MockResult(today, categories, businesses).businessUnit.value in businesses
    ensures categories == [] ==> MockResult(today, categories, businesses).category == Some("Materials")
    ensures businesses == [] ==> MockResult(today, categories, businesses).businessUnit == Some("Head Office")
  {
  }

  /** The post-processing of a successful answer: the category is kept when it
      is one of the offered categories and becomes "Other" otherwise; the unit
      is kept when it is one of the offered units and dropped otherwise; the
      other fields pass through and the confidence is 1. */
  function Clamp(raw: RawResponse, categories: seq<string>, businesses: seq<string>): (r: AnalysisResult)
    ensures r.category.Some? && (r.category.value in categories || r.category.value == FALLBACK_CATEGORY)
    ensures r.category == raw.category <==> raw.category.Some? && (raw.category.value in categories || raw.category.value == FALLBACK_CATEGORY)
    ensures raw.category.Some? && raw.category.value in categories ==> r.category == raw.category
    ensures raw.category.None? || raw.category.value !in categories ==> r.category == Some(FALLBACK_CATEGORY)
    ensures r.businessUnit.Some? ==> r.businessUnit.value in businesses
    ensures raw.businessUnit.Some? && raw.businessUnit.value !in businesses ==> r.businessUnit.None?
    ensures r.businessUnit == raw.businessUnit <==> raw.businessUnit.None? || raw.businessUnit.value in businesses
    ensures r.amount == raw.amount && r.date == raw.date && r.merchant == raw.merchant
    ensures r.description == raw.description && r.referenceNumber == raw.referenceNumber
    ensures r.confidence == 1.0
  {
    var category := if raw.category.Some? && raw.category.value in categories then raw.category.value else FALLBACK_CATEGORY;
    var business := if raw.businessUnit.Some? && raw.businessUnit.value in businesses then raw.businessUnit else None;
    AnalysisResult(raw.amount, raw.date, raw.merchant, Some(category), business,
                   raw.description, raw.referenceNumber, 1.0)
  }

  /** A result read back as an answer. */
  function AsRaw(r: AnalysisResult): RawResponse {
    RawResponse(r.amount, r.date, r.merchant, r.description, r.referenceNumber, r.category, r.businessUnit)
  }

  /** Clamping is idempotent: an answer already clamped is left as it is. */
  lemma ClampIdempotent(raw: RawResponse, categories: seq<string>, businesses: seq<string>)
    ensures Clamp(AsRaw(Clamp(raw, categories, businesses)), categories, businesses) == Clamp(raw, categories, businesses)
  {
  }

  /** With a category list that holds "Other", as the default list does, the
      returned category is always one of the offered categories. */
  lemma ClampCategoryInList(raw: RawResponse, businesses: seq<string>)
    ensures Clamp(raw, DEFAULT_CATEGORIES, businesses).category.value in DEFAULT_CATEGORIES
  {
    DefaultTaxonomies();
  }

  /** `analyzeReceiptImage`. `apiKey` is the configured key (absent or empty
      means not configured) and `response` the outcome of the remote call and
      of parsing its text. */
  function AnalyzeReceiptImage(apiKey: Option<string>, today: string, categories: seq<string>,
                               businesses: seq<string>, response: Result<RawResponse>): (r: Result<AnalysisResult>)
    ensures (apiKey.None? || apiKey.value == "") ==> r == Ok(MockResult(today, categories, businesses))
    ensures r.Err? <==> apiKey.Some? && apiKey.value != "" && response.Err?
    ensures r.Err? ==> r.error == ANALYSIS_FAILED
    ensures apiKey.Some? && apiKey.value != "" && response.Ok? ==> r == Ok(Clamp(response.value, categories, businesses))
  {
    if apiKey.None? || apiKey.value == "" then Ok(MockResult(today, categories, businesses))
    else match response
      case Err(_) => Err(ANALYSIS_FAILED)
      case Ok(raw) => Ok(Clamp(raw, categories, businesses))
  }
}
