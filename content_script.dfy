/**
 * The page-inspection side of the extension (content.js): it reads the
 * document page, finds the first page image, splits that image's URL into
 * the prefix and suffix around its page index, derives an output file name
 * from the page address, and answers the popup's "downloadPDF" request.
 *
 * DOM queries are replaced by a `PageSnapshot`: the number of page
 * elements, the `src` of the first page's image, and the page address.
 */
module ContentScript {
  import opened Wrappers
  import opened Strings

  /** `\d` in a JavaScript regular expression. */
  predicate IsDecimalDigit(c: char)
  {
    '0' <= c <= '9'
  }

  /** The characters `.` in a JavaScript regular expression does not match. */
  predicate IsLineTerminator(c: char)
  {
    c == '\n' || c == '\r' || c == '\U{2028}' || c == '\U{2029}'
  }

  predicate NotLineTerminator(c: char)
  {
    !IsLineTerminator(c)
  }

  /** `[^\/]` in a JavaScript regular expression. */
  predicate NotSlash(c: char)
  {
    c != '/'
  }

  /** The end of the longest run of characters satisfying `p` that starts at `from`. */
  function RunEnd(s: string, from: nat, p: char -> bool): (e: nat)
    requires from <= |s|
    ensures from <= e <= |s|
    ensures forall k :: from <= k < e ==> p(s[k])
    ensures e < |s| ==> !p(s[e])
    decreases |s| - from
  {
    if from < |s| && p(s[from]) then RunEnd(s, from + 1, p) else from
  }

  /** The start of the longest run of characters satisfying `p` that ends just before `upto`. */
  function RunStart(s: string, upto: nat, p: char -> bool): (b: nat)
    requires upto <= |s|
    ensures b <= upto
    ensures forall k :: b <= k < upto ==> p(s[k])
    ensures 0 < b ==> !p(s[b - 1])
    decreases upto
  {
    if 0 < upto && p(s[upto - 1]) then RunStart(s, upto - 1, p) else upto
  }

  /** On a string whose every character satisfies `p`, runs reach both ends. */
  lemma {:induction false} RunCoversAll(s: string, upto: nat, from: nat, p: char -> bool)
    requires upto <= |s| && from <= |s|
    requires forall k :: 0 <= k < |s| ==> p(s[k])
    ensures RunStart(s, upto, p) == 0 && RunEnd(s, from, p) == |s|
    decreases |s| - from + upto
  {
    if 0 < upto {
      RunCoversAll(s, upto - 1, from, p);
    } else if from < |s| {
      RunCoversAll(s, upto, from + 1, p);
    }
  }

  // ---------------------------------------------------------------------
  // getUniqueFilename: the pattern /\/([^\/]+?)\/\d+\?/
  // ---------------------------------------------------------------------

  const DefaultBaseName := "output_document"
  const DefaultExtension := ".pdf"

  /**
   * The file-name pattern matches at `p`: a slash at `p`, a non-empty
   * slash-free segment `url[p+1..q]`, a slash at `q`, a non-empty run of
   * decimal digits `url[q+1..e]` and a question mark at `e`.
   */
  ghost predicate FilenamePatternAt(url: string, p: int, q: int, e: int)
  {
    && 0 <= p && p + 1 < q && q + 1 < e < |url|
    && url[p] == '/' && url[q] == '/' && url[e] == '?'
    && (forall k :: p < k < q ==> NotSlash(url[k]))
    && (forall k :: q < k < e ==> IsDecimalDigit(url[k]))
  }

  /** The leftmost match, which is the one `String.prototype.match` reports. */
  ghost predicate FirstFilenameMatch(url: string, p: int, q: int, e: int)
  {
    && FilenamePatternAt(url, p, q, e)
    && forall p', q', e' :: FilenamePatternAt(url, p', q', e') ==> p <= p'
  }

  /** A match is fixed by where it starts: the lazy segment and the digits have one way to succeed. */
  lemma FilenamePatternDeterminedByStart(url: string, p: int, q: int, e: int, q': int, e': int)
    requires FilenamePatternAt(url, p, q, e) && FilenamePatternAt(url, p, q', e')
    ensures q == q' && e == e'
  {
    assert !NotSlash(url[q]) && !NotSlash(url[q']);
    assert !IsDecimalDigit(url[e]) && !IsDecimalDigit(url[e']);
  }

  /** Where the segment and the digits end for a match starting at `p`, if there is one. */
  function FilenameMatchAt(url: string, p: nat): (m: Option<(nat, nat)>)
    ensures m.Some? ==> FilenamePatternAt(url, p, m.value.0, m.value.1)
    ensures m.None? ==> forall q, e :: !FilenamePatternAt(url, p, q, e)
  {
    if p < |url| && url[p] == '/' then
      var q := RunEnd(url, p + 1, NotSlash);
      if p + 1 < q < |url| then
        var e := RunEnd(url, q + 1, IsDecimalDigit);
        if q + 1 < e < |url| && url[e] == '?' then Some((q, e)) else None
      else None
    else None
  }

  /** The leftmost match starting at or after `from`. */
  function FindFilenameMatch(url: string, from: nat): (m: Option<(nat, nat, nat)>)
    ensures m.Some? ==> from <= m.value.0 && FilenamePatternAt(url, m.value.0, m.value.1, m.value.2)
    ensures m.Some? ==> forall p, q, e :: from <= p < m.value.0 ==> !FilenamePatternAt(url, p, q, e)
    ensures m.None? ==> forall p, q, e :: from <= p ==> !FilenamePatternAt(url, p, q, e)
    decreases |url| - from
  {
    if from >= |url| then None
    else
      match FilenameMatchAt(url, from)
      case Some((q, e)) => Some((from, q, e))
      case None => FindFilenameMatch(url, from + 1)
  }

  /**
   * getUniqueFilename: the segment captured by the leftmost `/seg/digits?`
   * in the page address, or "output_document" when there is none, followed
   * by the extension (".pdf" unless another is given).
   */
  function GetUniqueFilename(url: string, extension: string := DefaultExtension): (name: string)
    ensures forall p, q, e :: FirstFilenameMatch(url, p, q, e) ==> name == url[p + 1..q] + extension
    ensures (forall p, q, e :: !FilenamePatternAt(url, p, q, e)) ==> name == DefaultBaseName + extension
  {
    match FindFilenameMatch(url, 0)
    case Some((p, q, e)) =>
      assert forall p', q', e' :: FirstFilenameMatch(url, p', q', e') ==> p' == p && q' == q by {
        forall p', q', e' | FirstFilenameMatch(url, p', q', e') ensures p' == p && q' == q {
          FilenamePatternDeterminedByStart(url, p, q, e, q', e');
        }
      }
      url[p + 1..q] + extension
    case None => DefaultBaseName + extension
  }

  // ---------------------------------------------------------------------
  // The base image URL pattern: /(.*?\/bg)(\d+)(\.png\?.*)/
  // ---------------------------------------------------------------------

  /** A page-image URL split around its page index. */
  datatype BaseParts = BaseParts(prefix: string, digits: string, suffix: string)

  /** "/bg" at `i`, a non-empty run of decimal digits `url[i+3..e]`, and ".png?" at `e`. */
  ghost predicate BaseSiteAt(url: string, i: int, e: int)
  {
    && OccursAt(url, "/bg", i)
    && i + 3 < e
    && OccursAt(url, ".png?", e)
    && (forall k :: i + 3 <= k < e ==> IsDecimalDigit(url[k]))
  }

  ghost predicate FirstBaseSite(url: string, i: int, e: int)
  {
    && BaseSiteAt(url, i, e)
    && forall i', e' :: BaseSiteAt(url, i', e') ==> i <= i'
  }

  /** A site is fixed by where it starts: its page index is the whole digit run after "/bg". */
  lemma BaseSiteIsDigitRun(url: string, i: int)
    ensures forall e :: BaseSiteAt(url, i, e) ==> e == RunEnd(url, i + 3, IsDecimalDigit)
  {
    forall e | BaseSiteAt(url, i, e) ensures e == RunEnd(url, i + 3, IsDecimalDigit) {
      assert url[e] == url[e..e + 5][0] == '.' && !IsDecimalDigit(url[e]);
    }
  }

  /** Where the page index ends for a site starting at `i`, if there is one. */
  function BaseSiteEnd(url: string, i: nat): (m: Option<nat>)
    ensures m.Some? ==> BaseSiteAt(url, i, m.value)
    ensures m.None? ==> forall e :: !BaseSiteAt(url, i, e)
  {
    BaseSiteIsDigitRun(url, i);
    if OccursAt(url, "/bg", i) then
      var e := RunEnd(url, i + 3, IsDecimalDigit);
      if i + 3 < e && OccursAt(url, ".png?", e) then Some(e) else None
    else None
  }

  /** The first site at or after `from`. */
  function FindBaseSite(url: string, from: nat): (m: Option<(nat, nat)>)
    ensures m.Some? ==> from <= m.value.0 && BaseSiteAt(url, m.value.0, m.value.1)
    ensures m.Some? ==> forall i, e :: from <= i < m.value.0 ==> !BaseSiteAt(url, i, e)
    ensures m.None? ==> forall i, e :: from <= i ==> !BaseSiteAt(url, i, e)
    decreases |url| - from
  {
    if from >= |url| then None
    else
      match BaseSiteEnd(url, from)
      case Some(e) => Some((from, e))
      case None => FindBaseSite(url, from + 1)
  }

  /** Start of the line holding index `i` (the lazy `.*?` cannot cross a line terminator). */
  function LineStart(url: string, i: nat): nat
    requires i <= |url|
  {
    RunStart(url, i, NotLineTerminator)
  }

  /** End of the line holding index `k` (the greedy `.*` stops at a line terminator). */
  function LineEnd(url: string, k: nat): nat
    requires k <= |url|
  {
    RunEnd(url, k, NotLineTerminator)
  }

  /**
   * The three capture groups for the site at `i`: the prefix runs from the
   * start of the site's line through "/bg", the digits are the whole decimal
   * run, and the suffix runs from ".png?" to the end of the line.
   */
  function SiteParts(url: string, i: nat, e: nat): (parts: BaseParts)
    requires BaseSiteAt(url, i, e)
    ensures EndsWith(parts.prefix, "/bg") && StartsWith(parts.suffix, ".png?")
    ensures |parts.digits| > 0 && forall k :: 0 <= k < |parts.digits| ==> IsDecimalDigit(parts.digits[k])
  {
    var b, f := LineStart(url, i), LineEnd(url, e + 5);
    var prefix, digits, suffix := url[b..i + 3], url[i + 3..e], url[e..f];
    assert prefix[|prefix| - 3..] == url[i..i + 3];
    assert suffix[..5] == url[e..e + 5];
    SliceSatisfies(url, i + 3, e, IsDecimalDigit);
    BaseParts(prefix, digits, suffix)
  }

  /** Every character of a slice satisfies `p` when every character of `s` in that range does. */
  lemma SliceSatisfies(s: string, lo: int, hi: int, p: char -> bool)
    requires 0 <= lo <= hi <= |s|
    requires forall k :: lo <= k < hi ==> p(s[k])
    ensures forall k :: 0 <= k < hi - lo ==> p(s[lo..hi][k])
  {
    forall k | 0 <= k < hi - lo ensures p(s[lo..hi][k]) {
      assert s[lo..hi][k] == s[lo + k];
    }
  }

  /**
   * The match of the base-URL pattern. Its leftmost match starts on the line
   * of the first "/bg<digits>.png?" site, so its groups are that site's parts.
   */
  function ParseBaseUrl(url: string): (r: Option<BaseParts>)
    ensures r.None? <==> forall i, e :: !BaseSiteAt(url, i, e)
    ensures r.Some? ==> exists i: nat, e: nat :: FirstBaseSite(url, i, e) && r.value == SiteParts(url, i, e)
  {
    match FindBaseSite(url, 0)
    case None => None
    case Some((i, e)) =>
      assert FirstBaseSite(url, i, e);
      Some(SiteParts(url, i, e))
  }

  /**
   * On a URL without line terminators (every serialised URL), the three
   * parts put back together give the URL itself.
   */
  lemma ParseBaseUrlRoundTrip(url: string)
    requires SingleLine(url)
    requires ParseBaseUrl(url).Some?
    ensures ParseBaseUrl(url).value.prefix + ParseBaseUrl(url).value.digits + ParseBaseUrl(url).value.suffix == url
  {
    var parts := ParseBaseUrl(url).value;
    var i: nat, e: nat :| FirstBaseSite(url, i, e) && parts == SiteParts(url, i, e);
    SitePartsOfSingleLine(url, i, e);
  }

  /** `url` holds no line terminator, as every serialised URL. */
  predicate SingleLine(url: string)
  {
    forall k :: 0 <= k < |url| ==> NotLineTerminator(url[k])
  }

  lemma SitePartsOfSingleLine(url: string, i: nat, e: nat)
    requires SingleLine(url) && BaseSiteAt(url, i, e)
    ensures SiteParts(url, i, e).prefix + SiteParts(url, i, e).digits + SiteParts(url, i, e).suffix == url
  {
    RunCoversAll(url, i, e + 5, NotLineTerminator);
    assert url[..i + 3] + url[i + 3..e] + url[e..] == url;
  }

  // ---------------------------------------------------------------------
  // extractImageData and the message listener
  // ---------------------------------------------------------------------

  /** What the script reads from the document page. */
  datatype PageSnapshot = PageSnapshot(
    pageCount: nat,                 // number of `div[data-page-index]` elements
    firstImageSrc: Option<string>,  // `src` of the first such div's image; None: no image
    href: string)                   // `window.location.href`

  /** The data the popup needs to download the pages. */
  datatype ImageData = ImageData(totalPages: nat, basePrefix: string, baseSuffix: string, filename: string)

  const NoPagesError := "No pages found with data-page-index attribute."
  const NoImageSrcError := "No image src found in first data-page-index div."
  const PatternError := "Could not parse base image URL pattern."

  /** extractImageData, with its thrown errors as `Failure` values. */
  function ExtractImageData(page: PageSnapshot): (r: Result<ImageData, string>)
    ensures r == Failure(NoPagesError) <==> page.pageCount == 0
    ensures r == Failure(NoImageSrcError) <==>
      page.pageCount > 0 && (page.firstImageSrc.None? || page.firstImageSrc.value == "")
    ensures r == Failure(PatternError) <==>
      page.pageCount > 0 && page.firstImageSrc.Some? && page.firstImageSrc.value != ""
      && ParseBaseUrl(page.firstImageSrc.value).None?
    ensures r.Success? <==>
      page.pageCount > 0 && page.firstImageSrc.Some? && page.firstImageSrc.value != ""
      && ParseBaseUrl(page.firstImageSrc.value).Some?
    ensures r.Success? ==>
      && r.value.totalPages == page.pageCount >= 1
      && (exists parts :: ParseBaseUrl(page.firstImageSrc.value) == Some(parts)
            && r.value.basePrefix == parts.prefix && r.value.baseSuffix == parts.suffix)
      && r.value.filename == GetUniqueFilename(page.href)
  {
    if page.pageCount == 0 then Failure(NoPagesError)
    else if page.firstImageSrc.None? || page.firstImageSrc.value == "" then Failure(NoImageSrcError)
    else
      match ParseBaseUrl(page.firstImageSrc.value)
      case None => Failure(PatternError)
      case Some(parts) =>
        Success(ImageData(page.pageCount, parts.prefix, parts.suffix, GetUniqueFilename(page.href)))
  }

  /** The reply sent back to the popup: `{success: true, data}` or `{success: false, error}`. */
  datatype Response = SuccessResponse(data: ImageData) | ErrorResponse(error: string)

  const DownloadPdfAction := "downloadPDF"

  /**
   * The answer to a "downloadPDF" request: `success: true` with the
   * extracted data, or `success: false` with the extraction error's message.
   */
  function Reply(page: PageSnapshot): (reply: Response)
    ensures reply.SuccessResponse? <==> ExtractImageData(page).Success?
    ensures reply.SuccessResponse? ==> ExtractImageData(page) == Success(reply.data)
    ensures !reply.SuccessResponse? ==> ExtractImageData(page) == Failure(reply.error)
  {
    match ExtractImageData(page)
    case Success(data) => SuccessResponse(data)
    case Failure(message) => ErrorResponse(message)
  }

  /** The message listener: only a "downloadPDF" request is answered. */
  function HandleMessage(action: string, page: PageSnapshot): (reply: Option<Response>)
    ensures reply.Some? <==> action == DownloadPdfAction
    ensures reply.Some? ==> reply.value == Reply(page)
  {
    if action == DownloadPdfAction then Some(Reply(page)) else None
  }
}
