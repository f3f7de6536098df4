/**
 * The classification logic of `get_naver_news_info` and the restriction
 * predicate of `detect_access_restriction`.
 *
 * The HTTP request and the HTML extraction are not modelled as code: the
 * fetch outcome arrives as a `FetchOutcome`, and what BeautifulSoup would
 * extract from the page arrives as the opaque fields of a `Page`.
 */
module Crawler {
  import opened Strings
  import opened NaverUrl
  import KoreanTime

  /** What the page's extractors yield (`extract_title`, `extract_content`, ...). */
  datatype Page = Page(
    text: string,                            // soup.get_text(" ", strip=True)
    hasDicArea: bool,                        // soup.select_one("#dic_area") found something
    hasArticeBody: bool,                     // soup.select_one("#articeBody") found something
    title: Option<string>,
    publisher: string,
    imageUrl: Option<string>,
    publishedAt: Option<KoreanTime.DateTime>,
    content: string)

  /**
   * How the request for the normalised URL ended: `requests` raised a
   * timeout, raised another request exception (its `str` is `message`),
   * or a response with status `code` arrived. `errorText` is the text of
   * the `HTTPError` that `raise_for_status` raises for that code.
   */
  datatype FetchOutcome =
    | Timeout
    | RequestError(message: string)
    | Response(code: nat, errorText: string, page: Page)

  datatype CrawlStatus = Success | SoftSuccess | CrawlFailed

  /** The result dict; `crawled_at` (the clock) is not modelled. */
  datatype CrawlResult = CrawlResult(
    status: CrawlStatus,
    title: string,
    content: string,
    naverOid: Option<string>,
    naverAid: Option<string>,
    publisher: string,
    publishedAt: Option<KoreanTime.DateTime>,
    imageUrl: Option<string>,
    normalizedUrl: Option<string>,
    failedReason: string,
    httpStatus: Option<nat>)

  const RestrictionKeywords: seq<string> := ["로그인이 필요", "연령 확인", "본인확인", "권한이 없습니다", "접근이 제한"]
  const AccessRestricted := "ACCESS_RESTRICTED"
  const MinContentLength := 200

  /** `detect_access_restriction`: a keyword hit on a page with no body container. */
  function DetectAccessRestriction(text: string, hasDicArea: bool, hasArticeBody: bool): (r: Option<string>)
    ensures r.Some? <==> (exists k | 0 <= k < |RestrictionKeywords| :: Contains(text, RestrictionKeywords[k]))
                         && !hasDicArea && !hasArticeBody
    ensures r.Some? ==> r.value == AccessRestricted
  {
    ContainsAnyExactly(text, RestrictionKeywords);
    if !ContainsAny(text, RestrictionKeywords) then None
    else if !(hasDicArea || hasArticeBody) then Some(AccessRestricted)
    else None
  }

  /** `raise_for_status` raises for client and server errors. */
  predicate IsHttpError(code: nat)
  {
    400 <= code < 600
  }

  /** The crawl got past the URL check and the fetch, so the page was read. */
  predicate PageReached(url: UrlParts, fetch: FetchOutcome)
  {
    ParseIdentity(url).Some? && fetch.Response? && !IsHttpError(fetch.code)
  }

  predicate Truthy(s: Option<string>)
  {
    s.Some? && s.value != ""
  }

  function PageRestriction(p: Page): Option<string>
  {
    DetectAccessRestriction(p.text, p.hasDicArea, p.hasArticeBody)
  }

  /**
   * `get_naver_news_info`: start from a FAILED result and fill it in step
   * by step, returning early at the URL check, the fetch, and the title.
   */
  method GetNaverNewsInfo(url: UrlParts, fetch: FetchOutcome) returns (r: CrawlResult)
    // the URL check
    ensures ParseIdentity(url).None? ==>
      r == CrawlResult(CrawlFailed, "", "", None, None, "", None, None, None, "INVALID_NAVER_URL_FORMAT", None)
    ensures ParseIdentity(url).Some? ==>
      var id := ParseIdentity(url).value;
      r.naverOid == Some(id.oid) && r.naverAid == Some(id.aid) && r.normalizedUrl == Some(id.normalizedUrl)
    // the fetch
    ensures ParseIdentity(url).Some? && fetch.Timeout? ==>
      r.status == CrawlFailed && r.failedReason == "FETCH_TIMEOUT" && r.httpStatus == None && r.title == ""
    ensures ParseIdentity(url).Some? && fetch.RequestError? ==>
      r.status == CrawlFailed && r.failedReason == "FETCH_REQUEST_EXCEPTION(" + fetch.message + ")"
      && r.httpStatus == None && r.title == ""
    ensures ParseIdentity(url).Some? && fetch.Response? ==> r.httpStatus == Some(fetch.code)
    ensures ParseIdentity(url).Some? && fetch.Response? && (fetch.code == 403 || fetch.code == 404) ==>
      r.status == CrawlFailed && r.failedReason == "ACCESS_DENIED_OR_NOT_FOUND(" + NatToString(fetch.code) + ")"
      && r.title == ""
    ensures ParseIdentity(url).Some? && fetch.Response? && IsHttpError(fetch.code) && fetch.code != 403 && fetch.code != 404 ==>
      r.status == CrawlFailed && r.failedReason == "FETCH_REQUEST_EXCEPTION(" + fetch.errorText + ")" && r.title == ""
    // the page
    ensures PageReached(url, fetch) && !Truthy(fetch.page.title) ==>
      r.status == CrawlFailed && r.title == "" && r.content == ""
      && r.failedReason == (if PageRestriction(fetch.page).Some? then AccessRestricted else "PARSE_NO_TITLE")
    ensures r.status == Success <==>
      PageReached(url, fetch) && Truthy(fetch.page.title) && |fetch.page.content| >= MinContentLength
      && PageRestriction(fetch.page).None?
    ensures r.status == Success ==> r.failedReason == ""
    ensures r.status == SoftSuccess ==>
      if |fetch.page.content| < MinContentLength && PageRestriction(fetch.page).None?
      then r.failedReason == "SOFT_CONTENT_TOO_SHORT"
      else r.failedReason == AccessRestricted
    ensures r.status != CrawlFailed ==>
      && PageReached(url, fetch) && Truthy(fetch.page.title)
      && r.title == fetch.page.title.value && r.content == fetch.page.content
      && r.publisher == fetch.page.publisher && r.imageUrl == fetch.page.imageUrl
      && r.publishedAt == fetch.page.publishedAt
      && r.normalizedUrl == Some(ParseIdentity(url).value.normalizedUrl)
    // every failure is explained
    ensures r.status != Success ==> r.failedReason != ""
    ensures r.failedReason != "SOFT_UNKNOWN"
  {
    r := CrawlResult(CrawlFailed, "", "", None, None, "", None, None, None, "", None);

    var ident := ParseIdentity(url);
    if ident.None? {
      r := r.(failedReason := "INVALID_NAVER_URL_FORMAT");
      return;
    }
    r := r.(naverOid := Some(ident.value.oid), naverAid := Some(ident.value.aid),
            normalizedUrl := Some(ident.value.normalizedUrl));

    var page: Page;
    match fetch {
      case Timeout =>
        r := r.(failedReason := "FETCH_TIMEOUT");
        return;
      case RequestError(message) =>
        r := r.(failedReason := "FETCH_REQUEST_EXCEPTION(" + message + ")");
        return;
      case Response(code, errorText, p) =>
        r := r.(httpStatus := Some(code));
        if code == 403 || code == 404 {
          r := r.(failedReason := "ACCESS_DENIED_OR_NOT_FOUND(" + NatToString(code) + ")");
          return;
        }
        if IsHttpError(code) {
          r := r.(failedReason := "FETCH_REQUEST_EXCEPTION(" + errorText + ")");
          return;
        }
        page := p;
    }

    var restriction := DetectAccessRestriction(page.text, page.hasDicArea, page.hasArticeBody);
    if restriction.Some? {
      r := r.(failedReason := restriction.value);
    }

    if !Truthy(page.title) {
      r := r.(failedReason := if r.failedReason != "" then r.failedReason else "PARSE_NO_TITLE");
      return;
    }

    r := r.(title := page.title.value, publisher := page.publisher, imageUrl := page.imageUrl,
            publishedAt := page.publishedAt);
    r := r.(content := page.content);

    if |page.content| >= MinContentLength && r.failedReason == "" {
      r := r.(status := Success);
      return;
    }

    if |page.content| < MinContentLength {
      if r.failedReason == "" {
        r := r.(failedReason := "SOFT_CONTENT_TOO_SHORT");
      }
      r := r.(status := SoftSuccess);
      return;
    }

    r := r.(status := SoftSuccess);
    if r.failedReason == "" {
      r := r.(failedReason := "SOFT_UNKNOWN");
    }
  }
}

module CrawlerFacts {
  import opened Strings
  import opened NaverUrl
  import opened Crawler

  /** A page counts as restricted only without both body containers, whatever its text. */
  lemma BodyContainerClearsRestriction(text: string, hasDicArea: bool, hasArticeBody: bool)
    requires hasDicArea || hasArticeBody
    ensures DetectAccessRestriction(text, hasDicArea, hasArticeBody).None?
  {
  }

  /** Each keyword, found anywhere in the text of a page with no body, marks it restricted. */
  lemma {:induction false} KeywordRestricts(pre: string, k: nat, post: string)
    requires k < |RestrictionKeywords|
    ensures DetectAccessRestriction(pre + RestrictionKeywords[k] + post, false, false) == Some(AccessRestricted)
  {
    var kw := RestrictionKeywords[k];
    var text := pre + kw + post;
    assert text[|pre|..|pre| + |kw|] == kw;
    OccursAtContains(text, kw, |pre|);
  }
}
