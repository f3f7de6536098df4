/**
 * `links/recommend_utils.py`: `normalize_naver_candidate`, which keeps a
 * candidate URL only when it is a Naver article URL and returns its
 * canonical form with the article identity.
 */
module Recommend {
  import opened Strings
  import opened NaverUrl
  import NaverUrlFacts

  /** The returned dict: `normalized_url`, `oid` and `aid`. */
  datatype Candidate = Candidate(normalizedUrl: string, oid: string, aid: string)

  /** `normalize_naver_candidate(raw_url)`; `raw` is None for a missing value. */
  function NormalizeCandidate(raw: Option<RawUrl>): (r: Option<Candidate>)
    ensures raw.None? || raw.value.text == "" ==> r.None?
    ensures raw.Some? && raw.value.text != "" ==> (r.Some? <==> ParseIdentity(raw.value.parts).Some?)
    ensures r.Some? ==>
      var id := ParseIdentity(raw.value.parts).value;
      r.value == Candidate(id.normalizedUrl, id.oid, id.aid)
    ensures r.Some? ==> StartsWith(r.value.normalizedUrl, CanonicalPrefix)
                        && r.value.normalizedUrl == CanonicalPrefix + r.value.oid + "/" + r.value.aid
                        && IsDigitString(r.value.oid) && IsDigitString(r.value.aid)
  {
    if raw.None? || raw.value.text == "" then None
    else
      var ident := ParseIdentity(raw.value.parts);
      if ident.None? then None
      else
        NaverUrlFacts.NormalizedUrlIsNaver(ident.value.oid, ident.value.aid);
        Some(Candidate(ident.value.normalizedUrl, ident.value.oid, ident.value.aid))
  }
}
