/** The content extraction service: requests go to a reader service that returns
    a page's main text, one request per URL, with fixed headers. The HTTP client
    is a parameter. */
module ExtractionService {
  import opened Wrappers
  import opened Text
  import Keyed

  type Headers = map<string, string>

  /** What the HTTP GET produced: a response, a timeout (60 seconds in the
      source), or any other exception. */
  datatype HttpOutcome = Responded(status: int, text: string) | TimedOut | Failed

  /** The HTTP client: address and headers in, outcome out. */
  type Web = (string, Headers) -> HttpOutcome

  const RetainImagesHeader := "X-Retain-Images"
  const AuthorizationHeader := "Authorization"

  /** The headers every request carries: images are never retained, and the API key,
      when one is configured, is sent as a bearer token. */
  function ExpectedHeaders(apiKey: string): (h: Headers)
    ensures RetainImagesHeader in h && h[RetainImagesHeader] == "none"
    ensures AuthorizationHeader in h <==> apiKey != ""
    ensures AuthorizationHeader in h ==> h[AuthorizationHeader] == "Bearer " + apiKey
    ensures h.Keys <= {RetainImagesHeader, AuthorizationHeader}
  {
    if apiKey != "" then map[RetainImagesHeader := "none", AuthorizationHeader := "Bearer " + apiKey]
    else map[RetainImagesHeader := "none"]
  }

  /** The address requested for a URL: the reader base followed by the URL itself,
      or no request at all for an empty URL. */
  function TargetFor(readerBase: string, url: string): (t: Option<string>)
    ensures t.None? <==> url == ""
    ensures t.Some? ==> StartsWith(t.value, readerBase) && t.value[|readerBase|..] == url
  {
    if url == "" then None else Some(readerBase + url)
  }

  /** The URL is recovered from the requested address by removing the reader base. */
  lemma TargetForInjective(readerBase: string, u1: string, u2: string)
    requires TargetFor(readerBase, u1) == TargetFor(readerBase, u2)
    ensures u1 == u2
  {
    if u1 != "" {
      assert TargetFor(readerBase, u1).value[|readerBase|..] == u1;
    }
  }

  class ExtractionService {
    const readerBase: string
    const headers: Headers

    /** `__init__`: the header dictionary starts with the image header and gains the
        authorization header only when an API key is configured. */
    constructor(readerBase: string, apiKey: string)
      ensures this.readerBase == readerBase
      ensures headers == ExpectedHeaders(apiKey)
    {
      this.readerBase := readerBase;
      var h: Headers := map[RetainImagesHeader := "none"];
      if apiKey != "" {
        h := h[AuthorizationHeader := "Bearer " + apiKey];
      }
      headers := h;
    }

    /** `extract_url`: the page text on status 200; `None` for an empty URL (no
        request), any other status, a timeout or any other error. */
    function ExtractUrl(url: string, web: Web): (r: Option<string>)
      ensures url == "" ==> r.None?
      ensures r.Some? <==> url != "" && web(readerBase + url, headers).Responded?
                           && web(readerBase + url, headers).status == 200
      ensures r.Some? ==> r.value == web(readerBase + url, headers).text
    {
      match TargetFor(readerBase, url)
      case None => None
      case Some(target) =>
        match web(target, headers)
        case Responded(status, text) => if status != 200 then None else Some(text)
        case TimedOut => None
        case Failed => None
    }

    /** The results of the fan-out over `urls`, in order. */
    function GatherResults(urls: seq<string>, web: Web): (rs: seq<Option<string>>)
      ensures |rs| == |urls|
      ensures forall i :: 0 <= i < |urls| ==> rs[i] == ExtractUrl(urls[i], web)
      decreases |urls|
    {
      if urls == [] then [] else [ExtractUrl(urls[0], web)] + GatherResults(urls[1..], web)
    }

    /** `extract_batch`: `dict(zip(urls, gather(...)))`. */
    function ExtractBatch(urls: seq<string>, web: Web): map<string, Option<string>> {
      Keyed.ZipToMap(urls, GatherResults(urls, web))
    }

    /** The batch answers exactly the URLs asked, each with its own extraction;
        a repeated URL is answered once. */
    lemma ExtractBatchSpec(urls: seq<string>, web: Web)
      ensures ExtractBatch(urls, web).Keys == set u | u in urls
      ensures forall u :: u in urls ==> ExtractBatch(urls, web)[u] == ExtractUrl(u, web)
    {
      var rs := GatherResults(urls, web);
      Keyed.ZipToMapOfFunction(urls, rs, u => ExtractUrl(u, web));
    }
  }
}
