/**
 * `AmazonReviewScraper.extract_product_id`: the ASIN of the first URL pattern
 * that matches, or the configured fallback.
 *
 * Every pattern has the fixed-length form `prefix([A-Z0-9]{10})suffix`, so
 * `re.search` is the leftmost position where the three parts line up.
 */
module ProductId {
  import opened Config

  const AsinLength: nat := 10

  predicate IsAsinChar(c: char) {
    'A' <= c <= 'Z' || '0' <= c <= '9'
  }

  /** Ten characters of `[A-Z0-9]`. */
  predicate IsAsin(s: string) {
    |s| == AsinLength && forall i :: 0 <= i < |s| ==> IsAsinChar(s[i])
  }

  /** The pattern matches `url` starting at position `i`. */
  predicate MatchesAt(url: string, p: UrlPattern, i: nat) {
    var start := i + |p.prefix|;
    var stop := start + AsinLength;
    && stop + |p.suffix| <= |url|
    && url[i..start] == p.prefix
    && IsAsin(url[start..stop])
    && url[stop..stop + |p.suffix|] == p.suffix
  }

  /** The leftmost match at or after `i`. */
  function SearchFrom(url: string, p: UrlPattern, i: nat): (r: Option<nat>)
    ensures r.Some? ==> i <= r.value && MatchesAt(url, p, r.value)
    ensures r.Some? ==> forall k :: i <= k < r.value ==> !MatchesAt(url, p, k)
    ensures r.None? ==> forall k :: i <= k ==> !MatchesAt(url, p, k)
    decreases |url| - i
  {
    if i > |url| then None
    else if MatchesAt(url, p, i) then Some(i)
    else SearchFrom(url, p, i + 1)
  }

  /**
   * `re.search(pattern, url)` followed by `.group(1)`; None when there is no
   * match. Which ten characters it captures is `SearchCapturesLeftmost`.
   */
  function Search(url: string, p: UrlPattern): (r: Option<string>)
    ensures r.Some? ==> IsAsin(r.value)
    ensures r.None? <==> forall k :: !MatchesAt(url, p, k)
  {
    match SearchFrom(url, p, 0)
    case None => None
    case Some(i) => Some(url[i + |p.prefix|..i + |p.prefix| + AsinLength])
  }

  /** At the leftmost match `i`, the capture is the ten characters after the prefix there. */
  lemma SearchCapturesLeftmost(url: string, p: UrlPattern, i: nat)
    requires MatchesAt(url, p, i)
    requires forall k: nat :: k < i ==> !MatchesAt(url, p, k)
    ensures Search(url, p) == Some(url[i + |p.prefix|..i + |p.prefix| + AsinLength])
  {
  }

  /**
   * The capture of the first pattern from index `i` on, in list order, that
   * matches; whatever it captures is an ASIN.
   */
  function CaptureFrom(ps: seq<UrlPattern>, url: string, i: nat): (r: Option<string>)
    ensures r.Some? ==> IsAsin(r.value)
    decreases |ps| - i
  {
    if i >= |ps| then None
    else
      match Search(url, ps[i])
      case Some(id) => Some(id)
      case None => CaptureFrom(ps, url, i + 1)
  }

  /**
   * What `extract_product_id` returns: an ASIN captured from `url`, or the
   * fallback; no pattern matches exactly when nothing was captured and the
   * fallback comes back.
   */
  function ProductIdOf(cfg: ProductIdConfig, url: string): (r: Option<string>)
    ensures r == cfg.fallback || (r.Some? && IsAsin(r.value))
    ensures (forall j :: 0 <= j < |cfg.patterns| ==> Search(url, cfg.patterns[j]).None?) <==>
      (CaptureFrom(cfg.patterns, url, 0).None? && r == cfg.fallback)
  {
    CaptureFromIsFirstMatch(cfg.patterns, url, 0);
    match CaptureFrom(cfg.patterns, url, 0)
    case Some(id) => Some(id)
    case None => cfg.fallback
  }

  /** `extract_product_id`: tries the patterns in order and returns the first capture. */
  method ExtractProductId(cfg: ProductIdConfig, url: string) returns (id: Option<string>)
    ensures id == ProductIdOf(cfg, url)
  {
    for i := 0 to |cfg.patterns|
      invariant CaptureFrom(cfg.patterns, url, i) == CaptureFrom(cfg.patterns, url, 0)
    {
      var m := Search(url, cfg.patterns[i]);
      if m.Some? {
        return m;
      }
    }
    return cfg.fallback;
  }

  /** The index of the first pattern at or after `i` that matches; `|ps|` when none does. */
  function FirstMatchFrom(ps: seq<UrlPattern>, url: string, i: nat): (k: nat)
    requires i <= |ps|
    ensures i <= k <= |ps|
    decreases |ps| - i
  {
    if i == |ps| || Search(url, ps[i]).Some? then i else FirstMatchFrom(ps, url, i + 1)
  }

  /**
   * The capture from index `i` is the capture of the first matching pattern:
   * every pattern before it fails, and there is none when no pattern matches.
   */
  lemma {:induction false} CaptureFromIsFirstMatch(ps: seq<UrlPattern>, url: string, i: nat)
    requires i <= |ps|
    ensures forall j :: i <= j < FirstMatchFrom(ps, url, i) ==> Search(url, ps[j]).None?
    ensures FirstMatchFrom(ps, url, i) < |ps| ==>
      && Search(url, ps[FirstMatchFrom(ps, url, i)]).Some?
      && CaptureFrom(ps, url, i) == Search(url, ps[FirstMatchFrom(ps, url, i)])
    ensures FirstMatchFrom(ps, url, i) == |ps| ==> CaptureFrom(ps, url, i) == None
    decreases |ps| - i
  {
    if i < |ps| && Search(url, ps[i]).None? {
      CaptureFromIsFirstMatch(ps, url, i + 1);
    }
  }

  /** No capture from index `i` on exactly when none of those patterns matches. */
  lemma CaptureFromNoneIff(ps: seq<UrlPattern>, url: string, i: nat)
    requires i <= |ps|
    ensures CaptureFrom(ps, url, i).None? <==> forall j :: i <= j < |ps| ==> Search(url, ps[j]).None?
  {
    CaptureFromIsFirstMatch(ps, url, i);
  }

  /**
   * The product id is the ASIN captured by the first matching pattern, or
   * the fallback exactly when no pattern matches.
   */
  lemma ProductIdOfResult(cfg: ProductIdConfig, url: string)
    ensures var k := FirstMatchFrom(cfg.patterns, url, 0);
      && (forall j :: 0 <= j < k ==> Search(url, cfg.patterns[j]).None?)
      && (k < |cfg.patterns| ==> ProductIdOf(cfg, url).Some? && ProductIdOf(cfg, url) == Search(url, cfg.patterns[k]))
      && (k == |cfg.patterns| ==> ProductIdOf(cfg, url) == cfg.fallback)
    ensures (forall j :: 0 <= j < |cfg.patterns| ==> Search(url, cfg.patterns[j]).None?) <==>
      FirstMatchFrom(cfg.patterns, url, 0) == |cfg.patterns|
    ensures ProductIdOf(cfg, url) != cfg.fallback ==> IsAsin(ProductIdOf(cfg, url).value)
  {
    CaptureFromIsFirstMatch(cfg.patterns, url, 0);
  }

  /**
   * The streamlit fallback "DEMO_PRODUCT" is no ASIN, so it comes back exactly
   * when nothing matches; the analyzer app returns None in that case.
   */
  lemma FallbackOnlyWithoutMatch(url: string)
    ensures ProductIdOf(StreamlitApp.productId, url) == Some("DEMO_PRODUCT") <==>
      forall k :: 0 <= k < 3 ==> Search(url, StreamlitApp.productId.patterns[k]).None?
    ensures ProductIdOf(AnalyzerApp.productId, url) == None <==>
      forall k :: 0 <= k < 4 ==> Search(url, AnalyzerApp.productId.patterns[k]).None?
  {
    ProductIdOfResult(StreamlitApp.productId, url);
    ProductIdOfResult(AnalyzerApp.productId, url);
    assert !IsAsin("DEMO_PRODUCT");
  }

  /** No '/' in `s` is followed by a 'd': `s` cannot hold the start of a "/dp/". */
  predicate NoSlashD(s: string) {
    forall k :: 0 <= k < |s| - 1 ==> !(s[k] == '/' && s[k + 1] == 'd')
  }

  /** Two strings without "/d" joined where no '/' meets a 'd' have none either. */
  lemma NoSlashDAppend(a: string, b: string)
    requires NoSlashD(a) && NoSlashD(b)
    requires |a| > 0 && |b| > 0 ==> !(a[|a| - 1] == '/' && b[0] == 'd')
    ensures NoSlashD(a + b)
  {
    forall k | 0 <= k < |a + b| - 1
      ensures !((a + b)[k] == '/' && (a + b)[k + 1] == 'd')
    {
      if k == |a| - 1 {
        assert (a + b)[k + 1] == b[0];
      }
    }
  }

  /** A `/dp/<ASIN>` after a head that cannot start an earlier "/dp/" is what both presets return. */
  lemma DpLinkYieldsAsin(head: string, id: string, rest: string)
    requires NoSlashD(head) && IsAsin(id)
    ensures ProductIdOf(StreamlitApp.productId, head + "/dp/" + id + rest) == Some(id)
    ensures ProductIdOf(AnalyzerApp.productId, head + "/dp/" + id + rest) == Some(id)
  {
    var url := head + "/dp/" + id + rest;
    var dp := UrlPattern("/dp/", "");
    var h := |head|;
    assert url[h..h + 4] == "/dp/";
    assert url[h + 4..h + 4 + AsinLength] == id;
    assert MatchesAt(url, dp, h);
    forall k | 0 <= k < h
      ensures !MatchesAt(url, dp, k)
    {
      assert url[k] == head[k];
      if k + 1 < h {
        assert url[k + 1] == head[k + 1];
      } else {
        assert url[k + 1] == '/';
      }
    }
    assert SearchFrom(url, dp, 0) == Some(h);
  }

  /** The first product link that the streamlit app offers as an example, written as host and path. */
  lemma MacBookExampleLink()
    ensures ProductIdOf(StreamlitApp.productId,
      "https://www.amazon.in" + "/Apple-MacBook-Air-13-3-inch-MQD32HN" + "/dp/" + "B073Q5R6VR") == Some("B073Q5R6VR")
  {
    var host, path := "https://www.amazon.in", "/Apple-MacBook-Air-13-3-inch-MQD32HN";
    assert NoSlashD(host) && NoSlashD(path);
    NoSlashDAppend(host, path);
    assert IsAsin("B073Q5R6VR");
    DpLinkYieldsAsin(host + path, "B073Q5R6VR", "");
    assert host + path + "/dp/" + "B073Q5R6VR" + "" == host + path + "/dp/" + "B073Q5R6VR";
  }

  /** The second product link that the streamlit app offers as an example, written as host and path. */
  lemma ShortExampleLink()
    ensures ProductIdOf(StreamlitApp.productId, "https://www.amazon.com" + "/dp/" + "B08N5WRWNW") == Some("B08N5WRWNW")
  {
    var scheme, host := "https:", "//www.amazon.com";
    assert NoSlashD(scheme) && NoSlashD(host);
    NoSlashDAppend(scheme, host);
    assert scheme + host == "https://www.amazon.com";
    assert IsAsin("B08N5WRWNW");
    DpLinkYieldsAsin(scheme + host, "B08N5WRWNW", "");
    assert scheme + host + "/dp/" + "B08N5WRWNW" + "" == scheme + host + "/dp/" + "B08N5WRWNW";
  }

  /**
   * A bare `/<ASIN>/` path segment after a host without '/' is recognised by
   * the analyzer app only: when the first three patterns find nothing there,
   * the streamlit app falls back.
   */
  lemma BareAsinSegment(host: string, id: string, rest: string)
    requires '/' !in host && IsAsin(id)
    requires forall k :: 0 <= k < 3 ==> Search(host + "/" + id + "/" + rest, StreamlitApp.productId.patterns[k]).None?
    ensures ProductIdOf(AnalyzerApp.productId, host + "/" + id + "/" + rest) == Some(id)
    ensures ProductIdOf(StreamlitApp.productId, host + "/" + id + "/" + rest) == Some("DEMO_PRODUCT")
  {
    var url := host + "/" + id + "/" + rest;
    var bare := UrlPattern("/", "/");
    var h := |host|;
    assert url[h..h + 1] == "/";
    assert url[h + 1..h + 1 + AsinLength] == id;
    assert url[h + 1 + AsinLength..h + 1 + AsinLength + 1] == "/";
    assert MatchesAt(url, bare, h);
    forall k | 0 <= k < h
      ensures !MatchesAt(url, bare, k)
    {
      assert url[k] == host[k] && host[k] != '/';
      assert url[k..k + 1] != "/";
    }
    assert SearchFrom(url, bare, 0) == Some(h);
    assert Search(url, AnalyzerApp.productId.patterns[3]) == Some(id);
    FallbackOnlyWithoutMatch(url);
  }
}
