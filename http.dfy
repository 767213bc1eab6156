/**
 * `HttpClient`: how a path becomes a URL, and the retry policy of `fetch`.
 * The network is an oracle `respond(url, attempt)` giving what the attempt
 * with that number (counted from 1) produced; sleeping is recorded as the
 * list of waits instead of being performed.
 */
module Http {
  import opened Options
  import opened Text

  /** A URL with an explicit `http` or `https` scheme. */
  predicate IsAbsolute(u: String) {
    StartsWith(u, "http://") || StartsWith(u, "https://")
  }

  lemma AbsolutePrefix(a: String, b: String)
    requires IsAbsolute(a)
    ensures IsAbsolute(a + b)
  {
    assert (a + b)[..7] == a[..7];
    if StartsWith(a, "https://") {
      assert (a + b)[..8] == a[..8];
    }
  }

  /** A character `urlsplit` accepts in a scheme name. */
  predicate SchemeChar(c: char) {
    IsLetter(c) || '0' <= c <= '9' || c == '+' || c == '-' || c == '.'
  }

  /**
   * The scheme `urlsplit` reads off `u`, lower-cased: the text before the
   * first `:`, when it is non-empty, starts with an ASCII letter and holds
   * scheme characters only.
   */
  function SchemeOf(u: String): (r: Option<String>)
    ensures r.Some? ==> |CutAt(u, ':')| < |u| && r.value == Lower(CutAt(u, ':'))
  {
    var head := CutAt(u, ':');
    if |head| < |u| && head != [] && IsLetter(head[0]) && forall i :: 0 <= i < |head| ==> SchemeChar(head[i])
    then Some(Lower(head))
    else None
  }

  /** `u` after its scheme and the colon that ends it (all of `u` when it has none). */
  function AfterScheme(u: String): (r: String)
    ensures SchemeOf(u).None? ==> r == u
    ensures SchemeOf(u).Some? ==> u == CutAt(u, ':') + ":" + r
  {
    if SchemeOf(u).Some? then
      var head := CutAt(u, ':');
      assert u == head + ":" + u[|head| + 1..];
      u[|head| + 1..]
    else u
  }

  /** `uses_relative`: the schemes whose references `urljoin` resolves against a base. */
  const RelativeSchemes: set<String> := {"", "ftp", "http", "gopher", "nntp", "imap", "wais", "file", "https",
    "shttp", "mms", "prospero", "rtsp", "rtsps", "rtspu", "sftp", "svn", "svn+ssh", "ws", "wss"}

  /** A base that names a directory: it ends in `/`, as `base_url + "/"` does. */
  predicate IsDirectory(dir: String) {
    dir != [] && dir[|dir| - 1] == '/'
  }

  /**
   * `urllib.parse.urljoin(dir, ref)` under a directory base. An empty
   * reference gives the base. A reference whose scheme differs from the
   * base's, or is not one `urljoin` resolves, is returned as it is. One with
   * an authority (`//host...`) replaces the base, under the lower-cased
   * scheme. Any other reference is appended to the base.
   */
  function UrlJoin(dir: String, ref: String): (r: String)
    requires IsDirectory(dir)
    ensures ref == [] ==> r == dir
    ensures SchemeOf(ref).Some? && SchemeOf(ref) != SchemeOf(dir) ==> r == ref
    ensures SchemeOf(ref).None? && !StartsWith(ref, "//") && SchemeOf(dir).GetOr("") in RelativeSchemes ==> r == dir + ref
    ensures SchemeOf(ref).None? && StartsWith(ref, "//") && SchemeOf(dir).GetOr("") in RelativeSchemes ==>
      r == if SchemeOf(dir).None? then ref else SchemeOf(dir).value + ":" + ref
    ensures ref != [] && SchemeOf(ref).Some? && SchemeOf(ref) == SchemeOf(dir) && SchemeOf(dir).value in RelativeSchemes ==>
      r == if StartsWith(AfterScheme(ref), "//") then SchemeOf(ref).value + ":" + AfterScheme(ref) else dir + AfterScheme(ref)
    ensures r != []
  {
    if ref == [] then dir
    else
      var bscheme := SchemeOf(dir).GetOr("");
      var scheme := SchemeOf(ref).GetOr(bscheme);
      if scheme != bscheme || scheme !in RelativeSchemes then ref
      else
        var rest := AfterScheme(ref);
        if StartsWith(rest, "//") then (if scheme == "" then rest else scheme + ":" + rest)
        else dir + rest
  }

  /** `http` and `https` URLs carry those schemes, in lower case. */
  lemma SchemeOfAbsolute(u: String)
    requires IsAbsolute(u)
    ensures StartsWith(u, "http://") ==> SchemeOf(u) == Some("http") && AfterScheme(u) == u[5..]
    ensures StartsWith(u, "https://") ==> SchemeOf(u) == Some("https") && AfterScheme(u) == u[6..]
  {
    if StartsWith(u, "http://") {
      assert u == "http" + u[4..] && u[..7][4] == u[4];
      HttpSchemeName("http");
      SchemeOfPrefix("http", u[4..]);
    } else {
      assert u == "https" + u[5..] && u[..8][5] == u[5];
      HttpSchemeName("https");
      SchemeOfPrefix("https", u[5..]);
    }
  }

  /** A non-empty lower-case scheme name: a letter, then scheme characters, none of them `:`. */
  predicate SchemeName(name: String) {
    && name != [] && IsLetter(name[0]) && Lower(name) == name
    && forall i :: 0 <= i < |name| ==> SchemeChar(name[i]) && name[i] != ':'
  }

  lemma HttpSchemeName(name: String)
    requires name == "http" || name == "https"
    ensures SchemeName(name)
  {
    assert Lower(name) == name;
  }

  /** A scheme name followed by `:` is read off as the scheme. */
  lemma SchemeOfPrefix(name: String, rest: String)
    requires SchemeName(name)
    requires rest != [] && rest[0] == ':'
    ensures SchemeOf(name + rest) == Some(name) && AfterScheme(name + rest) == rest[1..]
  {
    assert ':' !in name by {
      forall i | 0 <= i < |name|
        ensures name[i] != ':'
      {
      }
    }
    CutAtBefore(name, rest, ':');
    assert (name + rest)[|name| + 1..] == rest[1..];
  }

  /** A `/` before any `:` means `u` has no scheme. */
  lemma NoSchemeBefore(u: String, k: nat)
    requires k < |u| && u[k] == '/'
    requires forall i :: 0 <= i < k ==> u[i] != ':'
    ensures SchemeOf(u).None?
  {
    var head := CutAt(u, ':');
    if |head| < |u| {
      assert u[|head|] == ':';
      assert head[k] == u[k];
    }
  }

  /**
   * A reference the site resolves under the base: an http(s) URL, or one
   * whose text after its leading slashes has no scheme of its own.
   */
  predicate SiteReference(ref: String) {
    IsAbsolute(ref) || SchemeOf(LStripChar(ref, '/')).None?
  }

  /**
   * How the parser resolves every link: `urljoin(base_url + "/",
   * ref.lstrip("/"))`. A reference without a scheme lands under the base; an
   * http(s) URL, or one in a scheme other than the base's (`mailto:`,
   * `javascript:`), is kept as it is; under an http(s) base the result is an
   * http(s) URL or the reference itself.
   */
  function Resolve(base: String, ref: String): (r: String)
    ensures r != []
    ensures SchemeOf(LStripChar(ref, '/')).None? && IsAbsolute(base) ==> r == base + "/" + LStripChar(ref, '/')
    ensures IsAbsolute(LStripChar(ref, '/')) ==> r == LStripChar(ref, '/')
    ensures SchemeOf(LStripChar(ref, '/')).Some? && SchemeOf(LStripChar(ref, '/')) != SchemeOf(base + "/") ==> r == LStripChar(ref, '/')
    ensures IsAbsolute(base) ==> IsAbsolute(r) || r == LStripChar(ref, '/')
  {
    var tail := LStripChar(ref, '/');
    ResolveFacts(base, tail);
    UrlJoin(base + "/", tail)
  }

  lemma ResolveFacts(base: String, tail: String)
    requires tail == [] || tail[0] != '/'
    ensures IsAbsolute(tail) ==> UrlJoin(base + "/", tail) == tail
    ensures SchemeOf(tail).None? && IsAbsolute(base) ==> UrlJoin(base + "/", tail) == base + "/" + tail
    ensures IsAbsolute(base) ==> IsAbsolute(UrlJoin(base + "/", tail)) || UrlJoin(base + "/", tail) == tail
  {
    if IsAbsolute(tail) {
      JoinAbsolute(base + "/", tail);
    }
    if IsAbsolute(base) {
      JoinUnderBase(base, tail);
    }
  }

  /** An http(s) reference is kept as it is, whatever the base. */
  lemma JoinAbsolute(dir: String, ref: String)
    requires IsDirectory(dir) && IsAbsolute(ref)
    ensures UrlJoin(dir, ref) == ref
  {
    var scheme := AbsoluteSplit(ref);
    assert scheme in RelativeSchemes;
  }

  /** An http(s) URL is its scheme, `:` and an authority part starting with `//`. */
  lemma AbsoluteSplit(u: String) returns (scheme: String)
    requires IsAbsolute(u)
    ensures SchemeOf(u) == Some(scheme) && (scheme == "http" || scheme == "https")
    ensures u == scheme + ":" + AfterScheme(u) && StartsWith(AfterScheme(u), "//")
  {
    SchemeOfAbsolute(u);
    if StartsWith(u, "http://") {
      scheme := "http";
      assert u == "http:" + u[5..];
      assert u[5..][..2] == u[..7][5..];
    } else {
      scheme := "https";
      assert u == "https:" + u[6..];
      assert u[6..][..2] == u[..8][6..];
    }
  }

  /**
   * Under an http(s) base, a reference that does not start with `/` joins
   * to an http(s) URL or to itself, and one without a scheme lands under the
   * base.
   */
  lemma JoinUnderBase(base: String, ref: String)
    requires IsAbsolute(base)
    requires ref == [] || ref[0] != '/'
    ensures SchemeOf(ref).None? ==> UrlJoin(base + "/", ref) == base + "/" + ref
    ensures IsAbsolute(UrlJoin(base + "/", ref)) || UrlJoin(base + "/", ref) == ref
  {
    AbsolutePrefix(base, "/");
    if ref != [] && SchemeOf(ref).None? {
      JoinNoScheme(base, ref);
    } else if ref != [] && SchemeOf(ref) == SchemeOf(base + "/") {
      SameSchemeJoin(base, ref);
    }
  }

  /** Under an http(s) base, a reference without a scheme or a leading `/` is appended to the base. */
  lemma JoinNoScheme(base: String, ref: String)
    requires IsAbsolute(base) && ref != [] && ref[0] != '/' && SchemeOf(ref).None?
    ensures UrlJoin(base + "/", ref) == base + "/" + ref
  {
    var dir := base + "/";
    AbsolutePrefix(base, "/");
    SchemeOfAbsolute(dir);
    assert SchemeOf(dir).GetOr("") in RelativeSchemes;
    assert !StartsWith(ref, "//");
  }

  /** Under an http(s) base, a reference in the base's own scheme joins to an http(s) URL. */
  lemma SameSchemeJoin(base: String, ref: String)
    requires IsAbsolute(base) && ref != []
    requires SchemeOf(ref) == SchemeOf(base + "/")
    ensures IsAbsolute(UrlJoin(base + "/", ref))
  {
    var scheme := BaseScheme(base);
    var rest := AfterScheme(ref);
    SameSchemeResults(base, scheme, rest);
  }

  /** The scheme of `base + "/"` under an http(s) base: `http` or `https`, one `urljoin` resolves. */
  lemma BaseScheme(base: String) returns (scheme: String)
    requires IsAbsolute(base)
    ensures SchemeOf(base + "/") == Some(scheme)
    ensures (scheme == "http" || scheme == "https") && scheme in RelativeSchemes
  {
    AbsolutePrefix(base, "/");
    SchemeOfAbsolute(base + "/");
    scheme := SchemeOf(base + "/").value;
  }

  /** Both outcomes of a same-scheme join under an http(s) base are http(s) URLs. */
  lemma SameSchemeResults(base: String, scheme: String, rest: String)
    requires IsAbsolute(base) && (scheme == "http" || scheme == "https")
    ensures StartsWith(rest, "//") ==> IsAbsolute(scheme + ":" + rest)
    ensures IsAbsolute(base + "/" + rest)
  {
    if StartsWith(rest, "//") {
      AuthorityAbsolute(scheme, rest);
    }
    AbsolutePrefix(base, "/" + rest);
    assert base + "/" + rest == base + ("/" + rest);
  }

  lemma AuthorityAbsolute(scheme: String, rest: String)
    requires (scheme == "http" || scheme == "https") && StartsWith(rest, "//")
    ensures IsAbsolute(scheme + ":" + rest)
  {
    assert (scheme + ":" + rest)[..|scheme| + 3] == scheme + "://";
  }

  /** `build_url`: an absolute URL is returned as it is, anything else is resolved under the base. */
  function BuildUrl(base: String, pathOrUrl: String): (r: String)
    ensures IsAbsolute(pathOrUrl) ==> r == pathOrUrl
    ensures IsAbsolute(base) && SiteReference(pathOrUrl) ==> IsAbsolute(r)
  {
    if IsAbsolute(pathOrUrl) then pathOrUrl else Resolve(base, pathOrUrl)
  }

  /** Building a URL from an already built one changes nothing. */
  lemma BuildUrlIdempotent(base: String, p: String)
    requires IsAbsolute(base) && SiteReference(p)
    ensures BuildUrl(base, BuildUrl(base, p)) == BuildUrl(base, p)
  {
  }

  /** A site path such as `/products/x` lands under the base: `base + "/products/x"`. */
  lemma BuildUrlOfPath(base: String, p: String)
    requires IsAbsolute(base)
    requires StartsWith(p, "/") && |p| > 1 && p[1] != '/' && SchemeOf(p[1..]).None?
    ensures BuildUrl(base, p) == base + p
  {
    var tail := p[1..];
    assert !IsAbsolute(p) by {
      assert p[0] == '/';
    }
    assert LStripChar(p, '/') == tail by {
      assert LStripChar(tail, '/') == tail;
    }
    assert base + "/" + tail == base + p by {
      assert p == "/" + tail;
    }
  }

  /**
   * A path prefix such as `/products/`: a `/`, then text that does not
   * start with `/` and holds no `:`, then a closing `/`.
   */
  predicate SitePrefix(p: String) {
    |p| >= 3 && p[0] == '/' && p[1] != '/' && p[|p| - 1] == '/' && forall i :: 0 <= i < |p| ==> p[i] != ':'
  }

  /** A link that starts with a site prefix is a site reference without a scheme of its own. */
  lemma PrefixedSitePath(l: String, p: String)
    requires SitePrefix(p) && StartsWith(l, p)
    ensures SiteReference(l) && SchemeOf(l[1..]).None? && |l| > 1 && l[1] != '/' && l[0] == '/'
  {
    assert l[..|p|][0] == l[0] && l[..|p|][1] == l[1];
    var tail := l[1..];
    assert LStripChar(l, '/') == tail by {
      assert LStripChar(tail, '/') == tail;
    }
    forall i | 0 <= i < |p| - 2
      ensures tail[i] != ':'
    {
      assert tail[i] == l[..|p|][i + 1];
    }
    assert tail[|p| - 2] == l[..|p|][|p| - 1];
    NoSchemeBefore(tail, |p| - 2);
  }

  /** The statuses `fetch` treats as transient. */
  const TransientStatuses: set<int> := {403, 429, 500, 502, 503, 504}

  /** What one request attempt produced. */
  datatype Reply =
    | Response(status: int, body: String)  // the opener returned a response
    | StatusError(code: int)               // the opener raised `HTTPError`
    | NetworkError                         // the opener raised `URLError`

  /** The error `fetch` ends with. */
  datatype FetchError =
    | HttpStatus(url: String, status: int)  // `HttpError`
    | Unreachable(url: String)             // `RuntimeError("Failed to fetch ...")`
    | NegativeSleep                        // `time.sleep` refusing a negative backoff

  /** What `fetch` does after one attempt. */
  datatype Step = Deliver(body: String) | Retry(wait: real) | Raise(error: FetchError)

  function Min(a: real, b: real): real {
    if a <= b then a else b
  }

  /** `throttle or 1`: a throttle of 0 counts as 1. */
  function BackoffBase(throttle: real): real {
    if throttle == 0.0 then 1.0 else throttle
  }

  /** The base wait (the throttle, or one second when it is zero) doubled `n` times, before the cap. */
  function Doubled(throttle: real, n: nat): real {
    if n == 0 then BackoffBase(throttle) else 2.0 * Doubled(throttle, n - 1)
  }

  /** The wait before retrying after attempt number `attempt`: the base doubled once per earlier attempt, capped at 60 seconds. */
  function Backoff(throttle: real, attempt: nat): (w: real)
    requires attempt >= 1
    ensures w <= 60.0
  {
    Min(60.0, Doubled(throttle, attempt - 1))
  }

  lemma {:induction false} DoubledMonotone(throttle: real, m: nat, n: nat)
    requires throttle >= 0.0 && m <= n
    ensures 0.0 < Doubled(throttle, m) <= Doubled(throttle, n)
  {
    if m < n {
      DoubledMonotone(throttle, m, n - 1);
    } else if m > 0 {
      DoubledMonotone(throttle, m - 1, m - 1);
    }
  }

  /** With a non-negative throttle the waits are positive and never shrink from one attempt to the next. */
  lemma BackoffMonotone(throttle: real, a: nat, b: nat)
    requires throttle >= 0.0 && 1 <= a <= b
    ensures 0.0 < Backoff(throttle, a) <= Backoff(throttle, b)
  {
    DoubledMonotone(throttle, a - 1, b - 1);
  }

  /** Below the cap, each wait is twice the previous one. */
  lemma BackoffDoubles(throttle: real, a: nat)
    requires a >= 1 && Backoff(throttle, a) < 60.0
    ensures Backoff(throttle, a + 1) == Min(60.0, 2.0 * Backoff(throttle, a))
  {
  }

  /** Whether the error an attempt raised is one `fetch` may retry. */
  predicate Retryable(reply: Reply) {
    (reply.StatusError? && reply.code in TransientStatuses) || reply.NetworkError?
  }

  /** What `fetch` does with the reply to attempt number `attempt`. */
  function Decide(url: String, reply: Reply, attempt: nat, maxRetries: int, throttle: real): (s: Step)
    requires attempt >= 1
    ensures s.Deliver? <==> reply.Response? && reply.status == 200
    ensures s.Deliver? ==> s.body == reply.body
    ensures s.Retry? <==> Retryable(reply) && attempt <= maxRetries && Backoff(throttle, attempt) >= 0.0
    ensures s.Retry? ==> s.wait == Backoff(throttle, attempt)
    ensures s.Raise? && reply.Response? ==> s.error == HttpStatus(url, reply.status)
    ensures s.Raise? && reply.StatusError? && !Retryable(reply) ==> s.error == HttpStatus(url, reply.code)
    ensures s.Raise? && Retryable(reply) && attempt > maxRetries ==>
      s.error == (if reply.NetworkError? then Unreachable(url) else HttpStatus(url, reply.code))
  {
    match reply
    case Response(status, body) =>
      if status == 200 then Deliver(body) else Raise(HttpStatus(url, status))
    case StatusError(code) =>
      if code in TransientStatuses && attempt <= maxRetries then
        var wait := Backoff(throttle, attempt);
        if wait >= 0.0 then Retry(wait) else Raise(NegativeSleep)
      else Raise(HttpStatus(url, code))
    case NetworkError =>
      if attempt <= maxRetries then
        var wait := Backoff(throttle, attempt);
        if wait >= 0.0 then Retry(wait) else Raise(NegativeSleep)
      else Raise(Unreachable(url))
  }

  /** Only the first `maxRetries` attempts can be retried. */
  lemma RetryBound(url: String, reply: Reply, attempt: nat, maxRetries: int, throttle: real)
    requires attempt >= 1 && attempt > maxRetries
    ensures !Decide(url, reply, attempt, maxRetries, throttle).Retry?
  {
  }

  /** Attempt `k + 1` at `url` was retried after waiting `waits[k]`, for every recorded wait. */
  ghost predicate RetriedEach(url: String, respond: (String, nat) -> Reply, maxRetries: int, throttle: real, waits: seq<real>) {
    forall k :: 0 <= k < |waits| ==> Decide(url, respond(url, k + 1), k + 1, maxRetries, throttle) == Retry(waits[k])
  }

  lemma RetriedSnoc(url: String, respond: (String, nat) -> Reply, maxRetries: int, throttle: real, waits: seq<real>, wait: real)
    requires RetriedEach(url, respond, maxRetries, throttle, waits)
    requires Decide(url, respond(url, |waits| + 1), |waits| + 1, maxRetries, throttle) == Retry(wait)
    ensures RetriedEach(url, respond, maxRetries, throttle, waits + [wait])
  {
    var longer := waits + [wait];
    forall k | 0 <= k < |longer|
      ensures Decide(url, respond(url, k + 1), k + 1, maxRetries, throttle) == Retry(longer[k])
    {
      if k < |waits| {
        assert longer[k] == waits[k];
      }
    }
  }

  /** The retry loop of `fetch` at one URL. */
  method Attempt(url: String, respond: (String, nat) -> Reply, maxRetries: int, throttle: real)
    returns (result: Result<String, FetchError>, waits: seq<real>)
    ensures var last := Decide(url, respond(url, |waits| + 1), |waits| + 1, maxRetries, throttle);
      && !last.Retry?
      && (last.Deliver? ==> result == Ok(last.body))
      && (last.Raise? ==> result == Err(last.error))
      && RetriedEach(url, respond, maxRetries, throttle, waits)
    ensures |waits| <= if maxRetries < 0 then 0 else maxRetries
    ensures forall k :: 0 <= k < |waits| ==> waits[k] == Backoff(throttle, k + 1)
  {
    var attempt := 0;
    waits := [];
    while true
      invariant attempt == |waits|
      invariant attempt <= if maxRetries < 0 then 0 else maxRetries
      invariant RetriedEach(url, respond, maxRetries, throttle, waits)
      decreases if maxRetries < 0 then 0 else maxRetries - attempt
    {
      attempt := attempt + 1;
      var step := Decide(url, respond(url, attempt), attempt, maxRetries, throttle);
      match step {
        case Deliver(body) =>
          return Ok(body), waits;
        case Raise(error) =>
          return Err(error), waits;
        case Retry(wait) =>
          RetriedSnoc(url, respond, maxRetries, throttle, waits, wait);
          waits := waits + [wait];
      }
    }
  }

  class HttpClient {
    const baseUrl: String
    const maxRetries: int
    const throttleSeconds: real

    /** The base URL is kept without trailing slashes. */
    constructor(base: String, maxRetries: int, throttleSeconds: real)
      ensures baseUrl == RStripChar(base, '/')
      ensures this.maxRetries == maxRetries && this.throttleSeconds == throttleSeconds
    {
      baseUrl := RStripChar(base, '/');
      this.maxRetries := maxRetries;
      this.throttleSeconds := throttleSeconds;
    }

    /**
     * `fetch`: attempts are numbered from 1; every attempt but the last was
     * retried after its backoff, and the last one decided the outcome.
     */
    method Fetch(pathOrUrl: String, respond: (String, nat) -> Reply)
      returns (result: Result<String, FetchError>, waits: seq<real>)
      ensures var url := BuildUrl(baseUrl, pathOrUrl);
        var last := Decide(url, respond(url, |waits| + 1), |waits| + 1, maxRetries, throttleSeconds);
        && !last.Retry?
        && (last.Deliver? ==> result == Ok(last.body))
        && (last.Raise? ==> result == Err(last.error))
        && RetriedEach(url, respond, maxRetries, throttleSeconds, waits)
      ensures |waits| <= if maxRetries < 0 then 0 else maxRetries
      ensures forall k :: 0 <= k < |waits| ==> waits[k] == Backoff(throttleSeconds, k + 1)
    {
      result, waits := Attempt(BuildUrl(baseUrl, pathOrUrl), respond, maxRetries, throttleSeconds);
    }
  }
}
