/**
 * One authenticated request to the hub's REST surface: the URL is forced
 * to https, given a trailing slash and the api-version query; the body is
 * chosen from the verb and the content; the Authorization header is a
 * SharedAccessSignature valid for five minutes; the response's status and
 * target header are classified into a value or an exception.
 *
 * HMAC-SHA256, Base64 and URLEncoder are uninterpreted functions of a
 * Platform value; the HTTP exchange itself is a Transport whose responses
 * are a fixed function of the call number and the request.
 */
module Connection {
  import opened Wrappers
  import opened Strings
  import opened Errors

  const EndpointKey := "Endpoint"
  const SharedAccessKeyNameKey := "SharedAccessKeyName"
  const SharedAccessKeyKey := "SharedAccessKey"
  const AuthorizationHeader := "Authorization"
  const ApiVersionKey := "api-version"
  const ApiVersion := "2014-09"
  const ExpireMinutes := 5
  const TokenPrefix := "SharedAccessSignature sr="

  datatype Header = Header(name: string, value: string)

  /** A request body: its media type (null when none is given) and its text. */
  datatype Body = Body(mediaType: Option<string>, content: string)

  datatype Request = Request(verb: string, url: string, body: Option<Body>, headers: seq<Header>)

  datatype Response = Response(status: int, headers: seq<Header>, body: Option<string>)

  /**
   * Foreign library calls: URLEncoder.encode(_, "UTF-8"), HMAC-SHA256 of a
   * message under a key (both as String.getBytes()), Base64.encodeToString,
   * the User-Agent string built from the platform's build information,
   * and the part of java.net.URI's grammar not written out here (legal
   * characters, escapes, the authority): whether it accepts a string.
   */
  datatype Platform = Platform(
    urlEncode: string -> string,
    hmacSha256: (string, string) -> seq<bv8>,
    base64: seq<bv8> -> string,
    userAgent: string,
    uriAccepts: string -> bool)

  /** The scheme of a URI: the text before the first ':', when that text is a nonempty run free of '/', '?' and '#'. */
  function Scheme(uri: string): (r: Option<string>)
    ensures r.Some? ==> r.value != [] && |r.value| < |uri| && uri[..|r.value|] == r.value && uri[|r.value|] == ':'
    ensures r.Some? ==> ':' !in r.value
  {
    SchemeFrom(uri, 0)
  }

  function SchemeFrom(uri: string, i: nat): (r: Option<string>)
    requires i <= |uri|
    requires forall k :: 0 <= k < i ==> uri[k] !in ":/?#"
    ensures r.Some? ==> r.value != [] && |r.value| < |uri| && uri[..|r.value|] == r.value && uri[|r.value|] == ':'
    ensures r.Some? ==> forall k :: 0 <= k < |r.value| ==> uri[k] !in ":/?#"
    ensures r.Some? ==> ':' !in r.value
    decreases |uri| - i
  {
    if i == |uri| then None
    else if uri[i] == ':' then (if i == 0 then None else Some(uri[..i]))
    else if uri[i] in "/?#" then None
    else SchemeFrom(uri, i + 1)
  }

  lemma {:induction false} SchemeFromPrefix(uri: string, i: nat, n: nat)
    requires 0 < n < |uri| && i <= n && uri[n] == ':'
    requires forall k :: 0 <= k < n ==> uri[k] !in ":/?#"
    ensures SchemeFrom(uri, i) == Some(uri[..n])
    decreases n - i
  {
    if i < n {
      SchemeFromPrefix(uri, i + 1, n);
    }
  }

  /** Text free of ':' appended to a URI does not change its scheme. */
  lemma {:induction false} SchemeFromAppend(uri: string, x: string, i: nat)
    requires i <= |uri| && ':' !in x
    requires forall k :: 0 <= k < i ==> uri[k] !in ":/?#"
    ensures SchemeFrom(uri + x, i) == SchemeFrom(uri, i)
    decreases |uri| - i
  {
    var ux := uri + x;
    if i == |uri| {
      SchemeFromNone(ux, i);
    } else {
      assert ux[i] == uri[i];
      if uri[i] != ':' && uri[i] !in "/?#" {
        SchemeFromAppend(uri, x, i + 1);
      } else if uri[i] == ':' && i > 0 {
        assert ux[..i] == uri[..i];
      }
    }
  }

  /** With no ':' left to scan, there is no scheme. */
  lemma {:induction false} SchemeFromNone(uri: string, i: nat)
    requires i <= |uri| && ':' !in uri[i..]
    requires forall k :: 0 <= k < i ==> uri[k] !in ":/?#"
    ensures SchemeFrom(uri, i) == None
    decreases |uri| - i
  {
    if i < |uri| {
      assert uri[i] == uri[i..][0];
      if uri[i] !in "/?#" {
        assert uri[i + 1..] == uri[i..][1..];
        SchemeFromNone(uri, i + 1);
      }
    }
  }

  /** RFC 2396 scheme names: a letter, then letters, digits, '+', '-' and '.'. */
  predicate SchemeName(s: string) {
    s != [] && IsAsciiLetter(s[0])
    && forall i :: 1 <= i < |s| ==> IsAsciiLetter(s[i]) || '0' <= s[i] <= '9' || s[i] in "+-."
  }

  predicate IsAsciiLetter(c: char) {
    'a' <= c <= 'z' || 'A' <= c <= 'Z'
  }

  /**
   * URI.create(s) succeeds: s does not start with ':' (an empty scheme
   * name); a scheme, when there is one, is a legal scheme name followed by
   * a scheme-specific part that is neither empty nor only a fragment; and
   * the platform's parser accepts the rest of the grammar.
   */
  predicate UriParses(p: Platform, s: string) {
    && !StartsWith(s, ":")
    && (Scheme(s).Some? ==>
          var n := |Scheme(s).value|;
          SchemeName(Scheme(s).value) && n + 1 < |s| && s[n + 1] != '#')
    && p.uriAccepts(s)
  }

  /** Endpoints URI.create refuses: an illegal scheme name, an empty scheme name, an empty scheme-specific part. */
  lemma RefusedEndpoints(p: Platform)
    ensures !UriParses(p, "1sb://h/") && !UriParses(p, ":h") && !UriParses(p, "sb:")
  {
    SchemeFromPrefix("1sb://h/", 0, 3);
    SchemeFromPrefix("sb:", 0, 2);
  }

  /** URI.isOpaque(): a scheme whose scheme-specific part does not start with '/'. */
  predicate Opaque(url: string) {
    Scheme(url).Some? && !StartsWith(url[|Scheme(url).value| + 1..], "/")
  }

  function BeforeFragment(url: string): (r: string)
    ensures StartsWith(url, r) && '#' !in r
  {
    if url == [] || url[0] == '#' then [] else [url[0]] + BeforeFragment(url[1..])
  }

  /** URI.getQuery() != null: a hierarchical URI with a '?' before any fragment; an opaque one has no query. */
  predicate HasQuery(url: string) {
    !Opaque(url) && '?' in BeforeFragment(url)
  }

  /**
   * Lines 216-225 of the private executeRequest: "https", the endpoint
   * without its scheme, a '/' unless it already ends in one, the resource.
   * A missing endpoint or one without a scheme is a NullPointerException;
   * an endpoint URI.create refuses raises before the scheme is read.
   */
  function ResourceUrl(conn: map<string, string>, p: Platform, resource: string): (r: Result<string, Error>)
    ensures r.Success? <==> EndpointKey in conn && UriParses(p, conn[EndpointKey]) && Scheme(conn[EndpointKey]).Some?
    ensures r.Failure? ==> r.error == EndpointError(conn, p)
    ensures r.Success? ==> Scheme(r.value) == Some("https")
    ensures r.Success? ==>
      var rest := conn[EndpointKey][|Scheme(conn[EndpointKey]).value|..];
      StartsWith(r.value, "https" + rest) && EndsWith(r.value, "/" + resource)
      && |r.value| == 5 + |rest| + (if EndsWith(rest, "/") then 0 else 1) + |resource|
  {
    if EndpointKey !in conn then Failure(NullPointer("endpoint"))
    else if !UriParses(p, conn[EndpointKey]) then Failure(UriSyntax(conn[EndpointKey]))
    else
      var endpoint := conn[EndpointKey];
      match Scheme(endpoint)
      case None => Failure(NullPointer("scheme"))
      case Some(scheme) => Success(HttpsUrl(endpoint[|scheme|..], resource))
  }

  /** "https", the endpoint from the ':' after its scheme on, a '/' unless it already ends in one, the resource. */
  function HttpsUrl(rest: string, resource: string): (r: string)
    requires StartsWith(rest, ":")
    ensures Scheme(r) == Some("https")
    ensures StartsWith(r, "https" + rest) && EndsWith(r, "/" + resource)
    ensures |r| == 5 + |rest| + (if EndsWith(rest, "/") then 0 else 1) + |resource|
  {
    var base := "https" + rest;
    assert EndsWith(base, "/") <==> EndsWith(rest, "/");
    var url := (if EndsWith(base, "/") then base else base + "/") + resource;
    HttpsScheme(url);
    url
  }

  /** The exception raised for an unusable endpoint, in the order the checks happen. */
  function EndpointError(conn: map<string, string>, p: Platform): Error {
    if EndpointKey !in conn then NullPointer("endpoint")
    else if !UriParses(p, conn[EndpointKey]) then UriSyntax(conn[EndpointKey])
    else NullPointer("scheme")
  }

  lemma HttpsScheme(url: string)
    requires StartsWith(url, "https:")
    ensures Scheme(url) == Some("https")
  {
    assert url[..5] == "https" && url[5] == ':';
    SchemeFromPrefix(url, 0, 5);
  }

  /** AddApiVersionToUrl: "?api-version=2014-09" without a query yet, "&api-version=2014-09" with one. */
  function AddApiVersionToUrl(url: string): (r: string)
    ensures StartsWith(r, url) && EndsWith(r, ApiVersionKey + "=" + ApiVersion)
    ensures |r| == |url| + 1 + |ApiVersionKey + "=" + ApiVersion|
    ensures r[|url|] == '?' <==> !HasQuery(url)
    ensures r[|url|] == '&' <==> HasQuery(url)
  {
    (if HasQuery(url) then url + "&" else url + "?") + ApiVersionKey + "=" + ApiVersion
  }

  lemma {:induction false} BeforeFragmentAppend(a: string, b: string)
    requires '#' !in a
    ensures BeforeFragment(a + b) == a + BeforeFragment(b)
  {
    if a != [] {
      assert (a + b)[0] == a[0] && (a + b)[1..] == a[1..] + b;
      BeforeFragmentAppend(a[1..], b);
    } else {
      assert a + b == b;
    }
  }

  /**
   * After the api-version parameter is added, a URL without a fragment has
   * a query exactly when it is hierarchical: the parameter keeps the
   * scheme, and an opaque URL stays opaque.
   */
  lemma ApiVersionMakesQuery(url: string)
    requires '#' !in url
    ensures HasQuery(AddApiVersionToUrl(url)) <==> !Opaque(url)
  {
    var r := AddApiVersionToUrl(url);
    var x := r[|url|..];
    assert r == url + x;
    OpaqueAppend(url, x);
    BeforeFragmentAppend(url, x);
    assert x[0] == r[|url|] && x[0] != '#';
    assert BeforeFragment(x)[0] == x[0];
    assert BeforeFragment(r)[|url|] == r[|url|];
  }

  /** An opaque URL has no query, whatever '?' it holds: "https:h/?x" gets "?" rather than "&". */
  lemma OpaqueHasNoQuery()
    ensures Opaque("https:h/?x") && !HasQuery("https:h/?x")
    ensures AddApiVersionToUrl("https:h/?x")[10] == '?'
  {
    var u := "https:h/?x";
    SchemeFromPrefix(u, 0, 5);
    assert u[6..][0] == 'h';
  }

  /** Text free of ':' and not starting with '/' keeps a URL opaque or hierarchical. */
  lemma OpaqueAppend(url: string, x: string)
    requires x != [] && ':' !in x && x[0] != '/'
    ensures Opaque(url + x) <==> Opaque(url)
  {
    var r := url + x;
    SchemeFromAppend(url, x, 0);
    if Scheme(url).Some? {
      var n := |Scheme(url).value|;
      if n + 1 < |url| {
        assert r[n + 1] == url[n + 1];
        assert StartsWith(r[n + 1..], "/") <==> r[n + 1] == '/';
        assert StartsWith(url[n + 1..], "/") <==> url[n + 1] == '/';
      } else {
        assert r[n + 1..][0] == x[0];
      }
    }
  }

  /** OkHttp's HttpMethod.requiresRequestBody. */
  predicate RequiresRequestBody(verb: string) {
    verb in {"POST", "PUT", "PATCH", "PROPPATCH", "REPORT"}
  }

  /** Lines 231-235: an empty body for a body-requiring verb given no content, else the content if any. */
  function RequestBody(verb: string, content: Option<string>, contentType: string): (r: Option<Body>)
    ensures r.None? <==> content.None? && !RequiresRequestBody(verb)
    ensures content.Some? ==> r == Some(Body(Some(contentType), content.value))
    ensures content.None? && r.Some? ==> r.value == Body(None, "")
  {
    if RequiresRequestBody(verb) && content.None? then Some(Body(None, ""))
    else if content.Some? then Some(Body(Some(contentType), content.value))
    else None
  }

  /** Calendar "now + 5 minutes", truncated to seconds. */
  function Expiry(nowMillis: nat): (r: nat)
    ensures r == nowMillis / 1000 + 300
  {
    (nowMillis + ExpireMinutes * 60 * 1000) / 1000
  }

  /** The signature: URL-encoded, trimmed Base64 of the HMAC-SHA256 of the string to sign. */
  function Signature(p: Platform, key: string, toSign: string): string {
    p.urlEncode(Trim(p.base64(p.hmacSha256(key, toSign))))
  }

  function Lookup(m: map<string, string>, k: string): Option<string> {
    if k in m then Some(m[k]) else None
  }

  datatype TokenFields = TokenFields(sr: string, sig: string, se: string, skn: string)

  /** "SharedAccessSignature sr=<sr>&sig=<sig>&se=<se>&skn=<skn>" */
  function FormatToken(f: TokenFields): string {
    TokenPrefix + f.sr + "&sig=" + f.sig + "&se=" + f.se + "&skn=" + f.skn
  }

  /** generateAuthToken. */
  function AuthToken(conn: map<string, string>, url: string, nowMillis: nat, p: Platform): (r: Result<string, Error>)
    ensures r.Failure? <==> IsBlank(Lookup(conn, SharedAccessKeyNameKey)) || IsBlank(Lookup(conn, SharedAccessKeyKey))
    ensures r.Failure? ==> r.error == AssertionFailed(
      if IsBlank(Lookup(conn, SharedAccessKeyNameKey)) then SharedAccessKeyNameKey else SharedAccessKeyKey)
  {
    var keyName := Lookup(conn, SharedAccessKeyNameKey);
    var key := Lookup(conn, SharedAccessKeyKey);
    if IsBlank(keyName) then Failure(AssertionFailed(SharedAccessKeyNameKey))
    else if IsBlank(key) then Failure(AssertionFailed(SharedAccessKeyKey))
    else
      var encoded := LowerAscii(p.urlEncode(url));
      var expires := NatToString(Expiry(nowMillis));
      var toSign := encoded + "\n" + expires;
      Success(FormatToken(TokenFields(encoded, Signature(p, key.value, toSign), expires, keyName.value)))
  }

  // ----- Reading a token back -----

  /** s cut at its first c: the text before it and the text after it. */
  function Cut(s: string, c: char): (r: Option<(string, string)>)
    ensures r.Some? ==> s == r.value.0 + [c] + r.value.1 && c !in r.value.0
    ensures r.None? <==> c !in s
  {
    if s == [] then None
    else if s[0] == c then Some(([], s[1..]))
    else match Cut(s[1..], c)
      case None => None
      case Some((a, b)) => Some(([s[0]] + a, b))
  }

  lemma {:induction false} CutAt(a: string, b: string, c: char)
    requires c !in a
    ensures Cut(a + [c] + b, c) == Some((a, b))
  {
    if a == [] {
      assert a + [c] + b == [c] + b;
    } else {
      assert (a + [c] + b)[1..] == a[1..] + [c] + b;
      CutAt(a[1..], b, c);
      assert [a[0]] + a[1..] == a;
    }
  }

  /** Splits a SharedAccessSignature string into its sr, sig, se and skn fields. */
  function ParseToken(t: string): Option<TokenFields> {
    if StartsWith(t, TokenPrefix) then ParseFrom(t[|TokenPrefix|..]) else None
  }

  /** The fields after "sr=": sr up to the first '&', then "sig=", "se=" and "skn=". */
  function ParseFrom(s: string): Option<TokenFields> {
    match Cut(s, '&')
    case None => None
    case Some((sr, r1)) =>
      if !StartsWith(r1, "sig=") then None
      else match ParseSig(r1[4..])
        case None => None
        case Some((sig, se, skn)) => Some(TokenFields(sr, sig, se, skn))
  }

  function ParseSig(s: string): Option<(string, string, string)> {
    match Cut(s, '&')
    case None => None
    case Some((sig, r2)) =>
      if !StartsWith(r2, "se=") then None
      else match ParseSe(r2[3..])
        case None => None
        case Some((se, skn)) => Some((sig, se, skn))
  }

  function ParseSe(s: string): Option<(string, string)> {
    match Cut(s, '&')
    case None => None
    case Some((se, r3)) => if StartsWith(r3, "skn=") then Some((se, r3[4..])) else None
  }

  /** URLEncoder never emits '&' (it is written %26). */
  ghost predicate EncodesAmpersand(p: Platform) {
    forall s :: '&' !in p.urlEncode(s)
  }

  lemma LowerKeepsNoAmpersand(s: string)
    requires '&' !in s
    ensures '&' !in LowerAscii(s)
  {
  }

  /** A token whose sr, sig and se hold no '&' reads back as the fields it was written from. */
  lemma ParseFormatToken(f: TokenFields)
    requires '&' !in f.sr && '&' !in f.sig && '&' !in f.se
    ensures ParseToken(FormatToken(f)) == Some(f)
  {
    var r3 := "skn=" + f.skn;
    var r2 := "se=" + f.se + "&" + r3;
    var r1 := "sig=" + f.sig + "&" + r2;
    FormatTokenShape(f, r1, r2, r3);
    ParseSeStep(f.se, r3, f.skn);
    ParseSigStep(f.sig, r2, f.se, f.skn);
    ParseFromStep(f.sr, r1, f.sig, f.se, f.skn);
  }

  lemma FormatTokenShape(f: TokenFields, r1: string, r2: string, r3: string)
    requires r3 == "skn=" + f.skn && r2 == "se=" + f.se + "&" + r3 && r1 == "sig=" + f.sig + "&" + r2
    ensures StartsWith(FormatToken(f), TokenPrefix) && FormatToken(f)[|TokenPrefix|..] == f.sr + "&" + r1
    ensures StartsWith(r1, "sig=") && r1[4..] == f.sig + "&" + r2
    ensures StartsWith(r2, "se=") && r2[3..] == f.se + "&" + r3
    ensures StartsWith(r3, "skn=") && r3[4..] == f.skn
  {
    assert "&sig=" == "&" + "sig=";
    assert "&se=" == "&" + "se=";
    assert "&skn=" == "&" + "skn=";
    assert FormatToken(f) == TokenPrefix + (f.sr + "&" + r1);
  }

  lemma ParseSeStep(se: string, r3: string, skn: string)
    requires '&' !in se
    requires StartsWith(r3, "skn=") && r3[4..] == skn
    ensures ParseSe(se + "&" + r3) == Some((se, skn))
  {
    CutAt(se, r3, '&');
  }

  lemma ParseFromStep(sr: string, r1: string, sig: string, se: string, skn: string)
    requires '&' !in sr
    requires StartsWith(r1, "sig=") && ParseSig(r1[4..]) == Some((sig, se, skn))
    ensures ParseFrom(sr + "&" + r1) == Some(TokenFields(sr, sig, se, skn))
  {
    CutAt(sr, r1, '&');
  }

  lemma ParseSigStep(sig: string, r2: string, se: string, skn: string)
    requires '&' !in sig
    requires StartsWith(r2, "se=") && ParseSe(r2[3..]) == Some((se, skn))
    ensures ParseSig(sig + "&" + r2) == Some((sig, se, skn))
  {
    CutAt(sig, r2, '&');
  }

  /**
   * The token carries the lower-cased encoded URL in sr, the expiry
   * now + 300 s in se, the key name in skn, and sig is the signature of
   * exactly "sr\nse" under the shared key.
   */
  lemma AuthTokenFields(conn: map<string, string>, url: string, nowMillis: nat, p: Platform)
    requires EncodesAmpersand(p)
    requires AuthToken(conn, url, nowMillis, p).Success?
    ensures var sr := LowerAscii(p.urlEncode(url));
            var se := NatToString(nowMillis / 1000 + 300);
            ParseToken(AuthToken(conn, url, nowMillis, p).value)
              == Some(TokenFields(sr, Signature(p, conn[SharedAccessKeyKey], sr + "\n" + se), se, conn[SharedAccessKeyNameKey]))
  {
    var sr := LowerAscii(p.urlEncode(url));
    var se := NatToString(Expiry(nowMillis));
    LowerKeepsNoAmpersand(p.urlEncode(url));
    assert '&' !in se;
    ParseFormatToken(TokenFields(sr, Signature(p, conn[SharedAccessKeyKey], sr + "\n" + se), se, conn[SharedAccessKeyNameKey]));
  }

  // ----- Response classification -----

  /** A header bears the name, ignoring ASCII case, as OkHttp's Headers compares names. */
  predicate NameMatches(h: Header, name: string) {
    LowerAscii(h.name) == LowerAscii(name)
  }

  /**
   * Response.headers(name): the values of every header with that name,
   * ignoring ASCII case, in the order the headers came. With
   * HeaderValuesAppend, the first two ensures fix the value.
   */
  function HeaderValues(headers: seq<Header>, name: string): (r: seq<string>)
    ensures headers == [] ==> r == []
    ensures |headers| == 1 ==> r == (if NameMatches(headers[0], name) then [headers[0].value] else [])
    ensures |r| <= |headers|
    ensures forall v :: v in r <==> exists h :: h in headers && NameMatches(h, name) && h.value == v
  {
    if headers == [] then []
    else
      var here := if NameMatches(headers[0], name) then [headers[0].value] else [];
      here + HeaderValues(headers[1..], name)
  }

  /** The values of two runs of headers are those of the first run, then those of the second. */
  lemma {:induction false} HeaderValuesAppend(a: seq<Header>, b: seq<Header>, name: string)
    ensures HeaderValues(a + b, name) == HeaderValues(a, name) + HeaderValues(b, name)
  {
    if a == [] {
      assert a + b == b;
    } else {
      assert (a + b)[0] == a[0] && (a + b)[1..] == a[1..] + b;
      HeaderValuesAppend(a[1..], b, name);
    }
  }

  /** The first value is that of the first header bearing the name. */
  lemma HeaderValuesFirst(headers: seq<Header>, name: string, i: nat)
    requires i < |headers| && NameMatches(headers[i], name)
    requires forall j :: 0 <= j < i ==> !NameMatches(headers[j], name)
    ensures HeaderValues(headers, name) != [] && HeaderValues(headers, name)[0] == headers[i].value
  {
    var pre, post := headers[..i], headers[i + 1..];
    assert headers == pre + ([headers[i]] + post);
    HeaderValuesAppend(pre, [headers[i]] + post, name);
    HeaderValuesAppend([headers[i]], post, name);
    HeaderValuesNone(pre, name);
  }

  /** No header bearing the name, no value. */
  lemma {:induction false} HeaderValuesNone(headers: seq<Header>, name: string)
    requires forall j :: 0 <= j < |headers| ==> !NameMatches(headers[j], name)
    ensures HeaderValues(headers, name) == []
  {
    if headers != [] {
      HeaderValuesNone(headers[1..], name);
    }
  }

  predicate IsSuccessStatus(status: int) {
    200 <= status < 300
  }

  /** The error a non-2xx status maps to. */
  function StatusError(status: int, body: Option<string>): Error {
    if status == 404 then ResourceNotFound
    else if status == 401 then Unauthorized
    else if status == 410 then RegistrationGone
    else NotificationHubException(body, status)
  }

  /** executeRequest(Request, String): the body, the target header's first value, or an exception. */
  function Classify(resp: Response, target: Option<string>): (r: Result<Option<string>, Error>)
    ensures r.Success? <==> IsSuccessStatus(resp.status) && (target.None? || HeaderValues(resp.headers, target.value) != [])
    ensures r.Success? && target.None? ==> r.value == resp.body
    ensures r.Success? && target.Some? ==> r.value == Some(HeaderValues(resp.headers, target.value)[0])
    ensures r == Failure(RegistrationGone) <==> resp.status == 410
    ensures r == Failure(ResourceNotFound) <==> resp.status == 404
    ensures r == Failure(Unauthorized) <==> resp.status == 401
    ensures !IsSuccessStatus(resp.status) ==> r == Failure(StatusError(resp.status, resp.body))
    ensures IsSuccessStatus(resp.status) && r.Failure? ==>
      target.Some? && r.error == NotificationHubException(Some("The '" + target.value + "' header does not present in collection"), resp.status)
  {
    var missing := target.Some? && HeaderValues(resp.headers, target.value) == [];
    if IsSuccessStatus(resp.status) then
      if missing then Failure(NotificationHubException(Some("The '" + target.value + "' header does not present in collection"), resp.status))
      else if target.None? then Success(resp.body)
      else Success(Some(HeaderValues(resp.headers, target.value)[0]))
    else Failure(StatusError(resp.status, resp.body))
  }

  /** A 2xx reply yields the value of the first header bearing the target name. */
  lemma ClassifyFirstHeader(resp: Response, target: string, i: nat)
    requires IsSuccessStatus(resp.status)
    requires i < |resp.headers| && NameMatches(resp.headers[i], target)
    requires forall j :: 0 <= j < i ==> !NameMatches(resp.headers[j], target)
    ensures Classify(resp, Some(target)) == Success(Some(resp.headers[i].value))
  {
    HeaderValuesFirst(resp.headers, target, i);
  }

  // ----- The request and its execution -----

  /** True when the credentials let every request be built: a parsable endpoint with a scheme, a key name and a key. */
  predicate CanSend(conn: map<string, string>, p: Platform) {
    EndpointKey in conn && UriParses(p, conn[EndpointKey]) && Scheme(conn[EndpointKey]).Some?
    && !IsBlank(Lookup(conn, SharedAccessKeyNameKey)) && !IsBlank(Lookup(conn, SharedAccessKeyKey))
  }

  /** The request the private executeRequest builds, or the exception raised while building it. */
  function BuildRequest(conn: map<string, string>, p: Platform, resource: string, content: Option<string>,
                        contentType: string, verb: string, extra: seq<Header>, nowMillis: nat): (r: Result<Request, Error>)
    ensures r.Success? <==> CanSend(conn, p)
    ensures r.Failure? ==> r.error.NullPointer? || r.error.UriSyntax? || r.error.AssertionFailed?
    ensures r.Success? ==>
      && r.value.verb == verb
      && r.value.url == AddApiVersionToUrl(ResourceUrl(conn, p, resource).value)
      && r.value.body == RequestBody(verb, content, contentType)
      && r.value.headers == extra + [Header("User-Agent", p.userAgent),
                                     Header(AuthorizationHeader, AuthToken(conn, r.value.url, nowMillis, p).value)]
  {
    match ResourceUrl(conn, p, resource)
    case Failure(e) => Failure(e)
    case Success(base) =>
      var url := AddApiVersionToUrl(base);
      match AuthToken(conn, url, nowMillis, p)
      case Failure(e) => Failure(e)
      case Success(token) =>
        Success(Request(verb, url, RequestBody(verb, content, contentType),
                        extra + [Header("User-Agent", p.userAgent), Header(AuthorizationHeader, token)]))
  }

  /**
   * The signed URL is the one the request goes to, api-version query
   * included: the token's sr field is that URL, encoded and lower-cased.
   */
  lemma SignedUrlIsRequestUrl(conn: map<string, string>, p: Platform, resource: string, content: Option<string>,
                              contentType: string, verb: string, extra: seq<Header>, nowMillis: nat)
    requires EncodesAmpersand(p)
    requires CanSend(conn, p)
    ensures var req := BuildRequest(conn, p, resource, content, contentType, verb, extra, nowMillis).value;
            var se := NatToString(nowMillis / 1000 + 300);
            && EndsWith(req.url, ApiVersionKey + "=" + ApiVersion)
            && ParseToken(req.headers[|req.headers| - 1].value) == Some(TokenFields(
                 LowerAscii(p.urlEncode(req.url)),
                 Signature(p, conn[SharedAccessKeyKey], LowerAscii(p.urlEncode(req.url)) + "\n" + se),
                 se, conn[SharedAccessKeyNameKey]))
  {
    var req := BuildRequest(conn, p, resource, content, contentType, verb, extra, nowMillis).value;
    AuthTokenFields(conn, req.url, nowMillis, p);
  }

  /** The HTTP executor: responses are a fixed function of the call number and the request. */
  class Transport {
    const respond: (nat, Request) -> Response
    /** Wall-clock time in milliseconds when the call with that number is prepared. */
    const clock: nat -> nat
    /** Every request sent so far, in order. */
    var sent: seq<Request>

    constructor (respond: (nat, Request) -> Response, clock: nat -> nat)
      ensures this.respond == respond && this.clock == clock && sent == []
    {
      this.respond := respond;
      this.clock := clock;
      sent := [];
    }

    function Now(): nat
      reads this
    {
      clock(|sent|)
    }

    method Send(req: Request) returns (resp: Response)
      modifies this
      ensures sent == old(sent) + [req]
      ensures resp == respond(|old(sent)|, req)
    {
      resp := respond(|sent|, req);
      sent := sent + [req];
    }
  }

  /**
   * The private executeRequest: builds the URL step by step, the body and
   * the headers, sends the request (unless building it threw) and
   * classifies the response.
   */
  method Execute(conn: map<string, string>, t: Transport, p: Platform, resource: string, content: Option<string>,
                 contentType: string, verb: string, target: Option<string>, extra: seq<Header>)
    returns (r: Result<Option<string>, Error>)
    modifies t
    ensures var req := BuildRequest(conn, p, resource, content, contentType, verb, extra, old(t.Now()));
      && (req.Failure? ==> t.sent == old(t.sent) && r == Failure(req.error))
      && (req.Success? ==> t.sent == old(t.sent) + [req.value] && r == Classify(t.respond(|old(t.sent)|, req.value), target))
  {
    if EndpointKey !in conn {
      return Failure(NullPointer("endpoint"));
    }
    var endpoint := conn[EndpointKey];
    if !UriParses(p, endpoint) {
      return Failure(UriSyntax(endpoint));
    }
    var scheme := Scheme(endpoint);
    if scheme.None? {
      return Failure(NullPointer("scheme"));
    }
    var url := "https" + endpoint[|scheme.value|..];
    if !EndsWith(url, "/") {
      url := url + "/";
    }
    url := url + resource;
    url := AddApiVersionToUrl(url);
    var body := RequestBody(verb, content, contentType);
    var token := AuthToken(conn, url, t.Now(), p);
    if token.Failure? {
      return Failure(token.error);
    }
    var headers := extra + [Header("User-Agent", p.userAgent), Header(AuthorizationHeader, token.value)];
    var resp := t.Send(Request(verb, url, body, headers));
    r := Classify(resp, target);
  }
}
