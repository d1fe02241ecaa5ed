/** The ERPNext session helpers: base-URL normalisation, the token exchange, the
    connection self-test and the four authorised resource fetches. Each
    operation is a straight line of requests; the network is the function `net`
    from a request to what the client returned or threw, and each operation
    reports the requests it sent, in order, with its outcome. */
module ERPNext {
  import opened Common

  // ---------------------------------------------------------------------------
  // Base-URL normalisation

  /** The code points `String.prototype.trim` removes: the ECMAScript WhiteSpace
      and LineTerminator characters. */
  predicate IsJsWhitespace(c: char) {
    if c < '\U{80}' then ('\t' <= c <= '\r') || c == ' '
    else (c == '\U{A0}' || c == '\U{1680}' || ('\U{2000}' <= c <= '\U{200A}') ||
          ('\U{2028}' <= c <= '\U{2029}') || c == '\U{202F}' || c == '\U{205F}' || c == '\U{3000}' ||
          c == '\U{FEFF}')
  }

  function TrimStart(s: string): (r: string)
    ensures |r| <= |s| && r == s[|s| - |r|..]
    ensures forall i :: 0 <= i < |s| - |r| ==> IsJsWhitespace(s[i])
    ensures r != [] ==> !IsJsWhitespace(r[0])
  {
    if s != [] && IsJsWhitespace(s[0]) then TrimStart(s[1..]) else s
  }

  function TrimEnd(s: string): (r: string)
    ensures |r| <= |s| && r == s[..|r|]
    ensures forall i :: |r| <= i < |s| ==> IsJsWhitespace(s[i])
    ensures r != [] ==> !IsJsWhitespace(r[|r| - 1])
  {
    if s != [] && IsJsWhitespace(s[|s| - 1]) then TrimEnd(s[..|s| - 1]) else s
  }

  /** `r` is the part of `s` from `lo`, with only whitespace around it in `s`. */
  predicate TrimmedAt(s: string, r: string, lo: int) {
    0 <= lo <= |s| - |r| && r == s[lo..lo + |r|] &&
    (forall i :: 0 <= i < lo ==> IsJsWhitespace(s[i])) &&
    (forall i :: lo + |r| <= i < |s| ==> IsJsWhitespace(s[i]))
  }

  /** `s.trim()`: the largest middle part of `s` with no whitespace at either end. */
  function Trim(s: string): (r: string)
    ensures exists lo :: TrimmedAt(s, r, lo)
    ensures r != [] ==> !IsJsWhitespace(r[0]) && !IsJsWhitespace(r[|r| - 1])
  {
    var t := TrimStart(s);
    var r := TrimEnd(t);
    assert TrimmedAt(s, r, |s| - |t|) by {
      forall i | |s| - |t| + |r| <= i < |s| ensures IsJsWhitespace(s[i]) {
        assert s[i] == t[i - (|s| - |t|)];
      }
    }
    r
  }

  /** A string with no whitespace at either end is its own trim. */
  lemma TrimKeepsTrimmed(s: string)
    requires s != [] ==> !IsJsWhitespace(s[0]) && !IsJsWhitespace(s[|s| - 1])
    ensures Trim(s) == s
  {
  }

  predicate HasScheme(s: string)
    ensures HasScheme(s) ==> |s| >= 7 && s[..4] == "http" && (s[4..7] == "://" || (|s| >= 8 && s[4..8] == "s://"))
  {
    StartsWith(s, "http://") || StartsWith(s, "https://")
  }

  /** `t`, with `https://` put in front unless it already names a scheme. */
  function WithScheme(t: string): (s: string)
    ensures HasScheme(s)
    ensures |s| >= 7 && s[..4] == "http"
    ensures HasScheme(t) ==> s == t
    ensures !HasScheme(t) ==> s == "https://" + t
  {
    if HasScheme(t) then
      assert t[..4] == (if StartsWith(t, "http://") then t[..7] else t[..8])[..4];
      t
    else
      var s := "https://" + t;
      assert s[..8] == "https://";
      assert s[..4] == s[..8][..4];
      s
  }

  /** The trimmed input, with a scheme. */
  function Schemed(url: string): (s: string)
    ensures HasScheme(s)
    ensures |s| >= 7 && s[..4] == "http"
  {
    WithScheme(Trim(url))
  }

  /** `normalizeUrl`: the schemed input without one trailing slash, if it has one. */
  function NormalizeUrl(url: string): (r: string)
    ensures var s := Schemed(url);
      |s| - 1 <= |r| <= |s| && r == s[..|r|] && (|r| < |s| <==> EndsWith(s, "/"))
    ensures StartsWith(r, "http")
  {
    var s := Schemed(url);
    if EndsWith(s, "/") then
      var r := s[..|s| - 1];
      assert r[..4] == s[..4];
      r
    else s
  }

  /** A trimmed URL that names its scheme and does not end in a slash is left as it is. */
  lemma NormalizeFixedPoint(u: string)
    requires u != [] ==> !IsJsWhitespace(u[0]) && !IsJsWhitespace(u[|u| - 1])
    requires HasScheme(u) && !EndsWith(u, "/")
    ensures NormalizeUrl(u) == u
  {
    TrimKeepsTrimmed(u);
  }

  /** Normalising a result again changes nothing as long as that result names a
      scheme, does not end in a slash and does not end in whitespace. */
  lemma NormalizeStable(u: string)
    requires var r := NormalizeUrl(u); HasScheme(r) && !EndsWith(r, "/") && !IsJsWhitespace(r[|r| - 1])
    ensures NormalizeUrl(NormalizeUrl(u)) == NormalizeUrl(u)
  {
    var r := NormalizeUrl(u);
    assert r[0] == 'h';
    NormalizeFixedPoint(r);
  }

  lemma NoSchemeUnlessH(u: string)
    requires u != [] && u[0] != 'h'
    ensures !HasScheme(u)
  {
    assert |u| >= 7 ==> u[..7][0] == u[0];
    assert |u| >= 8 ==> u[..8][0] == u[0];
  }

  /** A trimmed input without a scheme gets `https://` and loses one trailing slash. */
  lemma NormalizeBare(u: string)
    requires u != [] && !IsJsWhitespace(u[0]) && !IsJsWhitespace(u[|u| - 1])
    requires !HasScheme(u)
    ensures EndsWith(u, "/") ==> NormalizeUrl(u) == "https://" + u[..|u| - 1]
    ensures !EndsWith(u, "/") ==> NormalizeUrl(u) == "https://" + u
  {
    TrimKeepsTrimmed(u);
    var s := "https://" + u;
    assert Schemed(u) == s;
    assert EndsWith(s, "/") <==> EndsWith(u, "/") by {
      assert s[|s| - 1..] == u[|u| - 1..];
    }
    assert s[..|s| - 1] == "https://" + u[..|u| - 1];
  }

  /** A trimmed input with a scheme keeps it and loses one trailing slash. */
  lemma NormalizeSchemed(u: string)
    requires u != [] && !IsJsWhitespace(u[0]) && !IsJsWhitespace(u[|u| - 1])
    requires HasScheme(u)
    ensures EndsWith(u, "/") ==> NormalizeUrl(u) == u[..|u| - 1]
    ensures !EndsWith(u, "/") ==> NormalizeUrl(u) == u
  {
    TrimKeepsTrimmed(u);
  }

  /** Normalising is not idempotent in general: of two trailing slashes only
      one goes, so normalising the result again changes it once more; so it is
      for "a.com//", which becomes "https://a.com/" and then "https://a.com". */
  lemma NormalizeNotIdempotent(host: string)
    requires host != [] && host[0] != 'h' && !IsJsWhitespace(host[0])
    ensures NormalizeUrl(host + "//") == "https://" + host + "/"
    ensures NormalizeUrl(NormalizeUrl(host + "//")) == "https://" + host
    ensures NormalizeUrl(NormalizeUrl(host + "//")) != NormalizeUrl(host + "//")
  {
    var u := host + "//";
    assert u[0] == host[0] && u[|u| - 1] == '/';
    assert u[|u| - 1..] == "/";
    NoSchemeUnlessH(u);
    NormalizeBare(u);
    assert u[..|u| - 1] == host + "/";
    var v := "https://" + host + "/";
    assert v == "https://" + u[..|u| - 1];
    assert v[..8] == "https://";
    assert v[0] == 'h' && v[|v| - 1] == '/';
    assert v[|v| - 1..] == "/";
    NormalizeSchemed(v);
    assert v[..|v| - 1] == "https://" + host;
  }

  /** A bare scheme loses a slash of its own: "https://" becomes "https:/". */
  lemma NormalizeBareScheme(u: string)
    requires u == "https://"
    ensures NormalizeUrl(u) == "https:/"
  {
    assert u[..8] == "https://";
    assert u[|u| - 1..] == "/";
    NormalizeSchemed(u);
    assert u[..|u| - 1] == "https:/";
  }

  /** What is left of a bare scheme no longer names one, so normalising it
      again puts `https://` in front of it. */
  lemma BareSchemeLosesScheme(r: string)
    requires r == "https:/"
    ensures !HasScheme(r)
  {
    assert r[4] == 's';
    assert |r| >= 7 ==> r[..7][4] == r[4];
  }

  /** Surrounding whitespace never matters: normalising trims first. */
  lemma NormalizeIgnoresWhitespace(u: string)
    ensures NormalizeUrl(Trim(u)) == NormalizeUrl(u)
  {
    TrimKeepsTrimmed(Trim(u));
  }

  // ---------------------------------------------------------------------------
  // Error shaping

  /** `handleAxiosError(e).message`: the response body's `message` if present
      and non-empty, else the error's own message; a thrown value that is not an
      `Error` becomes 'An unknown error occurred'. */
  function HandleAxiosError(e: Thrown): (m: string)
    ensures e.AxiosFailure? && e.responseMessage.Some? && e.responseMessage.value != "" ==> m == e.responseMessage.value
    ensures e.AxiosFailure? && (e.responseMessage.None? || e.responseMessage.value == "") ==> m == e.message
    ensures e.PlainFailure? ==> m == e.message
    ensures e.NonError? ==> m == "An unknown error occurred"
  {
    match e
    case AxiosFailure(message, responseMessage) =>
      if responseMessage.Some? && responseMessage.value != "" then responseMessage.value else message
    case PlainFailure(message) => message
    case NonError => "An unknown error occurred"
  }

  /** `throw new Error(prefix + handleAxiosError(e).message)`. */
  function Rethrow(prefix: string, e: Thrown): (t: Thrown)
    ensures t.PlainFailure? && StartsWith(t.message, prefix)
    ensures t.message[|prefix|..] == HandleAxiosError(e)
  {
    assert (prefix + HandleAxiosError(e))[..|prefix|] == prefix;
    PlainFailure(prefix + HandleAxiosError(e))
  }

  // ---------------------------------------------------------------------------
  // Requests and responses

  /** One `[doctype, field, operator, value]` filter triple. */
  datatype Filter = Filter(doctype: string, field: string, operator: string, value: string)

  /** Query parameters of a GET: none, or `fields=["*"]` with optional `filters`. */
  datatype Query = NoQuery | AllFields(filters: Option<seq<Filter>>)

  datatype Request =
    | TokenRequest(url: string, apiKey: string, apiSecret: string)  // POST, JSON body
    | BearerGet(url: string, token: string, query: Query)             // GET, Authorization: Bearer

  /** A record as the server sent it. */
  datatype Record = Record(fields: map<string, string>)

  datatype Data = Many(records: seq<Record>) | One(record: Record)

  /** The keys of a response body the dashboard reads. */
  datatype Body = Body(token: Option<string>, message: Option<string>, data: Option<Data>)

  /** The requests an operation sent, in order, and how it ended. */
  datatype Exchange<T> = Exchange(sent: seq<Request>, result: Outcome<T>)

  const TokenPath: string := "/api/method/frappe.auth.get_token"
  const LoggedUserPath: string := "/api/method/frappe.auth.get_logged_user"
  const AuthPrefix: string := "Authentication failed: "
  const NoTokenMessage: string := "No token received from ERPNext"

  /** The POST of `getAuthToken`: the key pair as the JSON body, sent to the
      token method under the base URL. */
  function TokenRequestFor(baseUrl: string, apiKey: string, apiSecret: string): (r: Request)
    ensures r.TokenRequest? && r.apiKey == apiKey && r.apiSecret == apiSecret
    ensures StartsWith(r.url, baseUrl) && EndsWith(r.url, TokenPath)
  {
    assert (baseUrl + TokenPath)[..|baseUrl|] == baseUrl;
    assert (baseUrl + TokenPath)[|baseUrl|..] == TokenPath;
    TokenRequest(baseUrl + TokenPath, apiKey, apiSecret)
  }

  /** The token a token response carries, if it carries a non-empty one. */
  predicate GrantsToken(o: Outcome<Body>) {
    o.Ok? && o.value.token.Some? && o.value.token.value != ""
  }

  /** `getAuthToken`: one POST of the key pair; any failure, or a response
      without a token, is rethrown as an "Authentication failed" error. */
  function GetAuthToken(baseUrl: string, apiKey: string, apiSecret: string, net: Request -> Outcome<Body>): (x: Exchange<string>)
    ensures x.sent == [TokenRequestFor(baseUrl, apiKey, apiSecret)]
    ensures x.result.Ok? <==> GrantsToken(net(TokenRequestFor(baseUrl, apiKey, apiSecret)))
    ensures x.result.Ok? ==> net(TokenRequestFor(baseUrl, apiKey, apiSecret)).value.token == Some(x.result.value)
    ensures x.result.Err? ==> x.result.error.PlainFailure? && StartsWith(x.result.error.message, AuthPrefix)
    ensures net(TokenRequestFor(baseUrl, apiKey, apiSecret)).Ok? && x.result.Err? ==>
              x.result.error.message == AuthPrefix + NoTokenMessage
    ensures net(TokenRequestFor(baseUrl, apiKey, apiSecret)).Err? ==>
              x.result.error.message == AuthPrefix + HandleAxiosError(net(TokenRequestFor(baseUrl, apiKey, apiSecret)).error)
  {
    var req := TokenRequestFor(baseUrl, apiKey, apiSecret);
    var result :=
      match net(req)
      case Err(e) => Err(Rethrow(AuthPrefix, e))
      case Ok(b) =>
        if b.token.None? || b.token.value == "" then Err(Rethrow(AuthPrefix, PlainFailure(NoTokenMessage)))
        else Ok(b.token.value);
    Exchange([req], result)
  }

  /** Normalise the URL, get a fresh token, then send one authorised GET to
      `path` under the base URL. */
  function AuthorizedGet(url: string, apiKey: string, apiSecret: string, path: string, query: Query,
                         net: Request -> Outcome<Body>): (x: Exchange<Body>)
    ensures var auth := GetAuthToken(NormalizeUrl(url), apiKey, apiSecret, net);
      |x.sent| >= 1 && x.sent[0] == TokenRequestFor(NormalizeUrl(url), apiKey, apiSecret) &&
      (auth.result.Err? ==> x.sent == auth.sent && x.result == Err(auth.result.error)) &&
      (auth.result.Ok? ==>
         var get := BearerGet(NormalizeUrl(url) + path, auth.result.value, query);
         x.sent == auth.sent + [get] && x.result == net(get))
  {
    var baseUrl := NormalizeUrl(url);
    var auth := GetAuthToken(baseUrl, apiKey, apiSecret, net);
    match auth.result
    case Err(e) => Exchange(auth.sent, Err(e))
    case Ok(token) =>
      var get := BearerGet(baseUrl + path, token, query);
      Exchange(auth.sent + [get], net(get))
  }

  // ---------------------------------------------------------------------------
  // The connection self-test

  datatype ConnectionReport = ConnectionReport(success: bool, message: string, user: Option<string>)

  /** `testERPNextConnection`: never throws; every failure becomes a report with
      `success` false and a "Connection failed: " message. */
  function TestConnection(url: string, apiKey: string, apiSecret: string, net: Request -> Outcome<Body>): (x: Exchange<ConnectionReport>)
    ensures x.result.Ok?
    ensures var answer := AuthorizedGet(url, apiKey, apiSecret, LoggedUserPath, NoQuery, net);
      x.sent == answer.sent &&
      (x.result.value.success <==> answer.result.Ok?) &&
      (answer.result.Ok? ==> x.result.value.user == answer.result.value.message) &&
      (answer.result.Err? ==> x.result.value.message == "Connection failed: " + HandleAxiosError(answer.result.error))
    ensures x.result.value.success ==> x.result.value.message == "Successfully connected to ERPNext"
    ensures !x.result.value.success ==> StartsWith(x.result.value.message, "Connection failed: ")
  {
    var answer := AuthorizedGet(url, apiKey, apiSecret, LoggedUserPath, NoQuery, net);
    var report :=
      match answer.result
      case Ok(b) => ConnectionReport(true, "Successfully connected to ERPNext", b.message)
      case Err(e) => ConnectionReport(false, Rethrow("Connection failed: ", e).message, None);
    Exchange(answer.sent, Ok(report))
  }

  /** A refused token request ends the self-test after one request, with the
      authentication failure in the report. */
  lemma TestConnectionWithoutToken(url: string, apiKey: string, apiSecret: string, net: Request -> Outcome<Body>)
    requires !GrantsToken(net(TokenRequestFor(NormalizeUrl(url), apiKey, apiSecret)))
    ensures var x := TestConnection(url, apiKey, apiSecret, net);
      x.sent == [TokenRequestFor(NormalizeUrl(url), apiKey, apiSecret)] && !x.result.value.success &&
      StartsWith(x.result.value.message, "Connection failed: " + AuthPrefix)
  {
    var auth := GetAuthToken(NormalizeUrl(url), apiKey, apiSecret, net);
    StartsWithBehind("Connection failed: ", auth.result.error.message, AuthPrefix);
  }

  // ---------------------------------------------------------------------------
  // The resource fetches

  /** The customer search filter: none for an empty query, else one `like`
      triple on the customer name. */
  function ClientFilters(searchQuery: string): (f: Option<seq<Filter>>)
    ensures f.None? <==> searchQuery == ""
    ensures f.Some? ==>
      |f.value| == 1 && f.value[0].doctype == "Customer" &&
      f.value[0].field == "customer_name" && f.value[0].operator == "like" &&
      f.value[0].value == "%" + searchQuery + "%"
  {
    if searchQuery != "" then Some([Filter("Customer", "customer_name", "like", "%" + searchQuery + "%")]) else None
  }

  /** `response.data?.data || []`: the records the server sent, and the empty
      list when the body carries none. */
  function DataOrEmpty(b: Body): (d: Data)
    ensures b.data.Some? ==> d == b.data.value
    ensures b.data.None? ==> d == Many([])
  {
    b.data.GetOr(Many([]))
  }

  /** `fetchERPNextClients`. */
  function FetchClients(url: string, apiKey: string, apiSecret: string, searchQuery: string,
                        net: Request -> Outcome<Body>): (x: Exchange<Data>)
    ensures var answer := AuthorizedGet(url, apiKey, apiSecret, "/api/resource/Customer", AllFields(ClientFilters(searchQuery)), net);
      x.sent == answer.sent &&
      (answer.result.Ok? ==> x.result == Ok(DataOrEmpty(answer.result.value))) &&
      (answer.result.Err? ==> x.result == Err(Rethrow("Failed to fetch clients: ", answer.result.error)))
    ensures x.result.Err? ==> StartsWith(x.result.error.message, "Failed to fetch clients: ")
  {
    var answer := AuthorizedGet(url, apiKey, apiSecret, "/api/resource/Customer", AllFields(ClientFilters(searchQuery)), net);
    match answer.result
    case Ok(b) => Exchange(answer.sent, Ok(DataOrEmpty(b)))
    case Err(e) => Exchange(answer.sent, Err(Rethrow("Failed to fetch clients: ", e)))
  }

  /** `fetchClientDetails`: `response.data?.data`, which may be absent. */
  function FetchClientDetails(url: string, apiKey: string, apiSecret: string, clientId: string,
                              net: Request -> Outcome<Body>): (x: Exchange<Option<Data>>)
    ensures var answer := AuthorizedGet(url, apiKey, apiSecret, "/api/resource/Customer/" + EncodeUriComponent(clientId), NoQuery, net);
      x.sent == answer.sent &&
      (answer.result.Ok? ==> x.result == Ok(answer.result.value.data)) &&
      (answer.result.Err? ==> x.result == Err(Rethrow("Failed to fetch client details: ", answer.result.error)))
    ensures x.result.Err? ==> StartsWith(x.result.error.message, "Failed to fetch client details: ")
  {
    var answer := AuthorizedGet(url, apiKey, apiSecret, "/api/resource/Customer/" + EncodeUriComponent(clientId), NoQuery, net);
    match answer.result
    case Ok(b) => Exchange(answer.sent, Ok(b.data))
    case Err(e) => Exchange(answer.sent, Err(Rethrow("Failed to fetch client details: ", e)))
  }

  /** `fetchClientOrders`: the sales orders whose customer equals the id. */
  function FetchClientOrders(url: string, apiKey: string, apiSecret: string, clientId: string,
                             net: Request -> Outcome<Body>): (x: Exchange<Data>)
    ensures var answer := AuthorizedGet(url, apiKey, apiSecret, "/api/resource/Sales Order",
                                        AllFields(Some([Filter("Sales Order", "customer", "=", clientId)])), net);
      x.sent == answer.sent &&
      (answer.result.Ok? ==> x.result == Ok(DataOrEmpty(answer.result.value))) &&
      (answer.result.Err? ==> x.result == Err(Rethrow("Failed to fetch client orders: ", answer.result.error)))
    ensures x.result.Err? ==> StartsWith(x.result.error.message, "Failed to fetch client orders: ")
  {
    var answer := AuthorizedGet(url, apiKey, apiSecret, "/api/resource/Sales Order",
                                AllFields(Some([Filter("Sales Order", "customer", "=", clientId)])), net);
    match answer.result
    case Ok(b) => Exchange(answer.sent, Ok(DataOrEmpty(b)))
    case Err(e) => Exchange(answer.sent, Err(Rethrow("Failed to fetch client orders: ", e)))
  }

  /** `fetchClientComments`: the comments whose reference name equals the id. */
  function FetchClientComments(url: string, apiKey: string, apiSecret: string, clientId: string,
                               net: Request -> Outcome<Body>): (x: Exchange<Data>)
    ensures var answer := AuthorizedGet(url, apiKey, apiSecret, "/api/resource/Comment",
                                        AllFields(Some([Filter("Comment", "reference_name", "=", clientId)])), net);
      x.sent == answer.sent &&
      (answer.result.Ok? ==> x.result == Ok(DataOrEmpty(answer.result.value))) &&
      (answer.result.Err? ==> x.result == Err(Rethrow("Failed to fetch client comments: ", answer.result.error)))
    ensures x.result.Err? ==> StartsWith(x.result.error.message, "Failed to fetch client comments: ")
  {
    var answer := AuthorizedGet(url, apiKey, apiSecret, "/api/resource/Comment",
                                AllFields(Some([Filter("Comment", "reference_name", "=", clientId)])), net);
    match answer.result
    case Ok(b) => Exchange(answer.sent, Ok(DataOrEmpty(b)))
    case Err(e) => Exchange(answer.sent, Err(Rethrow("Failed to fetch client comments: ", e)))
  }

  /** Every fetch starts with its own token exchange against the normalised
      URL; a refused exchange ends it there, with the fetch's prefix in front of
      "Authentication failed: ". */
  lemma FetchClientsWithoutToken(url: string, apiKey: string, apiSecret: string, q: string, net: Request -> Outcome<Body>)
    requires !GrantsToken(net(TokenRequestFor(NormalizeUrl(url), apiKey, apiSecret)))
    ensures var x := FetchClients(url, apiKey, apiSecret, q, net);
      x.sent == [TokenRequestFor(NormalizeUrl(url), apiKey, apiSecret)] && x.result.Err? &&
      StartsWith(x.result.error.message, "Failed to fetch clients: " + AuthPrefix)
  {
    var auth := GetAuthToken(NormalizeUrl(url), apiKey, apiSecret, net);
    assert auth.result.Err?;
    StartsWithBehind("Failed to fetch clients: ", auth.result.error.message, AuthPrefix);
  }

  /** With a token granted, the second request is the customer GET carrying the
      search filter. */
  lemma FetchClientsWithToken(url: string, apiKey: string, apiSecret: string, q: string, net: Request -> Outcome<Body>)
    requires GrantsToken(net(TokenRequestFor(NormalizeUrl(url), apiKey, apiSecret)))
    ensures var x := FetchClients(url, apiKey, apiSecret, q, net);
      |x.sent| == 2 && x.sent[0] == TokenRequestFor(NormalizeUrl(url), apiKey, apiSecret) &&
      x.sent[1] == BearerGet(NormalizeUrl(url) + "/api/resource/Customer",
                             net(TokenRequestFor(NormalizeUrl(url), apiKey, apiSecret)).value.token.value,
                             AllFields(ClientFilters(q)))
  {
    var auth := GetAuthToken(NormalizeUrl(url), apiKey, apiSecret, net);
    assert auth.result.Ok?;
  }

  // ---------------------------------------------------------------------------
  // encodeURIComponent, for the client-details path

  /** The characters `encodeURIComponent` leaves as they are. */
  predicate IsUriUnreserved(c: char) {
    ('A' <= c <= 'Z') || ('a' <= c <= 'z') || ('0' <= c <= '9') ||
    c == '-' || c == '_' || c == '.' || c == '!' || c == '~' || c == '*' || c == '\'' || c == '(' || c == ')'
  }

  function HexDigit(n: int): (c: char)
    requires 0 <= n < 16
    ensures ('0' <= c <= '9') || ('A' <= c <= 'F')
  {
    if n < 10 then ('0' as int + n) as char else ('A' as int + n - 10) as char
  }

  /** The UTF-8 bytes of one code point. */
  function Utf8(c: char): (bytes: seq<int>)
    ensures 1 <= |bytes| <= 4
    ensures forall i :: 0 <= i < |bytes| ==> 0 <= bytes[i] < 256
  {
    var n := c as int;
    if n < 0x80 then [n]
    else if n < 0x800 then [0xC0 + n / 64, 0x80 + n % 64]
    else if n < 0x1_0000 then [0xE0 + n / 4096, 0x80 + (n / 64) % 64, 0x80 + n % 64]
    else [0xF0 + n / 262144, 0x80 + (n / 4096) % 64, 0x80 + (n / 64) % 64, 0x80 + n % 64]
  }

  function PercentBytes(bytes: seq<int>): (r: string)
    requires forall i :: 0 <= i < |bytes| ==> 0 <= bytes[i] < 256
    ensures |r| == 3 * |bytes|
    ensures forall i :: 0 <= i < |r| ==> r[i] == '%' || ('0' <= r[i] <= '9') || ('A' <= r[i] <= 'F')
  {
    if bytes == [] then "" else ['%', HexDigit(bytes[0] / 16), HexDigit(bytes[0] % 16)] + PercentBytes(bytes[1..])
  }

  /** `encodeURIComponent`. */
  function EncodeUriComponent(s: string): (r: string)
    ensures |s| <= |r|
    ensures forall i :: 0 <= i < |r| ==> IsUriUnreserved(r[i]) || r[i] == '%'
  {
    if s == [] then ""
    else
      var head := if IsUriUnreserved(s[0]) then [s[0]] else PercentBytes(Utf8(s[0]));
      head + EncodeUriComponent(s[1..])
  }

  /** An encoded id stays one path segment: it holds no '/', '?', '#' or space. */
  lemma EncodedIsOneSegment(s: string)
    ensures var r := EncodeUriComponent(s); '/' !in r && '?' !in r && '#' !in r && ' ' !in r
  {
  }

  /** An id made only of unreserved characters is sent as it is. */
  lemma {:induction false} EncodeKeepsUnreserved(s: string)
    requires forall i :: 0 <= i < |s| ==> IsUriUnreserved(s[i])
    ensures EncodeUriComponent(s) == s
  {
    if s != [] {
      EncodeKeepsUnreserved(s[1..]);
    }
  }
}
