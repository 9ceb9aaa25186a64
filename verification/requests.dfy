/**
 * Request descriptors as the client builds them (Sources/GroupMeAPI/GroupMeAPI.swift):
 * the URL is kept as its components (no percent-encoding), the request as its method,
 * URL, optional body and optional Content-Type header.
 */
module Requests {
  import opened Common

  const ApiScheme: string := "https"
  const ApiHost: string := "api.groupme.com"
  const ApiPathPrefix: string := "/v3"
  const TokenName: string := "token"
  const JsonContentType: string := "application/json"

  /** `URLQueryItem`; every item the client builds has a value. */
  datatype QueryItem = QueryItem(name: string, value: string)

  /** The components of a `URL` that the client sets. */
  datatype Url = Url(scheme: string, host: string, path: string, query: seq<QueryItem>)

  datatype HttpMethod = Get | Post

  /** `URLRequest`, reduced to what the client sets on it. */
  datatype Request = Request(verb: HttpMethod, url: Url, body: Option<Bytes>, contentType: Option<string>)

  function TokenItem(token: string): QueryItem {
    QueryItem(TokenName, token)
  }

  /**
   * The URL `genURI` produces for a client holding `token`: the API host over https,
   * the endpoint under `/v3`, and the caller's query items followed by the token.
   */
  function ApiUrl(token: string, endpoint: string, items: seq<QueryItem>): Url {
    Url(ApiScheme, ApiHost, ApiPathPrefix + endpoint, items + [TokenItem(token)])
  }

  /** `URLRequest(url:)`: method GET, no body, no headers. */
  function UrlRequest(url: Url): Request {
    Request(Get, url, None, None)
  }

  /** A request with method `m` to `url`, with no body and no Content-Type. */
  predicate Plain(r: Request, m: HttpMethod, url: Url) {
    r.verb == m && r.url == url && r.body == None && r.contentType == None
  }

  /** A JSON POST of `body` to `url`. */
  predicate JsonPost(r: Request, url: Url, body: Bytes) {
    r.verb == Post && r.url == url && r.body == Some(body) && r.contentType == Some(JsonContentType)
  }

  /** `jsonPostRequest`: start from `URLRequest(url:)`, then set method, body and header in turn. */
  method JsonPostRequest(url: Url, body: Bytes) returns (request: Request)
    ensures JsonPost(request, url, body)
    ensures request != UrlRequest(url)
  {
    request := UrlRequest(url);
    request := request.(verb := Post);
    request := request.(body := Some(body));
    request := request.(contentType := Some(JsonContentType));
  }

  /** A one-item query list when the optional value is supplied, the empty list otherwise. */
  function OptionalItem(name: string, value: Option<string>): seq<QueryItem> {
    if value.Some? then [QueryItem(name, value.value)] else []
  }

  /** The value of the first query item called `name`, if any. */
  function FirstValue(query: seq<QueryItem>, name: string): (v: Option<string>)
    ensures v.None? <==> forall i | 0 <= i < |query| :: query[i].name != name
    ensures v.Some? ==> QueryItem(name, v.value) in query
  {
    if query == [] then None
    else if query[0].name == name then Some(query[0].value)
    else FirstValue(query[1..], name)
  }

  /** Looking up a name in a concatenation: the left part wins when it has the name. */
  lemma {:induction false} FirstValueAppend(a: seq<QueryItem>, b: seq<QueryItem>, name: string)
    ensures FirstValue(a + b, name) == if FirstValue(a, name).Some? then FirstValue(a, name) else FirstValue(b, name)
  {
    if a == [] {
      assert a + b == b;
    } else {
      assert (a + b)[1..] == a[1..] + b;
      FirstValueAppend(a[1..], b, name);
    }
  }

  lemma OptionalItemValue(name: string, other: string, value: Option<string>)
    ensures FirstValue(OptionalItem(name, value), name) == value
    ensures other != name ==> FirstValue(OptionalItem(name, value), other) == None
  {
  }

  /**
   * The token can be read back from every URL `genURI` builds, provided the caller's
   * own items do not already use the name `token` (the first occurrence would win).
   */
  lemma TokenAttached(token: string, endpoint: string, items: seq<QueryItem>)
    requires forall i | 0 <= i < |items| :: items[i].name != TokenName
    ensures FirstValue(ApiUrl(token, endpoint, items).query, TokenName) == Some(token)
  {
    FirstValueAppend(items, [TokenItem(token)], TokenName);
  }

  /** A caller item named `token` placed before the real one shadows it. */
  lemma CallerTokenShadows(token: string, endpoint: string, items: seq<QueryItem>, i: nat)
    requires i < |items| && items[i].name == TokenName
    ensures FirstValue(ApiUrl(token, endpoint, items).query, TokenName) == FirstValue(items, TokenName)
  {
    FirstValueAppend(items, [TokenItem(token)], TokenName);
  }

  /**
   * The inverse of `ApiUrl`: recovers the token, the endpoint and the caller's items
   * from a URL of the API's shape, and rejects every other URL.
   */
  function SplitApiUrl(u: Url): Option<(string, string, seq<QueryItem>)> {
    var n := |u.query|;
    if u.scheme == ApiScheme && u.host == ApiHost
      && |ApiPathPrefix| <= |u.path| && u.path[..|ApiPathPrefix|] == ApiPathPrefix
      && n > 0 && u.query[n - 1].name == TokenName
    then Some((u.query[n - 1].value, u.path[|ApiPathPrefix|..], u.query[..n - 1]))
    else None
  }

  /** Nothing `genURI` is given is lost: token, endpoint and items are all recovered. */
  lemma SplitApiUrlRoundTrip(token: string, endpoint: string, items: seq<QueryItem>)
    ensures SplitApiUrl(ApiUrl(token, endpoint, items)) == Some((token, endpoint, items))
  {
  }

  /** Every URL `SplitApiUrl` accepts is one `genURI` builds. */
  lemma ApiUrlFromSplit(u: Url)
    requires SplitApiUrl(u).Some?
    ensures ApiUrl(SplitApiUrl(u).value.0, SplitApiUrl(u).value.1, SplitApiUrl(u).value.2) == u
  {
  }

  /** Hence `genURI` is injective: different arguments never yield the same URL. */
  lemma ApiUrlInjective(t1: string, e1: string, q1: seq<QueryItem>, t2: string, e2: string, q2: seq<QueryItem>)
    requires ApiUrl(t1, e1, q1) == ApiUrl(t2, e2, q2)
    ensures t1 == t2 && e1 == e2 && q1 == q2
  {
    SplitApiUrlRoundTrip(t1, e1, q1);
    SplitApiUrlRoundTrip(t2, e2, q2);
  }
}
