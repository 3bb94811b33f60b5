/** Where a request goes: each resource's handler table, the bot/default handler class,
    the cookies passed on, and the host taken from a backend URL. */
module Routing {
  import opened Wrappers
  import opened Strings

  /** The Flask resources that forward to Solr (views.py:34-46, 540-597). */
  datatype Endpoint = Base | Tvrh | Search | Qtree | BigQuery

  const SearchHandler := "SOLR_SERVICE_SEARCH_HANDLER"
  const BigqueryHandler := "SOLR_SERVICE_BIGQUERY_HANDLER"
  const BotSearchHandler := "BOT_SOLR_SERVICE_SEARCH_HANDLER"
  const BotBigqueryHandler := "BOT_SOLR_SERVICE_BIGQUERY_HANDLER"
  const Embedded := "_embedded_bigquery"

  /** The class attribute `handler`: handler class to configuration key. */
  function Handlers(e: Endpoint): (t: map<string, string>)
    ensures "default" in t
  {
    match e
    case Base => map["default" := "SOLR_SERVICE_URL", "default" + Embedded := BigqueryHandler]
    case Tvrh => map["default" := "SOLR_SERVICE_TVRH_HANDLER"]
    case Search => map["default" := SearchHandler, "default" + Embedded := BigqueryHandler,
                       "bot" := BotSearchHandler, "bot" + Embedded := BotBigqueryHandler]
    case Qtree => map["default" := "SOLR_SERVICE_QTREE_HANDLER"]
    case BigQuery => map["default" := BigqueryHandler, "default" + Embedded := BigqueryHandler,
                         "bot" := BotBigqueryHandler, "bot" + Embedded := BotBigqueryHandler]
  }

  /** `self.handler.get(hc, self.handler.get("default"))` */
  function HandlerFor(e: Endpoint, hc: string): string {
    var t := Handlers(e);
    if hc in t then t[hc] else t["default"]
  }

  /** A request that carries content streams goes to a big-query handler on the resources
      that have one, keeping the bot distinction; Tvrh and Qtree have none and keep their
      own handler. */
  lemma EmbeddedRouting(e: Endpoint, hc: string)
    requires hc == "default" || hc == "bot"
    ensures e == Search || e == BigQuery ==>
      HandlerFor(e, hc + Embedded) == (if hc == "bot" then BotBigqueryHandler else BigqueryHandler)
    ensures e == Base && hc == "default" ==> HandlerFor(e, hc + Embedded) == BigqueryHandler
    ensures e == Base && hc == "bot" ==> HandlerFor(e, hc + Embedded) == "SOLR_SERVICE_URL"
    ensures e == Tvrh || e == Qtree ==> HandlerFor(e, hc + Embedded) == HandlerFor(e, "default")
  {
  }

  /** Only the plain search route of Search reaches the search handler, which is what
      decides whether a response is post-processed. */
  lemma SearchHandlerOnlyFor(e: Endpoint, hc: string)
    ensures HandlerFor(e, hc) == SearchHandler <==>
      e == Search && hc != "bot" && hc != "default" + Embedded && hc != "bot" + Embedded
  {
    if e == Search && HandlerFor(e, hc) == SearchHandler {
      assert BotSearchHandler[0] != SearchHandler[0];
      assert BigqueryHandler[16] != SearchHandler[16];
      assert BotBigqueryHandler[0] != SearchHandler[0];
    }
    if e != Search {
      assert "SOLR_SERVICE_URL"[13] != SearchHandler[13];
      assert "SOLR_SERVICE_TVRH_HANDLER"[13] != SearchHandler[13];
      assert "SOLR_SERVICE_QTREE_HANDLER"[13] != SearchHandler[13];
      assert BigqueryHandler[13] != SearchHandler[13];
      assert BotBigqueryHandler[0] != SearchHandler[0];
    }
  }

  // ---------------------------------------------------------------------------
  // get_handler_class (views.py:557-567, 587-597)

  /** `s[7:]` on a text: what follows a `Bearer ` prefix. */
  function Drop7(s: string): string {
    if |s| <= 7 then "" else s[7..]
  }

  /** The token a request authenticates with: the forwarded authorization when it is longer
      than seven characters, otherwise the authorization header; without an authorization
      header `[][7:]` is an empty list, which is never a bot token. */
  function RequestToken(headers: map<string, string>): Option<string> {
    var fwd := "X-Forwarded-Authorization";
    if fwd in headers && |headers[fwd]| > 7 then Some(headers[fwd][7..])
    else if "Authorization" in headers then Some(Drop7(headers["Authorization"]))
    else None
  }

  /** `get_handler_class`: Search and BigQuery send known bot tokens to the bot handlers;
      every other resource keeps the base class's `"default"`. */
  function HandlerClass(e: Endpoint, headers: map<string, string>, bots: seq<string>): string {
    if (e == Search || e == BigQuery) && RequestToken(headers).Some? && RequestToken(headers).value in bots
    then "bot" else "default"
  }

  const Bearer := "Bearer "

  /** A bearer token in the authorization header is the token, unless a longer forwarded
      authorization overrides it. */
  lemma BearerToken(headers: map<string, string>, t: string)
    requires "Authorization" in headers && headers["Authorization"] == Bearer + t && |t| > 0
    requires "X-Forwarded-Authorization" in headers ==> |headers["X-Forwarded-Authorization"]| <= 7
    ensures RequestToken(headers) == Some(t)
  {
    assert (Bearer + t)[7..] == t;
  }

  /** A forwarded bearer token takes precedence over the authorization header. */
  lemma ForwardedToken(headers: map<string, string>, t: string)
    requires "X-Forwarded-Authorization" in headers && headers["X-Forwarded-Authorization"] == Bearer + t && |t| > 0
    ensures RequestToken(headers) == Some(t)
  {
    assert (Bearer + t)[7..] == t;
  }

  /** The bot class needs one of the two resources, an authorization and a listed token. */
  lemma HandlerClassMeaning(e: Endpoint, headers: map<string, string>, bots: seq<string>)
    ensures HandlerClass(e, headers, bots) == "bot" || HandlerClass(e, headers, bots) == "default"
    ensures HandlerClass(e, headers, bots) == "bot" ==> e in {Search, BigQuery}
    ensures "Authorization" !in headers && "X-Forwarded-Authorization" !in headers ==> HandlerClass(e, headers, bots) == "default"
    ensures bots == [] ==> HandlerClass(e, headers, bots) == "default"
    ensures e in {Search, BigQuery} && RequestToken(headers).Some? && RequestToken(headers).value in bots ==> HandlerClass(e, headers, bots) == "bot"
  {
  }

  // ---------------------------------------------------------------------------
  // set_cookies (views.py:148-166)

  /** The configured cookies the request carries with a non-empty value, or None when there
      are none. */
  function ForwardedCookies(names: set<string>, cookies: map<string, string>): Option<map<string, string>> {
    var m := map n | n in names && n in cookies && cookies[n] != "" :: cookies[n];
    if |m| == 0 then None else Some(m)
  }

  /** A result is never empty, holds only configured cookies with their request values, and
      holds every such cookie; forwarding what was forwarded changes nothing. */
  lemma ForwardedCookiesMeaning(names: set<string>, cookies: map<string, string>)
    ensures var r := ForwardedCookies(names, cookies);
      && (r.Some? <==> exists n :: n in names && n in cookies && cookies[n] != "")
      && (r.Some? ==> forall n :: n in r.value <==> n in names && n in cookies && cookies[n] != "")
      && (r.Some? ==> forall n :: n in r.value ==> r.value[n] == cookies[n])
      && (r.Some? ==> ForwardedCookies(names, r.value) == r)
  {
    var m := map n | n in names && n in cookies && cookies[n] != "" :: cookies[n];
    if exists n :: n in names && n in cookies && cookies[n] != "" {
      var n :| n in names && n in cookies && cookies[n] != "";
      assert n in m;
      var m2 := map x | x in names && x in m && m[x] != "" :: m[x];
      assert m2 == m;
    } else {
      assert m == map[];
    }
  }

  // ---------------------------------------------------------------------------
  // _get_host (views.py:352-362)

  /** `_get_host`: the third `/`-separated part of a URL whose first part mentions http,
      the first part otherwise. A missing URL (a handler key absent from the configuration)
      has no `split`, and an http scheme with fewer than three parts raises IndexError. */
  function HostOf(url: Option<string>): Result<string> {
    if url.None? then Err("AttributeError: 'NoneType' object has no attribute 'split'")
    else
      var parts := Split(url.value, '/');
      if Contains(Lower(parts[0]), "http") then
        if |parts| < 3 then Err("IndexError: list index out of range") else Ok(parts[2])
      else Ok(parts[0])
  }

  lemma SplitRest(rest: string)
    requires rest == "" || rest[0] == '/'
    ensures Split(rest, '/')[0] == ""
  {
  }

  /** `scheme//host/path` gives `host` when the scheme mentions http. */
  lemma HostOfUrl(scheme: string, host: string, rest: string)
    requires '/' !in scheme && '/' !in host && Contains(Lower(scheme), "http")
    requires rest == "" || rest[0] == '/'
    ensures HostOf(Some(scheme + "//" + host + rest)) == Ok(host)
  {
    var t := "//" + host + rest;
    assert scheme + "//" + host + rest == scheme + t;
    SplitPrefix(scheme, t, '/');
    assert t[1..] == "/" + host + rest;
    assert t[1..][1..] == host + rest;
    SplitPrefix(host, rest, '/');
    SplitRest(rest);
    assert Split(t, '/') == ["", ""] + Split(host + rest, '/');
    assert scheme + "" == scheme && host + "" == host;
  }

  /** `host/path` with no http in the first part gives `host`. */
  lemma HostOfBare(host: string, rest: string)
    requires '/' !in host && !Contains(Lower(host), "http")
    requires rest == "" || rest[0] == '/'
    ensures HostOf(Some(host + rest)) == Ok(host)
  {
    SplitPrefix(host, rest, '/');
    SplitRest(rest);
    assert host + "" == host;
  }

  /** An http URL without a second slash has no host part. */
  lemma HostOfShort(scheme: string)
    requires '/' !in scheme && Contains(Lower(scheme), "http")
    ensures HostOf(Some(scheme)).Err?
  {
    SplitPrefix(scheme, "", '/');
    assert scheme + "" == scheme;
  }

  /** `get_host`: the cached host when it is set (not empty), `_get_host` otherwise. The
      cache is written whenever `_get_host` succeeds, so an empty host is worked out again on
      the next call. */
  function CachedHost(cached: string, url: Option<string>): Result<string> {
    if cached != "" then Ok(cached) else HostOf(url)
  }

  /** A set cache is returned as it is, and asking again with what was returned gives the
      same answer. */
  lemma CachedHostStable(cached: string, url: Option<string>)
    ensures cached != "" ==> CachedHost(cached, url) == Ok(cached)
    ensures cached == "" ==> CachedHost(cached, url) == HostOf(url)
    ensures CachedHost(cached, url).Ok? ==> CachedHost(CachedHost(cached, url).value, url) == CachedHost(cached, url)
  {
  }
}
