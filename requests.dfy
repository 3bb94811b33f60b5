/** What the resources' `get` (views.py:48-146) and BigQuery's `post` (views.py:599-631)
    send to Solr, as functions of the request, the configuration, the limits table and the
    answers of the remote services; and what `get` does with Solr's answer. */
module Requests {
  import opened Wrappers
  import opened Strings
  import opened Params
  import opened Settings
  import opened Sanitizer
  import opened Routing
  import opened Streams
  import opened Highlights

  /** `current_app.config.get(key)` for a backend URL. */
  function ConfigUrl(cfg: Config, key: string): Option<string> {
    if key in cfg.urls then Some(cfg.urls[key]) else None
  }

  /** The incoming request as far as the views read it: the query string, the form, the
      JSON body (None unless `is_json`), the headers, `request.data`, the uploaded files and
      the cookies. */
  datatype Request = Request(args: Dict, form: Dict, json: Option<Dict>, headers: map<string, string>,
                             data: Data, files: map<string, FileRef>, cookies: map<string, string>)

  /** The request sent to Solr: the URL, the parameters (the query string when there are
      streams, the form body otherwise), the headers, the streams sent as multipart files,
      and the cookies. */
  datatype Outgoing = Outgoing(url: string, params: Dict, headers: map<string, string>,
                               files: map<string, Stream>, cookies: Option<map<string, string>>)

  /** What a view does with a request that did not fail: forward it (and say whether a
      successful answer is to be post-processed), or answer 400 "Malformed request". */
  datatype Dispatch = Forward(out: Outgoing, postprocess: bool) | Malformed

  /** `query.update(SOLR_INJECT_QUERY_PARAMS)` when that setting is not empty. */
  function Injected(cfg: Config, q: Dict): Dict {
    if |cfg.injectedParams.keys| > 0 then Update(q, cfg.injectedParams) else q
  }

  /** The fields asked for include `publisher`. */
  predicate PublisherRequested(d: Dict) {
    "fl" in d.vals &&
    match d.vals["fl"]
    case Str(s) => Contains(s, "publisher")
    case Strs(xs) => "publisher" in xs
    case IntList(_, xs) => "publisher" in xs
    case Int(_) => false
  }

  /** The field list on the search handler (views.py:73-81): `fl` defaults to the default
      fields joined by commas; a highlighted query, when some publishers forbid highlights,
      also asks for `publisher` and has its answer post-processed. A list `fl` without
      `publisher` cannot have a text appended (TypeError), nor can an integer be searched. */
  function ShapeFl(cfg: Config, d: Dict): Result<(Dict, bool)> {
    var d1 := FlBase(cfg, d);
    if |cfg.unhighlightablePublishers| > 0 && "hl" in d1.vals then
      match d1.vals["fl"]
      case Str(fl) => Ok((if Contains(fl, "publisher") then d1 else d1.Put("fl", Str(fl + ",publisher")), true))
      case Strs(xs) => if "publisher" in xs then Ok((d1, true)) else Err("TypeError: can only concatenate list (not \"str\") to list")
      case IntList(_, xs) => if "publisher" in xs then Ok((d1, true)) else Err("TypeError: can only concatenate list (not \"str\") to list")
      case Int(_) => Err("TypeError: argument of type 'int' is not iterable")
    else Ok((d1, false))
  }

  lemma PublisherAppended(fl: string)
    ensures Contains(fl + ",publisher", "publisher")
  {
    assert fl + ",publisher" == (fl + ",") + "publisher";
    ContainsSuffix(fl + ",", "publisher");
  }

  /** The field list the shaping starts from: the given one, or the default fields. */
  function FlBase(cfg: Config, d: Dict): Dict {
    if "fl" in d.vals then d else d.Put("fl", Str(Join(cfg.defaultFields, ',')))
  }

  /** Shaping only ever writes `fl` and always leaves one. */
  lemma ShapeFlFrame(cfg: Config, d: Dict, d2: Dict, pp: bool)
    requires d.Valid() && ShapeFl(cfg, d) == Ok((d2, pp))
    ensures d2.Valid() && "fl" in d2.vals
    ensures forall k :: k != "fl" ==> d2.Get(k) == d.Get(k)
  {
    var d1 := FlBase(cfg, d);
    PutValid(d, "fl", Str(Join(cfg.defaultFields, ',')));
    if d1.vals["fl"].Str? {
      PutValid(d1, "fl", Str(d1.vals["fl"].s + ",publisher"));
    }
  }

  /** Exactly the highlighted queries are post-processed when some publisher is listed, and
      these then ask for `publisher`; the others keep the field list they had, or get the
      default fields. A text `fl` is always shaped. */
  lemma ShapeFlMeaning(cfg: Config, d: Dict, d2: Dict, pp: bool)
    requires ShapeFl(cfg, d) == Ok((d2, pp))
    ensures pp <==> |cfg.unhighlightablePublishers| > 0 && "hl" in d.vals
    ensures pp ==> PublisherRequested(d2)
    ensures !pp ==> d2 == FlBase(cfg, d)
  {
    var d1 := FlBase(cfg, d);
    if d1.vals["fl"].Str? {
      PublisherAppended(d1.vals["fl"].s);
    }
  }

  lemma ShapeFlText(cfg: Config, d: Dict)
    requires "fl" in d.vals && d.vals["fl"].Str?
    ensures ShapeFl(cfg, d).Ok?
  {
  }

  // ---------------------------------------------------------------------------
  // get (views.py:48-146)

  /** The last part of `get`: the handler (the big-query one when there are streams), the
      field list on the search handler (only when default fields are configured), the
      handler's URL (a KeyError when it is not configured) and the cookies. */
  function GetDispatch(cfg: Config, e: Endpoint, hc: string, emb: Embedding, cookies: map<string, string>): Result<Dispatch> {
    var handler := HandlerFor(e, if |emb.files| > 0 then hc + Embedded else hc);
    var shaped :- if |cfg.defaultFields| > 0 && handler == SearchHandler then ShapeFl(cfg, emb.params) else Ok((emb.params, false));
    if handler !in cfg.urls then Err("KeyError: '" + handler + "'")
    else Ok(Forward(Outgoing(cfg.urls[handler], shaped.0, emb.headers, emb.files, ForwardedCookies(cfg.forwardedCookies, cookies)), shaped.1))
  }

  /** The stage `get` and `post` share: the host (worked out by `cleanup_solr_request`),
      the cleaned payload `p`, the injected parameters (`get` only) and the embedded-streams
      check for the handler class of the request. */
  function Prepared(cfg: Config, e: Endpoint, rules: seq<Limit>, req: Request, svc: Services, host: string, order: seq<string>,
                    p: Dict, inject: bool): Result<Embedding>
  {
    var h :- CachedHost(host, ConfigUrl(cfg, HandlerFor(e, "default")));
    var q :- Cleanup(cfg, req.headers, rules, p);
    var hc := HandlerClass(e, req.headers, cfg.botTokens);
    EmbeddedBigquery(if inject then Injected(cfg, q) else q, order, req.data, req.files, req.headers,
                     OutboundHeaders(req.headers, h), h, ConfigUrl(cfg, HandlerFor(e, hc)), svc)
  }

  /** The stream names the shared stage collects: those the cleaned (and, for `get`,
      injected) payload mentions, and `old-bad-behaviour` for a plain body. The view
      enumerates this set in some order; every lemma below that needs the streams takes
      `order` to be such an enumeration. */
  function PreparedNames(cfg: Config, e: Endpoint, rules: seq<Limit>, req: Request, host: string, p: Dict, inject: bool): Result<set<string>> {
    var h :- CachedHost(host, ConfigUrl(cfg, HandlerFor(e, "default")));
    var q :- Cleanup(cfg, req.headers, rules, p);
    StreamNames(if inject then Injected(cfg, q) else q, req.data)
  }

  /** Once the host is known and the query cleaned, the shared stage is the
      embedded-streams check on them. */
  lemma PreparedAfterCleanup(cfg: Config, e: Endpoint, rules: seq<Limit>, req: Request, svc: Services, host: string, order: seq<string>,
                             p: Dict, inject: bool, h: string, q: Dict)
    requires CachedHost(host, ConfigUrl(cfg, HandlerFor(e, "default"))) == Ok(h)
    requires Cleanup(cfg, req.headers, rules, p) == Ok(q)
    ensures PreparedNames(cfg, e, rules, req, host, p, inject) == StreamNames(if inject then Injected(cfg, q) else q, req.data)
    ensures Prepared(cfg, e, rules, req, svc, host, order, p, inject)
      == EmbeddedBigquery(if inject then Injected(cfg, q) else q, order, req.data, req.files, req.headers,
                          OutboundHeaders(req.headers, h), h, ConfigUrl(cfg, HandlerFor(e, HandlerClass(e, req.headers, cfg.botTokens))), svc)
  {
  }

  /** The shared stage fails when the host cannot be worked out or the query not cleaned. */
  lemma PreparedFails(cfg: Config, e: Endpoint, rules: seq<Limit>, req: Request, svc: Services, host: string, order: seq<string>,
                      p: Dict, inject: bool)
    requires CachedHost(host, ConfigUrl(cfg, HandlerFor(e, "default"))).Err?
      || Cleanup(cfg, req.headers, rules, p).Err?
    ensures Prepared(cfg, e, rules, req, svc, host, order, p, inject).Err?
    ensures PreparedNames(cfg, e, rules, req, host, p, inject).Err?
  {
  }

  /** For an enumeration of the stream names, the shared stage sends one stream per name
      and one per other uploaded file, and nothing else. */
  lemma PreparedStreams(cfg: Config, e: Endpoint, rules: seq<Limit>, req: Request, svc: Services, host: string, order: seq<string>,
                        p: Dict, inject: bool, ns: set<string>, emb: Embedding)
    requires p.Valid() && (inject ==> cfg.injectedParams.Valid())
    requires PreparedNames(cfg, e, rules, req, host, p, inject) == Ok(ns) && Enumerates(order, ns)
    requires Prepared(cfg, e, rules, req, svc, host, order, p, inject) == Ok(emb)
    ensures forall k :: k in emb.files <==> k in ns || k in req.files
  {
    var h := CachedHost(host, ConfigUrl(cfg, HandlerFor(e, "default"))).value;
    var q := Cleanup(cfg, req.headers, rules, p).value;
    CleanupValid(cfg, req.headers, rules, p);
    var q1 := if inject then Injected(cfg, q) else q;
    if inject && |cfg.injectedParams.keys| > 0 {
      UpdateMeaning(q, cfg.injectedParams);
    }
    var hc := HandlerClass(e, req.headers, cfg.botTokens);
    EmbeddedStreams(q1, order, req.data, req.files, req.headers, OutboundHeaders(req.headers, h), h, ConfigUrl(cfg, HandlerFor(e, hc)), svc, ns, emb);
  }

  /** `get` on resource `e` with the host cache `host`, for the enumeration `order` of the
      stream names: what is forwarded, and the host cache afterwards. */
  function GetSpec(cfg: Config, e: Endpoint, rules: seq<Limit>, req: Request, svc: Services, host: string, order: seq<string>): Result<(Dispatch, string)> {
    var emb :- Prepared(cfg, e, rules, req, svc, host, order, req.args, true);
    var d :- GetDispatch(cfg, e, HandlerClass(e, req.headers, cfg.botTokens), emb, req.cookies);
    Ok((d, emb.host))
  }

  /** A `get` always forwards; only a request on the plain search route, without streams,
      is post-processed, and then it is highlighted and asks for `publisher`. */
  lemma GetDispatchPostprocess(cfg: Config, e: Endpoint, hc: string, emb: Embedding, cookies: map<string, string>)
    requires hc == "default" || hc == "bot"
    requires GetDispatch(cfg, e, hc, emb, cookies).Ok?
    ensures var d := GetDispatch(cfg, e, hc, emb, cookies).value;
      d.Forward? && (d.postprocess ==>
        && e == Search && hc == "default" && d.out.files == map[]
        && d.out.url == cfg.urls[SearchHandler]
        && |cfg.unhighlightablePublishers| > 0 && "hl" in d.out.params.vals
        && PublisherRequested(d.out.params))
  {
    var handler := HandlerFor(e, if |emb.files| > 0 then hc + Embedded else hc);
    SearchHandlerOnlyFor(e, if |emb.files| > 0 then hc + Embedded else hc);
    var d1 := FlBase(cfg, emb.params);
    if d1.vals["fl"].Str? {
      PublisherAppended(d1.vals["fl"].s);
    }
  }

  /** A request with streams goes to the big-query handler of its class on Search and
      BigQuery; one without goes to the handler of its class. */
  lemma GetDispatchRoute(cfg: Config, e: Endpoint, hc: string, emb: Embedding, cookies: map<string, string>)
    requires hc == "default" || hc == "bot"
    requires GetDispatch(cfg, e, hc, emb, cookies).Ok?
    ensures var d := GetDispatch(cfg, e, hc, emb, cookies).value;
      && (|emb.files| > 0 && (e == Search || e == BigQuery) ==>
            d.out.url == cfg.urls[if hc == "bot" then BotBigqueryHandler else BigqueryHandler])
      && (|emb.files| == 0 ==> d.out.url == cfg.urls[HandlerFor(e, hc)])
      && d.out.files == emb.files && d.out.headers == emb.headers
      && d.out.cookies == ForwardedCookies(cfg.forwardedCookies, cookies)
  {
    EmbeddedRouting(e, hc);
  }

  /** The stages of a `get` that did not fail: the host, the cleaned query, the outcome of
      the embedded-streams check and the dispatch. */
  lemma GetStages(cfg: Config, e: Endpoint, rules: seq<Limit>, req: Request, svc: Services, host: string, order: seq<string>,
                  d: Dispatch, host2: string)
    returns (h: string, q: Dict, emb: Embedding)
    requires GetSpec(cfg, e, rules, req, svc, host, order) == Ok((d, host2))
    ensures CachedHost(host, ConfigUrl(cfg, HandlerFor(e, "default"))) == Ok(h)
    ensures Cleanup(cfg, req.headers, rules, req.args) == Ok(q)
    ensures EmbeddedBigquery(Injected(cfg, q), order, req.data, req.files, req.headers, OutboundHeaders(req.headers, h), h,
                             ConfigUrl(cfg, HandlerFor(e, HandlerClass(e, req.headers, cfg.botTokens))), svc) == Ok(emb)
    ensures GetDispatch(cfg, e, HandlerClass(e, req.headers, cfg.botTokens), emb, req.cookies) == Ok(d)
    ensures host2 == emb.host
  {
    h := CachedHost(host, ConfigUrl(cfg, HandlerFor(e, "default"))).value;
    q := Cleanup(cfg, req.headers, rules, req.args).value;
    var hc := HandlerClass(e, req.headers, cfg.botTokens);
    emb := EmbeddedBigquery(Injected(cfg, q), order, req.data, req.files, req.headers, OutboundHeaders(req.headers, h), h, ConfigUrl(cfg, HandlerFor(e, hc)), svc).value;
  }

  /** What the last part of `get` forwards: to the route of its class, with the outgoing
      headers of the check, which keep their Content-Type exactly when there are no
      streams. */
  lemma GetForwardMeaning(cfg: Config, e: Endpoint, hc: string, cookies: map<string, string>, outbound: map<string, string>, emb: Embedding, d: Dispatch)
    requires hc == "default" || hc == "bot"
    requires "Content-Type" in outbound
    requires emb.headers == if |emb.files| > 0 then outbound - {"Content-Type"} else outbound
    requires GetDispatch(cfg, e, hc, emb, cookies) == Ok(d)
    ensures d.Forward?
    ensures d.Forward? && |d.out.files| > 0 && (e == Search || e == BigQuery) ==>
      Some(d.out.url) == ConfigUrl(cfg, if hc == "bot" then BotBigqueryHandler else BigqueryHandler)
    ensures d.Forward? && |d.out.files| == 0 ==> Some(d.out.url) == ConfigUrl(cfg, HandlerFor(e, hc))
    ensures d.Forward? ==> ("Content-Type" in d.out.headers <==> |d.out.files| == 0)
    ensures d.Forward? ==> forall k :: k != "Content-Type" ==> (k in d.out.headers <==> k in outbound)
    ensures d.Forward? ==> forall k :: k != "Content-Type" && k in outbound ==> d.out.headers[k] == outbound[k]
  {
    GetDispatchRoute(cfg, e, hc, emb, cookies);
  }

  /** What `get` forwards: to the route of its class (the big-query handler when there are
      streams), with a Host header naming the cached host, and a Content-Type exactly when
      there are no streams. */
  lemma GetMeaning(cfg: Config, e: Endpoint, rules: seq<Limit>, req: Request, svc: Services, host: string, order: seq<string>,
                   d: Dispatch, host2: string)
    requires GetSpec(cfg, e, rules, req, svc, host, order) == Ok((d, host2))
    ensures d.Forward?
    ensures var hc := HandlerClass(e, req.headers, cfg.botTokens);
      d.Forward? && |d.out.files| > 0 && (e == Search || e == BigQuery) ==>
        Some(d.out.url) == ConfigUrl(cfg, if hc == "bot" then BotBigqueryHandler else BigqueryHandler)
    ensures d.Forward? && |d.out.files| == 0 ==> Some(d.out.url) == ConfigUrl(cfg, HandlerFor(e, HandlerClass(e, req.headers, cfg.botTokens)))
    ensures d.Forward? ==> ("Content-Type" in d.out.headers <==> |d.out.files| == 0)
    ensures d.Forward? ==> "Host" in d.out.headers && CachedHost(host, ConfigUrl(cfg, HandlerFor(e, "default"))) == Ok(d.out.headers["Host"])
  {
    var h, q, emb := GetStages(cfg, e, rules, req, svc, host, order, d, host2);
    var hc := HandlerClass(e, req.headers, cfg.botTokens);
    HandlerClassMeaning(e, req.headers, cfg.botTokens);
    var outbound := OutboundHeaders(req.headers, h);
    OutboundHeadersMeaning(req.headers, h);
    EmbeddedParts(Injected(cfg, q), order, req.data, req.files, req.headers, outbound, h, ConfigUrl(cfg, HandlerFor(e, hc)), svc, emb);
    GetForwardMeaning(cfg, e, hc, req.cookies, outbound, emb, d);
  }

  /** For an enumeration of its stream names, `get` sends one stream per name and one
      per other uploaded file, and nothing else. */
  lemma GetStreams(cfg: Config, e: Endpoint, rules: seq<Limit>, req: Request, svc: Services, host: string, order: seq<string>,
                   ns: set<string>, d: Dispatch, host2: string)
    requires req.args.Valid() && cfg.injectedParams.Valid()
    requires PreparedNames(cfg, e, rules, req, host, req.args, true) == Ok(ns) && Enumerates(order, ns)
    requires GetSpec(cfg, e, rules, req, svc, host, order) == Ok((d, host2))
    ensures d.Forward?
    ensures d.Forward? ==> forall k :: k in d.out.files <==> k in ns || k in req.files
  {
    var emb := Prepared(cfg, e, rules, req, svc, host, order, req.args, true).value;
    var hc := HandlerClass(e, req.headers, cfg.botTokens);
    PreparedStreams(cfg, e, rules, req, svc, host, order, req.args, true, ns, emb);
    HandlerClassMeaning(e, req.headers, cfg.botTokens);
    GetDispatchRoute(cfg, e, hc, emb, req.cookies);
  }

  /** Only a highlighted request on Search's plain route is post-processed, and it asks for
      `publisher` so that the rewrite can see it. */
  lemma GetPostprocess(cfg: Config, e: Endpoint, rules: seq<Limit>, req: Request, svc: Services, host: string, order: seq<string>,
                       d: Dispatch, host2: string)
    requires GetSpec(cfg, e, rules, req, svc, host, order) == Ok((d, host2))
    ensures d.Forward?
    ensures d.Forward? && d.postprocess ==> e == Search && HandlerClass(e, req.headers, cfg.botTokens) == "default"
    ensures d.Forward? && d.postprocess ==> d.out.files == map[] && ConfigUrl(cfg, SearchHandler) == Some(d.out.url)
    ensures d.Forward? && d.postprocess ==> "hl" in d.out.params.vals && PublisherRequested(d.out.params)
  {
    var h, q, emb := GetStages(cfg, e, rules, req, svc, host, order, d, host2);
    HandlerClassMeaning(e, req.headers, cfg.botTokens);
    GetDispatchPostprocess(cfg, e, HandlerClass(e, req.headers, cfg.botTokens), emb, req.cookies);
  }

  /** Solr's answer to a forwarded request, as far as the view reads it: whether it is a
      success, and its body decoded as JSON (None when it does not decode). */
  datatype Answer = Answer(ok: bool, body: Option<Body>)

  /** What `get` returns once Solr has answered (views.py:113-146): the rewritten body when
      the request was to be post-processed and the answer is a success, Solr's own text
      otherwise. */
  function ReplyFor(deny: seq<string>, postprocess: bool, a: Answer): Reply {
    if postprocess && a.ok then PostProcess(a.body, deny) else Relayed
  }

  /** A reply is rewritten only for a post-processed request that Solr answered with
      success; it then keeps Solr's documents, is marked filtered, and carries no `body` or
      `ack` highlight for a flagged document. */
  lemma ReplyForMeaning(deny: seq<string>, postprocess: bool, a: Answer)
    ensures ReplyFor(deny, postprocess, a).Rewritten? ==> postprocess && a.ok
    ensures ReplyFor(deny, postprocess, a).Rewritten? ==>
      var b := ReplyFor(deny, postprocess, a).body;
      a.body.Some? && b.docs == a.body.value.docs && b.docs.Some? && b.filtered
    ensures ReplyFor(deny, postprocess, a).Rewritten? ==>
      var b := ReplyFor(deny, postprocess, a).body;
      forall i ::
        (0 <= i < |b.docs.value| && DocFlagged(b.docs.value[i], deny) && b.docs.value[i].id.Some? &&
         b.highlighting.Some? && b.docs.value[i].id.value in b.highlighting.value) ==>
        "body" !in b.highlighting.value[b.docs.value[i].id.value] && "ack" !in b.highlighting.value[b.docs.value[i].id.value]
    ensures !postprocess || !a.ok ==> ReplyFor(deny, postprocess, a) == Relayed
  {
    FilterMeaning(a.body, deny);
  }

  // ---------------------------------------------------------------------------
  // post (views.py:599-631)

  /** The payload of a POST: the form, updated with the query string, then with the JSON
      body when there is one. */
  function PostPayload(req: Request): Dict {
    var p := Update(req.form, req.args);
    if req.json.Some? then Update(p, req.json.value) else p
  }

  /** The JSON body wins over the query string, which wins over the form. */
  lemma PostPayloadMeaning(req: Request)
    requires req.form.Valid() && req.args.Valid()
    requires req.json.Some? ==> req.json.value.Valid()
    ensures PostPayload(req).Valid()
    ensures forall k :: PostPayload(req).Get(k) ==
                        if req.json.Some? && k in req.json.value.vals then Some(req.json.value.vals[k])
                        else if k in req.args.vals then Some(req.args.vals[k])
                        else req.form.Get(k)
  {
    UpdateMeaning(req.form, req.args);
    if req.json.Some? {
      UpdateMeaning(Update(req.form, req.args), req.json.value);
    }
  }

  /** The last part of `post`: without streams the request is malformed; with them it goes
      to the handler of its class (a KeyError when that is not configured). */
  function PostDispatch(cfg: Config, hc: string, emb: Embedding, cookies: map<string, string>): Result<Dispatch> {
    if |emb.files| == 0 then Ok(Malformed)
    else
      var handler := HandlerFor(BigQuery, hc);
      if handler !in cfg.urls then Err("KeyError: '" + handler + "'")
      else Ok(Forward(Outgoing(cfg.urls[handler], emb.params, emb.headers, emb.files, ForwardedCookies(cfg.forwardedCookies, cookies)), false))
  }

  /** BigQuery's `post` with the host cache `host`, for the enumeration `order` of the
      stream names. */
  function PostSpec(cfg: Config, rules: seq<Limit>, req: Request, svc: Services, host: string, order: seq<string>): Result<(Dispatch, string)> {
    var emb :- Prepared(cfg, BigQuery, rules, req, svc, host, order, PostPayload(req), false);
    var d :- PostDispatch(cfg, HandlerClass(BigQuery, req.headers, cfg.botTokens), emb, req.cookies);
    Ok((d, emb.host))
  }

  /** The stages of a `post` that did not fail. */
  lemma PostStages(cfg: Config, rules: seq<Limit>, req: Request, svc: Services, host: string, order: seq<string>,
                   d: Dispatch, host2: string)
    returns (h: string, q: Dict, emb: Embedding)
    requires PostSpec(cfg, rules, req, svc, host, order) == Ok((d, host2))
    ensures CachedHost(host, ConfigUrl(cfg, HandlerFor(BigQuery, "default"))) == Ok(h)
    ensures Cleanup(cfg, req.headers, rules, PostPayload(req)) == Ok(q)
    ensures EmbeddedBigquery(q, order, req.data, req.files, req.headers, OutboundHeaders(req.headers, h), h,
                             ConfigUrl(cfg, HandlerFor(BigQuery, HandlerClass(BigQuery, req.headers, cfg.botTokens))), svc) == Ok(emb)
    ensures PostDispatch(cfg, HandlerClass(BigQuery, req.headers, cfg.botTokens), emb, req.cookies) == Ok(d)
    ensures host2 == emb.host
  {
    h := CachedHost(host, ConfigUrl(cfg, HandlerFor(BigQuery, "default"))).value;
    q := Cleanup(cfg, req.headers, rules, PostPayload(req)).value;
    var hc := HandlerClass(BigQuery, req.headers, cfg.botTokens);
    emb := EmbeddedBigquery(q, order, req.data, req.files, req.headers, OutboundHeaders(req.headers, h), h, ConfigUrl(cfg, HandlerFor(BigQuery, hc)), svc).value;
  }

  /** The last part of `post` forwards only streams, to the big-query handler of the class,
      without the Content-Type. */
  lemma PostForwardMeaning(cfg: Config, hc: string, cookies: map<string, string>, outbound: map<string, string>, emb: Embedding, d: Dispatch)
    requires hc == "default" || hc == "bot"
    requires emb.headers == if |emb.files| > 0 then outbound - {"Content-Type"} else outbound
    requires PostDispatch(cfg, hc, emb, cookies) == Ok(d)
    ensures d.Malformed? <==> |emb.files| == 0
    ensures d.Forward? ==> |d.out.files| > 0 && !d.postprocess && "Content-Type" !in d.out.headers
    ensures d.Forward? ==> Some(d.out.url) == ConfigUrl(cfg, if hc == "bot" then BotBigqueryHandler else BigqueryHandler)
  {
  }

  /** A POST is forwarded only with streams, never post-processed, to the big-query handler of
      its class and without a Content-Type; everything else that does not fail is malformed. */
  lemma PostMeaning(cfg: Config, rules: seq<Limit>, req: Request, svc: Services, host: string, order: seq<string>,
                    d: Dispatch, host2: string)
    requires PostSpec(cfg, rules, req, svc, host, order) == Ok((d, host2))
    ensures d.Forward? ==> |d.out.files| > 0 && !d.postprocess && "Content-Type" !in d.out.headers
    ensures d.Forward? ==> Some(d.out.url) == ConfigUrl(cfg, if HandlerClass(BigQuery, req.headers, cfg.botTokens) == "bot" then BotBigqueryHandler else BigqueryHandler)
  {
    var h, q, emb := PostStages(cfg, rules, req, svc, host, order, d, host2);
    var hc := HandlerClass(BigQuery, req.headers, cfg.botTokens);
    HandlerClassMeaning(BigQuery, req.headers, cfg.botTokens);
    var outbound := OutboundHeaders(req.headers, h);
    EmbeddedParts(q, order, req.data, req.files, req.headers, outbound, h, ConfigUrl(cfg, HandlerFor(BigQuery, hc)), svc, emb);
    PostForwardMeaning(cfg, hc, req.cookies, outbound, emb, d);
  }

  /** A POST is answered "Malformed request" exactly when, for an enumeration of its
      stream names, it names no stream once cleaned, has no plain body and uploads
      nothing. */
  lemma PostMalformed(cfg: Config, rules: seq<Limit>, req: Request, svc: Services, host: string, order: seq<string>,
                      ns: set<string>, d: Dispatch, host2: string)
    requires req.form.Valid() && req.args.Valid() && (req.json.Some? ==> req.json.value.Valid())
    requires PreparedNames(cfg, BigQuery, rules, req, host, PostPayload(req), false) == Ok(ns) && Enumerates(order, ns)
    requires PostSpec(cfg, rules, req, svc, host, order) == Ok((d, host2))
    ensures d.Malformed? <==> ns == {} && req.files == map[]
  {
    var emb := Prepared(cfg, BigQuery, rules, req, svc, host, order, PostPayload(req), false).value;
    PostPayloadMeaning(req);
    PreparedStreams(cfg, BigQuery, rules, req, svc, host, order, PostPayload(req), false, ns, emb);
    assert PostDispatch(cfg, HandlerClass(BigQuery, req.headers, cfg.botTokens), emb, req.cookies) == Ok(d);
    if ns != {} {
      var x :| x in ns;
      assert x in emb.files;
    } else if req.files != map[] {
      var x :| x in req.files;
      assert x in emb.files;
    } else {
      assert emb.files == map[];
    }
  }

}
