# solr-service gateway, modelled in Dafny

The ADS solr-service is a Flask gateway in front of Solr. Before forwarding a search, it
cleans the request's parameters. A view (`SolrInterface`, and its subclasses `Search`,
`Tvrh`, `Qtree` and `BigQuery`) then decides which Solr handler receives the request.

The cleaning step does the following:
- forces `wt=json`;
- defaults and caps `rows`;
- parses `start`;
- defaults `fl`;
- clamps the highlight snippet count and fragment size, and injects
  `hl.maxHighlightCharacters`;
- strips deny-listed fields and `*` from field lists, and adds back the protected fields
  the `limits` table grants, together with their filter queries;
- allow-lists `hl.fl`, `facet.field`, `facet.pivot`, `stats.field` and `sort`.

A query may name content streams with `docs(...)`, or carry a plain body. Such a request
is sent as a multipart big query. Its streams come from the request itself, or from two
remote services:
- the vault, for saved queries;
- the library service, which is read page by page.

On the search handler, the view asks for `publisher`. It then rewrites Solr's answer so
that documents of listed publishers lose their `body` and `ack` highlights.

This project models all of that in `solr/views.py`. Module by module:
- `Params`: the payload as an insertion-ordered dict. The value type is `Dict`; the class
  `Payload` is mutated in place.
- `Settings`: the configuration record.
- `Strings`: the ASCII string operations the code uses.
- `Sanitizer`: `cleanup_solr_request` and its helpers, as functions on `Dict`.
- `Routing`: the handler tables, the bot/default handler class, the cookies and the host.
- `Streams`: `docs(...)`, `{!bitset}`, `_get_stream_data` and `_harvest_library`.
- `Highlights`: the post-processing of highlighted answers.
- `Requests`: what `get` and `post` forward, as functions of the request.
- `Views`: the class `SolrInterface`. Its methods change the payload and the host cache
  step by step, with the Python loops kept as loops. Each method is proved against the
  functions above.

Everything outside the process is an explicit input:
- the configuration;
- the request record (query string, form, JSON body, headers, data, files, cookies);
- the rows of the `limits` table;
- the answers of the vault and the library service;
- the enumeration order of Python sets.

An exception the code does not catch becomes `Result.Err`.

## Model

| member | source | states |
|---|---|---|
| Strings.LowerMeaning | solr/views.py:302 | `lower()` turns each capital into its small letter, leaves every other character as it is, leaves no capital behind, and is idempotent |
| Strings.FindFrom | solr/views.py:367-368 | `find('docs(', i)` answers -1 or a position at or after `i` where the pattern occurs |
| Strings.FindFromFirst | solr/views.py:367-368 | the position `find` answers is the first occurrence at or after `i`; when it answers -1 there is none |
| Strings.SplitJoin | solr/views.py:302-307 | splitting a comma-join of comma-free pieces gives the pieces back |
| Strings.SplitFirstOf | solr/views.py:452-453 | `s.split('/', 1)` of `p/v`, with no `/` in `p`, is `(p, v)` |
| Strings.SplitFirstNone | solr/views.py:454-456 | a name without `/` has the empty prefix and is its own value |
| Strings.BeforeLastOf | solr/views.py:186 | `rsplit('.', 1)[0]` of `p.q`, with no `.` in `q`, is `p` |
| Strings.ParseIntToString | solr/views.py:638 | `int(str(n)) == n` for every integer, negative ones included |
| Params.UpdateMeaning | solr/views.py:602-604 | after `d.update(e)` the keys of `e` hold `e`'s values and every other key keeps `d`'s |
| Params.PutValid | solr/views.py:237 | assigning a key keeps the dict well formed (distinct keys, all with values) |
| Params.DelValid | solr/views.py:438 | deleting a key keeps the dict well formed |
| Params.Payload.Put | solr/views.py:237 | `payload[k] = v` in place: a new key goes last, an existing key keeps its place |
| Params.Payload.Delete | solr/views.py:438 | `del payload[k]` in place |
| Params.SafeIntReads | solr/views.py:634-640 | `_safe_int` reads a rendered integer back, alone or first in a list; an unparseable text gives the default; an empty list raises |
| Sanitizer.KeepCounts | solr/views.py:334-335 | both list comprehensions keep exactly the elements on the right side of the list, each as often as the input has it |
| Sanitizer.TokensNoComma | solr/views.py:301-302 | no token taken from `y.split(',')` holds a comma |
| Sanitizer.FieldsValueMeaning | solr/views.py:296-305 | the cleaning succeeds exactly on a text or a list of texts; the kept tokens are those of the input on the allow-list, or all of them when the list is empty, each as often as the input has it |
| Sanitizer.FieldsValueOrder | solr/views.py:300-305 | the kept tokens keep the input order: a list gives the kept tokens of its first part followed by those of the rest; a comma-free text is its one stripped, lower-cased token, kept when allowed or when nothing is listed |
| Sanitizer.CleanupFieldsMeaning | solr/views.py:294-307 | `_cleanup_fields` fails exactly on a missing key or a value that is neither a text nor a list of texts; otherwise it rewrites only `key`, keeps the key order, and the stored text splits back into the kept tokens |
| Sanitizer.ClampBounds | solr/views.py:273-275 | the snippet count ends in `[0, max_hl]` and the fragment size in `[1, max_frag]`; values already in range are unchanged |
| Sanitizer.VisibleCounts | solr/views.py:333-335 | the fields left after the deny-list are the input's other fields, repeats included |
| Sanitizer.FlProtected | solr/views.py:332-334 | the protected fields are exactly the deny-listed tokens, repeats included |
| Sanitizer.FlOnlyDenied | solr/views.py:337-338 | nothing but deny-listed tokens gives the field list `id` |
| Sanitizer.FlOnlyStars | solr/views.py:340-344 | nothing but `*` besides deny-listed tokens gives the configured allowed fields |
| Sanitizer.FlKept | solr/views.py:324-346 | otherwise the field list holds every token except deny-listed ones and `*`, as often as the input has it |
| Sanitizer.FlKeptOrder | solr/views.py:332-346 | the kept and the protected fields keep the input order: when each part of `xs + ys` has a surviving field, both lists are those of `xs` followed by those of `ys`; one surviving field is kept as it is |
| Sanitizer.FqKeyEndsFq | solr/views.py:182-187 | the filter key is `fq` for `fl`, and `<prefix>.fq` otherwise, so it always ends in `fq` |
| Sanitizer.GrantedMembers | solr/views.py:197-198 | a row is used exactly when it is in the table, belongs to the user, names a protected field and has a filter |
| Sanitizer.IgnoredRow | solr/views.py:197-198 | a row of another user, of an unprotected field, or with an empty filter changes nothing |
| Sanitizer.ProtectiveFiltersFq | solr/views.py:183-200 | the filter entry becomes a list: the prior text or texts, then the filters of the granting rows in table order; a prior integer, alone or leading a list, stays at the head of the list as an integer |
| Sanitizer.ProtectiveFiltersFl | solr/views.py:181-201 | with no granting row `fl` is untouched; otherwise `fl` is the field text of `key` followed by exactly the granted fields |
| Sanitizer.ProtectiveFiltersFrame | solr/views.py:194-201 | only the filter key and `fl` are written, even when processing `x.fl` |
| Sanitizer.OutboundHeadersMeaning | solr/views.py:218-231 | only a big-query Content-Type passes through, anything else becomes the form type; Host is the given host; the trace id is passed on when present; nothing else is sent |
| Sanitizer.CleanKeyFrame | solr/views.py:270-290 | one loop round for key `k` changes no key outside the set that round can write |
| Sanitizer.CleanKeysConcat | solr/views.py:270 | the loop over `a + b` is the loop over `a` followed by the loop over `b` |
| Sanitizer.IsolatedOutcome | solr/views.py:270-290 | a key no other round can write ends with whatever its own round wrote |
| Sanitizer.IsolatedAbsent | solr/views.py:270-290 | such a key is never created by the loop |
| Sanitizer.PreludeFails | solr/views.py:245-248 | the prelude fails only on a `start` that is an empty list |
| Sanitizer.PreludeShape | solr/views.py:236-268 | the prelude keeps the dict well formed and adds no fragsize key |
| Sanitizer.PreludeFrame | solr/views.py:236-268 | the prelude writes only its own keys |
| Sanitizer.PreludeLogging | solr/views.py:227-237 | the prelude records the logging parameters and sets `wt` to `json` |
| Sanitizer.PreludeValues | solr/views.py:240-248 | `rows` keeps a given value or gets the default; `start` is a single integer, parsed or 0 |
| Sanitizer.PreludeCap | solr/views.py:250-268 | `fl` is present afterwards; the highlight cap is the request's own, or `max_frag` when `hl` is set, or absent |
| Sanitizer.CapWrittenOnlyByFragsize | solr/views.py:271-276 | only a fragsize round writes `hl.maxHighlightCharacters` |
| Sanitizer.CapAfterKeys | solr/views.py:270-276 | after the rounds, the cap holds the clamped snapshot value of the last fragsize key, or is unchanged when there is none |
| Sanitizer.CleanupCap | solr/views.py:261-276 | the cap `cleanup_solr_request` sends is the clamped value of the request's last fragsize key; otherwise the request's cap, or `max_frag` when `hl` is set |
| Sanitizer.CleanupRowsCapped | solr/views.py:310-315 | `rows`, and any other pure rows key, ends as its first value read as an integer (the default when it is not one) and capped at `SOLR_SERVICE_MAX_ROWS`, with no lower bound |
| Sanitizer.CleanupSnippets | solr/views.py:271-273 | a pure snippets key ends as its snapshot value read as an integer and clamped to `[0, max_hl]` |
| Sanitizer.CleanupFragsize | solr/views.py:271-275 | a pure fragsize key ends as its snapshot value read as an integer and clamped to `[1, max_frag]` |
| Sanitizer.CleanupShape | solr/views.py:235-290 | every cleaned request has `wt=json`, the logging parameters, `start` as the one integer read from the request (0 without one), and `rows` as the requested or default count capped at `SOLR_SERVICE_MAX_ROWS` |
| Sanitizer.CleanupValid | solr/views.py:204-292 | `cleanup_solr_request` keeps the payload a well-formed dict |
| Routing.EmbeddedRouting | solr/views.py:66-70 | with streams, Search and BigQuery go to the big-query handler of the class; the base resource's bot class falls back to `SOLR_SERVICE_URL`; Tvrh and Qtree keep their only handler |
| Routing.SearchHandlerOnlyFor | solr/views.py:70-77 | only Search's plain `default` route reaches the search handler |
| Routing.BearerToken | solr/views.py:559-563 | a bearer token in Authorization is the token unless a longer forwarded authorization is present |
| Routing.ForwardedToken | solr/views.py:559-561 | a forwarded bearer token takes precedence over Authorization |
| Routing.HandlerClassMeaning | solr/views.py:557-567 | the class is `bot` or `default`; `bot` needs Search or BigQuery and a listed token; with no auth header or no bot tokens it is `default` |
| Routing.ForwardedCookiesMeaning | solr/views.py:148-166 | the result holds exactly the configured cookies the request carries with a non-empty value, with their values; it is None exactly when there are none; forwarding it again changes nothing |
| Routing.HostOfUrl | solr/views.py:356-359 | `scheme//host/path` gives `host` when the scheme mentions http |
| Routing.HostOfBare | solr/views.py:356-361 | `host/path` with no http in its first part gives `host` |
| Routing.HostOfShort | solr/views.py:358-359 | an http URL without a second slash raises IndexError |
| Routing.CachedHostStable | solr/views.py:352-354 | a set cache is returned unchanged; an unset one is worked out from the URL; asking again with the answer gives the same answer |
| Streams.CloseFrom | solr/views.py:369-371 | the inner scan stops at the first `)` from `j`, or at the end of the text |
| Streams.CloseFromClear | solr/views.py:370-371 | no `)` lies between the start of the inner scan and where it stops |
| Streams.NextDocs | solr/views.py:367-371 | a round that finds `docs(` yields a value that starts after it and ends at a `)` |
| Streams.DocsValuesNoParen | solr/views.py:364-374 | no extracted value holds a `)` |
| Streams.DocsValuesNone | solr/views.py:367 | text without `docs(` yields no values |
| Streams.DocsValuesOf | solr/views.py:364-374 | extraction inverts `docs(v1)...docs(vn)`: after any prefix, the values come back in order |
| Streams.DocsValuesUnclosed | solr/views.py:370 | a trailing `docs(` that is never closed raises IndexError |
| Streams.KeysTokensNoParen | solr/views.py:384-393 | no stream name collected from the query holds a `)` |
| Streams.KeysTokensIgnore | solr/views.py:386 | parameters whose name has no `q` are never looked at |
| Streams.KeysTokensInt | solr/views.py:390-391 | a query-like parameter holding an integer, or a list starting with one, raises TypeError |
| Streams.IntFilterFails | solr/views.py:384-392 | an `fq` that is a list led by an integer (what the protective filters leave after an integer `fq`) makes the stream scan raise |
| Streams.BitsetFqMeaning | solr/views.py:401-406 | a missing `fq` becomes `['{!bitset}']`; a text `fq` keeps its text and carries the marker; a list keeps its elements and has one holding `!bitset`; an integer is left alone |
| Streams.BitsetIdempotent | solr/views.py:400-410 | applying the `{!bitset}` step twice equals applying it once |
| Streams.LocalScanSkips | solr/views.py:431-449 | as written, with two streams both given as parameters, the second is skipped, stays in the parameters and is sent on to be fetched remotely |
| Streams.LocalPartTakesBoth | solr/views.py:431-438 | as intended, both of those streams are taken from the parameters |
| Streams.LocalPartParams | solr/views.py:432-438 | after the intended first loop the parameters lose exactly the names looked up among them |
| Streams.LocalPartStreams | solr/views.py:431-449 | a name is found exactly when the request holds it (parameters, then a dict body, then files), with what it holds; the rest remain for the remote loop |
| Streams.FirstStop | solr/views.py:528-533 | the page the loop stops after, if any, is one of the pages |
| Streams.FirstStopMeaning | solr/views.py:528-533 | that page meets a stop condition and no earlier page does; None means no page does |
| Streams.HarvestMeaning | solr/views.py:504-537 | `_harvest_library` succeeds exactly when some page stops the loop, and then returns the union of the pages up to the first such page |
| Streams.UnionMembers | solr/views.py:525 | a bibcode is in the union exactly when one of the pages holds it |
| Streams.HarvestShortPage | solr/views.py:530 | a first page shorter than `maxr` is the whole library |
| Streams.CsvLines | solr/views.py:472 | the library stream's text is the line `bibcode`, then one bibcode per line |
| Streams.RemoteAllStreams | solr/views.py:451-496 | the remote loop fetches every missing name and records what each fetch gives |
| Streams.RemoteAllHost | solr/views.py:462-463 | the host left cached is the one the first call works out; with nothing to fetch, nothing changes |
| Streams.RemoteAllFails | solr/views.py:458-494 | it fails with anything to fetch and no Authorization header, and when any fetch fails |
| Streams.StreamDataKeys | solr/views.py:428-502 | `_get_stream_data` sends a stream for every requested name and every uploaded file, and nothing else |
| Streams.StreamDataLocal | solr/views.py:431-448 | a requested name the request holds is sent with what it holds |
| Streams.StreamDataRemote | solr/views.py:451-496 | any other requested name is sent with what was fetched for it |
| Streams.StreamDataFiles | solr/views.py:499-501 | every other uploaded file is passed on as it is |
| Streams.StreamDataParams | solr/views.py:438 | the parameters lose the requested names and nothing else |
| Streams.StreamDataFails | solr/views.py:487-494 | a name that is neither held nor fetchable makes the request fail |
| Streams.VaultDocsMeaning | solr/views.py:487-494 | a saved query's parameter named after the id gives its first value and wins over `bigquery`; an empty one fails; otherwise a non-empty `bigquery` is used, and without one the stream fails with a message naming it |
| Streams.WithBodyMeaning | solr/views.py:400-410 | with a non-empty plain body, the body is stored under `old-bad-behaviour` and `fq` takes the bitset step |
| Streams.EmbeddedParts | solr/views.py:414-420 | the check's streams and parameters are those of `_get_stream_data`; Content-Type is removed exactly when there are streams |
| Streams.EmbeddedBodyStream | solr/views.py:400-418 | a plain body always becomes the `old-bad-behaviour` stream, and Content-Type goes |
| Streams.EmbeddedBodyParams | solr/views.py:400-438 | the body then leaves the parameters and the filter carries `{!bitset}` |
| Streams.EmbeddedStreams | solr/views.py:376-420 | for an enumeration of the stream names, the streams sent are exactly one per name and one per other uploaded file |
| Streams.EmbeddedNothing | solr/views.py:384-420 | a request with no stream names, no plain body and no upload gets no streams and keeps its parameters and headers |
| Highlights.FlaggedIdsMeaning | solr/views.py:117-130 | the ids collected are exactly those of documents with a listed publisher (any one of a list); the collection fails exactly when such a document has no id |
| Highlights.StripAllMeaning | solr/views.py:132-138 | every highlight entry is kept; unflagged ones are untouched; flagged ones lose exactly `body` and `ack` |
| Highlights.FilterMeaning | solr/views.py:114-142 | the rewrite keeps the documents, marks the body filtered, and leaves no `body` or `ack` highlight on a flagged document |
| Highlights.FilterIdempotent | solr/views.py:114-142 | rewriting a rewritten body changes nothing |
| Highlights.PostProcessCompared | solr/views.py:114-146 | the code as written and as intended agree wherever the rewrite succeeds; exactly where it fails, the code as written raises and the intended code relays Solr's text |
| Highlights.FlaggedWithoutId | solr/views.py:126-144 | a flagged document without an id makes the code as written fail |
| Highlights.FlaggedWithoutHighlighting | solr/views.py:133-144 | a flagged document in an answer without `highlighting` makes the code as written fail |
| Highlights.NothingFlagged | solr/views.py:119-140 | an answer with no flagged document is only marked filtered |
| Requests.ShapeFlFrame | solr/views.py:77-84 | shaping the field list writes only `fl` and always leaves one |
| Requests.ShapeFlMeaning | solr/views.py:77-84 | the answer is post-processed exactly when a publisher is listed and `hl` is set; `publisher` is then asked for; otherwise only the default field list is filled in |
| Requests.GetDispatchPostprocess | solr/views.py:66-111 | `get` always forwards; only a request on Search's plain route without streams is post-processed, and it is highlighted and asks for `publisher` |
| Requests.GetDispatchRoute | solr/views.py:66-111 | with streams, Search and BigQuery go to the big-query handler of the class, otherwise to the class's handler; streams, headers and cookies are passed on |
| Requests.PreparedStreams | solr/views.py:50-67 | after cleanup (and the injected parameters in `get`), the streams sent are exactly one per stream name of the cleaned payload and one per other uploaded file |
| Requests.GetStreams | solr/views.py:49-111 | `get` forwards, with one stream per name of the cleaned query and one per other uploaded file, and nothing else |
| Requests.GetStages | solr/views.py:49-111 | a `get` that did not fail worked out the host, cleaned the query, checked for streams and dispatched, in that order |
| Requests.GetMeaning | solr/views.py:49-111 | what `get` forwards: to the route of its class; Content-Type is sent exactly when there are no streams; Host is the handler's host |
| Requests.GetPostprocess | solr/views.py:72-114 | only a highlighted `default` request on Search's plain route is post-processed, sent without streams to the search handler, asking for `publisher` |
| Requests.ReplyForMeaning | solr/views.py:114-146 | a reply is rewritten only for a post-processed request that Solr answered with success; it then keeps Solr's documents, is marked filtered and carries no `body`/`ack` highlight for a flagged document |
| Requests.PostPayloadMeaning | solr/views.py:601-604 | in a POST the JSON body wins over the query string, which wins over the form |
| Requests.PostStages | solr/views.py:599-625 | a `post` that did not fail went through the same stages as `get`, without injected parameters |
| Requests.PostForwardMeaning | solr/views.py:609-630 | without streams the request is malformed; with them it goes, never post-processed and without Content-Type, to the big-query handler of its class |
| Requests.PostMeaning | solr/views.py:599-631 | a POST is forwarded only with streams, never post-processed, to the big-query handler of its class |
| Requests.PostMalformed | solr/views.py:599-630 | a POST is answered "Malformed request" exactly when its cleaned payload names no stream, has no plain body and it uploads nothing |
| Views.FieldTokens | solr/views.py:300-302 | the loop that extends `fields` builds the trimmed, lower-cased tokens of every value, in order |
| Views.DropStars | solr/views.py:340-341 | `while '*' in fields: fields.pop(fields.index('*'))` removes every `*` and keeps the rest in order |
| Views.ListOf | solr/views.py:414 | `list(streams)` holds every name of the set exactly once |
| Views.FindClose | solr/views.py:369-371 | the inner loop stops at `CloseFrom` |
| Views.ExtractDocsValues | solr/views.py:364-374 | the nested loops of `_extract_docs_values` compute `DocsValues`, including the IndexError on an unclosed `docs(` |
| Views.HarvestPage | solr/views.py:523-533 | one round adds the page to the bibcodes so far and tests the four stop conditions |
| Views.HarvestLibrary | solr/views.py:504-537 | the `while True` loop computes `Harvest`; request `k` asks for `start = k * maxr`, and there is one request per page up to the first that stops |
| Views.QueryStreams | solr/views.py:384-393 | the first loop of `check_for_embedded_bigquery` collects the names the query-like parameters mention |
| Views.CopyFiles | solr/views.py:498-501 | every uploaded file not already among the streams is added under its own name |
| Views.IsFlagged | solr/views.py:123-130 | the inner loop over a list of publishers breaks at the first listed one |
| Views.CollectFlagged | solr/views.py:117-130 | the loop computes `FlaggedIds` |
| Views.DropKeys | solr/views.py:136-138 | exactly the listed keys leave the highlight entry; the rest keep their values |
| Views.StripHighlights | solr/views.py:132-138 | the loop computes `StripAll` |
| Views.FilterResponse | solr/views.py:114-146 | the rewrite as evidently intended: a rewritten body, or Solr's text when the rewrite raises |
| Views.UpdateFrom | solr/views.py:602-604 | `d.update(e)` in place |
| Views.SolrInterface.GetHost | solr/views.py:352-362 | the host is the cached one or is worked out from the URL, and is cached when it is |
| Views.SolrInterface.CleanupFields | solr/views.py:294-307 | in place, `_cleanup_fields` ends as `Sanitizer.CleanupFields` says, or fails with its error |
| Views.SolrInterface.CleanupRows | solr/views.py:310-315 | in place, as `Sanitizer.CleanupRows` says |
| Views.SolrInterface.ApplyProtectiveFilters | solr/views.py:168-202 | the loop over the table's rows leaves the payload as `ProtectiveFilters` says |
| Views.SolrInterface.CleanupFl | solr/views.py:317-349 | in place, as `Sanitizer.CleanupFl` says |
| Views.SolrInterface.HighlightRound | solr/views.py:271-276 | in place, the highlight branch of a round |
| Views.SolrInterface.CleanRound | solr/views.py:271-290 | in place, one round of the loop for a key and its snapshot value |
| Views.SolrInterface.SolrHeaders | solr/views.py:218-231 | the headers built for Solr are `OutboundHeaders` |
| Views.SolrInterface.PreludeHead | solr/views.py:236-248 | in place, the first half of the prelude |
| Views.SolrInterface.PreludeTail | solr/views.py:250-268 | in place, the second half of the prelude |
| Views.SolrInterface.CleanLoop | solr/views.py:270-290 | the loop over the snapshot of the payload's items ends as `CleanKeys` says |
| Views.SolrInterface.CleanupSolrRequest | solr/views.py:204-292 | a host that cannot be worked out fails with nothing changed; otherwise the host is cached, and the payload and headers are `Cleanup` and `OutboundHeaders` |
| Views.SolrInterface.BitsetUpdate | solr/views.py:400-410 | in place, the `{!bitset}` step and the body stored under `old-bad-behaviour` |
| Views.SolrInterface.FetchStream | solr/views.py:452-496 | one remote stream is `Fetch` |
| Views.SolrInterface.LocalStreams | solr/views.py:431-449 | the first loop, as intended, is `LocalPart` |
| Views.SolrInterface.RemoteStreams | solr/views.py:451-496 | the remote loop is `RemoteAll`, host cache included |
| Views.SolrInterface.GetStreamData | solr/views.py:422-502 | `_get_stream_data` is `StreamData`: parameters, streams and host cache |
| Views.SolrInterface.CollectStreams | solr/views.py:384-411 | the stream names, and the payload after the `{!bitset}` step |
| Views.SolrInterface.CheckForEmbeddedBigquery | solr/views.py:376-420 | the check is `EmbeddedBigquery` for the enumeration it used; it succeeds only when the stream names can be collected, and then `order` lists every name once and nothing else |
| Views.SolrInterface.SetCookies | solr/views.py:148-166 | `set_cookies` is `ForwardedCookies` |
| Views.SolrInterface.ShapeFields | solr/views.py:77-84 | in place, the field-list shaping, with its error |
| Views.SolrInterface.Respond | solr/views.py:114-146 | the reply to Solr's answer is `ReplyFor` |
| Views.SolrInterface.Prepare | solr/views.py:50-67 | cleanup, injected parameters and the streams check in sequence are `Prepared`, and `order` enumerates the stream names of the cleaned payload whenever they can be collected |
| Views.SolrInterface.DispatchGet | solr/views.py:68-111 | the last part of `get` is `GetDispatch` |
| Views.SolrInterface.Get | solr/views.py:49-111 | `get` is `GetSpec`, failures included, for an `order` that enumerates the stream names of the cleaned query |
| Views.SolrInterface.Post | solr/views.py:599-631 | `post` is `PostSpec`, failures and the 400 included, for an `order` that enumerates the stream names of the cleaned payload |

## Left out

- HTTP: the calls to Solr, the vault and the library service are not made. Their answers
  are inputs (`Services`, `Answer`), and a failed call is an error result.
- The `limits` table and its session: the rows are an input sequence, and the query's
  selection is applied in the model. `solr/models.py` is not part of this model.
- JSON decoding and `parse_qs`: the decoded values are inputs. A body that is not JSON is
  `None`.
- Logging, `current_user` (it only affects a log line), the status view and
  `ClosingTuple.close`.
- Flask's `request` and `current_app.config`: these are the `Request` record and the
  `Config` record. A missing configuration key is not modelled: each field holds the
  value the code would read, with the code's fallback already applied.
- Python 2 `str`/`unicode` differences. Strings are ASCII `seq<char>`. `strip`, `lower`
  and `int()` are modelled for ASCII only, and `int()` without underscores.
- Uploaded file streams are opaque handles.
- The enumeration order of Python sets. The stream names and the harvested bibcodes are
  a set; the order in which `list(streams)` lists the names is the `order` out-parameter.
- The headers sent to the vault and the library: only the Authorization requirement and
  the Host are modelled. `X-Forwarded-Authorization` and the trace id are left out.
- The library's pages are a finite sequence. A page past the last one is a failed request.
- `Services.maxRows` stands for `BIBLIB_MAX_ROWS`.
- The partial state of the payload when an exception escapes is not modelled. An `Err`
  says only that the request fails.
- `Strings.LowerMeaning`: ASCII only; other letters are left as they are.
- JSON values the `Value` type cannot hold: floats, booleans, `null`, nested objects and
  lists, and lists with a number after their first item. A parameter is a text, an
  integer, a list of texts, or a list led by an integer (what the protective filters make
  of an integer `fq`).
- `Request.headers`: header names are carried in their canonical case (`Authorization`,
  `X-Forwarded-Authorization`, `Content-Type`, `X-Amzn-Trace-Id` and the logging
  headers). Flask's case-insensitive header lookup is not modelled, so a request whose
  header names arrive in another case must be given with them normalised.
- `Views.SolrInterface.ApplyProtectiveFilters`: requires `payload[key]` to be a text. Its
  only caller, `_cleanup_fl`, has just written the joined field text there, so the
  `payload.get(key, 'id')` default is never taken.
- `Streams.EmbeddedBodyParams`: requires that `fq` is not itself one of the stream names.
- `Views.SolrInterface.LocalStreams`: implements the first loop of `_get_stream_data` as
  evidently intended. The skipping loop as written is modelled by
  `Streams.LocalScanAsWritten` (see Findings).
- `Views.SolrInterface.FilterResponse`: implements the post-processing as evidently
  intended. The `except` branch as written is `Highlights.PostProcessAsWritten` (see
  Findings).
- `Sanitizer.CleanupRowsCapped`, `Sanitizer.CleanupSnippets` and
  `Sanitizer.CleanupFragsize`: stated for keys of one family only. Such a key is not
  `fl`, not `hl.maxHighlightCharacters`, and has no `fq` ending. A key in several
  families is written by several branches of the same round, and only `CleanKeyFrame`
  bounds it.
- The "only one content stream" check and the row scaling by rate-limit level are not in
  `solr/views.py`, and are not modelled.

## Findings

| source | as written | input that shows it | evidently intended | confidence | as-written member | corrected member |
|---|---|---|---|---|---|---|
| solr/views.py:143-144 | The `except` handler calls `e.with_traceback()` with no argument. That raises a TypeError inside the handler, so a failed rewrite fails the request. | A highlighted search whose answer has a document with a listed publisher and no `id`, or with no `highlighting` entry. | Log the failure and return Solr's own text (views.py:146). | not executed | Highlights.PostProcessAsWritten (Highlights.FlaggedWithoutId, Highlights.FlaggedWithoutHighlighting) | Highlights.PostProcess (Highlights.PostProcessCompared, Views.FilterResponse) |
| solr/views.py:431-449 | The loop iterates over `streams` while `streams.remove(sn)` shrinks that list. The name after each one found is never looked at, and falls through to the remote loop. | Two stream names `a` and `b`, both given as request parameters. `b` stays in the parameters and is fetched from the vault. | Every name is looked up once. Names held by the request are taken from it, and only the rest are fetched. | not executed | Streams.LocalScanAsWritten (Streams.LocalScanSkips) | Streams.LocalPart (Streams.LocalPartTakesBoth, Streams.LocalPartStreams, Views.SolrInterface.LocalStreams) |
