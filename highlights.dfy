/** The rewrite of a search response that drops the highlights Solr returned for documents
    of publishers that do not allow them (views.py:77-86, 98-146). */
module Highlights {
  import opened Wrappers
  import opened Strings

  /** `doc['publisher']`: one name or a list of names. */
  datatype Publisher = One(name: string) | Many(names: seq<string>)

  /** What the rewrite reads of a document: its `id`, when present, and its `publisher`. */
  datatype Doc = Doc(id: Option<string>, publisher: Option<Publisher>)

  /** One document's highlights: field name to snippets. */
  type Snippets = map<string, seq<string>>

  /** The decoded response as far as the rewrite touches it: `response.docs` (None when
      `response` or `docs` is missing), `highlighting` (None when missing), and whether
      `filtered` has been set. */
  datatype Body = Body(docs: Option<seq<Doc>>, highlighting: Option<map<string, Snippets>>, filtered: bool)

  /** What the view sends back: the rewritten JSON, or Solr's own text unchanged. */
  datatype Reply = Rewritten(body: Body) | Relayed

  const Removed: set<string> := {"body", "ack"}

  /** A list of publishers is flagged when any of them is (the inner loop breaks at the
      first); a single one when its lower-cased name is listed. */
  predicate Flagged(pub: Publisher, deny: seq<string>) {
    match pub
    case One(s) => Lower(s) in deny
    case Many(xs) => exists i :: 0 <= i < |xs| && Lower(xs[i]) in deny
  }

  predicate DocFlagged(d: Doc, deny: seq<string>) {
    d.publisher.Some? && Flagged(d.publisher.value, deny)
  }

  /** `unhighlightable_docs`: the ids of the flagged documents, in order; a flagged document
      without an `id` raises KeyError. */
  function FlaggedIds(docs: seq<Doc>, deny: seq<string>): Result<seq<string>>
    decreases |docs|
  {
    if |docs| == 0 then Ok([])
    else
      var ids :- FlaggedIds(docs[..|docs| - 1], deny);
      var d := docs[|docs| - 1];
      if !DocFlagged(d, deny) then Ok(ids)
      else if d.id.None? then Err("KeyError: 'id'")
      else Ok(ids + [d.id.value])
  }

  /** The ids collected are exactly those of the flagged documents, and the collection fails
      exactly when a flagged document has no id. */
  lemma {:induction false} FlaggedIdsMeaning(docs: seq<Doc>, deny: seq<string>)
    ensures FlaggedIds(docs, deny).Err? <==> exists i :: 0 <= i < |docs| && DocFlagged(docs[i], deny) && docs[i].id.None?
    ensures FlaggedIds(docs, deny).Ok? ==> forall x :: x in FlaggedIds(docs, deny).value <==>
      exists i :: 0 <= i < |docs| && DocFlagged(docs[i], deny) && docs[i].id == Some(x)
    decreases |docs|
  {
    if |docs| > 0 {
      var init := docs[..|docs| - 1];
      FlaggedIdsMeaning(init, deny);
      assert forall i :: 0 <= i < |init| ==> init[i] == docs[i];
    }
  }

  /** The highlights with `body` and `ack` removed from the entries of the flagged ids. */
  function StripAll(h: map<string, Snippets>, ids: seq<string>): map<string, Snippets> {
    map k | k in h :: if k in ids then h[k] - Removed else h[k]
  }

  /** Stripping keeps every entry, leaves the unflagged ones alone, and takes exactly the two
      fields out of the flagged ones. */
  lemma StripAllMeaning(h: map<string, Snippets>, ids: seq<string>)
    ensures StripAll(h, ids).Keys == h.Keys
    ensures forall k :: k in h && k !in ids ==> StripAll(h, ids)[k] == h[k]
    ensures forall k, f :: k in h && k in ids ==>
      (f in StripAll(h, ids)[k] <==> f in h[k] && f != "body" && f != "ack")
    ensures forall k, f :: k in h && k in ids && f in StripAll(h, ids)[k] ==> StripAll(h, ids)[k][f] == h[k][f]
  {
  }

  /** The rewrite inside the `try`: the ids of the flagged documents, their highlights
      without `body` and `ack`, and `filtered` set. A body that is not JSON, a missing
      `response.docs`, a flagged document without an id, or missing `highlighting` while
      something is flagged, raises. */
  function Filter(parsed: Option<Body>, deny: seq<string>): Result<Body> {
    if parsed.None? then Err("JSONDecodeError")
    else
      var b := parsed.value;
      if b.docs.None? then Err("KeyError: 'response'")
      else
        var ids :- FlaggedIds(b.docs.value, deny);
        if |ids| == 0 then Ok(Body(b.docs, b.highlighting, true))
        else if b.highlighting.None? then Err("KeyError: 'highlighting'")
        else Ok(Body(b.docs, Some(StripAll(b.highlighting.value, ids)), true))
  }

  /** The rewrite keeps the documents, marks the body filtered, and leaves no `body` or `ack`
      highlight on any flagged document with an id. */
  lemma FilterMeaning(parsed: Option<Body>, deny: seq<string>)
    ensures Filter(parsed, deny).Ok? ==> parsed.Some? && Filter(parsed, deny).value.docs == parsed.value.docs
    ensures Filter(parsed, deny).Ok? ==> Filter(parsed, deny).value.filtered
    ensures Filter(parsed, deny).Ok? ==> forall i ::
      (0 <= i < |parsed.value.docs.value| && DocFlagged(parsed.value.docs.value[i], deny) && parsed.value.docs.value[i].id.Some?) ==>
      var h := Filter(parsed, deny).value.highlighting;
      var id := parsed.value.docs.value[i].id.value;
      h.Some? && id in h.value ==> "body" !in h.value[id] && "ack" !in h.value[id]
  {
    if parsed.Some? && parsed.value.docs.Some? {
      FlaggedIdsMeaning(parsed.value.docs.value, deny);
    }
  }

  /** Rewriting a rewritten body changes nothing. */
  lemma FilterIdempotent(parsed: Option<Body>, deny: seq<string>)
    requires Filter(parsed, deny).Ok?
    ensures Filter(Some(Filter(parsed, deny).value), deny) == Filter(parsed, deny)
  {
    var b := parsed.value;
    var ids := FlaggedIds(b.docs.value, deny).value;
    if |ids| > 0 {
      var h := b.highlighting.value;
      forall k | k in h && k in ids ensures (h[k] - Removed) - Removed == h[k] - Removed {
      }
      assert StripAll(StripAll(h, ids), ids) == StripAll(h, ids);
    }
  }

  /** The `except` branch AS WRITTEN: `e.with_traceback()` is called without its one
      argument, which raises TypeError inside the handler, so the request fails instead of
      relaying Solr's text. */
  function PostProcessAsWritten(parsed: Option<Body>, deny: seq<string>): Result<Reply> {
    match Filter(parsed, deny)
    case Ok(b) => Ok(Rewritten(b))
    case Err(_) => Err("TypeError: with_traceback() takes exactly one argument (0 given)")
  }

  /** The post-processing as evidently intended: the failure is logged and Solr's own text
      is returned (views.py:146). */
  function PostProcess(parsed: Option<Body>, deny: seq<string>): Reply {
    match Filter(parsed, deny)
    case Ok(b) => Rewritten(b)
    case Err(_) => Relayed
  }

  /** The two agree wherever the rewrite succeeds, and exactly where it fails the code as
      written raises while the intended code relays the response. */
  lemma PostProcessCompared(parsed: Option<Body>, deny: seq<string>)
    ensures PostProcessAsWritten(parsed, deny).Ok? ==> PostProcessAsWritten(parsed, deny).value == PostProcess(parsed, deny)
    ensures PostProcessAsWritten(parsed, deny).Err? <==> PostProcess(parsed, deny) == Relayed
    ensures PostProcess(parsed, deny) == Relayed <==> Filter(parsed, deny).Err?
  {
  }

  /** A flagged document without an id makes the code as written fail. */
  lemma FlaggedWithoutId(name: string, deny: seq<string>, h: Option<map<string, Snippets>>)
    requires Lower(name) in deny
    ensures PostProcessAsWritten(Some(Body(Some([Doc(None, Some(One(name)))]), h, false)), deny).Err?
    ensures PostProcess(Some(Body(Some([Doc(None, Some(One(name)))]), h, false)), deny) == Relayed
  {
    var docs := [Doc(None, Some(One(name)))];
    assert docs[..0] == [];
    assert FlaggedIds(docs, deny).Err?;
  }

  /** A flagged document in a response without highlighting makes the code as written fail. */
  lemma FlaggedWithoutHighlighting(id: string, name: string, deny: seq<string>)
    requires Lower(name) in deny
    ensures PostProcessAsWritten(Some(Body(Some([Doc(Some(id), Some(One(name)))]), None, false)), deny).Err?
    ensures PostProcess(Some(Body(Some([Doc(Some(id), Some(One(name)))]), None, false)), deny) == Relayed
  {
    var docs := [Doc(Some(id), Some(One(name)))];
    assert docs[..0] == [];
    assert FlaggedIds(docs[..0], deny) == Ok([]);
    assert [] + [id] == [id];
    assert FlaggedIds(docs, deny) == Ok([id]);
  }

  lemma {:induction false} FlaggedIdsNone(docs: seq<Doc>, deny: seq<string>)
    requires forall i :: 0 <= i < |docs| ==> !DocFlagged(docs[i], deny)
    ensures FlaggedIds(docs, deny) == Ok([])
    decreases |docs|
  {
    if |docs| > 0 {
      var init := docs[..|docs| - 1];
      assert forall i :: 0 <= i < |init| ==> init[i] == docs[i];
      FlaggedIdsNone(init, deny);
    }
  }

  /** A response with no flagged document is only marked filtered. */
  lemma NothingFlagged(b: Body, deny: seq<string>)
    requires b.docs.Some? && forall i :: 0 <= i < |b.docs.value| ==> !DocFlagged(b.docs.value[i], deny)
    ensures PostProcess(Some(b), deny) == Rewritten(Body(b.docs, b.highlighting, true))
  {
    FlaggedIdsNone(b.docs.value, deny);
  }
}
