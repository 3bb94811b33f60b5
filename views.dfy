/** The resource class `SolrInterface` (views.py:34-537): its methods change the request
    payload and the host cache in place, step by step as the code does, and each is proved
    against the functions of modules `Sanitizer`, `Routing`, `Streams` and `Highlights`.
    The two request handlers `get` and `post` are methods of the class too; what they would
    send to Solr is returned as an `Outgoing` value. */
module Views {
  import opened Wrappers
  import opened Strings
  import opened Params
  import opened Settings
  import opened Sanitizer
  import opened Routing
  import opened Streams
  import opened Highlights
  import opened Requests

  /** An in-place update ended as the dict function `f` says: with `f`'s error, or with the
      payload holding `f`'s result. */
  ghost predicate Follows(r: Result<()>, f: Result<Dict>, now: Dict) {
    match f
    case Ok(d) => r.Ok? && now == d
    case Err(e) => r == Err(e)
  }

  /** The position `fields.index(x)` gives. */
  function IndexOf(xs: seq<string>, x: string): (r: nat)
    requires x in xs
    ensures r < |xs| && xs[r] == x && x !in xs[..r]
    decreases |xs|
  {
    if xs[0] == x then 0
    else
      assert x in xs[1..];
      var r := IndexOf(xs[1..], x);
      assert xs[..r + 1] == [xs[0]] + xs[1..][..r];
      r + 1
  }

  /** Removing one `*` does not change what is left once every `*` is removed. */
  lemma DropStar(xs: seq<string>, n: nat)
    requires n < |xs| && xs[n] == "*"
    ensures KeepOut(xs[..n] + xs[n + 1..], ["*"]) == KeepOut(xs, ["*"])
  {
    var a, b := xs[..n], xs[n + 1..];
    var star: seq<string> := [xs[n]];
    assert xs == a + (star + b);
    assert KeepOut(star, ["*"]) == [] by {
      assert star[..0] == [];
    }
    KeepOutConcat(a, star + b, ["*"]);
    KeepOutConcat(star, b, ["*"]);
    KeepOutConcat(a, b, ["*"]);
  }

  /** A list holding nothing to remove is left as it is. */
  lemma {:induction false} KeepOutNone(xs: seq<string>, a: seq<string>)
    requires forall i :: 0 <= i < |xs| ==> xs[i] !in a
    ensures KeepOut(xs, a) == xs
    decreases |xs|
  {
    if |xs| > 0 {
      KeepOutNone(xs[..|xs| - 1], a);
      assert xs[..|xs| - 1] + [xs[|xs| - 1]] == xs;
    }
  }

  /** Writing a key twice is writing it once, last value wins; so is writing a pair twice. */
  lemma PutAgain(d: Dict, k: string, j: string, a: Value, b: Value, c: Value, e: Value)
    ensures d.Put(k, a).Put(k, c) == d.Put(k, c)
    ensures d.Put(k, a).Put(j, b).Put(k, c).Put(j, e) == d.Put(k, c).Put(j, e)
  {
    assert d.Put(k, a).Put(j, b).Put(k, c).Put(j, e).vals == d.Put(k, c).Put(j, e).vals;
  }

  /** Writing the filter list and `fl` again replaces what the earlier rows wrote. */
  lemma Rewrite(d: Dict, k: string, j: string, x: Value, y: Value, x': Value, y': Value, withJ: bool)
    ensures (if withJ then d.Put(k, x).Put(j, y) else d.Put(k, x)).Put(k, x').Put(j, y') == d.Put(k, x').Put(j, y')
  {
    PutAgain(d, k, j, x, y, x', y');
  }

  /** A round that fails stops the whole loop with that error. */
  lemma {:induction false} CleanKeysStops(cfg: Config, uid: string, rules: seq<Limit>, snap: map<string, Value>, d: Dict, ks: seq<string>, n: nat)
    requires n <= |ks| && CleanKeys(cfg, uid, rules, snap, d, ks[..n]).Err?
    ensures CleanKeys(cfg, uid, rules, snap, d, ks) == CleanKeys(cfg, uid, rules, snap, d, ks[..n])
    decreases |ks|
  {
    if n < |ks| {
      var init := ks[..|ks| - 1];
      assert init[..n] == ks[..n];
      CleanKeysStops(cfg, uid, rules, snap, d, init, n);
    } else {
      assert ks[..n] == ks;
    }
  }

  /** `[i.strip().lower() for i in y.split(',')]` for each `y`, extended one after another
      (views.py:302-303, 325-326). */
  method FieldTokens(values: seq<string>) returns (fields: seq<string>)
    ensures fields == Tokens(values)
  {
    fields := [];
    for i := 0 to |values|
      invariant fields == Tokens(values[..i])
    {
      assert values[..i + 1][..i] == values[..i];
      fields := fields + Pieces(values[i]);
    }
    assert values[..|values|] == values;
  }

  /** `while '*' in fields: fields.pop(fields.index('*'))` (views.py:341-342). */
  method DropStars(xs: seq<string>) returns (fields: seq<string>)
    ensures fields == KeepOut(xs, ["*"])
  {
    fields := xs;
    while "*" in fields
      invariant KeepOut(fields, ["*"]) == KeepOut(xs, ["*"])
      decreases |fields|
    {
      var n := IndexOf(fields, "*");
      DropStar(fields, n);
      fields := fields[..n] + fields[n + 1..];
    }
    KeepOutNone(fields, ["*"]);
  }

  /** One more limits row: the granted rows grow by it exactly when it grants. */
  lemma GrantedAt(rules: seq<Limit>, i: nat, uid: string, protected: seq<string>)
    requires i < |rules|
    ensures Granted(rules[..i + 1], uid, protected) ==
      Granted(rules[..i], uid, protected) + (if Grants(rules[i], uid, protected) then [rules[i]] else [])
  {
    assert rules[..i + 1][..i] == rules[..i];
  }

  /** A granted row adds its filter to the filter list and its field to `fl`. */
  lemma GrantedSnoc(gs: seq<Limit>, f: Limit)
    ensures FiltersOf(gs + [f]) == FiltersOf(gs) + [f.filter]
    ensures FlSuffix(gs + [f]) == FlSuffix(gs) + "," + f.field
  {
    assert (gs + [f])[..|gs|] == gs;
  }

  /** What is found so far in front of the answer for the rest of the text. */
  function Prefixed(out: seq<string>, rest: Result<seq<string>>): Result<seq<string>> {
    match rest
    case Ok(vs) => Ok(out + vs)
    case Err(e) => Err(e)
  }

  lemma PrefixedNil(r: Result<seq<string>>)
    ensures Prefixed([], r) == r
  {
    if r.Ok? {
      assert [] + r.value == r.value;
    }
  }

  /** The scan from `i` is the value found there in front of the scan after its `)`. */
  lemma DocsValuesNext(s: string, i: nat, a: nat, c: nat, out: seq<string>)
    requires NextDocs(s, i) == Found(a, c)
    ensures Prefixed(out, DocsValues(s, i)) == Prefixed(out + [s[a..c]], DocsValues(s, c + 1))
  {
    match DocsValues(s, c + 1)
    case Ok(tail) =>
      DocsValuesCons(s, i, a, c, c + 1, tail);
      Assoc(out, [s[a..c]], tail);
    case Err(e) =>
      DocsValuesStep(s, i, a, c);
  }

  lemma {:induction false} ListTokensStops(xs: seq<string>, n: nat)
    requires n <= |xs| && ListTokens(xs[..n]).Err?
    ensures ListTokens(xs) == ListTokens(xs[..n])
    decreases |xs|
  {
    if n < |xs| {
      assert xs[..|xs| - 1][..n] == xs[..n];
      ListTokensStops(xs[..|xs| - 1], n);
    } else {
      assert xs[..n] == xs;
    }
  }

  lemma {:induction false} KeysTokensStops(vals: map<string, Value>, ks: seq<string>, n: nat)
    requires n <= |ks| && KeysTokens(vals, ks[..n]).Err?
    ensures KeysTokens(vals, ks) == KeysTokens(vals, ks[..n])
    decreases |ks|
  {
    if n < |ks| {
      assert ks[..|ks| - 1][..n] == ks[..n];
      KeysTokensStops(vals, ks[..|ks| - 1], n);
    } else {
      assert ks[..n] == ks;
    }
  }

  lemma {:induction false} RemoteAllStops(host: string, url: Option<string>, headers: map<string, string>, svc: Services, ss: seq<string>, n: nat)
    requires n <= |ss| && RemoteAll(host, url, headers, svc, ss[..n]).Err?
    ensures RemoteAll(host, url, headers, svc, ss).Err?
    decreases |ss|
  {
    if n < |ss| {
      assert ss[..|ss| - 1][..n] == ss[..n];
      RemoteAllStops(host, url, headers, svc, ss[..|ss| - 1], n);
    } else {
      assert ss[..n] == ss;
    }
  }

  /** Writing back the value a key already holds changes nothing. */
  lemma PutSame(d: Dict, k: string)
    requires k in d.vals && k in d.keys
    ensures d.Put(k, d.vals[k]) == d
  {
    assert d.vals[k := d.vals[k]] == d.vals;
  }

  /** `list(streams)`: the names of a set, each once, in some order. */
  method ListOf(names: set<string>) returns (xs: seq<string>)
    ensures Distinct(xs)
    ensures forall x :: x in xs <==> x in names
  {
    xs := [];
    var todo := names;
    while todo != {}
      invariant todo <= names && Distinct(xs)
      invariant forall x :: x in xs <==> x in names - todo
      decreases todo
    {
      var x :| x in todo;
      DistinctSnoc(xs, x);
      xs := xs + [x];
      todo := todo - {x};
    }
  }

  /** The inner loop of `_extract_docs_values`: the first `)` from `j` on, or the end of
      the text. */
  method FindClose(input: string, j0: nat) returns (j: nat)
    requires j0 <= |input|
    ensures j == CloseFrom(input, j0)
  {
    j := j0;
    while j < |input| && input[j] != ')'
      invariant j0 <= j <= |input|
      invariant forall t :: j0 <= t < j ==> input[t] != ')'
      decreases |input| - j
    {
      j := j + 1;
    }
    if j < |input| {
      CloseAt(input, j0, j);
    } else {
      assert CloseFrom(input, j0) == |input|;
    }
  }

  /** One round of the outer loop of `_extract_docs_values`: the `find` test, the `index`
      that moves past `docs(`, and the inner scan for `)`. */
  method NextValue(input: string, i: nat) returns (sc: Scan)
    ensures sc == NextDocs(input, i)
  {
    var f := FindFrom(input, DocsOpen, i);
    if f < 0 {
      return NoMore;
    }
    var j := FindClose(input, f + 5);
    sc := if j == |input| then Unclosed else Found(f + 5, j);
  }

  /** `_extract_docs_values` (views.py:364-374). The inner loop reads `input[j]` before it
      tests `j < len(input)`, so running off the end is the IndexError that reading past
      the text raises. */
  method ExtractDocsValues(input: string) returns (r: Result<seq<string>>)
    ensures r == DocsValues(input, 0)
  {
    var out: seq<string> := [];
    var i: nat := 0;
    PrefixedNil(DocsValues(input, 0));
    while true
      invariant i <= |input| + 1
      invariant DocsValues(input, 0) == Prefixed(out, DocsValues(input, i))
      decreases |input| + 1 - i
    {
      var sc := NextValue(input, i);
      match sc
      case NoMore =>
        assert out + [] == out;
        return Ok(out);
      case Unclosed =>
        return Err("IndexError: string index out of range");
      case Found(a, c) =>
        DocsValuesNext(input, i, a, c, out);
        out := out + [input[a..c]];
        i := c + 1;
    }
  }

  /** One round of `_harvest_library`'s loop: page `i` added to the bibcodes so far, and
      the loop's exit test. */
  method HarvestPage(pages: seq<Page>, maxr: int, i: nat, documents: set<string>) returns (stop: bool, after: set<string>)
    requires i < |pages| && documents == Union(pages[..i])
    ensures after == Union(pages[..i + 1])
    ensures stop == StopsAt(pages, maxr, i)
  {
    var page := pages[i];
    var oldcount := |documents|;
    UnionSnoc(pages, i);
    after := documents + DocsSet(page);
    stop := || (page.numDocuments.Some? && page.numDocuments.value <= |after|)
            || |page.documents| < maxr
            || oldcount == |after|
            || |page.documents| == 0;
  }

  /** The next request starts one page further on. */
  lemma StartsSnoc(starts: seq<int>, maxr: int)
    requires forall k :: 0 <= k < |starts| ==> starts[k] == k * maxr
    ensures forall k :: 0 <= k < |starts| + 1 ==> (starts + [|starts| * maxr])[k] == k * maxr
  {
  }

  /** `_harvest_library` (views.py:504-537) over the pages the library service would answer:
      page `k` answers the request with `start = k * rows`. Also returns the `start` of each
      request made. */
  method HarvestLibrary(pages: seq<Page>, maxr: int) returns (r: Result<set<string>>, starts: seq<int>)
    ensures r == Harvest(pages, maxr)
    ensures forall k :: 0 <= k < |starts| ==> starts[k] == k * maxr
    ensures r.Ok? ==> FirstStop(pages, maxr, 0).Some? && |starts| == FirstStop(pages, maxr, 0).value + 1
  {
    var documents: set<string> := {};
    var start := 0;
    var i: nat := 0;
    starts := [];
    assert pages[..0] == [];
    while true
      invariant i <= |pages|
      invariant documents == Union(pages[..i])
      invariant HarvestFrom(pages, maxr, i, documents) == Harvest(pages, maxr)
      invariant FirstStop(pages, maxr, i) == FirstStop(pages, maxr, 0)
      invariant start == i * maxr && |starts| == i
      invariant forall k :: 0 <= k < i ==> starts[k] == k * maxr
      decreases |pages| - i
    {
      StartsSnoc(starts, maxr);
      starts := starts + [start];
      if i >= |pages| {
        return Err("HTTPError: library request failed"), starts;
      }
      HarvestStep(pages, maxr, i);
      var stop;
      stop, documents := HarvestPage(pages, maxr, i, documents);
      if stop {
        assert FirstStop(pages, maxr, i) == Some(i);
        return Ok(documents), starts;
      }
      assert FirstStop(pages, maxr, i) == FirstStop(pages, maxr, i + 1);
      assert (i + 1) * maxr == i * maxr + maxr;
      start := start + maxr;
      i := i + 1;
    }
  }

  /** The names `docs(...)` mentions in one text. */
  method TextStreams(s: string) returns (r: Result<set<string>>)
    ensures r == TextTokens(s)
  {
    if !Contains(s, DocsOpen) {
      return Ok({});
    }
    var vs := ExtractDocsValues(s);
    if vs.Err? {
      return Err(vs.error);
    }
    r := Ok(set x | x in vs.value);
  }

  /** The inner `for x in v` over a list value. */
  method ListStreams(xs: seq<string>) returns (r: Result<set<string>>)
    ensures r == ListTokens(xs)
  {
    var found: set<string> := {};
    for i := 0 to |xs|
      invariant ListTokens(xs[..i]) == Ok(found)
    {
      assert xs[..i + 1][..i] == xs[..i];
      var t := TextStreams(xs[i]);
      if t.Err? {
        ListTokensStops(xs, i + 1);
        return Err(t.error);
      }
      found := found + t.value;
    }
    assert xs[..|xs|] == xs;
    r := Ok(found);
  }

  /** The first loop of `check_for_embedded_bigquery` (views.py:384-393): the names
      mentioned by the parameters whose name holds a `q`. */
  method QueryStreams(payload: Payload) returns (r: Result<set<string>>)
    ensures r == QueryTokens(payload.Model())
  {
    var ks := payload.keys;
    var streams: set<string> := {};
    for i := 0 to |ks|
      invariant KeysTokens(payload.vals, ks[..i]) == Ok(streams)
    {
      assert ks[..i + 1][..i] == ks[..i];
      var k := ks[i];
      if 'q' in k && k in payload.vals {
        var t: Result<set<string>>;
        match payload.vals[k] {
          case Str(v) =>
            t := TextStreams(v);
          case Strs(xs) =>
            t := ListStreams(xs);
          case Int(_) =>
            t := Err("TypeError: 'int' object is not iterable");
          case IntList(_, _) =>
            t := Err("TypeError: argument of type 'int' is not iterable");
        }
        assert t == ValueTokens(payload.vals[k]);
        if t.Err? {
          KeysTokensStops(payload.vals, ks, i + 1);
          return Err(t.error);
        }
        streams := streams + t.value;
      }
    }
    assert ks[..|ks|] == ks;
    r := Ok(streams);
  }

  /** The streams found so far with each uploaded file outside `todo` added when it is not
      among them already. */
  ghost function CopiedBut(found: map<string, Stream>, files: map<string, FileRef>, todo: set<string>): map<string, Stream> {
    found + map k | k in files && k !in todo && k !in found :: FileStream(files[k])
  }

  /** Copying one more file extends the copy by that file, unless a stream has its name. */
  lemma CopiedStep(found: map<string, Stream>, files: map<string, FileRef>, todo: set<string>, out: map<string, Stream>, k: string)
    requires todo <= files.Keys && k in todo && out == CopiedBut(found, files, todo)
    ensures (if k !in out then out[k := FileStream(files[k])] else out) == CopiedBut(found, files, todo - {k})
  {
    var next := if k !in out then out[k := FileStream(files[k])] else out;
    var want := CopiedBut(found, files, todo - {k});
    assert next.Keys == want.Keys;
    forall x | x in next ensures next[x] == want[x] {
    }
  }

  /** The streams found so far with each uploaded file not among them added (the last loop
      of `_get_stream_data`, views.py:497-500). */
  method CopyFiles(found: map<string, Stream>, files: map<string, FileRef>) returns (out: map<string, Stream>)
    ensures out == found + map k | k in files && k !in found :: FileStream(files[k])
  {
    out := found;
    var todo := files.Keys;
    assert out == CopiedBut(found, files, todo);
    while todo != {}
      invariant todo <= files.Keys
      invariant out == CopiedBut(found, files, todo)
      decreases todo
    {
      var k :| k in todo;
      CopiedStep(found, files, todo, out, k);
      if k !in out {
        out := out[k := FileStream(files[k])];
      }
      todo := todo - {k};
    }
  }

  lemma {:induction false} FlaggedIdsStops(docs: seq<Doc>, deny: seq<string>, n: nat)
    requires n <= |docs| && FlaggedIds(docs[..n], deny).Err?
    ensures FlaggedIds(docs, deny) == FlaggedIds(docs[..n], deny)
    decreases |docs|
  {
    if n < |docs| {
      assert docs[..|docs| - 1][..n] == docs[..n];
      FlaggedIdsStops(docs[..|docs| - 1], deny, n);
    } else {
      assert docs[..n] == docs;
    }
  }

  /** The inner loop over a document's publishers: it breaks at the first listed one. */
  method IsFlagged(pub: Publisher, deny: seq<string>) returns (b: bool)
    ensures b == Flagged(pub, deny)
  {
    match pub
    case One(name) =>
      b := Lower(name) in deny;
    case Many(names) =>
      b := false;
      var i := 0;
      while i < |names| && !b
        invariant 0 <= i <= |names|
        invariant b <==> exists t :: 0 <= t < i && Lower(names[t]) in deny
        decreases |names| - i
      {
        b := Lower(names[i]) in deny;
        i := i + 1;
      }
  }

  /** `unhighlightable_docs` (views.py:117-129). */
  method CollectFlagged(docs: seq<Doc>, deny: seq<string>) returns (r: Result<seq<string>>)
    ensures r == FlaggedIds(docs, deny)
  {
    var ids: seq<string> := [];
    for i := 0 to |docs|
      invariant FlaggedIds(docs[..i], deny) == Ok(ids)
    {
      assert docs[..i + 1][..i] == docs[..i];
      var d := docs[i];
      if d.publisher.Some? {
        var flagged := IsFlagged(d.publisher.value, deny);
        if flagged {
          if d.id.None? {
            FlaggedIdsStops(docs, deny, i + 1);
            return Err("KeyError: 'id'");
          }
          ids := ids + [d.id.value];
        }
      }
    }
    assert docs[..|docs|] == docs;
    r := Ok(ids);
  }

  /** `for remove_key in keys: if remove_key in h: del h[remove_key]` */
  method DropKeys(h: Snippets, keys: seq<string>) returns (r: Snippets)
    ensures forall f :: f in r <==> f in h && f !in keys
    ensures forall f :: f in r ==> r[f] == h[f]
  {
    r := h;
    for i := 0 to |keys|
      invariant forall f :: f in r <==> f in h && f !in keys[..i]
      invariant forall f :: f in r ==> r[f] == h[f]
    {
      assert forall f :: f in keys[..i + 1] <==> f in keys[..i] || f == keys[i];
      if keys[i] in r {
        r := r - {keys[i]};
      }
    }
    assert keys[..|keys|] == keys;
  }

  lemma StripAllSnoc(h: map<string, Snippets>, ids: seq<string>, j: nat)
    requires j < |ids|
    ensures StripAll(h, ids[..j + 1]) ==
      if ids[j] in h then StripAll(h, ids[..j])[ids[j] := StripAll(h, ids[..j])[ids[j]] - Removed] else StripAll(h, ids[..j])
  {
    var a := StripAll(h, ids[..j]);
    var b := StripAll(h, ids[..j + 1]);
    assert forall x :: x in ids[..j + 1] <==> x in ids[..j] || x == ids[j];
    if ids[j] in h {
      assert a[ids[j]] - Removed == h[ids[j]] - Removed;
      assert b == a[ids[j] := a[ids[j]] - Removed];
    } else {
      assert b == a;
    }
  }

  /** The second loop of the rewrite (views.py:131-137): `body` and `ack` leave the
      highlights of every flagged id that has some. */
  method StripHighlights(h: map<string, Snippets>, ids: seq<string>) returns (r: map<string, Snippets>)
    ensures r == StripAll(h, ids)
  {
    r := h;
    assert StripAll(h, ids[..0]) == h;
    for j := 0 to |ids|
      invariant r == StripAll(h, ids[..j])
    {
      StripAllSnoc(h, ids, j);
      var id := ids[j];
      if id in r {
        var dh := DropKeys(r[id], ["body", "ack"]);
        assert dh == r[id] - Removed;
        r := r[id := dh];
      }
    }
    assert ids[..|ids|] == ids;
  }

  /** The rewrite of a highlighted search answer (views.py:113-144) as evidently intended:
      a failure relays Solr's text. */
  method FilterResponse(parsed: Option<Body>, deny: seq<string>) returns (reply: Reply)
    ensures reply == PostProcess(parsed, deny)
  {
    if parsed.None? || parsed.value.docs.None? {
      return Relayed;
    }
    var b := parsed.value;
    var ids := CollectFlagged(b.docs.value, deny);
    if ids.Err? {
      return Relayed;
    }
    if |ids.value| == 0 {
      return Rewritten(Body(b.docs, b.highlighting, true));
    }
    if b.highlighting.None? {
      return Relayed;
    }
    var h := StripHighlights(b.highlighting.value, ids.value);
    reply := Rewritten(Body(b.docs, Some(h), true));
  }

  /** `d.update(e)` */
  method UpdateFrom(payload: Payload, e: Dict)
    requires payload.Valid()
    modifies payload
    ensures payload.Valid() && payload.Model() == Update(old(payload.Model()), e)
  {
    ghost var d0 := payload.Model();
    for i := 0 to |e.keys|
      invariant payload.Valid() && payload.Model() == UpdateWith(d0, e.vals, e.keys[..i])
    {
      assert e.keys[..i + 1][..i] == e.keys[..i];
      var k := e.keys[i];
      if k in e.vals {
        payload.Put(k, e.vals[k]);
      }
    }
    assert e.keys[..|e.keys|] == e.keys;
  }

  class SolrInterface {
    const cfg: Config
    const endpoint: Endpoint
    /** `self._host`; the empty text is what the code treats as unset (None or ""). */
    var host: string

    constructor (cfg: Config, endpoint: Endpoint)
      ensures this.cfg == cfg && this.endpoint == endpoint && host == ""
    {
      this.cfg := cfg;
      this.endpoint := endpoint;
      host := "";
    }

    /** `get_host` and `_get_host` (views.py:352-362): the cached host, or the one worked
        out from `url` and then cached. */
    method GetHost(url: Option<string>) returns (r: Result<string>)
      modifies this
      ensures r == CachedHost(old(host), url)
      ensures host == if r.Ok? then r.value else old(host)
    {
      if host != "" {
        return Ok(host);
      }
      if url.None? {
        return Err("AttributeError: 'NoneType' object has no attribute 'split'");
      }
      var parts := Split(url.value, '/');
      if Contains(Lower(parts[0]), "http") {
        if |parts| < 3 {
          return Err("IndexError: list index out of range");
        }
        host := parts[2];
      } else {
        host := parts[0];
      }
      r := Ok(host);
    }

    /** `_cleanup_fields` (views.py:293-307). */
    method CleanupFields(payload: Payload, key: string, allowed: seq<string>) returns (r: Result<()>)
      requires payload.Valid()
      modifies payload
      ensures payload.Valid()
      ensures Follows(r, Sanitizer.CleanupFields(old(payload.Model()), key, allowed), payload.Model())
    {
      var values := payload.Get(key);
      if values.None? {
        return Err("KeyError: " + key);
      }
      var texts := Texts(values.value);
      if texts.Err? {
        return Err(texts.error);
      }
      var fields := FieldTokens(texts.value);
      if |allowed| > 0 {
        fields := KeepIn(fields, allowed);
      }
      payload.Put(key, Str(Join(fields, ',')));
      r := Ok(());
    }

    /** `_cleanup_rows` (views.py:310-315). */
    method CleanupRows(payload: Payload, key: string) returns (r: Result<()>)
      requires payload.Valid()
      modifies payload
      ensures payload.Valid()
      ensures Follows(r, Sanitizer.CleanupRows(cfg, old(payload.Model()), key), payload.Model())
    {
      var value := payload.Get(key);
      if value.None? {
        return Err("KeyError: " + key);
      }
      var n := SafeInt(value.value, cfg.defaultRows);
      if n.Err? {
        return Err(n.error);
      }
      payload.Put(key, Int(Min(n.value, cfg.maxRows)));
      r := Ok(());
    }

    /** `apply_protective_filters` (views.py:168-202) over the rows of the limits table.
        The filter list is stored in the payload before the loop and appended to in place,
        so every append is a write of the list under the filter key. */
    method ApplyProtectiveFilters(payload: Payload, uid: string, protected: seq<string>, key: string, rules: seq<Limit>)
      requires payload.Valid() && key in payload.vals && payload.vals[key].Str?
      modifies payload
      ensures payload.Valid()
      ensures payload.Model() == ProtectiveFilters(old(payload.Model()), uid, protected, key, rules)
    {
      ghost var d := payload.Model();
      var fl := payload.vals[key].s;
      var fqKey;
      if key == "fl" {
        fqKey := "fq";
      } else {
        fqKey := BeforeLast(key, '.') + ".fq";
      }
      var prior := payload.Get(fqKey);
      var (lead, fq) := AsList(prior);
      payload.Put(fqKey, ListValue(lead, fq));
      var i := 0;
      ghost var gs: seq<Limit> := [];
      assert rules[..0] == [];
      while i < |rules|
        invariant 0 <= i <= |rules|
        invariant payload.Valid()
        invariant gs == Granted(rules[..i], uid, protected)
        invariant lead == AsList(d.Get(fqKey)).0
        invariant fq == AsList(d.Get(fqKey)).1 + FiltersOf(gs)
        invariant fl == d.vals[key].s + FlSuffix(gs)
        invariant payload.Model() == if |gs| == 0 then d.Put(fqKey, ListValue(lead, fq)) else d.Put(fqKey, ListValue(lead, fq)).Put("fl", Str(fl))
      {
        var f := rules[i];
        GrantedAt(rules, i, uid, protected);
        if f.uid == uid && f.field in protected && f.filter != "" {
          GrantedSnoc(gs, f);
          Assoc(d.vals[key].s, FlSuffix(gs) + ",", f.field);
          Assoc(d.vals[key].s, FlSuffix(gs), ",");
          Assoc(AsList(d.Get(fqKey)).1, FiltersOf(gs), [f.filter]);
          ghost var old_fq, old_fl := fq, fl;
          fl := fl + "," + f.field;
          fq := fq + [f.filter];
          payload.Put(fqKey, ListValue(lead, fq));
          payload.Put("fl", Str(fl));
          Rewrite(d, fqKey, "fl", ListValue(lead, old_fq), Str(old_fl), ListValue(lead, fq), Str(fl), |gs| > 0);
          gs := gs + [f];
        }
        i := i + 1;
      }
      assert rules[..|rules|] == rules;
    }

    /** `_cleanup_fl` (views.py:317-349). */
    method CleanupFl(payload: Payload, uid: string, rules: seq<Limit>, key: string) returns (r: Result<()>)
      requires payload.Valid()
      modifies payload
      ensures payload.Valid()
      ensures Follows(r, Sanitizer.CleanupFl(cfg, uid, rules, old(payload.Model()), key), payload.Model())
    {
      var values := payload.Get(key);
      if values.None? {
        return Err("KeyError: " + key);
      }
      var texts := Texts(values.value);
      if texts.Err? {
        return Err(texts.error);
      }
      var fields := FieldTokens(texts.value);
      var deny := cfg.disallowedFields;
      var protected: seq<string> := [];
      if |deny| > 0 {
        protected := KeepIn(fields, deny);
        fields := KeepOut(fields, deny);
      }
      if |fields| == 0 {
        fields := ["id"];
      }
      fields := DropStars(fields);
      if |fields| == 0 {
        fields := cfg.allowedFields;
      }
      payload.Put(key, Str(Join(fields, ',')));
      if |protected| > 0 {
        ApplyProtectiveFilters(payload, uid, protected, key, rules);
      }
      r := Ok(());
    }

    /** The highlight branch of a round (views.py:271-276): the snippet count and the
        fragment size are clamped, and a fragment size also sets the highlight cap. */
    method HighlightRound(payload: Payload, k: string, v: Value) returns (r: Result<()>)
      requires payload.Valid()
      modifies payload
      ensures payload.Valid()
      ensures Follows(r, HighlightStep(cfg, old(payload.Model()), k, v), payload.Model())
    {
      if IsSnippetsKey(k) {
        var n := SafeInt(v, cfg.maxSnippets);
        if n.Err? {
          return Err(n.error);
        }
        payload.Put(k, Int(Max(0, Min(n.value, cfg.maxSnippets))));
      } else if IsFragsizeKey(k) {
        var n := SafeInt(v, cfg.maxFragsize);
        if n.Err? {
          return Err(n.error);
        }
        payload.Put(k, Int(Max(1, Min(n.value, cfg.maxFragsize))));
        payload.Put(MaxChars, Int(Max(1, Min(n.value, cfg.maxFragsize))));
      }
      r := Ok(());
    }

    /** The highlight branches of one round (views.py:271-279). */
    method CleanRoundHead(payload: Payload, k: string, v: Value) returns (r: Result<()>)
      requires payload.Valid()
      modifies payload
      ensures payload.Valid()
      ensures Follows(r, (var d1 :- HighlightStep(cfg, old(payload.Model()), k, v); HlFlStep(cfg, d1, k)), payload.Model())
    {
      r := HighlightRound(payload, k, v);
      if r.Err? {
        return;
      }
      if k == "hl.fl" {
        r := CleanupFields(payload, k, cfg.allowedHighlightFields);
      }
    }

    /** One round of the loop at views.py:270-290 for key `k` and its snapshot value `v`. */
    method CleanRound(payload: Payload, uid: string, rules: seq<Limit>, k: string, v: Value) returns (r: Result<()>)
      requires payload.Valid()
      modifies payload
      ensures payload.Valid()
      ensures Follows(r, CleanKey(cfg, uid, rules, old(payload.Model()), k, v), payload.Model())
    {
      r := CleanRoundHead(payload, k, v);
      if r.Err? {
        return;
      }
      if IsFlKey(k) {
        r := CleanupFl(payload, uid, rules, k);
        if r.Err? {
          return;
        }
      }
      r := CleanRoundTail(payload, k);
    }

    /** The rows and allow-list branches of one round (views.py:284-290). */
    method CleanRoundTail(payload: Payload, k: string) returns (r: Result<()>)
      requires payload.Valid()
      modifies payload
      ensures payload.Valid()
      ensures Follows(r, (var d4 :- RowsStep(cfg, old(payload.Model()), k); TailStep(cfg, d4, k)), payload.Model())
    {
      r := Ok(());
      if IsRowsKey(k) {
        r := CleanupRows(payload, k);
        if r.Err? {
          return;
        }
      }
      var allowed := TailAllowList(cfg, k);
      if allowed.Some? {
        r := CleanupFields(payload, k, allowed.value);
      }
    }

    /** The headers `cleanup_solr_request` builds for Solr (views.py:218-233). */
    static method SolrHeaders(headers: map<string, string>, host: string) returns (out: map<string, string>)
      ensures out == OutboundHeaders(headers, host)
    {
      // a missing Content-Type defaults to the form type, which is no big-query type
      var ct := FormType;
      if "Content-Type" in headers {
        ct := headers["Content-Type"];
        if !Contains(ct, "big-query") {
          ct := FormType;
        }
      }
      out := map["Content-Type" := ct];
      out := out["Host" := host];
      if TraceHeader in headers {
        out := out[TraceHeader := headers[TraceHeader]];
      }
    }

    /** The first half of the payload prelude (views.py:235-248). */
    method PreludeHead(payload: Payload, headers: map<string, string>) returns (r: Result<()>)
      requires payload.Valid()
      modifies payload
      ensures payload.Valid()
      ensures Follows(r, Sanitizer.PreludeHead(cfg, headers, old(payload.Model())), payload.Model())
    {
      var trace := if TraceHeader in headers then headers[TraceHeader] else "Root=-";
      payload.Put(LoggingKey, Str(TraceHeader + "=" + trace));
      payload.Put("wt", Str("json"));
      if "rows" !in payload.vals {
        payload.Put("rows", Int(cfg.defaultRows));
      }
      var start := 0;
      if "start" in payload.vals {
        var n := SafeInt(payload.vals["start"], 0);
        if n.Err? {
          return Err(n.error);
        }
        start := n.value;
      }
      payload.Put("start", Int(start));
      r := Ok(());
    }

    /** The second half of the payload prelude (views.py:250-268). */
    method PreludeTail(payload: Payload)
      requires payload.Valid()
      modifies payload
      ensures payload.Valid()
      ensures payload.Model() == Sanitizer.PreludeTail(cfg, old(payload.Model()))
    {
      if "fl" !in payload.vals {
        payload.Put("fl", Str("id"));
      }
      if "cursorMark" !in payload.vals && cfg.timeAllowedMs != 0 {
        payload.Put("timeAllowed", Int(cfg.timeAllowedMs));
      }
      if "hl" in payload.vals && MaxChars !in payload.vals {
        payload.Put(MaxChars, Int(cfg.maxFragsize));
      }
    }

    /** The loop of views.py:270-290 over a snapshot of the payload's items. */
    method CleanLoop(payload: Payload, uid: string, rules: seq<Limit>) returns (r: Result<()>)
      requires payload.Valid()
      modifies payload
      ensures payload.Valid()
      ensures Follows(r, CleanKeys(cfg, uid, rules, old(payload.vals), old(payload.Model()), old(payload.keys)), payload.Model())
    {
      ghost var p := payload.Model();
      var ks, snap := payload.keys, payload.vals;
      var i := 0;
      assert ks[..0] == [];
      while i < |ks|
        invariant 0 <= i <= |ks|
        invariant payload.Valid()
        invariant CleanKeys(cfg, uid, rules, snap, p, ks[..i]) == Ok(payload.Model())
      {
        var k := ks[i];
        assert ks[..i + 1][..i] == ks[..i];
        var e := CleanRound(payload, uid, rules, k, snap[k]);
        if e.Err? {
          CleanKeysStops(cfg, uid, rules, snap, p, ks, i + 1);
          return e;
        }
        i := i + 1;
      }
      assert ks[..|ks|] == ks;
      r := Ok(());
    }

    /** `cleanup_solr_request` (views.py:204-292) as the resources call it (no user id, the
        default handler class): the outgoing headers, with the payload sanitised in place. */
    method CleanupSolrRequest(payload: Payload, headers: map<string, string>, rules: seq<Limit>) returns (r: Result<map<string, string>>)
      requires payload.Valid()
      modifies this, payload
      ensures payload.Valid()
      ensures CachedHost(old(host), ConfigUrl(cfg, HandlerFor(endpoint, "default"))).Err? ==>
        r.Err? && host == old(host) && payload.Model() == old(payload.Model())
      ensures CachedHost(old(host), ConfigUrl(cfg, HandlerFor(endpoint, "default"))).Ok? ==>
        && host == CachedHost(old(host), ConfigUrl(cfg, HandlerFor(endpoint, "default"))).value
        && (r.Ok? <==> Cleanup(cfg, headers, rules, old(payload.Model())).Ok?)
        && (r.Ok? ==> r.value == OutboundHeaders(headers, host) && payload.Model() == Cleanup(cfg, headers, rules, old(payload.Model())).value)
    {
      var h := GetHost(ConfigUrl(cfg, HandlerFor(endpoint, "default")));
      if h.Err? {
        return Err(h.error);
      }
      var out := SolrHeaders(headers, h.value);
      var e := PreludeHead(payload, headers);
      if e.Err? {
        return Err(e.error);
      }
      PreludeTail(payload);
      e := CleanLoop(payload, UserId(headers), rules);
      if e.Err? {
        return Err(e.error);
      }
      r := Ok(out);
    }

    /** The `{!bitset}` step for a plain body (views.py:400-411): the filter gains
        `{!bitset}` where it lacks one, and the body is stored under `old-bad-behaviour`. */
    method BitsetUpdate(payload: Payload, data: string)
      requires payload.Valid()
      modifies payload
      ensures payload.Valid() && payload.Model() == BitsetStep(old(payload.Model()), data)
    {
      if "fq" !in payload.vals {
        payload.Put("fq", Strs([Bitset]));
      } else {
        PutSame(payload.Model(), "fq");
        match payload.vals["fq"]
        case Str(fq) =>
          if !Contains(fq, Bitset) {
            payload.Put("fq", Str(fq + " " + Bitset));
          }
        case Strs(fq) =>
          if !HasBitset(fq) {
            payload.Put("fq", Strs(fq + [Bitset]));
          }
        case Int(_) =>
        case IntList(_, _) =>
      }
      payload.Put(OldBad, Str(data));
    }

    /** One stream fetched remotely (views.py:460-495). */
    static method FetchStream(s: string, svc: Services) returns (r: Result<Stream>)
      ensures r == Fetch(s, svc)
    {
      var (prefix, value) := SplitFirst(s, '/');
      if prefix == "library" {
        var ids, _ := HarvestLibrary(if value in svc.libraries then svc.libraries[value] else [], svc.maxRows);
        if ids.Err? {
          return Err(ids.error);
        }
        return Ok(Stream(s, Listing(ids.value), CsvType));
      }
      if value !in svc.vault {
        return Err("HTTPError: vault request failed");
      }
      var docs := VaultDocs(s, value, svc.vault[value]);
      if docs.Err? {
        return Err(docs.error);
      }
      r := Ok(Stream(s, Inline(Str(docs.value)), CsvType));
    }

    /** The first loop of `_get_stream_data` (views.py:431-449) as evidently intended: each
        name is looked up once; the names not found are kept for the remote loop. */
    method LocalStreams(payload: Payload, names: seq<string>, data: Data, files: map<string, FileRef>)
      returns (out: map<string, Stream>, remaining: seq<string>)
      requires payload.Valid()
      modifies payload
      ensures payload.Valid()
      ensures Local(payload.Model(), out, remaining) == LocalPart(old(payload.Model()), data, files, names)
    {
      ghost var p0 := payload.Model();
      out := map[];
      remaining := [];
      for i := 0 to |names|
        invariant payload.Valid()
        invariant Local(payload.Model(), out, remaining) == LocalPart(p0, data, files, names[..i])
      {
        assert names[..i + 1][..i] == names[..i];
        var sn := names[i];
        if sn in payload.vals {
          out := out[sn := Stream(sn, Inline(First(payload.vals[sn])), CsvType)];
          payload.Delete(sn);
        } else if data.Form? && sn in data.form {
          out := out[sn := Stream(sn, Inline(First(data.form[sn])), CsvType)];
        } else if sn in files {
          out := out[sn := FileStream(files[sn])];
        } else {
          remaining := remaining + [sn];
        }
      }
      assert names[..|names|] == names;
    }

    /** The remote loop of `_get_stream_data` (views.py:452-495): every remaining name is
        fetched with the caller's Authorization and the handler's host. */
    method RemoteStreams(ss: seq<string>, headers: map<string, string>, url: Option<string>, svc: Services)
      returns (r: Result<map<string, Stream>>)
      modifies this
      ensures RemoteAll(old(host), url, headers, svc, ss).Ok? <==> r.Ok?
      ensures r.Ok? ==> RemoteAll(old(host), url, headers, svc, ss) == Ok((host, r.value))
    {
      var out: map<string, Stream> := map[];
      for i := 0 to |ss|
        invariant RemoteAll(old(host), url, headers, svc, ss[..i]) == Ok((host, out))
      {
        assert ss[..i + 1][..i] == ss[..i];
        if "Authorization" !in headers {
          RemoteAllStops(old(host), url, headers, svc, ss, i + 1);
          return Err("KeyError: 'Authorization'");
        }
        var h := GetHost(url);
        if h.Err? {
          RemoteAllStops(old(host), url, headers, svc, ss, i + 1);
          return Err(h.error);
        }
        var st := FetchStream(ss[i], svc);
        if st.Err? {
          RemoteAllStops(old(host), url, headers, svc, ss, i + 1);
          return Err(st.error);
        }
        out := out[ss[i] := st.value];
      }
      assert ss[..|ss|] == ss;
      r := Ok(out);
    }

    /** `_get_stream_data` (views.py:422-502): the streams of the names `names`, a list of
        the names in the order `list(streams)` gives them, and every uploaded file. */
    method GetStreamData(payload: Payload, names: seq<string>, data: Data, files: map<string, FileRef>,
                         headers: map<string, string>, url: Option<string>, svc: Services)
      returns (r: Result<map<string, Stream>>)
      requires payload.Valid()
      modifies this, payload
      ensures payload.Valid()
      ensures StreamData(old(payload.Model()), names, data, files, headers, old(host), url, svc).Ok? <==> r.Ok?
      ensures r.Ok? ==> StreamData(old(payload.Model()), names, data, files, headers, old(host), url, svc) == Ok((payload.Model(), r.value, host))
    {
      var out, remaining := LocalStreams(payload, names, data, files);
      var remote := RemoteStreams(remaining, headers, url, svc);
      if remote.Err? {
        return Err(remote.error);
      }
      var all := CopyFiles(out + remote.value, files);
      r := Ok(all);
    }

    /** The first half of `check_for_embedded_bigquery` (views.py:384-411): the names the
        query mentions and, for a plain body, `old-bad-behaviour` with the `{!bitset}` step. */
    method CollectStreams(payload: Payload, data: Data) returns (r: Result<set<string>>)
      requires payload.Valid()
      modifies payload
      ensures payload.Valid()
      ensures r == StreamNames(old(payload.Model()), data)
      ensures r.Ok? ==> payload.Model() == WithBody(old(payload.Model()), data)
    {
      var streams := QueryStreams(payload);
      if streams.Err? {
        return Err(streams.error);
      }
      var names := streams.value;
      if data.Text? && |data.text| > 0 {
        BitsetUpdate(payload, data.text);
        names := names + {OldBad};
      }
      r := Ok(names);
    }

    /** `check_for_embedded_bigquery` (views.py:376-420): the `{!bitset}` step for a plain
        body, the streams of every name mentioned, in the order `order` the names are
        enumerated in, and the outgoing headers without their Content-Type when there are
        streams. The streams are fetched for the handler of `hc`. */
    method CheckForEmbeddedBigquery(payload: Payload, data: Data, files: map<string, FileRef>,
                                    inbound: map<string, string>, outbound: map<string, string>, hc: string, svc: Services)
      returns (r: Result<(map<string, Stream>, map<string, string>)>, order: seq<string>)
      requires payload.Valid()
      modifies this, payload
      ensures payload.Valid()
      ensures EmbeddedBigquery(old(payload.Model()), order, data, files, inbound, outbound, old(host), ConfigUrl(cfg, HandlerFor(endpoint, hc)), svc).Ok? <==> r.Ok?
      ensures r.Ok? ==>
        EmbeddedBigquery(old(payload.Model()), order, data, files, inbound, outbound, old(host), ConfigUrl(cfg, HandlerFor(endpoint, hc)), svc)
        == Ok(Embedding(payload.Model(), r.value.0, r.value.1, host))
      ensures r.Ok? ==> StreamNames(old(payload.Model()), data).Ok?
      ensures StreamNames(old(payload.Model()), data).Ok? ==> Enumerates(order, StreamNames(old(payload.Model()), data).value)
    {
      ghost var p0 := payload.Model();
      ghost var h0 := host;
      var url := ConfigUrl(cfg, HandlerFor(endpoint, hc));
      var names := CollectStreams(payload, data);
      if names.Err? {
        return Err(names.error), [];
      }
      order := ListOf(names.value);
      var found := GetStreamData(payload, order, data, files, inbound, url, svc);
      ghost var sd := StreamData(WithBody(p0, data), order, data, files, inbound, h0, url, svc);
      if found.Err? {
        assert sd.Err?;
        return Err(found.error), order;
      }
      assert sd == Ok((payload.Model(), found.value, host));
      var headers := outbound;
      if |found.value| > 0 {
        if "Content-Type" !in headers {
          return Err("KeyError: 'Content-Type'"), order;
        }
        headers := headers - {"Content-Type"};
      }
      r := Ok((found.value, headers));
    }

    /** `set_cookies` (views.py:148-166): the configured cookies the request carries with a
        value. */
    method SetCookies(cookies: map<string, string>) returns (r: Option<map<string, string>>)
      ensures r == ForwardedCookies(cfg.forwardedCookies, cookies)
    {
      var cookie: map<string, string> := map[];
      var todo := cfg.forwardedCookies;
      while todo != {}
        invariant todo <= cfg.forwardedCookies
        invariant cookie == map n | n in cfg.forwardedCookies && n !in todo && n in cookies && cookies[n] != "" :: cookies[n]
        decreases todo
      {
        var n :| n in todo;
        if n in cookies && cookies[n] != "" {
          cookie := cookie[n := cookies[n]];
        }
        todo := todo - {n};
      }
      assert cookie == map n | n in cfg.forwardedCookies && n in cookies && cookies[n] != "" :: cookies[n];
      r := if |cookie| == 0 then None else Some(cookie);
    }

    /** The field list on the search handler (views.py:73-81); says whether the answer is to
        be post-processed. */
    method ShapeFields(payload: Payload) returns (r: Result<bool>)
      requires payload.Valid()
      modifies payload
      ensures payload.Valid()
      ensures ShapeFl(cfg, old(payload.Model())).Ok? <==> r.Ok?
      ensures r.Ok? ==> ShapeFl(cfg, old(payload.Model())) == Ok((payload.Model(), r.value))
      ensures r.Err? ==> ShapeFl(cfg, old(payload.Model())) == Err(r.error)
    {
      if "fl" !in payload.vals {
        payload.Put("fl", Str(Join(cfg.defaultFields, ',')));
      }
      assert payload.Model() == FlBase(cfg, old(payload.Model()));
      if |cfg.unhighlightablePublishers| > 0 && "hl" in payload.vals {
        match payload.vals["fl"] {
          case Str(fl) =>
            if !Contains(fl, "publisher") {
              payload.Put("fl", Str(fl + ",publisher"));
            }
            r := Ok(true);
          case Strs(xs) =>
            r := if "publisher" in xs then Ok(true) else Err("TypeError: can only concatenate list (not \"str\") to list");
          case IntList(_, xs) =>
            r := if "publisher" in xs then Ok(true) else Err("TypeError: can only concatenate list (not \"str\") to list");
          case Int(_) =>
            r := Err("TypeError: argument of type 'int' is not iterable");
        }
      } else {
        r := Ok(false);
      }
    }

    /** `get` once Solr has answered: the post-processing when it was asked for and the
        answer is a success. */
    method Respond(postprocess: bool, answer: Answer) returns (reply: Reply)
      ensures reply == ReplyFor(cfg.unhighlightablePublishers, postprocess, answer)
    {
      if postprocess && answer.ok {
        reply := FilterResponse(answer.body, cfg.unhighlightablePublishers);
      } else {
        reply := Relayed;
      }
    }

    /** The stage `get` and `post` share: `cleanup_solr_request`, the injected parameters
        when `inject` is set, and `check_for_embedded_bigquery` for the handler class of the
        request. Returns the streams and the outgoing headers. */
    method Prepare(payload: Payload, req: Request, rules: seq<Limit>, svc: Services, inject: bool)
      returns (r: Result<(map<string, Stream>, map<string, string>)>, order: seq<string>)
      requires payload.Valid() && cfg.injectedParams.Valid()
      modifies this, payload
      ensures payload.Valid()
      ensures Prepared(cfg, endpoint, rules, req, svc, old(host), order, old(payload.Model()), inject).Ok? <==> r.Ok?
      ensures r.Ok? ==>
                (Prepared(cfg, endpoint, rules, req, svc, old(host), order, old(payload.Model()), inject)
                 == Ok(Embedding(payload.Model(), r.value.0, r.value.1, host)))
      ensures PreparedNames(cfg, endpoint, rules, req, old(host), old(payload.Model()), inject).Ok? ==>
                Enumerates(order, PreparedNames(cfg, endpoint, rules, req, old(host), old(payload.Model()), inject).value)
    {
      ghost var p0 := payload.Model();
      ghost var h0 := host;
      var headers := CleanupSolrRequest(payload, req.headers, rules);
      if headers.Err? {
        PreparedFails(cfg, endpoint, rules, req, svc, h0, [], p0, inject);
        return Err(headers.error), [];
      }
      ghost var q := payload.Model();
      ghost var h1 := host;
      if inject && |cfg.injectedParams.keys| > 0 {
        UpdateFrom(payload, cfg.injectedParams);
      }
      assert payload.Model() == if inject then Injected(cfg, q) else q;
      var hc := HandlerClass(endpoint, req.headers, cfg.botTokens);
      r, order := CheckForEmbeddedBigquery(payload, req.data, req.files, req.headers, headers.value, hc, svc);
      PreparedAfterCleanup(cfg, endpoint, rules, req, svc, h0, order, p0, inject, h1, q);
    }

    /** The last part of `get` (views.py:69-111): the handler, the field list on the search
        handler, the handler's URL and the cookies. */
    method DispatchGet(payload: Payload, hc: string, files: map<string, Stream>, headers: map<string, string>, cookies: map<string, string>)
      returns (r: Result<Dispatch>)
      requires payload.Valid()
      modifies payload
      ensures payload.Valid()
      ensures r == GetDispatch(cfg, endpoint, hc, Embedding(old(payload.Model()), files, headers, host), cookies)
    {
      var handler := HandlerFor(endpoint, if |files| > 0 then hc + Embedded else hc);
      var postprocess := false;
      if |cfg.defaultFields| > 0 && handler == SearchHandler {
        var shaped := ShapeFields(payload);
        if shaped.Err? {
          return Err(shaped.error);
        }
        postprocess := shaped.value;
      }
      if handler !in cfg.urls {
        return Err("KeyError: '" + handler + "'");
      }
      var cookie := SetCookies(cookies);
      r := Ok(Forward(Outgoing(cfg.urls[handler], payload.Model(), headers, files, cookie), postprocess));
    }

    /** `get` (views.py:48-111): what is forwarded to Solr, for the enumeration `order` of
        the stream names. */
    method Get(req: Request, rules: seq<Limit>, svc: Services) returns (r: Result<Dispatch>, order: seq<string>)
      requires req.args.Valid() && cfg.injectedParams.Valid()
      modifies this
      ensures GetSpec(cfg, endpoint, rules, req, svc, old(host), order).Ok? <==> r.Ok?
      ensures r.Ok? ==> GetSpec(cfg, endpoint, rules, req, svc, old(host), order) == Ok((r.value, host))
      ensures PreparedNames(cfg, endpoint, rules, req, old(host), req.args, true).Ok? ==>
                Enumerates(order, PreparedNames(cfg, endpoint, rules, req, old(host), req.args, true).value)
    {
      var payload := new Payload(req.args);
      var prep;
      prep, order := Prepare(payload, req, rules, svc, true);
      if prep.Err? {
        return Err(prep.error), order;
      }
      var hc := HandlerClass(endpoint, req.headers, cfg.botTokens);
      r := DispatchGet(payload, hc, prep.value.0, prep.value.1, req.cookies);
    }

    /** BigQuery's `post` (views.py:599-631): the form, updated with the query string and
        the JSON body, is cleaned and checked for streams; without streams the request is
        malformed. */
    method Post(req: Request, rules: seq<Limit>, svc: Services) returns (r: Result<Dispatch>, order: seq<string>)
      requires endpoint == BigQuery
      requires req.form.Valid() && cfg.injectedParams.Valid()
      modifies this
      ensures PostSpec(cfg, rules, req, svc, old(host), order).Ok? <==> r.Ok?
      ensures r.Ok? ==> PostSpec(cfg, rules, req, svc, old(host), order) == Ok((r.value, host))
      ensures PreparedNames(cfg, endpoint, rules, req, old(host), PostPayload(req), false).Ok? ==>
                Enumerates(order, PreparedNames(cfg, endpoint, rules, req, old(host), PostPayload(req), false).value)
    {
      var hc := HandlerClass(endpoint, req.headers, cfg.botTokens);
      var payload := new Payload(req.form);
      UpdateFrom(payload, req.args);
      if req.json.Some? {
        UpdateFrom(payload, req.json.value);
      }
      assert payload.Model() == PostPayload(req);
      var prep;
      prep, order := Prepare(payload, req, rules, svc, false);
      if prep.Err? {
        return Err(prep.error), order;
      }
      var (files, headers) := prep.value;
      if |files| == 0 {
        return Ok(Malformed), order;
      }
      var handler := HandlerFor(endpoint, hc);
      if handler !in cfg.urls {
        return Err("KeyError: '" + handler + "'"), order;
      }
      var cookie := SetCookies(req.cookies);
      r := Ok(Forward(Outgoing(cfg.urls[handler], payload.Model(), headers, files, cookie), false));
    }
  }
}
