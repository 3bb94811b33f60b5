/** The `docs(...)` operator and the content streams of a big query: the values named
    inside `docs(...)`, the `{!bitset}` filter, and where each stream's content comes from
    (views.py:364-537). */
module Streams {
  import opened Wrappers
  import opened Strings
  import opened Params
  import opened Routing

  const DocsOpen := "docs("

  // ---------------------------------------------------------------------------
  // _extract_docs_values (views.py:364-374)

  /** The first `)` at or after `j`, or `|s|` when there is none. */
  function CloseFrom(s: string, j: nat): (r: nat)
    requires j <= |s|
    ensures j <= r <= |s|
    ensures r < |s| ==> s[r] == ')'
    decreases |s| - j
  {
    if j == |s| || s[j] == ')' then j else CloseFrom(s, j + 1)
  }

  /** No `)` lies between `j` and the one found. */
  lemma {:induction false} CloseFromClear(s: string, j: nat)
    requires j <= |s|
    ensures forall t :: j <= t < CloseFrom(s, j) ==> s[t] != ')'
    decreases |s| - j
  {
    if j < |s| && s[j] != ')' {
      CloseFromClear(s, j + 1);
    }
  }

  /** The first `)` from `a` on is at `j` when `j` holds one and nothing before it does. */
  lemma CloseAt(s: string, a: nat, j: nat)
    requires a <= j < |s| && s[j] == ')'
    requires forall t :: a <= t < j ==> s[t] != ')'
    ensures CloseFrom(s, a) == j
  {
    CloseFromClear(s, a);
  }

  /** What one round of the outer loop finds from position `i`: no further `docs(`, a
      `docs(` with no `)` after it, or the value between `start` and `close`. */
  datatype Scan = NoMore | Unclosed | Found(start: nat, close: nat)

  function NextDocs(s: string, i: nat): (r: Scan)
    ensures r.Found? ==> i + 5 <= r.start <= r.close < |s| && s[r.close] == ')'
  {
    var f := FindFrom(s, DocsOpen, i);
    if f < 0 then NoMore
    else
      var j := CloseFrom(s, f + 5);
      if j == |s| then Unclosed else Found(f + 5, j)
  }

  /** `_extract_docs_values` scanning from position `i`: the text between each `docs(` and
      the next `)`. The inner loop reads `input[j]` before it tests `j < len(input)`, so a
      `docs(` with no `)` after it raises IndexError. */
  function DocsValues(s: string, i: nat): Result<seq<string>>
    decreases |s| - i
  {
    match NextDocs(s, i)
    case NoMore => Ok([])
    case Unclosed => Err("IndexError: string index out of range")
    case Found(a, c) =>
      var rest :- DocsValues(s, c + 1);
      Ok([s[a..c]] + rest)
  }

  /** A slice with no `)` at any position holds no `)`. */
  lemma SliceNoParen(s: string, a: nat, b: nat)
    requires a <= b <= |s|
    requires forall t :: a <= t < b ==> s[t] != ')'
    ensures ')' !in s[a..b]
  {
    var v := s[a..b];
    forall t | 0 <= t < |v| ensures v[t] != ')' {
      assert v[t] == s[a + t];
    }
  }

  /** The value a round finds holds no `)`, so neither does the list it heads when the
      rest holds none. */
  lemma NoParenStep(s: string, i: nat, a: nat, c: nat, rest: seq<string>)
    requires NextDocs(s, i) == Found(a, c)
    requires DocsValues(s, c + 1) == Ok(rest)
    requires forall k :: 0 <= k < |rest| ==> ')' !in rest[k]
    ensures DocsValues(s, i) == Ok([s[a..c]] + rest)
    ensures forall k :: 0 <= k < |[s[a..c]] + rest| ==> ')' !in ([s[a..c]] + rest)[k]
  {
    DocsValuesStep(s, i, a, c);
    var f := FindFrom(s, DocsOpen, i);
    assert c == CloseFrom(s, f + 5);
    CloseFromClear(s, f + 5);
    SliceNoParen(s, a, c);
  }

  /** No extracted value holds a `)`. */
  lemma {:induction false} DocsValuesNoParen(s: string, i: nat)
    ensures DocsValues(s, i).Ok? ==> forall k :: 0 <= k < |DocsValues(s, i).value| ==> ')' !in DocsValues(s, i).value[k]
    decreases |s| - i
  {
    match NextDocs(s, i)
    case NoMore =>
      assert DocsValues(s, i) == Ok([]);
    case Unclosed =>
      assert DocsValues(s, i).Err?;
    case Found(a, c) =>
      DocsValuesNoParen(s, c + 1);
      var rest := DocsValues(s, c + 1);
      if rest.Ok? {
        NoParenStep(s, i, a, c, rest.value);
      } else {
        DocsValuesStep(s, i, a, c);
      }
  }

  /** Text without `docs(` names no values. */
  lemma DocsValuesNone(s: string)
    requires !Contains(s, DocsOpen)
    ensures DocsValues(s, 0) == Ok([])
  {
    FindFromAbsent(s, DocsOpen, 0);
  }

  /** `docs(v1)docs(v2)...`: the text that names exactly the values `vs`. */
  function DocsOf(vs: seq<string>): string
    decreases |vs|
  {
    if |vs| == 0 then "" else DocsOpen + vs[0] + ")" + DocsOf(vs[1..])
  }

  lemma FindFromHere(s: string, pat: string, i: nat)
    requires OccursAt(s, pat, i)
    ensures FindFrom(s, pat, i) == i
  {
  }

  /** The scan finds the `docs(` at `at` and the `)` right after `v`. */
  lemma NextDocsAt(s: string, at: nat, v: string)
    requires OccursAt(s, DocsOpen, at)
    requires at + 5 + |v| < |s| && s[at + 5..at + 5 + |v|] == v && s[at + 5 + |v|] == ')'
    requires ')' !in v
    ensures NextDocs(s, at) == Found(at + 5, at + 5 + |v|)
  {
    FindFromHere(s, DocsOpen, at);
    var j := at + 5 + |v|;
    forall t | at + 5 <= t < j ensures s[t] != ')' {
      assert s[t] == v[t - at - 5];
    }
    CloseAt(s, at + 5, j);
  }

  /** One round of the scan: the value found is the head, the rest follows `)`. */
  lemma DocsValuesStep(s: string, i: nat, a: nat, c: nat)
    requires NextDocs(s, i) == Found(a, c)
    ensures DocsValues(s, i).Ok? <==> DocsValues(s, c + 1).Ok?
    ensures DocsValues(s, i).Ok? ==> DocsValues(s, i).value == [s[a..c]] + DocsValues(s, c + 1).value
    ensures DocsValues(s, c + 1).Err? ==> DocsValues(s, i) == DocsValues(s, c + 1)
  {
  }

  /** After `p`, the scan finds the `docs(` that follows it and the `)` right after `v`. */
  lemma DocsHeadAfter(p: string, v: string, more: string)
    requires ')' !in v
    ensures NextDocs(p + DocsOpen + v + ")" + more, |p|) == Found(|p| + 5, |p| + 5 + |v|)
    ensures (p + DocsOpen + v + ")" + more)[|p| + 5..|p| + 5 + |v|] == v
  {
    var s := p + DocsOpen + v + ")" + more;
    var n := |p|;
    assert forall k :: 0 <= k < 5 ==> s[n + k] == DocsOpen[k];
    assert s[n..n + 5] == DocsOpen;
    assert forall k :: 0 <= k < |v| ==> s[n + 5 + k] == v[k];
    assert s[n + 5..n + 5 + |v|] == v;
    assert s[n + 5 + |v|] == ')';
    NextDocsAt(s, n, v);
  }

  lemma DocsValuesEnd(s: string)
    ensures DocsValues(s, |s|) == Ok([])
  {
    assert NextDocs(s, |s|) == NoMore;
  }

  lemma DocsValuesCons(s: string, i: nat, a: nat, c: nat, next: nat, tail: seq<string>)
    requires NextDocs(s, i) == Found(a, c)
    requires next == c + 1 && DocsValues(s, next) == Ok(tail)
    ensures DocsValues(s, i) == Ok([s[a..c]] + tail)
  {
    DocsValuesStep(s, i, a, c);
  }

  /** The values after the first one still hold no `)`. */
  lemma NoParenTail(vs: seq<string>)
    requires |vs| > 0 && forall k :: 0 <= k < |vs| ==> ')' !in vs[k]
    ensures ')' !in vs[0]
    ensures forall k :: 0 <= k < |vs[1..]| ==> ')' !in vs[1..][k]
  {
    assert forall k :: 0 <= k < |vs[1..]| ==> vs[1..][k] == vs[k + 1];
  }

  /** One round after `p`: `docs(v)` yields `v`, then whatever the text after it yields. */
  lemma DocsValuesAfter(p: string, v: string, more: string, tail: seq<string>)
    requires ')' !in v
    requires DocsValues(p + DocsOpen + v + ")" + more, |p + DocsOpen + v + ")"|) == Ok(tail)
    ensures DocsValues(p + DocsOpen + v + ")" + more, |p|) == Ok([v] + tail)
  {
    assert |p + DocsOpen + v + ")"| == |p| + 5 + |v| + 1;
    DocsHeadAfter(p, v, more);
    DocsValuesCons(p + DocsOpen + v + ")" + more, |p|, |p| + 5, |p| + 5 + |v|, |p + DocsOpen + v + ")"|, tail);
  }

  /** After a prefix, `DocsOf` of a non-empty list is its first value in `docs(...)`, then
      the rest. */
  lemma DocsOfCons(p: string, vs: seq<string>)
    requires |vs| > 0
    ensures p + DocsOf(vs) == (p + DocsOpen + vs[0] + ")") + DocsOf(vs[1..])
    ensures vs == [vs[0]] + vs[1..]
  {
    var w, d := DocsOpen + vs[0] + ")", DocsOf(vs[1..]);
    assert DocsOf(vs) == w + d;
    Assoc(p, w, d);
    Assoc(p, DocsOpen + vs[0], ")");
    Assoc(p, DocsOpen, vs[0]);
  }

  /** Extraction inverts `DocsOf`: after any prefix, the values come back in order. */
  lemma {:induction false} DocsValuesOf(p: string, vs: seq<string>)
    requires forall k :: 0 <= k < |vs| ==> ')' !in vs[k]
    ensures DocsValues(p + DocsOf(vs), |p|) == Ok(vs)
    decreases |vs|
  {
    if |vs| == 0 {
      assert p + DocsOf(vs) == p;
      DocsValuesEnd(p);
    } else {
      NoParenTail(vs);
      DocsValuesOf(p + DocsOpen + vs[0] + ")", vs[1..]);
      DocsValuesAfter(p, vs[0], DocsOf(vs[1..]), vs[1..]);
      DocsOfCons(p, vs);
    }
  }

  /** A trailing `docs(` that is never closed makes the extraction fail. */
  lemma DocsValuesUnclosed(p: string, v: string)
    requires ')' !in v
    ensures DocsValues(p + DocsOpen + v, |p|).Err?
  {
    var s := p + DocsOpen + v;
    assert s[|p|..|p| + 5] == DocsOpen;
    FindFromHere(s, DocsOpen, |p|);
    forall t | |p| + 5 <= t < |s| ensures s[t] != ')' {
      assert s[t] == v[t - |p| - 5];
    }
    assert CloseFrom(s, |p| + 5) == |s|;
    assert NextDocs(s, |p|) == Unclosed;
  }

  // ---------------------------------------------------------------------------
  // the stream names a request mentions (views.py:384-393)

  /** The names `docs(...)` mentions in one text. */
  function TextTokens(s: string): Result<set<string>> {
    if Contains(s, DocsOpen) then
      var r :- DocsValues(s, 0);
      Ok(set x | x in r)
    else Ok({})
  }

  function ListTokens(xs: seq<string>): Result<set<string>>
    decreases |xs|
  {
    if |xs| == 0 then Ok({})
    else
      var a :- ListTokens(xs[..|xs| - 1]);
      var b :- TextTokens(xs[|xs| - 1]);
      Ok(a + b)
  }

  /** The names one parameter value mentions; an integer is not iterable (TypeError). */
  function ValueTokens(v: Value): Result<set<string>> {
    match v
    case Str(s) => TextTokens(s)
    case Strs(xs) => ListTokens(xs)
    case Int(_) => Err("TypeError: 'int' object is not iterable")
    case IntList(_, _) => Err("TypeError: argument of type 'int' is not iterable")
  }

  /** The names mentioned by the parameters whose name holds a `q`, in key order `ks`. */
  function KeysTokens(vals: map<string, Value>, ks: seq<string>): Result<set<string>>
    decreases |ks|
  {
    if |ks| == 0 then Ok({})
    else
      var a :- KeysTokens(vals, ks[..|ks| - 1]);
      var k := ks[|ks| - 1];
      if 'q' in k && k in vals then
        var b :- ValueTokens(vals[k]);
        Ok(a + b)
      else Ok(a)
  }

  function QueryTokens(d: Dict): Result<set<string>> {
    KeysTokens(d.vals, d.keys)
  }

  lemma TextTokensNoParen(s: string)
    ensures TextTokens(s).Ok? ==> forall x :: x in TextTokens(s).value ==> ')' !in x
  {
    DocsValuesNoParen(s, 0);
  }

  lemma {:induction false} ListTokensNoParen(xs: seq<string>)
    ensures ListTokens(xs).Ok? ==> forall x :: x in ListTokens(xs).value ==> ')' !in x
    decreases |xs|
  {
    if |xs| > 0 {
      ListTokensNoParen(xs[..|xs| - 1]);
      TextTokensNoParen(xs[|xs| - 1]);
    }
  }

  /** No stream name collected from the query holds a `)`. */
  lemma {:induction false} KeysTokensNoParen(vals: map<string, Value>, ks: seq<string>)
    ensures KeysTokens(vals, ks).Ok? ==> forall x :: x in KeysTokens(vals, ks).value ==> ')' !in x
    decreases |ks|
  {
    if |ks| > 0 {
      KeysTokensNoParen(vals, ks[..|ks| - 1]);
      var k := ks[|ks| - 1];
      if 'q' in k && k in vals {
        match vals[k]
        case Str(s) => TextTokensNoParen(s);
        case Strs(xs) => ListTokensNoParen(xs);
        case Int(_) =>
        case IntList(_, _) =>
      }
    }
  }

  /** Parameters whose name has no `q` are never looked at. */
  lemma {:induction false} KeysTokensIgnore(vals: map<string, Value>, ks: seq<string>, k: string, v: Value)
    requires 'q' !in k
    ensures KeysTokens(vals[k := v], ks) == KeysTokens(vals, ks)
    decreases |ks|
  {
    if |ks| > 0 {
      KeysTokensIgnore(vals, ks[..|ks| - 1], k, v);
    }
  }

  /** A query-like parameter holding an integer, or a list that starts with one, makes
      the collection fail. */
  lemma {:induction false} KeysTokensInt(vals: map<string, Value>, ks: seq<string>, i: nat)
    requires i < |ks| && 'q' in ks[i] && ks[i] in vals && (vals[ks[i]].Int? || vals[ks[i]].IntList?)
    ensures KeysTokens(vals, ks).Err?
    decreases |ks|
  {
    if i < |ks| - 1 {
      KeysTokensInt(vals, ks[..|ks| - 1], i);
    }
  }

  /** A filter that is a list starting with an integer makes the scan fail, since `fq`
      holds a `q`. */
  lemma IntFilterFails(p: Dict, data: Data)
    requires p.Valid() && "fq" in p.vals && p.vals["fq"].IntList?
    ensures StreamNames(p, data).Err?
  {
    var i :| 0 <= i < |p.keys| && p.keys[i] == "fq";
    KeysTokensInt(p.vals, p.keys, i);
  }

  // ---------------------------------------------------------------------------
  // the {!bitset} filter for a body sent as plain data (views.py:400-411)

  const Bitset := "{!bitset}"
  const OldBad := "old-bad-behaviour"

  /** `len([x for x in fq if '!bitset' in x]) > 0` */
  predicate HasBitset(xs: seq<string>) {
    exists i :: 0 <= i < |xs| && Contains(xs[i], "!bitset")
  }

  /** The filter after the step: a missing filter becomes `['{!bitset}']`, a text filter
      without `{!bitset}` gets ` {!bitset}` appended, a list without any `!bitset` element
      gets `{!bitset}` appended; an integer is left as it is. A list that starts with an
      integer would raise TypeError here, but the scan for stream names has failed on it
      already (`IntFilterFails`), so the step never sees one. */
  function BitsetFq(fq: Option<Value>): Value {
    match fq
    case None => Strs([Bitset])
    case Some(Str(s)) => if Contains(s, Bitset) then Str(s) else Str(s + " " + Bitset)
    case Some(Strs(xs)) => if HasBitset(xs) then Strs(xs) else Strs(xs + [Bitset])
    case Some(Int(n)) => Int(n)
    case Some(IntList(n, xs)) => IntList(n, xs)
  }

  /** The whole step: the filter, and the body stored under `old-bad-behaviour`. (Writing
      an unchanged value back is the same as not writing it.) */
  function BitsetStep(d: Dict, data: string): Dict {
    d.Put("fq", BitsetFq(d.Get("fq"))).Put(OldBad, Str(data))
  }

  lemma BitsetHasBang()
    ensures Contains(Bitset, "!bitset")
  {
    OccurrenceContains(Bitset, "!bitset", 1);
  }

  /** The filter always ends up carrying the bitset marker, and keeps what it had. */
  lemma BitsetFqMeaning(fq: Option<Value>)
    ensures fq.None? ==> BitsetFq(fq) == Strs([Bitset])
    ensures fq.Some? && fq.value.Str? ==> BitsetFq(fq).Str? && Contains(BitsetFq(fq).s, Bitset) && StartsWith(BitsetFq(fq).s, fq.value.s)
    ensures fq.Some? && fq.value.Strs? ==> BitsetFq(fq).Strs? && HasBitset(BitsetFq(fq).items) && BitsetFq(fq).items[..|fq.value.items|] == fq.value.items
    ensures fq.Some? && fq.value.Int? ==> BitsetFq(fq) == fq.value
  {
    match fq
    case None =>
    case Some(Str(s)) =>
      if !Contains(s, Bitset) {
        ContainsSuffix(s + " ", Bitset);
        assert s + " " + Bitset == (s + " ") + Bitset;
      }
    case Some(Strs(xs)) =>
      if !HasBitset(xs) {
        BitsetHasBang();
        assert (xs + [Bitset])[|xs|] == Bitset;
      }
    case Some(Int(_)) =>
    case Some(IntList(_, _)) =>
  }

  /** Applying the step a second time changes nothing. */
  lemma BitsetIdempotent(d: Dict, data: string)
    ensures BitsetStep(BitsetStep(d, data), data) == BitsetStep(d, data)
  {
    var e := BitsetStep(d, data);
    BitsetFqMeaning(d.Get("fq"));
    BitsetHasBang();
    assert [Bitset][0] == Bitset;
    assert e.Get("fq") == Some(BitsetFq(d.Get("fq")));
    assert BitsetFq(e.Get("fq")) == BitsetFq(d.Get("fq"));
  }

  // ---------------------------------------------------------------------------
  // _get_stream_data (views.py:422-502)

  /** An uploaded file: its name, an opaque handle for its stream, and its type. */
  datatype FileRef = FileRef(name: string, stream: nat, mimetype: string)

  /** `request.data`: absent (or empty), a plain body, or a dict of form values. */
  datatype Data = NoData | Text(text: string) | Form(form: map<string, Value>)

  /** What a stream carries: a parameter value, the bibcodes of a library (sent as the
      lines `Csv` renders, in the order Python's set iteration gives), or an upload. */
  datatype Content = Inline(v: Value) | Listing(ids: set<string>) | Upload(handle: nat)

  /** The `(name, content, mimetype)` triple sent as one multipart file. */
  datatype Stream = Stream(name: string, content: Content, mimetype: string)

  const CsvType := "big-query/csv"

  function FileStream(f: FileRef): Stream {
    Stream(f.name, Upload(f.stream), f.mimetype)
  }

  /** Where the first loop finds stream `sn`: in the parameters, then in a dict body, then
      among the uploaded files. */
  function LocalSource(p: Dict, data: Data, files: map<string, FileRef>, sn: string): Option<Stream> {
    if sn in p.vals then Some(Stream(sn, Inline(First(p.vals[sn])), CsvType))
    else if data.Form? && sn in data.form then Some(Stream(sn, Inline(First(data.form[sn])), CsvType))
    else if sn in files then Some(FileStream(files[sn]))
    else None
  }

  /** The first loop's state: the parameters (a stream found there is deleted from them),
      the streams found so far, and the names still to be fetched. */
  datatype Local = Local(params: Dict, out: map<string, Stream>, remaining: seq<string>)

  /** The first loop AS WRITTEN: it iterates over `streams` while `streams.remove(sn)`
      shrinks it, so the name after each one found moves into the slot already visited and
      is never looked at; it stays in the list for the remote loop. */
  function LocalScanAsWritten(p: Dict, data: Data, files: map<string, FileRef>, live: seq<string>, i: nat, out: map<string, Stream>): Local
    decreases |live| - i
  {
    if i >= |live| then Local(p, out, live)
    else
      var sn := live[i];
      match LocalSource(p, data, files, sn)
      case None => LocalScanAsWritten(p, data, files, live, i + 1, out)
      case Some(st) =>
        LocalScanAsWritten(if sn in p.vals then p.Del(sn) else p, data, files, live[..i] + live[i + 1..], i + 1, out[sn := st])
  }

  /** Two streams both given as parameters: the second is skipped, left in the parameters
      and sent on to be fetched remotely. */
  lemma LocalScanSkips(p: Dict, data: Data, files: map<string, FileRef>, a: string, b: string)
    requires a in p.vals && b in p.vals && a != b
    ensures var r := LocalScanAsWritten(p, data, files, [a, b], 0, map[]);
      && r.remaining == [b] && b !in r.out && b in r.params.vals
  {
    var p1 := p.Del(a);
    assert [a, b][..0] + [a, b][1..] == [b];
    assert LocalScanAsWritten(p, data, files, [a, b], 0, map[]) == LocalScanAsWritten(p1, data, files, [b], 1, map[a := LocalSource(p, data, files, a).value]);
  }

  /** One name, looked up as the loop evidently intends: found names are taken out of the
      parameters (when they came from there) and recorded; the others are kept for the
      remote loop. */
  function LocalStep(l: Local, data: Data, files: map<string, FileRef>, sn: string): Local {
    match LocalSource(l.params, data, files, sn)
    case None => Local(l.params, l.out, l.remaining + [sn])
    case Some(st) => Local(if sn in l.params.vals then l.params.Del(sn) else l.params, l.out[sn := st], l.remaining)
  }

  /** The first loop as intended: every name is looked up once. */
  function LocalPart(p: Dict, data: Data, files: map<string, FileRef>, ss: seq<string>): Local
    decreases |ss|
  {
    if |ss| == 0 then Local(p, map[], [])
    else LocalStep(LocalPart(p, data, files, ss[..|ss| - 1]), data, files, ss[|ss| - 1])
  }

  /** With the same two streams the intended loop takes both from the parameters. */
  lemma LocalPartTakesBoth(p: Dict, data: Data, files: map<string, FileRef>, a: string, b: string)
    requires a in p.vals && b in p.vals && a != b
    ensures var r := LocalPart(p, data, files, [a, b]);
      && r.remaining == [] && a in r.out && b in r.out && a !in r.params.vals && b !in r.params.vals
  {
    assert [a, b][..1] == [a];
    assert [a][..0] == [];
    var l1 := LocalPart(p, data, files, [a]);
    assert LocalPart(p, data, files, []) == Local(p, map[], []);
    assert [a][|[a]| - 1] == a && [a, b][|[a, b]| - 1] == b;
    assert l1 == LocalStep(Local(p, map[], []), data, files, a);
    assert l1.params == p.Del(a) && l1.remaining == [] && a in l1.out;
    assert b in l1.params.vals;
    assert LocalPart(p, data, files, [a, b]) == LocalStep(l1, data, files, b);
  }

  /** Looking a name up is unaffected by deleting a different parameter. */
  lemma LocalSourceDel(p: Dict, data: Data, files: map<string, FileRef>, k: string, sn: string)
    requires k != sn
    ensures LocalSource(p.Del(k), data, files, sn) == LocalSource(p, data, files, sn)
  {
  }

  lemma DistinctInit(ss: seq<string>)
    requires |ss| > 0 && Distinct(ss)
    ensures Distinct(ss[..|ss| - 1]) && ss[|ss| - 1] !in ss[..|ss| - 1]
    ensures forall x :: x in ss <==> x in ss[..|ss| - 1] || x == ss[|ss| - 1]
  {
    var init := ss[..|ss| - 1];
    forall i, j | 0 <= i < j < |init| ensures init[i] != init[j] {
      assert init[i] == ss[i] && init[j] == ss[j];
    }
    forall i | 0 <= i < |init| ensures init[i] != ss[|ss| - 1] {
      assert init[i] == ss[i];
    }
    assert ss == init + [ss[|ss| - 1]];
  }

  /** After the intended first loop the parameters lose exactly the names looked up among
      them, and stay well formed. */
  lemma {:induction false} LocalPartParams(p: Dict, data: Data, files: map<string, FileRef>, ss: seq<string>)
    requires p.Valid() && Distinct(ss)
    ensures LocalPart(p, data, files, ss).params.Valid()
    ensures forall k :: LocalPart(p, data, files, ss).params.Get(k) == if k in ss then None else p.Get(k)
    decreases |ss|
  {
    if |ss| > 0 {
      var init, sn := ss[..|ss| - 1], ss[|ss| - 1];
      DistinctInit(ss);
      LocalPartParams(p, data, files, init);
      var l := LocalPart(p, data, files, init);
      if sn in l.params.vals {
        DelValid(l.params, sn);
      }
    }
  }

  /** After the intended first loop a name is found exactly when it can be found in the
      original request, with what is found there; the others remain for the remote loop. */
  lemma {:induction false} LocalPartStreams(p: Dict, data: Data, files: map<string, FileRef>, ss: seq<string>)
    requires p.Valid() && Distinct(ss)
    ensures var r := LocalPart(p, data, files, ss);
      && (forall sn :: sn in r.out <==> sn in ss && LocalSource(p, data, files, sn).Some?)
      && (forall sn :: sn in r.out ==> r.out[sn] == LocalSource(p, data, files, sn).value)
      && (forall sn :: sn in r.remaining <==> sn in ss && LocalSource(p, data, files, sn).None?)
    decreases |ss|
  {
    if |ss| > 0 {
      var init, sn := ss[..|ss| - 1], ss[|ss| - 1];
      DistinctInit(ss);
      LocalPartStreams(p, data, files, init);
      LocalPartParams(p, data, files, init);
      var l := LocalPart(p, data, files, init);
      assert LocalSource(l.params, data, files, sn) == LocalSource(p, data, files, sn);
    }
  }

  // ---------------------------------------------------------------------------
  // the remote loop (views.py:451-495) and _harvest_library (views.py:504-537)

  /** A query saved in the vault: its parameters as `parse_qs` gives them (empty when they
      do not parse) and its `bigquery` text, if any. */
  datatype SavedQuery = SavedQuery(query: map<string, seq<string>>, bigquery: Option<string>)

  /** One answer of the library service: a page of bibcodes and `num_documents`. */
  datatype Page = Page(documents: seq<string>, numDocuments: Option<int>)

  /** The answers the remote services would give: the vault's saved queries by id, and each
      library's pages in order (page `i` answers `start = i * rows`). A missing entry, or a
      page past the last one, is a request that fails. `maxRows` is `BIBLIB_MAX_ROWS` (code
      default 2000), the page size the library is asked for. */
  datatype Services = Services(vault: map<string, SavedQuery>, libraries: map<string, seq<Page>>, maxRows: int)

  /** The vault's answer for stream `s` whose id is `value`: the parameter of that name
      (its first value), else a non-empty `bigquery`, else an error. */
  function VaultDocs(s: string, value: string, q: SavedQuery): Result<string> {
    if value in q.query then
      if |q.query[value]| == 0 then Err("IndexError: list index out of range") else Ok(q.query[value][0])
    else if q.bigquery.Some? && q.bigquery.value != "" then Ok(q.bigquery.value)
    else Err("Exception: Query relies on " + s + " however such queryid is not available via API")
  }

  /** The vault answers from the saved query alone: a parameter named after the id wins
      over `bigquery`, an empty parameter fails, and without either the stream fails with
      a message naming it. */
  lemma VaultDocsMeaning(s: string, value: string, q: SavedQuery, b: Option<string>)
    ensures VaultDocs(s, value, q).Ok? <==>
              (value in q.query && |q.query[value]| > 0) ||
              (value !in q.query && q.bigquery.Some? && q.bigquery.value != "")
    ensures VaultDocs(s, value, q).Ok? && value in q.query ==> VaultDocs(s, value, q).value == q.query[value][0]
    ensures VaultDocs(s, value, q).Ok? && value !in q.query ==> VaultDocs(s, value, q).value == q.bigquery.value
    ensures value in q.query ==> VaultDocs(s, value, q) == VaultDocs(s, value, SavedQuery(q.query, b))
    ensures value !in q.query && (q.bigquery.None? || q.bigquery.value == "") ==>
              VaultDocs(s, value, q) == Err("Exception: Query relies on " + s + " however such queryid is not available via API")
  {
  }

  function DocsSet(p: Page): set<string> {
    set x | x in p.documents
  }

  /** `out['documents']` after the first `n` pages. */
  function Union(pages: seq<Page>): set<string>
    decreases |pages|
  {
    if |pages| == 0 then {} else Union(pages[..|pages| - 1]) + DocsSet(pages[|pages| - 1])
  }

  /** The loop's exit test after a page: the library says it has no more documents, the
      page is short or empty, or it added nothing new. */
  predicate Stops(page: Page, before: set<string>, after: set<string>, maxr: int) {
    || (page.numDocuments.Some? && page.numDocuments.value <= |after|)
    || |page.documents| < maxr
    || |before| == |after|
    || |page.documents| == 0
  }

  function HarvestFrom(pages: seq<Page>, maxr: int, i: nat, acc: set<string>): Result<set<string>>
    decreases |pages| - i
  {
    if i >= |pages| then Err("HTTPError: library request failed")
    else
      var acc' := acc + DocsSet(pages[i]);
      if Stops(pages[i], acc, acc', maxr) then Ok(acc') else HarvestFrom(pages, maxr, i + 1, acc')
  }

  /** `_harvest_library`: the bibcodes of the pages up to the first one that stops. */
  function Harvest(pages: seq<Page>, maxr: int): Result<set<string>> {
    HarvestFrom(pages, maxr, 0, {})
  }

  predicate StopsAt(pages: seq<Page>, maxr: int, n: nat)
    requires n < |pages|
  {
    Stops(pages[n], Union(pages[..n]), Union(pages[..n + 1]), maxr)
  }

  /** The first page at or after `i` after which the loop stops. */
  function FirstStop(pages: seq<Page>, maxr: int, i: nat): (r: Option<nat>)
    ensures r.Some? ==> i <= r.value < |pages|
    decreases |pages| - i
  {
    if i >= |pages| then None
    else if StopsAt(pages, maxr, i) then Some(i)
    else FirstStop(pages, maxr, i + 1)
  }

  /** The page `FirstStop` answers stops the loop, and none before it does. */
  lemma {:induction false} FirstStopFound(pages: seq<Page>, maxr: int, i: nat, n: nat)
    requires FirstStop(pages, maxr, i) == Some(n)
    ensures n < |pages| && StopsAt(pages, maxr, n)
    ensures forall m :: i <= m < n ==> !StopsAt(pages, maxr, m)
    decreases |pages| - i
  {
    if !StopsAt(pages, maxr, i) {
      FirstStopFound(pages, maxr, i + 1, n);
    }
  }

  /** When `FirstStop` answers None, no page from `i` on stops the loop. */
  lemma {:induction false} FirstStopNone(pages: seq<Page>, maxr: int, i: nat)
    requires FirstStop(pages, maxr, i).None?
    ensures forall m :: i <= m < |pages| ==> !StopsAt(pages, maxr, m)
    decreases |pages| - i
  {
    if i < |pages| {
      FirstStopNone(pages, maxr, i + 1);
    }
  }

  /** `FirstStop` is the first page that stops the loop, and None when none does. */
  lemma FirstStopMeaning(pages: seq<Page>, maxr: int, i: nat)
    ensures var r := FirstStop(pages, maxr, i);
      && (r.Some? ==> StopsAt(pages, maxr, r.value))
      && (r.Some? ==> forall m :: i <= m < r.value ==> !StopsAt(pages, maxr, m))
      && (r.None? ==> forall m :: i <= m < |pages| ==> !StopsAt(pages, maxr, m))
  {
    match FirstStop(pages, maxr, i)
    case Some(n) => FirstStopFound(pages, maxr, i, n);
    case None => FirstStopNone(pages, maxr, i);
  }

  lemma UnionSnoc(pages: seq<Page>, i: nat)
    requires i < |pages|
    ensures Union(pages[..i + 1]) == Union(pages[..i]) + DocsSet(pages[i])
  {
    assert pages[..i + 1][..i] == pages[..i];
  }

  /** One round of the harvest over the pages fetched so far: it stops with their union
      after page `i`, or goes on with it. */
  lemma HarvestStep(pages: seq<Page>, maxr: int, i: nat)
    requires i < |pages|
    ensures HarvestFrom(pages, maxr, i, Union(pages[..i])) ==
      if StopsAt(pages, maxr, i) then Ok(Union(pages[..i + 1])) else HarvestFrom(pages, maxr, i + 1, Union(pages[..i + 1]))
  {
    UnionSnoc(pages, i);
  }

  lemma {:induction false} HarvestFromFound(pages: seq<Page>, maxr: int, i: nat, n: nat)
    requires i <= |pages| && FirstStop(pages, maxr, i) == Some(n)
    ensures n < |pages|
    ensures HarvestFrom(pages, maxr, i, Union(pages[..i])) == Ok(Union(pages[..n + 1]))
    decreases |pages| - i
  {
    HarvestStep(pages, maxr, i);
    if !StopsAt(pages, maxr, i) {
      HarvestFromFound(pages, maxr, i + 1, n);
    }
  }

  lemma {:induction false} HarvestFromNone(pages: seq<Page>, maxr: int, i: nat)
    requires i <= |pages| && FirstStop(pages, maxr, i).None?
    ensures HarvestFrom(pages, maxr, i, Union(pages[..i])).Err?
    decreases |pages| - i
  {
    if i < |pages| {
      HarvestStep(pages, maxr, i);
      HarvestFromNone(pages, maxr, i + 1);
    }
  }

  lemma HarvestFromFirstStop(pages: seq<Page>, maxr: int, i: nat)
    requires i <= |pages|
    ensures FirstStop(pages, maxr, i).None? ==> HarvestFrom(pages, maxr, i, Union(pages[..i])).Err?
    ensures FirstStop(pages, maxr, i).Some? ==>
      HarvestFrom(pages, maxr, i, Union(pages[..i])) == Ok(Union(pages[..FirstStop(pages, maxr, i).value + 1]))
  {
    match FirstStop(pages, maxr, i)
    case Some(n) => HarvestFromFound(pages, maxr, i, n);
    case None => HarvestFromNone(pages, maxr, i);
  }

  /** The harvest is the union of the pages up to the first one after which the loop
      stops, and fails when no page does; so every bibcode returned is on one of the pages
      fetched, and every bibcode on them is returned. */
  lemma HarvestMeaning(pages: seq<Page>, maxr: int)
    ensures Harvest(pages, maxr).Ok? <==> FirstStop(pages, maxr, 0).Some?
    ensures Harvest(pages, maxr).Ok? ==> Harvest(pages, maxr).value == Union(pages[..FirstStop(pages, maxr, 0).value + 1])
  {
    assert pages[..0] == [];
    HarvestFromFirstStop(pages, maxr, 0);
    FirstStopMeaning(pages, maxr, 0);
  }

  /** A bibcode is in the union of some pages exactly when one of those pages holds it. */
  lemma {:induction false} UnionMembers(pages: seq<Page>)
    ensures forall x :: x in Union(pages) <==> exists n :: 0 <= n < |pages| && x in pages[n].documents
    decreases |pages|
  {
    if |pages| > 0 {
      var init := pages[..|pages| - 1];
      UnionMembers(init);
      forall x ensures x in Union(pages) <==> exists n :: 0 <= n < |pages| && x in pages[n].documents {
        if x in Union(pages) {
          if x in Union(init) {
            var n :| 0 <= n < |init| && x in init[n].documents;
            assert pages[n] == init[n];
          } else {
            assert x in pages[|pages| - 1].documents;
          }
        }
        if exists n :: 0 <= n < |pages| && x in pages[n].documents {
          var n :| 0 <= n < |pages| && x in pages[n].documents;
          if n < |pages| - 1 {
            assert init[n] == pages[n];
          }
        }
      }
    }
  }

  /** A single short page is the whole library. */
  lemma HarvestShortPage(pages: seq<Page>, maxr: int)
    requires |pages| > 0 && |pages[0].documents| < maxr
    ensures Harvest(pages, maxr) == Ok(DocsSet(pages[0]))
  {
    assert {} + DocsSet(pages[0]) == DocsSet(pages[0]);
  }

  /** `'bibcode\n' + '\n'.join(ids)`: the text a library stream carries. */
  function Csv(ids: seq<string>): string {
    "bibcode\n" + Join(ids, '\n')
  }

  /** The lines of that text are the header and then the bibcodes, one per line. */
  lemma CsvLines(ids: seq<string>)
    requires forall i :: 0 <= i < |ids| ==> '\n' !in ids[i]
    ensures |ids| > 0 ==> Split(Csv(ids), '\n') == ["bibcode"] + ids
    ensures |ids| == 0 ==> Split(Csv(ids), '\n') == ["bibcode", ""]
  {
    var xs := ["bibcode"] + ids;
    assert xs[1..] == ids;
    if |ids| > 0 {
      assert Join(xs, '\n') == "bibcode" + ['\n'] + Join(ids, '\n');
      assert Csv(ids) == Join(xs, '\n');
      assert '\n' !in "bibcode";
      SplitJoin(xs, '\n');
    } else {
      SplitJoin(["bibcode", ""], '\n');
      assert Join(["bibcode", ""], '\n') == "bibcode" + ['\n'] + "";
      assert Csv(ids) == "bibcode\n";
      assert "bibcode" + ['\n'] + "" == "bibcode\n";
    }
  }

  /** One stream fetched remotely: a `library/<id>` name is harvested from the library
      service, anything else is looked up in the vault by what follows the first `/`. */
  function Fetch(s: string, svc: Services): Result<Stream> {
    var (prefix, value) := SplitFirst(s, '/');
    if prefix == "library" then
      var ids :- Harvest(if value in svc.libraries then svc.libraries[value] else [], svc.maxRows);
      Ok(Stream(s, Listing(ids), CsvType))
    else if value !in svc.vault then Err("HTTPError: vault request failed")
    else
      var docs :- VaultDocs(s, value, svc.vault[value]);
      Ok(Stream(s, Inline(Str(docs)), CsvType))
  }

  /** The remote loop over the names `ss` still missing: each needs the request's
      Authorization header and the `Host` of the handler's URL (the cached host, or the one
      worked out on the first call); the host cache is threaded through. */
  function RemoteAll(host: string, url: Option<string>, headers: map<string, string>, svc: Services, ss: seq<string>): Result<(string, map<string, Stream>)>
    decreases |ss|
  {
    if |ss| == 0 then Ok((host, map[]))
    else
      var before :- RemoteAll(host, url, headers, svc, ss[..|ss| - 1]);
      if "Authorization" !in headers then Err("KeyError: 'Authorization'")
      else
        var h :- CachedHost(before.0, url);
        var st :- Fetch(ss[|ss| - 1], svc);
        Ok((h, before.1[ss[|ss| - 1] := st]))
  }

  /** The remote loop fetches every missing name and records what each fetch gives. */
  lemma {:induction false} RemoteAllStreams(host: string, url: Option<string>, headers: map<string, string>, svc: Services, ss: seq<string>)
    ensures var r := RemoteAll(host, url, headers, svc, ss);
      && (r.Ok? ==> forall s :: s in r.value.1 <==> s in ss)
      && (r.Ok? ==> forall s :: s in ss ==> Fetch(s, svc) == Ok(r.value.1[s]))
    decreases |ss|
  {
    if |ss| > 0 {
      var init := ss[..|ss| - 1];
      RemoteAllStreams(host, url, headers, svc, init);
      assert forall x :: x in ss <==> x in init || x == ss[|ss| - 1];
    }
  }

  /** The host it leaves cached is the one the first call works out; nothing to fetch
      leaves everything as it was. */
  lemma {:induction false} RemoteAllHost(host: string, url: Option<string>, headers: map<string, string>, svc: Services, ss: seq<string>)
    ensures |ss| == 0 ==> RemoteAll(host, url, headers, svc, ss) == Ok((host, map[]))
    ensures RemoteAll(host, url, headers, svc, ss).Ok? && |ss| > 0 ==>
      "Authorization" in headers && CachedHost(host, url) == Ok(RemoteAll(host, url, headers, svc, ss).value.0)
    decreases |ss|
  {
    if |ss| > 1 {
      RemoteAllHost(host, url, headers, svc, ss[..|ss| - 1]);
      CachedHostStable(host, url);
    }
  }

  /** It fails when there is anything to fetch without an Authorization header, and when
      any fetch fails. */
  lemma {:induction false} RemoteAllFails(host: string, url: Option<string>, headers: map<string, string>, svc: Services, ss: seq<string>)
    ensures |ss| > 0 && "Authorization" !in headers ==> RemoteAll(host, url, headers, svc, ss).Err?
    ensures (exists s :: s in ss && Fetch(s, svc).Err?) ==> RemoteAll(host, url, headers, svc, ss).Err?
    decreases |ss|
  {
    if |ss| > 0 {
      var init := ss[..|ss| - 1];
      RemoteAllFails(host, url, headers, svc, init);
      assert forall x :: x in ss <==> x in init || x == ss[|ss| - 1];
    }
  }

  // ---------------------------------------------------------------------------
  // the whole of _get_stream_data and check_for_embedded_bigquery

  /** `_get_stream_data` over the names `names` (the list `list(streams)` gives), with the
      first loop as intended: local streams, then remote ones, then every other uploaded
      file. Returns the parameters, the streams and the host cache. */
  function StreamData(p: Dict, names: seq<string>, data: Data, files: map<string, FileRef>, headers: map<string, string>, host: string, url: Option<string>, svc: Services): Result<(Dict, map<string, Stream>, string)>
  {
    var l := LocalPart(p, data, files, names);
    var remote :- RemoteAll(host, url, headers, svc, l.remaining);
    var found := l.out + remote.1;
    var rest := map k | k in files && k !in found :: FileStream(files[k]);
    Ok((l.params, found + rest, remote.0))
  }

  /** What `_get_stream_data` sends: a stream for every requested name and for every
      uploaded file, and nothing else. */
  lemma StreamDataKeys(p: Dict, names: seq<string>, data: Data, files: map<string, FileRef>, headers: map<string, string>, host: string, url: Option<string>, svc: Services, r: (Dict, map<string, Stream>, string))
    requires p.Valid() && Distinct(names)
    requires StreamData(p, names, data, files, headers, host, url, svc) == Ok(r)
    ensures forall k :: k in r.1 <==> k in names || k in files
  {
    var l := LocalPart(p, data, files, names);
    LocalPartStreams(p, data, files, names);
    RemoteAllStreams(host, url, headers, svc, l.remaining);
  }

  /** A requested name the request itself holds is sent with what it holds. */
  lemma StreamDataLocal(p: Dict, names: seq<string>, data: Data, files: map<string, FileRef>, headers: map<string, string>, host: string, url: Option<string>, svc: Services, r: (Dict, map<string, Stream>, string))
    requires p.Valid() && Distinct(names)
    requires StreamData(p, names, data, files, headers, host, url, svc) == Ok(r)
    ensures forall sn :: sn in names && LocalSource(p, data, files, sn).Some? ==> sn in r.1 && r.1[sn] == LocalSource(p, data, files, sn).value
  {
    var l := LocalPart(p, data, files, names);
    LocalPartStreams(p, data, files, names);
    RemoteAllStreams(host, url, headers, svc, l.remaining);
  }

  /** Any other requested name is sent with what was fetched for it. */
  lemma StreamDataRemote(p: Dict, names: seq<string>, data: Data, files: map<string, FileRef>, headers: map<string, string>, host: string, url: Option<string>, svc: Services, r: (Dict, map<string, Stream>, string))
    requires p.Valid() && Distinct(names)
    requires StreamData(p, names, data, files, headers, host, url, svc) == Ok(r)
    ensures forall sn :: sn in names && LocalSource(p, data, files, sn).None? ==> sn in r.1 && Fetch(sn, svc) == Ok(r.1[sn])
  {
    var l := LocalPart(p, data, files, names);
    LocalPartStreams(p, data, files, names);
    RemoteAllStreams(host, url, headers, svc, l.remaining);
  }

  /** Every other uploaded file is passed on as it is. */
  lemma StreamDataFiles(p: Dict, names: seq<string>, data: Data, files: map<string, FileRef>, headers: map<string, string>, host: string, url: Option<string>, svc: Services, r: (Dict, map<string, Stream>, string))
    requires p.Valid() && Distinct(names)
    requires StreamData(p, names, data, files, headers, host, url, svc) == Ok(r)
    ensures forall k :: k in files && k !in names ==> k in r.1 && r.1[k] == FileStream(files[k])
  {
    var l := LocalPart(p, data, files, names);
    LocalPartStreams(p, data, files, names);
    RemoteAllStreams(host, url, headers, svc, l.remaining);
  }

  /** The parameters lose the requested names and nothing else. */
  lemma StreamDataParams(p: Dict, names: seq<string>, data: Data, files: map<string, FileRef>, headers: map<string, string>, host: string, url: Option<string>, svc: Services, r: (Dict, map<string, Stream>, string))
    requires p.Valid() && Distinct(names)
    requires StreamData(p, names, data, files, headers, host, url, svc) == Ok(r)
    ensures r.0.Valid()
    ensures forall k :: r.0.Get(k) == if k in names then None else p.Get(k)
  {
    LocalPartParams(p, data, files, names);
  }

  /** A name the request does not hold and that cannot be fetched makes it fail. */
  lemma StreamDataFails(p: Dict, names: seq<string>, data: Data, files: map<string, FileRef>, headers: map<string, string>, host: string, url: Option<string>, svc: Services, sn: string)
    requires p.Valid() && Distinct(names)
    requires sn in names && LocalSource(p, data, files, sn).None? && Fetch(sn, svc).Err?
    ensures StreamData(p, names, data, files, headers, host, url, svc).Err?
  {
    var l := LocalPart(p, data, files, names);
    LocalPartStreams(p, data, files, names);
    assert sn in l.remaining;
    RemoteAllFails(host, url, headers, svc, l.remaining);
  }

  /** The names the query parameters mention, and `old-bad-behaviour` for a plain body. */
  function StreamNames(p: Dict, data: Data): Result<set<string>> {
    var ts :- QueryTokens(p);
    Ok(if data.Text? && |data.text| > 0 then ts + {OldBad} else ts)
  }

  /** `order` lists each of `names` once and nothing else: `list(streams)` for the set
      `streams` (views.py:414), in whatever order the set is iterated. */
  ghost predicate Enumerates(order: seq<string>, names: set<string>) {
    Distinct(order) && forall x :: x in order <==> x in names
  }

  /** The parameters after the `{!bitset}` step, which applies to a non-empty plain body. */
  function WithBody(p: Dict, data: Data): Dict {
    if data.Text? && |data.text| > 0 then BitsetStep(p, data.text) else p
  }

  /** The parameters, streams, outgoing headers and host cache after the check. */
  datatype Embedding = Embedding(params: Dict, files: map<string, Stream>, headers: map<string, string>, host: string)

  /** `check_for_embedded_bigquery` for the enumeration `order` of the stream names; the
      outgoing headers lose their Content-Type when there are streams (a KeyError if they
      have none). */
  function EmbeddedBigquery(p: Dict, order: seq<string>, data: Data, files: map<string, FileRef>, inbound: map<string, string>, outbound: map<string, string>, host: string, url: Option<string>, svc: Services): Result<Embedding>
  {
    var _ :- StreamNames(p, data);
    var r :- StreamData(WithBody(p, data), order, data, files, inbound, host, url, svc);
    if |r.1| == 0 then Ok(Embedding(r.0, r.1, outbound, r.2))
    else if "Content-Type" !in outbound then Err("KeyError: 'Content-Type'")
    else Ok(Embedding(r.0, r.1, outbound - {"Content-Type"}, r.2))
  }

  /** The parameters after the `{!bitset}` step are well formed, hold the body under
      `old-bad-behaviour` and a filter carrying `{!bitset}`. */
  lemma WithBodyMeaning(p: Dict, data: Data)
    requires p.Valid() && data.Text? && |data.text| > 0
    ensures WithBody(p, data).Valid()
    ensures WithBody(p, data).Get(OldBad) == Some(Str(data.text))
    ensures WithBody(p, data).Get("fq") == Some(BitsetFq(p.Get("fq")))
  {
    var fq := BitsetFq(p.Get("fq"));
    PutValid(p, "fq", fq);
    PutValid(p.Put("fq", fq), OldBad, Str(data.text));
  }

  /** The streams and parameters the check arrives at are those of `_get_stream_data`. */
  lemma EmbeddedParts(p: Dict, order: seq<string>, data: Data, files: map<string, FileRef>, inbound: map<string, string>, outbound: map<string, string>, host: string, url: Option<string>, svc: Services, e: Embedding)
    requires EmbeddedBigquery(p, order, data, files, inbound, outbound, host, url, svc) == Ok(e)
    ensures StreamData(WithBody(p, data), order, data, files, inbound, host, url, svc) == Ok((e.params, e.files, e.host))
    ensures |e.files| > 0 ==> e.headers == outbound - {"Content-Type"}
    ensures |e.files| == 0 ==> e.headers == outbound
  {
  }

  /** For the enumeration of the stream names the request mentions, the check sends one
      stream per name and one per other uploaded file, and nothing else. */
  lemma EmbeddedStreams(p: Dict, order: seq<string>, data: Data, files: map<string, FileRef>, inbound: map<string, string>, outbound: map<string, string>, host: string, url: Option<string>, svc: Services, ns: set<string>, e: Embedding)
    requires p.Valid() && StreamNames(p, data) == Ok(ns) && Enumerates(order, ns)
    requires EmbeddedBigquery(p, order, data, files, inbound, outbound, host, url, svc) == Ok(e)
    ensures forall k :: k in e.files <==> k in ns || k in files
  {
    EmbeddedParts(p, order, data, files, inbound, outbound, host, url, svc, e);
    if data.Text? && |data.text| > 0 {
      WithBodyMeaning(p, data);
    }
    StreamDataKeys(WithBody(p, data), order, data, files, inbound, host, url, svc, (e.params, e.files, e.host));
  }

  /** A plain body always becomes the `old-bad-behaviour` stream and the Content-Type goes. */
  lemma EmbeddedBodyStream(p: Dict, order: seq<string>, data: Data, files: map<string, FileRef>, inbound: map<string, string>, outbound: map<string, string>, host: string, url: Option<string>, svc: Services, e: Embedding)
    requires p.Valid() && Distinct(order) && OldBad in order
    requires data.Text? && |data.text| > 0
    requires EmbeddedBigquery(p, order, data, files, inbound, outbound, host, url, svc) == Ok(e)
    ensures OldBad in e.files && e.files[OldBad] == Stream(OldBad, Inline(Str(data.text)), CsvType)
    ensures "Content-Type" !in e.headers
  {
    var p1 := WithBody(p, data);
    WithBodyMeaning(p, data);
    EmbeddedParts(p, order, data, files, inbound, outbound, host, url, svc, e);
    assert LocalSource(p1, data, files, OldBad) == Some(Stream(OldBad, Inline(Str(data.text)), CsvType));
    StreamDataLocal(p1, order, data, files, inbound, host, url, svc, (e.params, e.files, e.host));
    assert OldBad in e.files;
  }

  /** The body then leaves the parameters and the filter carries `{!bitset}`. */
  lemma EmbeddedBodyParams(p: Dict, order: seq<string>, data: Data, files: map<string, FileRef>, inbound: map<string, string>, outbound: map<string, string>, host: string, url: Option<string>, svc: Services, e: Embedding)
    requires p.Valid() && Distinct(order) && OldBad in order && "fq" !in order
    requires data.Text? && |data.text| > 0
    requires EmbeddedBigquery(p, order, data, files, inbound, outbound, host, url, svc) == Ok(e)
    ensures e.params.Get(OldBad).None?
    ensures e.params.Get("fq") == Some(BitsetFq(p.Get("fq")))
  {
    var p1 := WithBody(p, data);
    WithBodyMeaning(p, data);
    EmbeddedParts(p, order, data, files, inbound, outbound, host, url, svc, e);
    StreamDataParams(p1, order, data, files, inbound, host, url, svc, (e.params, e.files, e.host));
  }

  /** A request that mentions no streams and uploads no file has none, and keeps its
      parameters and headers. */
  lemma EmbeddedNothing(p: Dict, data: Data, files: map<string, FileRef>, inbound: map<string, string>, outbound: map<string, string>, host: string, url: Option<string>, svc: Services)
    requires p.Valid() && !(data.Text? && |data.text| > 0) && files == map[]
    ensures EmbeddedBigquery(p, [], data, files, inbound, outbound, host, url, svc).Ok? <==> StreamNames(p, data).Ok?
    ensures StreamNames(p, data).Ok? ==> EmbeddedBigquery(p, [], data, files, inbound, outbound, host, url, svc) == Ok(Embedding(p, map[], outbound, host))
  {
    var r := StreamData(p, [], data, files, inbound, host, url, svc);
    assert LocalPart(p, data, files, []) == Local(p, map[], []);
    assert RemoteAll(host, url, inbound, svc, []) == Ok((host, map[]));
    assert r == Ok((p, map[], host));
  }
}
