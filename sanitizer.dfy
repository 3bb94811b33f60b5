/** What `cleanup_solr_request` (views.py:204-292) and its helpers `_cleanup_fields`,
    `_cleanup_rows`, `_cleanup_fl` and `apply_protective_filters` do to the payload, as
    functions on `Dict`. The class methods in module `Views` are proved against these. */
module Sanitizer {
  import opened Wrappers
  import opened Strings
  import opened Params
  import opened Settings

  const MaxChars := "hl.maxHighlightCharacters"
  const TraceHeader := "X-Amzn-Trace-Id"
  const LoggingKey := "internal_logging_params"

  // ---------------------------------------------------------------------------
  // key families (views.py:271-289); all tests are substring tests

  predicate IsSnippetsKey(k: string) {
    Contains(k, "hl.") && Contains(k, ".snippets")
  }

  /** `elif '.fragsize' in k`: a key naming both is a snippets key. */
  predicate IsFragsizeKey(k: string) {
    Contains(k, "hl.") && !Contains(k, ".snippets") && Contains(k, ".fragsize")
  }

  predicate IsFlKey(k: string) {
    k == "fl" || (Contains(k, ".fl") && k != "hl.fl")
  }

  predicate IsRowsKey(k: string) {
    k == "rows" || Contains(k, ".rows")
  }

  predicate IsTailKey(k: string) {
    k == "facet.field" || k == "facet.pivot" || k == "stats.field" || k == "sort"
  }

  /** The allow-lists of the exact-name keys handled after `rows` (views.py:283-290). */
  function TailAllowList(cfg: Config, k: string): Option<seq<string>> {
    if k == "facet.field" then Some(cfg.allowedFacetFields)
    else if k == "facet.pivot" then Some(cfg.allowedFacetPivot)
    else if k == "stats.field" then Some(cfg.allowedStatsFields)
    else if k == "sort" then Some(cfg.allowedSortFields)
    else None
  }

  // ---------------------------------------------------------------------------
  // list helpers

  /** `[x for x in xs if x in a]`, in order and with repeats. */
  function KeepIn(xs: seq<string>, a: seq<string>): seq<string>
    decreases |xs|
  {
    if |xs| == 0 then []
    else KeepIn(xs[..|xs| - 1], a) + (if xs[|xs| - 1] in a then [xs[|xs| - 1]] else [])
  }

  /** `[x for x in xs if x not in a]`. */
  function KeepOut(xs: seq<string>, a: seq<string>): seq<string>
    decreases |xs|
  {
    if |xs| == 0 then []
    else KeepOut(xs[..|xs| - 1], a) + (if xs[|xs| - 1] in a then [] else [xs[|xs| - 1]])
  }

  /** Both filters keep each surviving element as often as the input has it. */
  lemma {:induction false} KeepCounts(xs: seq<string>, a: seq<string>)
    ensures forall x :: multiset(KeepIn(xs, a))[x] == (if x in a then multiset(xs)[x] else 0)
    ensures forall x :: multiset(KeepOut(xs, a))[x] == (if x in a then 0 else multiset(xs)[x])
    decreases |xs|
  {
    if |xs| > 0 {
      var init := xs[..|xs| - 1];
      KeepCounts(init, a);
      assert xs == init + [xs[|xs| - 1]];
    }
  }

  lemma {:induction false} KeepOutConcat(xs: seq<string>, ys: seq<string>, a: seq<string>)
    ensures KeepOut(xs + ys, a) == KeepOut(xs, a) + KeepOut(ys, a)
    decreases |ys|
  {
    if |ys| > 0 {
      var init := ys[..|ys| - 1];
      KeepOutConcat(xs, init, a);
      assert (xs + ys)[..|xs + ys| - 1] == xs + init;
      assert (xs + ys)[|xs + ys| - 1] == ys[|ys| - 1];
    } else {
      assert xs + ys == xs;
    }
  }

  lemma {:induction false} KeepInConcat(xs: seq<string>, ys: seq<string>, a: seq<string>)
    ensures KeepIn(xs + ys, a) == KeepIn(xs, a) + KeepIn(ys, a)
    decreases |ys|
  {
    if |ys| > 0 {
      var init := ys[..|ys| - 1];
      KeepInConcat(xs, init, a);
      assert (xs + ys)[..|xs + ys| - 1] == xs + init;
      assert (xs + ys)[|xs + ys| - 1] == ys[|ys| - 1];
    } else {
      assert xs + ys == xs;
    }
  }

  lemma {:induction false} KeepOutNothing(xs: seq<string>)
    ensures KeepOut(xs, []) == xs
    decreases |xs|
  {
    if |xs| > 0 {
      KeepOutNothing(xs[..|xs| - 1]);
    }
  }

  lemma {:induction false} KeepMembers(xs: seq<string>, a: seq<string>)
    ensures forall x :: x in KeepIn(xs, a) <==> x in xs && x in a
    ensures forall x :: x in KeepOut(xs, a) <==> x in xs && x !in a
    decreases |xs|
  {
    if |xs| > 0 {
      KeepMembers(xs[..|xs| - 1], a);
      assert xs == xs[..|xs| - 1] + [xs[|xs| - 1]];
    }
  }

  lemma KeepOutEmpty(xs: seq<string>, a: seq<string>)
    ensures KeepOut(xs, a) == [] <==> forall x :: x in xs ==> x in a
  {
    KeepCounts(xs, a);
    if KeepOut(xs, a) == [] {
      forall x | x in xs ensures x in a {
        assert multiset(xs)[x] > 0;
      }
    } else {
      var y := KeepOut(xs, a)[0];
      assert multiset(KeepOut(xs, a))[y] > 0;
    }
  }

  // ---------------------------------------------------------------------------
  // tokens: `[i.strip().lower() for i in y.split(',')]` for every text `y`

  function Normalize(ps: seq<string>): (r: seq<string>)
    ensures |r| == |ps| && forall i :: 0 <= i < |ps| ==> r[i] == Lower(Strip(ps[i]))
  {
    seq(|ps|, i requires 0 <= i < |ps| => Lower(Strip(ps[i])))
  }

  function Pieces(y: string): seq<string> {
    Normalize(Split(y, ','))
  }

  function Tokens(ys: seq<string>): seq<string>
    decreases |ys|
  {
    if |ys| == 0 then [] else Tokens(ys[..|ys| - 1]) + Pieces(ys[|ys| - 1])
  }

  /** No token holds a comma, so joining the tokens with commas and splitting again gives
      the tokens back. */
  lemma {:induction false} TokensNoComma(ys: seq<string>)
    ensures forall t :: t in Tokens(ys) ==> ',' !in t
    decreases |ys|
  {
    if |ys| > 0 {
      TokensNoComma(ys[..|ys| - 1]);
      var ps := Split(ys[|ys| - 1], ',');
      var qs := Pieces(ys[|ys| - 1]);
      forall i | 0 <= i < |qs| ensures ',' !in qs[i] {
        StripKeepsAbsent(ps[i], ',');
        LowerKeepsAbsent(Strip(ps[i]), ',');
      }
    }
  }

  /** The tokens of several texts are those of each text, in order. */
  lemma {:induction false} TokensConcat(xs: seq<string>, ys: seq<string>)
    ensures Tokens(xs + ys) == Tokens(xs) + Tokens(ys)
    decreases |ys|, 1
  {
    if |ys| > 0 {
      TokensConcatLast(xs, ys);
    } else {
      assert xs + ys == xs;
    }
  }

  lemma {:induction false} TokensConcatLast(xs: seq<string>, ys: seq<string>)
    requires |ys| > 0
    ensures Tokens(xs + ys) == Tokens(xs) + Tokens(ys)
    decreases |ys|, 0
  {
    var init, last := ys[..|ys| - 1], ys[|ys| - 1];
    TokensConcat(xs, init);
    assert xs + ys == (xs + init) + [last];
    assert ys == init + [last];
    TokensSnoc(xs + init, last);
    TokensSnoc(init, last);
    Assoc(xs, init, [last]);
    Assoc(Tokens(xs), Tokens(init), Pieces(last));
  }

  lemma TokensSnoc(ys: seq<string>, y: string)
    ensures Tokens(ys + [y]) == Tokens(ys) + Pieces(y)
  {
    assert (ys + [y])[..|ys|] == ys;
  }

  // ---------------------------------------------------------------------------
  // _cleanup_fields (views.py:294-307)

  function FieldsValue(v: Value, allowed: seq<string>): Result<seq<string>> {
    var texts :- Texts(v);
    var fields := Tokens(texts);
    Ok(if |allowed| > 0 then KeepIn(fields, allowed) else fields)
  }

  /** `payload[key]` missing is a KeyError; an integer value has no `split`. */
  function CleanupFields(d: Dict, key: string, allowed: seq<string>): Result<Dict> {
    if key !in d.vals then Err("KeyError: " + key)
    else
      var kept :- FieldsValue(d.vals[key], allowed);
      Ok(d.Put(key, Str(Join(kept, ','))))
  }

  /** The kept tokens are the tokens of the input that are on the allow-list (all of them
      when the list is empty), each as often as the input has it; none holds a comma. Only
      texts have tokens: an integer, or a list that starts with one, has no `split`. */
  lemma FieldsValueMeaning(v: Value, allowed: seq<string>)
    ensures FieldsValue(v, allowed).Ok? <==> v.Str? || v.Strs?
    ensures FieldsValue(v, allowed).Ok? ==>
      var kept := FieldsValue(v, allowed).value;
      var fields := Tokens(Texts(v).value);
      && (forall t :: t in kept ==> ',' !in t)
      && (|allowed| == 0 ==> kept == fields)
      && (|allowed| > 0 ==> forall x :: multiset(kept)[x] == (if x in allowed then multiset(fields)[x] else 0))
  {
    if v.Str? || v.Strs? {
      var texts := Texts(v).value;
      var fields := Tokens(texts);
      TokensNoComma(texts);
      KeepCounts(fields, allowed);
      KeepMembers(fields, allowed);
    }
  }

  lemma FieldsValueConcat(xs: seq<string>, ys: seq<string>, allowed: seq<string>)
    ensures FieldsValue(Strs(xs + ys), allowed).value == FieldsValue(Strs(xs), allowed).value + FieldsValue(Strs(ys), allowed).value
  {
    var tx, ty := Tokens(xs), Tokens(ys);
    TokensConcat(xs, ys);
    assert FieldsValue(Strs(xs), allowed).value == if |allowed| > 0 then KeepIn(tx, allowed) else tx;
    assert FieldsValue(Strs(ys), allowed).value == if |allowed| > 0 then KeepIn(ty, allowed) else ty;
    assert FieldsValue(Strs(xs + ys), allowed).value == if |allowed| > 0 then KeepIn(tx + ty, allowed) else tx + ty;
    if |allowed| > 0 {
      KeepInConcat(tx, ty, allowed);
    }
  }

  /** The kept tokens keep the input order: a list of texts gives the kept tokens of its
      first part followed by those of the rest, and a text without a comma is its one
      stripped, lower-cased token, kept when it is allowed or nothing is listed. */
  lemma FieldsValueOrder(xs: seq<string>, ys: seq<string>, y: string, allowed: seq<string>)
    requires ',' !in y
    ensures FieldsValue(Strs(xs + ys), allowed).value == FieldsValue(Strs(xs), allowed).value + FieldsValue(Strs(ys), allowed).value
    ensures FieldsValue(Str(y), allowed) == Ok(if |allowed| == 0 || Lower(Strip(y)) in allowed then [Lower(Strip(y))] else [])
  {
    FieldsValueConcat(xs, ys, allowed);
    FieldsValueSingle(y, allowed);
  }

  lemma FieldsValueSingle(y: string, allowed: seq<string>)
    requires ',' !in y
    ensures FieldsValue(Str(y), allowed) == Ok(if |allowed| == 0 || Lower(Strip(y)) in allowed then [Lower(Strip(y))] else [])
  {
    SplitNoSeparator(y, ',');
    var t := Lower(Strip(y));
    var n := Normalize([y]);
    assert |n| == 1 && n[0] == t;
    assert n == [t];
    assert Pieces(y) == n;
    assert Tokens([y]) == [t] by {
      assert [y][..0] == [];
      assert Tokens([y]) == Tokens([]) + Pieces(y);
    }
    assert KeepIn([t], allowed) == KeepIn([], allowed) + (if t in allowed then [t] else []) by {
      assert [t][..0] == [];
    }
    assert FieldsValue(Str(y), allowed) == Ok(if |allowed| > 0 then KeepIn([t], allowed) else [t]);
  }

  /** `_cleanup_fields` fails exactly on a missing key or a value that is not text (an
      integer, or a list that starts with one). Otherwise it
      rewrites only `key`, keeps the key order, and the text it stores splits back into the
      kept tokens. */
  lemma CleanupFieldsMeaning(d: Dict, key: string, allowed: seq<string>)
    requires d.Valid()
    ensures CleanupFields(d, key, allowed).Ok? <==> key in d.vals && (d.vals[key].Str? || d.vals[key].Strs?)
    ensures CleanupFields(d, key, allowed).Ok? ==>
      var r := CleanupFields(d, key, allowed).value;
      var kept := FieldsValue(d.vals[key], allowed).value;
      && r.Valid()
      && r.keys == d.keys
      && (forall k :: k != key ==> r.Get(k) == d.Get(k))
      && r.vals[key].Str?
      && (|kept| > 0 ==> Split(r.vals[key].s, ',') == kept)
  {
    if key in d.vals && (d.vals[key].Str? || d.vals[key].Strs?) {
      var v := d.vals[key];
      FieldsValueMeaning(v, allowed);
      StoreJoined(d, key, FieldsValue(v, allowed).value);
    }
  }

  lemma StoreJoined(d: Dict, key: string, kept: seq<string>)
    requires d.Valid() && key in d.vals
    requires forall t :: t in kept ==> ',' !in t
    ensures var r := d.Put(key, Str(Join(kept, ',')));
      && r.Valid() && r.keys == d.keys
      && (forall k :: k != key ==> r.Get(k) == d.Get(k))
      && (|kept| > 0 ==> Split(Join(kept, ','), ',') == kept)
  {
    PutValid(d, key, Str(Join(kept, ',')));
    if |kept| > 0 {
      SplitJoin(kept, ',');
    }
  }

  // ---------------------------------------------------------------------------
  // _cleanup_rows (views.py:310-315) and the highlight clamps (views.py:271-276)

  function Min(a: int, b: int): int { if a <= b then a else b }
  function Max(a: int, b: int): int { if a >= b then a else b }

  function CleanupRows(cfg: Config, d: Dict, key: string): Result<Dict> {
    if key !in d.vals then Err("KeyError: " + key)
    else
      var n :- SafeInt(d.vals[key], cfg.defaultRows);
      Ok(d.Put(key, Int(Min(n, cfg.maxRows))))
  }

  function ClampSnippets(cfg: Config, n: int): int {
    Max(0, Min(n, cfg.maxSnippets))
  }

  /** Never below 1: a fragment size of 0 would return the whole field. */
  function ClampFragsize(cfg: Config, n: int): int {
    Max(1, Min(n, cfg.maxFragsize))
  }

  /** The clamps stay in range and leave in-range values alone. */
  lemma ClampBounds(cfg: Config, n: int)
    requires cfg.maxSnippets >= 0 && cfg.maxFragsize >= 1
    ensures 0 <= ClampSnippets(cfg, n) <= cfg.maxSnippets
    ensures 0 <= n <= cfg.maxSnippets ==> ClampSnippets(cfg, n) == n
    ensures 1 <= ClampFragsize(cfg, n) <= cfg.maxFragsize
    ensures 1 <= n <= cfg.maxFragsize ==> ClampFragsize(cfg, n) == n
  {
  }

  /** The first branch of the loop body; it uses the snapshot value `v`. */
  function HighlightStep(cfg: Config, d: Dict, k: string, v: Value): Result<Dict> {
    if IsSnippetsKey(k) then
      var n :- SafeInt(v, cfg.maxSnippets);
      Ok(d.Put(k, Int(ClampSnippets(cfg, n))))
    else if IsFragsizeKey(k) then
      var n :- SafeInt(v, cfg.maxFragsize);
      var c := ClampFragsize(cfg, n);
      Ok(d.Put(k, Int(c)).Put(MaxChars, Int(c)))
    else Ok(d)
  }

  // ---------------------------------------------------------------------------
  // _cleanup_fl (views.py:317-349)

  /** The fields left after the deny-list (views.py:333-335); an empty deny-list removes
      nothing. */
  function Visible(fields: seq<string>, deny: seq<string>): seq<string> {
    if |deny| > 0 then KeepOut(fields, deny) else fields
  }

  /** The new field list and the protected (deny-listed) fields of `_cleanup_fl`. */
  function FlFields(fields: seq<string>, deny: seq<string>, allowed: seq<string>): (seq<string>, seq<string>) {
    var protected := if |deny| > 0 then KeepIn(fields, deny) else [];
    var visible := Visible(fields, deny);
    var withId := if |visible| == 0 then ["id"] else visible;
    var noStar := KeepOut(withId, ["*"]);
    (if |noStar| == 0 then allowed else noStar, protected)
  }

  lemma VisibleCounts(fields: seq<string>, deny: seq<string>)
    ensures forall x :: multiset(Visible(fields, deny))[x] == (if x in deny then 0 else multiset(fields)[x])
    ensures forall x :: x in Visible(fields, deny) <==> x in fields && x !in deny
  {
    var visible := Visible(fields, deny);
    KeepCounts(fields, deny);
    forall x ensures x in visible <==> x in fields && x !in deny {
      assert x in visible <==> multiset(visible)[x] > 0;
      assert x in fields <==> multiset(fields)[x] > 0;
    }
  }

  /** The protected fields are exactly the deny-listed tokens, repeats included. */
  lemma FlProtected(fields: seq<string>, deny: seq<string>, allowed: seq<string>)
    ensures forall x :: multiset(FlFields(fields, deny, allowed).1)[x] == (if x in deny then multiset(fields)[x] else 0)
  {
    KeepCounts(fields, deny);
  }

  /** Nothing but deny-listed tokens gives `id`. */
  lemma FlOnlyDenied(fields: seq<string>, deny: seq<string>, allowed: seq<string>)
    requires forall x :: x in fields ==> x in deny
    ensures FlFields(fields, deny, allowed).0 == ["id"]
  {
    KeepOutNothing(fields);
    KeepOutEmpty(fields, deny);
    assert Visible(fields, deny) == [];
    assert KeepOut(["id"], ["*"]) == ["id"] by {
      assert ["id"][..0] == [];
      assert "id" != "*";
    }
  }

  /** Nothing but `*` besides deny-listed tokens gives the configured allowed fields. */
  lemma FlOnlyStars(fields: seq<string>, deny: seq<string>, allowed: seq<string>)
    requires exists x :: x in fields && x !in deny
    requires forall x :: x in fields && x !in deny ==> x == "*"
    ensures FlFields(fields, deny, allowed).0 == allowed
  {
    var visible := Visible(fields, deny);
    VisibleCounts(fields, deny);
    var y :| y in fields && y !in deny;
    assert y in visible;
    KeepOutEmpty(visible, ["*"]);
  }

  /** Otherwise the list holds every other token except `*`, as often as the input has it
      (no de-duplication). */
  lemma FlKept(fields: seq<string>, deny: seq<string>, allowed: seq<string>)
    requires exists x :: x in fields && x !in deny && x != "*"
    ensures forall x :: multiset(FlFields(fields, deny, allowed).0)[x] == (if x in deny || x == "*" then 0 else multiset(fields)[x])
  {
    var visible := Visible(fields, deny);
    VisibleCounts(fields, deny);
    var y :| y in fields && y !in deny && y != "*";
    assert y in visible;
    KeepCounts(visible, ["*"]);
    assert multiset(KeepOut(visible, ["*"]))[y] > 0;
  }

  lemma VisibleConcat(xs: seq<string>, ys: seq<string>, deny: seq<string>)
    ensures Visible(xs + ys, deny) == Visible(xs, deny) + Visible(ys, deny)
  {
    KeepOutConcat(xs, ys, deny);
  }

  /** A field that is neither deny-listed nor `*` survives both filters. */
  lemma Survivor(xs: seq<string>, deny: seq<string>, t: string)
    requires t in xs && t !in deny && t != "*"
    ensures t in Visible(xs, deny) && t in KeepOut(Visible(xs, deny), ["*"])
  {
    VisibleCounts(xs, deny);
    KeepMembers(Visible(xs, deny), ["*"]);
  }

  /** The kept fields are in input order: when each part has a field that survives, the
      kept fields of `xs + ys` are those of `xs` followed by those of `ys`; one surviving
      field is kept as it is. The protected fields are in input order too. */
  lemma FlKeptOrder(xs: seq<string>, ys: seq<string>, x: string, deny: seq<string>, allowed: seq<string>)
    requires exists t :: t in xs && t !in deny && t != "*"
    requires exists t :: t in ys && t !in deny && t != "*"
    requires x !in deny && x != "*"
    ensures FlFields(xs + ys, deny, allowed).0 == FlFields(xs, deny, allowed).0 + FlFields(ys, deny, allowed).0
    ensures FlFields(xs + ys, deny, allowed).1 == FlFields(xs, deny, allowed).1 + FlFields(ys, deny, allowed).1
    ensures FlFields([x], deny, allowed).0 == [x]
  {
    FlKeptConcat(xs, ys, deny, allowed);
    FlKeptSingle(x, deny, allowed);
  }

  lemma FlKeptSingle(x: string, deny: seq<string>, allowed: seq<string>)
    requires x !in deny && x != "*"
    ensures FlFields([x], deny, allowed).0 == [x]
  {
    assert [x][..0] == [];
    assert KeepOut([x], deny) == KeepOut([], deny) + [x];
    assert KeepOut([x], ["*"]) == KeepOut([], ["*"]) + [x];
  }

  lemma FlKeptConcat(xs: seq<string>, ys: seq<string>, deny: seq<string>, allowed: seq<string>)
    requires exists t :: t in xs && t !in deny && t != "*"
    requires exists t :: t in ys && t !in deny && t != "*"
    ensures FlFields(xs + ys, deny, allowed).0 == FlFields(xs, deny, allowed).0 + FlFields(ys, deny, allowed).0
    ensures FlFields(xs + ys, deny, allowed).1 == FlFields(xs, deny, allowed).1 + FlFields(ys, deny, allowed).1
  {
    KeepInConcat(xs, ys, deny);
    var vx, vy := Visible(xs, deny), Visible(ys, deny);
    VisibleConcat(xs, ys, deny);
    KeepOutConcat(vx, vy, ["*"]);
    var tx :| tx in xs && tx !in deny && tx != "*";
    var ty :| ty in ys && ty !in deny && ty != "*";
    Survivor(xs, deny, tx);
    Survivor(ys, deny, ty);
    assert |vx| > 0 && |vy| > 0 && |vx + vy| > 0;
    var nx, ny := KeepOut(vx, ["*"]), KeepOut(vy, ["*"]);
    assert |nx| > 0 && |ny| > 0;
    assert FlFields(xs, deny, allowed).0 == nx;
    assert FlFields(ys, deny, allowed).0 == ny;
    assert FlFields(xs + ys, deny, allowed).0 == nx + ny;
  }

  /** The first part of `_cleanup_fl`: the rewritten dict and the protected fields. */
  function FlRewrite(cfg: Config, d: Dict, key: string): Result<(Dict, seq<string>)> {
    if key !in d.vals then Err("KeyError: " + key)
    else
      var texts :- Texts(d.vals[key]);
      var (kept, protected) := FlFields(Tokens(texts), cfg.disallowedFields, cfg.allowedFields);
      Ok((d.Put(key, Str(Join(kept, ','))), protected))
  }

  function CleanupFl(cfg: Config, uid: string, rules: seq<Limit>, d: Dict, key: string): Result<Dict> {
    var (d1, protected) :- FlRewrite(cfg, d, key);
    Ok(if |protected| > 0 then ProtectiveFilters(d1, uid, protected, key, rules) else d1)
  }

  // ---------------------------------------------------------------------------
  // apply_protective_filters (views.py:168-202)

  /** A row of the `limits` table (solr/models.py): user, protected field, filter query.
      A NULL filter is the empty text. */
  datatype Limit = Limit(uid: string, field: string, filter: string)

  /** The row is selected by the query (views.py:197) and its filter is set (views.py:198). */
  predicate Grants(r: Limit, uid: string, protected: seq<string>) {
    r.uid == uid && r.field in protected && r.filter != ""
  }

  function Granted(rules: seq<Limit>, uid: string, protected: seq<string>): seq<Limit>
    decreases |rules|
  {
    if |rules| == 0 then []
    else
      var r := rules[|rules| - 1];
      Granted(rules[..|rules| - 1], uid, protected) + (if Grants(r, uid, protected) then [r] else [])
  }

  function FieldsOf(gs: seq<Limit>): seq<string>
    decreases |gs|
  {
    if |gs| == 0 then [] else FieldsOf(gs[..|gs| - 1]) + [gs[|gs| - 1].field]
  }

  function FiltersOf(gs: seq<Limit>): seq<string>
    decreases |gs|
  {
    if |gs| == 0 then [] else FiltersOf(gs[..|gs| - 1]) + [gs[|gs| - 1].filter]
  }

  /** The text `'{0},{1}'.format(fl, f.field)` adds for the rows `gs`. */
  function FlSuffix(gs: seq<Limit>): string
    decreases |gs|
  {
    if |gs| == 0 then "" else FlSuffix(gs[..|gs| - 1]) + "," + gs[|gs| - 1].field
  }

  /** `fq` for key `fl`, otherwise `<prefix>.fq` for `<prefix>.<rest>`. */
  function FqKey(key: string): string {
    if key == "fl" then "fq" else BeforeLast(key, '.') + ".fq"
  }

  /** The prior filter as a list (`[]` when missing, `[fq]` when not a list): the integer
      it starts with, if any, and its texts. */
  function AsList(v: Option<Value>): (Option<int>, seq<string>) {
    match v
    case None => (None, [])
    case Some(Strs(xs)) => (None, xs)
    case Some(Str(s)) => (None, [s])
    case Some(Int(n)) => (Some(n), [])
    case Some(IntList(n, xs)) => (Some(n), xs)
  }

  /** The list value with that leading integer, if any, and those texts. */
  function ListValue(lead: Option<int>, xs: seq<string>): Value {
    if lead.Some? then IntList(lead.value, xs) else Strs(xs)
  }

  /** `fl` is read before the filter entry is written, so a key that is its own filter key
      (such as `a.fl.fq`) still contributes its field text. */
  function ProtectiveFilters(d: Dict, uid: string, protected: seq<string>, key: string, rules: seq<Limit>): Dict
    requires key in d.vals && d.vals[key].Str?
  {
    var fqKey := FqKey(key);
    var gs := Granted(rules, uid, protected);
    var prior := AsList(d.Get(fqKey));
    var d1 := d.Put(fqKey, ListValue(prior.0, prior.1 + FiltersOf(gs)));
    if |gs| == 0 then d1 else d1.Put("fl", Str(d.vals[key].s + FlSuffix(gs)))
  }

  lemma FqKeyEndsFq(key: string)
    ensures EndsWith(FqKey(key), "fq")
  {
    if key != "fl" {
      var p := BeforeLast(key, '.');
      assert (p + ".fq")[|p| + 1..] == "fq";
    }
  }

  lemma {:induction false} SplitAppend(s: string, f: string, c: char)
    requires c !in f
    ensures Split(s + [c] + f, c) == Split(s, c) + [f]
    decreases |s|
  {
    if |s| == 0 {
      assert s + [c] + f == [c] + f;
      SplitPrefix(f, "", c);
      assert f + "" == f;
      assert [c] + f == ([c] + f)[..1] + f;
      assert ([c] + f)[1..] == f;
    } else {
      var t := s + [c] + f;
      SplitAppend(s[1..], f, c);
      assert t[1..] == s[1..] + [c] + f && t[0] == s[0];
      var r := Split(s[1..], c);
      if s[0] == c {
        assert Split(t, c) == [""] + (r + [f]);
      } else {
        assert (r + [f])[0] == r[0] && (r + [f])[1..] == r[1..] + [f];
        assert Split(t, c) == [[s[0]] + r[0]] + (r[1..] + [f]);
      }
    }
  }

  /** Each granted row adds its own field to the field text, in row order. */
  lemma {:induction false} FlSuffixFields(fl: string, gs: seq<Limit>)
    requires forall i :: 0 <= i < |gs| ==> ',' !in gs[i].field
    ensures Split(fl + FlSuffix(gs), ',') == Split(fl, ',') + FieldsOf(gs)
    decreases |gs|
  {
    if |gs| > 0 {
      var init := gs[..|gs| - 1];
      var f := gs[|gs| - 1].field;
      FlSuffixFields(fl, init);
      SplitAppend(fl + FlSuffix(init), f, ',');
      assert fl + FlSuffix(gs) == fl + FlSuffix(init) + [','] + f;
      assert FieldsOf(gs) == FieldsOf(init) + [f];
      assert Split(fl, ',') + FieldsOf(gs) == Split(fl, ',') + FieldsOf(init) + [f];
    } else {
      assert fl + FlSuffix(gs) == fl;
    }
  }

  lemma {:induction false} GrantedMembers(rules: seq<Limit>, uid: string, protected: seq<string>)
    ensures forall g :: g in Granted(rules, uid, protected) <==> g in rules && Grants(g, uid, protected)
    decreases |rules|
  {
    if |rules| > 0 {
      GrantedMembers(rules[..|rules| - 1], uid, protected);
      assert rules == rules[..|rules| - 1] + [rules[|rules| - 1]];
    }
  }

  lemma {:induction false} GrantedConcat(a: seq<Limit>, b: seq<Limit>, uid: string, protected: seq<string>)
    ensures Granted(a + b, uid, protected) == Granted(a, uid, protected) + Granted(b, uid, protected)
    decreases |b|
  {
    if |b| > 0 {
      GrantedConcat(a, b[..|b| - 1], uid, protected);
      assert (a + b)[..|a + b| - 1] == a + b[..|b| - 1];
      assert (a + b)[|a + b| - 1] == b[|b| - 1];
    } else {
      assert a + b == a;
    }
  }

  /** A row of another user, of a field that is not protected, or with an empty filter can
      be dropped from the table without changing the outcome. */
  lemma IgnoredRow(d: Dict, uid: string, protected: seq<string>, key: string, a: seq<Limit>, r: Limit, b: seq<Limit>)
    requires key in d.vals && d.vals[key].Str?
    requires !Grants(r, uid, protected)
    ensures ProtectiveFilters(d, uid, protected, key, a + [r] + b) == ProtectiveFilters(d, uid, protected, key, a + b)
  {
    GrantedConcat(a + [r], b, uid, protected);
    GrantedConcat(a, [r], uid, protected);
    GrantedConcat(a, b, uid, protected);
    assert [r][..0] == [];
    assert Granted([r], uid, protected) == [];
    assert Granted(a + [r] + b, uid, protected) == Granted(a + b, uid, protected);
  }

  /** The filter entry becomes a list that starts with the prior value (its items, when
      it is a list) and ends with the filters of the granting rows, in table order; an
      integer stays an integer at the front. The dict stays well formed. */
  lemma ProtectiveFiltersFq(d: Dict, uid: string, protected: seq<string>, key: string, rules: seq<Limit>)
    requires d.Valid() && key in d.vals && d.vals[key].Str?
    ensures var r := ProtectiveFilters(d, uid, protected, key, rules);
      var fk := FqKey(key);
      var fs := FiltersOf(Granted(rules, uid, protected));
      && r.Valid()
      && (fk !in d.vals ==> r.Get(fk) == Some(Strs(fs)))
      && (fk in d.vals && d.vals[fk].Str? ==> r.Get(fk) == Some(Strs([d.vals[fk].s] + fs)))
      && (fk in d.vals && d.vals[fk].Strs? ==> r.Get(fk) == Some(Strs(d.vals[fk].items + fs)))
      && (fk in d.vals && d.vals[fk].Int? ==> r.Get(fk) == Some(IntList(d.vals[fk].n, fs)))
      && (fk in d.vals && d.vals[fk].IntList? ==> r.Get(fk) == Some(IntList(d.vals[fk].lead, d.vals[fk].rest + fs)))
  {
    ProtectiveFiltersList(d, uid, protected, key, rules);
    ListValueOf(d.Get(FqKey(key)), FiltersOf(Granted(rules, uid, protected)));
  }

  lemma ListValueOf(v: Option<Value>, fs: seq<string>)
    ensures var l := ListValue(AsList(v).0, AsList(v).1 + fs);
      && (v.None? ==> l == Strs(fs))
      && (v.Some? && v.value.Str? ==> l == Strs([v.value.s] + fs))
      && (v.Some? && v.value.Strs? ==> l == Strs(v.value.items + fs))
      && (v.Some? && v.value.Int? ==> l == IntList(v.value.n, fs))
      && (v.Some? && v.value.IntList? ==> l == IntList(v.value.lead, v.value.rest + fs))
  {
    assert [] + fs == fs;
  }

  lemma ProtectiveFiltersList(d: Dict, uid: string, protected: seq<string>, key: string, rules: seq<Limit>)
    requires d.Valid() && key in d.vals && d.vals[key].Str?
    ensures var r := ProtectiveFilters(d, uid, protected, key, rules);
      var prior := AsList(d.Get(FqKey(key)));
      && r.Valid()
      && r.Get(FqKey(key)) == Some(ListValue(prior.0, prior.1 + FiltersOf(Granted(rules, uid, protected))))
  {
    FqKeyEndsFq(key);
    assert !EndsWith("fl", "fq");
  }

  /** When no row grants, `fl` keeps its value; otherwise it is the field text followed
      by exactly the granted fields. */
  lemma ProtectiveFiltersFl(d: Dict, uid: string, protected: seq<string>, key: string, rules: seq<Limit>)
    requires key in d.vals && d.vals[key].Str?
    requires forall i :: 0 <= i < |rules| ==> ',' !in rules[i].field
    ensures var r := ProtectiveFilters(d, uid, protected, key, rules);
      var gs := Granted(rules, uid, protected);
      && (gs == [] ==> r.Get("fl") == d.Get("fl"))
      && (gs != [] ==> r.vals["fl"].Str? && Split(r.vals["fl"].s, ',') == Split(d.vals[key].s, ',') + FieldsOf(gs))
  {
    var gs := Granted(rules, uid, protected);
    FqKeyEndsFq(key);
    assert !EndsWith("fl", "fq");
    GrantedNoComma(rules, uid, protected);
    FlSuffixFields(d.vals[key].s, gs);
  }

  lemma GrantedNoComma(rules: seq<Limit>, uid: string, protected: seq<string>)
    requires forall i :: 0 <= i < |rules| ==> ',' !in rules[i].field
    ensures forall i :: 0 <= i < |Granted(rules, uid, protected)| ==> ',' !in Granted(rules, uid, protected)[i].field
  {
    var gs := Granted(rules, uid, protected);
    GrantedMembers(rules, uid, protected);
    forall i | 0 <= i < |gs| ensures ',' !in gs[i].field {
      assert gs[i] in rules;
    }
  }

  // ---------------------------------------------------------------------------
  // one round of the loop at views.py:270-290, and the loop

  function HlFlStep(cfg: Config, d: Dict, k: string): Result<Dict> {
    if k == "hl.fl" then CleanupFields(d, k, cfg.allowedHighlightFields) else Ok(d)
  }

  function FlStep(cfg: Config, uid: string, rules: seq<Limit>, d: Dict, k: string): Result<Dict> {
    if IsFlKey(k) then CleanupFl(cfg, uid, rules, d, k) else Ok(d)
  }

  function RowsStep(cfg: Config, d: Dict, k: string): Result<Dict> {
    if IsRowsKey(k) then CleanupRows(cfg, d, k) else Ok(d)
  }

  function TailStep(cfg: Config, d: Dict, k: string): Result<Dict> {
    match TailAllowList(cfg, k)
    case Some(a) => CleanupFields(d, k, a)
    case None => Ok(d)
  }

  /** One round of the loop for key `k` with snapshot value `v`. */
  function CleanKey(cfg: Config, uid: string, rules: seq<Limit>, d: Dict, k: string, v: Value): Result<Dict> {
    var d1 :- HighlightStep(cfg, d, k, v);
    var d2 :- HlFlStep(cfg, d1, k);
    var d3 :- FlStep(cfg, uid, rules, d2, k);
    var d4 :- RowsStep(cfg, d3, k);
    TailStep(cfg, d4, k)
  }

  /** The rounds for the snapshot keys `ks`, each with its snapshot value. */
  function CleanKeys(cfg: Config, uid: string, rules: seq<Limit>, snap: map<string, Value>, d: Dict, ks: seq<string>): Result<Dict>
    decreases |ks|
  {
    if |ks| == 0 then Ok(d)
    else
      var d1 :- CleanKeys(cfg, uid, rules, snap, d, ks[..|ks| - 1]);
      var k := ks[|ks| - 1];
      if k in snap then CleanKey(cfg, uid, rules, d1, k, snap[k]) else Ok(d1)
  }

  // ---------------------------------------------------------------------------
  // the prelude (views.py:215-268) and the whole sanitiser

  /** `user_id` is never passed by the callers, so it comes from the `X-api-uid` header. */
  function UserId(headers: map<string, string>): string {
    if "X-api-uid" in headers then headers["X-api-uid"] else "default"
  }

  function LoggingParams(headers: map<string, string>): string {
    TraceHeader + "=" + (if TraceHeader in headers then headers[TraceHeader] else "Root=-")
  }

  /** The logging parameter, `wt`, a default `rows` and the one integer `start`
      (views.py:235-248). */
  function PreludeHead(cfg: Config, headers: map<string, string>, d: Dict): Result<Dict> {
    var d1 := d.Put(LoggingKey, Str(LoggingParams(headers))).Put("wt", Str("json"));
    var d2 := if "rows" in d1.vals then d1 else d1.Put("rows", Int(cfg.defaultRows));
    var start :- if "start" in d2.vals then SafeInt(d2.vals["start"], 0) else Ok(0);
    Ok(d2.Put("start", Int(start)))
  }

  /** A default `fl`, the time limit without a cursor, and the highlight cap
      (views.py:250-268). */
  function PreludeTail(cfg: Config, d3: Dict): Dict {
    var d4 := if "fl" in d3.vals then d3 else d3.Put("fl", Str("id"));
    var d5 := if "cursorMark" !in d4.vals && cfg.timeAllowedMs != 0 then d4.Put("timeAllowed", Int(cfg.timeAllowedMs)) else d4;
    if "hl" in d5.vals && MaxChars !in d5.vals then d5.Put(MaxChars, Int(cfg.maxFragsize)) else d5
  }

  function Prelude(cfg: Config, headers: map<string, string>, d: Dict): Result<Dict> {
    var d3 :- PreludeHead(cfg, headers, d);
    Ok(PreludeTail(cfg, d3))
  }

  /** The payload `cleanup_solr_request` returns. */
  function Cleanup(cfg: Config, headers: map<string, string>, rules: seq<Limit>, d: Dict): Result<Dict> {
    var p :- Prelude(cfg, headers, d);
    CleanKeys(cfg, UserId(headers), rules, p.vals, p, p.keys)
  }

  const FormType := "application/x-www-form-urlencoded"

  /** The headers it returns (views.py:218-231); `host` is what `get_host` gave. */
  function OutboundHeaders(inbound: map<string, string>, host: string): map<string, string>
  {
    var ct := if "Content-Type" in inbound && Contains(inbound["Content-Type"], "big-query") then inbound["Content-Type"] else FormType;
    var h := map["Content-Type" := ct, "Host" := host];
    if TraceHeader in inbound then h[TraceHeader := inbound[TraceHeader]] else h
  }

  lemma FormTypeIsNotBigQuery()
    ensures !Contains(FormType, "big-query")
  {
    ContainsNeedsChar(FormType, "big-query", 'b');
  }

  /** Only a big-query content type passes through, and everything else is sent as a form
      (which is not one, by `FormTypeIsNotBigQuery`); the trace id is passed on when the request has one, and nothing
      else is sent. */
  lemma OutboundHeadersMeaning(inbound: map<string, string>, host: string)
    ensures var h := OutboundHeaders(inbound, host);
      && "Content-Type" in h && "Host" in h && h["Host"] == host
      && (h["Content-Type"] == FormType || ("Content-Type" in inbound && h["Content-Type"] == inbound["Content-Type"]))
      && ("Content-Type" in inbound && Contains(inbound["Content-Type"], "big-query") ==> h["Content-Type"] == inbound["Content-Type"])
      && (!("Content-Type" in inbound && Contains(inbound["Content-Type"], "big-query")) ==> h["Content-Type"] == FormType)
      && (TraceHeader in h <==> TraceHeader in inbound)
      && (TraceHeader in h ==> h[TraceHeader] == inbound[TraceHeader])
      && h.Keys <= {"Content-Type", "Host", TraceHeader}
  {
  }

  // ---------------------------------------------------------------------------
  // what the loop can write

  /** The keys one round for `k` can write. */
  function Writes(k: string): set<string> {
    (if IsSnippetsKey(k) || IsFragsizeKey(k) || k == "hl.fl" || IsFlKey(k) || IsRowsKey(k) || IsTailKey(k) then {k} else {})
    + (if IsFragsizeKey(k) then {MaxChars} else {})
    + (if IsFlKey(k) then {"fl", FqKey(k)} else {})
  }

  /** `e` differs from `d` at most on the keys `w`. */
  ghost predicate Agrees(d: Dict, e: Dict, w: set<string>) {
    forall K :: K !in w ==> e.Get(K) == d.Get(K)
  }

  lemma HighlightStepFrame(cfg: Config, d: Dict, k: string, v: Value)
    requires HighlightStep(cfg, d, k, v).Ok?
    ensures Agrees(d, HighlightStep(cfg, d, k, v).value, (if IsSnippetsKey(k) || IsFragsizeKey(k) then {k} else {}) + (if IsFragsizeKey(k) then {MaxChars} else {}))
  {
    var r := HighlightStep(cfg, d, k, v).value;
    if IsSnippetsKey(k) {
      assert r == d.Put(k, Int(ClampSnippets(cfg, SafeInt(v, cfg.maxSnippets).value)));
    } else if IsFragsizeKey(k) {
      var c := ClampFragsize(cfg, SafeInt(v, cfg.maxFragsize).value);
      assert r == d.Put(k, Int(c)).Put(MaxChars, Int(c));
    }
  }

  lemma CleanupFlFrame(cfg: Config, uid: string, rules: seq<Limit>, d: Dict, k: string)
    requires CleanupFl(cfg, uid, rules, d, k).Ok?
    ensures Agrees(d, CleanupFl(cfg, uid, rules, d, k).value, {k, "fl", FqKey(k)})
  {
    var (d1, protected) := FlRewrite(cfg, d, k).value;
    assert Agrees(d, d1, {k});
    if |protected| > 0 {
      ProtectiveFiltersFrame(d1, uid, protected, k, rules);
    }
  }

  lemma ProtectiveFiltersFrame(d: Dict, uid: string, protected: seq<string>, key: string, rules: seq<Limit>)
    requires key in d.vals && d.vals[key].Str?
    ensures Agrees(d, ProtectiveFilters(d, uid, protected, key, rules), {FqKey(key), "fl"})
  {
  }

  lemma RestStepsFrame(cfg: Config, uid: string, rules: seq<Limit>, d: Dict, k: string)
    ensures HlFlStep(cfg, d, k).Ok? ==> Agrees(d, HlFlStep(cfg, d, k).value, if k == "hl.fl" then {k} else {})
    ensures FlStep(cfg, uid, rules, d, k).Ok? ==> Agrees(d, FlStep(cfg, uid, rules, d, k).value, if IsFlKey(k) then {k, "fl", FqKey(k)} else {})
    ensures RowsStep(cfg, d, k).Ok? ==> Agrees(d, RowsStep(cfg, d, k).value, if IsRowsKey(k) then {k} else {})
    ensures TailStep(cfg, d, k).Ok? ==> Agrees(d, TailStep(cfg, d, k).value, if IsTailKey(k) then {k} else {})
  {
    if IsFlKey(k) && FlStep(cfg, uid, rules, d, k).Ok? {
      CleanupFlFrame(cfg, uid, rules, d, k);
    }
  }

  /** A round for `k` changes no key outside `Writes(k)`. */
  lemma CleanKeyFrame(cfg: Config, uid: string, rules: seq<Limit>, d: Dict, k: string, v: Value)
    requires CleanKey(cfg, uid, rules, d, k, v).Ok?
    ensures Agrees(d, CleanKey(cfg, uid, rules, d, k, v).value, Writes(k))
  {
    var d1 := HighlightStep(cfg, d, k, v).value;
    HighlightStepFrame(cfg, d, k, v);
    var d2 := HlFlStep(cfg, d1, k).value;
    RestStepsFrame(cfg, uid, rules, d1, k);
    var d3 := FlStep(cfg, uid, rules, d2, k).value;
    RestStepsFrame(cfg, uid, rules, d2, k);
    var d4 := RowsStep(cfg, d3, k).value;
    RestStepsFrame(cfg, uid, rules, d3, k);
    RestStepsFrame(cfg, uid, rules, d4, k);
  }

  lemma HighlightStepValid(cfg: Config, d: Dict, k: string, v: Value)
    requires d.Valid() && HighlightStep(cfg, d, k, v).Ok?
    ensures HighlightStep(cfg, d, k, v).value.Valid()
  {
    if IsFragsizeKey(k) && !IsSnippetsKey(k) {
      var c := ClampFragsize(cfg, SafeInt(v, cfg.maxFragsize).value);
      PutValid(d, k, Int(c));
      PutValid(d.Put(k, Int(c)), MaxChars, Int(c));
    }
  }

  lemma FlStepValid(cfg: Config, uid: string, rules: seq<Limit>, d: Dict, k: string)
    requires d.Valid() && FlStep(cfg, uid, rules, d, k).Ok?
    ensures FlStep(cfg, uid, rules, d, k).value.Valid()
  {
    if IsFlKey(k) {
      var (e, protected) := FlRewrite(cfg, d, k).value;
      PutValid(d, k, e.vals[k]);
      if |protected| > 0 {
        ProtectiveFiltersList(e, uid, protected, k, rules);
      }
    }
  }

  lemma FieldStepsValid(cfg: Config, d: Dict, k: string)
    requires d.Valid()
    ensures HlFlStep(cfg, d, k).Ok? ==> HlFlStep(cfg, d, k).value.Valid()
    ensures RowsStep(cfg, d, k).Ok? ==> RowsStep(cfg, d, k).value.Valid()
    ensures TailStep(cfg, d, k).Ok? ==> TailStep(cfg, d, k).value.Valid()
  {
    CleanupFieldsMeaning(d, k, cfg.allowedHighlightFields);
    match TailAllowList(cfg, k) {
      case Some(a) => CleanupFieldsMeaning(d, k, a);
      case None =>
    }
  }

  /** Every round keeps the payload well formed. */
  lemma CleanKeyValid(cfg: Config, uid: string, rules: seq<Limit>, d: Dict, k: string, v: Value)
    requires d.Valid() && CleanKey(cfg, uid, rules, d, k, v).Ok?
    ensures CleanKey(cfg, uid, rules, d, k, v).value.Valid()
  {
    var d1 := HighlightStep(cfg, d, k, v).value;
    HighlightStepValid(cfg, d, k, v);
    var d2 := HlFlStep(cfg, d1, k).value;
    FieldStepsValid(cfg, d1, k);
    var d3 := FlStep(cfg, uid, rules, d2, k).value;
    FlStepValid(cfg, uid, rules, d2, k);
    var d4 := RowsStep(cfg, d3, k).value;
    FieldStepsValid(cfg, d3, k);
    FieldStepsValid(cfg, d4, k);
  }

  lemma {:induction false} CleanKeysValid(cfg: Config, uid: string, rules: seq<Limit>, snap: map<string, Value>, d: Dict, ks: seq<string>)
    requires d.Valid() && CleanKeys(cfg, uid, rules, snap, d, ks).Ok?
    ensures CleanKeys(cfg, uid, rules, snap, d, ks).value.Valid()
    decreases |ks|
  {
    if |ks| > 0 {
      var init := ks[..|ks| - 1];
      CleanKeysValid(cfg, uid, rules, snap, d, init);
      var k := ks[|ks| - 1];
      if k in snap {
        CleanKeyValid(cfg, uid, rules, CleanKeys(cfg, uid, rules, snap, d, init).value, k, snap[k]);
      }
    }
  }

  /** `cleanup_solr_request` keeps the payload well formed. */
  lemma CleanupValid(cfg: Config, headers: map<string, string>, rules: seq<Limit>, d: Dict)
    requires d.Valid() && Cleanup(cfg, headers, rules, d).Ok?
    ensures Cleanup(cfg, headers, rules, d).value.Valid()
  {
    var p := Prelude(cfg, headers, d).value;
    PreludeShape(cfg, headers, d);
    CleanKeysValid(cfg, UserId(headers), rules, p.vals, p, p.keys);
  }

  /** The loop over `a + b` is the loop over `a` followed by the loop over `b`. */
  lemma {:induction false} CleanKeysConcat(cfg: Config, uid: string, rules: seq<Limit>, snap: map<string, Value>, d: Dict, a: seq<string>, b: seq<string>)
    requires CleanKeys(cfg, uid, rules, snap, d, a + b).Ok?
    ensures CleanKeys(cfg, uid, rules, snap, d, a).Ok?
    ensures CleanKeys(cfg, uid, rules, snap, d, a + b) == CleanKeys(cfg, uid, rules, snap, CleanKeys(cfg, uid, rules, snap, d, a).value, b)
    decreases |b|
  {
    if |b| > 0 {
      assert (a + b)[..|a + b| - 1] == a + b[..|b| - 1];
      assert (a + b)[|a + b| - 1] == b[|b| - 1];
      CleanKeysConcat(cfg, uid, rules, snap, d, a, b[..|b| - 1]);
    } else {
      assert a + b == a;
    }
  }

  lemma CleanKeysSingle(cfg: Config, uid: string, rules: seq<Limit>, snap: map<string, Value>, d: Dict, k: string)
    requires k in snap
    ensures CleanKeys(cfg, uid, rules, snap, d, [k]) == CleanKey(cfg, uid, rules, d, k, snap[k])
  {
    assert [k][..0] == [];
  }

  /** A key no round writes keeps its value through the loop. */
  lemma {:induction false} CleanKeysKeep(cfg: Config, uid: string, rules: seq<Limit>, snap: map<string, Value>, d: Dict, ks: seq<string>, K: string)
    requires forall i :: 0 <= i < |ks| ==> K !in Writes(ks[i])
    requires CleanKeys(cfg, uid, rules, snap, d, ks).Ok?
    ensures CleanKeys(cfg, uid, rules, snap, d, ks).value.Get(K) == d.Get(K)
    decreases |ks|
  {
    if |ks| > 0 {
      var init := ks[..|ks| - 1];
      CleanKeysKeep(cfg, uid, rules, snap, d, init, K);
      var k := ks[|ks| - 1];
      if k in snap {
        CleanKeyFrame(cfg, uid, rules, CleanKeys(cfg, uid, rules, snap, d, init).value, k, snap[k]);
        assert K !in Writes(k);
      }
    }
  }

  /** Keys that no other key's round can write: not `fl`, not the highlight cap, and not
      a filter key `...fq` that `apply_protective_filters` may create. */
  predicate Isolated(K: string) {
    K != "fl" && K != MaxChars && !EndsWith(K, "fq")
  }

  lemma IsolatedNotWritten(K: string, k: string)
    requires Isolated(K) && K != k
    ensures K !in Writes(k)
  {
    var fq := FqKey(k);
    FqKeyEndsFq(k);
    assert K != fq;
    assert Writes(k) <= {k, MaxChars, "fl", fq};
  }

  /** Rounds of other keys leave an isolated key alone. */
  lemma IsolatedKeep(cfg: Config, uid: string, rules: seq<Limit>, snap: map<string, Value>, d: Dict, ks: seq<string>, K: string)
    requires Isolated(K) && K !in ks
    requires CleanKeys(cfg, uid, rules, snap, d, ks).Ok?
    ensures CleanKeys(cfg, uid, rules, snap, d, ks).value.Get(K) == d.Get(K)
  {
    forall j | 0 <= j < |ks| ensures K !in Writes(ks[j]) {
      IsolatedNotWritten(K, ks[j]);
    }
    CleanKeysKeep(cfg, uid, rules, snap, d, ks, K);
  }

  /** For an isolated key of the snapshot, its final value is what its own round wrote,
      starting from a dict in which it still had its value from before the loop. */
  lemma IsolatedOutcome(cfg: Config, uid: string, rules: seq<Limit>, snap: map<string, Value>, d: Dict, ks: seq<string>, K: string) returns (before: Dict)
    requires Distinct(ks) && Isolated(K) && K in ks && K in snap
    requires CleanKeys(cfg, uid, rules, snap, d, ks).Ok?
    ensures before.Get(K) == d.Get(K)
    ensures CleanKey(cfg, uid, rules, before, K, snap[K]).Ok?
    ensures CleanKeys(cfg, uid, rules, snap, d, ks).value.Get(K) == CleanKey(cfg, uid, rules, before, K, snap[K]).value.Get(K)
  {
    var i :| 0 <= i < |ks| && ks[i] == K;
    var a, b := ks[..i], ks[i + 1..];
    assert ks == (a + [K]) + b;
    assert K !in a by {
      forall j | 0 <= j < |a| ensures a[j] != K {
        assert a[j] == ks[j];
      }
    }
    assert K !in b by {
      forall j | 0 <= j < |b| ensures b[j] != K {
        assert b[j] == ks[i + 1 + j];
      }
    }
    CleanKeysConcat(cfg, uid, rules, snap, d, a + [K], b);
    CleanKeysConcat(cfg, uid, rules, snap, d, a, [K]);
    before := CleanKeys(cfg, uid, rules, snap, d, a).value;
    CleanKeysSingle(cfg, uid, rules, snap, before, K);
    var mid := CleanKey(cfg, uid, rules, before, K, snap[K]).value;
    IsolatedKeep(cfg, uid, rules, snap, d, a, K);
    IsolatedKeep(cfg, uid, rules, snap, mid, b, K);
  }

  /** An isolated key the input lacks is never created by the loop. */
  lemma IsolatedAbsent(cfg: Config, uid: string, rules: seq<Limit>, p: Dict, K: string)
    requires p.Valid() && Isolated(K) && K !in p.vals
    requires CleanKeys(cfg, uid, rules, p.vals, p, p.keys).Ok?
    ensures K !in CleanKeys(cfg, uid, rules, p.vals, p, p.keys).value.vals
  {
    forall j | 0 <= j < |p.keys| ensures K !in Writes(p.keys[j]) {
      IsolatedNotWritten(K, p.keys[j]);
    }
    CleanKeysKeep(cfg, uid, rules, p.vals, p, p.keys, K);
  }

  // ---------------------------------------------------------------------------
  // keys outside every family

  /** Every family pattern holds a `.`. */
  lemma NoDotNoFamily(k: string)
    requires '.' !in k
    ensures !Contains(k, "hl.") && !Contains(k, ".fl") && !Contains(k, ".rows")
    ensures !IsSnippetsKey(k) && !IsFragsizeKey(k)
  {
    ContainsNeedsChar(k, "hl.", '.');
    ContainsNeedsChar(k, ".fl", '.');
    ContainsNeedsChar(k, ".rows", '.');
  }

  lemma NoDotWritesNothing(k: string)
    requires '.' !in k && k != "fl" && k != "rows" && k != "sort"
    ensures Writes(k) == {}
  {
    NoDotNoFamily(k);
  }

  /** A key without `n`, `f` and `w` that ends in `s` is in no family. */
  lemma NoFamilyByChars(k: string)
    requires 'n' !in k && 'f' !in k && 'w' !in k && |k| > 0 && k[|k| - 1] == 's'
    ensures !IsSnippetsKey(k) && !IsFragsizeKey(k) && !IsFlKey(k) && !IsRowsKey(k)
    ensures !IsTailKey(k) && k != "hl.fl" && !EndsWith(k, "fq")
    ensures k !in Writes(k)
  {
    ContainsNeedsChar(k, ".snippets", 'n');
    ContainsNeedsChar(k, ".fragsize", 'f');
    ContainsNeedsChar(k, ".fl", 'f');
    ContainsNeedsChar(k, ".rows", 'w');
  }

  /** The highlight cap `hl.maxHighlightCharacters` is in no family: only a fragsize
      round writes it. */
  lemma MaxCharsInNoFamily(k: string)
    requires k == MaxChars
    ensures !IsSnippetsKey(k) && !IsFragsizeKey(k) && !IsFlKey(k) && !IsRowsKey(k)
    ensures !IsTailKey(k) && k != "hl.fl" && !EndsWith(k, "fq")
    ensures k !in Writes(k)
  {
    assert 'n' !in k && 'f' !in k && 'w' !in k && k[|k| - 1] == 's';
    NoFamilyByChars(k);
  }

  // ---------------------------------------------------------------------------
  // the prelude

  const PreludeKeys := {LoggingKey, "wt", "rows", "start", "fl", "timeAllowed", MaxChars}

  /** The last fragsize key of `ks`. */
  function LastFragsize(ks: seq<string>): Option<string>
    decreases |ks|
  {
    if |ks| == 0 then None
    else if IsFragsizeKey(ks[|ks| - 1]) then Some(ks[|ks| - 1])
    else LastFragsize(ks[..|ks| - 1])
  }

  lemma {:induction false} LastFragsizeIn(ks: seq<string>)
    ensures LastFragsize(ks).Some? ==> LastFragsize(ks).value in ks && IsFragsizeKey(LastFragsize(ks).value)
    decreases |ks|
  {
    if |ks| > 0 && !IsFragsizeKey(ks[|ks| - 1]) {
      LastFragsizeIn(ks[..|ks| - 1]);
    }
  }

  /** Only the cap among the prelude keys holds a `.`. */
  lemma PreludeKeyDotted(k: string)
    ensures k in PreludeKeys && '.' in k ==> k == MaxChars
  {
  }

  /** No prelude key is a highlight key. */
  lemma PreludeKeyNoFamily(k: string)
    ensures k in PreludeKeys ==> !IsFragsizeKey(k) && !IsSnippetsKey(k)
  {
    if k == MaxChars {
      MaxCharsInNoFamily(k);
    } else if k in PreludeKeys {
      assert '.' !in k;
      NoDotNoFamily(k);
    }
  }

  lemma PutKeepsLastFragsize(d: Dict, k: string, v: Value)
    requires k in PreludeKeys
    ensures LastFragsize(d.Put(k, v).keys) == LastFragsize(d.keys)
  {
    PreludeKeyNoFamily(k);
    PutOtherKeepsLastFragsize(d, k, v);
  }

  lemma PutOtherKeepsLastFragsize(d: Dict, k: string, v: Value)
    requires !IsFragsizeKey(k)
    ensures LastFragsize(d.Put(k, v).keys) == LastFragsize(d.keys)
  {
    if k !in d.vals {
      var ks := d.keys + [k];
      assert ks[..|ks| - 1] == d.keys;
      assert ks[|ks| - 1] == k;
    }
  }

  /** One prelude assignment keeps the dict well formed, touches only the prelude's
      keys and adds no fragsize key. */
  lemma PreludePut(d: Dict, k: string, v: Value)
    requires d.Valid() && k in PreludeKeys
    ensures d.Put(k, v).Valid()
    ensures LastFragsize(d.Put(k, v).keys) == LastFragsize(d.keys)
  {
    PutKeepsLastFragsize(d, k, v);
  }

  /** The prelude fails only on a `start` that is an empty list. */
  lemma PreludeFails(cfg: Config, headers: map<string, string>, d: Dict)
    ensures Prelude(cfg, headers, d).Err? <==> "start" in d.vals && SafeInt(d.vals["start"], 0).Err?
  {
  }

  /** The prelude changes no key outside its own. */
  lemma PreludeOthers(cfg: Config, headers: map<string, string>, d: Dict)
    ensures Prelude(cfg, headers, d).Ok? ==> Agrees(d, Prelude(cfg, headers, d).value, PreludeKeys)
  {
  }

  /** The prelude keeps the dict well formed and adds no fragsize key. */
  lemma PreludeShape(cfg: Config, headers: map<string, string>, d: Dict)
    requires d.Valid()
    ensures Prelude(cfg, headers, d).Ok? ==>
      var p := Prelude(cfg, headers, d).value;
      p.Valid() && LastFragsize(p.keys) == LastFragsize(d.keys)
  {
    if Prelude(cfg, headers, d).Ok? {
      var d0 := d.Put(LoggingKey, Str(LoggingParams(headers)));
      PreludePut(d, LoggingKey, Str(LoggingParams(headers)));
      var d1 := d0.Put("wt", Str("json"));
      PreludePut(d0, "wt", Str("json"));
      var d2 := if "rows" in d1.vals then d1 else d1.Put("rows", Int(cfg.defaultRows));
      PreludePut(d1, "rows", Int(cfg.defaultRows));
      var start := if "start" in d2.vals then SafeInt(d2.vals["start"], 0).value else 0;
      var d3 := d2.Put("start", Int(start));
      PreludePut(d2, "start", Int(start));
      var d4 := if "fl" in d3.vals then d3 else d3.Put("fl", Str("id"));
      PreludePut(d3, "fl", Str("id"));
      var d5 := if "cursorMark" !in d4.vals && cfg.timeAllowedMs != 0 then d4.Put("timeAllowed", Int(cfg.timeAllowedMs)) else d4;
      PreludePut(d4, "timeAllowed", Int(cfg.timeAllowedMs));
      PreludePut(d5, MaxChars, Int(cfg.maxFragsize));
      assert Prelude(cfg, headers, d).value == if "hl" in d5.vals && MaxChars !in d5.vals then d5.Put(MaxChars, Int(cfg.maxFragsize)) else d5;
    }
  }

  /** The prelude writes only its own keys and adds no fragsize key. */
  lemma PreludeFrame(cfg: Config, headers: map<string, string>, d: Dict)
    requires d.Valid()
    ensures Prelude(cfg, headers, d).Ok? ==>
      var p := Prelude(cfg, headers, d).value;
      p.Valid() && Agrees(d, p, PreludeKeys) && LastFragsize(p.keys) == LastFragsize(d.keys)
  {
    PreludeOthers(cfg, headers, d);
    PreludeShape(cfg, headers, d);
  }

  /** The prelude records the logging parameters and sets `wt` to `json`. */
  lemma PreludeLogging(cfg: Config, headers: map<string, string>, d: Dict)
    ensures Prelude(cfg, headers, d).Ok? ==>
      var p := Prelude(cfg, headers, d).value;
      p.Get(LoggingKey) == Some(Str(LoggingParams(headers))) && p.Get("wt") == Some(Str("json"))
  {
    if Prelude(cfg, headers, d).Ok? {
      assert |LoggingKey| == 23 && |MaxChars| == 25;
      var d1 := d.Put(LoggingKey, Str(LoggingParams(headers))).Put("wt", Str("json"));
      assert d1.Get(LoggingKey) == Some(Str(LoggingParams(headers)));
      var d2 := if "rows" in d1.vals then d1 else d1.Put("rows", Int(cfg.defaultRows));
      var start := if "start" in d2.vals then SafeInt(d2.vals["start"], 0).value else 0;
      var d3 := d2.Put("start", Int(start));
      assert d3.Get(LoggingKey) == d1.Get(LoggingKey) && d3.Get("wt") == d1.Get("wt");
      var d4 := if "fl" in d3.vals then d3 else d3.Put("fl", Str("id"));
      var d5 := if "cursorMark" !in d4.vals && cfg.timeAllowedMs != 0 then d4.Put("timeAllowed", Int(cfg.timeAllowedMs)) else d4;
      var p := if "hl" in d5.vals && MaxChars !in d5.vals then d5.Put(MaxChars, Int(cfg.maxFragsize)) else d5;
      assert Prelude(cfg, headers, d).value == p;
    }
  }

  /** After the prelude `rows` keeps a given value or gets the default, and `start`
      holds its parsed value or 0. */
  lemma PreludeValues(cfg: Config, headers: map<string, string>, d: Dict)
    ensures Prelude(cfg, headers, d).Ok? ==>
      var p := Prelude(cfg, headers, d).value;
      && p.Get("rows") == (if "rows" in d.vals then d.Get("rows") else Some(Int(cfg.defaultRows)))
      && p.Get("start") == Some(Int(if "start" in d.vals then SafeInt(d.vals["start"], 0).value else 0))
  {
    if Prelude(cfg, headers, d).Ok? {
      assert |LoggingKey| == 23 && |MaxChars| == 25;
      var d1 := d.Put(LoggingKey, Str(LoggingParams(headers))).Put("wt", Str("json"));
      assert d1.Get("rows") == d.Get("rows") && d1.Get("start") == d.Get("start");
      var d2 := if "rows" in d1.vals then d1 else d1.Put("rows", Int(cfg.defaultRows));
      var start := if "start" in d2.vals then SafeInt(d2.vals["start"], 0).value else 0;
      var d3 := d2.Put("start", Int(start));
      var d4 := if "fl" in d3.vals then d3 else d3.Put("fl", Str("id"));
      var d5 := if "cursorMark" !in d4.vals && cfg.timeAllowedMs != 0 then d4.Put("timeAllowed", Int(cfg.timeAllowedMs)) else d4;
      var p := if "hl" in d5.vals && MaxChars !in d5.vals then d5.Put(MaxChars, Int(cfg.maxFragsize)) else d5;
      assert Prelude(cfg, headers, d).value == p;
    }
  }

  /** `fl` is always present after the prelude, and the highlight cap is the given one,
      or `max_frag` when `hl` is present, or absent. */
  lemma PreludeCap(cfg: Config, headers: map<string, string>, d: Dict)
    ensures Prelude(cfg, headers, d).Ok? ==>
      var p := Prelude(cfg, headers, d).value;
      && "fl" in p.vals
      && p.Get(MaxChars) == (if MaxChars in d.vals then d.Get(MaxChars) else if "hl" in d.vals then Some(Int(cfg.maxFragsize)) else None)
  {
    if PreludeHead(cfg, headers, d).Ok? {
      var d3 := PreludeHead(cfg, headers, d).value;
      PreludeHeadKeepsCap(cfg, headers, d, d3);
      PreludeTailCap(cfg, d3);
    }
  }

  lemma PreludeHeadKeepsCap(cfg: Config, headers: map<string, string>, d: Dict, d3: Dict)
    requires PreludeHead(cfg, headers, d) == Ok(d3)
    ensures d3.Get(MaxChars) == d.Get(MaxChars) && ("hl" in d3.vals <==> "hl" in d.vals)
  {
    assert |LoggingKey| == 23 && |MaxChars| == 25;
  }

  lemma PreludeTailCap(cfg: Config, d3: Dict)
    ensures var p := PreludeTail(cfg, d3);
      && "fl" in p.vals
      && p.Get(MaxChars) == (if MaxChars in d3.vals then d3.Get(MaxChars) else if "hl" in d3.vals then Some(Int(cfg.maxFragsize)) else None)
  {
    assert |MaxChars| == 25;
  }

  // ---------------------------------------------------------------------------
  // what the whole sanitiser guarantees

  /** A filter key ends in `q`. */
  lemma FqKeyLast(key: string)
    ensures |FqKey(key)| > 0 && FqKey(key)[|FqKey(key)| - 1] == 'q'
  {
  }

  /** Only a fragsize round writes the highlight cap. */
  lemma CapWrittenOnlyByFragsize(m: string, k: string)
    requires m == MaxChars
    ensures m in Writes(k) <==> IsFragsizeKey(k)
  {
    if !IsFragsizeKey(k) {
      if k == m {
        MaxCharsInNoFamily(k);
      } else {
        FqKeyLast(k);
        assert m[|m| - 1] == 's' && |m| == 25;
      }
    }
  }

  /** A key of one of the exact-name families is not a key of another family. */
  lemma TailKeyNotSnippetsOrFragsize(k: string)
    requires IsSnippetsKey(k) || IsFragsizeKey(k)
    ensures !IsTailKey(k) && k != "hl.fl"
  {
    if IsSnippetsKey(k) {
      ContainsChars(k, ".snippets");
      assert 'n' in k;
    } else {
      ContainsChars(k, ".fragsize");
      assert 'z' in k;
    }
  }

  /** The round of a rows key that is in no other family caps its current value at
      `SOLR_SERVICE_MAX_ROWS`, reading it with the default row count; it fails when the
      key is gone or holds an empty list. */
  lemma RowsRound(cfg: Config, uid: string, rules: seq<Limit>, d: Dict, K: string, v: Value)
    requires IsRowsKey(K) && !IsSnippetsKey(K) && !IsFragsizeKey(K) && !IsFlKey(K) && !IsTailKey(K) && K != "hl.fl"
    requires CleanKey(cfg, uid, rules, d, K, v).Ok?
    ensures K in d.vals && SafeInt(d.vals[K], cfg.defaultRows).Ok?
    ensures CleanKey(cfg, uid, rules, d, K, v).value.Get(K) == Some(Int(Min(SafeInt(d.vals[K], cfg.defaultRows).value, cfg.maxRows)))
  {
  }

  /** The round of a snippets key that is in no other family stores the clamped snapshot
      value. */
  lemma SnippetsRound(cfg: Config, uid: string, rules: seq<Limit>, d: Dict, K: string, v: Value)
    requires IsSnippetsKey(K) && !IsFlKey(K) && !IsRowsKey(K)
    requires CleanKey(cfg, uid, rules, d, K, v).Ok?
    ensures SafeInt(v, cfg.maxSnippets).Ok?
    ensures CleanKey(cfg, uid, rules, d, K, v).value.Get(K) == Some(Int(ClampSnippets(cfg, SafeInt(v, cfg.maxSnippets).value)))
  {
    TailKeyNotSnippetsOrFragsize(K);
  }

  /** The round of a fragsize key that is in no other family stores the clamped snapshot
      value under the key. */
  lemma FragsizeRound(cfg: Config, uid: string, rules: seq<Limit>, d: Dict, K: string, v: Value)
    requires IsFragsizeKey(K) && !IsFlKey(K) && !IsRowsKey(K) && K != MaxChars
    requires CleanKey(cfg, uid, rules, d, K, v).Ok?
    ensures SafeInt(v, cfg.maxFragsize).Ok?
    ensures CleanKey(cfg, uid, rules, d, K, v).value.Get(K) == Some(Int(ClampFragsize(cfg, SafeInt(v, cfg.maxFragsize).value)))
  {
    TailKeyNotSnippetsOrFragsize(K);
  }

  /** After its highlight step, a round touches only its own key, `fl` and its filter
      key. */
  lemma RestStepsKeep(cfg: Config, uid: string, rules: seq<Limit>, d: Dict, k: string, v: Value)
    requires CleanKey(cfg, uid, rules, d, k, v).Ok?
    ensures HighlightStep(cfg, d, k, v).Ok?
    ensures Agrees(HighlightStep(cfg, d, k, v).value, CleanKey(cfg, uid, rules, d, k, v).value, {k, "fl", FqKey(k)})
  {
    var d1 := HighlightStep(cfg, d, k, v).value;
    var d2 := HlFlStep(cfg, d1, k).value;
    RestStepsFrame(cfg, uid, rules, d1, k);
    var d3 := FlStep(cfg, uid, rules, d2, k).value;
    RestStepsFrame(cfg, uid, rules, d2, k);
    var d4 := RowsStep(cfg, d3, k).value;
    RestStepsFrame(cfg, uid, rules, d3, k);
    RestStepsFrame(cfg, uid, rules, d4, k);
  }

  /** The highlight cap is neither a fragsize key nor `fl` nor a filter key. */
  lemma CapIsNoRoundKey(m: string, k: string)
    requires m == MaxChars && IsFragsizeKey(k)
    ensures m != k && m != "fl" && m != FqKey(k)
  {
    assert 'f' !in m && m[|m| - 1] == 's' && |m| == 25;
    ContainsNeedsChar(m, ".fragsize", 'f');
    FqKeyLast(k);
  }

  /** The highlight step of a fragsize key sets the cap to the clamped value. */
  lemma HighlightStepCap(cfg: Config, d: Dict, k: string, v: Value)
    requires IsFragsizeKey(k) && HighlightStep(cfg, d, k, v).Ok?
    ensures SafeInt(v, cfg.maxFragsize).Ok?
    ensures HighlightStep(cfg, d, k, v).value.Get(MaxChars) == Some(Int(ClampFragsize(cfg, SafeInt(v, cfg.maxFragsize).value)))
  {
  }

  /** Any fragsize round leaves the highlight cap at its own clamped value. */
  lemma FragsizeRoundCap(cfg: Config, uid: string, rules: seq<Limit>, d: Dict, k: string, v: Value)
    requires IsFragsizeKey(k)
    requires CleanKey(cfg, uid, rules, d, k, v).Ok?
    ensures SafeInt(v, cfg.maxFragsize).Ok?
    ensures CleanKey(cfg, uid, rules, d, k, v).value.Get(MaxChars) == Some(Int(ClampFragsize(cfg, SafeInt(v, cfg.maxFragsize).value)))
  {
    RestStepsKeep(cfg, uid, rules, d, k, v);
    CapIsNoRoundKey(MaxChars, k);
    HighlightStepCap(cfg, d, k, v);
  }

  /** After the rounds for `ks`, the highlight cap holds the clamped snapshot value of
      the last fragsize key of `ks`, or is untouched when `ks` has none. */
  lemma {:induction false} CapAfterKeys(cfg: Config, uid: string, rules: seq<Limit>, snap: map<string, Value>, d: Dict, ks: seq<string>)
    requires forall k :: k in ks ==> k in snap
    requires CleanKeys(cfg, uid, rules, snap, d, ks).Ok?
    ensures LastFragsize(ks).None? ==> CleanKeys(cfg, uid, rules, snap, d, ks).value.Get(MaxChars) == d.Get(MaxChars)
    ensures LastFragsize(ks).Some? ==>
      var f := LastFragsize(ks).value;
      f in snap && SafeInt(snap[f], cfg.maxFragsize).Ok? &&
      CleanKeys(cfg, uid, rules, snap, d, ks).value.Get(MaxChars) == Some(Int(ClampFragsize(cfg, SafeInt(snap[f], cfg.maxFragsize).value)))
    decreases |ks|
  {
    if |ks| > 0 {
      var init := ks[..|ks| - 1];
      var k := ks[|ks| - 1];
      assert forall x :: x in init ==> x in ks;
      CapAfterKeys(cfg, uid, rules, snap, d, init);
      var d1 := CleanKeys(cfg, uid, rules, snap, d, init).value;
      if IsFragsizeKey(k) {
        FragsizeRoundCap(cfg, uid, rules, d1, k, snap[k]);
      } else {
        CleanKeyFrame(cfg, uid, rules, d1, k, snap[k]);
        CapWrittenOnlyByFragsize(MaxChars, k);
      }
    }
  }

  /** The highlight cap `cleanup_solr_request` sends: the clamped value of the last
      fragsize key of the request when it has one (a later one overrides an earlier one);
      otherwise the cap the request gave, or `max_frag` when highlighting is on, or none.
      A fragsize key that holds an empty list makes the whole request fail. */
  lemma CleanupCap(cfg: Config, headers: map<string, string>, rules: seq<Limit>, d: Dict)
    requires d.Valid()
    requires Cleanup(cfg, headers, rules, d).Ok?
    ensures LastFragsize(d.keys).None? ==>
      Cleanup(cfg, headers, rules, d).value.Get(MaxChars) == (if MaxChars in d.vals then d.Get(MaxChars) else if "hl" in d.vals then Some(Int(cfg.maxFragsize)) else None)
    ensures LastFragsize(d.keys).Some? ==>
      var f := LastFragsize(d.keys).value;
      f in d.vals && SafeInt(d.vals[f], cfg.maxFragsize).Ok? &&
      Cleanup(cfg, headers, rules, d).value.Get(MaxChars) == Some(Int(ClampFragsize(cfg, SafeInt(d.vals[f], cfg.maxFragsize).value)))
  {
    var p := Prelude(cfg, headers, d).value;
    PreludeFrame(cfg, headers, d);
    PreludeCap(cfg, headers, d);
    assert forall k :: k in p.keys ==> k in p.vals;
    CapAfterKeys(cfg, UserId(headers), rules, p.vals, p, p.keys);
    if LastFragsize(d.keys).Some? {
      var f := LastFragsize(d.keys).value;
      LastFragsizeIn(d.keys);
      PreludeKeyNoFamily(f);
      assert p.Get(f) == d.Get(f);
    }
  }

  /** The loop over a well-formed dict leaves a pure rows key of it capped. */
  lemma LoopRowsCapped(cfg: Config, uid: string, rules: seq<Limit>, p: Dict, K: string)
    requires p.Valid() && K in p.vals
    requires IsRowsKey(K) && !IsSnippetsKey(K) && !IsFragsizeKey(K) && !IsFlKey(K) && !IsTailKey(K) && K != "hl.fl" && Isolated(K)
    requires CleanKeys(cfg, uid, rules, p.vals, p, p.keys).Ok?
    ensures SafeInt(p.vals[K], cfg.defaultRows).Ok?
    ensures CleanKeys(cfg, uid, rules, p.vals, p, p.keys).value.Get(K) == Some(Int(Min(SafeInt(p.vals[K], cfg.defaultRows).value, cfg.maxRows)))
  {
    var before := IsolatedOutcome(cfg, uid, rules, p.vals, p, p.keys, K);
    RowsRound(cfg, uid, rules, before, K, p.vals[K]);
  }

  /** The loop over a well-formed dict leaves a pure snippets key of it clamped. */
  lemma LoopSnippets(cfg: Config, uid: string, rules: seq<Limit>, p: Dict, K: string)
    requires p.Valid() && K in p.vals
    requires IsSnippetsKey(K) && !IsFlKey(K) && !IsRowsKey(K) && Isolated(K)
    requires CleanKeys(cfg, uid, rules, p.vals, p, p.keys).Ok?
    ensures SafeInt(p.vals[K], cfg.maxSnippets).Ok?
    ensures CleanKeys(cfg, uid, rules, p.vals, p, p.keys).value.Get(K) == Some(Int(ClampSnippets(cfg, SafeInt(p.vals[K], cfg.maxSnippets).value)))
  {
    var before := IsolatedOutcome(cfg, uid, rules, p.vals, p, p.keys, K);
    SnippetsRound(cfg, uid, rules, before, K, p.vals[K]);
  }

  /** The loop over a well-formed dict leaves a pure fragsize key of it clamped. */
  lemma LoopFragsize(cfg: Config, uid: string, rules: seq<Limit>, p: Dict, K: string)
    requires p.Valid() && K in p.vals
    requires IsFragsizeKey(K) && !IsFlKey(K) && !IsRowsKey(K) && Isolated(K)
    requires CleanKeys(cfg, uid, rules, p.vals, p, p.keys).Ok?
    ensures SafeInt(p.vals[K], cfg.maxFragsize).Ok?
    ensures CleanKeys(cfg, uid, rules, p.vals, p, p.keys).value.Get(K) == Some(Int(ClampFragsize(cfg, SafeInt(p.vals[K], cfg.maxFragsize).value)))
  {
    var before := IsolatedOutcome(cfg, uid, rules, p.vals, p, p.keys, K);
    FragsizeRound(cfg, uid, rules, before, K, p.vals[K]);
  }

  /** `rows`, and any other rows key of the request that is in no other family, leaves
      `cleanup_solr_request` as its value read as an integer (the default row count when
      it is not one, the default row count when `rows` is missing) and capped at
      `SOLR_SERVICE_MAX_ROWS`; an empty list there makes the request fail. */
  lemma CleanupRowsCapped(cfg: Config, headers: map<string, string>, rules: seq<Limit>, d: Dict, K: string)
    requires d.Valid()
    requires IsRowsKey(K) && !IsSnippetsKey(K) && !IsFragsizeKey(K) && !IsFlKey(K) && !IsTailKey(K) && K != "hl.fl" && Isolated(K)
    requires K == "rows" || K in d.vals
    requires Cleanup(cfg, headers, rules, d).Ok?
    ensures var orig := if K in d.vals then d.vals[K] else Int(cfg.defaultRows);
      && SafeInt(orig, cfg.defaultRows).Ok?
      && Cleanup(cfg, headers, rules, d).value.Get(K) == Some(Int(Min(SafeInt(orig, cfg.defaultRows).value, cfg.maxRows)))
  {
    var p := Prelude(cfg, headers, d).value;
    var orig := if K in d.vals then d.vals[K] else Int(cfg.defaultRows);
    PreludeRowsKey(cfg, headers, d, K, p, orig);
    LoopRowsCapped(cfg, UserId(headers), rules, p, K);
  }

  /** After the prelude, a rows key holds its request value, or the default row count. */
  lemma PreludeRowsKey(cfg: Config, headers: map<string, string>, d: Dict, K: string, p: Dict, orig: Value)
    requires d.Valid()
    requires IsRowsKey(K) && (K == "rows" || K in d.vals)
    requires Prelude(cfg, headers, d) == Ok(p)
    requires orig == if K in d.vals then d.vals[K] else Int(cfg.defaultRows)
    ensures p.Valid() && K in p.vals && p.vals[K] == orig
  {
    PreludeFrame(cfg, headers, d);
    PreludeValues(cfg, headers, d);
    if K != "rows" {
      RowsKeyNotPrelude(K);
      assert p.Get(K) == d.Get(K);
    }
  }

  /** A rows key other than `rows` is none of the prelude's keys. */
  lemma RowsKeyNotPrelude(K: string)
    requires IsRowsKey(K) && K != "rows"
    ensures K !in PreludeKeys
  {
    ContainsChars(K, ".rows");
    PreludeKeyDotted(K);
    if K == MaxChars {
      MaxCharsInNoFamily(K);
    }
  }

  /** A snippets key of the request that is in no other family leaves
      `cleanup_solr_request` clamped to `0..max_hl`; an empty list there makes the request
      fail. */
  lemma CleanupSnippets(cfg: Config, headers: map<string, string>, rules: seq<Limit>, d: Dict, K: string)
    requires d.Valid()
    requires IsSnippetsKey(K) && !IsFlKey(K) && !IsRowsKey(K) && Isolated(K) && K in d.vals
    requires Cleanup(cfg, headers, rules, d).Ok?
    ensures SafeInt(d.vals[K], cfg.maxSnippets).Ok?
    ensures Cleanup(cfg, headers, rules, d).value.Get(K) == Some(Int(ClampSnippets(cfg, SafeInt(d.vals[K], cfg.maxSnippets).value)))
  {
    var p := Prelude(cfg, headers, d).value;
    PreludeFrame(cfg, headers, d);
    PreludeKeyNoFamily(K);
    assert p.Get(K) == d.Get(K);
    LoopSnippets(cfg, UserId(headers), rules, p, K);
  }

  /** A fragsize key of the request that is in no other family leaves
      `cleanup_solr_request` clamped to `1..max_frag`; an empty list there makes the
      request fail. */
  lemma CleanupFragsize(cfg: Config, headers: map<string, string>, rules: seq<Limit>, d: Dict, K: string)
    requires d.Valid()
    requires IsFragsizeKey(K) && !IsFlKey(K) && !IsRowsKey(K) && Isolated(K) && K in d.vals
    requires Cleanup(cfg, headers, rules, d).Ok?
    ensures SafeInt(d.vals[K], cfg.maxFragsize).Ok?
    ensures Cleanup(cfg, headers, rules, d).value.Get(K) == Some(Int(ClampFragsize(cfg, SafeInt(d.vals[K], cfg.maxFragsize).value)))
  {
    var p := Prelude(cfg, headers, d).value;
    PreludeFrame(cfg, headers, d);
    PreludeKeyNoFamily(K);
    assert p.Get(K) == d.Get(K);
    LoopFragsize(cfg, UserId(headers), rules, p, K);
  }

  /** A key without a `.` that is none of `fl`, `rows`, `sort` and does not end in `fq`
      is written by no round of the loop. */
  lemma NeverWritten(K: string)
    requires '.' !in K && K != "fl" && K != "rows" && K != "sort" && !EndsWith(K, "fq")
    ensures forall k :: K !in Writes(k)
  {
    forall k ensures K !in Writes(k) {
      if k == K {
        NoDotWritesNothing(K);
      } else {
        IsolatedNotWritten(K, k);
      }
    }
  }

  /** What every cleaned request carries (views.py:235-248 and the loop after it): `wt` is
      `json`, the logging parameters are recorded, `start` is the one integer read from the
      request (0 when it has none), and `rows` is the requested or default row count capped
      at `SOLR_SERVICE_MAX_ROWS`. No round of the loop undoes the first three. */
  lemma CleanupShape(cfg: Config, headers: map<string, string>, rules: seq<Limit>, d: Dict)
    requires d.Valid()
    requires Cleanup(cfg, headers, rules, d).Ok?
    ensures var r := Cleanup(cfg, headers, rules, d).value;
      && r.Get("wt") == Some(Str("json"))
      && r.Get(LoggingKey) == Some(Str(LoggingParams(headers)))
      && r.Get("start") == Some(Int(if "start" in d.vals then SafeInt(d.vals["start"], 0).value else 0))
    ensures var orig := if "rows" in d.vals then d.vals["rows"] else Int(cfg.defaultRows);
      && SafeInt(orig, cfg.defaultRows).Ok?
      && Cleanup(cfg, headers, rules, d).value.Get("rows") == Some(Int(Min(SafeInt(orig, cfg.defaultRows).value, cfg.maxRows)))
  {
    var p := Prelude(cfg, headers, d).value;
    var uid := UserId(headers);
    assert CleanKeys(cfg, uid, rules, p.vals, p, p.keys) == Cleanup(cfg, headers, rules, d);
    PreludeLogging(cfg, headers, d);
    PreludeValues(cfg, headers, d);
    PreludeKeysNeverWritten();
    CleanKeysKeep(cfg, uid, rules, p.vals, p, p.keys, "wt");
    CleanKeysKeep(cfg, uid, rules, p.vals, p, p.keys, "start");
    CleanKeysKeep(cfg, uid, rules, p.vals, p, p.keys, LoggingKey);
    RowsIsPure();
    CleanupRowsCapped(cfg, headers, rules, d, "rows");
  }

  lemma PreludeKeysNeverWritten()
    ensures forall k :: "wt" !in Writes(k) && "start" !in Writes(k) && LoggingKey !in Writes(k)
  {
    assert |LoggingKey| == 23;
    NeverWritten("wt");
    NeverWritten("start");
    NeverWritten(LoggingKey);
  }

  lemma RowsIsPure()
    ensures IsRowsKey("rows") && !IsSnippetsKey("rows") && !IsFragsizeKey("rows") && !IsFlKey("rows")
    ensures !IsTailKey("rows") && "rows" != "hl.fl" && Isolated("rows")
  {
    NoDotNoFamily("rows");
  }

}
