/** Exactly which records have a text of their own, whatever order their fields are written in. */
module CanonicalTies {
  import opened Results
  import opened Sorting
  import opened Json
  import opened Canonical
  import opened CanonicalTheorems

  // ---------- Texts of lists are lists of texts ----------

  ghost predicate Readable(t: Text) {
    exists tree :: Reads(t, tree)
  }

  lemma SameEnd(t: Text, x: Text, y: Text)
    requires t + x == t + y
    ensures x == y
  {
    assert x == (t + x)[|t|..] && y == (t + y)[|t|..];
  }

  lemma SameStart(t: Text, u: Text, x: Text)
    requires t + x == u + x
    ensures t == u
  {
    assert |t| == |u|;
    assert t == (t + x)[..|t|] && u == (u + x)[..|u|];
  }

  // A readable text is told from what follows it.
  lemma TextEnds(t: Text, u: Text, x: Text, y: Text)
    requires Readable(t) && Readable(u) && Ends(x) && Ends(y) && t + x == u + y
    ensures t == u && x == y
  {
    var a :| Reads(t, a);
    var b :| Reads(u, b);
    ReadsBefore(t, a, x);
    ReadsBefore(u, b, y);
    SameStart(t, u, x);
  }

  lemma FieldEnds(p: Pair, q: Pair, x: Text, y: Text)
    requires Readable(p.text) && Readable(q.text) && Ends(x) && Ends(y) && Labelled(p) + x == Labelled(q) + y
    ensures p == q && x == y
  {
    var a :| Reads(p.text, a);
    var b :| Reads(q.text, b);
    hide Reads, Escape, ParseField;
    FieldReads(p, a, x);
    FieldReads(q, b, y);
    SameStart(Labelled(p), Labelled(q), x);
    assert Labelled(p) == (Quote(p.key) + [COLON]) + p.text && Labelled(q) == (Quote(q.key) + [COLON]) + q.text;
    SameEnd(Quote(p.key) + [COLON], p.text, q.text);
  }

  // What follows the first text of a list.
  function Following(texts: seq<Text>, close: Unit): Text
    requires texts != []
  {
    if |texts| == 1 then [close] else [COMMA] + (Join(texts[1..]) + [close])
  }

  lemma JoinFirst(texts: seq<Text>, close: Unit)
    requires texts != []
    ensures Join(texts) + [close] == texts[0] + Following(texts, close)
  {
  }

  lemma {:induction false} ItemsInjective(ts: seq<Text>, us: seq<Text>)
    requires ts != [] && us != [] && Join(ts) + [CLOSE_ARRAY] == Join(us) + [CLOSE_ARRAY]
    requires (forall i :: 0 <= i < |ts| ==> Readable(ts[i])) && (forall i :: 0 <= i < |us| ==> Readable(us[i]))
    ensures ts == us
    decreases |ts|
  {
    hide Readable;
    var x, y := Following(ts, CLOSE_ARRAY), Following(us, CLOSE_ARRAY);
    JoinFirst(ts, CLOSE_ARRAY);
    JoinFirst(us, CLOSE_ARRAY);
    TextEnds(ts[0], us[0], x, y);
    assert x[0] == y[0];
    if |ts| > 1 {
      assert x[1..] == Join(ts[1..]) + [CLOSE_ARRAY] && y[1..] == Join(us[1..]) + [CLOSE_ARRAY];
      ItemsInjective(ts[1..], us[1..]);
      assert ts == [ts[0]] + ts[1..] && us == [us[0]] + us[1..];
    }
  }

  lemma {:induction false} PairsInjective(ps: seq<Pair>, qs: seq<Pair>)
    requires ps != [] && qs != [] && Join(Map(Labelled, ps)) + [CLOSE_OBJECT] == Join(Map(Labelled, qs)) + [CLOSE_OBJECT]
    requires (forall i :: 0 <= i < |ps| ==> Readable(ps[i].text)) && (forall i :: 0 <= i < |qs| ==> Readable(qs[i].text))
    ensures ps == qs
    decreases |ps|
  {
    hide Readable, Labelled;
    var ts, us := Map(Labelled, ps), Map(Labelled, qs);
    var x, y := Following(ts, CLOSE_OBJECT), Following(us, CLOSE_OBJECT);
    JoinFirst(ts, CLOSE_OBJECT);
    JoinFirst(us, CLOSE_OBJECT);
    FieldEnds(ps[0], qs[0], x, y);
    assert x[0] == y[0];
    if |ps| > 1 {
      assert ts[1..] == Map(Labelled, ps[1..]) && us[1..] == Map(Labelled, qs[1..]);
      assert x[1..] == Join(ts[1..]) + [CLOSE_OBJECT] && y[1..] == Join(us[1..]) + [CLOSE_OBJECT];
      PairsInjective(ps[1..], qs[1..]);
      assert ps == [ps[0]] + ps[1..] && qs == [qs[0]] + qs[1..];
    }
  }

  lemma ArrayInjective(ts: seq<Text>, us: seq<Text>)
    requires |ts| == |us| && ArrayText(ts) == ArrayText(us)
    requires (forall i :: 0 <= i < |ts| ==> Readable(ts[i])) && (forall i :: 0 <= i < |us| ==> Readable(us[i]))
    ensures ts == us
  {
    hide Readable;
    if ts != [] {
      assert ArrayText(ts)[1..] == Join(ts) + [CLOSE_ARRAY] && ArrayText(us)[1..] == Join(us) + [CLOSE_ARRAY];
      ItemsInjective(ts, us);
    }
  }

  lemma ObjectInjective(ps: seq<Pair>, qs: seq<Pair>)
    requires |ps| == |qs| && ObjectText(ps) == ObjectText(qs)
    requires (forall i :: 0 <= i < |ps| ==> Readable(ps[i].text)) && (forall i :: 0 <= i < |qs| ==> Readable(qs[i].text))
    ensures ps == qs
  {
    hide Readable, Labelled;
    if ps != [] {
      assert ObjectText(ps)[1..] == Join(Map(Labelled, ps)) + [CLOSE_OBJECT] && ObjectText(qs)[1..] == Join(Map(Labelled, qs)) + [CLOSE_OBJECT];
      PairsInjective(ps, qs);
    }
  }

  lemma ValueReadable(v: Value, collate: Collation)
    requires Proper(v) && Canonicalize(v, collate).Some?
    ensures Readable(Canonicalize(v, collate).value)
  {
    TextReads(v, collate);
  }

  // The sorted pairs of an object are readable, and hold exactly its pairs.
  lemma SortedReadable(fields: seq<Field>, collate: Collation)
    requires Proper(Obj(fields)) && Pairs(fields, collate).Some?
    ensures var sorted := Sort(Pairs(fields, collate).value, ByKey(collate));
            && |sorted| == |Pairs(fields, collate).value|
            && (forall p :: p in sorted <==> p in Pairs(fields, collate).value)
            && (forall i :: 0 <= i < |sorted| ==> Readable(sorted[i].text))
  {
    var pairs := Pairs(fields, collate).value;
    var sorted := Sort(pairs, ByKey(collate));
    ByKeyTotal(collate);
    SortSorts(pairs, ByKey(collate));
    SameElements(pairs, sorted);
    forall i | 0 <= i < |sorted| ensures Readable(sorted[i].text) {
      assert sorted[i] in sorted;
      var k := PairFrom(fields, collate, sorted[i]);
      ValueReadable(fields[k].value, collate);
    }
  }

  // ---------- Two tied fields side by side ----------

  lemma {:induction false} InsertTied<T>(a: T, b: T, s: seq<T>, le: (T, T) -> bool)
    requires a != b && le(a, b) && le(b, a) && forall y :: le(a, y) == le(b, y)
    ensures Insert(a, Insert(b, s, le), le) != Insert(b, Insert(a, s, le), le)
  {
    var ab, ba := Insert(a, Insert(b, s, le), le), Insert(b, Insert(a, s, le), le);
    if s == [] || le(b, s[0]) {
      assert ab[0] == a && ba[0] == b;
    } else {
      InsertTied(a, b, s[1..], le);
      var sb, sa := Insert(b, s[1..], le), Insert(a, s[1..], le);
      assert ([s[0]] + sb)[1..] == sb && ([s[0]] + sa)[1..] == sa;
      assert ab == [s[0]] + Insert(a, sb, le) && ba == [s[0]] + Insert(b, sa, le);
      assert ab[1..] == Insert(a, sb, le) && ba[1..] == Insert(b, sa, le);
    }
  }

  lemma PairOfFirst(f: Field, rest: seq<Field>, t: Text, pairs: seq<Pair>, collate: Collation)
    requires !f.value.Undefined? && Canonicalize(f.value, collate) == Some(t) && Pairs(rest, collate) == Some(pairs)
    ensures Pairs([f] + rest, collate) == Some([Pair(f.key, t)] + pairs)
  {
    assert ([f] + rest)[1..] == rest;
  }

  lemma SortFirst<T>(x: T, s: seq<T>, le: (T, T) -> bool)
    ensures Sort([x] + s, le) == Insert(x, Sort(s, le), le)
  {
    assert ([x] + s)[1..] == s;
  }

  lemma InsertStarts<T>(x: T, s: seq<T>, le: (T, T) -> bool)
    requires x !in s
    ensures var r := Insert(x, s, le);
            && r != [] && (r[0] == x ==> r[1..] == s)
            && (r[0] != x ==> s != [] && r[0] == s[0] && r[1..] == Insert(x, s[1..], le))
  {
    if s != [] { assert s[0] in s; }
  }

  // The other elements of a list can be read off what inserting one more gives.
  lemma {:induction false} InsertTells<T>(x: T, s: seq<T>, t: seq<T>, le: (T, T) -> bool)
    requires x !in s && x !in t && Insert(x, s, le) == Insert(x, t, le)
    ensures s == t
  {
    InsertStarts(x, s, le);
    InsertStarts(x, t, le);
    var r := Insert(x, s, le);
    if r[0] != x {
      InsertTells(x, s[1..], t[1..], le);
      assert s == [s[0]] + s[1..] && t == [t[0]] + t[1..];
    }
  }

  // Writing two tied fields the other way round sorts them the other way round.
  lemma SwapShows(f: Field, g: Field, rest: seq<Field>, collate: Collation)
    requires Supported(f.value) && Supported(g.value) && Pairs(rest, collate).Some? && f.key != g.key && collate(f.key) == collate(g.key)
    ensures Pairs([f, g] + rest, collate).Some? && Pairs([g, f] + rest, collate).Some?
    ensures Sort(Pairs([f, g] + rest, collate).value, ByKey(collate)) != Sort(Pairs([g, f] + rest, collate).value, ByKey(collate))
  {
    var le := ByKey(collate);
    TextExists(f.value, collate);
    TextExists(g.value, collate);
    var p, q := Pair(f.key, Canonicalize(f.value, collate).value), Pair(g.key, Canonicalize(g.value, collate).value);
    var pairs := Pairs(rest, collate).value;
    PairOfFirst(g, rest, q.text, pairs, collate);
    PairOfFirst(f, [g] + rest, p.text, [q] + pairs, collate);
    PairOfFirst(f, rest, p.text, pairs, collate);
    PairOfFirst(g, [f] + rest, q.text, [p] + pairs, collate);
    assert [f] + ([g] + rest) == [f, g] + rest && [g] + ([f] + rest) == [g, f] + rest;
    hide Pairs, Canonicalize, Supported;
    SortFirst(q, pairs, le);
    SortFirst(p, [q] + pairs, le);
    SortFirst(p, pairs, le);
    SortFirst(q, [p] + pairs, le);
    hide Sort;
    InsertTied(p, q, Sort(pairs, le), le);
  }

  lemma SortedDiffer(fields: seq<Field>, others: seq<Field>, collate: Collation)
    requires Proper(Obj(fields)) && Proper(Obj(others)) && Pairs(fields, collate).Some? && Pairs(others, collate).Some?
    requires |Pairs(fields, collate).value| == |Pairs(others, collate).value|
    requires Sort(Pairs(fields, collate).value, ByKey(collate)) != Sort(Pairs(others, collate).value, ByKey(collate))
    ensures Canonicalize(Obj(fields), collate) != Canonicalize(Obj(others), collate)
  {
    SortedReadable(fields, collate);
    SortedReadable(others, collate);
    var a, b := Sort(Pairs(fields, collate).value, ByKey(collate)), Sort(Pairs(others, collate).value, ByKey(collate));
    if ObjectText(a) == ObjectText(b) { ObjectInjective(a, b); }
  }

  // ---------- The same fields in another order ----------

  lemma WithoutAt<T>(s: seq<T>, k: nat)
    requires k < |s|
    ensures |Without(s, k)| == |s| - 1
    ensures forall i :: 0 <= i < |s| - 1 ==> Without(s, k)[i] == s[if i < k then i else i + 1]
  {
  }

  lemma WithoutHas<T>(s: seq<T>, k: nat, x: T)
    requires k < |s|
    ensures x in Without(s, k) ==> x in s
    ensures x in s && x != s[k] ==> x in Without(s, k)
  {
    assert s == s[..k] + [s[k]] + s[k + 1..];
  }

  lemma WithoutDistinct(fields: seq<Field>, k: nat)
    requires DistinctKeys(fields) && k < |fields|
    ensures DistinctKeys(Without(fields, k)) && forall i :: 0 <= i < |fields| - 1 ==> |Without(fields, k)| == |fields| - 1 && Without(fields, k)[i].key != fields[k].key
  {
    WithoutAt(fields, k);
    hide Without;
  }

  lemma WithoutField(fields: seq<Field>, k: nat)
    requires DistinctKeys(fields) && k < |fields|
    ensures var rest := Without(fields, k);
            && DistinctKeys(rest) && (forall f :: f in rest <==> f in fields && f != fields[k])
            && (forall f <- rest :: f.key != fields[k].key)
  {
    WithoutAt(fields, k);
    WithoutDistinct(fields, k);
    hide Without, DistinctKeys;
    var rest := Without(fields, k);
    forall f ensures (f in rest <==> f in fields && f != fields[k]) && (f in rest ==> f.key != fields[k].key) {
      WithoutHas(fields, k, f);
      if f in rest { var i :| 0 <= i < |rest| && rest[i] == f; }
    }
  }

  lemma PutFirst(f: Field, rest: seq<Field>)
    requires DistinctKeys(rest) && forall x <- rest :: x.key != f.key
    ensures DistinctKeys([f] + rest)
  {
    forall j | 0 <= j < |rest| ensures rest[j].key != f.key { assert rest[j] in rest; }
  }

  lemma SameFields(fields: seq<Field>, others: seq<Field>)
    requires DistinctKeys(fields) && DistinctKeys(others) && forall f :: f in fields <==> f in others
    ensures FieldMeanings(fields) == FieldMeanings(others)
  {
    forall key ensures key in FieldMeanings(fields) ==> key in FieldMeanings(others) && FieldMeanings(others)[key] == FieldMeanings(fields)[key] {
      if key in FieldMeanings(fields) { FieldCarried(fields, others, key); }
    }
    forall key ensures key in FieldMeanings(others) ==> key in FieldMeanings(fields) {
      if key in FieldMeanings(others) { FieldCarried(others, fields, key); }
    }
  }

  lemma FieldCarried(fields: seq<Field>, others: seq<Field>, key: Text)
    requires DistinctKeys(fields) && DistinctKeys(others) && (forall f :: f in fields ==> f in others) && key in FieldMeanings(fields)
    ensures key in FieldMeanings(others) && FieldMeanings(others)[key] == FieldMeanings(fields)[key]
  {
    var i := FieldFrom(fields, key);
    FieldMeans(fields, i, key);
    assert fields[i] in others;
    var j :| 0 <= j < |others| && others[j] == fields[i];
    FieldMeans(others, j, key);
  }

  lemma SameFieldsProper(fields: seq<Field>, others: seq<Field>)
    requires Proper(Obj(fields)) && Supported(Obj(fields)) && DistinctKeys(others) && InOrder(others) && forall f :: f in others ==> f in fields
    ensures Proper(Obj(others)) && Supported(Obj(others))
  {
    forall i | 0 <= i < |others| ensures Proper(others[i].value) && (others[i].value.Undefined? || Supported(others[i].value)) {
      assert others[i] in others && others[i] in fields;
    }
  }

  // Whether others are the same fields in an order entries can have, sorting differently.
  ghost predicate Reorders(fields: seq<Field>, others: seq<Field>, collate: Collation) {
    && DistinctKeys(others) && InOrder(others) && (forall f :: f in others <==> f in fields) && |others| == |fields|
    && Pairs(fields, collate).Some? && Pairs(others, collate).Some?
    && |Pairs(others, collate).value| == |Pairs(fields, collate).value|
    && Sort(Pairs(others, collate).value, ByKey(collate)) != Sort(Pairs(fields, collate).value, ByKey(collate))
  }

  // After a key that is no array index come only such keys, in any order.
  lemma NoIndices(fields: seq<Field>, others: seq<Field>)
    requires fields != [] && InOrder(fields) && IndexOf(fields[0].key).None? && forall f :: f in others ==> f in fields
    ensures InOrder(others)
  {
    forall i | 0 <= i < |others| ensures Rank(others[i].key) == MAX_INDEX + 1 {
      assert others[i] in others && others[i] in fields;
      var k :| 0 <= k < |fields| && fields[k] == others[i];
      if IndexOf(fields[k].key).Some? { IndexText(fields[k].key); }
    }
    hide Rank;
  }

  lemma SameCounts(fields: seq<Field>, others: seq<Field>, collate: Collation)
    requires DistinctKeys(fields) && DistinctKeys(others) && (forall f :: f in others <==> f in fields)
    requires Pairs(fields, collate).Some? && Pairs(others, collate).Some?
    ensures |Pairs(others, collate).value| == |Pairs(fields, collate).value|
  {
    var a, b := Pairs(fields, collate).value, Pairs(others, collate).value;
    PairKeys(fields, collate);
    PairKeys(others, collate);
    forall p | p in a ensures p in b { PairCarried(fields, others, p, collate); }
    forall p | p in b ensures p in a { PairCarried(others, fields, p, collate); }
    SameBag(a, b);
    assert |multiset(a)| == |a| && |multiset(b)| == |b|;
  }

  lemma PairCarried(fields: seq<Field>, others: seq<Field>, p: Pair, collate: Collation)
    requires (forall f :: f in fields ==> f in others) && Pairs(fields, collate).Some? && Pairs(others, collate).Some?
    requires p in Pairs(fields, collate).value
    ensures p in Pairs(others, collate).value
  {
    var i := PairFrom(fields, collate, p);
    assert fields[i] in others;
    var j :| 0 <= j < |others| && others[j] == fields[i];
    PairOf(others, collate, j);
  }

  // The same fields with the first and another one in front, either way round.
  lemma BroughtFirst(fields: seq<Field>, j: nat) returns (rest: seq<Field>)
    requires DistinctKeys(fields) && InOrder(fields) && 0 < j < |fields| && IndexOf(fields[0].key).None?
    ensures forall x <- rest :: x in fields
    ensures var fg, gf := [fields[0], fields[j]] + rest, [fields[j], fields[0]] + rest;
            && |fg| == |gf| == |fields| && DistinctKeys(fg) && DistinctKeys(gf) && InOrder(fg) && InOrder(gf)
            && (forall x :: x in fg <==> x in fields) && (forall x :: x in gf <==> x in fields)
  {
    var f, g := fields[0], fields[j];
    rest := Without(fields[1..], j - 1);
    WithoutField(fields[1..], j - 1);
    WithoutAt(fields[1..], j - 1);
    FrontHas(fields, j, rest);
    forall x | x in fields[1..] ensures x.key != f.key { }
    hide Without, IndexOf, DistinctKeys, InOrder;
    FrontKeys(f, g, rest);
    FrontKeys(g, f, rest);
    NoIndices(fields, [f, g] + rest);
    NoIndices(fields, [g, f] + rest);
  }

  lemma FrontHas(fields: seq<Field>, j: nat, rest: seq<Field>)
    requires 0 < j < |fields| && forall x :: x in rest <==> x in fields[1..] && x != fields[j]
    ensures var f, g := fields[0], fields[j];
      forall x :: (x in fields <==> x == f || x == g || x in rest) && (x in [f, g] + rest <==> x in fields) && (x in [g, f] + rest <==> x in fields)
  {
    assert fields[j] == fields[1..][j - 1] && fields[j] in fields[1..];
    assert fields == [fields[0]] + fields[1..];
  }

  lemma FrontKeys(f: Field, g: Field, rest: seq<Field>)
    requires DistinctKeys(rest) && f.key != g.key && forall x <- rest :: x.key != f.key && x.key != g.key
    ensures DistinctKeys([f, g] + rest)
  {
    PutFirst(g, rest);
    PutFirst(f, [g] + rest);
    assert [f] + ([g] + rest) == [f, g] + rest;
  }

  predicate Writable(fields: seq<Field>) {
    DistinctKeys(fields) && InOrder(fields) && forall f <- fields :: f.value.Undefined? || Supported(f.value)
  }

  lemma WritableRest(e: Field, fields: seq<Field>)
    requires Writable([e] + fields)
    ensures Writable(fields) && (e.value.Undefined? || Supported(e.value))
  {
    assert ([e] + fields)[1..] == fields && ([e] + fields)[0] == e;
    hide Supported, Rank;
    forall i, j | 0 <= i < j < |fields| ensures fields[i].key != fields[j].key && Rank(fields[i].key) <= Rank(fields[j].key) {
      assert ([e] + fields)[i + 1] == fields[i] && ([e] + fields)[j + 1] == fields[j];
    }
  }

  // The first field ties a later one.
  lemma TieFirst(fields: seq<Field>, j: nat, collate: Collation) returns (others: seq<Field>)
    requires Writable(fields) && 0 < j < |fields| && Tied(fields[0], fields[j], collate)
    ensures Reorders(fields, others, collate)
  {
    var f, g := fields[0], fields[j];
    assert f.key != g.key;
    var rest := BroughtFirst(fields, j);
    var fg, gf := [f, g] + rest, [g, f] + rest;
    PairsExist(fields, collate);
    forall k | 0 <= k < |rest| ensures rest[k].value.Undefined? || Supported(rest[k].value) { assert rest[k] in rest && rest[k] in fields; }
    PairsExist(rest, collate);
    hide InOrder, DistinctKeys, Supported, Pairs, Sort;
    SwapShows(f, g, rest, collate);
    others := if Sort(Pairs(fg, collate).value, ByKey(collate)) != Sort(Pairs(fields, collate).value, ByKey(collate)) then fg else gf;
    SameCounts(fields, others, collate);
  }

  // One more field in front of both keeps their sorted pairs apart.
  lemma FieldBefore(e: Field, fields: seq<Field>, others: seq<Field>, collate: Collation)
    requires Reorders(fields, others, collate) && Writable([e] + fields)
    ensures Reorders([e] + fields, [e] + others, collate)
  {
    WritableRest(e, fields);
    var le := ByKey(collate);
    assert ([e] + fields)[1..] == fields && ([e] + others)[1..] == others;
    BeforeKeys(e, fields, others);
    if !e.value.Undefined? {
      TextExists(e.value, collate);
      var t := Canonicalize(e.value, collate).value;
      var p, a, b := Pair(e.key, t), Pairs(fields, collate).value, Pairs(others, collate).value;
      PairOfFirst(e, fields, t, a, collate);
      PairOfFirst(e, others, t, b, collate);
      NoSuchPair(fields, p, collate);
      NoSuchPair(others, p, collate);
      hide Canonicalize, Supported, InOrder, DistinctKeys, Pairs;
      SortFirst(p, a, le);
      SortFirst(p, b, le);
      ByKeyTotal(collate);
      SortSorts(a, le);
      SortSorts(b, le);
      SameElements(a, Sort(a, le));
      SameElements(b, Sort(b, le));
      if Insert(p, Sort(a, le), le) == Insert(p, Sort(b, le), le) { InsertTells(p, Sort(a, le), Sort(b, le), le); }
    }
  }

  lemma BeforeKeys(e: Field, fields: seq<Field>, others: seq<Field>)
    requires DistinctKeys([e] + fields) && InOrder([e] + fields) && DistinctKeys(others) && InOrder(others) && forall f :: f in others <==> f in fields
    ensures DistinctKeys([e] + others) && InOrder([e] + others)
    ensures (forall f <- fields :: f.key != e.key) && (forall f <- others :: f.key != e.key)
    ensures forall f :: f in [e] + others <==> f in [e] + fields
  {
    hide Rank;
    forall f | f in fields ensures f.key != e.key && Rank(e.key) <= Rank(f.key) {
      var k :| 0 <= k < |fields| && fields[k] == f;
      assert ([e] + fields)[0] == e && ([e] + fields)[k + 1] == f;
    }
    PutFirst(e, others);
    forall j | 0 <= j < |others| ensures Rank(e.key) <= Rank(others[j].key) { assert others[j] in others; }
  }

  lemma NoSuchPair(fields: seq<Field>, p: Pair, collate: Collation)
    requires Pairs(fields, collate).Some? && forall f <- fields :: f.key != p.key
    ensures p !in Pairs(fields, collate).value
  {
    hide Canonicalize;
    if p in Pairs(fields, collate).value {
      var k := PairFrom(fields, collate, p);
      KeyIn(fields, k, p.key);
    }
  }

  lemma KeyIn(fields: seq<Field>, k: nat, key: Text)
    requires k < |fields| && forall f <- fields :: f.key != key
    ensures fields[k].key != key
  {
    assert fields[k] in fields;
  }

  lemma {:induction false} TieLists(fields: seq<Field>, i: nat, j: nat, collate: Collation) returns (others: seq<Field>)
    requires Writable(fields) && i < j < |fields| && Tied(fields[i], fields[j], collate)
    ensures Reorders(fields, others, collate)
  {
    hide Reorders, Tied, Writable;
    if i == 0 {
      others := TieFirst(fields, j, collate);
    } else {
      var e, later := fields[0], fields[1..];
      assert fields == [e] + later;
      WritableRest(e, later);
      var tail := TieLists(later, i - 1, j - 1, collate);
      FieldBefore(e, later, tail, collate);
      others := [e] + tail;
    }
  }

  // A tie between two fields of an object lets it be written with another text.
  lemma TopTie(fields: seq<Field>, i: nat, j: nat, collate: Collation) returns (w: Value)
    requires Proper(Obj(fields)) && Supported(Obj(fields)) && i < j < |fields| && Tied(fields[i], fields[j], collate)
    ensures Proper(w) && Supported(w) && Meaning(w) == Meaning(Obj(fields)) && Canonicalize(w, collate) != Canonicalize(Obj(fields), collate)
  {
    assert Writable(fields);
    var others := TieLists(fields, i, j, collate);
    SameFieldsProper(fields, others);
    SameFields(fields, others);
    SortedDiffer(fields, others, collate);
    w := Obj(others);
  }

  // ---------- A tie further down ----------

  lemma {:induction false} OneFieldMeans(fields: seq<Field>, i: nat, x: Value)
    requires i < |fields| && !fields[i].value.Undefined? && !x.Undefined? && Meaning(x) == Meaning(fields[i].value)
    ensures FieldMeanings(fields[i := Field(fields[i].key, x)]) == FieldMeanings(fields)
  {
    var others := fields[i := Field(fields[i].key, x)];
    hide Meaning;
    if i > 0 {
      assert others[1..] == fields[1..][i - 1 := Field(fields[i].key, x)];
      OneFieldMeans(fields[1..], i - 1, x);
    } else {
      assert others[1..] == fields[1..];
    }
  }

  lemma NotAPair(fields: seq<Field>, i: nat, p: Pair, collate: Collation)
    requires DistinctKeys(fields) && i < |fields| && Pairs(fields, collate).Some?
    requires fields[i].key == p.key && Canonicalize(fields[i].value, collate) != Some(p.text)
    ensures p !in Pairs(fields, collate).value
  {
    hide Pairs, Canonicalize;
    if p in Pairs(fields, collate).value {
      var k := PairFrom(fields, collate, p);
      OneIndex(fields, i, k);
    }
  }

  lemma OneIndex(fields: seq<Field>, i: nat, k: nat)
    requires DistinctKeys(fields) && i < |fields| && k < |fields| && fields[i].key == fields[k].key
    ensures i == k
  {
  }

  lemma FieldTie(fields: seq<Field>, i: nat, x: Value, collate: Collation) returns (w: Value)
    requires Proper(Obj(fields)) && Supported(Obj(fields)) && i < |fields| && !fields[i].value.Undefined?
    requires Proper(x) && Supported(x) && Meaning(x) == Meaning(fields[i].value) && Canonicalize(x, collate) != Canonicalize(fields[i].value, collate)
    ensures Proper(w) && Supported(w) && Meaning(w) == Meaning(Obj(fields)) && Canonicalize(w, collate) != Canonicalize(Obj(fields), collate)
  {
    var key := fields[i].key;
    var others := fields[i := Field(key, x)];
    w := Obj(others);
    OneFieldMeans(fields, i, x);
    PairsExist(fields, collate);
    PairsExist(others, collate);
    PairOf(fields, collate, i);
    TextExists(x, collate);
    SortedReadable(fields, collate);
    SortedReadable(others, collate);
    var a, b := Sort(Pairs(fields, collate).value, ByKey(collate)), Sort(Pairs(others, collate).value, ByKey(collate));
    var p := Pair(key, Canonicalize(fields[i].value, collate).value);
    SameCount(fields, i, x, collate);
    NotAPair(others, i, p, collate);
    hide Pairs, Sort, Canonicalize, Proper, Supported, Meaning, ObjectText;
    assert p in a;
    if ObjectText(a) == ObjectText(b) { ObjectInjective(a, b); }
  }

  lemma {:induction false} SameCount(fields: seq<Field>, i: nat, x: Value, collate: Collation)
    requires i < |fields| && !fields[i].value.Undefined? && !x.Undefined?
    requires var others := fields[i := Field(fields[i].key, x)]; Pairs(fields, collate).Some? && Pairs(others, collate).Some?
    ensures |Pairs(fields[i := Field(fields[i].key, x)], collate).value| == |Pairs(fields, collate).value|
  {
    var others := fields[i := Field(fields[i].key, x)];
    if i > 0 {
      assert others[1..] == fields[1..][i - 1 := Field(fields[i].key, x)];
      SameCount(fields[1..], i - 1, x, collate);
    } else {
      assert others[1..] == fields[1..];
    }
  }

  lemma {:induction false} TextAt(items: seq<Value>, collate: Collation, i: nat)
    requires Texts(items, collate).Some? && i < |items|
    ensures Canonicalize(items[i], collate) == Some(Texts(items, collate).value[i])
  {
    if i > 0 { TextAt(items[1..], collate, i - 1); }
  }

  lemma TextsReadable(items: seq<Value>, collate: Collation)
    requires Texts(items, collate).Some? && forall i :: 0 <= i < |items| ==> Proper(items[i])
    ensures forall i :: 0 <= i < |items| ==> Readable(Texts(items, collate).value[i])
  {
    forall i | 0 <= i < |items| ensures Readable(Texts(items, collate).value[i]) {
      TextAt(items, collate, i);
      ValueReadable(items[i], collate);
    }
  }

  lemma ItemReplaced(items: seq<Value>, i: nat, x: Value)
    requires Proper(Arr(items)) && Supported(Arr(items)) && i < |items| && Proper(x) && Supported(x) && Meaning(x) == Meaning(items[i])
    ensures var w := Arr(items[i := x]); Proper(w) && Supported(w) && Meaning(w) == Meaning(Arr(items))
  {
    assert Meanings(items[i := x]) == Meanings(items);
  }

  lemma TextsDiffer(items: seq<Value>, others: seq<Value>, i: nat, collate: Collation)
    requires |items| == |others| && i < |items| && Texts(items, collate).Some? && Texts(others, collate).Some?
    requires (forall k :: 0 <= k < |items| ==> Proper(items[k])) && (forall k :: 0 <= k < |others| ==> Proper(others[k]))
    requires Canonicalize(items[i], collate) != Canonicalize(others[i], collate)
    ensures ArrayText(Texts(items, collate).value) != ArrayText(Texts(others, collate).value)
  {
    TextAt(items, collate, i);
    TextAt(others, collate, i);
    TextsReadable(items, collate);
    TextsReadable(others, collate);
    hide Readable, Texts, Canonicalize, Proper;
    var a, b := Texts(items, collate).value, Texts(others, collate).value;
    if ArrayText(a) == ArrayText(b) { ArrayInjective(a, b); }
  }

  lemma ItemTie(items: seq<Value>, i: nat, x: Value, collate: Collation) returns (w: Value)
    requires Proper(Arr(items)) && Supported(Arr(items)) && i < |items|
    requires Proper(x) && Supported(x) && Meaning(x) == Meaning(items[i]) && Canonicalize(x, collate) != Canonicalize(items[i], collate)
    ensures Proper(w) && Supported(w) && Meaning(w) == Meaning(Arr(items)) && Canonicalize(w, collate) != Canonicalize(Arr(items), collate)
  {
    w := Arr(items[i := x]);
    ItemReplaced(items, i, x);
    TextsExist(items, collate);
    TextsExist(items[i := x], collate);
    TextsDiffer(items, items[i := x], i, collate);
    hide Meaning, ArrayText;
  }

  // A tie anywhere inside a value lets the same data be written with another text.
  lemma {:induction false} TieGivesOther(v: Value, collate: Collation) returns (w: Value)
    requires Proper(v) && Supported(v) && !TellsApart(v, collate)
    ensures Proper(w) && Supported(w) && Meaning(w) == Meaning(v) && Canonicalize(w, collate) != Canonicalize(v, collate)
    decreases v
  {
    match v
    case Arr(items) =>
      var i :| 0 <= i < |items| && !TellsApart(items[i], collate);
      var x := TieGivesOther(items[i], collate);
      w := ItemTie(items, i, x, collate);
    case Obj(fields) =>
      if NoTies(fields, collate) {
        var i :| 0 <= i < |fields| && !TellsApart(fields[i].value, collate);
        var x := TieGivesOther(fields[i].value, collate);
        w := FieldTie(fields, i, x, collate);
      } else {
        var i, j :| 0 <= i < j < |fields| && Tied(fields[i], fields[j], collate);
        w := TopTie(fields, i, j, collate);
      }
  }

  // ---------- The exact condition ----------

  // However the same data are written, they have this value's text, exactly when no two
  // defined keys of one object inside it tie, array indices apart.
  lemma OneTextFor(v: Value, collate: Collation)
    requires Proper(v) && Supported(v)
    ensures TellsApart(v, collate) <==>
      forall w :: Proper(w) && Supported(w) && Meaning(w) == Meaning(v) ==> Canonicalize(w, collate) == Canonicalize(v, collate)
  {
    if TellsApart(v, collate) {
      forall w | Proper(w) && Supported(w) && Meaning(w) == Meaning(v) ensures Canonicalize(w, collate) == Canonicalize(v, collate) {
        SameMeaningSameText(v, w, collate);
      }
    } else {
      var w := TieGivesOther(v, collate);
    }
  }

  // The collation never ties two different keys, array indices apart.
  ghost predicate Separates(collate: Collation) {
    forall a, b :: IndexOf(a).None? && IndexOf(b).None? && collate(a) == collate(b) ==> a == b
  }

  lemma {:induction false} SeparatesTells(v: Value, collate: Collation)
    requires Separates(collate) && Proper(v)
    ensures TellsApart(v, collate)
    decreases v
  {
    match v
    case Arr(items) => forall i | 0 <= i < |items| ensures TellsApart(items[i], collate) { SeparatesTells(items[i], collate); }
    case Obj(fields) => forall i | 0 <= i < |fields| ensures TellsApart(fields[i].value, collate) { SeparatesTells(fields[i].value, collate); }
    case _ =>
  }

  // Every record has one text exactly when the collation ties no two keys, array indices apart.
  lemma OneTextIff(collate: Collation)
    ensures Separates(collate) <==>
      forall v, w :: Proper(v) && Proper(w) && Supported(v) && Supported(w) && Meaning(v) == Meaning(w)
        ==> Canonicalize(v, collate) == Canonicalize(w, collate)
  {
    if Separates(collate) {
      forall v, w | Proper(v) && Proper(w) && Supported(v) && Supported(w) && Meaning(v) == Meaning(w)
        ensures Canonicalize(v, collate) == Canonicalize(w, collate)
      {
        SeparatesTells(v, collate);
        SameMeaningSameText(v, w, collate);
      }
    } else {
      var a, b :| IndexOf(a).None? && IndexOf(b).None? && collate(a) == collate(b) && a != b;
      TiedKeys(a, b, collate);
      var v := Obj([Field(a, Null), Field(b, Null)]);
      var w := TieGivesOther(v, collate);
    }
  }

  lemma TiedKeys(a: Text, b: Text, collate: Collation)
    requires IndexOf(a).None? && IndexOf(b).None? && collate(a) == collate(b) && a != b
    ensures var v := Obj([Field(a, Null), Field(b, Null)]); Proper(v) && Supported(v) && !TellsApart(v, collate)
  {
    hide IndexOf;
    var f, g := Field(a, Null), Field(b, Null);
    assert [f, g][0] == f && [f, g][1] == g && Tied(f, g, collate) && !NoTies([f, g], collate);
  }
}
