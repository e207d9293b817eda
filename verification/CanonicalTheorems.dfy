/** What the canonical text guarantees. */
module CanonicalTheorems {
  // Equal texts mean equal data, equal data without ties have equal texts, the text survives
  // UTF-8, and a signature over it covers every field but the signature itself.
  import opened Results
  import opened Sorting
  import opened Json
  import opened Canonical

  // ---------- Different data never share a text ----------

  lemma SameTextSameMeaning(v: Value, w: Value, collate: Collation)
    requires Proper(v) && Proper(w) && Canonicalize(v, collate).Some?
    requires Canonicalize(v, collate) == Canonicalize(w, collate)
    ensures Meaning(v) == Meaning(w)
  {
    TextExists(v, collate);
    TextExists(w, collate);
    RoundTrip(v, collate);
    RoundTrip(w, collate);
  }

  // ---------- The same data have one text ----------

  // No two defined keys of one object tie, array indices apart, at any depth: the place of an
  // array index is fixed.
  predicate TellsApart(v: Value, collate: Collation) {
    match v
    case Arr(items) => forall i :: 0 <= i < |items| ==> TellsApart(items[i], collate)
    case Obj(fields) => NoTies(fields, collate) && forall i :: 0 <= i < |fields| ==> TellsApart(fields[i].value, collate)
    case _ => true
  }

  predicate Tied(f: Field, g: Field, collate: Collation) {
    && !f.value.Undefined? && !g.value.Undefined? && IndexOf(f.key).None? && IndexOf(g.key).None?
    && collate(f.key) == collate(g.key)
  }

  predicate NoTies(fields: seq<Field>, collate: Collation) {
    forall i, j :: 0 <= i < j < |fields| ==> !Tied(fields[i], fields[j], collate)
  }

  // By the collation, and among tied keys by the order of entries.
  function ByKeyThenRank(collate: Collation): (Pair, Pair) -> bool {
    (a: Pair, b: Pair) => collate(a.key) < collate(b.key) || (collate(a.key) == collate(b.key) && Rank(a.key) <= Rank(b.key))
  }

  predicate PairsInOrder(pairs: seq<Pair>) {
    forall i, j :: 0 <= i < j < |pairs| ==> Rank(pairs[i].key) <= Rank(pairs[j].key)
  }

  // No two pairs are level in both the collation and the order of entries.
  predicate PairsApart(pairs: seq<Pair>, collate: Collation) {
    forall i, j :: 0 <= i < j < |pairs| ==> collate(pairs[i].key) != collate(pairs[j].key) || Rank(pairs[i].key) != Rank(pairs[j].key)
  }

  lemma {:induction false} PairsOrdered(fields: seq<Field>, collate: Collation)
    requires InOrder(fields) && Pairs(fields, collate).Some?
    ensures PairsInOrder(Pairs(fields, collate).value)
  {
    if fields != [] {
      PairsOrdered(fields[1..], collate);
      if !fields[0].value.Undefined? {
        var pairs, rest := Pairs(fields, collate).value, Pairs(fields[1..], collate).value;
        assert pairs == [pairs[0]] + rest;
        forall j | 0 <= j < |rest| ensures Rank(fields[0].key) <= Rank(rest[j].key) {
          var k := PairFrom(fields[1..], collate, rest[j]);
          assert fields[k + 1] == fields[1..][k];
        }
      }
    }
  }

  lemma {:induction false} PairsToldApart(fields: seq<Field>, collate: Collation)
    requires DistinctKeys(fields) && NoTies(fields, collate) && Pairs(fields, collate).Some?
    ensures PairsApart(Pairs(fields, collate).value, collate)
  {
    if fields != [] {
      PairsToldApart(fields[1..], collate);
      if !fields[0].value.Undefined? {
        var pairs, rest := Pairs(fields, collate).value, Pairs(fields[1..], collate).value;
        assert pairs == [pairs[0]] + rest;
        forall j | 0 <= j < |rest| ensures collate(fields[0].key) != collate(rest[j].key) || Rank(fields[0].key) != Rank(rest[j].key) {
          var k := PairFrom(fields[1..], collate, rest[j]);
          assert fields[k + 1] == fields[1..][k] && !Tied(fields[0], fields[k + 1], collate);
          if Rank(fields[0].key) == Rank(rest[j].key) { RankTells(fields[0].key, rest[j].key); }
        }
      }
    }
  }

  lemma {:induction false} PairKeys(fields: seq<Field>, collate: Collation)
    requires DistinctKeys(fields) && Pairs(fields, collate).Some?
    ensures forall i, j :: 0 <= i < j < |Pairs(fields, collate).value| ==> Pairs(fields, collate).value[i].key != Pairs(fields, collate).value[j].key
  {
    if fields != [] {
      PairKeys(fields[1..], collate);
      if !fields[0].value.Undefined? {
        var pairs, rest := Pairs(fields, collate).value, Pairs(fields[1..], collate).value;
        assert pairs == [pairs[0]] + rest;
        forall j | 0 <= j < |rest| ensures fields[0].key != rest[j].key {
          var k := PairFrom(fields[1..], collate, rest[j]);
          assert fields[k + 1] == fields[1..][k];
        }
      }
    }
  }

  lemma {:induction false} OneEach<T>(s: seq<T>, x: T)
    requires forall i, j :: 0 <= i < j < |s| ==> s[i] != s[j]
    ensures multiset(s)[x] == if x in s then 1 else 0
  {
    if s != [] {
      OneEach(s[1..], x);
      assert s == [s[0]] + s[1..];
    }
  }

  lemma SameBag<T(!new)>(a: seq<T>, b: seq<T>)
    requires forall i, j :: 0 <= i < j < |a| ==> a[i] != a[j]
    requires forall i, j :: 0 <= i < j < |b| ==> b[i] != b[j]
    requires forall x :: x in a <==> x in b
    ensures multiset(a) == multiset(b)
  {
    forall x: T ensures multiset(a)[x] == multiset(b)[x] {
      OneEach(a, x);
      OneEach(b, x);
    }
  }

  lemma RankOrders(collate: Collation)
    ensures TotalOrder(ByKeyThenRank(collate))
  {
  }

  // A stable sort of pairs in the order of entries respects that order among ties.
  lemma SortByRank(pairs: seq<Pair>, collate: Collation)
    requires PairsInOrder(pairs)
    ensures Sort(pairs, ByKey(collate)) == Sort(pairs, ByKeyThenRank(collate))
  {
    ByKeyTotal(collate);
    SortAgrees(pairs, ByKey(collate), ByKeyThenRank(collate));
  }

  // Two such lists with the same elements, none of them level, sort into the same list.
  lemma SamePairsSameOrder(a: seq<Pair>, b: seq<Pair>, collate: Collation)
    requires (forall p :: p in a <==> p in b) && PairsInOrder(a) && PairsInOrder(b) && PairsApart(a, collate)
    requires forall i, j :: 0 <= i < j < |b| ==> b[i].key != b[j].key
    ensures Sort(a, ByKey(collate)) == Sort(b, ByKey(collate))
  {
    var le := ByKeyThenRank(collate);
    SortByRank(a, collate);
    SortByRank(b, collate);
    SameBag(a, b);
    RankOrders(collate);
    SortSorts(a, le);
    SortSorts(b, le);
    var sorted := Sort(a, le);
    SameElements(a, sorted);
    hide Rank;
    forall x, y | x in sorted && y in sorted && le(x, y) && le(y, x) ensures x == y {
      assert collate(x.key) == collate(y.key) && Rank(x.key) == Rank(y.key) && x in a && y in a;
      var i :| 0 <= i < |a| && a[i] == x;
      var j :| 0 <= j < |a| && a[j] == y;
      assert !(i < j) && !(j < i);
    }
    SortedUnique(sorted, Sort(b, le), le);
  }

  // Insertion order and undefined fields leave no trace in the text, at any depth.
  lemma {:induction false} SameMeaningSameText(v: Value, w: Value, collate: Collation)
    requires TellsApart(v, collate) && Proper(v) && Proper(w) && Supported(v) && Supported(w)
    requires Meaning(v) == Meaning(w)
    ensures Canonicalize(v, collate) == Canonicalize(w, collate)
    decreases v, 1
  {
    match v
    case Arr(items) => SameItems(items, w.items, collate);
    case Obj(fields) =>
      var others := w.fields;
      PairsExist(fields, collate);
      PairsExist(others, collate);
      var a, b := Pairs(fields, collate).value, Pairs(others, collate).value;
      forall p | p in a ensures p in b {
        var i := PairFrom(fields, collate, p);
        FieldMeans(fields, i, p.key);
        var j := FieldFrom(others, p.key);
        FieldMeans(others, j, p.key);
        SameMeaningSameText(fields[i].value, others[j].value, collate);
        PairOf(others, collate, j);
      }
      forall p | p in b ensures p in a {
        var j := PairFrom(others, collate, p);
        FieldMeans(others, j, p.key);
        var i := FieldFrom(fields, p.key);
        FieldMeans(fields, i, p.key);
        SameMeaningSameText(fields[i].value, others[j].value, collate);
        PairOf(fields, collate, i);
      }
      PairsToldApart(fields, collate);
      PairsOrdered(fields, collate);
      PairsOrdered(others, collate);
      PairKeys(others, collate);
      SamePairsSameOrder(a, b, collate);
    case _ =>
  }

  lemma {:induction false} SameItems(items: seq<Value>, others: seq<Value>, collate: Collation)
    requires Meanings(items) == Meanings(others)
    requires forall i :: 0 <= i < |items| ==> Proper(items[i]) && Supported(items[i]) && TellsApart(items[i], collate)
    requires forall i :: 0 <= i < |others| ==> Proper(others[i]) && Supported(others[i])
    ensures Texts(items, collate) == Texts(others, collate)
    decreases items, 0
  {
    if items != [] {
      assert Meanings(items)[0] == Meanings(others)[0];
      assert Meanings(items[1..]) == Meanings(items)[1..] == Meanings(others)[1..] == Meanings(others[1..]);
      SameMeaningSameText(items[0], others[0], collate);
      SameItems(items[1..], others[1..], collate);
    } else {
      assert |others| == |Meanings(others)| == 0;
    }
  }

  // ---------- What the text of an object is ----------

  lemma {:induction false} InsertPlace<T>(x: T, s: seq<T>, le: (T, T) -> bool) returns (i: nat)
    ensures i <= |s| && Insert(x, s, le) == Put(s, i, x)
    ensures (forall m :: 0 <= m < i ==> !le(x, s[m])) && (i < |s| ==> le(x, s[i]))
  {
    if s == [] || le(x, s[0]) {
      i := 0;
    } else {
      var j := InsertPlace(x, s[1..], le);
      i := j + 1;
      assert s == [s[0]] + s[1..];
      forall m | 0 <= m < i ensures !le(x, s[m]) { if 0 < m { assert s[m] == s[1..][m - 1]; } }
    }
  }

  // The pairs of the fields at the given places.
  function PairsAt(fields: seq<Field>, places: seq<nat>, collate: Collation): seq<Pair>
    requires forall i :: 0 <= i < |places| ==> places[i] < |fields| && Canonicalize(fields[places[i]].value, collate).Some?
  {
    seq(|places|, i requires 0 <= i < |places| => Pair(fields[places[i]].key, Canonicalize(fields[places[i]].value, collate).value))
  }

  ghost predicate PlacesOk(fields: seq<Field>, places: seq<nat>, from: nat, collate: Collation) {
    forall i :: 0 <= i < |places| ==>
      from <= places[i] < |fields| && !fields[places[i]].value.Undefined? && Canonicalize(fields[places[i]].value, collate).Some?
  }

  ghost predicate PlacesAll(fields: seq<Field>, places: seq<nat>, from: nat) {
    forall j :: from <= j < |fields| && !fields[j].value.Undefined? ==> j in places
  }

  // Of two places the first collates lower, or as low and earlier.
  predicate Precedes(fields: seq<Field>, i: nat, k: nat, collate: Collation)
    requires i < |fields| && k < |fields|
  {
    collate(fields[i].key) < collate(fields[k].key) || (collate(fields[i].key) == collate(fields[k].key) && i < k)
  }

  ghost predicate PlacesOrdered(fields: seq<Field>, places: seq<nat>, collate: Collation)
    requires forall i :: 0 <= i < |places| ==> places[i] < |fields|
  {
    forall i, k :: 0 <= i < k < |places| ==> Precedes(fields, places[i], places[k], collate)
  }

  function Put<T>(s: seq<T>, i: nat, x: T): seq<T>
    requires i <= |s|
  {
    s[..i] + [x] + s[i..]
  }

  lemma PutAt<T>(s: seq<T>, i: nat, x: T)
    requires i <= |s|
    ensures |Put(s, i, x)| == |s| + 1
    ensures forall m :: 0 <= m <= |s| ==> Put(s, i, x)[m] == if m < i then s[m] else if m == i then x else s[m - 1]
  {
  }

  lemma PutHas<T>(s: seq<T>, i: nat, x: T, y: T)
    requires i <= |s|
    ensures y in Put(s, i, x) <==> y == x || y in s
  {
    assert s == s[..i] + s[i..];
  }

  // Putting one more place in front of the first that does not collate lower.
  lemma PlaceOne(fields: seq<Field>, places: seq<nat>, from: nat, i: nat, collate: Collation)
    requires PlacesOk(fields, places, from + 1, collate) && PlacesAll(fields, places, from + 1) && PlacesOrdered(fields, places, collate)
    requires from < |fields| && i <= |places| && !fields[from].value.Undefined? && Canonicalize(fields[from].value, collate).Some?
    requires forall m :: 0 <= m < i ==> Precedes(fields, places[m], from, collate)
    requires i < |places| ==> Precedes(fields, from, places[i], collate)
    ensures var more := Put(places, i, from);
      PlacesOk(fields, more, from, collate) && PlacesAll(fields, more, from) && PlacesOrdered(fields, more, collate)
  {
    PutAt(places, i, from);
    hide Canonicalize, Put;
    forall j ensures j in Put(places, i, from) <==> j == from || j in places { PutHas(places, i, from, j); }
    forall k | i <= k < |places| ensures Precedes(fields, from, places[k], collate) {
      if i < k { assert Precedes(fields, places[i], places[k], collate); }
    }
    hide Precedes;
  }

  lemma PlacePairs(fields: seq<Field>, places: seq<nat>, from: nat, i: nat, collate: Collation)
    requires from < |fields| && i <= |places| && PlacesOk(fields, places, from + 1, collate) && PlacesOk(fields, Put(places, i, from), from, collate)
    requires Canonicalize(fields[from].value, collate).Some?
    ensures PairsAt(fields, Put(places, i, from), collate)
         == Put(PairsAt(fields, places, collate), i, Pair(fields[from].key, Canonicalize(fields[from].value, collate).value))
  {
    PutAt(places, i, from);
    PutAt(PairsAt(fields, places, collate), i, Pair(fields[from].key, Canonicalize(fields[from].value, collate).value));
    hide Canonicalize, Put;
  }

  lemma {:induction false} SortedPlaces(fields: seq<Field>, from: nat, collate: Collation) returns (places: seq<nat>)
    requires from <= |fields| && Pairs(fields[from..], collate).Some?
    ensures PlacesOk(fields, places, from, collate) && PlacesAll(fields, places, from) && PlacesOrdered(fields, places, collate)
    ensures Sort(Pairs(fields[from..], collate).value, ByKey(collate)) == PairsAt(fields, places, collate)
    decreases |fields| - from
  {
    if from == |fields| {
      places := [];
    } else {
      assert fields[from..][0] == fields[from] && fields[from..][1..] == fields[from + 1..];
      var rest := SortedPlaces(fields, from + 1, collate);
      if fields[from].value.Undefined? {
        places := rest;
      } else {
        var pairs, x := Pairs(fields[from + 1..], collate).value, Pair(fields[from].key, Canonicalize(fields[from].value, collate).value);
        assert Pairs(fields[from..], collate).value[1..] == pairs;
        hide Canonicalize, Pairs;
        var sorted := PairsAt(fields, rest, collate);
        var i := InsertPlace(x, sorted, ByKey(collate));
        forall m | 0 <= m < i ensures Precedes(fields, rest[m], from, collate) { assert !ByKey(collate)(x, sorted[m]); }
        PlaceOne(fields, rest, from, i, collate);
        PlacePairs(fields, rest, from, i, collate);
        places := Put(rest, i, from);
      }
    }
  }

  // An object is written as its defined fields, each once, keys ascending by the collation and
  // tied keys in the order of the entries.
  lemma ObjectWritten(fields: seq<Field>, collate: Collation) returns (places: seq<nat>)
    requires Canonicalize(Obj(fields), collate).Some?
    ensures forall i :: 0 <= i < |places| ==>
      places[i] < |fields| && !fields[places[i]].value.Undefined? && Canonicalize(fields[places[i]].value, collate).Some?
    ensures forall j :: 0 <= j < |fields| && !fields[j].value.Undefined? ==> j in places
    ensures forall i, k :: 0 <= i < k < |places| ==>
      var (a, b) := (collate(fields[places[i]].key), collate(fields[places[k]].key));
      a < b || (a == b && places[i] < places[k])
    ensures Canonicalize(Obj(fields), collate) == Some(ObjectText(
      seq(|places|, i requires 0 <= i < |places| => Pair(fields[places[i]].key, Canonicalize(fields[places[i]].value, collate).value))))
  {
    assert fields[0..] == fields;
    places := SortedPlaces(fields, 0, collate);
    forall i, k | 0 <= i < k < |places| ensures Precedes(fields, places[i], places[k], collate) { }
  }

  // ---------- Encoding ----------

  // Lone surrogates are always escaped, so encoding the text as UTF-8 loses nothing.
  lemma {:induction false} TextPaired(v: Value, collate: Collation)
    requires Canonicalize(v, collate).Some?
    ensures Paired(Canonicalize(v, collate).value)
  {
    match v
    case Null => PlainPaired(NULL);
    case Bool(flag) => PlainPaired(if flag then TRUE else FALSE);
    case Num(n) => NumberPaired(n);
    case Str(s) => QuotePaired(s);
    case Arr(items) =>
      TextsPaired(items, collate);
      JoinPaired(Texts(items, collate).value);
      Bracketed(OPEN_ARRAY, Join(Texts(items, collate).value), CLOSE_ARRAY);
    case Obj(fields) =>
      var pairs := Pairs(fields, collate).value;
      var sorted := Sort(pairs, ByKey(collate));
      PairsPaired(fields, collate);
      ByKeyTotal(collate);
      SortSorts(pairs, ByKey(collate));
      SameElements(pairs, sorted);
      forall i | 0 <= i < |sorted| ensures Paired(Labelled(sorted[i])) { LabelPaired(sorted[i]); }
      JoinPaired(Map(Labelled, sorted));
      Bracketed(OPEN_OBJECT, Join(Map(Labelled, sorted)), CLOSE_OBJECT);
  }

  lemma Bracketed(open: Unit, t: Text, close: Unit)
    requires Paired(t) && !High(open) && !Low(open) && !High(close) && !Low(close)
    ensures Paired([open] + t + [close])
  {
    PlainPaired([open]);
    PlainPaired([close]);
    PairedConcat([open], t);
    PairedConcat([open] + t, [close]);
  }

  lemma LabelPaired(p: Pair)
    requires Paired(p.text)
    ensures Paired(Labelled(p))
  {
    QuotePaired(p.key);
    PlainPaired([COLON]);
    PairedConcat(Quote(p.key), [COLON]);
    PairedConcat(Quote(p.key) + [COLON], p.text);
  }

  lemma {:induction false} JoinPaired(texts: seq<Text>)
    requires forall i :: 0 <= i < |texts| ==> Paired(texts[i])
    ensures Paired(Join(texts))
  {
    if |texts| > 1 {
      JoinPaired(texts[1..]);
      PlainPaired([COMMA]);
      PairedConcat(texts[0], [COMMA]);
      PairedConcat(texts[0] + [COMMA], Join(texts[1..]));
    }
  }

  lemma {:induction false} TextsPaired(items: seq<Value>, collate: Collation)
    requires Texts(items, collate).Some?
    ensures forall i :: 0 <= i < |items| ==> Paired(Texts(items, collate).value[i])
  {
    if items != [] {
      TextPaired(items[0], collate);
      TextsPaired(items[1..], collate);
    }
  }

  lemma {:induction false} PairsPaired(fields: seq<Field>, collate: Collation)
    requires Pairs(fields, collate).Some?
    ensures forall p <- Pairs(fields, collate).value :: Paired(p.text)
  {
    if fields != [] {
      PairsPaired(fields[1..], collate);
      if !fields[0].value.Undefined? { TextPaired(fields[0].value, collate); }
    }
  }

  // ---------- Signing ----------

  const SIGNATURE: Text := [0x73, 0x69, 0x67, 0x6E, 0x61, 0x74, 0x75, 0x72, 0x65]

  // A record without its signature field.
  function UnsignedRecord(fields: seq<Field>): seq<Field> {
    if fields == [] then []
    else if fields[0].key == SIGNATURE then UnsignedRecord(fields[1..])
    else [fields[0]] + UnsignedRecord(fields[1..])
  }

  function SignRecord(fields: seq<Field>, signature: Value): seq<Field> {
    UnsignedRecord(fields) + [Field(SIGNATURE, signature)]
  }

  // The one field that signing leaves out is the one called signature.
  lemma SignatureName()
    ensures SIGNATURE == ['s' as int, 'i' as int, 'g' as int, 'n' as int, 'a' as int, 't' as int, 'u' as int, 'r' as int, 'e' as int]
  {
  }

  lemma {:induction false} UnsignedConcat(a: seq<Field>, b: seq<Field>)
    ensures UnsignedRecord(a + b) == UnsignedRecord(a) + UnsignedRecord(b)
  {
    if a == [] {
      assert a + b == b;
    } else {
      UnsignedConcat(a[1..], b);
      assert (a + b)[1..] == a[1..] + b && (a + b)[0] == a[0];
      assert [a[0]] + (UnsignedRecord(a[1..]) + UnsignedRecord(b)) == [a[0]] + UnsignedRecord(a[1..]) + UnsignedRecord(b);
    }
  }

  lemma {:induction false} UnsignedShape(fields: seq<Field>)
    ensures forall f :: f in UnsignedRecord(fields) <==> f in fields && f.key != SIGNATURE
    ensures UnsignedRecord(UnsignedRecord(fields)) == UnsignedRecord(fields)
  {
    if fields != [] {
      UnsignedShape(fields[1..]);
      assert fields == [fields[0]] + fields[1..];
      var rest := UnsignedRecord(fields[1..]);
      if fields[0].key != SIGNATURE { assert ([fields[0]] + rest)[1..] == rest; }
    }
  }

  // Verifying looks at the very record that was signed, whether or not it was signed before.
  lemma SignedRecordUnsigned(fields: seq<Field>, signature: Value)
    ensures UnsignedRecord(SignRecord(fields, signature)) == UnsignedRecord(fields)
  {
    UnsignedConcat(UnsignedRecord(fields), [Field(SIGNATURE, signature)]);
    UnsignedShape(fields);
    assert UnsignedRecord([Field(SIGNATURE, signature)]) == [];
  }

  lemma {:induction false} UnsignedMeans(fields: seq<Field>)
    requires DistinctKeys(fields)
    ensures FieldMeanings(UnsignedRecord(fields)) == FieldMeanings(fields) - {SIGNATURE}
  {
    hide Meaning;
    if fields != [] {
      UnsignedMeans(fields[1..]);
      var rest := UnsignedRecord(fields[1..]);
      if fields[0].key != SIGNATURE {
        assert ([fields[0]] + rest)[1..] == rest;
      }
    }
  }

  lemma NewKey(fields: seq<Field>, rest: seq<Field>)
    requires DistinctKeys(fields) && fields != [] && DistinctKeys(rest) && forall f :: f in rest ==> f in fields[1..]
    ensures DistinctKeys([fields[0]] + rest)
  {
    forall j | 0 <= j < |rest| ensures rest[j].key != fields[0].key {
      assert rest[j] in rest && rest[j] in fields[1..];
      var k :| 0 <= k < |fields[1..]| && fields[1..][k] == rest[j];
      assert fields[k + 1] == rest[j];
    }
  }

  lemma {:induction false} UnsignedDistinct(fields: seq<Field>)
    requires DistinctKeys(fields)
    ensures DistinctKeys(UnsignedRecord(fields))
  {
    if fields != [] {
      assert DistinctKeys(fields[1..]);
      hide DistinctKeys;
      UnsignedDistinct(fields[1..]);
      UnsignedShape(fields[1..]);
      NewKey(fields, UnsignedRecord(fields[1..]));
    }
  }

  lemma FirstInOrder(fields: seq<Field>, rest: seq<Field>)
    requires InOrder(fields) && fields != [] && InOrder(rest) && forall f :: f in rest ==> f in fields[1..]
    ensures InOrder([fields[0]] + rest)
  {
    hide Rank;
    forall j | 0 <= j < |rest| ensures Rank(fields[0].key) <= Rank(rest[j].key) {
      assert rest[j] in rest && rest[j] in fields[1..];
      var k :| 0 <= k < |fields[1..]| && fields[1..][k] == rest[j];
      assert fields[k + 1] == rest[j];
    }
  }

  lemma {:induction false} UnsignedInOrder(fields: seq<Field>)
    requires InOrder(fields)
    ensures InOrder(UnsignedRecord(fields))
  {
    if fields != [] {
      assert InOrder(fields[1..]);
      hide InOrder;
      UnsignedInOrder(fields[1..]);
      UnsignedShape(fields[1..]);
      FirstInOrder(fields, UnsignedRecord(fields[1..]));
    }
  }

  lemma UnsignedProper(fields: seq<Field>)
    requires Proper(Obj(fields)) && Supported(Obj(fields))
    ensures Proper(Obj(UnsignedRecord(fields))) && Supported(Obj(UnsignedRecord(fields)))
  {
    UnsignedDistinct(fields);
    UnsignedInOrder(fields);
    UnsignedShape(fields);
    var rest := UnsignedRecord(fields);
    forall i | 0 <= i < |rest| ensures Proper(rest[i].value) && (rest[i].value.Undefined? || Supported(rest[i].value)) {
      assert rest[i] in fields;
    }
  }

  // The signed text pins down every field but the signature; and it depends on those fields
  // alone when the record has no ties.
  lemma SignatureCovers(a: seq<Field>, b: seq<Field>, collate: Collation)
    requires Proper(Obj(a)) && Proper(Obj(b)) && Supported(Obj(a)) && Supported(Obj(b))
    ensures Canonicalize(Obj(UnsignedRecord(a)), collate) == Canonicalize(Obj(UnsignedRecord(b)), collate)
      ==> FieldMeanings(a) - {SIGNATURE} == FieldMeanings(b) - {SIGNATURE}
    ensures TellsApart(Obj(UnsignedRecord(a)), collate) && FieldMeanings(a) - {SIGNATURE} == FieldMeanings(b) - {SIGNATURE}
      ==> Canonicalize(Obj(UnsignedRecord(a)), collate) == Canonicalize(Obj(UnsignedRecord(b)), collate)
  {
    var v, w := Obj(UnsignedRecord(a)), Obj(UnsignedRecord(b));
    UnsignedMeans(a);
    UnsignedMeans(b);
    UnsignedProper(a);
    UnsignedProper(b);
    TextExists(v, collate);
    hide TellsApart, Canonicalize, Proper, Supported;
    if Canonicalize(v, collate) == Canonicalize(w, collate) {
      SameTextSameMeaning(v, w, collate);
    } else if TellsApart(v, collate) && Meaning(v) == Meaning(w) {
      SameMeaningSameText(v, w, collate);
    }
  }
}
