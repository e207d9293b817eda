/** The canonical text of a record, and a parser that reads it back. */
module Canonical {
  // localeCompare is given by a collation rank for every key: equal ranks compare as equal.
  import opened Results
  import opened Sorting
  import opened Json

  // Num is an integral number; Unsupported is every other number, bigint, symbol or function.
  datatype Value =
    | Null
    | Bool(flag: bool)
    | Num(n: int)
    | Str(s: Text)
    | Arr(items: seq<Value>)
    | Obj(fields: seq<Field>)
    | Undefined
    | Unsupported

  // One entry of Object.entries.
  datatype Field = Field(key: Text, value: Value)

  datatype Pair = Pair(key: Text, text: Text)

  type Collation = Text -> real

  // ---------- Canonical text ----------

  function ByKey(collate: Collation): (Pair, Pair) -> bool {
    (a: Pair, b: Pair) => collate(a.key) <= collate(b.key)
  }

  function Join(texts: seq<Text>): Text {
    if texts == [] then []
    else if |texts| == 1 then texts[0]
    else texts[0] + [COMMA] + Join(texts[1..])
  }

  function Labelled(p: Pair): Text {
    Quote(p.key) + [COLON] + p.text
  }

  function ArrayText(texts: seq<Text>): Text {
    [OPEN_ARRAY] + Join(texts) + [CLOSE_ARRAY]
  }

  function ObjectText(pairs: seq<Pair>): Text {
    [OPEN_OBJECT] + Join(Map(Labelled, pairs)) + [CLOSE_OBJECT]
  }

  // None stands for the TypeError. Fields are sorted by key alone, so the texts of their
  // values may be worked out first.
  function Canonicalize(v: Value, collate: Collation): Option<Text> {
    match v
    case Null => Some(NULL)
    case Bool(flag) => Some(if flag then TRUE else FALSE)
    case Str(s) => Some(Quote(s))
    case Num(n) => if SafeInteger(n) then Some(Number(n)) else None
    case Arr(items) =>
      (match Texts(items, collate)
       case Some(texts) => Some(ArrayText(texts))
       case None => None)
    case Obj(fields) =>
      (match Pairs(fields, collate)
       case Some(pairs) => Some(ObjectText(Sort(pairs, ByKey(collate))))
       case None => None)
    case Undefined => None
    case Unsupported => None
  }

  function Texts(items: seq<Value>, collate: Collation): (r: Option<seq<Text>>)
    ensures r.Some? ==> |r.value| == |items|
  {
    if items == [] then Some([])
    else match (Canonicalize(items[0], collate), Texts(items[1..], collate))
      case (Some(t), Some(rest)) => Some([t] + rest)
      case _ => None
  }

  // The defined fields with the texts of their values.
  function Pairs(fields: seq<Field>, collate: Collation): Option<seq<Pair>> {
    if fields == [] then Some([])
    else if fields[0].value.Undefined? then Pairs(fields[1..], collate)
    else match (Canonicalize(fields[0].value, collate), Pairs(fields[1..], collate))
      case (Some(t), Some(rest)) => Some([Pair(fields[0].key, t)] + rest)
      case _ => None
  }

  // ---------- What a value means ----------

  datatype Tree =
    | TNull
    | TBool(flag: bool)
    | TNum(n: int)
    | TStr(s: Text)
    | TArr(items: seq<Tree>)
    | TObj(fields: map<Text, Tree>)

  // A value as data: objects are maps, and undefined fields are not there.
  function Meaning(v: Value): Tree {
    match v
    case Null => TNull
    case Bool(flag) => TBool(flag)
    case Num(n) => TNum(n)
    case Str(s) => TStr(s)
    case Arr(items) => TArr(Meanings(items))
    case Obj(fields) => TObj(FieldMeanings(fields))
    case Undefined => TNull
    case Unsupported => TNull
  }

  function Meanings(items: seq<Value>): (r: seq<Tree>)
    ensures |r| == |items| && forall i :: 0 <= i < |items| ==> r[i] == Meaning(items[i])
  {
    if items == [] then [] else [Meaning(items[0])] + Meanings(items[1..])
  }

  function FieldMeanings(fields: seq<Field>): map<Text, Tree> {
    if fields == [] then map[]
    else if fields[0].value.Undefined? then FieldMeanings(fields[1..])
    else FieldMeanings(fields[1..])[fields[0].key := Meaning(fields[0].value)]
  }

  // ---------- The order of entries ----------

  const MAX_INDEX: int := 4_294_967_294

  // An array index: the decimal text of a number small enough.
  function IndexOf(key: Text): Option<int> {
    match ParseNat(key)
    case Some((n, rest)) => if rest == [] && n <= MAX_INDEX then Some(n) else None
    case None => None
  }

  // Object.entries lists array indices first, in ascending order, then the other keys as they
  // were inserted.
  function Rank(key: Text): int {
    if IndexOf(key).Some? then IndexOf(key).value else MAX_INDEX + 1
  }

  predicate InOrder(fields: seq<Field>) {
    forall i, j :: 0 <= i < j < |fields| ==> Rank(fields[i].key) <= Rank(fields[j].key)
  }

  lemma IndexText(key: Text)
    requires IndexOf(key).Some?
    ensures 0 <= IndexOf(key).value <= MAX_INDEX && key == Digits(IndexOf(key).value)
  {
    var (digits, rest) := TakeDigits(key);
    assert digits + [] == digits;
    ValueDigits(digits);
  }

  // Two array indices of one rank are one key.
  lemma RankTells(a: Text, b: Text)
    requires Rank(a) == Rank(b)
    ensures a == b || (IndexOf(a).None? && IndexOf(b).None?)
  {
    if IndexOf(a).Some? { IndexText(a); }
    if IndexOf(b).Some? { IndexText(b); }
    hide IndexOf;
  }

  lemma NotAnIndex(key: Text)
    requires key == [] || !IsDigit(key[0])
    ensures IndexOf(key).None?
  {
  }

  // The keys of one object are distinct and in the order of its entries, at every depth.
  predicate Proper(v: Value) {
    match v
    case Arr(items) => forall i :: 0 <= i < |items| ==> Proper(items[i])
    case Obj(fields) =>
      && DistinctKeys(fields) && InOrder(fields)
      && forall i :: 0 <= i < |fields| ==> Proper(fields[i].value)
    case _ => true
  }

  // No unsafe number, no undefined outside an object field, nothing unsupported.
  predicate Supported(v: Value) {
    match v
    case Num(n) => SafeInteger(n)
    case Arr(items) => forall i :: 0 <= i < |items| ==> Supported(items[i])
    case Obj(fields) => forall i :: 0 <= i < |fields| ==> fields[i].value.Undefined? || Supported(fields[i].value)
    case Undefined => false
    case Unsupported => false
    case _ => true
  }

  // canonicalize throws exactly on the unsupported values.
  lemma {:induction false} TextExists(v: Value, collate: Collation)
    ensures Canonicalize(v, collate).Some? <==> Supported(v)
  {
    match v
    case Arr(items) => TextsExist(items, collate);
    case Obj(fields) => PairsExist(fields, collate);
    case _ =>
  }

  lemma {:induction false} TextsExist(items: seq<Value>, collate: Collation)
    ensures Texts(items, collate).Some? <==> forall i :: 0 <= i < |items| ==> Supported(items[i])
  {
    if items != [] {
      TextExists(items[0], collate);
      TextsExist(items[1..], collate);
      assert items == [items[0]] + items[1..];
    }
  }

  lemma {:induction false} PairsExist(fields: seq<Field>, collate: Collation)
    ensures Pairs(fields, collate).Some? <==> forall i :: 0 <= i < |fields| ==> fields[i].value.Undefined? || Supported(fields[i].value)
  {
    if fields != [] {
      TextExists(fields[0].value, collate);
      PairsExist(fields[1..], collate);
      assert fields == [fields[0]] + fields[1..];
    }
  }

  // ---------- Fields and their pairs ----------

  predicate DistinctKeys(fields: seq<Field>) {
    forall i, j :: 0 <= i < j < |fields| ==> fields[i].key != fields[j].key
  }

  predicate Defines(fields: seq<Field>, i: nat, key: Text)
    requires i < |fields|
  {
    fields[i].key == key && !fields[i].value.Undefined?
  }

  lemma {:induction false} PairFrom(fields: seq<Field>, collate: Collation, p: Pair) returns (i: nat)
    requires Pairs(fields, collate).Some? && p in Pairs(fields, collate).value
    ensures i < |fields| && Defines(fields, i, p.key) && Canonicalize(fields[i].value, collate) == Some(p.text)
  {
    if !fields[0].value.Undefined? && p == Pairs(fields, collate).value[0] {
      i := 0;
    } else {
      var j := PairFrom(fields[1..], collate, p);
      i := j + 1;
    }
  }

  lemma {:induction false} PairOf(fields: seq<Field>, collate: Collation, i: nat)
    requires Pairs(fields, collate).Some? && i < |fields| && !fields[i].value.Undefined?
    ensures Canonicalize(fields[i].value, collate).Some?
    ensures Pair(fields[i].key, Canonicalize(fields[i].value, collate).value) in Pairs(fields, collate).value
  {
    if i == 0 {
      assert Pairs(fields, collate).value[0] == Pair(fields[0].key, Canonicalize(fields[0].value, collate).value);
    } else {
      PairOf(fields[1..], collate, i - 1);
    }
  }

  lemma {:induction false} FieldFrom(fields: seq<Field>, key: Text) returns (i: nat)
    requires key in FieldMeanings(fields)
    ensures i < |fields| && Defines(fields, i, key)
  {
    if Defines(fields, 0, key) {
      i := 0;
    } else {
      var j := FieldFrom(fields[1..], key);
      i := j + 1;
    }
  }

  lemma {:induction false} FieldMeans(fields: seq<Field>, i: nat, key: Text)
    requires DistinctKeys(fields) && i < |fields| && Defines(fields, i, key)
    ensures key in FieldMeanings(fields) && FieldMeanings(fields)[key] == Meaning(fields[i].value)
  {
    if i > 0 { FieldMeans(fields[1..], i - 1, key); }
  }

  // ---------- A parser ----------

  predicate StartsWith(t: Text, word: Text) {
    |word| <= |t| && t[..|word|] == word
  }

  function ParseValue(t: Text): (r: Option<(Tree, Text)>)
    ensures r.Some? ==> |r.value.1| < |t|
    decreases |t|, 2
  {
    if StartsWith(t, NULL) then Some((TNull, t[4..]))
    else if StartsWith(t, TRUE) then Some((TBool(true), t[4..]))
    else if StartsWith(t, FALSE) then Some((TBool(false), t[5..]))
    else if t == [] then None
    else if t[0] == QUOTE then
      (match ParseString(t[1..])
       case Some((s, rest)) => Some((TStr(s), rest))
       case None => None)
    else if t[0] == OPEN_ARRAY then
      (if |t| >= 2 && t[1] == CLOSE_ARRAY then Some((TArr([]), t[2..]))
       else match ParseItems(t[1..])
         case Some((items, rest)) => Some((TArr(items), rest))
         case None => None)
    else if t[0] == OPEN_OBJECT then
      (if |t| >= 2 && t[1] == CLOSE_OBJECT then Some((TObj(map[]), t[2..]))
       else match ParseFields(t[1..])
         case Some((fields, rest)) => Some((TObj(fields), rest))
         case None => None)
    else
      match ParseNumber(t)
      case Some((n, rest)) => Some((TNum(n), rest))
      case None => None
  }

  // One or more comma-separated items and the closing bracket.
  function ParseItems(t: Text): (r: Option<(seq<Tree>, Text)>)
    ensures r.Some? ==> |r.value.1| < |t|
    decreases |t|, 3
  {
    match ParseValue(t)
    case None => None
    case Some((item, rest)) =>
      if rest == [] then None
      else if rest[0] == CLOSE_ARRAY then Some(([item], rest[1..]))
      else if rest[0] == COMMA then
        match ParseItems(rest[1..])
        case Some((items, end)) => Some(([item] + items, end))
        case None => None
      else None
  }

  // One or more comma-separated fields and the closing brace; the last of equal keys wins.
  function ParseFields(t: Text): (r: Option<(map<Text, Tree>, Text)>)
    ensures r.Some? ==> |r.value.1| < |t|
    decreases |t|, 3
  {
    match ParseField(t)
    case None => None
    case Some(((key, item), rest)) =>
      if rest == [] then None
      else if rest[0] == CLOSE_OBJECT then Some((map[key := item], rest[1..]))
      else if rest[0] == COMMA then
        match ParseFields(rest[1..])
        case Some((fields, end)) => Some((map[key := item] + fields, end))
        case None => None
      else None
  }

  function ParseField(t: Text): (r: Option<((Text, Tree), Text)>)
    ensures r.Some? ==> |r.value.1| < |t|
    decreases |t|, 2
  {
    if t == [] || t[0] != QUOTE then None
    else match ParseString(t[1..])
      case None => None
      case Some((key, rest)) =>
        if rest == [] || rest[0] != COLON then None
        else match ParseValue(rest[1..])
          case Some((item, end)) => Some(((key, item), end))
          case None => None
  }

  // A whole text is one value and nothing after it.
  function Parse(t: Text): Option<Tree> {
    match ParseValue(t)
    case Some((tree, rest)) => if rest == [] then Some(tree) else None
    case None => None
  }

  // ---------- Round trip ----------

  // The text reads as the tree, whatever may follow.
  ghost predicate Reads(t: Text, tree: Tree) {
    forall rest :: Ends(rest) ==> ParseValue(t + rest) == Some((tree, rest))
  }

  lemma NumberTextReads(n: int)
    ensures Reads(Number(n), TNum(n))
  {
    forall rest | Ends(rest) ensures ParseValue(Number(n) + rest) == Some((TNum(n), rest)) {
      NumberReads(n, rest);
      var t := Number(n) + rest;
      assert t[0] == Number(n)[0];
      assert !StartsWith(t, NULL) && !StartsWith(t, TRUE) && !StartsWith(t, FALSE) by {
        assert t[0] != NULL[0] && t[0] != TRUE[0] && t[0] != FALSE[0];
      }
    }
  }

  lemma NotAWord(t: Text)
    requires t != [] && (t[0] == QUOTE || t[0] == OPEN_ARRAY || t[0] == OPEN_OBJECT)
    ensures !StartsWith(t, NULL) && !StartsWith(t, TRUE) && !StartsWith(t, FALSE)
  {
    assert t[0] != NULL[0] && t[0] != TRUE[0] && t[0] != FALSE[0];
  }

  lemma QuotedReads(t: Text, s: Text, rest: Text)
    requires t == Quote(s) + rest && ParseString(Escape(s) + [QUOTE] + rest) == Some((s, rest))
    ensures ParseValue(t) == Some((TStr(s), rest))
  {
    hide ParseString, Escape;
    NotAWord(t);
    hide StartsWith;
    assert t[1..] == Escape(s) + [QUOTE] + rest;
  }

  lemma StringTextReads(s: Text)
    ensures Reads(Quote(s), TStr(s))
  {
    forall rest | Ends(rest) ensures ParseValue(Quote(s) + rest) == Some((TStr(s), rest)) {
      hide ParseString, Escape;
      var t := Quote(s) + rest;
      StringReads(s, rest);
      QuotedReads(t, s, rest);
    }
  }

  lemma WordTextReads(flag: bool)
    ensures Reads(NULL, TNull) && Reads(TRUE, TBool(true)) && Reads(FALSE, TBool(false))
  {
    forall rest | Ends(rest)
      ensures ParseValue(NULL + rest) == Some((TNull, rest))
      ensures ParseValue(TRUE + rest) == Some((TBool(true), rest))
      ensures ParseValue(FALSE + rest) == Some((TBool(false), rest))
    {
      assert (NULL + rest)[..4] == NULL && (NULL + rest)[4..] == rest;
      assert (TRUE + rest)[..4] == TRUE && (TRUE + rest)[4..] == rest;
      assert (FALSE + rest)[..5] == FALSE && (FALSE + rest)[5..] == rest;
      assert (TRUE + rest)[0] != NULL[0] && (FALSE + rest)[0] != NULL[0] && (FALSE + rest)[0] != TRUE[0];
    }
  }

  // Every value's text reads as its meaning.
  lemma {:induction false} TextReads(v: Value, collate: Collation)
    requires Proper(v) && Canonicalize(v, collate).Some?
    ensures Reads(Canonicalize(v, collate).value, Meaning(v))
  {
    match v
    case Null => WordTextReads(true);
    case Bool(flag) => WordTextReads(flag);
    case Num(n) => NumberTextReads(n);
    case Str(s) => StringTextReads(s);
    case Arr(items) =>
      ItemsRead(items, collate);
      ArrayReads(Texts(items, collate).value, Meanings(items));
    case Obj(fields) =>
      var pairs, m := Pairs(fields, collate).value, FieldMeanings(fields);
      var sorted := Sort(pairs, ByKey(collate));
      ByKeyTotal(collate);
      SortSorts(pairs, ByKey(collate));
      SameElements(pairs, sorted);
      forall p | p in sorted ensures p.key in m && Reads(p.text, m[p.key]) {
        var i := PairFrom(fields, collate, p);
        FieldMeans(fields, i, p.key);
        TextReads(fields[i].value, collate);
      }
      forall k | k in m ensures exists p <- sorted :: p.key == k {
        var i := FieldFrom(fields, k);
        PairOf(fields, collate, i);
      }
      ObjectReads(sorted, m);
  }

  lemma SameElements<T>(a: seq<T>, b: seq<T>)
    requires multiset(a) == multiset(b)
    ensures forall x :: x in a <==> x in b
  {
    forall x ensures x in a <==> x in b { assert x in multiset(a) <==> x in multiset(b); }
  }

  lemma ByKeyTotal(collate: Collation)
    ensures TotalOrder(ByKey(collate))
  {
  }

  lemma {:induction false} ItemsRead(items: seq<Value>, collate: Collation)
    requires (forall i :: 0 <= i < |items| ==> Proper(items[i])) && Texts(items, collate).Some?
    ensures forall i :: 0 <= i < |items| ==> Reads(Texts(items, collate).value[i], Meanings(items)[i])
  {
    if items != [] {
      TextReads(items[0], collate);
      ItemsRead(items[1..], collate);
    }
  }

  lemma LastItem(text: Text, tree: Tree, rest: Text)
    requires Reads(text, tree)
    ensures ParseItems(text + ([CLOSE_ARRAY] + rest)) == Some(([tree], rest))
  {
    assert ParseValue(text + ([CLOSE_ARRAY] + rest)) == Some((tree, [CLOSE_ARRAY] + rest));
    assert ([CLOSE_ARRAY] + rest)[1..] == rest;
  }

  lemma ItemThenMore(text: Text, tree: Tree, tail: Text, items: seq<Tree>, end: Text)
    requires Reads(text, tree) && ParseItems(tail) == Some((items, end))
    ensures ParseItems(text + ([COMMA] + tail)) == Some(([tree] + items, end))
  {
    assert ParseValue(text + ([COMMA] + tail)) == Some((tree, [COMMA] + tail));
    assert ([COMMA] + tail)[1..] == tail;
  }

  lemma {:induction false} JoinedItemsRead(texts: seq<Text>, trees: seq<Tree>, rest: Text)
    requires |texts| == |trees| > 0 && forall i :: 0 <= i < |texts| ==> Reads(texts[i], trees[i])
    ensures ParseItems(Join(texts) + [CLOSE_ARRAY] + rest) == Some((trees, rest))
    decreases |texts|
  {
    hide ParseItems, Reads;
    var t := Join(texts) + [CLOSE_ARRAY] + rest;
    if |texts| == 1 {
      assert t == texts[0] + ([CLOSE_ARRAY] + rest);
      LastItem(texts[0], trees[0], rest);
      assert trees == [trees[0]];
    } else {
      var tail := Join(texts[1..]) + [CLOSE_ARRAY] + rest;
      JoinedItemsRead(texts[1..], trees[1..], rest);
      assert t == texts[0] + ([COMMA] + tail);
      ItemThenMore(texts[0], trees[0], tail, trees[1..], rest);
      assert trees == [trees[0]] + trees[1..];
    }
  }

  // No value's text is empty or opens with a closing mark.
  lemma ReadsOpens(t: Text, tree: Tree)
    requires Reads(t, tree)
    ensures t != [] && t[0] != CLOSE_ARRAY
  {
    assert ParseValue(t + []) == Some((tree, []));
    assert t + [] == t;
  }

  lemma ArrayReads(texts: seq<Text>, trees: seq<Tree>)
    requires |texts| == |trees| && forall i :: 0 <= i < |texts| ==> Reads(texts[i], trees[i])
    ensures Reads(ArrayText(texts), TArr(trees))
  {
    forall rest | Ends(rest) ensures ParseValue(ArrayText(texts) + rest) == Some((TArr(trees), rest)) {
      if texts == [] {
        EmptyArray(rest);
        assert trees == [];
      } else {
        JoinedItemsRead(texts, trees, rest);
        ReadsOpens(texts[0], trees[0]);
        SomeArray(texts, trees, rest);
      }
    }
  }

  lemma EmptyArray(rest: Text)
    ensures ParseValue(ArrayText([]) + rest) == Some((TArr([]), rest))
  {
    var t := ArrayText([]) + rest;
    NotAWord(t);
    assert t[1] == CLOSE_ARRAY && t[2..] == rest;
  }

  lemma SomeArray(texts: seq<Text>, trees: seq<Tree>, rest: Text)
    requires texts != [] && texts[0] != [] && texts[0][0] != CLOSE_ARRAY
    requires ParseItems(Join(texts) + [CLOSE_ARRAY] + rest) == Some((trees, rest))
    ensures ParseValue(ArrayText(texts) + rest) == Some((TArr(trees), rest))
  {
    hide ParseItems;
    var t := ArrayText(texts) + rest;
    var tail := Join(texts) + [CLOSE_ARRAY] + rest;
    NotAWord(t);
    assert t[1..] == tail;
    assert t[1] == tail[0] == texts[0][0];
  }

  lemma FieldParts(t: Text, key: Text, x: Text, tree: Tree, end: Text)
    requires t != [] && t[0] == QUOTE && ParseString(t[1..]) == Some((key, [COLON] + x)) && ParseValue(x) == Some((tree, end))
    ensures ParseField(t) == Some(((key, tree), end))
  {
    hide ParseString, ParseValue;
    assert ([COLON] + x)[1..] == x;
  }

  lemma ReadsBefore(t: Text, tree: Tree, rest: Text)
    requires Reads(t, tree) && Ends(rest)
    ensures ParseValue(t + rest) == Some((tree, rest))
  {
    hide ParseValue;
  }

  lemma FieldReads(p: Pair, tree: Tree, rest: Text)
    requires Reads(p.text, tree) && Ends(rest)
    ensures ParseField(Labelled(p) + rest) == Some(((p.key, tree), rest))
  {
    hide ParseString, Escape, Reads, ParseValue, ParseField;
    ReadsBefore(p.text, tree, rest);
    var t := Labelled(p) + rest;
    var x := p.text + rest;
    assert t[1..] == Escape(p.key) + [QUOTE] + ([COLON] + x);
    StringReads(p.key, [COLON] + x);
    FieldParts(t, p.key, x, tree, rest);
  }

  // The map holding just the keys of these pairs.
  function Restrict(pairs: seq<Pair>, m: map<Text, Tree>): map<Text, Tree>
    requires forall p <- pairs :: p.key in m
  {
    if pairs == [] then map[] else map[pairs[0].key := m[pairs[0].key]] + Restrict(pairs[1..], m)
  }

  lemma LastField(p: Pair, tree: Tree, rest: Text)
    requires Reads(p.text, tree)
    ensures ParseFields(Labelled(p) + ([CLOSE_OBJECT] + rest)) == Some((map[p.key := tree], rest))
  {
    hide ParseField, Reads;
    FieldReads(p, tree, [CLOSE_OBJECT] + rest);
    assert ([CLOSE_OBJECT] + rest)[1..] == rest;
  }

  lemma FieldThenMore(p: Pair, tree: Tree, tail: Text, fields: map<Text, Tree>, end: Text)
    requires Reads(p.text, tree) && ParseFields(tail) == Some((fields, end))
    ensures ParseFields(Labelled(p) + ([COMMA] + tail)) == Some((map[p.key := tree] + fields, end))
  {
    hide ParseField, Reads;
    FieldReads(p, tree, [COMMA] + tail);
    assert ([COMMA] + tail)[1..] == tail;
  }

  lemma {:induction false} JoinedFieldsRead(pairs: seq<Pair>, m: map<Text, Tree>, rest: Text)
    requires |pairs| > 0 && forall p <- pairs :: p.key in m && Reads(p.text, m[p.key])
    ensures ParseFields(Join(Map(Labelled, pairs)) + [CLOSE_OBJECT] + rest) == Some((Restrict(pairs, m), rest))
    decreases |pairs|
  {
    hide ParseFields, Reads, Labelled;
    var texts := Map(Labelled, pairs);
    var t := Join(texts) + [CLOSE_OBJECT] + rest;
    assert pairs[0] in pairs;
    if |pairs| == 1 {
      assert t == Labelled(pairs[0]) + ([CLOSE_OBJECT] + rest);
      LastField(pairs[0], m[pairs[0].key], rest);
      assert Restrict(pairs[1..], m) == map[];
      assert map[pairs[0].key := m[pairs[0].key]] + map[] == map[pairs[0].key := m[pairs[0].key]];
    } else {
      var tail := Join(texts[1..]) + [CLOSE_OBJECT] + rest;
      assert texts[1..] == Map(Labelled, pairs[1..]);
      JoinedFieldsRead(pairs[1..], m, rest);
      assert t == Labelled(pairs[0]) + ([COMMA] + tail);
      FieldThenMore(pairs[0], m[pairs[0].key], tail, Restrict(pairs[1..], m), rest);
    }
  }

  lemma {:induction false} RestrictCovers(pairs: seq<Pair>, m: map<Text, Tree>)
    requires forall p <- pairs :: p.key in m
    ensures forall k :: k in Restrict(pairs, m) <==> exists p <- pairs :: p.key == k
    ensures forall k <- Restrict(pairs, m) :: k in m && Restrict(pairs, m)[k] == m[k]
  {
    if pairs != [] {
      RestrictCovers(pairs[1..], m);
      assert pairs == [pairs[0]] + pairs[1..];
    }
  }

  lemma ObjectReads(pairs: seq<Pair>, m: map<Text, Tree>)
    requires forall p <- pairs :: p.key in m && Reads(p.text, m[p.key])
    requires forall k <- m :: exists p <- pairs :: p.key == k
    ensures Reads(ObjectText(pairs), TObj(m))
  {
    RestrictCovers(pairs, m);
    assert Restrict(pairs, m) == m;
    forall rest | Ends(rest) ensures ParseValue(ObjectText(pairs) + rest) == Some((TObj(m), rest)) {
      if pairs == [] {
        EmptyObject(rest);
      } else {
        JoinedFieldsRead(pairs, m, rest);
        SomeObject(pairs, m, rest);
      }
    }
  }

  lemma EmptyObject(rest: Text)
    ensures ParseValue(ObjectText([]) + rest) == Some((TObj(map[]), rest))
  {
    var t := ObjectText([]) + rest;
    NotAWord(t);
    assert t[1] == CLOSE_OBJECT && t[2..] == rest;
  }

  lemma SomeObject(pairs: seq<Pair>, m: map<Text, Tree>, rest: Text)
    requires pairs != [] && ParseFields(Join(Map(Labelled, pairs)) + [CLOSE_OBJECT] + rest) == Some((m, rest))
    ensures ParseValue(ObjectText(pairs) + rest) == Some((TObj(m), rest))
  {
    hide ParseFields;
    var t := ObjectText(pairs) + rest;
    var tail := Join(Map(Labelled, pairs)) + [CLOSE_OBJECT] + rest;
    NotAWord(t);
    assert t[1..] == tail;
    assert t[1] == tail[0] == QUOTE;
  }

  // The canonical text parses back to the value it came from.
  lemma RoundTrip(v: Value, collate: Collation)
    requires Proper(v) && Supported(v)
    ensures Canonicalize(v, collate).Some? && Parse(Canonicalize(v, collate).value) == Some(Meaning(v))
  {
    TextExists(v, collate);
    TextReads(v, collate);
    var t := Canonicalize(v, collate).value;
    assert Ends([]) && t + [] == t;
  }
}
