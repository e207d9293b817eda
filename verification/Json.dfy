/**
 JSON text as sequences of UTF-16 code units: the string and number forms JavaScript prints
 (escapes as in section 7 of RFC 8259), and a parser that reads them back.
*/
module Json {
  import opened Results

  type Unit = u: int | 0 <= u < 0x10000
  type Text = seq<Unit>

  const QUOTE: Unit := 0x22
  const BACKSLASH: Unit := 0x5C
  const COMMA: Unit := 0x2C
  const COLON: Unit := 0x3A
  const OPEN_ARRAY: Unit := 0x5B
  const CLOSE_ARRAY: Unit := 0x5D
  const OPEN_OBJECT: Unit := 0x7B
  const CLOSE_OBJECT: Unit := 0x7D
  const MINUS: Unit := 0x2D
  const NULL: Text := [0x6E, 0x75, 0x6C, 0x6C]
  const TRUE: Text := [0x74, 0x72, 0x75, 0x65]
  const FALSE: Text := [0x66, 0x61, 0x6C, 0x73, 0x65]

  // ---------- Strings ----------

  predicate High(u: Unit) { 0xD800 <= u < 0xDC00 }

  predicate Low(u: Unit) { 0xDC00 <= u < 0xE000 }

  predicate StartsWithPair(s: Text) {
    |s| >= 2 && High(s[0]) && Low(s[1])
  }

  // The letter after the backslash of a two-unit escape.
  function ShortEscape(u: Unit): Option<Unit> {
    if u == QUOTE || u == BACKSLASH then Some(u)
    else if u == 0x08 then Some(0x62)
    else if u == 0x0C then Some(0x66)
    else if u == 0x0A then Some(0x6E)
    else if u == 0x0D then Some(0x72)
    else if u == 0x09 then Some(0x74)
    else None
  }

  function HexDigit(n: int): Unit
    requires 0 <= n < 16
  {
    if n < 10 then 0x30 + n else 0x61 + n - 10
  }

  function LongEscape(u: Unit): Text {
    [BACKSLASH, 0x75, HexDigit(u / 0x1000), HexDigit(u / 0x100 % 16), HexDigit(u / 0x10 % 16), HexDigit(u % 16)]
  }

  // A unit that is not part of a surrogate pair.
  function EscapeUnit(u: Unit): Text {
    if ShortEscape(u).Some? then [BACKSLASH, ShortEscape(u).value]
    else if u < 0x20 || High(u) || Low(u) then LongEscape(u)
    else [u]
  }

  function Escape(s: Text): Text {
    if s == [] then []
    else if StartsWithPair(s) then s[..2] + Escape(s[2..])
    else EscapeUnit(s[0]) + Escape(s[1..])
  }

  // JSON.stringify of a string.
  function Quote(s: Text): Text {
    [QUOTE] + Escape(s) + [QUOTE]
  }

  // ---------- Numbers ----------

  function Digits(n: nat): Text {
    if n < 10 then [0x30 + n] else Digits(n / 10) + [0x30 + n % 10]
  }

  // String of a safe integer.
  function Number(n: int): Text {
    if n < 0 then [MINUS] + Digits(-n) else Digits(n)
  }

  // ---------- Reading strings ----------

  function FromShortEscape(c: Unit): Option<Unit> {
    if c == QUOTE || c == BACKSLASH || c == 0x2F then Some(c)
    else if c == 0x62 then Some(0x08)
    else if c == 0x66 then Some(0x0C)
    else if c == 0x6E then Some(0x0A)
    else if c == 0x72 then Some(0x0D)
    else if c == 0x74 then Some(0x09)
    else None
  }

  function FromHex(c: Unit): Option<nat> {
    if 0x30 <= c <= 0x39 then Some(c - 0x30)
    else if 0x61 <= c <= 0x66 then Some(c - 0x61 + 10)
    else if 0x41 <= c <= 0x46 then Some(c - 0x41 + 10)
    else None
  }

  // Four hexadecimal digits of either case.
  function FromHex4(t: Text): (r: Option<Unit>)
    requires |t| >= 4
  {
    match (FromHex(t[0]), FromHex(t[1]), FromHex(t[2]), FromHex(t[3]))
    case (Some(a), Some(b), Some(c), Some(d)) =>
      var n := a * 0x1000 + b * 0x100 + c * 0x10 + d;
      if n < 0x10000 then Some(n) else None
    case _ => None
  }

  function Cons(u: Unit, r: Option<(Text, Text)>): (q: Option<(Text, Text)>) {
    match r
    case Some((s, rest)) => Some(([u] + s, rest))
    case None => None
  }

  // The string up to its closing quote, and the text after it.
  function ParseString(t: Text): (r: Option<(Text, Text)>)
    ensures r.Some? ==> |r.value.1| < |t|
  {
    if t == [] then None
    else if t[0] == QUOTE then Some(([], t[1..]))
    else if t[0] == BACKSLASH then
      if |t| >= 6 && t[1] == 0x75 then
        match FromHex4(t[2..6])
        case Some(u) => Cons(u, ParseString(t[6..]))
        case None => None
      else if |t| >= 2 && FromShortEscape(t[1]).Some? then Cons(FromShortEscape(t[1]).value, ParseString(t[2..]))
      else None
    else if t[0] < 0x20 then None
    else Cons(t[0], ParseString(t[1..]))
  }

  lemma HexReads(n: int)
    requires 0 <= n < 16
    ensures FromHex(HexDigit(n)) == Some(n)
  {
  }

  lemma HexSplits(u: Unit)
    ensures 0 <= u / 0x1000 < 16
    ensures u / 0x1000 * 0x1000 + u / 0x100 % 16 * 0x100 + u / 0x10 % 16 * 0x10 + u % 16 == u
  {
  }

  lemma Hex4Reads(u: Unit, t: Text)
    requires |t| >= 4 && t[..4] == LongEscape(u)[2..]
    ensures FromHex4(t) == Some(u)
  {
    hide HexDigit, FromHex;
    HexSplits(u);
    HexReads(u / 0x1000);
    HexReads(u / 0x100 % 16);
    HexReads(u / 0x10 % 16);
    HexReads(u % 16);
    var e := LongEscape(u);
    assert t[0] == t[..4][0] == e[2] && t[1] == t[..4][1] == e[3] && t[2] == t[..4][2] == e[4] && t[3] == t[..4][3] == e[5];
  }

  lemma LongEscapeReads(u: Unit, rest: Text)
    ensures ParseString(LongEscape(u) + rest) == Cons(u, ParseString(rest))
  {
    hide HexDigit, FromHex, FromHex4;
    var t := LongEscape(u) + rest;
    assert t[2..6] == LongEscape(u)[2..] && t[6..] == rest;
    assert t[2..6][..4] == t[2..6];
    Hex4Reads(u, t[2..6]);
  }

  lemma UnitReads(u: Unit, rest: Text)
    ensures ParseString(EscapeUnit(u) + rest) == Cons(u, ParseString(rest))
  {
    var t := EscapeUnit(u) + rest;
    if ShortEscape(u).Some? {
      assert t[2..] == rest;
    } else if u < 0x20 || High(u) || Low(u) {
      LongEscapeReads(u, rest);
    } else {
      assert t[1..] == rest;
    }
  }

  lemma RawReads(u: Unit, rest: Text)
    requires 0x20 <= u && u != QUOTE && u != BACKSLASH
    ensures ParseString([u] + rest) == Cons(u, ParseString(rest))
  {
    assert ([u] + rest)[1..] == rest;
  }

  lemma NothingReads(rest: Text)
    ensures ParseString([QUOTE] + rest) == Some(([], rest))
  {
    assert ([QUOTE] + rest)[1..] == rest;
  }

  // Every string reads back, whatever follows its closing quote.
  lemma {:induction false} StringReads(s: Text, rest: Text)
    ensures ParseString(Escape(s) + [QUOTE] + rest) == Some((s, rest))
  {
    hide ParseString, EscapeUnit;
    var t := Escape(s) + [QUOTE] + rest;
    if s == [] {
      assert t == [QUOTE] + rest;
      NothingReads(rest);
    } else if StartsWithPair(s) {
      var tail := Escape(s[2..]) + [QUOTE] + rest;
      StringReads(s[2..], rest);
      assert t == [s[0]] + ([s[1]] + tail);
      RawReads(s[1], tail);
      RawReads(s[0], [s[1]] + tail);
      assert s == [s[0]] + ([s[1]] + s[2..]);
    } else {
      var tail := Escape(s[1..]) + [QUOTE] + rest;
      StringReads(s[1..], rest);
      assert t == EscapeUnit(s[0]) + tail;
      UnitReads(s[0], tail);
      assert s == [s[0]] + s[1..];
    }
  }

  // ---------- Reading numbers ----------

  predicate IsDigit(c: Unit) {
    0x30 <= c <= 0x39
  }

  // The longest run of digits, and the text after it.
  function TakeDigits(t: Text): (r: (Text, Text))
    ensures r.0 + r.1 == t
    ensures forall c <- r.0 :: IsDigit(c)
    ensures r.1 == [] || !IsDigit(r.1[0])
  {
    if t == [] || !IsDigit(t[0]) then ([], t)
    else var (digits, rest) := TakeDigits(t[1..]); ([t[0]] + digits, rest)
  }

  function ValueOf(digits: Text): int {
    if digits == [] then 0 else ValueOf(digits[..|digits| - 1]) * 10 + digits[|digits| - 1] - 0x30
  }

  // A natural number without a leading zero.
  function ParseNat(t: Text): (r: Option<(int, Text)>)
    ensures r.Some? ==> |r.value.1| < |t|
  {
    var (digits, rest) := TakeDigits(t);
    if digits == [] || (|digits| > 1 && digits[0] == 0x30) then None else Some((ValueOf(digits), rest))
  }

  function ParseNumber(t: Text): (r: Option<(int, Text)>)
    ensures r.Some? ==> |r.value.1| < |t|
  {
    if t != [] && t[0] == MINUS then
      match ParseNat(t[1..])
      case Some((n, rest)) => Some((-n, rest))
      case None => None
    else ParseNat(t)
  }

  // What may follow a complete value.
  predicate Ends(rest: Text) {
    rest == [] || rest[0] == COMMA || rest[0] == CLOSE_ARRAY || rest[0] == CLOSE_OBJECT
  }

  lemma {:induction false} DigitsShape(n: nat)
    ensures |Digits(n)| >= 1 && (forall c <- Digits(n) :: IsDigit(c)) && ValueOf(Digits(n)) == n
    ensures Digits(n)[0] == 0x30 ==> n == 0
  {
    if n >= 10 {
      DigitsShape(n / 10);
      var d := Digits(n);
      assert d[..|d| - 1] == Digits(n / 10) && d[0] == Digits(n / 10)[0];
    } else {
      assert Digits(n)[..0] == [];
    }
  }

  // Digits without a leading zero are the digits of their value.
  lemma {:induction false} ValueDigits(d: Text)
    requires d != [] && (forall c <- d :: IsDigit(c)) && (|d| > 1 ==> d[0] != 0x30)
    ensures 0 <= ValueOf(d) && Digits(ValueOf(d)) == d && (d[0] != 0x30 ==> 1 <= ValueOf(d))
  {
    var n := |d| - 1;
    var front, last := d[..n], d[n];
    assert last in d && d == front + [last];
    if n > 0 {
      assert front[0] == d[0];
      forall c | c in front ensures IsDigit(c) { assert c in d; }
      ValueDigits(front);
      assert ValueOf(d) == ValueOf(front) * 10 + last - 0x30;
      assert ValueOf(d) / 10 == ValueOf(front) && ValueOf(d) % 10 == last - 0x30;
    } else {
      assert front == [];
    }
  }

  lemma {:induction false} DigitsTaken(d: Text, rest: Text)
    requires (forall c <- d :: IsDigit(c)) && (rest == [] || !IsDigit(rest[0]))
    ensures TakeDigits(d + rest) == (d, rest)
  {
    if d == [] {
      assert d + rest == rest;
    } else {
      assert (d + rest)[1..] == d[1..] + rest;
      DigitsTaken(d[1..], rest);
      assert d == [d[0]] + d[1..] && d[0] in d;
    }
  }

  lemma NatReads(n: nat, rest: Text)
    requires Ends(rest)
    ensures ParseNat(Digits(n) + rest) == Some((n, rest))
  {
    DigitsShape(n);
    DigitsTaken(Digits(n), rest);
  }

  lemma NumberReads(n: int, rest: Text)
    requires Ends(rest)
    ensures ParseNumber(Number(n) + rest) == Some((n, rest))
    ensures Number(n)[0] == MINUS || IsDigit(Number(n)[0])
  {
    hide ParseNat, Digits, ValueOf;
    if n < 0 {
      NatReads(-n, rest);
      assert (Number(n) + rest)[1..] == Digits(-n) + rest;
    } else {
      NatReads(n, rest);
      DigitsShape(n);
      assert Digits(n)[0] in Digits(n) && (Digits(n) + rest)[0] == Digits(n)[0];
    }
  }

  // ---------- Surrogates ----------

  // Text in which every surrogate is half of a pair, so that UTF-8 can carry it unchanged.
  predicate Paired(t: Text) {
    t == [] || (StartsWithPair(t) && Paired(t[2..])) || (!High(t[0]) && !Low(t[0]) && Paired(t[1..]))
  }

  lemma {:induction false} PairedConcat(a: Text, b: Text)
    requires Paired(a) && Paired(b)
    ensures Paired(a + b)
  {
    if a == [] {
      assert a + b == b;
    } else if StartsWithPair(a) {
      assert (a + b)[2..] == a[2..] + b;
      PairedConcat(a[2..], b);
    } else {
      assert (a + b)[1..] == a[1..] + b;
      PairedConcat(a[1..], b);
    }
  }

  lemma {:induction false} PlainPaired(t: Text)
    requires forall u <- t :: !High(u) && !Low(u)
    ensures Paired(t)
  {
    if t != [] { PlainPaired(t[1..]); }
  }

  lemma {:induction false} EscapePaired(s: Text)
    ensures Paired(Escape(s))
  {
    if s == [] {
    } else if StartsWithPair(s) {
      EscapePaired(s[2..]);
      assert s[..2][2..] == [];
      PairedConcat(s[..2], Escape(s[2..]));
    } else {
      EscapePaired(s[1..]);
      PlainPaired(EscapeUnit(s[0]));
      PairedConcat(EscapeUnit(s[0]), Escape(s[1..]));
    }
  }

  lemma QuotePaired(s: Text)
    ensures Paired(Quote(s))
  {
    EscapePaired(s);
    PlainPaired([QUOTE]);
    PairedConcat([QUOTE], Escape(s));
    PairedConcat([QUOTE] + Escape(s), [QUOTE]);
  }

  lemma NumberPaired(n: int)
    ensures Paired(Number(n))
  {
    DigitsShape(if n < 0 then -n else n);
    PlainPaired(Number(n));
  }

  // ---------- No shorter text ----------

  // Equal but for hexadecimal letters, which are lower-case here and upper-case there.
  predicate LowerCaseOf(t: Text, u: Text) {
    |t| == |u| && forall i :: 0 <= i < |t| ==> t[i] == u[i] || (0x41 <= u[i] <= 0x46 && t[i] == u[i] + 0x20)
  }

  lemma LowerConcat(a: Text, b: Text, c: Text, d: Text)
    requires LowerCaseOf(a, b) && LowerCaseOf(c, d)
    ensures LowerCaseOf(a + c, b + d)
  {
  }

  // How many units of text a string's first unit is read from.
  function FirstText(t: Text): nat
    requires t != []
  {
    if t[0] != BACKSLASH then 1 else if |t| >= 2 && t[1] == 0x75 then 6 else 2
  }

  predicate Quoted(t: Text, s: Text) {
    ParseString(t + [QUOTE]) == Some((s, []))
  }

  lemma NoHex(t: Text)
    requires |t| >= 4 && t[3] == QUOTE
    ensures FromHex4(t).None?
  {
  }

  lemma LongRead(t: Text, s: Text)
    requires s != [] && Quoted(t, s) && |t| >= 2 && t[0] == BACKSLASH && t[1] == 0x75
    ensures |t| >= 6 && FromHex4(t[2..6]) == Some(s[0]) && Quoted(t[6..], s[1..])
  {
    hide FromHex4;
    var w := t + [QUOTE];
    if |w| >= 6 {
      if |t| == 5 { NoHex(w[2..6]); }
      assert |t| >= 6;
      assert w[2..6] == t[2..6] && w[6..] == t[6..] + [QUOTE];
    }
  }

  lemma ShortRead(t: Text, s: Text)
    requires s != [] && Quoted(t, s) && t != [] && t[0] == BACKSLASH && (|t| >= 2 ==> t[1] != 0x75)
    ensures |t| >= 2 && FromShortEscape(t[1]) == Some(s[0]) && Quoted(t[2..], s[1..])
  {
    var w := t + [QUOTE];
    if |t| > 1 { assert w[2..] == t[2..] + [QUOTE]; }
  }

  lemma RawRead(t: Text, s: Text)
    requires s != [] && Quoted(t, s) && t != [] && t[0] != BACKSLASH
    ensures s[0] == t[0] && 0x20 <= t[0] && t[0] != QUOTE && Quoted(t[1..], s[1..])
  {
    var w := t + [QUOTE];
    assert w[1..] == t[1..] + [QUOTE];
  }

  lemma EmptyRead(t: Text, s: Text)
    requires Quoted(t, s)
    ensures t == [] <==> s == []
  {
    var w := t + [QUOTE];
    if t == [] { assert w == [QUOTE]; }
  }

  // What a unit that is no half of a pair is read from is no shorter than its own escape.
  lemma UnitShortest(t: Text, u: Unit)
    requires t != [] && FirstText(t) <= |t|
    requires t[0] != BACKSLASH ==> u == t[0] && 0x20 <= u && u != QUOTE && !High(u) && !Low(u)
    requires FirstText(t) == 2 ==> FromShortEscape(t[1]) == Some(u)
    requires FirstText(t) == 6 ==> FromHex4(t[2..6]) == Some(u)
    ensures var e, n := EscapeUnit(u), FirstText(t); |e| <= n && (|e| == n ==> LowerCaseOf(e, t[..n]))
  {
    var n := FirstText(t);
    if n == 6 && |EscapeUnit(u)| == 6 { HexLower(t[2..6], u); }
  }

  lemma DigitLower(c: Unit, n: nat)
    requires FromHex(c) == Some(n)
    ensures n < 16 && (HexDigit(n) == c || (0x41 <= c <= 0x46 && HexDigit(n) == c + 0x20))
  {
  }

  lemma NibbleOff(x: nat, d: int)
    requires 0 <= d < 16
    ensures (x * 16 + d) / 16 == x && (x * 16 + d) % 16 == d
  {
  }

  lemma NibbleDivs(u: nat)
    ensures u / 0x100 == u / 16 / 16 && u / 0x1000 == u / 16 / 16 / 16
  {
  }

  lemma HexParts(a: int, b: int, c: int, d: int)
    requires 0 <= a < 16 && 0 <= b < 16 && 0 <= c < 16 && 0 <= d < 16
    ensures var u := a * 0x1000 + b * 0x100 + c * 0x10 + d;
      u / 0x1000 == a && u / 0x100 % 16 == b && u / 0x10 % 16 == c && u % 16 == d
  {
    var u := a * 0x1000 + b * 0x100 + c * 0x10 + d;
    NibbleOff(a, b);
    NibbleOff(a * 16 + b, c);
    NibbleOff((a * 16 + b) * 16 + c, d);
    assert u == ((a * 16 + b) * 16 + c) * 16 + d;
    NibbleDivs(u);
  }

  lemma HexLower(t: Text, u: Unit)
    requires |t| == 4 && FromHex4(t) == Some(u)
    ensures LowerCaseOf(LongEscape(u)[2..], t)
  {
    var a, b, c, d := FromHex(t[0]).value, FromHex(t[1]).value, FromHex(t[2]).value, FromHex(t[3]).value;
    DigitLower(t[0], a);
    DigitLower(t[1], b);
    DigitLower(t[2], c);
    DigitLower(t[3], d);
    HexParts(a, b, c, d);
    hide FromHex, HexDigit;
  }

  lemma PairedRest(t: Text)
    requires Paired(t) && t != []
    ensures StartsWithPair(t) ==> Paired(t[2..])
    ensures !StartsWithPair(t) ==> !High(t[0]) && !Low(t[0]) && Paired(t[1..])
  {
  }

  // Skipping an escape leaves paired text.
  lemma {:induction false} PairedSkip(t: Text, n: nat)
    requires Paired(t) && n <= |t| && forall i :: 0 <= i < n ==> !High(t[i]) && !Low(t[i])
    ensures Paired(t[n..])
  {
    if n > 0 {
      PairedSkip(t[1..], n - 1);
      assert t[n..] == t[1..][n - 1..];
    }
  }

  lemma EscapePlain(t: Text)
    requires t != [] && t[0] == BACKSLASH && FirstText(t) <= |t|
    requires FirstText(t) == 2 ==> FromShortEscape(t[1]).Some?
    requires FirstText(t) == 6 ==> FromHex4(t[2..6]).Some?
    ensures forall i :: 0 <= i < FirstText(t) ==> !High(t[i]) && !Low(t[i])
  {
  }

  // What a first unit is read from.
  lemma FirstRead(t: Text, s: Text)
    requires s != [] && Quoted(t, s)
    ensures t != [] && FirstText(t) <= |t| && Quoted(t[FirstText(t)..], s[1..])
    ensures t[0] != BACKSLASH ==> s[0] == t[0] && 0x20 <= t[0] && t[0] != QUOTE
    ensures FirstText(t) == 2 ==> FromShortEscape(t[1]) == Some(s[0])
    ensures FirstText(t) == 6 ==> FromHex4(t[2..6]) == Some(s[0])
  {
    EmptyRead(t, s);
    if t[0] != BACKSLASH {
      RawRead(t, s);
    } else if |t| >= 2 && t[1] == 0x75 {
      LongRead(t, s);
    } else {
      ShortRead(t, s);
    }
  }

  // One step of the comparison: a first part and a rest, each no shorter than its own escape.
  lemma Longer(e: Text, rest: Text, t: Text, n: nat)
    requires n <= |t| && |e| <= n && (|e| == n ==> LowerCaseOf(e, t[..n]))
    requires |rest| <= |t| - n && (|rest| == |t| - n ==> LowerCaseOf(rest, t[n..]))
    ensures |e + rest| <= |t| && (|e + rest| == |t| ==> LowerCaseOf(e + rest, t))
  {
    if |e + rest| == |t| {
      LowerConcat(e, t[..n], rest, t[n..]);
      assert t == t[..n] + t[n..];
    }
  }

  // A pair at the start of the text is a pair at the start of the string.
  lemma PairRead(t: Text, s: Text)
    requires StartsWithPair(t) && Paired(t) && Quoted(t, s)
    ensures StartsWithPair(s) && s[..2] == t[..2] && Paired(t[2..]) && Quoted(t[2..], s[2..])
  {
    EmptyRead(t, s);
    hide Quoted, FromHex4, FromShortEscape;
    FirstRead(t, s);
    EmptyRead(t[1..], s[1..]);
    FirstRead(t[1..], s[1..]);
    assert t[1..][1..] == t[2..] && s[1..][1..] == s[2..] && s[..2] == t[..2];
    PairedRest(t);
  }

  // JSON.stringify's text of a string is the shortest that UTF-8 can carry and a JSON parser
  // reads back as that string; any other of its length differs only in writing hexadecimal
  // letters in upper case.
  lemma {:induction false} EscapeShortest(t: Text, s: Text)
    requires Paired(t) && Quoted(t, s)
    ensures |Escape(s)| <= |t|
    ensures |Escape(s)| == |t| ==> LowerCaseOf(Escape(s), t)
    decreases |t|
  {
    hide Quoted, FromHex4, FromShortEscape, EscapeUnit, LowerCaseOf, Paired;
    EmptyRead(t, s);
    if s == [] {
      SameLower(t);
    } else if StartsWithPair(t) {
      PairRead(t, s);
      EscapeShortest(t[2..], s[2..]);
      SameLower(t[..2]);
      Longer(s[..2], Escape(s[2..]), t, 2);
    } else {
      FirstRead(t, s);
      RestPaired(t, s);
      var n := FirstText(t);
      EscapeShortest(t[n..], s[1..]);
      if StartsWithPair(s) {
        HighIsLong(t, s);
        assert s[1..][1..] == s[2..];
        LowIsLong(s[1]);
      } else {
        UnitShortest(t, s[0]);
        Longer(EscapeUnit(s[0]), Escape(s[1..]), t, n);
      }
    }
  }

  lemma SameLower(t: Text)
    ensures LowerCaseOf(t, t)
  {
  }

  lemma RestPaired(t: Text, s: Text)
    requires s != [] && Paired(t) && !StartsWithPair(t) && Quoted(t, s)
    ensures t != [] && FirstText(t) <= |t| && Paired(t[FirstText(t)..]) && !High(t[0]) && !Low(t[0])
  {
    FirstRead(t, s);
    hide Quoted, FromHex4, FromShortEscape;
    PairedRest(t);
    if t[0] == BACKSLASH {
      EscapePlain(t);
      PairedSkip(t, FirstText(t));
    }
  }

  // A high surrogate is read from a long escape when it is not written as half of a pair.
  lemma HighIsLong(t: Text, s: Text)
    requires s != [] && High(s[0]) && t != [] && !High(t[0]) && FirstText(t) <= |t|
    requires t[0] != BACKSLASH ==> s[0] == t[0]
    requires FirstText(t) == 2 ==> FromShortEscape(t[1]) == Some(s[0])
    ensures FirstText(t) == 6
  {
  }

  lemma LowIsLong(u: Unit)
    requires Low(u)
    ensures |EscapeUnit(u)| == 6
  {
  }

  // ---------- The printed forms ----------

  lemma PrintedWords()
    ensures NULL == ['n' as int, 'u' as int, 'l' as int, 'l' as int]
    ensures TRUE == ['t' as int, 'r' as int, 'u' as int, 'e' as int]
    ensures FALSE == ['f' as int, 'a' as int, 'l' as int, 's' as int, 'e' as int]
    ensures [OPEN_ARRAY, CLOSE_ARRAY, OPEN_OBJECT, CLOSE_OBJECT, COMMA, COLON] == ['[' as int, ']' as int, '{' as int, '}' as int, ',' as int, ':' as int]
    ensures Number(0) == ['0' as int] && Number(-907) == ['-' as int, '9' as int, '0' as int, '7' as int]
  {
    assert Digits(90) == ['9' as int, '0' as int];
  }

  // The escapes of the quotation mark, the backslash and the named controls, and the shape of
  // the long ones; a solidus is written as it is.
  lemma PrintedEscapes()
    ensures EscapeUnit(0x22) == ['\\' as int, '\"' as int] && EscapeUnit(0x5C) == ['\\' as int, '\\' as int] && EscapeUnit(0x2F) == ['/' as int]
    ensures EscapeUnit(0x08) == ['\\' as int, 'b' as int] && EscapeUnit(0x0C) == ['\\' as int, 'f' as int]
    ensures EscapeUnit(0x0A) == ['\\' as int, 'n' as int] && EscapeUnit(0x0D) == ['\\' as int, 'r' as int] && EscapeUnit(0x09) == ['\\' as int, 't' as int]
    ensures EscapeUnit(0x1F) == ['\\' as int, 'u' as int, '0' as int, '0' as int, '1' as int, 'f' as int]
    ensures EscapeUnit(0xD8AB) == ['\\' as int, 'u' as int, 'd' as int, '8' as int, 'a' as int, 'b' as int]
  {
  }
}
