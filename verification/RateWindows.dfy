/**
 Rate limits over whole histories of accepted times: the sliding window that keeps only
 recent times, and the anchored window that keeps a start and a count.
*/
module RateWindows {
  import opened Results

  datatype Limit = Limit(windowMs: int, max: int)

  predicate ValidLimit(l: Limit) {
    0 < l.windowMs && 0 < l.max
  }

  // ---------- Counting ----------

  // How many times fall in the half-open span from lo to hi.
  function Count(h: seq<int>, lo: int, hi: int): nat {
    if h == [] then 0
    else Count(h[..|h| - 1], lo, hi) + if lo <= h[|h| - 1] < hi then 1 else 0
  }

  lemma CountPush(h: seq<int>, c: int, lo: int, hi: int)
    ensures Count(h + [c], lo, hi) == Count(h, lo, hi) + if lo <= c < hi then 1 else 0
  {
    assert (h + [c])[..|h|] == h;
  }

  lemma {:induction false} CountSplit(h: seq<int>, lo: int, mid: int, hi: int)
    requires lo <= mid <= hi
    ensures Count(h, lo, hi) == Count(h, lo, mid) + Count(h, mid, hi)
  {
    if h != [] { CountSplit(h[..|h| - 1], lo, mid, hi); }
  }

  lemma {:induction false} CountWithin(h: seq<int>, lo: int, hi: int, lo': int, hi': int)
    requires forall x <- h :: lo <= x < hi ==> lo' <= x < hi'
    ensures Count(h, lo, hi) <= Count(h, lo', hi')
  {
    if h != [] {
      assert h[|h| - 1] in h;
      var front := h[..|h| - 1];
      forall x | x in front && lo <= x < hi ensures lo' <= x < hi' { assert x in h; }
      CountWithin(front, lo, hi, lo', hi');
    }
  }

  ghost predicate UpTo(h: seq<int>, clock: int) {
    forall x <- h :: x <= clock
  }

  // ---------- The sliding window ----------

  // The times still inside the window at time c.
  function Recent(h: seq<int>, c: int, windowMs: int): seq<int> {
    if h == [] then []
    else Recent(h[..|h| - 1], c, windowMs) + if c - h[|h| - 1] < windowMs then [h[|h| - 1]] else []
  }

  lemma RecentPush(h: seq<int>, x: int, c: int, windowMs: int)
    ensures Recent(h + [x], c, windowMs) == Recent(h, c, windowMs) + if c - x < windowMs then [x] else []
  {
    assert (h + [x])[..|h|] == h;
  }

  // Pruning at one time and again later is pruning later.
  lemma {:induction false} RecentTwice(h: seq<int>, c: int, d: int, windowMs: int)
    requires c <= d
    ensures Recent(Recent(h, c, windowMs), d, windowMs) == Recent(h, d, windowMs)
  {
    if h != [] {
      RecentTwice(h[..|h| - 1], c, d, windowMs);
      var front := Recent(h[..|h| - 1], c, windowMs);
      if c - h[|h| - 1] < windowMs { RecentPush(front, h[|h| - 1], d, windowMs); } else { assert front + [] == front; }
    }
  }

  // Every time in a span that ends after c is still inside the window at c.
  lemma {:induction false} SpanIsRecent(h: seq<int>, c: int, t: int, windowMs: int)
    requires UpTo(h, c) && t <= c < t + windowMs
    ensures Count(h, t, t + windowMs) <= |Recent(h, c, windowMs)|
  {
    if h != [] {
      assert h[|h| - 1] in h;
      var front := h[..|h| - 1];
      forall x | x in front ensures x <= c { assert x in h; }
      SpanIsRecent(front, c, t, windowMs);
    }
  }

  // The accepted times in the half-open span of one window from t on.
  function Span(h: seq<int>, t: int, l: Limit): nat {
    Count(h, t, t + l.windowMs)
  }

  // At most so many accepted times in any half-open span of one window.
  ghost predicate Spaced(h: seq<int>, l: Limit, most: int) {
    forall t :: Span(h, t, l) <= most
  }

  // Accepting a time while fewer than max are recent keeps every span within max.
  lemma SlidingAccept(h: seq<int>, c: int, l: Limit)
    requires ValidLimit(l) && UpTo(h, c) && Spaced(h, l, l.max) && |Recent(h, c, l.windowMs)| < l.max
    ensures Spaced(h + [c], l, l.max) && UpTo(h + [c], c)
  {
    forall t ensures Span(h + [c], t, l) <= l.max {
      CountPush(h, c, t, t + l.windowMs);
      assert Span(h, t, l) <= l.max;
      if t <= c < t + l.windowMs { SpanIsRecent(h, c, t, l.windowMs); }
    }
  }

  // ---------- The anchored window ----------

  // The start of the current window and how many times it has accepted.
  datatype Anchor = Anchor(start: int, count: int)

  predicate InWindow(a: Option<Anchor>, now: int, l: Limit) {
    a.Some? && now - a.value.start < l.windowMs
  }

  function Take(a: Option<Anchor>, now: int, l: Limit): (r: (Option<Anchor>, bool)) {
    if !InWindow(a, now, l) then (Some(Anchor(now, 1)), true)
    else if a.value.count < l.max then (Some(a.value.(count := a.value.count + 1)), true)
    else (a, false)
  }

  // The accepted times so far, and the starts of all windows so far.
  datatype History = History(times: seq<int>, anchors: seq<int>)

  const NoHistory := History([], [])

  function Record(h: History, a: Option<Anchor>, now: int, l: Limit): History {
    var (_, accepted) := Take(a, now, l);
    History(if accepted then h.times + [now] else h.times, if !InWindow(a, now, l) then h.anchors + [now] else h.anchors)
  }

  ghost predicate CurrentOk(h: seq<int>, a: Anchor, clock: int, l: Limit) {
    && a.start <= clock && 1 <= a.count <= l.max && UpTo(h, a.start + l.windowMs - 1)
    && Count(h, a.start, clock + 1) == a.count
    && Count(h, a.start + 1, clock + 1) <= a.count - 1
    && Count(h, a.start - l.windowMs + 1, a.start) <= l.max - 1
  }

  ghost predicate AnchorsOk(h: History, a: Option<Anchor>, l: Limit) {
    && (forall x <- h.anchors :: Span(h.times, x, l) <= l.max)
    && (a.None? ==> h == NoHistory)
    && (a.Some? ==> forall x <- h.anchors :: x == a.value.start || x + l.windowMs <= a.value.start)
  }

  ghost predicate AnchoredInv(h: History, a: Option<Anchor>, clock: int, l: Limit) {
    && ValidLimit(l) && UpTo(h.times, clock)
    && (a.Some? ==> CurrentOk(h.times, a.value, clock, l))
    && AnchorsOk(h, a, l)
    && Spaced(h.times, l, 2 * l.max - 1)
  }

  // What holds of a session's accepted times, whether or not its window is still kept.
  ghost predicate Bounded(h: History, l: Limit) {
    && (forall x <- h.anchors :: Span(h.times, x, l) <= l.max)
    && Spaced(h.times, l, 2 * l.max - 1)
  }

  lemma InvBounded(h: History, a: Option<Anchor>, clock: int, l: Limit)
    requires AnchoredInv(h, a, clock, l)
    ensures Bounded(h, l)
  {
  }

  lemma NewHistory(clock: int, l: Limit)
    requires ValidLimit(l)
    ensures AnchoredInv(NoHistory, None, clock, l)
  {
    forall t ensures Span([], t, l) <= 2 * l.max - 1 {}
  }

  // Time passing changes nothing.
  lemma AnchoredWaits(h: History, a: Option<Anchor>, clock: int, now: int, l: Limit)
    requires AnchoredInv(h, a, clock, l) && clock <= now
    ensures AnchoredInv(h, a, now, l)
  {
    if a.Some? {
      var s := a.value.start;
      CountSplit(h.times, s, clock + 1, now + 1);
      CountSplit(h.times, s + 1, clock + 1, now + 1);
      NoneAfter(h.times, clock, clock + 1, now + 1);
      if s == clock {
        CountSplit(h.times, s, s + 1, now + 1);
        NoneAfter(h.times, clock, s + 1, now + 1);
      }
    }
  }

  lemma {:induction false} NoneAfter(h: seq<int>, clock: int, lo: int, hi: int)
    requires UpTo(h, clock) && clock < lo
    ensures Count(h, lo, hi) == 0
  {
    if h != [] {
      assert h[|h| - 1] in h;
      var front := h[..|h| - 1];
      forall x | x in front ensures x <= clock { assert x in h; }
      NoneAfter(front, clock, lo, hi);
    }
  }

  // Accepting in the current window.
  lemma SameWindow(h: seq<int>, a: Anchor, now: int, l: Limit)
    requires ValidLimit(l) && UpTo(h, now) && CurrentOk(h, a, now, l) && Spaced(h, l, 2 * l.max - 1)
    requires now < a.start + l.windowMs && a.count < l.max
    ensures CurrentOk(h + [now], a.(count := a.count + 1), now, l) && Spaced(h + [now], l, 2 * l.max - 1)
  {
    CountPush(h, now, a.start, now + 1);
    CountPush(h, now, a.start + 1, now + 1);
    CountPush(h, now, a.start - l.windowMs + 1, a.start);
    forall t ensures Span(h + [now], t, l) <= 2 * l.max - 1 {
      CountPush(h, now, t, t + l.windowMs);
      assert Span(h, t, l) <= 2 * l.max - 1;
      if t <= now < t + l.windowMs {
        if t <= a.start {
          CountSplit(h, t, a.start, t + l.windowMs);
          CountWithin(h, t, a.start, a.start - l.windowMs + 1, a.start);
          CountWithin(h, a.start, t + l.windowMs, a.start, now + 1);
        } else {
          CountWithin(h, t, t + l.windowMs, a.start, now + 1);
        }
      }
    }
  }

  // Opening a window: what the last one accepted after its start is all that a span can share.
  lemma NewWindow(h: seq<int>, a: Anchor, now: int, l: Limit)
    requires ValidLimit(l) && UpTo(h, now) && CurrentOk(h, a, now, l) && Spaced(h, l, 2 * l.max - 1)
    requires a.start + l.windowMs <= now
    ensures CurrentOk(h + [now], Anchor(now, 1), now, l) && Spaced(h + [now], l, 2 * l.max - 1)
  {
    CountPush(h, now, now, now + 1);
    CountPush(h, now, now + 1, now + 1);
    CountPush(h, now, now - l.windowMs + 1, now);
    NoneAfter(h, now - 1, now, now + 1);
    NoneAfter(h, now - 1, now + 1, now + 1);
    CountWithin(h, now - l.windowMs + 1, now, a.start + 1, now + 1);
    forall t ensures Span(h + [now], t, l) <= 2 * l.max - 1 {
      CountPush(h, now, t, t + l.windowMs);
      assert Span(h, t, l) <= 2 * l.max - 1;
      if t <= now < t + l.windowMs { CountWithin(h, t, t + l.windowMs, a.start + 1, now + 1); }
    }
  }

  // The first window.
  lemma FirstWindow(now: int, l: Limit)
    requires ValidLimit(l)
    ensures CurrentOk([now], Anchor(now, 1), now, l) && Spaced([now], l, 2 * l.max - 1)
  {
    assert [] + [now] == [now];
    CountPush([], now, now, now + 1);
    CountPush([], now, now + 1, now + 1);
    CountPush([], now, now - l.windowMs + 1, now);
    forall t ensures Span([now], t, l) <= 2 * l.max - 1 { CountPush([], now, t, t + l.windowMs); }
  }

  lemma AnchorPlaces(h: History, a: Option<Anchor>, now: int, l: Limit)
    requires ValidLimit(l) && AnchorsOk(h, a, l)
    ensures var (g, b) := (Record(h, a, now, l), Take(a, now, l).0);
            b.Some? && (forall x <- g.anchors :: x == b.value.start || (x in h.anchors && x + l.windowMs <= b.value.start))
  {
    hide Span;
  }

  // A time accepted now falls only in the window that starts last.
  lemma AnchorsTake(h: History, a: Option<Anchor>, now: int, l: Limit)
    requires ValidLimit(l) && UpTo(h.times, now) && AnchorsOk(h, a, l)
    requires var b := Take(a, now, l).0; b.Some? && b.value.start <= now && b.value.count <= l.max
    requires var b := Take(a, now, l).0; Count(Record(h, a, now, l).times, b.value.start, now + 1) == b.value.count
    ensures AnchorsOk(Record(h, a, now, l), Take(a, now, l).0, l)
  {
    var (g, b) := (Record(h, a, now, l), Take(a, now, l).0.value);
    AnchorPlaces(h, a, now, l);
    assert g.times == h.times || g.times == h.times + [now];
    assert UpTo(g.times, now);
    hide Take, Record, UpTo;
    forall x | x in g.anchors ensures Span(g.times, x, l) <= l.max {
      if x == b.start {
        UpToWithin(g.times, now, x, l);
      } else {
        CountPush(h.times, now, x, x + l.windowMs);
      }
    }
  }

  lemma UpToWithin(h: seq<int>, now: int, x: int, l: Limit)
    requires UpTo(h, now)
    ensures Span(h, x, l) <= Count(h, x, now + 1)
  {
    CountWithin(h, x, x + l.windowMs, x, now + 1);
  }

  lemma CurrentCount(h: seq<int>, a: Anchor, now: int, l: Limit)
    requires CurrentOk(h, a, now, l)
    ensures a.start <= now && a.count <= l.max && Count(h, a.start, now + 1) == a.count
  {
  }

  // Every request, accepted or not, keeps at most max accepted times in each window and at
  // most 2·max − 1 in any half-open span of one window length.
  lemma TakeKeeps(h: History, a: Option<Anchor>, clock: int, now: int, l: Limit)
    requires AnchoredInv(h, a, clock, l) && clock <= now
    ensures AnchoredInv(Record(h, a, now, l), Take(a, now, l).0, now, l)
  {
    AnchoredWaits(h, a, clock, now, l);
    hide CurrentOk, AnchorsOk, Spaced;
    if a.None? {
      NoTimes(h, a, l);
      FirstWindow(now, l);
    } else if !InWindow(a, now, l) {
      NewWindow(h.times, a.value, now, l);
    } else if a.value.count < l.max {
      SameWindow(h.times, a.value, now, l);
    }
    CurrentCount(Record(h, a, now, l).times, Take(a, now, l).0.value, now, l);
    AnchorsTake(h, a, now, l);
  }

  lemma NoTimes(h: History, a: Option<Anchor>, l: Limit)
    requires AnchorsOk(h, a, l) && a.None?
    ensures h == NoHistory && h.times + [0] == [0] && forall x: int :: [] + [x] == [x]
  {
  }

  // A request is refused exactly when its window is still open and has accepted max times.
  lemma RefusedIff(h: History, a: Option<Anchor>, clock: int, now: int, l: Limit)
    requires AnchoredInv(h, a, clock, l) && clock <= now
    ensures !Take(a, now, l).1 <==> a.Some? && now < a.value.start + l.windowMs && Count(h.times, a.value.start, now + 1) == l.max
  {
    AnchoredWaits(h, a, clock, now, l);
    if a.Some? { CurrentCount(h.times, a.value, now, l); }
  }

  // ---------- The bound is reached ----------

  function Runs(h: History, a: Option<Anchor>, times: seq<int>, l: Limit): History
    decreases |times|
  {
    if times == [] then h else Runs(Record(h, a, times[0], l), Take(a, times[0], l).0, times[1..], l)
  }

  predicate NonDecreasing(clock: int, times: seq<int>)
    decreases |times|
  {
    times == [] || (clock <= times[0] && NonDecreasing(times[0], times[1..]))
  }

  function Repeat(x: int, n: nat): seq<int> {
    if n == 0 then [] else [x] + Repeat(x, n - 1)
  }

  lemma {:induction false} RepeatOnly(x: int, n: nat)
    ensures forall y <- Repeat(x, n) :: y == x
    decreases n
  {
    if n > 0 { RepeatOnly(x, n - 1); }
  }

  lemma {:induction false} CountRepeat(h: seq<int>, x: int, n: nat, lo: int, hi: int)
    ensures Count(h + Repeat(x, n), lo, hi) == Count(h, lo, hi) + if lo <= x < hi then n else 0
    decreases n
  {
    hide Count;
    if n == 0 {
      assert h + [] == h;
    } else {
      CountPush(h, x, lo, hi);
      CountRepeat(h + [x], x, n - 1, lo, hi);
      assert h + Repeat(x, n) == h + [x] + Repeat(x, n - 1);
    }
  }

  lemma RunsStep(h: History, a: Option<Anchor>, x: int, rest: seq<int>, l: Limit)
    ensures Runs(h, a, [x] + rest, l) == Runs(Record(h, a, x, l), Take(a, x, l).0, rest, l)
  {
    assert ([x] + rest)[1..] == rest;
  }

  // While there is room, repeated requests at one time are all accepted.
  lemma {:induction false} RepeatAccepted(h: History, a: Anchor, x: int, n: nat, rest: seq<int>, l: Limit)
    requires x - a.start < l.windowMs && a.count + n <= l.max
    ensures Runs(h, Some(a), Repeat(x, n) + rest, l)
         == Runs(History(h.times + Repeat(x, n), h.anchors), Some(Anchor(a.start, a.count + n)), rest, l)
    decreases n
  {
    hide Runs;
    if n == 0 {
      assert [] + rest == rest && h.times + [] == h.times;
    } else {
      assert Repeat(x, n) + rest == [x] + (Repeat(x, n - 1) + rest);
      RunsStep(h, Some(a), x, Repeat(x, n - 1) + rest, l);
      assert Record(h, Some(a), x, l) == History(h.times + [x], h.anchors);
      RepeatAccepted(History(h.times + [x], h.anchors), Anchor(a.start, a.count + 1), x, n - 1, rest, l);
      assert h.times + Repeat(x, n) == h.times + [x] + Repeat(x, n - 1);
    }
  }

  // One request that opens a window, then as many more as it takes.
  lemma FullWindow(h: History, a: Option<Anchor>, start: int, x: int, rest: seq<int>, l: Limit)
    requires ValidLimit(l) && !InWindow(a, start, l) && x - start < l.windowMs
    ensures Runs(h, a, [start] + (Repeat(x, l.max - 1) + rest), l)
         == Runs(History(h.times + [start] + Repeat(x, l.max - 1), h.anchors + [start]), Some(Anchor(start, l.max)), rest, l)
  {
    hide Runs, Repeat;
    RunsStep(h, a, start, Repeat(x, l.max - 1) + rest, l);
    RepeatAccepted(History(h.times + [start], h.anchors + [start]), Anchor(start, 1), x, l.max - 1, rest, l);
  }

  lemma TwoWindowsCount(w: int, m: int)
    requires 2 <= w && 1 <= m
    ensures Count([] + [0] + Repeat(w - 1, m - 1) + [w] + Repeat(w, m - 1), 1, 1 + w) == 2 * m - 1
  {
    hide Repeat, Count;
    var first := [] + [0] + Repeat(w - 1, m - 1);
    CountRepeat(first + [w], w, m - 1, 1, 1 + w);
    CountPush(first, w, 1, 1 + w);
    CountRepeat([] + [0], w - 1, m - 1, 1, 1 + w);
    CountPush([], 0, 1, 1 + w);
    CountNone(1, 1 + w);
  }

  lemma CountNone(lo: int, hi: int)
    ensures Count([], lo, hi) == 0
  {
  }

  // With a window of at least two ticks, some requests get 2·max − 1 acceptances into one
  // half-open span.
  lemma LongWindowReached(l: Limit) returns (times: seq<int>)
    requires ValidLimit(l) && 2 <= l.windowMs
    ensures NonDecreasing(0, times) && Span(Runs(NoHistory, None, times, l).times, 1, l) == 2 * l.max - 1
    ensures forall x <- times :: 0 <= x <= l.windowMs
  {
    hide Runs, Repeat, Count;
    var w, m := l.windowMs, l.max;
    var second := [w] + (Repeat(w, m - 1) + []);
    times := [0] + (Repeat(w - 1, m - 1) + second);
    RepeatNonDecreasing(w, w, m - 1, []);
    OneThen(w - 1, w, Repeat(w, m - 1) + []);
    RepeatNonDecreasing(0, w - 1, m - 1, second);
    OneThen(0, 0, Repeat(w - 1, m - 1) + second);
    FullWindow(NoHistory, None, 0, w - 1, second, l);
    var h := History([] + [0] + Repeat(w - 1, m - 1), [] + [0]);
    FullWindow(h, Some(Anchor(0, m)), w, w, [], l);
    TwoWindowsCount(w, m);
    RunsNone(History(h.times + [w] + Repeat(w, m - 1), h.anchors + [w]), Some(Anchor(w, m)), l);
    LongTimes(times, w, m);
  }

  lemma LongTimes(times: seq<int>, w: int, m: int)
    requires 2 <= w && 1 <= m && times == [0] + (Repeat(w - 1, m - 1) + ([w] + (Repeat(w, m - 1) + [])))
    ensures forall x <- times :: 0 <= x <= w
  {
    RepeatOnly(w - 1, m - 1);
    RepeatOnly(w, m - 1);
    hide Repeat;
  }

  lemma {:induction false} RepeatNonDecreasing(clock: int, x: int, n: nat, rest: seq<int>)
    requires clock <= x && NonDecreasing(x, rest)
    ensures NonDecreasing(clock, Repeat(x, n) + rest)
    decreases n
  {
    if n == 0 {
      assert [] + rest == rest;
    } else {
      assert (Repeat(x, n) + rest)[1..] == Repeat(x, n - 1) + rest;
      RepeatNonDecreasing(x, x, n - 1, rest);
    }
  }

  lemma OneThen(clock: int, x: int, rest: seq<int>)
    requires clock <= x && NonDecreasing(x, rest)
    ensures NonDecreasing(clock, [x] + rest)
  {
    assert ([x] + rest)[1..] == rest;
  }

  lemma RunsNone(h: History, a: Option<Anchor>, l: Limit)
    ensures Runs(h, a, [], l) == h
  {
  }

  // ---------- When an anchored window is a rolling one ----------

  ghost predicate TimesAnchored(h: History) {
    forall x <- h.times :: x in h.anchors
  }

  // With a window of one tick, every accepted time is the start of a window.
  lemma TakeAnchored(h: History, a: Option<Anchor>, now: int, l: Limit)
    requires l.windowMs == 1 && TimesAnchored(h) && (a.Some? ==> a.value.start <= now && a.value.start in h.anchors)
    ensures TimesAnchored(Record(h, a, now, l))
    ensures var b := Take(a, now, l).0; b.Some? && b.value.start <= now && b.value.start in Record(h, a, now, l).anchors
  {
  }

  lemma {:induction false} RunsBounded(h: History, a: Option<Anchor>, clock: int, times: seq<int>, l: Limit)
    requires AnchoredInv(h, a, clock, l) && NonDecreasing(clock, times)
    requires a.Some? ==> a.value.start <= clock && a.value.start in h.anchors
    ensures Bounded(Runs(h, a, times, l), l)
    ensures l.windowMs == 1 && TimesAnchored(h) ==> TimesAnchored(Runs(h, a, times, l))
    decreases |times|
  {
    hide AnchoredInv, Bounded, TimesAnchored;
    if times == [] {
      InvBounded(h, a, clock, l);
    } else {
      var now := times[0];
      TakeKeeps(h, a, clock, now, l);
      if l.windowMs == 1 && TimesAnchored(h) { TakeAnchored(h, a, now, l); }
      RunsBounded(Record(h, a, now, l), Take(a, now, l).0, now, times[1..], l);
    }
  }

  lemma {:induction false} CountedIsIn(h: seq<int>, t: int)
    requires 0 < Count(h, t, t + 1)
    ensures t in h
  {
    if h[|h| - 1] != t { CountedIsIn(h[..|h| - 1], t); }
  }

  ghost predicate Rolling(l: Limit) {
    forall clock, times :: NonDecreasing(clock, times) ==> Spaced(Runs(NoHistory, None, times, l).times, l, l.max)
  }

  // An anchored window keeps every rolling window within max exactly when max is one or the
  // window is a single tick.
  lemma RollingIff(l: Limit)
    requires ValidLimit(l)
    ensures Rolling(l) <==> l.max == 1 || l.windowMs == 1
  {
    if l.max == 1 || l.windowMs == 1 {
      forall clock, times | NonDecreasing(clock, times) ensures Spaced(Runs(NoHistory, None, times, l).times, l, l.max) {
        NewHistory(clock, l);
        RunsBounded(NoHistory, None, clock, times, l);
        SmallSpans(Runs(NoHistory, None, times, l), l);
      }
    } else {
      var times := LongWindowReached(l);
      hide Runs;
      var h := Runs(NoHistory, None, times, l).times;
      assert NonDecreasing(0, times) && Span(h, 1, l) > l.max;
      assert !Spaced(h, l, l.max);
    }
  }

  lemma SmallSpans(h: History, l: Limit)
    requires ValidLimit(l) && Bounded(h, l) && (l.max == 1 || (l.windowMs == 1 && TimesAnchored(h)))
    ensures Spaced(h.times, l, l.max)
  {
    forall t ensures Span(h.times, t, l) <= l.max {
      assert Span(h.times, t, l) <= 2 * l.max - 1;
      if l.max != 1 && 0 < Span(h.times, t, l) {
        CountedIsIn(h.times, t);
        assert t in h.anchors;
      }
    }
  }

  // The most an anchored window lets into one half-open span of its length.
  function MostInSpan(l: Limit): int {
    if l.windowMs == 1 then l.max else 2 * l.max - 1
  }

  // Max requests at one time are all accepted.
  lemma AllAtOnce(l: Limit) returns (times: seq<int>)
    requires ValidLimit(l)
    ensures NonDecreasing(0, times) && Span(Runs(NoHistory, None, times, l).times, 0, l) == l.max
    ensures forall x <- times :: x == 0
  {
    hide Runs, Repeat, Count;
    times := [0] + (Repeat(0, l.max - 1) + []);
    RepeatNonDecreasing(0, 0, l.max - 1, []);
    OneThen(0, 0, Repeat(0, l.max - 1) + []);
    FullWindow(NoHistory, None, 0, 0, [], l);
    RunsNone(History([] + [0] + Repeat(0, l.max - 1), [] + [0]), Some(Anchor(0, l.max)), l);
    CountRepeat([] + [0], 0, l.max - 1, 0, l.windowMs);
    CountPush([], 0, 0, l.windowMs);
    CountNone(0, l.windowMs);
    OnceTimes(times, l.max - 1);
  }

  lemma OnceTimes(times: seq<int>, n: nat)
    requires times == [0] + (Repeat(0, n) + [])
    ensures forall x <- times :: x == 0
  {
    RepeatOnly(0, n);
    hide Repeat;
  }

  lemma {:induction false} CountAtMost(h: seq<int>, lo: int, hi: int)
    ensures Count(h, lo, hi) <= |h|
  {
    if h != [] { CountAtMost(h[..|h| - 1], lo, hi); }
  }

  // For every limit, no requests exceed that most, and some reach it.
  lemma AnchoredBoundReached(l: Limit) returns (times: seq<int>, t: int)
    requires ValidLimit(l)
    ensures NonDecreasing(0, times) && Span(Runs(NoHistory, None, times, l).times, t, l) == MostInSpan(l)
    ensures forall clock, others :: NonDecreasing(clock, others) ==> Spaced(Runs(NoHistory, None, others, l).times, l, MostInSpan(l))
  {
    RollingIff(l);
    forall clock, others | NonDecreasing(clock, others) ensures Spaced(Runs(NoHistory, None, others, l).times, l, MostInSpan(l)) {
      NewHistory(clock, l);
      RunsBounded(NoHistory, None, clock, others, l);
    }
    hide Runs;
    if l.windowMs == 1 {
      times := AllAtOnce(l);
      t := 0;
    } else {
      times := LongWindowReached(l);
      t := 1;
    }
  }
}
