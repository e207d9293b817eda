/**
 The fixed-window request limiter of the compute server. Its count goes on rising for refused
 requests; what it accepts is what an anchored window of the same length accepts.
*/
module ComputeServer {
  import opened Results
  import opened RateWindows

  datatype Bucket = Bucket(count: int, resetAt: int)

  datatype Answer = Answer(allowed: bool, retryAfter: int)

  // The bucket a request counts in.
  function Current(buckets: map<string, Bucket>, key: string, now: int, l: Limit): Bucket {
    if key !in buckets || now >= buckets[key].resetAt then Bucket(0, now + l.windowMs) else buckets[key]
  }

  function Counted(buckets: map<string, Bucket>, key: string, now: int, l: Limit): map<string, Bucket> {
    var b := Current(buckets, key, now, l);
    buckets[key := b.(count := b.count + 1)]
  }

  function Allowed(buckets: map<string, Bucket>, key: string, now: int, l: Limit): bool {
    Current(buckets, key, now, l).count + 1 <= l.max
  }

  // Seconds until the window ends, rounded up.
  function SecondsUntil(resetAt: int, now: int): int {
    var seconds := (resetAt - now + 999) / 1000;
    if seconds < 1 then 1 else seconds
  }

  // A bucket as an anchored window, forgetting refused requests.
  function AnchorOf(buckets: map<string, Bucket>, key: string, l: Limit): Option<Anchor> {
    if key in buckets then
      Some(Anchor(buckets[key].resetAt - l.windowMs, if buckets[key].count < l.max then buckets[key].count else l.max))
    else None
  }

  // Taking from a bucket is taking from its anchored window, and leaves other keys alone.
  lemma BucketTakes(buckets: map<string, Bucket>, key: string, now: int, l: Limit)
    requires ValidLimit(l)
    ensures (AnchorOf(Counted(buckets, key, now, l), key, l), Allowed(buckets, key, now, l)) == Take(AnchorOf(buckets, key, l), now, l)
    ensures forall other :: other != key ==> AnchorOf(Counted(buckets, key, now, l), other, l) == AnchorOf(buckets, other, l)
  {
  }

  // ---------- Runs with history ----------

  datatype Request = Request(key: string, now: int)

  datatype State = State(buckets: map<string, Bucket>, history: map<string, History>, clock: int)

  function HistoryOf(s: State, key: string): History {
    if key in s.history then s.history[key] else NoHistory
  }

  function Step(l: Limit, s: State, r: Request): State {
    var h := HistoryOf(s, r.key);
    var opens := r.key !in s.buckets || r.now >= s.buckets[r.key].resetAt;
    State(Counted(s.buckets, r.key, r.now, l),
          s.history[r.key := History(if Allowed(s.buckets, r.key, r.now, l) then h.times + [r.now] else h.times,
                                     if opens then h.anchors + [r.now] else h.anchors)],
          r.now)
  }

  function Run(l: Limit, s: State, requests: seq<Request>): State
    decreases |requests|
  {
    if requests == [] then s else Run(l, Step(l, s, requests[0]), requests[1..])
  }

  predicate Monotone(clock: int, requests: seq<Request>)
    decreases |requests|
  {
    requests == [] || (clock <= requests[0].now && Monotone(requests[0].now, requests[1..]))
  }

  ghost predicate Inv(l: Limit, s: State) {
    ValidLimit(l) && forall key :: AnchoredInv(HistoryOf(s, key), AnchorOf(s.buckets, key, l), s.clock, l)
  }

  lemma StepKeeps(l: Limit, s: State, r: Request)
    requires Inv(l, s) && s.clock <= r.now
    ensures Inv(l, Step(l, s, r))
  {
    var t := Step(l, s, r);
    BucketTakes(s.buckets, r.key, r.now, l);
    TakeKeeps(HistoryOf(s, r.key), AnchorOf(s.buckets, r.key, l), s.clock, r.now, l);
    assert HistoryOf(t, r.key) == Record(HistoryOf(s, r.key), AnchorOf(s.buckets, r.key, l), r.now, l);
    hide AnchoredInv, Counted, Allowed, AnchorOf;
    forall key ensures AnchoredInv(HistoryOf(t, key), AnchorOf(t.buckets, key, l), r.now, l) {
      if key != r.key { AnchoredWaits(HistoryOf(s, key), AnchorOf(s.buckets, key, l), s.clock, r.now, l); }
    }
  }

  lemma {:induction false} RunKeeps(l: Limit, s: State, requests: seq<Request>)
    requires Inv(l, s) && Monotone(s.clock, requests)
    ensures Inv(l, Run(l, s, requests))
    decreases |requests|
  {
    hide Inv;
    if requests != [] {
      StepKeeps(l, s, requests[0]);
      RunKeeps(l, Step(l, s, requests[0]), requests[1..]);
    }
  }

  // For each key: at most max allowed requests in each window, and at most 2·max − 1 in any
  // half-open span of one window length.
  lemma AnchoredBound(l: Limit, start: int, requests: seq<Request>, key: string, t: int)
    requires ValidLimit(l) && Monotone(start, requests)
    ensures var h := HistoryOf(Run(l, State(map[], map[], start), requests), key);
            && Count(h.times, t, t + l.windowMs) <= 2 * l.max - 1
            && (t in h.anchors ==> Count(h.times, t, t + l.windowMs) <= l.max)
  {
    var s := State(map[], map[], start);
    NewHistory(start, l);
    assert Inv(l, s);
    RunKeeps(l, s, requests);
    var h := HistoryOf(Run(l, s, requests), key);
    hide Run;
    assert Span(h.times, t, l) <= 2 * l.max - 1;
    if t in h.anchors { assert Span(h.times, t, l) <= l.max; }
  }

  // ---------- The bound is reached ----------

  function Requests(key: string, times: seq<int>): seq<Request> {
    if times == [] then [] else [Request(key, times[0])] + Requests(key, times[1..])
  }

  // The requests of one key are those of a bare anchored window.
  lemma {:induction false} RunTakes(l: Limit, s: State, key: string, times: seq<int>)
    requires ValidLimit(l)
    ensures HistoryOf(Run(l, s, Requests(key, times)), key) == Runs(HistoryOf(s, key), AnchorOf(s.buckets, key, l), times, l)
    decreases |times|
  {
    if times != [] {
      var requests := Requests(key, times);
      assert requests[0] == Request(key, times[0]) && requests[1..] == Requests(key, times[1..]);
      var t := Step(l, s, requests[0]);
      BucketTakes(s.buckets, key, times[0], l);
      assert HistoryOf(t, key) == Record(HistoryOf(s, key), AnchorOf(s.buckets, key, l), times[0], l);
      RunTakes(l, t, key, times[1..]);
      hide Step, Take, Record, Requests, AnchorOf;
    }
  }

  lemma {:induction false} RequestsMonotone(key: string, clock: int, times: seq<int>)
    requires NonDecreasing(clock, times)
    ensures Monotone(clock, Requests(key, times))
    decreases |times|
  {
    if times != [] {
      assert Requests(key, times)[1..] == Requests(key, times[1..]);
      RequestsMonotone(key, times[0], times[1..]);
    }
  }

  // For every limit, some requests of one key get the most an anchored window lets into a span.
  lemma BoundReached(l: Limit, key: string) returns (requests: seq<Request>, t: int)
    requires ValidLimit(l)
    ensures Monotone(0, requests)
    ensures Span(HistoryOf(Run(l, State(map[], map[], 0), requests), key).times, t, l) == MostInSpan(l)
  {
    var times: seq<int>;
    times, t := AnchoredBoundReached(l);
    requests := Requests(key, times);
    RequestsMonotone(key, 0, times);
    RunTakes(l, State(map[], map[], 0), key, times);
  }

  // ---------- The limiter in place ----------

  class FixedWindowLimiter {
    const limit: Limit
    var buckets: map<string, Bucket>

    constructor (limit: Limit)
      requires ValidLimit(limit)
      ensures this.limit == limit && buckets == map[]
    {
      this.limit, buckets := limit, map[];
    }

    // Whoever waits as long as the answer says finds the window over.
    method Take(key: string, now: int) returns (a: Answer)
      modifies this
      ensures buckets == Counted(old(buckets), key, now, limit)
      ensures a.allowed <==> Allowed(old(buckets), key, now, limit)
      ensures key in old(buckets) && now < old(buckets)[key].resetAt ==>
        && buckets == old(buckets)[key := Bucket(old(buckets)[key].count + 1, old(buckets)[key].resetAt)]
        && (a.allowed <==> old(buckets)[key].count < limit.max)
      ensures !(key in old(buckets) && now < old(buckets)[key].resetAt) ==>
        buckets == old(buckets)[key := Bucket(1, now + limit.windowMs)] && (a.allowed <==> 1 <= limit.max)
      ensures a.retryAfter >= 1 && key in buckets && now + 1000 * a.retryAfter >= buckets[key].resetAt
      ensures a.retryAfter > 1 ==> now + 1000 * (a.retryAfter - 1) < buckets[key].resetAt
    {
      if key !in buckets || now >= buckets[key].resetAt {
        buckets := buckets[key := Bucket(0, now + limit.windowMs)];
      }
      var bucket := buckets[key].(count := buckets[key].count + 1);
      buckets := buckets[key := bucket];
      assert buckets == Counted(old(buckets), key, now, limit);
      a := Answer(bucket.count <= limit.max, SecondsUntil(bucket.resetAt, now));
    }
  }
}
