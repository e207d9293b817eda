/**
 Pilot sessions in tables: each row keeps the start of its rate window and a turn count,
 read and written under the row's lock, so each authorisation is one step.
*/
module PostgresPilotSession {
  import opened Results
  import opened RateWindows

  datatype Row = Row(
    id: string, notice: string, active: bool, withdrawnAt: Option<int>, expiresAt: int,
    windowStart: Option<int>, turnCount: int)

  type Table = map<string, Row>

  datatype Policy = Policy(ttlMs: int, limit: Limit)

  datatype Error = ConsentRequired | TokenExists | NotAuthorised | SessionExpired | RateLimited | BadCutoff

  predicate ValidPolicy(p: Policy) {
    0 < p.ttlMs && ValidLimit(p.limit)
  }

  // ---------- Operations ----------

  function Issue(t: Table, p: Policy, token: string, id: string, consent: bool, notice: string, now: int): (Table, Result<(), Error>) {
    if !consent || notice == "" then (t, Err(ConsentRequired))
    else if token in t then (t, Err(TokenExists))
    else (t[token := Row(id, notice, true, None, now + p.ttlMs, None, 0)], Ok(()))
  }

  predicate RowInWindow(r: Row, p: Policy, now: int) {
    r.windowStart.Some? && now - r.windowStart.value < p.limit.windowMs
  }

  function Authorise(t: Table, p: Policy, token: Option<string>, now: int): (Table, Result<Row, Error>) {
    if token.None? || token.value !in t || !t[token.value].active then (t, Err(NotAuthorised))
    else
      var r := t[token.value];
      if r.expiresAt <= now then (t, Err(SessionExpired))
      else
        var inWindow := RowInWindow(r, p, now);
        var count := if inWindow then r.turnCount else 0;
        if count >= p.limit.max then (t, Err(RateLimited))
        else
          var row := r.(windowStart := if inWindow then r.windowStart else Some(now), turnCount := count + 1);
          (t[token.value := row], Ok(row))
  }

  function Withdraw(t: Table, token: Option<string>, now: int): (Table, Result<string, Error>) {
    if token.None? || token.value !in t || !t[token.value].active then (t, Err(NotAuthorised))
    else (t[token.value := t[token.value].(active := false, withdrawnAt := Some(now))], Ok(t[token.value].id))
  }

  predicate Purgeable(r: Row, cutoff: int) {
    r.expiresAt <= cutoff || (!r.active && r.withdrawnAt.Some? && r.withdrawnAt.value <= cutoff)
  }

  function PurgeExpired(t: Table, cutoff: int, now: int): (Table, Result<int, Error>) {
    if cutoff > now then (t, Err(BadCutoff))
    else
      var kept := map token | token in t && !Purgeable(t[token], cutoff) :: t[token];
      (kept, Ok(|t| - |kept|))
  }

  // ---------- Runs with history ----------

  datatype Op =
    | OpIssue(token: string, id: string, consent: bool, notice: string, now: int)
    | OpAuthorise(bearer: Option<string>, now: int)
    | OpWithdraw(bearer: Option<string>, now: int)
    | OpPurge(cutoff: int, now: int)

  datatype State = State(table: Table, history: map<string, History>, clock: int)

  // The rate columns of a row as an anchored window.
  function AnchorOf(r: Row): Option<Anchor> {
    if r.windowStart.Some? then Some(Anchor(r.windowStart.value, r.turnCount)) else None
  }

  // The history of a row's session after an authorisation.
  function Noted(p: Policy, s: State, token: string, now: int): History
    requires token in s.table && token in s.history
  {
    Record(s.history[token], AnchorOf(s.table[token]), now, p.limit)
  }

  function Step(p: Policy, s: State, op: Op): State {
    match op
    case OpIssue(token, id, consent, notice, now) =>
      var (table, r) := Issue(s.table, p, token, id, consent, notice, now);
      State(table, if r.Ok? then s.history[token := NoHistory] else s.history, now)
    case OpAuthorise(bearer, now) =>
      var (table, r) := Authorise(s.table, p, bearer, now);
      State(table, if r.Ok? && bearer.Some? && bearer.value in s.table && bearer.value in s.history
                   then s.history[bearer.value := Noted(p, s, bearer.value, now)] else s.history, now)
    case OpWithdraw(bearer, now) => State(Withdraw(s.table, bearer, now).0, s.history, now)
    case OpPurge(cutoff, now) => State(PurgeExpired(s.table, cutoff, now).0, s.history, now)
  }

  function Run(p: Policy, s: State, ops: seq<Op>): State
    decreases |ops|
  {
    if ops == [] then s else Run(p, Step(p, s, ops[0]), ops[1..])
  }

  predicate Monotone(clock: int, ops: seq<Op>)
    decreases |ops|
  {
    ops == [] || (clock <= ops[0].now && Monotone(ops[0].now, ops[1..]))
  }

  ghost predicate Inv(p: Policy, s: State) {
    && ValidPolicy(p)
    && (forall token <- s.table :: token in s.history && AnchoredInv(s.history[token], AnchorOf(s.table[token]), s.clock, p.limit))
    && (forall token <- s.history :: Bounded(s.history[token], p.limit))
  }

  // The columns move as the anchored window does: refused exactly when it refuses.
  lemma RowTakes(t: Table, p: Policy, token: string, now: int)
    requires ValidPolicy(p) && token in t && t[token].active && now < t[token].expiresAt
    ensures var (u, r) := Authorise(t, p, Some(token), now);
            && (r.Ok? <==> Take(AnchorOf(t[token]), now, p.limit).1)
            && token in u && AnchorOf(u[token]) == Take(AnchorOf(t[token]), now, p.limit).0
            && (r.Err? ==> r.error == RateLimited && u == t)
  {
  }

  lemma AuthoriseKeeps(p: Policy, s: State, bearer: Option<string>, now: int)
    requires Inv(p, s) && s.clock <= now
    ensures Inv(p, Step(p, s, OpAuthorise(bearer, now)))
  {
    var t := Step(p, s, OpAuthorise(bearer, now));
    if Authorise(s.table, p, bearer, now).1.Ok? {
      var token := bearer.value;
      RowTakes(s.table, p, token, now);
      TakeKeeps(s.history[token], AnchorOf(s.table[token]), s.clock, now, p.limit);
      InvBounded(t.history[token], AnchorOf(t.table[token]), now, p.limit);
    }
    hide AnchoredInv, Bounded, Take, Record;
    forall k | k in t.table ensures k in t.history && AnchoredInv(t.history[k], AnchorOf(t.table[k]), now, p.limit) {
      AnchoredWaits(s.history[k], AnchorOf(s.table[k]), s.clock, now, p.limit);
    }
  }

  lemma StepKeeps(p: Policy, s: State, op: Op)
    requires Inv(p, s) && s.clock <= op.now
    ensures Inv(p, Step(p, s, op))
  {
    NewHistory(op.now, p.limit);
    InvBounded(NoHistory, None, op.now, p.limit);
    hide AnchoredInv, Bounded, Authorise, Noted;
    forall k | k in s.table ensures AnchoredInv(s.history[k], AnchorOf(s.table[k]), op.now, p.limit) {
      AnchoredWaits(s.history[k], AnchorOf(s.table[k]), s.clock, op.now, p.limit);
    }
    match op
    case OpAuthorise(bearer, now) => AuthoriseKeeps(p, s, bearer, now);
    case _ =>
  }

  lemma {:induction false} RunKeeps(p: Policy, s: State, ops: seq<Op>)
    requires Inv(p, s) && Monotone(s.clock, ops)
    ensures Inv(p, Run(p, s, ops))
    decreases |ops|
  {
    hide Inv;
    if ops != [] {
      StepKeeps(p, s, ops[0]);
      RunKeeps(p, Step(p, s, ops[0]), ops[1..]);
    }
  }

  // Over a session's whole history: at most max turns in each window, and at most 2·max − 1
  // in any half-open span of one window length.
  lemma AnchoredBound(p: Policy, start: int, ops: seq<Op>, token: string, t: int)
    requires ValidPolicy(p) && Monotone(start, ops) && token in Run(p, State(map[], map[], start), ops).history
    ensures var h := Run(p, State(map[], map[], start), ops).history[token];
            && Count(h.times, t, t + p.limit.windowMs) <= 2 * p.limit.max - 1
            && (t in h.anchors ==> Count(h.times, t, t + p.limit.windowMs) <= p.limit.max)
  {
    var s := State(map[], map[], start);
    assert Inv(p, s);
    RunKeeps(p, s, ops);
    var h := Run(p, s, ops).history[token];
    hide Run;
    assert Bounded(h, p.limit);
    assert Span(h.times, t, p.limit) <= 2 * p.limit.max - 1;
    if t in h.anchors { assert Span(h.times, t, p.limit) <= p.limit.max; }
  }

  // ---------- Exactly how many turns a span can hold ----------

  // A session that expires within one window never opens a second.
  ghost predicate ShortOk(p: Policy, s: State) {
    && (forall token <- s.history :: |s.history[token].times| <= p.limit.max)
    && (forall token <- s.table :: token in s.history &&
          var (r, n) := (s.table[token], |s.history[token].times|);
          if r.windowStart.None? then n == 0 && r.expiresAt <= s.clock + p.ttlMs
          else n == r.turnCount && r.expiresAt <= r.windowStart.value + p.ttlMs)
  }

  lemma ShortKeeps(p: Policy, s: State, op: Op)
    requires ValidPolicy(p) && p.ttlMs <= p.limit.windowMs && ShortOk(p, s) && s.clock <= op.now
    ensures ShortOk(p, Step(p, s, op))
  {
    match op
    case OpAuthorise(bearer, now) => ShortAuthorise(p, s, bearer, now);
    case _ => hide Authorise, Record;
  }

  lemma ShortAuthorise(p: Policy, s: State, bearer: Option<string>, now: int)
    requires ValidPolicy(p) && p.ttlMs <= p.limit.windowMs && ShortOk(p, s) && s.clock <= now
    ensures ShortOk(p, Step(p, s, OpAuthorise(bearer, now)))
  {
  }

  lemma {:induction false} ShortRun(p: Policy, s: State, ops: seq<Op>)
    requires ValidPolicy(p) && p.ttlMs <= p.limit.windowMs && ShortOk(p, s) && Monotone(s.clock, ops)
    ensures ShortOk(p, Run(p, s, ops))
    decreases |ops|
  {
    hide ShortOk;
    if ops != [] {
      ShortKeeps(p, s, ops[0]);
      ShortRun(p, Step(p, s, ops[0]), ops[1..]);
    }
  }

  // With a window of one tick, every accepted turn starts one.
  ghost predicate TickOk(s: State) {
    && (forall token <- s.history :: TimesAnchored(s.history[token]))
    && (forall token <- s.table :: token in s.history &&
          (s.table[token].windowStart.Some? ==> s.table[token].windowStart.value <= s.clock && s.table[token].windowStart.value in s.history[token].anchors))
  }

  lemma TickAuthorise(p: Policy, s: State, bearer: Option<string>, now: int)
    requires ValidPolicy(p) && p.limit.windowMs == 1 && TickOk(s) && s.clock <= now
    ensures TickOk(Step(p, s, OpAuthorise(bearer, now)))
  {
    if Authorise(s.table, p, bearer, now).1.Ok? {
      RowTakes(s.table, p, bearer.value, now);
      TakeAnchored(s.history[bearer.value], AnchorOf(s.table[bearer.value]), now, p.limit);
    }
    hide TimesAnchored, Record, Take;
  }

  lemma TickKeeps(p: Policy, s: State, op: Op)
    requires ValidPolicy(p) && p.limit.windowMs == 1 && TickOk(s) && s.clock <= op.now
    ensures TickOk(Step(p, s, op))
  {
    match op
    case OpAuthorise(bearer, now) => TickAuthorise(p, s, bearer, now);
    case _ =>
  }

  lemma {:induction false} TickRun(p: Policy, s: State, ops: seq<Op>)
    requires ValidPolicy(p) && p.limit.windowMs == 1 && TickOk(s) && Monotone(s.clock, ops)
    ensures TickOk(Run(p, s, ops))
    decreases |ops|
  {
    hide TickOk;
    if ops != [] {
      TickKeeps(p, s, ops[0]);
      TickRun(p, Step(p, s, ops[0]), ops[1..]);
    }
  }

  // The most turns of one session in one span: a single window's, if sessions expire within one
  // window or the window is one tick.
  function MostTurns(p: Policy): int {
    if p.limit.windowMs == 1 || p.ttlMs <= p.limit.windowMs then p.limit.max else 2 * p.limit.max - 1
  }

  function Fresh(start: int): State {
    State(map[], map[], start)
  }

  lemma TurnsBounded(p: Policy, start: int, ops: seq<Op>, token: string, t: int)
    requires ValidPolicy(p) && Monotone(start, ops) && token in Run(p, Fresh(start), ops).history
    ensures Span(Run(p, Fresh(start), ops).history[token].times, t, p.limit) <= MostTurns(p)
  {
    var h := Run(p, Fresh(start), ops).history[token];
    if p.ttlMs <= p.limit.windowMs {
      ShortRun(p, Fresh(start), ops);
      CountAtMost(h.times, t, t + p.limit.windowMs);
    } else {
      assert Inv(p, Fresh(start));
      RunKeeps(p, Fresh(start), ops);
      if p.limit.windowMs == 1 { TickRun(p, Fresh(start), ops); }
      hide Run;
      assert Bounded(h, p.limit);
      if p.limit.windowMs == 1 { SmallSpans(h, p.limit); }
      assert Span(h.times, t, p.limit) <= MostTurns(p);
    }
  }

  function Authorisations(token: string, times: seq<int>): seq<Op> {
    if times == [] then [] else [OpAuthorise(Some(token), times[0])] + Authorisations(token, times[1..])
  }

  // While a session lives, its authorisations are requests of a bare anchored window.
  lemma {:induction false} RunAuthorises(p: Policy, s: State, token: string, times: seq<int>)
    requires ValidPolicy(p) && token in s.table && token in s.history && s.table[token].active
    requires forall x <- times :: x < s.table[token].expiresAt
    ensures token in Run(p, s, Authorisations(token, times)).history
    ensures Run(p, s, Authorisations(token, times)).history[token] == Runs(s.history[token], AnchorOf(s.table[token]), times, p.limit)
    decreases |times|
  {
    if times != [] {
      var ops := Authorisations(token, times);
      assert ops[0] == OpAuthorise(Some(token), times[0]) && ops[1..] == Authorisations(token, times[1..]);
      assert times[0] in times;
      var t := Step(p, s, ops[0]);
      RowTakes(s.table, p, token, times[0]);
      StepAuthorises(p, s, token, times[0]);
      forall x | x in times[1..] ensures x < s.table[token].expiresAt { assert x in times; }
      RunAuthorises(p, t, token, times[1..]);
      hide Step, Take, Record, Authorisations;
    }
  }

  lemma StepAuthorises(p: Policy, s: State, token: string, now: int)
    requires ValidPolicy(p) && token in s.table && token in s.history && s.table[token].active && now < s.table[token].expiresAt
    ensures var t := Step(p, s, OpAuthorise(Some(token), now));
            && token in t.table && token in t.history && t.table[token].active && t.table[token].expiresAt == s.table[token].expiresAt
            && AnchorOf(t.table[token]) == Take(AnchorOf(s.table[token]), now, p.limit).0
            && t.history[token] == Record(s.history[token], AnchorOf(s.table[token]), now, p.limit)
  {
    RowTakes(s.table, p, token, now);
  }

  lemma {:induction false} AuthorisationsMonotone(token: string, clock: int, times: seq<int>)
    requires NonDecreasing(clock, times)
    ensures Monotone(clock, Authorisations(token, times))
    decreases |times|
  {
    if times != [] {
      var ops := Authorisations(token, times);
      assert ops[1..] == Authorisations(token, times[1..]);
      AuthorisationsMonotone(token, times[0], times[1..]);
    }
  }

  // For every policy, some run of one session reaches that most.
  lemma MostTurnsReached(p: Policy) returns (ops: seq<Op>, token: string, t: int)
    requires ValidPolicy(p)
    ensures Monotone(0, ops) && token in Run(p, Fresh(0), ops).history
    ensures Span(Run(p, Fresh(0), ops).history[token].times, t, p.limit) == MostTurns(p)
  {
    var times: seq<int>;
    if p.limit.windowMs == 1 || p.ttlMs <= p.limit.windowMs {
      times := AllAtOnce(p.limit);
      t := 0;
    } else {
      times := LongWindowReached(p.limit);
      t := 1;
    }
    token := "token";
    var issue := OpIssue(token, "session", true, "notice", 0);
    var rest := Authorisations(token, times);
    ops := [issue] + rest;
    assert ops[0] == issue && ops[1..] == rest;
    AuthorisationsMonotone(token, 0, times);
    var s := Step(p, Fresh(0), issue);
    assert s.table[token] == Row("session", "notice", true, None, p.ttlMs, None, 0) && s.history[token] == NoHistory;
    RunAuthorises(p, s, token, times);
    hide Step, Runs, Span, Authorisations, Monotone, NonDecreasing;
  }

  // Whether no session of any run ever gets more than max turns in a rolling window.
  ghost predicate Rolling(p: Policy) {
    forall start, ops, token, t :: Monotone(start, ops) && token in Run(p, Fresh(start), ops).history
      ==> Span(Run(p, Fresh(start), ops).history[token].times, t, p.limit) <= p.limit.max
  }

  // The store keeps the rolling limit exactly when the limit is one turn, the window one tick,
  // or sessions expire within one window.
  lemma RollingIff(p: Policy)
    requires ValidPolicy(p)
    ensures Rolling(p) <==> p.limit.max == 1 || p.limit.windowMs == 1 || p.ttlMs <= p.limit.windowMs
  {
    if p.limit.max == 1 || p.limit.windowMs == 1 || p.ttlMs <= p.limit.windowMs {
      forall start, ops, token, t | Monotone(start, ops) && token in Run(p, Fresh(start), ops).history
        ensures Span(Run(p, Fresh(start), ops).history[token].times, t, p.limit) <= p.limit.max
      {
        TurnsBounded(p, start, ops, token, t);
      }
    } else {
      var ops, token, t := MostTurnsReached(p);
    }
  }

  // ---------- Issued, expired, withdrawn ----------

  // Until its token is issued again, a row keeps its session and life, and never becomes active.
  predicate Continues(t: Table, u: Table, token: string) {
    token in u ==>
      && token in t && u[token].id == t[token].id && u[token].notice == t[token].notice && u[token].expiresAt == t[token].expiresAt
      && (u[token].active ==> t[token].active)
  }

  lemma RowStays(p: Policy, s: State, op: Op, token: string)
    requires !(op.OpIssue? && op.token == token)
    ensures Continues(s.table, Step(p, s, op).table, token)
  {
  }

  lemma {:induction false} RowLasts(p: Policy, s: State, ops: seq<Op>, token: string)
    requires forall op <- ops :: !(op.OpIssue? && op.token == token)
    ensures Continues(s.table, Run(p, s, ops).table, token)
    decreases |ops|
  {
    if ops != [] {
      RowStays(p, s, ops[0], token);
      RowLasts(p, Step(p, s, ops[0]), ops[1..], token);
    }
  }

  // Once withdrawn, a session is never authorised again, whatever else happens.
  lemma WithdrawnStaysOut(p: Policy, s: State, token: string, now: int, ops: seq<Op>, later: int)
    requires forall op <- ops :: !(op.OpIssue? && op.token == token)
    ensures Authorise(Run(p, Step(p, s, OpWithdraw(Some(token), now)), ops).table, p, Some(token), later).1 == Err(NotAuthorised)
  {
    RowLasts(p, Step(p, s, OpWithdraw(Some(token), now)), ops, token);
  }

  // A session issued at some time is authorised only before that time plus its life.
  lemma IssuedUntil(p: Policy, s: State, token: string, id: string, notice: string, now: int, ops: seq<Op>, later: int)
    requires notice != "" && token !in s.table && forall op <- ops :: !(op.OpIssue? && op.token == token)
    ensures var t := Run(p, Step(p, s, OpIssue(token, id, true, notice, now)), ops);
      && (Authorise(t.table, p, Some(token), later).1.Ok? ==> later < now + p.ttlMs)
      && (token in t.table ==> t.table[token].id == id && t.table[token].notice == notice && t.table[token].expiresAt == now + p.ttlMs)
    ensures token in Step(p, s, OpIssue(token, id, true, notice, now)).table
  {
    RowLasts(p, Step(p, s, OpIssue(token, id, true, notice, now)), ops, token);
  }

  // After a purge exactly the sessions that had neither expired nor been withdrawn by the cutoff
  // are left, as they were.
  lemma PurgedGone(p: Policy, s: State, cutoff: int, now: int, token: string)
    requires cutoff <= now
    ensures var t := Step(p, s, OpPurge(cutoff, now));
      && (token in t.table <==>
            && token in s.table && cutoff < s.table[token].expiresAt
            && (s.table[token].active || s.table[token].withdrawnAt.None? || cutoff < s.table[token].withdrawnAt.value))
      && (token in t.table ==> t.table[token] == s.table[token])
  {
  }

  // ---------- Purging is invisible ----------

  function Status(e: Error): int {
    match e
    case ConsentRequired => 400
    case TokenExists => 500
    case NotAuthorised => 401
    case SessionExpired => 401
    case RateLimited => 429
    case BadCutoff => 400
  }

  function Outcome(r: Result<Row, Error>): int {
    if r.Ok? then 200 else Status(r.error)
  }

  function TableAfter(p: Policy, t: Table, op: Op): Table {
    Step(p, State(t, map[], op.now), op).table
  }

  // The outcomes of the authorise calls of a run, in order.
  function Outcomes(p: Policy, t: Table, ops: seq<Op>): seq<int>
    decreases |ops|
  {
    if ops == [] then []
    else
      (if ops[0].OpAuthorise? then [Outcome(Authorise(t, p, ops[0].bearer, ops[0].now).1)] else [])
      + Outcomes(p, TableAfter(p, t, ops[0]), ops[1..])
  }

  function WithoutPurges(ops: seq<Op>): seq<Op> {
    if ops == [] then [] else if ops[0].OpPurge? then WithoutPurges(ops[1..]) else [ops[0]] + WithoutPurges(ops[1..])
  }

  // Every issued token is new: 32 random bytes do not repeat.
  predicate FreshTokens(used: set<string>, ops: seq<Op>)
    decreases |ops|
  {
    if ops == [] then true
    else if ops[0].OpIssue? then ops[0].token !in used && FreshTokens(used + {ops[0].token}, ops[1..])
    else FreshTokens(used, ops[1..])
  }

  // t has every row of s but some that can never be authorised again: expired by now, or
  // withdrawn.
  ghost predicate Lacks(s: Table, t: Table, used: set<string>, clock: int) {
    && s.Keys <= used
    && (forall token <- t :: token in s && s[token] == t[token])
    && (forall token <- s :: token in t || s[token].expiresAt <= clock || !s[token].active)
  }

  function UsedAfter(used: set<string>, op: Op): set<string> {
    if op.OpIssue? then used + {op.token} else used
  }

  lemma SameOutcome(p: Policy, s: Table, t: Table, used: set<string>, clock: int, op: Op)
    requires Lacks(s, t, used, clock) && clock <= op.now && !op.OpPurge? && (op.OpIssue? ==> op.token !in used)
    ensures Lacks(TableAfter(p, s, op), TableAfter(p, t, op), UsedAfter(used, op), op.now)
    ensures op.OpAuthorise? ==> Outcome(Authorise(s, p, op.bearer, op.now).1) == Outcome(Authorise(t, p, op.bearer, op.now).1)
  {
  }

  lemma PurgeLacks(p: Policy, s: Table, t: Table, used: set<string>, clock: int, op: Op)
    requires Lacks(s, t, used, clock) && clock <= op.now && op.OpPurge?
    ensures Lacks(s, TableAfter(p, t, op), used, op.now)
  {
  }

  lemma {:induction false} LackingSame(p: Policy, s: Table, t: Table, used: set<string>, clock: int, ops: seq<Op>)
    requires Lacks(s, t, used, clock) && Monotone(clock, ops) && FreshTokens(used, ops)
    ensures Outcomes(p, t, ops) == Outcomes(p, s, WithoutPurges(ops))
    decreases |ops|
  {
    if ops != [] {
      var op := ops[0];
      if op.OpPurge? {
        PurgeLacks(p, s, t, used, clock, op);
        LackingSame(p, s, TableAfter(p, t, op), used, op.now, ops[1..]);
      } else {
        SameOutcome(p, s, t, used, clock, op);
        LackingSame(p, TableAfter(p, s, op), TableAfter(p, t, op), UsedAfter(used, op), op.now, ops[1..]);
        hide Authorise, TableAfter, Lacks;
        assert WithoutPurges(ops)[0] == op && WithoutPurges(ops)[1..] == WithoutPurges(ops[1..]);
      }
    }
  }

  // With fresh tokens, leaving out every purge of a run changes no authorisation: a missing, a
  // withdrawn and an expired session all answer 401.
  lemma PurgesInvisible(p: Policy, t: Table, used: set<string>, clock: int, ops: seq<Op>)
    requires t.Keys <= used && Monotone(clock, ops) && FreshTokens(used, ops)
    ensures Outcomes(p, t, ops) == Outcomes(p, t, WithoutPurges(ops))
  {
    LackingSame(p, t, t, used, clock, ops);
  }

  // ---------- The store in place ----------

  class PostgresPilotSessionStore {
    const policy: Policy
    var table: map<string, Row>

    constructor (policy: Policy)
      requires ValidPolicy(policy)
      ensures this.policy == policy && table == map[]
    {
      this.policy, table := policy, map[];
    }

    method IssueSession(token: string, id: string, consent: bool, notice: string, now: int) returns (r: Result<(), Error>)
      modifies this
      ensures (table, r) == Issue(old(table), policy, token, id, consent, notice, now)
      ensures r.Ok? <==> consent && notice != "" && token !in old(table)
      ensures r == Err(ConsentRequired) <==> !(consent && notice != "")
      ensures Status(ConsentRequired) == 400
      ensures r.Err? ==> table == old(table)
      ensures r.Ok? ==> table == old(table)[token := Row(id, notice, true, None, now + policy.ttlMs, None, 0)]
    {
      if !consent || notice == "" { return Err(ConsentRequired); }
      if token in table { return Err(TokenExists); }
      table := table[token := Row(id, notice, true, None, now + policy.ttlMs, None, 0)];
      return Ok(());
    }

    method WithdrawConsent(token: Option<string>, now: int) returns (r: Result<string, Error>)
      modifies this
      ensures (table, r) == Withdraw(old(table), token, now)
      ensures r.Ok? <==> token.Some? && token.value in old(table) && old(table)[token.value].active
      ensures r.Err? ==> r.error == NotAuthorised && Status(r.error) == 401 && table == old(table)
      ensures r.Ok? ==> r.value == old(table)[token.value].id && table == old(table)[token.value := old(table)[token.value].(active := false, withdrawnAt := Some(now))]
    {
      if token.None? { return Err(NotAuthorised); }
      if token.value !in table || !table[token.value].active { return Err(NotAuthorised); }
      table := table[token.value := table[token.value].(active := false, withdrawnAt := Some(now))];
      return Ok(table[token.value].id);
    }

    // The delete of rows expired, or withdrawn, by the cutoff.
    method Purge(cutoff: int, now: int) returns (r: Result<int, Error>)
      modifies this
      ensures (table, r) == PurgeExpired(old(table), cutoff, now)
      ensures now < cutoff ==> r == Err(BadCutoff) && Status(BadCutoff) == 400 && table == old(table)
      ensures cutoff <= now ==>
        && r == Ok(|old(table)| - |table|)
        && table == map token | token in old(table) && cutoff < old(table)[token].expiresAt
                                && (old(table)[token].active || old(table)[token].withdrawnAt.None? || cutoff < old(table)[token].withdrawnAt.value) :: old(table)[token]
    {
      if cutoff > now { return Err(BadCutoff); }
      var before := |table|;
      table := map token | token in table && !Purgeable(table[token], cutoff) :: table[token];
      return Ok(before - |table|);
    }

    method AuthoriseTurn(token: Option<string>, now: int) returns (r: Result<Row, Error>)
      modifies this
      ensures (table, r) == Authorise(old(table), policy, token, now)
      ensures r == Err(NotAuthorised) <==> !(token.Some? && token.value in old(table) && old(table)[token.value].active)
      ensures r == Err(SessionExpired) <==>
        token.Some? && token.value in old(table) && old(table)[token.value].active && old(table)[token.value].expiresAt <= now
      ensures 0 < policy.limit.max ==>
        (r == Err(RateLimited) <==>
          && token.Some? && token.value in old(table) && old(table)[token.value].active && now < old(table)[token.value].expiresAt
          && old(table)[token.value].windowStart.Some? && now < old(table)[token.value].windowStart.value + policy.limit.windowMs
          && old(table)[token.value].turnCount >= policy.limit.max)
      ensures r.Err? ==> table == old(table) && Status(r.error) == if r.error == RateLimited then 429 else 401
      ensures r.Ok? ==>
        var row := old(table)[token.value];
        var opens := row.windowStart.None? || row.windowStart.value + policy.limit.windowMs <= now;
        && r.value == row.(windowStart := if opens then Some(now) else row.windowStart, turnCount := if opens then 1 else row.turnCount + 1)
        && table == old(table)[token.value := r.value]
    {
      if token.None? { return Err(NotAuthorised); }
      if token.value !in table || !table[token.value].active { return Err(NotAuthorised); }
      var session := table[token.value];
      if session.expiresAt <= now { return Err(SessionExpired); }
      var inWindow := session.windowStart.Some? && now - session.windowStart.value < policy.limit.windowMs;
      var count := if inWindow then session.turnCount else 0;
      if count >= policy.limit.max { return Err(RateLimited); }
      var row := session.(windowStart := if inWindow then session.windowStart else Some(now), turnCount := count + 1);
      table := table[token.value := row];
      return Ok(row);
    }
  }
}
