/**
 Pilot sessions in memory: consented sessions that expire, and a sliding limit on the turns
 of each. A token stands for its digest; notice versions arrive trimmed; clock readings,
 fresh tokens and fresh session ids are arguments.
*/
module PilotSession {
  import opened Results
  import opened RateWindows

  datatype Session = Session(id: string, clientId: Option<string>, notice: string, issuedAt: int, expiresAt: int, turns: seq<int>)

  type Sessions = map<string, Session>

  datatype Policy = Policy(ttlMs: int, limit: Limit)

  datatype Error = ConsentRequired | NoSession | SessionExpired | RateLimited | BadCutoff

  function Status(e: Error): int {
    match e
    case ConsentRequired => 400
    case NoSession => 401
    case SessionExpired => 401
    case RateLimited => 429
    case BadCutoff => 400
  }

  predicate ValidPolicy(p: Policy) {
    0 < p.ttlMs && ValidLimit(p.limit)
  }

  // ---------- Operations ----------

  function Issue(s: Sessions, p: Policy, token: string, id: string, consent: bool, notice: string, clientId: Option<string>, now: int): (Sessions, Result<Session, Error>) {
    if !consent || notice == "" then (s, Err(ConsentRequired))
    else
      var session := Session(id, clientId, notice, now, now + p.ttlMs, []);
      (s[token := session], Ok(session))
  }

  function Pruned(session: Session, p: Policy, now: int): Session {
    session.(turns := Recent(session.turns, now, p.limit.windowMs))
  }

  // Pruning happens even when the turn is then refused.
  function Authorise(s: Sessions, p: Policy, token: Option<string>, now: int): (Sessions, Result<Session, Error>) {
    if token.None? || token.value !in s then (s, Err(NoSession))
    else if s[token.value].expiresAt <= now then (s, Err(SessionExpired))
    else
      var pruned := Pruned(s[token.value], p, now);
      if |pruned.turns| >= p.limit.max then (s[token.value := pruned], Err(RateLimited))
      else
        var session := pruned.(turns := pruned.turns + [now]);
        (s[token.value := session], Ok(session))
  }

  function Withdraw(s: Sessions, token: Option<string>): (Sessions, Result<string, Error>) {
    if token.None? || token.value !in s then (s, Err(NoSession))
    else (s - {token.value}, Ok(s[token.value].id))
  }

  function Unexpired(s: Sessions, cutoff: int): Sessions {
    map token | token in s && cutoff < s[token].expiresAt :: s[token]
  }

  function PurgeExpired(s: Sessions, cutoff: int, now: int): (Sessions, Result<int, Error>) {
    if cutoff > now then (s, Err(BadCutoff))
    else (Unexpired(s, cutoff), Ok(|s| - |Unexpired(s, cutoff)|))
  }

  // ---------- Runs with history ----------

  datatype Op =
    | OpIssue(token: string, id: string, consent: bool, notice: string, clientId: Option<string>, now: int)
    | OpAuthorise(bearer: Option<string>, now: int)
    | OpWithdraw(bearer: Option<string>, now: int)
    | OpPurge(cutoff: int, now: int)

  // The accepted turns of each session since it was issued, and the last clock reading.
  datatype State = State(sessions: Sessions, history: map<string, seq<int>>, clock: int)

  function Step(p: Policy, s: State, op: Op): State {
    match op
    case OpIssue(token, id, consent, notice, clientId, now) =>
      var (sessions, r) := Issue(s.sessions, p, token, id, consent, notice, clientId, now);
      State(sessions, if r.Ok? then s.history[token := []] else s.history, now)
    case OpAuthorise(bearer, now) =>
      var (sessions, r) := Authorise(s.sessions, p, bearer, now);
      State(sessions, if r.Ok? && bearer.Some? && bearer.value in s.history then s.history[bearer.value := s.history[bearer.value] + [now]] else s.history, now)
    case OpWithdraw(bearer, now) => State(Withdraw(s.sessions, bearer).0, s.history, now)
    case OpPurge(cutoff, now) => State(PurgeExpired(s.sessions, cutoff, now).0, s.history, now)
  }

  function Run(p: Policy, s: State, ops: seq<Op>): State
    decreases |ops|
  {
    if ops == [] then s else Run(p, Step(p, s, ops[0]), ops[1..])
  }

  // The clock never runs backwards.
  predicate Monotone(clock: int, ops: seq<Op>)
    decreases |ops|
  {
    ops == [] || (clock <= ops[0].now && Monotone(ops[0].now, ops[1..]))
  }

  // From now on, pruning what is kept is pruning the whole history.
  ghost predicate KeepsEnough(turns: seq<int>, h: seq<int>, clock: int, windowMs: int) {
    forall c :: clock <= c ==> Recent(turns, c, windowMs) == Recent(h, c, windowMs)
  }

  ghost predicate SessionsOk(p: Policy, s: State) {
    forall token <- s.sessions :: token in s.history && KeepsEnough(s.sessions[token].turns, s.history[token], s.clock, p.limit.windowMs)
  }

  ghost predicate HistoryOk(h: seq<int>, clock: int, l: Limit) {
    UpTo(h, clock) && Spaced(h, l, l.max)
  }

  ghost predicate Inv(p: Policy, s: State) {
    && ValidPolicy(p) && SessionsOk(p, s)
    && forall token <- s.history :: HistoryOk(s.history[token], s.clock, p.limit)
  }

  lemma EmptyHistory(clock: int, l: Limit)
    requires ValidLimit(l)
    ensures HistoryOk([], clock, l)
  {
    forall t ensures Span([], t, l) <= l.max {}
  }

  // One accepted turn.
  lemma TurnKeeps(p: Policy, s: State, token: string, now: int)
    requires Inv(p, s) && s.clock <= now && token in s.sessions && Authorise(s.sessions, p, Some(token), now).1.Ok?
    ensures var turns := Authorise(s.sessions, p, Some(token), now).0[token].turns;
            var h := s.history[token] + [now];
            KeepsEnough(turns, h, now, p.limit.windowMs) && HistoryOk(h, now, p.limit)
  {
    var w, h := p.limit.windowMs, s.history[token];
    var kept := Recent(s.sessions[token].turns, now, w);
    assert KeepsEnough(s.sessions[token].turns, h, s.clock, w);
    assert kept == Recent(h, now, w);
    assert HistoryOk(h, s.clock, p.limit);
    SlidingAccept(h, now, p.limit);
    forall c | now <= c ensures Recent(kept + [now], c, w) == Recent(h + [now], c, w) {
      RecentPush(kept, now, c, w);
      RecentPush(h, now, c, w);
      RecentTwice(h, now, c, w);
    }
  }

  // A refused turn prunes and loses nothing.
  lemma PruneKeeps(turns: seq<int>, h: seq<int>, clock: int, now: int, windowMs: int)
    requires KeepsEnough(turns, h, clock, windowMs) && clock <= now
    ensures KeepsEnough(Recent(turns, now, windowMs), h, now, windowMs) && KeepsEnough(turns, h, now, windowMs)
  {
    forall c | now <= c ensures Recent(Recent(turns, now, windowMs), c, windowMs) == Recent(h, c, windowMs) { RecentTwice(turns, now, c, windowMs); }
  }

  lemma AuthoriseKeeps(p: Policy, s: State, bearer: Option<string>, now: int)
    requires Inv(p, s) && s.clock <= now
    ensures Inv(p, Step(p, s, OpAuthorise(bearer, now)))
  {
    var t := Step(p, s, OpAuthorise(bearer, now));
    if bearer.Some? && bearer.value in s.sessions && Authorise(s.sessions, p, bearer, now).1.Ok? { TurnKeeps(p, s, bearer.value, now); }
    hide KeepsEnough, Spaced, Recent;
    forall token | token in t.sessions ensures token in t.history && KeepsEnough(t.sessions[token].turns, t.history[token], now, p.limit.windowMs) {
      PruneKeeps(s.sessions[token].turns, s.history[token], s.clock, now, p.limit.windowMs);
    }
  }

  lemma StepKeeps(p: Policy, s: State, op: Op)
    requires Inv(p, s) && s.clock <= op.now
    ensures Inv(p, Step(p, s, op))
  {
    hide KeepsEnough, Spaced, Authorise;
    EmptyHistory(op.now, p.limit);
    match op
    case OpAuthorise(bearer, now) => AuthoriseKeeps(p, s, bearer, now);
    case OpIssue(token, id, consent, notice, clientId, now) =>
      KeepsNothing(now, p.limit.windowMs);
      forall k | k in s.sessions ensures KeepsEnough(s.sessions[k].turns, s.history[k], now, p.limit.windowMs) { PruneKeeps(s.sessions[k].turns, s.history[k], s.clock, now, p.limit.windowMs); }
    case _ =>
      forall k | k in s.sessions ensures KeepsEnough(s.sessions[k].turns, s.history[k], op.now, p.limit.windowMs) { PruneKeeps(s.sessions[k].turns, s.history[k], s.clock, op.now, p.limit.windowMs); }
  }

  lemma KeepsNothing(clock: int, windowMs: int)
    ensures KeepsEnough([], [], clock, windowMs)
  {
  }

  lemma {:induction false} RunKeeps(p: Policy, s: State, ops: seq<Op>)
    requires Inv(p, s) && Monotone(s.clock, ops)
    ensures Inv(p, Run(p, s, ops))
    decreases |ops|
  {
    hide Inv, Step;
    if ops != [] {
      StepKeeps(p, s, ops[0]);
      StepClock(p, s, ops[0]);
      RunKeeps(p, Step(p, s, ops[0]), ops[1..]);
    }
  }

  lemma StepClock(p: Policy, s: State, op: Op)
    ensures Step(p, s, op).clock == op.now
  {
  }

  // ---------- What holds in every run ----------

  // No session ever gets more than max turns in any half-open span of one window.
  lemma SlidingBound(p: Policy, start: int, ops: seq<Op>, token: string, t: int)
    requires ValidPolicy(p) && Monotone(start, ops) && token in Run(p, State(map[], map[], start), ops).history
    ensures Count(Run(p, State(map[], map[], start), ops).history[token], t, t + p.limit.windowMs) <= p.limit.max
  {
    var s := State(map[], map[], start);
    assert Inv(p, s);
    RunKeeps(p, s, ops);
    var h := Run(p, s, ops).history[token];
    hide Run;
    assert Span(h, t, p.limit) <= p.limit.max;
  }

  lemma {:induction false} RecentCounts(h: seq<int>, c: int, windowMs: int)
    requires UpTo(h, c)
    ensures |Recent(h, c, windowMs)| == Count(h, c - windowMs + 1, c + 1)
  {
    if h != [] {
      var front := h[..|h| - 1];
      assert h[|h| - 1] in h;
      forall x | x in front ensures x <= c { assert x in h; }
      RecentCounts(front, c, windowMs);
    }
  }

  // Pruned turns are never missed: a turn is accepted exactly when the session is live and its
  // whole history has fewer than max turns in the window that ends now.
  lemma AcceptedIff(p: Policy, s: State, token: string, now: int)
    requires Inv(p, s) && s.clock <= now
    ensures Authorise(s.sessions, p, Some(token), now).1.Ok? <==>
      && token in s.sessions && now < s.sessions[token].expiresAt && token in s.history
      && Count(s.history[token], now - p.limit.windowMs + 1, now + 1) < p.limit.max
  {
    if token in s.sessions {
      assert KeepsEnough(s.sessions[token].turns, s.history[token], s.clock, p.limit.windowMs);
      assert HistoryOk(s.history[token], s.clock, p.limit);
      RecentCounts(s.history[token], now, p.limit.windowMs);
    }
  }

  // ---------- Issued, expired, withdrawn ----------

  // The session under a token can only lose its place or its turns until the token is issued again.
  lemma SessionStays(p: Policy, s: State, op: Op, token: string)
    requires !(op.OpIssue? && op.token == token)
    ensures var t := Step(p, s, op);
      token in t.sessions ==> token in s.sessions && t.sessions[token].(turns := []) == s.sessions[token].(turns := [])
  {
    hide Recent;
  }

  lemma {:induction false} SessionLasts(p: Policy, s: State, ops: seq<Op>, token: string)
    requires forall op <- ops :: !(op.OpIssue? && op.token == token)
    ensures var t := Run(p, s, ops);
      token in t.sessions ==> token in s.sessions && t.sessions[token].(turns := []) == s.sessions[token].(turns := [])
    decreases |ops|
  {
    if ops != [] {
      SessionStays(p, s, ops[0], token);
      SessionLasts(p, Step(p, s, ops[0]), ops[1..], token);
    }
  }

  // Once withdrawn, a session is never authorised again, whatever else happens.
  lemma WithdrawnStaysOut(p: Policy, s: State, token: string, now: int, ops: seq<Op>, later: int)
    requires forall op <- ops :: !(op.OpIssue? && op.token == token)
    ensures Authorise(Run(p, Step(p, s, OpWithdraw(Some(token), now)), ops).sessions, p, Some(token), later).1 == Err(NoSession)
  {
    SessionLasts(p, Step(p, s, OpWithdraw(Some(token), now)), ops, token);
  }

  // A session issued at some time is authorised only before that time plus its life.
  lemma IssuedUntil(p: Policy, s: State, token: string, id: string, notice: string, clientId: Option<string>, now: int, ops: seq<Op>, later: int)
    requires notice != "" && forall op <- ops :: !(op.OpIssue? && op.token == token)
    ensures var t := Run(p, Step(p, s, OpIssue(token, id, true, notice, clientId, now)), ops);
      && (Authorise(t.sessions, p, Some(token), later).1.Ok? ==> later < now + p.ttlMs)
      && (token in t.sessions ==> t.sessions[token].id == id && t.sessions[token].notice == notice && t.sessions[token].expiresAt == now + p.ttlMs)
    ensures token in Step(p, s, OpIssue(token, id, true, notice, clientId, now)).sessions
  {
    SessionLasts(p, Step(p, s, OpIssue(token, id, true, notice, clientId, now)), ops, token);
  }

  // After a purge exactly the sessions that had not expired by the cutoff are left, as they were.
  lemma PurgedGone(p: Policy, s: State, cutoff: int, now: int, token: string)
    requires cutoff <= now
    ensures var t := Step(p, s, OpPurge(cutoff, now));
      && (token in t.sessions <==> token in s.sessions && cutoff < s.sessions[token].expiresAt)
      && (token in t.sessions ==> t.sessions[token] == s.sessions[token])
  {
  }

  // ---------- Purging is invisible ----------

  // The outcomes of the authorise calls of a run, in order: 200 or the error's status.
  function Outcomes(p: Policy, s: Sessions, ops: seq<Op>): seq<int>
    decreases |ops|
  {
    if ops == [] then []
    else
      (if ops[0].OpAuthorise? then [Outcome(Authorise(s, p, ops[0].bearer, ops[0].now).1)] else [])
      + Outcomes(p, SessionsAfter(p, s, ops[0]), ops[1..])
  }

  function Outcome(r: Result<Session, Error>): int {
    if r.Ok? then 200 else Status(r.error)
  }

  function SessionsAfter(p: Policy, s: Sessions, op: Op): Sessions {
    Step(p, State(s, map[], op.now), op).sessions
  }

  function WithoutPurges(ops: seq<Op>): seq<Op> {
    if ops == [] then [] else if ops[0].OpPurge? then WithoutPurges(ops[1..]) else [ops[0]] + WithoutPurges(ops[1..])
  }

  // t has every session of s but some that expired by now.
  ghost predicate Lacks(s: Sessions, t: Sessions, clock: int) {
    && (forall token <- t :: token in s && s[token] == t[token])
    && (forall token <- s :: token in t || s[token].expiresAt <= clock)
  }

  lemma SameOutcome(p: Policy, s: Sessions, t: Sessions, clock: int, op: Op)
    requires Lacks(s, t, clock) && clock <= op.now && !op.OpPurge?
    ensures Lacks(SessionsAfter(p, s, op), SessionsAfter(p, t, op), op.now)
    ensures op.OpAuthorise? ==> Outcome(Authorise(s, p, op.bearer, op.now).1) == Outcome(Authorise(t, p, op.bearer, op.now).1)
  {
    hide Recent;
  }

  lemma PurgeLacks(p: Policy, s: Sessions, t: Sessions, clock: int, op: Op)
    requires Lacks(s, t, clock) && clock <= op.now && op.OpPurge?
    ensures Lacks(s, SessionsAfter(p, t, op), op.now)
  {
  }

  lemma {:induction false} LackingSame(p: Policy, s: Sessions, t: Sessions, clock: int, ops: seq<Op>)
    requires Lacks(s, t, clock) && Monotone(clock, ops)
    ensures Outcomes(p, t, ops) == Outcomes(p, s, WithoutPurges(ops))
    decreases |ops|
  {
    if ops != [] {
      var op := ops[0];
      if op.OpPurge? {
        PurgeLacks(p, s, t, clock, op);
        LackingSame(p, s, SessionsAfter(p, t, op), op.now, ops[1..]);
      } else {
        SameOutcome(p, s, t, clock, op);
        LackingSame(p, SessionsAfter(p, s, op), SessionsAfter(p, t, op), op.now, ops[1..]);
        hide Authorise, SessionsAfter, Lacks;
        assert WithoutPurges(ops)[0] == op && WithoutPurges(ops)[1..] == WithoutPurges(ops[1..]);
      }
    }
  }

  // Leaving out every purge of a run changes neither which turns are accepted nor any status.
  lemma PurgesInvisible(p: Policy, s: Sessions, clock: int, ops: seq<Op>)
    requires Monotone(clock, ops)
    ensures Outcomes(p, s, ops) == Outcomes(p, s, WithoutPurges(ops))
  {
    LackingSame(p, s, s, clock, ops);
  }

  // ---------- The manager in place ----------

  lemma LeftUnexpired(before: Sessions, after: Sessions, cutoff: int)
    requires forall token <- after :: token in before && after[token] == before[token]
    requires forall token <- before :: token in after <==> cutoff < before[token].expiresAt
    ensures after == Unexpired(before, cutoff)
  {
  }

  class PilotSessionManager {
    const policy: Policy
    var sessions: map<string, Session>

    constructor (policy: Policy)
      requires ValidPolicy(policy)
      ensures this.policy == policy && sessions == map[]
    {
      this.policy, sessions := policy, map[];
    }

    method IssueSession(token: string, id: string, consent: bool, notice: string, clientId: Option<string>, now: int) returns (r: Result<Session, Error>)
      modifies this
      ensures (sessions, r) == Issue(old(sessions), policy, token, id, consent, notice, clientId, now)
      ensures !(consent && notice != "") ==> r == Err(ConsentRequired) && Status(ConsentRequired) == 400 && sessions == old(sessions)
      ensures consent && notice != "" ==>
        r == Ok(Session(id, clientId, notice, now, now + policy.ttlMs, [])) && sessions == old(sessions)[token := r.value]
    {
      if !consent || notice == "" { return Err(ConsentRequired); }
      var session := Session(id, clientId, notice, now, now + policy.ttlMs, []);
      sessions := sessions[token := session];
      return Ok(session);
    }

    // The turns of a session still inside the window.
    method Prune(turns: seq<int>, now: int) returns (kept: seq<int>)
      ensures kept == Recent(turns, now, policy.limit.windowMs)
    {
      kept := [];
      for i := 0 to |turns|
        invariant kept == Recent(turns[..i], now, policy.limit.windowMs)
      {
        assert turns[..i + 1] == turns[..i] + [turns[i]];
        RecentPush(turns[..i], turns[i], now, policy.limit.windowMs);
        if now - turns[i] < policy.limit.windowMs { kept := kept + [turns[i]]; }
      }
      assert turns[..|turns|] == turns;
    }

    method AuthoriseTurn(token: Option<string>, now: int) returns (r: Result<Session, Error>)
      modifies this
      ensures (sessions, r) == Authorise(old(sessions), policy, token, now)
      ensures r == Err(NoSession) <==> token.None? || token.value !in old(sessions)
      ensures r == Err(SessionExpired) <==> token.Some? && token.value in old(sessions) && old(sessions)[token.value].expiresAt <= now
      ensures r == Err(RateLimited) <==>
        && token.Some? && token.value in old(sessions) && now < old(sessions)[token.value].expiresAt
        && |Recent(old(sessions)[token.value].turns, now, policy.limit.windowMs)| >= policy.limit.max
      ensures r.Err? && r.error != RateLimited ==> sessions == old(sessions)
      ensures r.Err? ==> Status(r.error) == if r.error == RateLimited then 429 else 401
      ensures r.Ok? || r == Err(RateLimited) ==>
        var recent := Recent(old(sessions)[token.value].turns, now, policy.limit.windowMs);
        sessions == old(sessions)[token.value := old(sessions)[token.value].(turns := if r.Ok? then recent + [now] else recent)]
    {
      if token.None? || token.value !in sessions { return Err(NoSession); }
      var session := sessions[token.value];
      if session.expiresAt <= now { return Err(SessionExpired); }
      var turns := Prune(session.turns, now);
      sessions := sessions[token.value := session.(turns := turns)];
      if |turns| >= policy.limit.max { return Err(RateLimited); }
      session := session.(turns := turns + [now]);
      sessions := sessions[token.value := session];
      assert sessions == old(sessions)[token.value := session];
      return Ok(session);
    }

    method WithdrawConsent(token: Option<string>) returns (r: Result<string, Error>)
      modifies this
      ensures (sessions, r) == Withdraw(old(sessions), token)
      ensures token.None? || token.value !in old(sessions) ==> r == Err(NoSession) && Status(NoSession) == 401 && sessions == old(sessions)
      ensures token.Some? && token.value in old(sessions) ==> r == Ok(old(sessions)[token.value].id) && sessions == old(sessions) - {token.value}
    {
      if token.None? || token.value !in sessions { return Err(NoSession); }
      r := Ok(sessions[token.value].id);
      sessions := sessions - {token.value};
    }

    method Purge(cutoff: int, now: int) returns (r: Result<int, Error>)
      modifies this
      ensures (sessions, r) == PurgeExpired(old(sessions), cutoff, now)
      ensures now < cutoff ==> r == Err(BadCutoff) && Status(BadCutoff) == 400 && sessions == old(sessions)
      ensures cutoff <= now ==>
        && sessions.Keys <= old(sessions).Keys && r == Ok(|old(sessions)| - |sessions|)
        && (forall token <- old(sessions) :: token in sessions <==> cutoff < old(sessions)[token].expiresAt)
        && (forall token <- sessions :: token in old(sessions) && sessions[token] == old(sessions)[token])
    {
      hide Unexpired;
      if cutoff > now { return Err(BadCutoff); }
      var deleted := 0;
      var left := sessions.Keys;
      while left != {}
        invariant left <= sessions.Keys <= old(sessions).Keys
        invariant forall token <- sessions :: sessions[token] == old(sessions)[token]
        invariant forall token <- old(sessions) :: token in left || (token in sessions <==> cutoff < old(sessions)[token].expiresAt)
        invariant deleted == |old(sessions)| - |sessions|
        decreases |left|
      {
        var token :| token in left;
        left := left - {token};
        if sessions[token].expiresAt <= cutoff {
          sessions := sessions - {token};
          deleted := deleted + 1;
        }
      }
      LeftUnexpired(old(sessions), sessions, cutoff);
      return Ok(deleted);
    }
  }
}
