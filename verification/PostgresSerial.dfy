/** Every interleaving of transactions is a serial run of the joint machine in commit order. */
module PostgresSerial {
  import opened Postgres
  import opened PostgresRefinement
  import LI = LedgerInvariants
  import G = Joint

  // ---------- Whole interleavings ----------

  function Ops(log: seq<Call>): seq<G.Op> {
    seq(|log|, i requires 0 <= i < |log| => log[i].op)
  }

  // The joint machine after the committed calls, in commit order.
  function Machine(log: seq<Call>): G.State {
    G.Run(G.Empty, Ops(log))
  }

  // The k-th committed call is accepted by the registry in that order.
  predicate Accepted(log: seq<Call>, k: nat)
    requires k < |log|
  {
    G.Apply(Machine(log[..k]), log[k].op).1
  }

  ghost predicate Simulates(s: System) {
    && Agrees(s.db, Machine(s.log)) && s.prechecked == Machine(s.log).prechecked && G.BaseInv(Machine(s.log))
    && (forall k :: 0 <= k < |s.log| ==> Accepted(s.log, k))
  }

  lemma AcceptedStays(log: seq<Call>, c: Call, k: nat)
    requires k < |log| && Accepted(log, k)
    ensures Accepted(log + [c], k)
  {
    assert (log + [c])[..k] == log[..k];
  }

  lemma AcceptedLast(log: seq<Call>, c: Call)
    requires G.Apply(Machine(log), c.op).1
    ensures Accepted(log + [c], |log|)
  {
    assert (log + [c])[..|log|] == log;
  }

  lemma LogCall(log: seq<Call>, c: Call)
    requires forall k :: 0 <= k < |log| ==> Accepted(log, k)
    requires G.Apply(Machine(log), c.op).1
    ensures Machine(log + [c]) == G.Apply(Machine(log), c.op).0
    ensures forall k :: 0 <= k < |log| + 1 ==> Accepted(log + [c], k)
  {
    assert Ops(log + [c]) == Ops(log) + [c.op];
    G.RunSnoc(G.Empty, Ops(log), c.op);
    AcceptedLast(log, c);
    hide Accepted;
    forall k | 0 <= k < |log| ensures Accepted(log + [c], k) { AcceptedStays(log, c, k); }
  }

  lemma CommitSimulates(s: System, t: nat)
    requires Inv(s) && Simulates(s) && t in s.txns && s.txns[t].pc == |Program(s.txns[t].call)|
    ensures Simulates(Next(s, Commit(t)))
  {
    hide Agrees, G.BaseInv, G.Apply, Program, Replay, Accepted, Machine;
    assert TxnOk(s, t);
    var c := s.txns[t].call;
    assert Program(c)[..s.txns[t].pc] == Program(c);
    CallRefines(s.db, s.db + s.txns[t].writes, Machine(s.log), c);
    LogCall(s.log, c);
    G.BaseKeeps(Machine(s.log), c.op);
  }

  lemma PrecheckSimulates(s: System, id: string, digest: string)
    requires Simulates(s) && CanPrecheck(s, id, digest)
    ensures Simulates(Next(s, Precheck(id, digest)))
  {
    hide Agrees, G.BaseInv, Accepted, Machine;
    var g := Machine(s.log);
    var c := Call(G.OpPrecheck(id, digest), {}, "");
    RowsRead(s.db, g, "", "", "", id);
    LogCall(s.log, c);
    G.BaseKeeps(g, c.op);
    SameTables(s.db, g, G.Apply(g, c.op).0);
  }

  lemma SameTables(db: DB, g: G.State, h: G.State)
    requires Agrees(db, g) && h.ledger == g.ledger && h.jobs == g.jobs
    ensures Agrees(db, h)
  {
  }

  lemma NextSimulates(s: System, e: Event)
    requires Inv(s) && Simulates(s)
    ensures Simulates(Next(s, e))
  {
    hide Agrees, G.BaseInv, Accepted, Machine, CanAdvance;
    match e
    case Commit(t) =>
      if t in s.txns && s.txns[t].pc >= |Program(s.txns[t].call)| { assert TxnOk(s, t); hide Inv; CommitIf(s, t); }
    case Precheck(id, digest) => if CanPrecheck(s, id, digest) { PrecheckSimulates(s, id, digest); }
    case _ =>
  }

  lemma CommitIf(s: System, t: nat)
    requires Inv(s) && Simulates(s) && t in s.txns && s.txns[t].pc == |Program(s.txns[t].call)|
    ensures Simulates(Next(s, Commit(t)))
  {
    hide Simulates, Program, Inv;
    CommitSimulates(s, t);
  }

  lemma {:induction false} RunSimulates(s: System, events: seq<Event>)
    requires Inv(s) && Simulates(s)
    ensures Simulates(Run(s, events))
    decreases |events|
  {
    if events != [] {
      hide Inv, Simulates, Next;
      NextKeeps(s, events[0]);
      NextSimulates(s, events[0]);
      RunSimulates(Next(s, events[0]), events[1..]);
    }
  }

  lemma EmptyTables()
    ensures LedgerAgrees(map[], G.Empty.ledger) && JobsAgree(map[], G.Empty.jobs) && CapacityAgrees(map[], G.Empty.jobs)
  {
    assert forall s :: ProofAmounts(map[], s) == map[] && RetirementAmounts(map[], s) == map[];
  }

  lemma StartSimulates()
    ensures Simulates(Start)
  {
    LI.EmptyInv();
    EmptyTables();
    assert Ops([]) == [];
    assert Machine([]) == G.Empty;
    hide LI.Inv, LedgerAgrees, JobsAgree, CapacityAgrees;
  }

  // Whatever the interleaving, the committed tables are those of the serial run of registry
  // and job machine calls in commit order, every one of them accepted.
  lemma CommitOrderIsSerial(events: seq<Event>)
    ensures Simulates(Run(Start, events))
  {
    StartSimulates();
    RunSimulates(Start, events);
  }
}
