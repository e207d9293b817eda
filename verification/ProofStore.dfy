/**
 The store of issued proofs, as a value and as the class that updates it in place. A proof id
 is stored once, and so is an interaction of one agent under one language profile.
*/
module ProofStore {
  import opened Results

  datatype Stored = Stored(interaction: string, recipient: string, profile: string, weight: int, consumedBy: Option<string>)

  // The map of proofs with the order its entries were inserted in.
  datatype Store = Store(proofs: map<string, Stored>, order: seq<string>)

  datatype Error = AlreadyStored | SecondProof | ConsumedOrMissing

  const Empty := Store(map[], [])

  predicate SameSubject(p: Stored, q: Stored) {
    p.interaction == q.interaction && p.recipient == q.recipient && p.profile == q.profile
  }

  ghost predicate Valid(s: Store) {
    && (forall i, j :: 0 <= i < j < |s.order| ==> s.order[i] != s.order[j])
    && (forall id :: id in s.order <==> id in s.proofs)
    && OnePerSubject(s)
  }

  ghost predicate OnePerSubject(s: Store) {
    forall a, b :: a in s.proofs && b in s.proofs && SameSubject(s.proofs[a], s.proofs[b]) ==> a == b
  }

  // ---------- Operations ----------

  function AddProof(s: Store, id: string, p: Stored): (Store, Result<(), Error>) {
    if id in s.proofs then (s, Err(AlreadyStored))
    else if exists other <- s.proofs :: SameSubject(s.proofs[other], p) then (s, Err(SecondProof))
    else (Store(s.proofs[id := p], s.order + [id]), Ok(()))
  }

  predicate IsUnconsumed(s: Store, id: string) {
    id in s.proofs && s.proofs[id].consumedBy.None?
  }

  // No profile, or the empty one, selects every proof.
  predicate Matches(profile: Option<string>, p: Stored) {
    profile.None? || profile.value == "" || p.profile == profile.value
  }

  function UnconsumedOf(s: Store, order: seq<string>, profile: Option<string>): seq<string> {
    if order == [] then []
    else
      var id, rest := order[0], UnconsumedOf(s, order[1..], profile);
      if Listed(s, id, profile) then [id] + rest else rest
  }

  function Mark(s: Store, ids: seq<string>, epoch: string): Store {
    s.(proofs := map id | id in s.proofs :: if id in ids then s.proofs[id].(consumedBy := Some(epoch)) else s.proofs[id])
  }

  function ConsumeProofs(s: Store, ids: seq<string>, epoch: string): (Store, Result<(), Error>) {
    if forall id <- ids :: IsUnconsumed(s, id) then (Mark(s, ids, epoch), Ok(()))
    else (s, Err(ConsumedOrMissing))
  }

  // The update on tables marks whichever rows are still unconsumed, even when it then throws.
  function ConsumeRows(s: Store, ids: seq<string>, epoch: string): Store {
    s.(proofs := map id | id in s.proofs :: if id in ids && IsUnconsumed(s, id) then s.proofs[id].(consumedBy := Some(epoch)) else s.proofs[id])
  }

  // ---------- What the operations keep ----------

  // Nothing but the consuming epoch of a stored proof ever changes, and it is set once.
  ghost predicate Extends(s: Store, t: Store) {
    forall id <- s.proofs ::
      id in t.proofs && t.proofs[id].(consumedBy := None) == s.proofs[id].(consumedBy := None)
      && (s.proofs[id].consumedBy.Some? ==> t.proofs[id] == s.proofs[id])
  }

  lemma AddKeeps(s: Store, id: string, p: Stored)
    requires Valid(s)
    ensures Valid(AddProof(s, id, p).0) && Extends(s, AddProof(s, id, p).0)
  {
    var t := AddProof(s, id, p).0;
    if t != s {
      forall x ensures x in t.order <==> x in t.proofs { assert x in t.order <==> x in s.order || x == id; }
    }
  }

  lemma ConsumeKeeps(s: Store, ids: seq<string>, epoch: string)
    requires Valid(s)
    ensures Valid(ConsumeProofs(s, ids, epoch).0) && Extends(s, ConsumeProofs(s, ids, epoch).0)
    ensures Valid(ConsumeRows(s, ids, epoch)) && Extends(s, ConsumeRows(s, ids, epoch))
    ensures ConsumeProofs(s, ids, epoch).1.Ok? ==> ConsumeProofs(s, ids, epoch).0 == ConsumeRows(s, ids, epoch)
  {
    hide Valid, Extends, IsUnconsumed, Mark, ConsumeRows;
    SelfExtends(s);
    RowsKeep(s, ids, epoch);
    if forall id <- ids :: IsUnconsumed(s, id) { MarkKeeps(s, ids, epoch); }
  }

  lemma SelfExtends(s: Store)
    ensures Extends(s, s)
  {
  }

  lemma MarkKeeps(s: Store, ids: seq<string>, epoch: string)
    requires Valid(s) && forall id <- ids :: IsUnconsumed(s, id)
    ensures Valid(Mark(s, ids, epoch)) && Extends(s, Mark(s, ids, epoch)) && Mark(s, ids, epoch) == ConsumeRows(s, ids, epoch)
  {
    MarkedSubjects(s, Mark(s, ids, epoch));
    hide OnePerSubject;
  }

  lemma RowsKeep(s: Store, ids: seq<string>, epoch: string)
    requires Valid(s)
    ensures Valid(ConsumeRows(s, ids, epoch)) && Extends(s, ConsumeRows(s, ids, epoch))
  {
    MarkedSubjects(s, ConsumeRows(s, ids, epoch));
    hide OnePerSubject;
  }

  lemma MarkedSubjects(s: Store, t: Store)
    requires OnePerSubject(s) && s.proofs.Keys == t.proofs.Keys
    requires forall id <- s.proofs :: t.proofs[id].(consumedBy := None) == s.proofs[id].(consumedBy := None)
    ensures OnePerSubject(t)
  {
    forall a, b | a in t.proofs && b in t.proofs && SameSubject(t.proofs[a], t.proofs[b]) ensures a == b {
      assert t.proofs[a].(consumedBy := None) == s.proofs[a].(consumedBy := None);
      assert t.proofs[b].(consumedBy := None) == s.proofs[b].(consumedBy := None);
      assert SameSubject(s.proofs[a], s.proofs[b]);
    }
  }

  predicate Listed(s: Store, id: string, profile: Option<string>) {
    IsUnconsumed(s, id) && Matches(profile, s.proofs[id])
  }

  lemma UnconsumedStep(s: Store, order: seq<string>, i: nat, ids: seq<string>, profile: Option<string>)
    requires i < |order|
    ensures (if Listed(s, order[i], profile) then ids + [order[i]] else ids) + UnconsumedOf(s, order[i + 1..], profile)
         == ids + UnconsumedOf(s, order[i..], profile)
  {
    assert order[i..][1..] == order[i + 1..];
  }

  lemma NoneListed(s: Store, profile: Option<string>)
    ensures UnconsumedOf(s, [], profile) == []
  {
  }

  // The listing holds exactly the unconsumed proofs of the profile, or of every profile if none
  // or an empty one is given, each once and in the order they were stored.
  lemma {:induction false} UnconsumedIs(s: Store, order: seq<string>, profile: Option<string>)
    requires forall i, j :: 0 <= i < j < |order| ==> order[i] != order[j]
    ensures var ids := UnconsumedOf(s, order, profile);
      && (forall id :: id in ids <==>
            && id in order && id in s.proofs && s.proofs[id].consumedBy.None?
            && (profile.None? || profile.value == "" || s.proofs[id].profile == profile.value))
      && (forall i, j :: 0 <= i < j < |ids| ==> ids[i] != ids[j])
      && (forall i, j, a, b :: 0 <= i < j < |ids| && 0 <= a < |order| && 0 <= b < |order| && order[a] == ids[i] && order[b] == ids[j] ==> a < b)
  {
    if order != [] {
      UnconsumedIs(s, order[1..], profile);
      assert order == [order[0]] + order[1..];
      var rest := UnconsumedOf(s, order[1..], profile);
      forall j | 0 <= j < |rest| ensures rest[j] != order[0] {
        assert rest[j] in rest && rest[j] in order[1..];
      }
      KeepsOrder(order, rest, UnconsumedOf(s, order, profile));
    }
  }

  lemma KeepsOrder(order: seq<string>, rest: seq<string>, ids: seq<string>)
    requires order != [] && (ids == rest || ids == [order[0]] + rest) && (forall i, j :: 0 <= i < j < |order| ==> order[i] != order[j])
    requires forall i, j, a, b :: 0 <= i < j < |rest| && 0 <= a < |order[1..]| && 0 <= b < |order[1..]| && order[1..][a] == rest[i] && order[1..][b] == rest[j] ==> a < b
    requires forall j :: 0 <= j < |rest| ==> rest[j] != order[0]
    ensures forall i, j, a, b :: 0 <= i < j < |ids| && 0 <= a < |order| && 0 <= b < |order| && order[a] == ids[i] && order[b] == ids[j] ==> a < b
  {
    forall i, j, a, b | 0 <= i < j < |ids| && 0 <= a < |order| && 0 <= b < |order| && order[a] == ids[i] && order[b] == ids[j] ensures a < b {
      var d := |ids| - |rest|;
      assert ids[j] == rest[j - d] && b > 0 && order[1..][b - 1] == order[b];
      if i >= d && a > 0 { assert ids[i] == rest[i - d] && order[1..][a - 1] == order[a]; }
    }
  }

  // The listing on tables: an empty profile selects the proofs of that very profile, and proofs
  // the ledger has issued are left out.
  function UnconsumedRows(s: Store, issued: set<string>, profile: Option<string>): set<string> {
    set id | id in s.proofs && s.proofs[id].consumedBy.None? && (profile.None? || s.proofs[id].profile == profile.value) && id !in issued
  }

  // The two stores list the same proofs exactly when none of them has been issued, and, for the
  // empty profile, no unconsumed proof has another one.
  lemma ListingsAgreeIff(s: Store, issued: set<string>, profile: Option<string>)
    requires Valid(s)
    ensures (set id <- UnconsumedOf(s, s.order, profile)) == UnconsumedRows(s, issued, profile) <==>
      && (forall id <- s.proofs :: s.proofs[id].consumedBy.None? && (profile.None? || profile.value == "" || s.proofs[id].profile == profile.value) ==> id !in issued)
      && (profile == Some("") ==> forall id <- s.proofs :: s.proofs[id].consumedBy.None? ==> s.proofs[id].profile == "")
  {
    UnconsumedIs(s, s.order, profile);
    hide UnconsumedOf, OnePerSubject;
    var listed := set id <- UnconsumedOf(s, s.order, profile);
    var rows := UnconsumedRows(s, issued, profile);
    if listed == rows {
      forall id <- s.proofs ensures s.proofs[id].consumedBy.None? ==> (id in listed <==> id in rows) { }
    }
  }

  // ---------- The store in place ----------

  class InMemoryProofStore {
    var proofs: map<string, Stored>
    var order: seq<string>

    function Model(): Store
      reads this
    {
      Store(proofs, order)
    }

    constructor ()
      ensures Model() == Empty
    {
      proofs, order := map[], [];
    }

    method Add(id: string, p: Stored) returns (r: Result<(), Error>)
      modifies this
      ensures (Model(), r) == AddProof(old(Model()), id, p)
      ensures r == Err(AlreadyStored) <==> id in old(proofs)
      ensures r == Err(SecondProof) <==>
        && id !in old(proofs)
        && exists k <- old(proofs) :: old(proofs)[k].interaction == p.interaction && old(proofs)[k].recipient == p.recipient && old(proofs)[k].profile == p.profile
      ensures r.Err? ==> (r.error == AlreadyStored || r.error == SecondProof) && Model() == old(Model())
      ensures r.Ok? ==> proofs == old(proofs)[id := p] && order == old(order) + [id]
    {
      if id in proofs { return Err(AlreadyStored); }
      if exists other <- proofs :: SameSubject(proofs[other], p) { return Err(SecondProof); }
      proofs, order := proofs[id := p], order + [id];
      return Ok(());
    }

    method Unconsumed(profile: Option<string>) returns (ids: seq<string>)
      requires Valid(Model())
      ensures ids == UnconsumedOf(Model(), order, profile)
      ensures forall id :: id in ids <==>
        id in proofs && proofs[id].consumedBy.None? && (profile.None? || profile.value == "" || proofs[id].profile == profile.value)
    {
      UnconsumedIs(Model(), order, profile);
      ids := [];
      ghost var s := Model();
      hide UnconsumedOf, OnePerSubject;
      for i := 0 to |order|
        invariant ids + UnconsumedOf(s, order[i..], profile) == UnconsumedOf(s, order, profile)
      {
        var id := order[i];
        UnconsumedStep(s, order, i, ids, profile);
        assert id in order;
        if proofs[id].consumedBy.None? && Matches(profile, proofs[id]) { ids := ids + [id]; }
      }
      NoneListed(s, profile);
      assert order[|order|..] == [] && ids + [] == ids;
    }

    method Consume(ids: seq<string>, epoch: string) returns (r: Result<(), Error>)
      modifies this
      ensures (Model(), r) == ConsumeProofs(old(Model()), ids, epoch)
      ensures r.Ok? <==> forall id <- ids :: id in old(proofs) && old(proofs)[id].consumedBy.None?
      ensures r.Err? ==> r.error == ConsumedOrMissing && Model() == old(Model())
      ensures r.Ok? ==> order == old(order) && proofs.Keys == old(proofs).Keys
      ensures r.Ok? ==> forall id <- proofs :: proofs[id] == if id in ids then old(proofs)[id].(consumedBy := Some(epoch)) else old(proofs)[id]
    {
      for i := 0 to |ids|
        invariant forall k :: 0 <= k < i ==> IsUnconsumed(Model(), ids[k])
      {
        if ids[i] !in proofs || proofs[ids[i]].consumedBy.Some? {
          assert ids[i] in ids && !IsUnconsumed(Model(), ids[i]);
          return Err(ConsumedOrMissing);
        }
      }
      for i := 0 to |ids|
        invariant order == old(order) && proofs.Keys == old(proofs).Keys
        invariant Model() == Mark(old(Model()), ids[..i], epoch)
      {
        assert ids[..i + 1] == ids[..i] + [ids[i]];
        proofs := proofs[ids[i] := proofs[ids[i]].(consumedBy := Some(epoch))];
      }
      assert ids[..|ids|] == ids;
      return Ok(());
    }
  }
}
