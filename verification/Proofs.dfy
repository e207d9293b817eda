/** Issuing a language proof: accepted attestations, the weight, and the identity. */
module Proofs {
  // The identity comes from the canonical text of four fields. Signature checks and trust in
  // the signing keys arrive as outcomes; the hash is a function from text, assumed to have no
  // collisions where that matters.
  import opened Results
  import Json
  import opened Canonical
  import opened CanonicalTheorems

  datatype Origin = Origin(interaction: string, recipient: string, interactionDigest: string, assurance: string, trusted: bool)

  datatype Validation = Validation(
    interaction: string, recipient: string, interactionDigest: string, profile: string,
    rewardState: string, qualifies: bool, expiresAt: int, trusted: bool)

  datatype LanguageProof = LanguageProof(
    proofId: string, interaction: string, recipient: string, profile: string, rewardState: string, weight: int)

  datatype Error =
    | NoValidation | UntrustedOrigin | LowAssurance | UntrustedValidation
    | DifferentInteraction | NotQualified | Expired | UnknownReward

  type Hash = Json.Text -> string

  // ---------- Text of strings ----------

  // A string of Unicode characters as UTF-16 code units.
  function Utf16(s: string): Json.Text {
    if s == "" then [] else Units(s[0]) + Utf16(s[1..])
  }

  function Units(c: char): (u: Json.Text)
    ensures 1 <= |u| <= 2
    ensures |u| == 2 <==> Json.High(u[0])
    ensures |u| == 1 ==> u[0] == c as int
    ensures |u| == 2 ==> Json.Low(u[1]) && c as int == 0x10000 + (u[0] as int - 0xD800) * 0x400 + (u[1] as int - 0xDC00)
  {
    var n := c as int;
    if n < 0x10000 then [n] else [0xD800 + (n - 0x10000) / 0x400, 0xDC00 + (n - 0x10000) % 0x400]
  }

  lemma UnitsInjective(c: char, d: char)
    requires Units(c) == Units(d)
    ensures c == d
  {
    var m, n := c as int, d as int;
    if |Units(c)| == 2 {
      assert Units(c)[0] == Units(d)[0] && Units(c)[1] == Units(d)[1];
      assert m - 0x10000 == (m - 0x10000) / 0x400 * 0x400 + (m - 0x10000) % 0x400;
      assert n - 0x10000 == (n - 0x10000) / 0x400 * 0x400 + (n - 0x10000) % 0x400;
    }
  }

  lemma {:induction false} Utf16Injective(s: string, t: string)
    requires Utf16(s) == Utf16(t)
    ensures s == t
  {
    if s != "" && t != "" {
      var u, v := Utf16(s), Utf16(t);
      assert u[0] == Units(s[0])[0] && v[0] == Units(t[0])[0];
      assert |Units(s[0])| == |Units(t[0])|;
      var k := |Units(s[0])|;
      assert u[..k] == Units(s[0]) && v[..k] == Units(t[0]);
      assert u[k..] == Utf16(s[1..]) && v[k..] == Utf16(t[1..]);
      UnitsInjective(s[0], t[0]);
      Utf16Injective(s[1..], t[1..]);
      assert s == [s[0]] + s[1..] && t == [t[0]] + t[1..];
    }
  }

  // ---------- Acceptance and weight ----------

  // Unknown levels have no rank, and comparing them refuses nothing.
  function AssuranceRank(level: string): Option<int> {
    if level == "H0" then Some(0) else if level == "H1" then Some(1)
    else if level == "H2" then Some(2) else if level == "H3" then Some(3) else None
  }

  predicate BelowMinimum(level: string, minimum: string) {
    var a, b := AssuranceRank(level), AssuranceRank(minimum);
    a.Some? && b.Some? && a.value < b.value
  }

  function Weight(rewardState: string): int {
    if rewardState == "welsh_use" then 1
    else if rewardState == "supported_continuation" then 2
    else if rewardState == "useful_task_completed" then 3
    else if rewardState == "language_gain" then 4
    else 0
  }

  lemma WeightRange()
    ensures forall state :: 0 <= Weight(state) <= 4
  {
  }

  function ValidationRefusal(o: Origin, v: Validation, now: int): Option<Error> {
    if !v.trusted then Some(UntrustedValidation)
    else if v.interaction != o.interaction || v.recipient != o.recipient || v.interactionDigest != o.interactionDigest then Some(DifferentInteraction)
    else if !v.qualifies then Some(NotQualified)
    else if v.expiresAt <= now then Some(Expired)
    else None
  }

  function FirstRefusal(o: Origin, validations: seq<Validation>, now: int): Option<Error> {
    if validations == [] then None
    else match ValidationRefusal(o, validations[0], now)
      case Some(e) => Some(e)
      case None => FirstRefusal(o, validations[1..], now)
  }

  datatype Best = Best(rewardState: string, weight: int)

  // The reduction keeps the earlier of equal weights.
  function Highest(best: Best, validations: seq<Validation>): Best
    decreases |validations|
  {
    if validations == [] then best
    else
      var w := Weight(validations[0].rewardState);
      Highest(if w > best.weight then Best(validations[0].rewardState, w) else best, validations[1..])
  }

  const NOT_QUALIFIED := Best("not_qualified", 0)

  function IdentityFields(interaction: string, recipient: string, profile: string, rewardState: string): seq<Field> {
    [Field(Utf16("interaction_id"), Str(Utf16(interaction))), Field(Utf16("recipient_agent_id"), Str(Utf16(recipient))),
     Field(Utf16("language_profile"), Str(Utf16(profile))), Field(Utf16("reward_state"), Str(Utf16(rewardState)))]
  }

  function IdentityText(collate: Collation, interaction: string, recipient: string, profile: string, rewardState: string): Option<Json.Text> {
    Canonicalize(Obj(IdentityFields(interaction, recipient, profile, rewardState)), collate)
  }

  // The digest of the identity record, with its prefix replaced.
  function ProofId(hash: Hash, collate: Collation, interaction: string, recipient: string, profile: string, rewardState: string): string {
    match IdentityText(collate, interaction, recipient, profile, rewardState)
    case Some(text) => "proof:" + hash(text)
    case None => ""
  }

  function Issue(hash: Hash, collate: Collation, minimum: string, o: Origin, validations: seq<Validation>, now: int): Result<LanguageProof, Error> {
    if validations == [] then Err(NoValidation)
    else if !o.trusted then Err(UntrustedOrigin)
    else if BelowMinimum(o.assurance, minimum) then Err(LowAssurance)
    else match FirstRefusal(o, validations, now)
      case Some(e) => Err(e)
      case None =>
        var highest := Highest(NOT_QUALIFIED, validations);
        if highest.weight == 0 then Err(UnknownReward)
        else
          var profile := validations[0].profile;
          Ok(LanguageProof(ProofId(hash, collate, o.interaction, o.recipient, profile, highest.rewardState),
                           o.interaction, o.recipient, profile, highest.rewardState, highest.weight))
  }

  // Every attestation describes this interaction, is trusted, qualifies and is in date.
  ghost predicate Agree(o: Origin, validations: seq<Validation>, now: int) {
    forall v <- validations ::
      v.trusted && v.qualifies && now < v.expiresAt
      && v.interaction == o.interaction && v.recipient == o.recipient && v.interactionDigest == o.interactionDigest
  }

  lemma {:induction false} NoRefusal(o: Origin, validations: seq<Validation>, now: int)
    ensures FirstRefusal(o, validations, now).None? <==> Agree(o, validations, now)
  {
    if validations != [] {
      NoRefusal(o, validations[1..], now);
      assert validations == [validations[0]] + validations[1..];
    }
  }

  lemma {:induction false} HighestWins(best: Best, validations: seq<Validation>)
    ensures var h := Highest(best, validations);
            && h.weight >= best.weight
            && (forall v <- validations :: Weight(v.rewardState) <= h.weight)
            && (h == best || exists v <- validations :: v.rewardState == h.rewardState && Weight(h.rewardState) == h.weight)
    decreases |validations|
  {
    if validations != [] {
      var w := Weight(validations[0].rewardState);
      HighestWins(if w > best.weight then Best(validations[0].rewardState, w) else best, validations[1..]);
      assert validations == [validations[0]] + validations[1..];
      assert validations[0] in validations;
    }
  }

  // The four rewards in the order of their weights, and the assurance levels from low to high.
  const REWARDS: seq<string> := ["welsh_use", "supported_continuation", "useful_task_completed", "language_gain"]
  const LEVELS: seq<string> := ["H0", "H1", "H2", "H3"]

  lemma WeightIs(state: string)
    ensures (forall k :: 0 <= k < 4 && REWARDS[k] == state ==> Weight(state) == k + 1)
    ensures Weight(state) == 0 <==> state !in REWARDS
    ensures 0 < Weight(state) <= 4 <==> state in REWARDS
  {
    assert REWARDS[0] == "welsh_use" && REWARDS[1] == "supported_continuation" && REWARDS[2] == "useful_task_completed" && REWARDS[3] == "language_gain";
  }

  lemma BelowIs(level: string, minimum: string)
    ensures BelowMinimum(level, minimum) <==> exists i, j :: 0 <= i < j < 4 && LEVELS[i] == level && LEVELS[j] == minimum
  {
    assert LEVELS[0] == "H0" && LEVELS[1] == "H1" && LEVELS[2] == "H2" && LEVELS[3] == "H3";
  }

  // A proof is issued exactly for a trusted origin whose assurance is not known to be below the
  // minimum, and attestations that are trusted, qualify, are in date and describe the same
  // interaction, of which one names a known reward.
  lemma IssuedIff(hash: Hash, collate: Collation, minimum: string, o: Origin, validations: seq<Validation>, now: int)
    ensures Issue(hash, collate, minimum, o, validations, now).Ok? <==>
      && validations != [] && o.trusted
      && !(exists i, j :: 0 <= i < j < 4 && ["H0", "H1", "H2", "H3"][i] == o.assurance && ["H0", "H1", "H2", "H3"][j] == minimum)
      && (forall v <- validations ::
            && v.trusted && v.qualifies && now < v.expiresAt
            && v.interaction == o.interaction && v.recipient == o.recipient && v.interactionDigest == o.interactionDigest)
      && exists v <- validations :: v.rewardState in ["welsh_use", "supported_continuation", "useful_task_completed", "language_gain"]
  {
    hide ProofId, Highest, FirstRefusal, Weight, BelowMinimum;
    NoRefusal(o, validations, now);
    HighestWins(NOT_QUALIFIED, validations);
    WeightRange();
    BelowIs(o.assurance, minimum);
    forall v | v in validations ensures 0 < Weight(v.rewardState) <==> v.rewardState in REWARDS { WeightIs(v.rewardState); }
  }

  // The proof names the origin's interaction and recipient and the first attestation's profile.
  // Its reward is one that some validator attested, of the highest weight that any did.
  lemma IssuedWeight(hash: Hash, collate: Collation, minimum: string, o: Origin, validations: seq<Validation>, now: int)
    requires Issue(hash, collate, minimum, o, validations, now).Ok?
    ensures var p := Issue(hash, collate, minimum, o, validations, now).value;
            && 1 <= p.weight <= 4 && p.weight == Weight(p.rewardState)
            && ["welsh_use", "supported_continuation", "useful_task_completed", "language_gain"][p.weight - 1] == p.rewardState
            && (forall v <- validations, k | 0 <= k < 4 ::
                  ["welsh_use", "supported_continuation", "useful_task_completed", "language_gain"][k] == v.rewardState ==> k < p.weight)
            && (forall v <- validations :: Weight(v.rewardState) <= p.weight)
            && (exists v <- validations :: v.rewardState == p.rewardState)
            && (forall v <- validations :: v.interaction == p.interaction && v.recipient == p.recipient)
            && p.interaction == o.interaction && p.recipient == o.recipient && validations != [] && p.profile == validations[0].profile
            && p.proofId == ProofId(hash, collate, p.interaction, p.recipient, p.profile, p.rewardState)
  {
    hide ProofId, Highest, FirstRefusal, Weight;
    NoRefusal(o, validations, now);
    HighestWins(NOT_QUALIFIED, validations);
    WeightRange();
    WeightIs(Issue(hash, collate, minimum, o, validations, now).value.rewardState);
    forall v | v in validations ensures forall k :: 0 <= k < 4 && REWARDS[k] == v.rewardState ==> Weight(v.rewardState) == k + 1 { WeightIs(v.rewardState); }
  }

  lemma {:induction false} FirstRefused(o: Origin, validations: seq<Validation>, now: int) returns (i: nat)
    requires FirstRefusal(o, validations, now).Some?
    ensures i < |validations| && FirstRefusal(o, validations, now) == ValidationRefusal(o, validations[i], now)
    ensures forall k :: 0 <= k < i ==> ValidationRefusal(o, validations[k], now).None?
  {
    hide ValidationRefusal;
    if ValidationRefusal(o, validations[0], now).Some? {
      i := 0;
    } else {
      var j := FirstRefused(o, validations[1..], now);
      i := j + 1;
      forall k | 0 <= k < i ensures ValidationRefusal(o, validations[k], now).None? {
        if 0 < k { assert validations[k] == validations[1..][k - 1]; }
      }
    }
  }

  // Which error a refusal gives: the first test that fails, and among the attestations the
  // first one that fails a test.
  lemma IssueError(hash: Hash, collate: Collation, minimum: string, o: Origin, validations: seq<Validation>, now: int)
    ensures var r := Issue(hash, collate, minimum, o, validations, now);
      && (r == Err(NoValidation) <==> validations == [])
      && (r == Err(UntrustedOrigin) <==> validations != [] && !o.trusted)
      && (r == Err(LowAssurance) <==>
            validations != [] && o.trusted
            && exists i, j :: 0 <= i < j < 4 && ["H0", "H1", "H2", "H3"][i] == o.assurance && ["H0", "H1", "H2", "H3"][j] == minimum)
      && (r.Err? && r.error in {UntrustedValidation, DifferentInteraction, NotQualified, Expired} ==>
            exists i :: 0 <= i < |validations|
              && r.error == (
                   if !validations[i].trusted then UntrustedValidation
                   else if validations[i].interaction != o.interaction || validations[i].recipient != o.recipient
                           || validations[i].interactionDigest != o.interactionDigest then DifferentInteraction
                   else if !validations[i].qualifies then NotQualified
                   else Expired)
              && forall k :: 0 <= k < i ==>
                   && validations[k].trusted && validations[k].qualifies && now < validations[k].expiresAt
                   && validations[k].interaction == o.interaction && validations[k].recipient == o.recipient
                   && validations[k].interactionDigest == o.interactionDigest)
  {
    BelowIs(o.assurance, minimum);
    hide ProofId, Highest, FirstRefusal, Weight, BelowMinimum;
    if FirstRefusal(o, validations, now).Some? { var i := FirstRefused(o, validations, now); }
  }

  // ---------- Identity ----------

  lemma IdentityMeans(interaction: string, recipient: string, profile: string, rewardState: string)
    ensures var fields := IdentityFields(interaction, recipient, profile, rewardState);
            var m := FieldMeanings(fields);
            && Proper(Obj(fields)) && Supported(Obj(fields))
            && Utf16("interaction_id") in m && m[Utf16("interaction_id")] == TStr(Utf16(interaction))
            && Utf16("recipient_agent_id") in m && m[Utf16("recipient_agent_id")] == TStr(Utf16(recipient))
            && Utf16("language_profile") in m && m[Utf16("language_profile")] == TStr(Utf16(profile))
            && Utf16("reward_state") in m && m[Utf16("reward_state")] == TStr(Utf16(rewardState))
  {
    var fields := IdentityFields(interaction, recipient, profile, rewardState);
    DistinctNames();
    NamesAreNoIndices();
    hide Utf16, IndexOf;
    assert DistinctKeys(fields) && InOrder(fields);
    FieldMeans(fields, 0, Utf16("interaction_id"));
    FieldMeans(fields, 1, Utf16("recipient_agent_id"));
    FieldMeans(fields, 2, Utf16("language_profile"));
    FieldMeans(fields, 3, Utf16("reward_state"));
  }

  lemma DifferentUtf16(s: string, t: string)
    requires s != t
    ensures Utf16(s) != Utf16(t)
  {
    if Utf16(s) == Utf16(t) { Utf16Injective(s, t); }
  }

  lemma DistinctNames()
    ensures Utf16("interaction_id") != Utf16("recipient_agent_id") && Utf16("recipient_agent_id") != Utf16("language_profile")
    ensures Utf16("language_profile") != Utf16("reward_state")
    ensures Utf16("interaction_id") != Utf16("language_profile") && Utf16("interaction_id") != Utf16("reward_state")
    ensures Utf16("recipient_agent_id") != Utf16("reward_state")
  {
    hide Utf16;
    DifferentUtf16("interaction_id", "recipient_agent_id");
    DifferentUtf16("recipient_agent_id", "language_profile");
    DifferentUtf16("language_profile", "reward_state");
    DifferentUtf16("interaction_id", "language_profile");
    DifferentUtf16("interaction_id", "reward_state");
    DifferentUtf16("recipient_agent_id", "reward_state");
  }

  lemma FirstLetter(name: string)
    requires name != "" && 'a' <= name[0] <= 'z'
    ensures IndexOf(Utf16(name)).None?
  {
    var t := Utf16(name);
    assert t[0] == Units(name[0])[0];
    NotAnIndex(t);
  }

  lemma NamesAreNoIndices()
    ensures IndexOf(Utf16("interaction_id")).None? && IndexOf(Utf16("recipient_agent_id")).None?
    ensures IndexOf(Utf16("language_profile")).None? && IndexOf(Utf16("reward_state")).None?
  {
    hide Utf16, IndexOf;
    FirstLetter("interaction_id");
    FirstLetter("recipient_agent_id");
    FirstLetter("language_profile");
    FirstLetter("reward_state");
  }

  ghost predicate CollisionFree(hash: Hash) {
    forall s, t :: hash(s) == hash(t) ==> s == t
  }

  lemma SameIdentityText(collate: Collation, p: LanguageProof, q: LanguageProof)
    ensures IdentityText(collate, p.interaction, p.recipient, p.profile, p.rewardState).Some?
    ensures IdentityText(collate, p.interaction, p.recipient, p.profile, p.rewardState)
         == IdentityText(collate, q.interaction, q.recipient, q.profile, q.rewardState)
      ==> p.interaction == q.interaction && p.recipient == q.recipient && p.profile == q.profile && p.rewardState == q.rewardState
  {
    var a := IdentityFields(p.interaction, p.recipient, p.profile, p.rewardState);
    var b := IdentityFields(q.interaction, q.recipient, q.profile, q.rewardState);
    IdentityMeans(p.interaction, p.recipient, p.profile, p.rewardState);
    IdentityMeans(q.interaction, q.recipient, q.profile, q.rewardState);
    TextExists(Obj(a), collate);
    hide Utf16, IdentityFields, FieldMeanings, Canonicalize, Proper, Supported;
    if Canonicalize(Obj(a), collate) == Canonicalize(Obj(b), collate) {
      SameTextSameMeaning(Obj(a), Obj(b), collate);
      Utf16Injective(p.interaction, q.interaction);
      Utf16Injective(p.recipient, q.recipient);
      Utf16Injective(p.profile, q.profile);
      Utf16Injective(p.rewardState, q.rewardState);
    }
  }

  lemma SamePrefixed(hash: Hash, s: Json.Text, t: Json.Text)
    requires CollisionFree(hash) && "proof:" + hash(s) == "proof:" + hash(t)
    ensures s == t
  {
    assert hash(s) == ("proof:" + hash(s))[6..] == ("proof:" + hash(t))[6..] == hash(t);
  }

  // Two proofs share an id exactly when they agree on all four identity fields.
  lemma SameIdIff(hash: Hash, collate: Collation, p: LanguageProof, q: LanguageProof)
    requires CollisionFree(hash)
    ensures ProofId(hash, collate, p.interaction, p.recipient, p.profile, p.rewardState)
         == ProofId(hash, collate, q.interaction, q.recipient, q.profile, q.rewardState)
      <==> p.interaction == q.interaction && p.recipient == q.recipient && p.profile == q.profile && p.rewardState == q.rewardState
  {
    hide IdentityText, CollisionFree;
    SameIdentityText(collate, p, q);
    SameIdentityText(collate, q, p);
    var s := IdentityText(collate, p.interaction, p.recipient, p.profile, p.rewardState).value;
    var t := IdentityText(collate, q.interaction, q.recipient, q.profile, q.rewardState).value;
    if "proof:" + hash(s) == "proof:" + hash(t) { SamePrefixed(hash, s, t); }
  }
}
