/**
 * The judgment encoder (packages/judgment/src/training/encoder.py), the
 * merge training actually runs: load the agent's newest record, merge the
 * extraction into it by item id, assemble `judgment_json`, and write a new
 * record to the core memory log.
 */
module Encoder {
  import opened Wrappers
  import opened Judgment
  import opened CoreMemory
  import Dedup

  function PatternId(p: Pattern): string { p.id }
  function ConstraintId(c: Constraint): string { c.id }
  function TriggerId(t: Trigger): string { t.id }

  /** `_merge_patterns`: existing patterns, then new ones whose id is not already present. */
  function MergePatterns(existing: seq<Pattern>, incoming: seq<Pattern>): (r: seq<Pattern>)
    ensures |existing| <= |r| && r[..|existing|] == existing
    ensures forall p :: p in r[|existing|..] <==> p in incoming && p.id !in Dedup.Keys(existing, PatternId)
  {
    Dedup.AppendUnseen(existing, incoming, PatternId)
  }

  /** `_merge_constraints`: the same discipline keyed by constraint id. */
  function MergeConstraints(existing: seq<Constraint>, incoming: seq<Constraint>): (r: seq<Constraint>)
    ensures |existing| <= |r| && r[..|existing|] == existing
    ensures forall c :: c in r[|existing|..] <==> c in incoming && c.id !in Dedup.Keys(existing, ConstraintId)
  {
    Dedup.AppendUnseen(existing, incoming, ConstraintId)
  }

  /** `_merge_triggers`: the same discipline keyed by trigger id. */
  function MergeTriggers(existing: seq<Trigger>, incoming: seq<Trigger>): (r: seq<Trigger>)
    ensures |existing| <= |r| && r[..|existing|] == existing
    ensures forall t :: t in r[|existing|..] <==> t in incoming && t.id !in Dedup.Keys(existing, TriggerId)
  {
    Dedup.AppendUnseen(existing, incoming, TriggerId)
  }

  /** The four columns `encode` hands to the store write. */
  datatype Draft = Draft(
    judgment: JudgmentJson,
    constraints: seq<Constraint>,
    triggers: seq<Trigger>,
    confidenceMap: seq<ConfidenceRange>)

  /** The branch on the loaded record and the assembly of `judgment_json`. */
  function BuildDraft(existing: Option<Record>, extraction: Extraction): (d: Draft)
    ensures existing.None? ==>
              && d.judgment.patterns == extraction.patterns
              && d.constraints == extraction.constraints
              && d.triggers == extraction.triggers
              && d.confidenceMap == extraction.confidenceMap.GetOr([])
    ensures existing.Some? ==>
              && d.judgment.patterns == MergePatterns(existing.value.judgment.patterns, extraction.patterns)
              && d.constraints == MergeConstraints(existing.value.hardConstraints, extraction.constraints)
              && d.triggers == MergeTriggers(existing.value.escalationTriggers, extraction.triggers)
    ensures existing.Some? && extraction.confidenceMap.Some? ==> d.confidenceMap == extraction.confidenceMap.value
    ensures existing.Some? && extraction.confidenceMap.None? ==> d.confidenceMap == existing.value.confidenceMap
    ensures d.judgment.sourceTranscriptHash == extraction.rawTranscriptHash.GetOr("")
  {
    var sourceHash := extraction.rawTranscriptHash.GetOr("");
    match existing
    case Some(e) =>
      Draft(JudgmentJson(MergePatterns(e.judgment.patterns, extraction.patterns), sourceHash),
            MergeConstraints(e.hardConstraints, extraction.constraints),
            MergeTriggers(e.escalationTriggers, extraction.triggers),
            extraction.confidenceMap.GetOr(e.confidenceMap))
    case None =>
      Draft(JudgmentJson(extraction.patterns, sourceHash),
            extraction.constraints, extraction.triggers, extraction.confidenceMap.GetOr([]))
  }

  /**
   * `JudgmentEncoder.encode`: exactly one record is appended, built from the
   * merge against the agent's newest record, and the hash returned is the
   * one stored in it.
   */
  function Encode(store: Store, agentId: string, expertId: string, extraction: Extraction,
                  now: int, digest: ContentDigest): (r: Written)
    ensures |r.store.log| == |store.log| + 1 && r.store.log[..|store.log|] == store.log
    ensures var rec := r.store.log[|store.log|];
      && rec.agentId == agentId && rec.expertId == expertId
      && rec.createdAt == now && rec.lockedAt == now
      && rec.trainingVersion == r.versionHash
      && |r.versionHash| == VersionHashLength
      && var d := BuildDraft(Load(store, agentId), extraction);
         && rec.judgment == d.judgment && rec.hardConstraints == d.constraints
         && rec.escalationTriggers == d.triggers && rec.confidenceMap == d.confidenceMap
  {
    var d := BuildDraft(Load(store, agentId), extraction);
    Write(store, agentId, expertId, d.judgment, d.constraints, d.triggers, d.confidenceMap, now, digest)
  }

  // ---------------------------------------------------------------------------
  // Properties
  // ---------------------------------------------------------------------------

  /** Merging the same batch again appends nothing; merging a list into itself is the identity. */
  lemma MergeIdempotent(existing: seq<Pattern>, incoming: seq<Pattern>)
    ensures MergePatterns(MergePatterns(existing, incoming), incoming) == MergePatterns(existing, incoming)
    ensures MergePatterns(existing, existing) == existing
  {
    Dedup.AppendUnseenIdempotent(existing, incoming, PatternId);
    Dedup.AppendUnseenSelf(existing, PatternId);
  }

  /** An item whose id an existing item already carries is never appended. */
  lemma KnownIdNeverAppended(existing: seq<Pattern>, incoming: seq<Pattern>, p: Pattern)
    requires p in incoming && exists e :: e in existing && e.id == p.id
    ensures p !in MergePatterns(existing, incoming)[|existing|..]
  {
    Dedup.NoExistingKeyAppended(existing, incoming, PatternId, p);
  }

  /**
   * Training twice on the same extraction writes a second record with the
   * same content and therefore the same version hash: re-extraction is
   * idempotent end to end. The first session must be stamped strictly later
   * than the agent's stored records, so that the second session builds on
   * the first session's record; the second stamp is unconstrained.
   */
  lemma {:induction false} ReencodeSameVersion(store: Store, agentId: string, expertId: string, expertId2: string,
                                               extraction: Extraction, t1: int, t2: int, digest: ContentDigest)
    requires forall i :: 0 <= i < |store.log| && store.log[i].agentId == agentId ==> store.log[i].createdAt < t1
    ensures var w1 := Encode(store, agentId, expertId, extraction, t1, digest);
      var w2 := Encode(w1.store, agentId, expertId2, extraction, t2, digest);
      && ContentOf(w2.store.log[|w1.store.log|]) == ContentOf(w1.store.log[|store.log|])
      && w2.versionHash == w1.versionHash
  {
    var d1 := BuildDraft(Load(store, agentId), extraction);
    var w1 := Encode(store, agentId, expertId, extraction, t1, digest);
    assert w1 == Write(store, agentId, expertId, d1.judgment, d1.constraints, d1.triggers, d1.confidenceMap, t1, digest);
    LoadAfterWrite(store, agentId, expertId, d1.judgment, d1.constraints, d1.triggers, d1.confidenceMap, t1, digest);
    var rec1 := w1.store.log[|store.log|];
    assert Load(w1.store, agentId) == Some(rec1);
    var d2 := BuildDraft(Some(rec1), extraction);
    var w2 := Encode(w1.store, agentId, expertId2, extraction, t2, digest);
    assert w2 == Write(w1.store, agentId, expertId2, d2.judgment, d2.constraints, d2.triggers, d2.confidenceMap, t2, digest);
    match Load(store, agentId) {
      case None =>
        Dedup.AppendUnseenSelf(extraction.patterns, PatternId);
        Dedup.AppendUnseenSelf(extraction.constraints, ConstraintId);
        Dedup.AppendUnseenSelf(extraction.triggers, TriggerId);
      case Some(e) =>
        Dedup.AppendUnseenIdempotent(e.judgment.patterns, extraction.patterns, PatternId);
        Dedup.AppendUnseenIdempotent(e.hardConstraints, extraction.constraints, ConstraintId);
        Dedup.AppendUnseenIdempotent(e.escalationTriggers, extraction.triggers, TriggerId);
    }
    assert d2 == d1;
  }
}
