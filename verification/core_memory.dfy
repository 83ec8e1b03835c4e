/**
 * The core_memory table (packages/judgment/src/memory/core.py) as an
 * append-only log of records shared by all agents. `write` inserts one
 * record whose version hash is the first 16 hex characters of the SHA-256
 * of the canonical JSON of the four content columns; `load` and
 * `get_version` read the agent's record with the greatest `created_at`.
 *
 * The clock and the digest are parameters: `now` is the timestamp the
 * write uses for both `created_at` and `locked_at`, and `digest` stands
 * for `sha256(json.dumps(content, sort_keys=True))`. Because the content
 * is a datatype, key order cannot influence it.
 */
module CoreMemory {
  import opened Wrappers
  import opened Judgment
  import Digest

  /** The four columns the version hash covers. */
  datatype VersionContent = VersionContent(
    judgment: JudgmentJson,
    constraints: seq<Constraint>,
    triggers: seq<Trigger>,
    confidence: seq<ConfidenceRange>)

  /** One row of core_memory. Timestamps are instants on a common clock. */
  datatype Record = Record(
    agentId: string,
    expertId: string,
    trainingVersion: string,
    judgment: JudgmentJson,
    hardConstraints: seq<Constraint>,
    escalationTriggers: seq<Trigger>,
    confidenceMap: seq<ConfidenceRange>,
    createdAt: int,
    lockedAt: int)

  /** The table: every record ever inserted, oldest insertion first. */
  datatype Store = Store(log: seq<Record>)

  /** The store after a write, and the version hash the write returned. */
  datatype Written = Written(store: Store, versionHash: string)

  type ContentDigest = VersionContent -> Digest.Sha256Hex

  const VersionHashLength: nat := 16

  function ContentOf(r: Record): VersionContent
  {
    VersionContent(r.judgment, r.hardConstraints, r.escalationTriggers, r.confidenceMap)
  }

  /** The training version: a 16-character hex prefix of the content digest. */
  function VersionHash(digest: ContentDigest, content: VersionContent): (h: string)
    ensures |h| == VersionHashLength && Digest.IsHex(h)
    ensures h <= digest(content)
  {
    Digest.Truncate(digest(content), VersionHashLength)
  }

  /**
   * `CoreMemory.write`: insert one record locked at creation and return its
   * version hash. Earlier records are never touched.
   */
  function Write(store: Store, agentId: string, expertId: string, judgment: JudgmentJson,
                 constraints: seq<Constraint>, triggers: seq<Trigger>,
                 confidenceMap: seq<ConfidenceRange>, now: int, digest: ContentDigest): (r: Written)
    ensures |r.store.log| == |store.log| + 1
    ensures r.store.log[..|store.log|] == store.log
    ensures var rec := r.store.log[|store.log|];
      && rec.agentId == agentId && rec.expertId == expertId
      && rec.judgment == judgment && rec.hardConstraints == constraints
      && rec.escalationTriggers == triggers && rec.confidenceMap == confidenceMap
      && rec.createdAt == now && rec.lockedAt == rec.createdAt
      && rec.trainingVersion == r.versionHash
    ensures r.versionHash == VersionHash(digest, VersionContent(judgment, constraints, triggers, confidenceMap))
    ensures |r.versionHash| == VersionHashLength
  {
    var content := VersionContent(judgment, constraints, triggers, confidenceMap);
    var hash := VersionHash(digest, content);
    var rec := Record(agentId, expertId, hash, judgment, constraints, triggers, confidenceMap, now, now);
    Written(Store(store.log + [rec]), hash)
  }

  /**
   * Position of the agent's newest record: the greatest `createdAt`, ties
   * going to the later insertion (the SQL `ORDER BY created_at DESC LIMIT 1`
   * leaves ties unspecified).
   */
  function LatestIndex(log: seq<Record>, agentId: string): (r: Option<nat>)
    ensures r.None? <==> forall i :: 0 <= i < |log| ==> log[i].agentId != agentId
    ensures r.Some? ==> r.value < |log| && log[r.value].agentId == agentId
    ensures r.Some? ==> forall i :: 0 <= i < |log| && log[i].agentId == agentId
                          ==> log[i].createdAt <= log[r.value].createdAt
    ensures r.Some? ==> forall i :: r.value < i < |log| && log[i].agentId == agentId
                          ==> log[i].createdAt < log[r.value].createdAt
  {
    if log == [] then None
    else
      var last := |log| - 1;
      var prev := LatestIndex(log[..last], agentId);
      if log[last].agentId != agentId then prev
      else if prev.Some? && log[prev.value].createdAt > log[last].createdAt then prev
      else Some(last)
  }

  /** `CoreMemory.load`: the agent's newest record, or None when untrained. */
  function Load(store: Store, agentId: string): (r: Option<Record>)
    ensures r.None? <==> forall i :: 0 <= i < |store.log| ==> store.log[i].agentId != agentId
    ensures r.Some? ==> r.value in store.log && r.value.agentId == agentId
    ensures r.Some? ==> forall i :: 0 <= i < |store.log| && store.log[i].agentId == agentId
                          ==> store.log[i].createdAt <= r.value.createdAt
  {
    match LatestIndex(store.log, agentId)
    case None => None
    case Some(i) => Some(store.log[i])
  }

  /** `CoreMemory.get_version`: the newest record's training version. */
  function GetVersion(store: Store, agentId: string): (r: Option<string>)
    ensures r.None? <==> forall i :: 0 <= i < |store.log| ==> store.log[i].agentId != agentId
    ensures r.Some? ==> exists i :: 0 <= i < |store.log| && store.log[i].agentId == agentId
                          && store.log[i].trainingVersion == r.value
                          && forall k :: 0 <= k < |store.log| && store.log[k].agentId == agentId
                               ==> store.log[k].createdAt <= store.log[i].createdAt
  {
    match LatestIndex(store.log, agentId)
    case None => None
    case Some(i) => Some(store.log[i].trainingVersion)
  }

  // ---------------------------------------------------------------------------
  // Properties
  // ---------------------------------------------------------------------------

  /** `get_version` is absent exactly when `load` is, and otherwise is the loaded record's version. */
  lemma GetVersionAgreesWithLoad(store: Store, agentId: string)
    ensures GetVersion(store, agentId).None? <==> Load(store, agentId).None?
    ensures Load(store, agentId).Some? ==>
              GetVersion(store, agentId) == Some(Load(store, agentId).value.trainingVersion)
  {
  }

  /** Every record is locked at the instant it is created. */
  lemma WrittenRecordsLocked(store: Store, agentId: string, expertId: string, judgment: JudgmentJson,
                             constraints: seq<Constraint>, triggers: seq<Trigger>,
                             confidenceMap: seq<ConfidenceRange>, now: int, digest: ContentDigest)
    requires forall i :: 0 <= i < |store.log| ==> store.log[i].lockedAt == store.log[i].createdAt
    ensures var w := Write(store, agentId, expertId, judgment, constraints, triggers, confidenceMap, now, digest);
      forall i :: 0 <= i < |w.store.log| ==> w.store.log[i].lockedAt == w.store.log[i].createdAt
  {
    var w := Write(store, agentId, expertId, judgment, constraints, triggers, confidenceMap, now, digest);
    forall i | 0 <= i < |w.store.log|
      ensures w.store.log[i].lockedAt == w.store.log[i].createdAt
    {
      if i < |store.log| {
        assert w.store.log[i] == w.store.log[..|store.log|][i];
      }
    }
  }

  /**
   * Two writes of the same content produce the same version hash whatever
   * the agent, the expert and the time; they are still two records.
   */
  lemma VersionHashDependsOnlyOnContent(
    s1: Store, a1: string, e1: string, t1: int, s2: Store, a2: string, e2: string, t2: int,
    judgment: JudgmentJson, constraints: seq<Constraint>, triggers: seq<Trigger>,
    confidenceMap: seq<ConfidenceRange>, digest: ContentDigest)
    ensures Write(s1, a1, e1, judgment, constraints, triggers, confidenceMap, t1, digest).versionHash
         == Write(s2, a2, e2, judgment, constraints, triggers, confidenceMap, t2, digest).versionHash
  {
  }

  /**
   * A write stamped strictly later than every record of the agent is what
   * `load` returns next; with an equal stamp the SQL ordering leaves the
   * winner open.
   */
  lemma {:induction false} LoadAfterWrite(store: Store, agentId: string, expertId: string, judgment: JudgmentJson,
                                          constraints: seq<Constraint>, triggers: seq<Trigger>,
                                          confidenceMap: seq<ConfidenceRange>, now: int, digest: ContentDigest)
    requires forall i :: 0 <= i < |store.log| && store.log[i].agentId == agentId ==> store.log[i].createdAt < now
    ensures var w := Write(store, agentId, expertId, judgment, constraints, triggers, confidenceMap, now, digest);
      Load(w.store, agentId) == Some(w.store.log[|store.log|])
  {
    var w := Write(store, agentId, expertId, judgment, constraints, triggers, confidenceMap, now, digest);
    assert w.store.log[..|w.store.log| - 1] == store.log;
  }

  /** A write for one agent leaves what every other agent loads unchanged. */
  lemma {:induction false} WriteIsolatesAgents(store: Store, agentId: string, other: string, expertId: string,
                                               judgment: JudgmentJson, constraints: seq<Constraint>,
                                               triggers: seq<Trigger>, confidenceMap: seq<ConfidenceRange>,
                                               now: int, digest: ContentDigest)
    requires other != agentId
    ensures var w := Write(store, agentId, expertId, judgment, constraints, triggers, confidenceMap, now, digest);
      Load(w.store, other) == Load(store, other)
  {
    var w := Write(store, agentId, expertId, judgment, constraints, triggers, confidenceMap, now, digest);
    assert w.store.log[..|w.store.log| - 1] == store.log;
  }
}
