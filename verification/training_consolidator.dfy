/**
 * The training consolidation pass (packages/judgment/src/training/consolidator.py):
 * patterns are merged by case-folded name and deepened on a match,
 * constraints are de-duplicated by case-folded rule, triggers by case-folded
 * description, and the confidence map is overridden when the new extraction
 * carries one.
 *
 * In the source, deepening mutates the dict that `existing` and the merged
 * list share (`list(existing)` is a shallow copy), so the caller's existing
 * profile is edited too. Here deepening is a functional update of the merged
 * list; the caller's value is untouched.
 */
module TrainingConsolidator {
  import opened Wrappers
  import opened Text
  import opened Judgment
  import Dedup

  /** The existing judgment dict; an absent list key reads as the empty list. */
  datatype JudgmentProfile = JudgmentProfile(
    patterns: seq<Pattern>,
    hardConstraints: seq<Constraint>,
    escalationTriggers: seq<Trigger>,
    confidenceMap: seq<ConfidenceRange>)

  /** A pattern whose guidance a constraint forbids, for an expert to review. */
  datatype ContradictionFlag = ContradictionFlag(pattern: Pattern, constraint: Constraint)

  /** The consolidated profile plus the contradictions found in it. */
  datatype Consolidation = Consolidation(
    patterns: seq<Pattern>,
    hardConstraints: seq<Constraint>,
    escalationTriggers: seq<Trigger>,
    confidenceMap: seq<ConfidenceRange>,
    reviewRequired: seq<ContradictionFlag>)

  const DeepenedMarker: string := "\nDeepened: "
  /** Confidence assumed for a stored pattern that has none. */
  const DefaultConfidence: real := 0.5
  const ConfidenceStep: real := 0.1
  const MaxConfidence: real := 1.0

  function NameKey(p: Pattern): string { Lower(p.name) }
  function RuleKey(c: Constraint): string { Lower(c.rule) }
  function TriggerKey(t: Trigger): string { Lower(t.description) }

  function Min(a: real, b: real): real { if a <= b then a else b }

  /**
   * The index `{name.lower(): i for i, p in enumerate(existing)}` maps `k`
   * to: later entries overwrite earlier ones, so it is the LAST existing
   * pattern with that key.
   */
  function NameIndex(existing: seq<Pattern>, k: string): (r: Option<nat>)
    ensures r.None? <==> forall i :: 0 <= i < |existing| ==> NameKey(existing[i]) != k
    ensures r.Some? ==> r.value < |existing| && NameKey(existing[r.value]) == k
    ensures r.Some? ==> forall i :: r.value < i < |existing| ==> NameKey(existing[i]) != k
  {
    if existing == [] then None
    else if NameKey(existing[|existing| - 1]) == k then Some(|existing| - 1)
    else NameIndex(existing[..|existing| - 1], k)
  }

  /** A name is unmatched exactly when it is not among the existing keys. */
  lemma NameIndexNoneIff(existing: seq<Pattern>, k: string)
    ensures NameIndex(existing, k).None? <==> k !in Dedup.Keys(existing, NameKey)
  {
    if k in Dedup.Keys(existing, NameKey) {
      var e :| e in existing && NameKey(e) == k;
      var i :| 0 <= i < |existing| && existing[i] == e;
    }
  }

  /** One deepening step applied to the stored pattern at a matching index. */
  function Deepen(p: Pattern, description: string): (r: Pattern)
    ensures r.(description := p.description, confidence := p.confidence) == p
    ensures r.description == p.description + DeepenedMarker + description
    ensures r.confidence.Some? && r.confidence.value <= MaxConfidence
    ensures (p.confidence.GetOr(DefaultConfidence) + ConfidenceStep <= MaxConfidence
             ==> r.confidence == Some(p.confidence.GetOr(DefaultConfidence) + ConfidenceStep))
    ensures (p.confidence.GetOr(DefaultConfidence) + ConfidenceStep > MaxConfidence
             ==> r.confidence == Some(MaxConfidence))
  {
    p.(description := p.description + DeepenedMarker + description,
       confidence := Some(Min(MaxConfidence, p.confidence.GetOr(DefaultConfidence) + ConfidenceStep)))
  }

  /** The source's `for p_new in new` loop over the merged list. */
  function PatternLoop(merged: seq<Pattern>, existing: seq<Pattern>, incoming: seq<Pattern>): seq<Pattern>
    requires |existing| <= |merged|
    decreases |incoming|
  {
    if incoming == [] then merged
    else
      match NameIndex(existing, NameKey(incoming[0]))
      case Some(idx) =>
        PatternLoop(merged[idx := Deepen(merged[idx], incoming[0].description)], existing, incoming[1..])
      case None =>
        PatternLoop(merged + [incoming[0]], existing, incoming[1..])
  }

  /** The text appended to a description by deepening it with each of `ds` in turn. */
  function DeepeningSuffix(ds: seq<string>): string
  {
    if ds == [] then "" else DeepenedMarker + ds[0] + DeepeningSuffix(ds[1..])
  }

  /**
   * Closed form of deepening `p` once per description in `ds`: the
   * descriptions are appended in order and the confidence rises by 0.1 per
   * step from its stored value (0.5 when absent), capped at 1.0.
   */
  function DeepenedBy(p: Pattern, ds: seq<string>): (r: Pattern)
    ensures r.(description := p.description, confidence := p.confidence) == p
    ensures StartsWith(r.description, p.description)
    ensures ds == [] ==> r == p
    ensures ds != [] ==> r.confidence.Some? && r.confidence.value <= MaxConfidence
  {
    p.(description := p.description + DeepeningSuffix(ds),
       confidence := if ds == [] then p.confidence
                     else Some(Min(MaxConfidence, p.confidence.GetOr(DefaultConfidence) + ConfidenceStep * |ds| as real)))
  }

  /** The descriptions of the incoming patterns that land on existing index `i`, in order. */
  function DeepeningsOf(existing: seq<Pattern>, incoming: seq<Pattern>, i: nat): seq<string>
  {
    if incoming == [] then []
    else (if NameIndex(existing, NameKey(incoming[0])) == Some(i) then [incoming[0].description] else [])
         + DeepeningsOf(existing, incoming[1..], i)
  }

  /** The incoming patterns whose name matches no existing name, in order. */
  function Unmatched(existing: seq<Pattern>, incoming: seq<Pattern>): seq<Pattern>
  {
    Dedup.Unseen(Dedup.Keys(existing, NameKey), incoming, NameKey)
  }

  lemma DeepenThenDeepenedBy(p: Pattern, d: string, ds: seq<string>)
    ensures DeepenedBy(Deepen(p, d), ds) == DeepenedBy(p, [d] + ds)
  {
    assert ([d] + ds)[1..] == ds;
    assert DeepeningSuffix([d] + ds) == DeepenedMarker + d + DeepeningSuffix(ds);
  }

  lemma {:induction false} PatternLoopSpec(merged: seq<Pattern>, existing: seq<Pattern>, incoming: seq<Pattern>)
    requires |existing| <= |merged|
    ensures |PatternLoop(merged, existing, incoming)| == |merged| + |Unmatched(existing, incoming)|
    ensures PatternLoop(merged, existing, incoming)[|merged|..] == Unmatched(existing, incoming)
    ensures forall i :: 0 <= i < |merged| ==>
              PatternLoop(merged, existing, incoming)[i] == DeepenedBy(merged[i], DeepeningsOf(existing, incoming, i))
    decreases |incoming|, 1
  {
    if incoming == [] {
      assert forall i :: 0 <= i < |merged| ==> DeepeningsOf(existing, incoming, i) == [];
    } else {
      match NameIndex(existing, NameKey(incoming[0]))
      case Some(idx) => PatternLoopDeepenStep(merged, existing, incoming, idx);
      case None => PatternLoopAppendStep(merged, existing, incoming);
    }
  }

  /** Unmatched, unfolded by one incoming pattern. */
  lemma UnmatchedCons(existing: seq<Pattern>, incoming: seq<Pattern>)
    requires incoming != []
    ensures Unmatched(existing, incoming)
         == (if NameIndex(existing, NameKey(incoming[0])).None? then [incoming[0]] else [])
            + Unmatched(existing, incoming[1..])
  {
    NameIndexNoneIff(existing, NameKey(incoming[0]));
  }

  lemma {:induction false} PatternLoopDeepenStep(merged: seq<Pattern>, existing: seq<Pattern>, incoming: seq<Pattern>, idx: nat)
    requires |existing| <= |merged| && incoming != []
    requires NameIndex(existing, NameKey(incoming[0])) == Some(idx)
    ensures |PatternLoop(merged, existing, incoming)| == |merged| + |Unmatched(existing, incoming)|
    ensures PatternLoop(merged, existing, incoming)[|merged|..] == Unmatched(existing, incoming)
    ensures forall i :: 0 <= i < |merged| ==>
              PatternLoop(merged, existing, incoming)[i] == DeepenedBy(merged[i], DeepeningsOf(existing, incoming, i))
    decreases |incoming|, 0
  {
    var p := incoming[0];
    var rest := incoming[1..];
    var m' := merged[idx := Deepen(merged[idx], p.description)];
    PatternLoopSpec(m', existing, rest);
    UnmatchedCons(existing, incoming);
    var r := PatternLoop(merged, existing, incoming);
    assert r == PatternLoop(m', existing, rest);
    forall i | 0 <= i < |merged|
      ensures r[i] == DeepenedBy(merged[i], DeepeningsOf(existing, incoming, i))
    {
      if i == idx {
        assert DeepeningsOf(existing, incoming, i) == [p.description] + DeepeningsOf(existing, rest, i);
        DeepenThenDeepenedBy(merged[i], p.description, DeepeningsOf(existing, rest, i));
      } else {
        assert m'[i] == merged[i];
        assert DeepeningsOf(existing, incoming, i) == DeepeningsOf(existing, rest, i);
      }
    }
  }

  lemma {:induction false} PatternLoopAppendStep(merged: seq<Pattern>, existing: seq<Pattern>, incoming: seq<Pattern>)
    requires |existing| <= |merged| && incoming != []
    requires NameIndex(existing, NameKey(incoming[0])).None?
    ensures |PatternLoop(merged, existing, incoming)| == |merged| + |Unmatched(existing, incoming)|
    ensures PatternLoop(merged, existing, incoming)[|merged|..] == Unmatched(existing, incoming)
    ensures forall i :: 0 <= i < |merged| ==>
              PatternLoop(merged, existing, incoming)[i] == DeepenedBy(merged[i], DeepeningsOf(existing, incoming, i))
    decreases |incoming|, 0
  {
    var p := incoming[0];
    var rest := incoming[1..];
    var m' := merged + [p];
    PatternLoopSpec(m', existing, rest);
    var r := PatternLoop(m', existing, rest);
    assert PatternLoop(merged, existing, incoming) == r by {
      PatternLoopAppendUnfold(merged, existing, incoming);
    }
    assert Unmatched(existing, incoming) == [p] + Unmatched(existing, rest) by {
      UnmatchedCons(existing, incoming);
    }
    assert r[|merged|] == p by {
      NoDeepeningsPastExisting(existing, rest, |merged|);
      assert m'[|merged|] == p;
    }
    SliceAtAppended(r, |merged|, p, Unmatched(existing, rest));
    forall i | 0 <= i < |merged|
      ensures r[i] == DeepenedBy(merged[i], DeepeningsOf(existing, incoming, i))
    {
      assert m'[i] == merged[i];
      assert DeepeningsOf(existing, incoming, i) == DeepeningsOf(existing, rest, i);
    }
  }

  /** A sequence holding `p` at `n` and `u` after it has `[p] + u` from `n` on. */
  lemma SliceAtAppended(r: seq<Pattern>, n: nat, p: Pattern, u: seq<Pattern>)
    requires |r| == n + 1 + |u| && r[n] == p && r[n + 1..] == u
    ensures r[n..] == [p] + u
  {
    assert r[n..] == [r[n]] + r[n + 1..];
  }

  /** The loop, unfolded at an unmatched incoming pattern. */
  lemma PatternLoopAppendUnfold(merged: seq<Pattern>, existing: seq<Pattern>, incoming: seq<Pattern>)
    requires |existing| <= |merged| && incoming != []
    requires NameIndex(existing, NameKey(incoming[0])).None?
    ensures PatternLoop(merged, existing, incoming) == PatternLoop(merged + [incoming[0]], existing, incoming[1..])
  {
  }

  /** Indices at or past the end of `existing` are never deepened. */
  lemma {:induction false} NoDeepeningsPastExisting(existing: seq<Pattern>, incoming: seq<Pattern>, i: nat)
    requires |existing| <= i
    ensures DeepeningsOf(existing, incoming, i) == []
    decreases |incoming|
  {
    if incoming != [] {
      NoDeepeningsPastExisting(existing, incoming[1..], i);
    }
  }

  /**
   * Pattern consolidation. The existing patterns keep their places, each
   * deepened once per incoming pattern whose name (case-folded) selects it;
   * the incoming patterns that match no existing name follow, verbatim and
   * in order.
   */
  function ConsolidatePatterns(existing: seq<Pattern>, incoming: seq<Pattern>): (r: seq<Pattern>)
    ensures |r| == |existing| + |Unmatched(existing, incoming)|
    ensures r[|existing|..] == Unmatched(existing, incoming)
    ensures forall i :: 0 <= i < |existing| ==>
              r[i] == DeepenedBy(existing[i], DeepeningsOf(existing, incoming, i))
  {
    PatternLoopSpec(existing, existing, incoming);
    PatternLoop(existing, existing, incoming)
  }

  /** A new constraint is appended iff its case-folded rule is not an existing one. */
  function ConsolidateConstraints(existing: seq<Constraint>, incoming: seq<Constraint>): (r: seq<Constraint>)
    ensures |existing| <= |r| && r[..|existing|] == existing
    ensures forall c :: c in r[|existing|..] <==> c in incoming && RuleKey(c) !in Dedup.Keys(existing, RuleKey)
  {
    Dedup.AppendUnseen(existing, incoming, RuleKey)
  }

  /** A new trigger is appended iff its case-folded description is not an existing one. */
  function ConsolidateTriggers(existing: seq<Trigger>, incoming: seq<Trigger>): (r: seq<Trigger>)
    ensures |existing| <= |r| && r[..|existing|] == existing
    ensures forall t :: t in r[|existing|..] <==> t in incoming && TriggerKey(t) !in Dedup.Keys(existing, TriggerKey)
  {
    Dedup.AppendUnseen(existing, incoming, TriggerKey)
  }

  /** The contradiction hook: a stub that never flags anything. */
  function FindUnresolvedContradictions(patterns: seq<Pattern>, constraints: seq<Constraint>): (r: seq<ContradictionFlag>)
    ensures r == []
  {
    []
  }

  /** The whole consolidation pass. */
  function Consolidate(existing: JudgmentProfile, extraction: Extraction): (r: Consolidation)
    ensures r.patterns == ConsolidatePatterns(existing.patterns, extraction.patterns)
    ensures r.hardConstraints == ConsolidateConstraints(existing.hardConstraints, extraction.constraints)
    ensures r.escalationTriggers == ConsolidateTriggers(existing.escalationTriggers, extraction.triggers)
    ensures extraction.confidenceMap.Some? ==> r.confidenceMap == extraction.confidenceMap.value
    ensures extraction.confidenceMap.None? ==> r.confidenceMap == existing.confidenceMap
    ensures r.reviewRequired == []
  {
    var patterns := ConsolidatePatterns(existing.patterns, extraction.patterns);
    var constraints := ConsolidateConstraints(existing.hardConstraints, extraction.constraints);
    Consolidation(
      patterns,
      constraints,
      ConsolidateTriggers(existing.escalationTriggers, extraction.triggers),
      extraction.confidenceMap.GetOr(existing.confidenceMap),
      FindUnresolvedContradictions(patterns, constraints))
  }

  /** The consolidated profile, ready to be consolidated again. */
  function AsProfile(c: Consolidation): JudgmentProfile
  {
    JudgmentProfile(c.patterns, c.hardConstraints, c.escalationTriggers, c.confidenceMap)
  }

  // ---------------------------------------------------------------------------
  // Properties
  // ---------------------------------------------------------------------------

  /**
   * The existing patterns survive as a prefix: identity, name, guidance and
   * domains unchanged, description extended, and any deepened confidence
   * at most 1.0.
   */
  lemma ExistingPatternsKept(existing: seq<Pattern>, incoming: seq<Pattern>, i: nat)
    requires i < |existing|
    ensures var r := ConsolidatePatterns(existing, incoming);
      && r[i].(description := existing[i].description, confidence := existing[i].confidence) == existing[i]
      && StartsWith(r[i].description, existing[i].description)
      && (r[i].confidence == existing[i].confidence
          || (r[i].confidence.Some? && r[i].confidence.value <= MaxConfidence))
  {
  }

  /**
   * One incoming pattern whose case-folded name matches existing pattern `j`
   * (and no later one) deepens exactly that pattern and appends nothing.
   */
  lemma {:induction false} SingleMatchDeepens(existing: seq<Pattern>, p: Pattern, j: nat)
    requires j < |existing| && NameKey(existing[j]) == NameKey(p)
    requires forall i :: j < i < |existing| ==> NameKey(existing[i]) != NameKey(p)
    ensures ConsolidatePatterns(existing, [p]) == existing[j := Deepen(existing[j], p.description)]
  {
    var r := ConsolidatePatterns(existing, [p]);
    var expected := existing[j := Deepen(existing[j], p.description)];
    assert NameIndex(existing, NameKey(p)) == Some(j) by {
      NameIndexIsLastMatch(existing, NameKey(p), j);
    }
    SingleMatchLength(existing, p);
    forall i | 0 <= i < |existing|
      ensures r[i] == expected[i]
    {
      SingleMatchAt(existing, p, j, i);
    }
    Pointwise(r, expected);
  }

  /** Two pattern lists of one length that agree at every index are equal. */
  lemma Pointwise(r: seq<Pattern>, e: seq<Pattern>)
    requires |r| == |e| && forall i :: 0 <= i < |r| ==> r[i] == e[i]
    ensures r == e
  {
  }

  /** A single matching pattern appends nothing. */
  lemma SingleMatchLength(existing: seq<Pattern>, p: Pattern)
    requires NameIndex(existing, NameKey(p)).Some?
    ensures |ConsolidatePatterns(existing, [p])| == |existing|
  {
    UnmatchedCons(existing, [p]);
    assert [p][1..] == [];
    assert Unmatched(existing, []) == [];
  }

  /** Pointwise form of a single matching pattern: only index `j` changes. */
  lemma SingleMatchAt(existing: seq<Pattern>, p: Pattern, j: nat, i: nat)
    requires NameIndex(existing, NameKey(p)) == Some(j) && i < |existing|
    ensures ConsolidatePatterns(existing, [p])[i] == existing[j := Deepen(existing[j], p.description)][i]
  {
    DeepeningsOfSingle(existing, p, i);
    if i == j {
      DeepenIsDeepenedByOne(existing[i], p.description);
    }
  }

  /** The index a key maps to is its last occurrence. */
  lemma NameIndexIsLastMatch(existing: seq<Pattern>, k: string, j: nat)
    requires j < |existing| && NameKey(existing[j]) == k
    requires forall i :: j < i < |existing| ==> NameKey(existing[i]) != k
    ensures NameIndex(existing, k) == Some(j)
  {
    var r := NameIndex(existing, k);
    assert r.Some?;
    assert !(r.value < j);
  }

  /** Deepening once is the closed form with a single description. */
  lemma DeepenIsDeepenedByOne(p: Pattern, d: string)
    ensures Deepen(p, d) == DeepenedBy(p, [d])
  {
    assert [d][1..] == [];
    assert DeepeningSuffix([d]) == DeepenedMarker + d;
    assert ConfidenceStep * |[d]| as real == ConfidenceStep;
  }

  lemma DeepeningsOfSingle(existing: seq<Pattern>, p: Pattern, i: nat)
    ensures DeepeningsOf(existing, [p], i)
         == if NameIndex(existing, NameKey(p)) == Some(i) then [p.description] else []
  {
    assert [p][1..] == [];
  }

  /** The worked example: "Foo" at 0.5 deepened by "foo" becomes 0.6 with both descriptions. */
  lemma DeepeningExample(e: Pattern, p: Pattern)
    requires e.name == "Foo" && e.description == "d1" && e.confidence == Some(0.5)
    requires p.name == "foo" && p.description == "d2"
    ensures ConsolidatePatterns([e], [p])
         == [e.(description := "d1\nDeepened: d2", confidence := Some(0.6))]
  {
    assert NameKey(e) == NameKey(p) by {
      FooFoldsToFoo(e.name, p.name);
    }
    SingleMatchDeepens([e], p, 0);
    var d := Deepen(e, p.description);
    DeepenOnce(e, p.description);
    assert [e][0 := d] == [d];
  }

  lemma DeepenOnce(e: Pattern, d: string)
    requires e.description == "d1" && e.confidence == Some(0.5) && d == "d2"
    ensures Deepen(e, d) == e.(description := "d1\nDeepened: d2", confidence := Some(0.6))
  {
    assert e.description + DeepenedMarker + d == "d1\nDeepened: d2";
  }

  lemma FooFoldsToFoo(a: string, b: string)
    requires a == "Foo" && b == "foo"
    ensures Lower(a) == Lower(b)
  {
    assert a[1..] == b[1..] == "oo";
  }

  /** Two new patterns with the same unmatched name are both appended. */
  lemma BatchDuplicatePatternsAppended(existing: seq<Pattern>, p: Pattern)
    requires forall e :: e in existing ==> NameKey(e) != NameKey(p)
    ensures ConsolidatePatterns(existing, [p, p]) == existing + [p, p]
  {
    var r := ConsolidatePatterns(existing, [p, p]);
    NameIndexNoneIff(existing, NameKey(p));
    Dedup.BatchDuplicatesKept(existing, p, NameKey);
    assert Unmatched(existing, [p, p]) == [p, p];
    assert NameIndex(existing, NameKey(p)).None? by {
      forall i | 0 <= i < |existing|
        ensures NameKey(existing[i]) != NameKey(p)
      {
        assert existing[i] in existing;
      }
    }
    forall i | 0 <= i < |existing|
      ensures DeepeningsOf(existing, [p, p], i) == []
    {
      assert [p, p][1..] == [p];
      DeepeningsOfSingle(existing, p, i);
    }
    NothingDeepenedAppendsOnly(existing, [p, p]);
  }

  /** When no existing pattern is deepened, consolidation only appends the unmatched ones. */
  lemma NothingDeepenedAppendsOnly(existing: seq<Pattern>, incoming: seq<Pattern>)
    requires forall i :: 0 <= i < |existing| ==> DeepeningsOf(existing, incoming, i) == []
    ensures ConsolidatePatterns(existing, incoming) == existing + Unmatched(existing, incoming)
  {
    var r := ConsolidatePatterns(existing, incoming);
    var n := |existing|;
    forall i | 0 <= i < n
      ensures r[..n][i] == existing[i]
    {
      assert r[i] == DeepenedBy(existing[i], []);
    }
    Pointwise(r[..n], existing);
    assert r == r[..n] + r[n..];
  }

  /** After one pass every incoming name is present, so a second pass appends no pattern. */
  lemma {:induction false} PatternCountStable(existing: seq<Pattern>, incoming: seq<Pattern>)
    ensures var once := ConsolidatePatterns(existing, incoming);
      |ConsolidatePatterns(once, incoming)| == |once|
  {
    var once := ConsolidatePatterns(existing, incoming);
    var ks := Dedup.Keys(once, NameKey);
    forall x | x in incoming
      ensures NameKey(x) in ks
    {
      if NameKey(x) in Dedup.Keys(existing, NameKey) {
        var j :| 0 <= j < |existing| && NameKey(existing[j]) == NameKey(x);
        assert once[j].name == existing[j].name;
        assert once[j] in once;
      } else {
        assert x in Unmatched(existing, incoming);
        assert x in once[|existing|..];
        assert x in once;
      }
    }
    Dedup.UnseenEmpty(ks, incoming, NameKey);
  }

  /**
   * Consolidating the same extraction twice leaves constraints, triggers,
   * confidence map and pattern count as the first pass left them; only
   * the matched patterns are deepened again.
   */
  lemma ConsolidateTwiceNoGrowth(existing: JudgmentProfile, extraction: Extraction)
    ensures var once := Consolidate(existing, extraction);
      var twice := Consolidate(AsProfile(once), extraction);
      && twice.hardConstraints == once.hardConstraints
      && twice.escalationTriggers == once.escalationTriggers
      && twice.confidenceMap == once.confidenceMap
      && |twice.patterns| == |once.patterns|
  {
    Dedup.AppendUnseenIdempotent(existing.hardConstraints, extraction.constraints, RuleKey);
    Dedup.AppendUnseenIdempotent(existing.escalationTriggers, extraction.triggers, TriggerKey);
    PatternCountStable(existing.patterns, extraction.patterns);
  }
}
