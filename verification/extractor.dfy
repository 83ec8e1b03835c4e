/**
 * The heuristic judgment extractor (packages/judgment/src/training/extractor.py).
 * The transcript is split on runs of `.`, `!` and `?`; each stripped,
 * non-empty sentence yields at most one pattern, one constraint and one
 * trigger, according to whether any indicator of that category matches it.
 *
 * The indicator regex lists are parameters (one predicate per category,
 * true when some regex of the list matches the sentence), as are the MD5
 * and SHA-256 hex digests.
 */
module Extractor {
  import opened Wrappers
  import opened Text
  import opened Judgment
  import Digest

  /** Whether some indicator of each category matches a stripped sentence. */
  datatype Indicators = Indicators(
    pattern: string -> bool,
    constraint: string -> bool,
    trigger: string -> bool)

  /** `hashlib.md5(...).hexdigest()` and `hashlib.sha256(...).hexdigest()`. */
  datatype Hashes = Hashes(
    md5: string -> Digest.Md5Hex,
    sha256: string -> Digest.Sha256Hex)

  const DescriptionLimit: nat := 200
  const TriggerPatternLimit: nat := 100
  const ExtractedConfidence: real := 0.5
  const IdDigestLength: nat := 8
  const TranscriptHashLength: nat := 16

  // ---------------------------------------------------------------------------
  // re.split(r"[.!?]+", transcript)
  // ---------------------------------------------------------------------------

  predicate IsTerminator(c: char) { c == '.' || c == '!' || c == '?' }

  predicate NoTerminator(s: string)
  {
    forall i :: 0 <= i < |s| ==> !IsTerminator(s[i])
  }

  /** A non-empty run of terminators: one separator the split removes. */
  predicate IsRun(s: string)
  {
    s != [] && forall i :: 0 <= i < |s| ==> IsTerminator(s[i])
  }

  function FirstTerminator(t: string): (k: nat)
    ensures k <= |t| && NoTerminator(t[..k])
    ensures k < |t| ==> IsTerminator(t[k])
  {
    if t == [] || IsTerminator(t[0]) then 0
    else
      var k := 1 + FirstTerminator(t[1..]);
      assert t[..k] == [t[0]] + t[1..][..k - 1];
      k
  }

  function RunLength(t: string): (k: nat)
    ensures k <= |t|
    ensures forall i :: 0 <= i < k ==> IsTerminator(t[i])
    ensures k < |t| ==> !IsTerminator(t[k])
  {
    if t == [] || !IsTerminator(t[0]) then 0 else 1 + RunLength(t[1..])
  }

  /** Pieces alternating with the separators between them. */
  function Interleave(pieces: seq<string>, runs: seq<string>): string
    requires |pieces| == |runs| + 1
  {
    if runs == [] then pieces[0] else pieces[0] + runs[0] + Interleave(pieces[1..], runs[1..])
  }

  /** The split, keeping the separators so the transcript can be rebuilt. */
  datatype Split = Split(pieces: seq<string>, runs: seq<string>)

  /**
   * The transcript cut at every maximal run of terminators: the pieces carry
   * no terminator, the separators are non-empty terminator runs, every piece
   * between two separators is non-empty (so no run could be longer), and
   * interleaving them gives the transcript back.
   */
  function SplitOnRuns(t: string): (r: Split)
    ensures |r.pieces| == |r.runs| + 1
    ensures forall i :: 0 <= i < |r.pieces| ==> NoTerminator(r.pieces[i])
    ensures forall i :: 0 <= i < |r.runs| ==> IsRun(r.runs[i])
    ensures forall i :: 0 < i < |r.pieces| - 1 ==> r.pieces[i] != ""
    ensures t != [] && !IsTerminator(t[0]) ==> r.pieces[0] != ""
    ensures Interleave(r.pieces, r.runs) == t
    decreases |t|
  {
    var k := FirstTerminator(t);
    if k == |t| then
      assert t[..k] == t;
      Split([t], [])
    else
      var n := RunLength(t[k..]);
      assert n >= 1 by { assert t[k..][0] == t[k]; }
      var rest := SplitOnRuns(t[k + n..]);
      SplitStep(t, k, n, rest.pieces, rest.runs);
      assert rest.runs != [] ==> rest.pieces[0] != "" by {
        if rest.runs != [] {
          assert t[k + n..] != [];
          assert t[k + n..][0] == t[k..][n];
        }
      }
      InteriorNonEmpty(t[..k], rest.pieces, rest.runs);
      assert t != [] && !IsTerminator(t[0]) ==> k > 0;
      Split([t[..k]] + rest.pieces, [t[k..k + n]] + rest.runs)
  }

  /** Putting a piece in front keeps every piece between two separators non-empty. */
  lemma InteriorNonEmpty(first: string, pieces: seq<string>, runs: seq<string>)
    requires |pieces| == |runs| + 1
    requires forall i :: 0 < i < |pieces| - 1 ==> pieces[i] != ""
    requires runs != [] ==> pieces[0] != ""
    ensures var ps := [first] + pieces; forall i :: 0 < i < |ps| - 1 ==> ps[i] != ""
  {
    var ps := [first] + pieces;
    forall i | 0 < i < |ps| - 1
      ensures ps[i] != ""
    {
      assert ps[i] == pieces[i - 1];
    }
  }

  lemma SplitStep(t: string, k: nat, n: nat, pieces: seq<string>, runs: seq<string>)
    requires k + n <= |t| && n >= 1 && NoTerminator(t[..k])
    requires forall i :: 0 <= i < n ==> IsTerminator(t[k..][i])
    requires |pieces| == |runs| + 1
    requires forall i :: 0 <= i < |pieces| ==> NoTerminator(pieces[i])
    requires forall i :: 0 <= i < |runs| ==> IsRun(runs[i])
    requires Interleave(pieces, runs) == t[k + n..]
    ensures var ps := [t[..k]] + pieces; var rs := [t[k..k + n]] + runs;
      && |ps| == |rs| + 1
      && (forall i :: 0 <= i < |ps| ==> NoTerminator(ps[i]))
      && (forall i :: 0 <= i < |rs| ==> IsRun(rs[i]))
      && Interleave(ps, rs) == t
  {
    var ps := [t[..k]] + pieces;
    var rs := [t[k..k + n]] + runs;
    assert ps[1..] == pieces && rs[1..] == runs;
    var run := t[k..k + n];
    assert IsRun(run) by {
      forall i | 0 <= i < |run|
        ensures IsTerminator(run[i])
      {
        assert run[i] == t[k..][i];
      }
    }
    assert forall i :: 1 <= i < |rs| ==> rs[i] == runs[i - 1];
    assert forall i :: 1 <= i < |ps| ==> ps[i] == pieces[i - 1];
    assert t == t[..k] + t[k..k + n] + t[k + n..];
  }

  /** `re.split(r"[.!?]+", transcript)`. */
  function Sentences(t: string): (ss: seq<string>)
    ensures |ss| >= 1
    ensures forall i :: 0 <= i < |ss| ==> NoTerminator(ss[i])
  {
    SplitOnRuns(t).pieces
  }

  // ---------------------------------------------------------------------------
  // The per-sentence loop shared by the three categories
  // ---------------------------------------------------------------------------

  /** A stripped sentence yields an item: non-empty and matched by an indicator. */
  predicate Qualifies(s: string, indicator: string -> bool)
  {
    s != "" && indicator(s)
  }

  /** Indices (from `from` on) of the sentences that yield an item, ascending. */
  function QualifyingIndices(ss: seq<string>, from: nat, indicator: string -> bool): (ix: seq<nat>)
    requires from <= |ss|
    ensures forall k :: 0 <= k < |ix| ==> from <= ix[k] < |ss| && Qualifies(Strip(ss[ix[k]]), indicator)
    ensures forall k, l :: 0 <= k < l < |ix| ==> ix[k] < ix[l]
    decreases |ss| - from
  {
    if from == |ss| then []
    else (if Qualifies(Strip(ss[from]), indicator) then [from] else []) + QualifyingIndices(ss, from + 1, indicator)
  }

  /** A qualifying sentence heads the indices from its own position. */
  lemma QualifyingIndicesCons(ss: seq<string>, from: nat, indicator: string -> bool)
    requires from < |ss| && Qualifies(Strip(ss[from]), indicator)
    ensures QualifyingIndices(ss, from, indicator) == [from] + QualifyingIndices(ss, from + 1, indicator)
  {
  }

  /** Every sentence that qualifies is listed: none is skipped. */
  lemma {:induction false} QualifyingIndicesComplete(ss: seq<string>, from: nat, indicator: string -> bool, j: nat)
    requires from <= j < |ss| && Qualifies(Strip(ss[j]), indicator)
    ensures j in QualifyingIndices(ss, from, indicator)
    decreases |ss| - from
  {
    var head: seq<nat> := if Qualifies(Strip(ss[from]), indicator) then [from] else [];
    var rest := QualifyingIndices(ss, from + 1, indicator);
    assert QualifyingIndices(ss, from, indicator) == head + rest;
    if j == from {
      assert head == [j];
    } else {
      QualifyingIndicesComplete(ss, from + 1, indicator, j);
      assert j in rest;
    }
  }

  /**
   * The source's `for i, sentence in enumerate(sentences)` loop with its
   * `continue` on empty sentences and `break` after the first matching
   * indicator: one item per qualifying sentence, in sentence order.
   */
  function Collect<T>(ss: seq<string>, from: nat, indicator: string -> bool, make: (nat, string) -> T): (r: seq<T>)
    requires from <= |ss|
    ensures var ix := QualifyingIndices(ss, from, indicator);
      |r| == |ix| && forall k :: 0 <= k < |ix| ==> r[k] == make(ix[k], Strip(ss[ix[k]]))
    decreases |ss| - from
  {
    if from == |ss| then []
    else
      var s := Strip(ss[from]);
      var rest := Collect(ss, from + 1, indicator, make);
      ghost var ix := QualifyingIndices(ss, from + 1, indicator);
      if s == "" then
        assert QualifyingIndices(ss, from, indicator) == ix;
        rest
      else if indicator(s) then
        CollectStep(ss, from, indicator, make, rest);
        [make(from, s)] + rest
      else
        assert QualifyingIndices(ss, from, indicator) == ix;
        rest
  }

  /** A qualifying sentence at `from` heads the items collected after it. */
  lemma CollectStep<T>(ss: seq<string>, from: nat, indicator: string -> bool, make: (nat, string) -> T, rest: seq<T>)
    requires from < |ss| && Strip(ss[from]) != "" && indicator(Strip(ss[from]))
    requires var ix := QualifyingIndices(ss, from + 1, indicator);
      |rest| == |ix| && forall k :: 0 <= k < |ix| ==> rest[k] == make(ix[k], Strip(ss[ix[k]]))
    ensures var all := QualifyingIndices(ss, from, indicator);
      var r := [make(from, Strip(ss[from]))] + rest;
      |r| == |all| && forall k :: 0 <= k < |all| ==> r[k] == make(all[k], Strip(ss[all[k]]))
  {
    QualifyingIndicesCons(ss, from, indicator);
    ItemsCons(ss, from, make, rest, QualifyingIndices(ss, from + 1, indicator), QualifyingIndices(ss, from, indicator));
  }

  /** The index-level step of CollectStep, over plain index lists. */
  lemma ItemsCons<T>(ss: seq<string>, from: nat, make: (nat, string) -> T, rest: seq<T>, ix: seq<nat>, all: seq<nat>)
    requires from < |ss| && all == [from] + ix
    requires forall k :: 0 <= k < |ix| ==> ix[k] < |ss|
    requires |rest| == |ix| && forall k :: 0 <= k < |ix| ==> rest[k] == make(ix[k], Strip(ss[ix[k]]))
    ensures var r := [make(from, Strip(ss[from]))] + rest;
      |r| == |all| && forall k :: 0 <= k < |all| ==> r[k] == make(all[k], Strip(ss[all[k]]))
  {
    var r := [make(from, Strip(ss[from]))] + rest;
    forall k | 0 <= k < |all|
      ensures r[k] == make(all[k], Strip(ss[all[k]]))
    {
      if k == 0 {
        assert all[0] == from;
      } else {
        assert r[k] == rest[k - 1];
        assert all[k] == ix[k - 1];
      }
    }
  }

  // ---------------------------------------------------------------------------
  // Record shapes
  // ---------------------------------------------------------------------------

  /** `pat_`, `con_` or `trg_` followed by eight hex characters of the sentence's MD5. */
  function ItemId(prefix: string, md5: string -> Digest.Md5Hex, sentence: string): (id: string)
    ensures |id| == |prefix| + IdDigestLength && StartsWith(id, prefix)
    ensures Digest.IsHex(id[|prefix|..])
    ensures id[|prefix|..] == md5(sentence)[..IdDigestLength]
  {
    var id := prefix + Digest.Truncate(md5(sentence), IdDigestLength);
    assert id[|prefix|..] == Digest.Truncate(md5(sentence), IdDigestLength);
    id
  }

  function PatternName(i: nat): string
  {
    "Pattern from training (line " + NatToString(i + 1) + ")"
  }

  /** The pattern record built from sentence number `i`. */
  function MakePattern(md5: string -> Digest.Md5Hex, i: nat, s: string): (p: Pattern)
    ensures p.id == ItemId("pat_", md5, s) && p.name == PatternName(i)
    ensures p.description <= s && |p.description| <= DescriptionLimit
    ensures |s| > DescriptionLimit ==> |p.description| == DescriptionLimit
    ensures |s| <= DescriptionLimit ==> p.description == s
    ensures p.responseGuidance == "" && p.domains == [] && p.confidence == Some(ExtractedConfidence)
  {
    Pattern(ItemId("pat_", md5, s), PatternName(i), Take(s, DescriptionLimit), "", [], Some(ExtractedConfidence))
  }

  /** The constraint record; critical iff "never" occurs in the whole lower-cased sentence. */
  function MakeConstraint(md5: string -> Digest.Md5Hex, s: string): (c: Constraint)
    ensures c.id == ItemId("con_", md5, s)
    ensures c.rule == c.description && c.rule <= s && |c.rule| <= DescriptionLimit
    ensures |s| > DescriptionLimit ==> |c.rule| == DescriptionLimit
    ensures |s| <= DescriptionLimit ==> c.rule == s
    ensures c.category == "operational"
    ensures c.critical <==> Contains(Lower(s), "never")
  {
    Constraint(ItemId("con_", md5, s), Take(s, DescriptionLimit), Take(s, DescriptionLimit),
               "operational", Contains(Lower(s), "never"))
  }

  /** The trigger record: one lower-cased pattern from the first 100 characters. */
  function MakeTrigger(md5: string -> Digest.Md5Hex, s: string): (t: Trigger)
    ensures t.id == ItemId("trg_", md5, s)
    ensures t.description <= s && |t.description| <= DescriptionLimit
    ensures |s| > DescriptionLimit ==> |t.description| == DescriptionLimit
    ensures |s| <= DescriptionLimit ==> t.description == s
    ensures |t.patterns| == 1 && t.patterns[0] == Lower(Take(s, TriggerPatternLimit))
    ensures |t.patterns[0]| <= TriggerPatternLimit
    ensures t.action == "escalate" && t.priority == 5
  {
    Trigger(ItemId("trg_", md5, s), Take(s, DescriptionLimit), [Lower(Take(s, TriggerPatternLimit))], "escalate", 5)
  }

  // ---------------------------------------------------------------------------
  // The extractor
  // ---------------------------------------------------------------------------

  /** `_extract_patterns`. */
  function ExtractPatterns(transcript: string, indicator: string -> bool, md5: string -> Digest.Md5Hex): (r: seq<Pattern>)
    ensures var ss := Sentences(transcript); var ix := QualifyingIndices(ss, 0, indicator);
      |r| == |ix| && forall k :: 0 <= k < |ix| ==> r[k] == MakePattern(md5, ix[k], Strip(ss[ix[k]]))
  {
    Collect(Sentences(transcript), 0, indicator, (i, s) => MakePattern(md5, i, s))
  }

  /** `_extract_constraints`. */
  function ExtractConstraints(transcript: string, indicator: string -> bool, md5: string -> Digest.Md5Hex): (r: seq<Constraint>)
    ensures var ss := Sentences(transcript); var ix := QualifyingIndices(ss, 0, indicator);
      |r| == |ix| && forall k :: 0 <= k < |ix| ==> r[k] == MakeConstraint(md5, Strip(ss[ix[k]]))
  {
    Collect(Sentences(transcript), 0, indicator, (i, s) => MakeConstraint(md5, s))
  }

  /** `_extract_triggers`. */
  function ExtractTriggers(transcript: string, indicator: string -> bool, md5: string -> Digest.Md5Hex): (r: seq<Trigger>)
    ensures var ss := Sentences(transcript); var ix := QualifyingIndices(ss, 0, indicator);
      |r| == |ix| && forall k :: 0 <= k < |ix| ==> r[k] == MakeTrigger(md5, Strip(ss[ix[k]]))
  {
    Collect(Sentences(transcript), 0, indicator, (i, s) => MakeTrigger(md5, s))
  }

  /** `_extract_confidence_map`: three fixed bands, whatever the transcript. */
  const ExtractorConfidenceMap: seq<ConfidenceRange> := [
    ConfidenceRange(0.0, 0.3, "escalate", "Low confidence \U{2014} escalate to human"),
    ConfidenceRange(0.3, 0.6, "slow_down", "Medium confidence \U{2014} proceed with extra verification"),
    ConfidenceRange(0.6, 1.0, "act", "High confidence \U{2014} act autonomously")
  ]

  /** `JudgmentExtractor.extract`. */
  function Extract(transcript: string, indicators: Indicators, hashes: Hashes): (r: Extraction)
    ensures r.patterns == ExtractPatterns(transcript, indicators.pattern, hashes.md5)
    ensures r.constraints == ExtractConstraints(transcript, indicators.constraint, hashes.md5)
    ensures r.triggers == ExtractTriggers(transcript, indicators.trigger, hashes.md5)
    ensures r.confidenceMap == Some(ExtractorConfidenceMap)
    ensures r.rawTranscriptHash.Some?
    ensures var h := r.rawTranscriptHash.value;
      |h| == TranscriptHashLength && Digest.IsHex(h) && h <= hashes.sha256(transcript)
  {
    Extraction(
      ExtractPatterns(transcript, indicators.pattern, hashes.md5),
      ExtractConstraints(transcript, indicators.constraint, hashes.md5),
      ExtractTriggers(transcript, indicators.trigger, hashes.md5),
      Some(ExtractorConfidenceMap),
      Some(Digest.Truncate(hashes.sha256(transcript), TranscriptHashLength)))
  }

  // ---------------------------------------------------------------------------
  // Properties
  // ---------------------------------------------------------------------------

  /** No sentence yields two items of one category, and no empty sentence yields any. */
  lemma AtMostOnePerSentence(transcript: string, indicator: string -> bool, md5: string -> Digest.Md5Hex)
    ensures var ss := Sentences(transcript);
      && |ExtractPatterns(transcript, indicator, md5)| <= |ss|
      && forall k :: 0 <= k < |ExtractPatterns(transcript, indicator, md5)| ==>
           ExtractPatterns(transcript, indicator, md5)[k].name
             == PatternName(QualifyingIndices(ss, 0, indicator)[k])
  {
    var ss := Sentences(transcript);
    var ix := QualifyingIndices(ss, 0, indicator);
    IncreasingBounded(ix, 0, |ss|);
  }

  /** A strictly increasing sequence of indices below `hi` (from `lo`) has at most `hi - lo` entries. */
  lemma {:induction false} IncreasingBounded(ix: seq<nat>, lo: nat, hi: nat)
    requires lo <= hi
    requires forall k :: 0 <= k < |ix| ==> lo <= ix[k] < hi
    requires forall k, l :: 0 <= k < l < |ix| ==> ix[k] < ix[l]
    ensures |ix| <= hi - lo
    decreases |ix|
  {
    if ix != [] {
      assert forall k :: 0 <= k < |ix[1..]| ==> ix[0] < ix[1..][k];
      IncreasingBounded(ix[1..], ix[0] + 1, hi);
    }
  }

  /**
   * The split is the only one with its properties: any pieces and runs that
   * rebuild the transcript, with terminator-free pieces, non-empty
   * terminator runs and non-empty pieces between runs, are exactly the
   * pieces and runs of SplitOnRuns. So the sentence list, and with it every
   * "(line i+1)" number, is determined by the transcript alone.
   */
  lemma {:induction false} SplitUnique(t: string, ps: seq<string>, rs: seq<string>)
    requires |ps| == |rs| + 1
    requires forall i :: 0 <= i < |ps| ==> NoTerminator(ps[i])
    requires forall i :: 0 <= i < |rs| ==> IsRun(rs[i])
    requires forall i :: 0 < i < |ps| - 1 ==> ps[i] != ""
    requires Interleave(ps, rs) == t
    ensures SplitOnRuns(t) == Split(ps, rs)
    decreases |rs|
  {
    if rs == [] {
      assert t == ps[0];
    } else {
      var p, run := ps[0], rs[0];
      var rest := Interleave(ps[1..], rs[1..]);
      assert t == p + run + rest;
      FirstTerminatorAt(p, run, rest);
      RestStartsClean(ps[1..], rs[1..]);
      RunLengthAt(run, rest);
      var k, n := |p|, |run|;
      assert t[k..] == run + rest;
      assert t[k + n..] == rest;
      SplitUnique(rest, ps[1..], rs[1..]);
      assert t[..k] == p && t[k..k + n] == run;
      assert ps == [p] + ps[1..] && rs == [run] + rs[1..];
    }
  }

  lemma FirstTerminatorAt(p: string, run: string, rest: string)
    requires NoTerminator(p) && IsRun(run)
    ensures FirstTerminator(p + run + rest) == |p|
  {
    var t := p + run + rest;
    assert t[|p|] == run[0];
  }

  lemma {:induction false} RunLengthAt(run: string, rest: string)
    requires forall i :: 0 <= i < |run| ==> IsTerminator(run[i])
    requires rest != [] ==> !IsTerminator(rest[0])
    ensures RunLength(run + rest) == |run|
  {
    if run == [] {
      assert run + rest == rest;
    } else {
      assert (run + rest)[0] == run[0];
      assert (run + rest)[1..] == run[1..] + rest;
      RunLengthAt(run[1..], rest);
    }
  }

  /** What follows a run starts with a non-terminator, since the piece after it is non-empty or last and empty. */
  lemma RestStartsClean(ps: seq<string>, rs: seq<string>)
    requires |ps| == |rs| + 1
    requires forall i :: 0 <= i < |ps| ==> NoTerminator(ps[i])
    requires forall i :: 0 <= i < |ps| - 1 ==> ps[i] != ""
    ensures var rest := Interleave(ps, rs); rest != [] ==> !IsTerminator(rest[0])
  {
    var rest := Interleave(ps, rs);
    if rest != [] && ps[0] != "" {
      if rs != [] { assert rest == ps[0] + rs[0] + Interleave(ps[1..], rs[1..]); }
      assert rest[0] == ps[0][0];
    }
  }

  /** "a..b" splits into the sentences "a" and "b" around the one run "..". */
  lemma SplitExample(t: string)
    requires t == "a..b"
    ensures Sentences(t) == ["a", "b"]
  {
    assert Interleave(["a", "b"], [".."]) == "a" + ".." + "b";
    SplitUnique(t, ["a", "b"], [".."]);
  }

  /** The extractor's bands partition [0, 1]. */
  lemma ExtractorMapPartitions()
    ensures PartitionsUnitInterval(ExtractorConfidenceMap)
  {
  }
}
