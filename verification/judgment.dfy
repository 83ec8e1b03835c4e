/**
 * The judgment profile's records, as the training and retrieval code passes
 * them around as dictionaries. A list-valued key read with `.get(k, [])`
 * is a plain sequence (absent and empty behave the same); a key whose
 * presence changes behaviour is an `Option`.
 */
module Judgment {
  import opened Wrappers

  /** A recognised situation. `confidence` may be absent in a stored dict. */
  datatype Pattern = Pattern(
    id: string,
    name: string,
    description: string,
    responseGuidance: string,
    domains: seq<string>,
    confidence: Option<real>)

  /** A hard constraint; `category` is one of the free-form category names. */
  datatype Constraint = Constraint(
    id: string,
    description: string,
    rule: string,
    category: string,
    critical: bool)

  /** An escalation trigger. */
  datatype Trigger = Trigger(
    id: string,
    description: string,
    patterns: seq<string>,
    action: string,
    priority: int)

  /** One advisory confidence band and the action taken inside it. */
  datatype ConfidenceRange = ConfidenceRange(
    min: real,
    max: real,
    action: string,
    description: string)

  /**
   * The extractor's output dict. `confidenceMap` and `rawTranscriptHash`
   * are read with `.get`, so their absence is observable.
   */
  datatype Extraction = Extraction(
    patterns: seq<Pattern>,
    constraints: seq<Constraint>,
    triggers: seq<Trigger>,
    confidenceMap: Option<seq<ConfidenceRange>>,
    rawTranscriptHash: Option<string>)

  /** The `judgment_json` column: the patterns and the transcript they came from. */
  datatype JudgmentJson = JudgmentJson(
    patterns: seq<Pattern>,
    sourceTranscriptHash: string)

  /**
   * The bands cover [0, 1] left to right without gap or overlap: the first
   * starts at 0, the last ends at 1, each ends where the next begins, and
   * none is empty.
   */
  predicate PartitionsUnitInterval(bands: seq<ConfidenceRange>)
  {
    |bands| > 0
    && bands[0].min == 0.0
    && bands[|bands| - 1].max == 1.0
    && (forall i :: 0 <= i < |bands| ==> bands[i].min < bands[i].max)
    && (forall i :: 0 <= i < |bands| - 1 ==> bands[i].max == bands[i + 1].min)
  }
}
