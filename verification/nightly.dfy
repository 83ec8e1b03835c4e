/**
 * The nightly review (packages/judgment/src/memory/consolidator.py): a
 * summary of the day's episodes, the escalation-rate drift check and the
 * morning note built from both.
 *
 * The database reads are inputs: `rows` are the episodic-memory rows of
 * the last 24 hours, newest first, and the drift check receives the rows
 * of its two COUNT(*) queries. The `:.2f` and `:.1%` renderings of reals
 * are formatter parameters.
 */
module NightlyReview {
  import opened Text

  /** One episodic-memory row as selected. */
  datatype EpisodeRow = EpisodeRow(
    id: string,
    sessionId: string,
    summary: string,
    outcome: string,
    sentiment: real,
    createdAt: int)

  /** The part of an episode the morning note reads. */
  datatype Episode = Episode(summary: string, outcome: string, sentiment: real)

  datatype ConsolidationResult = ConsolidationResult(
    agentId: string,
    episodesReviewed: nat,
    patternsFound: nat,
    driftDetected: bool,
    memoriesPruned: nat,
    episodes: seq<Episode>)

  datatype DriftResult = DriftResult(
    agentId: string,
    driftScore: real,
    driftDetected: bool,
    escalationRate: real,
    escalationCount: nat,
    taskCount: nat,
    details: string)

  /** `f"{x:.1%}"` and `f"{x:.2f}"`. */
  datatype Formatters = Formatters(percent1: real -> string, fixed2: real -> string)

  // ---------------------------------------------------------------------------
  // run_consolidation
  // ---------------------------------------------------------------------------

  function EpisodeOf(row: EpisodeRow): Episode
  {
    Episode(row.summary, row.outcome, row.sentiment)
  }

  /**
   * `run_consolidation` after the row fetch: with no rows every counter is
   * zero; otherwise one episode per row, in row order. Clustering, pattern
   * extraction, drift and pruning are not implemented and stay at zero.
   */
  function RunConsolidation(agentId: string, rows: seq<EpisodeRow>): (r: ConsolidationResult)
    ensures r.agentId == agentId
    ensures r.episodesReviewed == |rows| && |r.episodes| == |rows|
    ensures forall i :: 0 <= i < |rows| ==>
              r.episodes[i] == Episode(rows[i].summary, rows[i].outcome, rows[i].sentiment)
    ensures r.patternsFound == 0 && r.memoriesPruned == 0 && !r.driftDetected
  {
    if |rows| == 0 then ConsolidationResult(agentId, 0, 0, false, 0, [])
    else
      ConsolidationResult(agentId, |rows|, 0, false, 0,
                          seq(|rows|, i requires 0 <= i < |rows| => EpisodeOf(rows[i])))
  }

  // ---------------------------------------------------------------------------
  // detect_drift
  // ---------------------------------------------------------------------------

  const DriftThreshold: real := 0.30

  /** `rows[0].get("count", 0) if rows else 0`. */
  function CountFrom(rows: seq<nat>): (n: nat)
    ensures rows == [] ==> n == 0
    ensures rows != [] ==> n == rows[0]
  {
    if rows == [] then 0 else rows[0]
  }

  /** Escalations per completed task, 0 when no task completed. */
  function EscalationRate(escalations: nat, tasks: nat): (rate: real)
    ensures tasks == 0 ==> rate == 0.0
    ensures tasks > 0 ==> rate * tasks as real == escalations as real
    ensures rate >= 0.0
  {
    if tasks > 0 then escalations as real / tasks as real else 0.0
  }

  function Min(a: real, b: real): real { if a <= b then a else b }

  /**
   * `detect_drift` after the two count queries. Scores are kept unrounded.
   */
  function DetectDrift(agentId: string, escalationRows: seq<nat>, taskRows: seq<nat>, fmt: Formatters): (r: DriftResult)
    ensures r.agentId == agentId
    ensures r.escalationCount == CountFrom(escalationRows) && r.taskCount == CountFrom(taskRows)
    ensures r.taskCount == 0 ==> r.escalationRate == 0.0 && r.driftScore == 0.0 && !r.driftDetected
    ensures r.taskCount > 0 ==> r.escalationRate * r.taskCount as real == r.escalationCount as real
    ensures r.driftDetected <==> r.escalationRate > DriftThreshold
    ensures 0.0 <= r.driftScore <= 1.0
    ensures r.driftDetected ==> r.driftScore == 1.0
    ensures !r.driftDetected ==> r.driftScore * DriftThreshold == r.escalationRate
    ensures r.details == "Escalation rate: " + fmt.percent1(r.escalationRate) + " ("
                         + (if r.driftDetected then "DRIFT DETECTED" else "within normal range") + ")"
  {
    var escalations := CountFrom(escalationRows);
    var tasks := CountFrom(taskRows);
    var rate := EscalationRate(escalations, tasks);
    var detected := rate > DriftThreshold;
    var score := if DriftThreshold > 0.0 then Min(1.0, rate / DriftThreshold) else 0.0;
    DriftResult(agentId, score, detected, rate, escalations, tasks,
                "Escalation rate: " + fmt.percent1(rate) + " ("
                + (if detected then "DRIFT DETECTED" else "within normal range") + ")")
  }

  // ---------------------------------------------------------------------------
  // generate_morning_note
  // ---------------------------------------------------------------------------

  function CountPositive(eps: seq<Episode>): (n: nat)
    ensures n <= |eps|
  {
    if eps == [] then 0 else (if eps[0].sentiment > 0.5 then 1 else 0) + CountPositive(eps[1..])
  }

  function CountNegative(eps: seq<Episode>): (n: nat)
    ensures n <= |eps|
  {
    if eps == [] then 0 else (if eps[0].sentiment < -0.2 then 1 else 0) + CountNegative(eps[1..])
  }

  /** Episodes in neither bucket: sentiment in [-0.2, 0.5]. */
  function CountRoutine(eps: seq<Episode>): (n: nat)
    ensures n <= |eps|
  {
    if eps == [] then 0 else (if -0.2 <= eps[0].sentiment <= 0.5 then 1 else 0) + CountRoutine(eps[1..])
  }

  function QuietDay(agentId: string): string
  {
    "Good morning. Agent " + agentId
    + " had a quiet day yesterday \U{2014} no tasks were processed. Ready for today's assignments."
  }

  function Opening(reviewed: nat): string
  {
    "Good morning. Yesterday I processed " + NatToString(reviewed) + " sessions"
  }

  /** The non-zero buckets, in the order positive, challenging, routine. */
  function SentimentBuckets(positive: nat, negative: nat, neutral: int): (b: seq<string>)
    ensures |b| == (if positive > 0 then 1 else 0) + (if negative > 0 then 1 else 0) + (if neutral > 0 then 1 else 0)
    ensures positive > 0 ==> b[0] == NatToString(positive) + " positive"
    ensures positive == 0 && negative > 0 ==> b[0] == NatToString(negative) + " challenging"
    ensures negative > 0 ==> b[if positive > 0 then 1 else 0] == NatToString(negative) + " challenging"
    ensures neutral > 0 ==> b[|b| - 1] == NatToString(neutral) + " routine"
  {
    (if positive > 0 then [NatToString(positive) + " positive"] else [])
    + (if negative > 0 then [NatToString(negative) + " challenging"] else [])
    + (if neutral > 0 then [NatToString(neutral) + " routine"] else [])
  }

  /** The parenthetical, present only when some episode was positive or challenging. */
  function SentimentClause(positive: nat, negative: nat, neutral: int): (s: string)
    ensures s == "" <==> positive == 0 && negative == 0
    ensures s != "" ==> StartsWith(s, " (") && EndsWith(s, ")")
  {
    if positive > 0 || negative > 0 then
      var s := " (" + Join(SentimentBuckets(positive, negative, neutral), ", ") + ")";
      assert s[..2] == " (";
      s
    else ""
  }

  function PatternsSentence(patternsFound: nat): (s: string)
    ensures s == "" <==> patternsFound == 0
  {
    if patternsFound > 0 then " I identified " + NatToString(patternsFound) + " recurring patterns worth noting."
    else ""
  }

  const AllSystems: string := " All systems" + " operating within trained parameters."

  function DriftWarning(score: real, rate: real, fmt: Formatters): string
  {
    " \U{26A0}\U{FE0F} Behavioral drift detected (score: " + fmt.fixed2(score)
    + ", escalation rate: " + fmt.percent1(rate) + "). I recommend reviewing my recent decisions."
  }

  function Closing(drift: DriftResult, fmt: Formatters): string
  {
    if drift.driftDetected then DriftWarning(drift.driftScore, drift.escalationRate, fmt) else AllSystems
  }

  /**
   * `generate_morning_note`. With no episode reviewed it is the quiet-day
   * sentence; otherwise it opens with the session count, carries the
   * sentiment parenthetical and the patterns sentence only when they have
   * something to say, and closes with exactly one of the drift warning and
   * the all-clear.
   */
  function GenerateMorningNote(agentId: string, result: ConsolidationResult, drift: DriftResult, fmt: Formatters): (note: string)
    ensures result.episodesReviewed == 0 ==> note == QuietDay(agentId)
    ensures result.episodesReviewed != 0 ==> StartsWith(note, Opening(result.episodesReviewed))
    ensures result.episodesReviewed != 0 ==> (EndsWith(note, AllSystems) <==> !drift.driftDetected)
    ensures result.episodesReviewed != 0 && drift.driftDetected ==>
              EndsWith(note, DriftWarning(drift.driftScore, drift.escalationRate, fmt))
    ensures result.episodesReviewed != 0 ==>
              (StartsWith(note, Opening(result.episodesReviewed) + ".")
               <==> CountPositive(result.episodes) == 0 && CountNegative(result.episodes) == 0)
    ensures result.episodesReviewed != 0 ==>
              (StartsWith(note, BeforePatterns(result.episodesReviewed, CountPositive(result.episodes),
                                               CountNegative(result.episodes)) + " I identified ")
               <==> result.patternsFound > 0)
  {
    if result.episodesReviewed == 0 then QuietDay(agentId)
    else
      DayNote(result.episodesReviewed, CountPositive(result.episodes), CountNegative(result.episodes),
              result.patternsFound, drift, fmt)
  }

  /** The note up to and including the period: where the patterns sentence would start. */
  function BeforePatterns(reviewed: nat, positive: nat, negative: nat): string
  {
    Opening(reviewed) + SentimentClause(positive, negative, reviewed - positive - negative) + "."
  }

  /**
   * The note of a day with `reviewed` sessions: opening, parenthetical,
   * period, patterns sentence and closing, in that order.
   */
  function DayNote(reviewed: nat, positive: nat, negative: nat, patternsFound: nat, drift: DriftResult, fmt: Formatters): (note: string)
    ensures StartsWith(note, Opening(reviewed))
    ensures EndsWith(note, AllSystems) <==> !drift.driftDetected
    ensures drift.driftDetected ==> EndsWith(note, DriftWarning(drift.driftScore, drift.escalationRate, fmt))
    ensures StartsWith(note, Opening(reviewed) + ".") <==> positive == 0 && negative == 0
    ensures StartsWith(note, BeforePatterns(reviewed, positive, negative) + " I identified ") <==> patternsFound > 0
  {
    var opening := Opening(reviewed);
    var clause := SentimentClause(positive, negative, reviewed - positive - negative);
    var patterns := PatternsSentence(patternsFound);
    var closing := Closing(drift, fmt);
    var note := opening + clause + "." + patterns + closing;
    ClosingOpening(drift, fmt);
    PatternsOpening(patternsFound);
    NoteShape(opening, clause, patterns, closing, note);
    ClosingIsExclusive(note, drift, fmt);
    note
  }

  /**
   * The layout of a non-quiet note, for any parts of the right shape: the
   * period follows the opening directly exactly when the parenthetical is
   * empty, and the patterns sentence follows the period exactly when it is
   * non-empty.
   */
  lemma NoteShape(opening: string, clause: string, patterns: string, closing: string, note: string)
    requires note == opening + clause + "." + patterns + closing
    requires clause != "" ==> StartsWith(clause, " (")
    requires patterns != "" ==> StartsWith(patterns, " I identified ")
    requires |closing| >= 2 && (closing[1] == 'A' || closing[1] == '\U{26A0}')
    ensures StartsWith(note, opening) && EndsWith(note, closing)
    ensures StartsWith(note, opening + ".") <==> clause == ""
    ensures StartsWith(note, opening + clause + "." + " I identified ") <==> patterns != ""
  {
    NoteBrackets(opening, clause, patterns, closing);
    ParenthesisPresence(opening, clause, patterns, closing);
    PatternsPresence(opening, clause, patterns, closing);
  }

  lemma NoteBrackets(opening: string, clause: string, patterns: string, closing: string)
    ensures var note := opening + clause + "." + patterns + closing;
      StartsWith(note, opening) && EndsWith(note, closing)
  {
    var note := opening + clause + "." + patterns + closing;
    var head := opening + clause + ".";
    assert note[|note| - |closing|..] == closing;
    PrefixOfConcat(head + patterns, closing);
    PrefixOfConcat(opening + clause, ".");
    PrefixOfConcat(head, patterns);
    PrefixOfConcat(opening, clause);
    PrefixTrans(note, head + patterns, head);
    PrefixTrans(note, head, opening + clause);
    PrefixTrans(note, opening + clause, opening);
  }

  /** The period follows the opening directly exactly when the parenthetical is empty. */
  lemma ParenthesisPresence(opening: string, clause: string, patterns: string, closing: string)
    requires clause != "" ==> StartsWith(clause, " (")
    ensures StartsWith(opening + clause + "." + patterns + closing, opening + ".") <==> clause == ""
  {
    var note := opening + clause + "." + patterns + closing;
    var head := opening + clause + ".";
    if clause == "" {
      assert head == opening + ".";
      PrefixOfConcat(head + patterns, closing);
      PrefixOfConcat(head, patterns);
      PrefixTrans(note, head + patterns, head);
    } else {
      assert note[|opening|] == clause[0] == ' ';
      assert (opening + ".")[|opening|] == '.';
    }
  }

  /** The patterns sentence follows the period exactly when it is non-empty. */
  lemma PatternsPresence(opening: string, clause: string, patterns: string, closing: string)
    requires patterns != "" ==> StartsWith(patterns, " I identified ")
    requires |closing| >= 2 && (closing[1] == 'A' || closing[1] == '\U{26A0}')
    ensures StartsWith(opening + clause + "." + patterns + closing, opening + clause + "." + " I identified ")
            <==> patterns != ""
  {
    var note := opening + clause + "." + patterns + closing;
    var head := opening + clause + ".";
    if patterns != "" {
      PrefixOfConcat(head + patterns, closing);
      PrefixThrough(head, patterns, " I identified ");
      PrefixTrans(note, head + patterns, head + " I identified ");
    } else {
      assert note[|head| + 1] == closing[1];
      assert (head + " I identified ")[|head| + 1] == 'I';
    }
  }

  lemma PrefixOfConcat(a: string, b: string)
    ensures StartsWith(a + b, a)
  {
    assert (a + b)[..|a|] == a;
  }

  lemma PrefixTrans(s: string, t: string, u: string)
    requires StartsWith(s, t) && StartsWith(t, u)
    ensures StartsWith(s, u)
  {
    assert s[..|u|] == t[..|t|][..|u|];
  }

  lemma PrefixThrough(a: string, b: string, p: string)
    requires StartsWith(b, p)
    ensures StartsWith(a + b, a + p)
  {
    assert (a + b)[..|a + p|] == a + b[..|p|];
  }

  /** The closing sentence begins with a space and then "A" or the warning sign. */
  lemma ClosingOpening(drift: DriftResult, fmt: Formatters)
    ensures |Closing(drift, fmt)| >= 2 && Closing(drift, fmt)[0] == ' '
    ensures Closing(drift, fmt)[1] == 'A' || Closing(drift, fmt)[1] == '\U{26A0}'
  {
    if drift.driftDetected {
      var head := " \U{26A0}\U{FE0F} Behavioral drift detected (score: ";
      var tail := fmt.fixed2(drift.driftScore) + ", escalation rate: " + fmt.percent1(drift.escalationRate)
                  + "). I recommend reviewing my recent decisions.";
      assert DriftWarning(drift.driftScore, drift.escalationRate, fmt) == head + tail;
      assert (head + tail)[1] == head[1];
    } else {
      assert AllSystems[1] == 'A';
    }
  }

  lemma PatternsOpening(patternsFound: nat)
    ensures patternsFound > 0 ==> StartsWith(PatternsSentence(patternsFound), " I identified ")
  {
    if patternsFound > 0 {
      assert PatternsSentence(patternsFound)[..14] == " I identified ";
    }
  }

  lemma WarningEndsInDecisions(s: string, score: real, rate: real, fmt: Formatters)
    requires EndsWith(s, DriftWarning(score, rate, fmt))
    ensures |s| >= 3 && s[|s| - 3] == 'n'
  {
    var w := DriftWarning(score, rate, fmt);
    var fixedEnd := "). I recommend reviewing my recent decisions.";
    assert w[|w| - 3] == fixedEnd[|fixedEnd| - 3] == 'n';
    assert s[|s| - |w|..] == w;
    assert s[|s| - 3] == w[|w| - 3];
  }

  lemma AllClearEndsInParameters(s: string)
    requires EndsWith(s, AllSystems)
    ensures |s| >= 3 && s[|s| - 3] == 'r'
  {
    assert AllSystems[|AllSystems| - 3] == 'r';
    assert s[|s| - |AllSystems|..] == AllSystems;
    assert s[|s| - 3] == AllSystems[|AllSystems| - 3];
  }

  /** A note ends with the all-clear exactly when no drift was detected. */
  lemma ClosingIsExclusive(note: string, drift: DriftResult, fmt: Formatters)
    requires EndsWith(note, Closing(drift, fmt))
    ensures EndsWith(note, AllSystems) <==> !drift.driftDetected
    ensures drift.driftDetected ==> EndsWith(note, DriftWarning(drift.driftScore, drift.escalationRate, fmt))
  {
    if drift.driftDetected {
      WarningEndsInDecisions(note, drift.driftScore, drift.escalationRate, fmt);
      if EndsWith(note, AllSystems) {
        AllClearEndsInParameters(note);
        assert false;
      }
    }
  }

  /**
   * End to end over a day's rows: the note opens with the row count, lists
   * the positive, challenging and routine episodes, and goes straight from
   * the period to the closing, since consolidation finds no pattern.
   */
  lemma MorningNoteOfDay(agentId: string, rows: seq<EpisodeRow>, drift: DriftResult, fmt: Formatters)
    requires rows != []
    ensures var eps := RunConsolidation(agentId, rows).episodes;
      GenerateMorningNote(agentId, RunConsolidation(agentId, rows), drift, fmt)
      == Opening(|rows|) + SentimentClause(CountPositive(eps), CountNegative(eps), CountRoutine(eps))
         + "." + Closing(drift, fmt)
  {
    var c := RunConsolidation(agentId, rows);
    NeutralIsRoutineCount(agentId, rows);
    NoteOfCounts(agentId, c, drift, fmt, |rows|, CountPositive(c.episodes), CountNegative(c.episodes),
                 CountRoutine(c.episodes));
  }

  /** A result without patterns gets the opening, the parenthetical of its counts, "." and the closing. */
  lemma NoteOfCounts(agentId: string, c: ConsolidationResult, drift: DriftResult, fmt: Formatters,
                     reviewed: nat, positive: nat, negative: nat, routine: int)
    requires c.episodesReviewed == reviewed != 0 && c.patternsFound == 0
    requires positive == CountPositive(c.episodes) && negative == CountNegative(c.episodes)
    requires routine == reviewed - positive - negative
    ensures GenerateMorningNote(agentId, c, drift, fmt)
            == Opening(reviewed) + SentimentClause(positive, negative, routine) + "." + Closing(drift, fmt)
  {
    NoteOfResult(agentId, c, drift, fmt, reviewed, positive, negative, 0);
    DayNoteWithoutPatterns(reviewed, positive, negative, routine, drift, fmt);
  }

  /** A result with reviewed episodes gets the day note of its counts. */
  lemma NoteOfResult(agentId: string, c: ConsolidationResult, drift: DriftResult, fmt: Formatters,
                     reviewed: nat, positive: nat, negative: nat, found: nat)
    requires c.episodesReviewed == reviewed != 0 && c.patternsFound == found
    requires positive == CountPositive(c.episodes) && negative == CountNegative(c.episodes)
    ensures GenerateMorningNote(agentId, c, drift, fmt) == DayNote(reviewed, positive, negative, found, drift, fmt)
  {
  }

  /** With no pattern found the period is followed directly by the closing. */
  lemma DayNoteWithoutPatterns(reviewed: nat, positive: nat, negative: nat, routine: int, drift: DriftResult,
                               fmt: Formatters)
    requires routine == reviewed - positive - negative
    ensures DayNote(reviewed, positive, negative, 0, drift, fmt)
            == Opening(reviewed) + SentimentClause(positive, negative, routine) + "." + Closing(drift, fmt)
  {
    var head := Opening(reviewed) + SentimentClause(positive, negative, routine) + ".";
    assert PatternsSentence(0) == "";
    assert head + "" == head;
  }

  // ---------------------------------------------------------------------------
  // Properties
  // ---------------------------------------------------------------------------

  /** Every episode falls in exactly one of the three buckets. */
  lemma {:induction false} BucketsPartitionEpisodes(eps: seq<Episode>)
    ensures CountPositive(eps) + CountNegative(eps) + CountRoutine(eps) == |eps|
  {
    if eps != [] {
      BucketsPartitionEpisodes(eps[1..]);
    }
  }

  /**
   * For a consolidation result, the note's `neutral` count is the number of
   * routine episodes, so it is never negative.
   */
  lemma NeutralIsRoutineCount(agentId: string, rows: seq<EpisodeRow>)
    ensures var c := RunConsolidation(agentId, rows);
      c.episodesReviewed - CountPositive(c.episodes) - CountNegative(c.episodes) == CountRoutine(c.episodes) >= 0
  {
    BucketsPartitionEpisodes(RunConsolidation(agentId, rows).episodes);
  }

  /**
   * With every bucket non-empty the parenthetical lists all three, in the
   * order positive, challenging, routine — for 3, 1 and 1 episodes it reads
   * " (3 positive, 1 challenging, 1 routine)".
   */
  lemma AllBucketsClause(positive: nat, negative: nat, neutral: nat)
    requires positive > 0 && negative > 0 && neutral > 0
    ensures SentimentClause(positive, negative, neutral)
            == " (" + NatToString(positive) + " positive, " + NatToString(negative) + " challenging, "
               + NatToString(neutral) + " routine)"
  {
    var x, y, z := NatToString(positive) + " positive", NatToString(negative) + " challenging",
                   NatToString(neutral) + " routine";
    var b := SentimentBuckets(positive, negative, neutral);
    assert b == [x, y, z];
    assert b[1..] == [y, z];
    assert b[1..][1..] == [z];
    assert Join(b, ", ") == x + ", " + (y + ", " + z) by {
      assert Join(b[1..], ", ") == y + ", " + z;
    }
    JoinThreeFlat(NatToString(positive), NatToString(negative), NatToString(neutral));
  }

  /**
   * The parenthetical in every non-empty case: the non-zero buckets, in the
   * order positive, challenging, routine, separated by ", ".
   */
  lemma SentimentClauseCases(positive: nat, negative: nat, neutral: int)
    ensures positive > 0 && negative == 0 && neutral <= 0 ==>
              SentimentClause(positive, negative, neutral) == " (" + NatToString(positive) + " positive)"
    ensures positive == 0 && negative > 0 && neutral <= 0 ==>
              SentimentClause(positive, negative, neutral) == " (" + NatToString(negative) + " challenging)"
    ensures positive > 0 && negative == 0 && neutral > 0 ==>
              SentimentClause(positive, negative, neutral)
              == " (" + NatToString(positive) + " positive, " + NatToString(neutral) + " routine)"
    ensures positive == 0 && negative > 0 && neutral > 0 ==>
              SentimentClause(positive, negative, neutral)
              == " (" + NatToString(negative) + " challenging, " + NatToString(neutral) + " routine)"
    ensures positive > 0 && negative > 0 && neutral <= 0 ==>
              SentimentClause(positive, negative, neutral)
              == " (" + NatToString(positive) + " positive, " + NatToString(negative) + " challenging)"
    ensures positive > 0 && negative > 0 && neutral > 0 ==>
              SentimentClause(positive, negative, neutral)
              == " (" + NatToString(positive) + " positive, " + NatToString(negative) + " challenging, "
                 + NatToString(neutral) + " routine)"
  {
    if positive > 0 && negative > 0 && neutral > 0 {
      AllBucketsClause(positive, negative, neutral);
    } else if positive > 0 && negative > 0 {
      PositiveChallengingClause(positive, negative, neutral);
    } else if positive > 0 && neutral > 0 {
      PositiveRoutineClause(positive, negative, neutral);
    } else if negative > 0 && neutral > 0 {
      ChallengingRoutineClause(positive, negative, neutral);
    } else if positive > 0 {
      PositiveOnlyClause(positive, negative, neutral);
    } else if negative > 0 {
      ChallengingOnlyClause(positive, negative, neutral);
    }
  }

  lemma PositiveOnlyClause(positive: nat, negative: nat, neutral: int)
    requires positive > 0 && negative == 0 && neutral <= 0
    ensures SentimentClause(positive, negative, neutral) == " (" + NatToString(positive) + " positive)"
  {
    var n := NatToString(positive);
    assert SentimentBuckets(positive, negative, neutral) == [n + " positive"];
    SingleClause(n, " positive", SentimentBuckets(positive, negative, neutral));
    SingleFlat(n, " positive", " positive)");
  }

  lemma ChallengingOnlyClause(positive: nat, negative: nat, neutral: int)
    requires positive == 0 && negative > 0 && neutral <= 0
    ensures SentimentClause(positive, negative, neutral) == " (" + NatToString(negative) + " challenging)"
  {
    var n := NatToString(negative);
    assert SentimentBuckets(positive, negative, neutral) == [n + " challenging"];
    SingleClause(n, " challenging", SentimentBuckets(positive, negative, neutral));
    SingleFlat(n, " challenging", " challenging)");
  }

  lemma PositiveRoutineClause(positive: nat, negative: nat, neutral: int)
    requires positive > 0 && negative == 0 && neutral > 0
    ensures SentimentClause(positive, negative, neutral)
            == " (" + NatToString(positive) + " positive, " + NatToString(neutral) + " routine)"
  {
    var n, m := NatToString(positive), NatToString(neutral);
    assert SentimentBuckets(positive, negative, neutral) == [n + " positive", m + " routine"];
    PairClause(n, " positive", m, " routine", SentimentBuckets(positive, negative, neutral));
    PairFlat(n, " positive", " positive, ", m, " routine", " routine)");
  }

  lemma ChallengingRoutineClause(positive: nat, negative: nat, neutral: int)
    requires positive == 0 && negative > 0 && neutral > 0
    ensures SentimentClause(positive, negative, neutral)
            == " (" + NatToString(negative) + " challenging, " + NatToString(neutral) + " routine)"
  {
    var n, m := NatToString(negative), NatToString(neutral);
    assert SentimentBuckets(positive, negative, neutral) == [n + " challenging", m + " routine"];
    PairClause(n, " challenging", m, " routine", SentimentBuckets(positive, negative, neutral));
    PairFlat(n, " challenging", " challenging, ", m, " routine", " routine)");
  }

  lemma PositiveChallengingClause(positive: nat, negative: nat, neutral: int)
    requires positive > 0 && negative > 0 && neutral <= 0
    ensures SentimentClause(positive, negative, neutral)
            == " (" + NatToString(positive) + " positive, " + NatToString(negative) + " challenging)"
  {
    var n, m := NatToString(positive), NatToString(negative);
    assert SentimentBuckets(positive, negative, neutral) == [n + " positive", m + " challenging"];
    PairClause(n, " positive", m, " challenging", SentimentBuckets(positive, negative, neutral));
    PairFlat(n, " positive", " positive, ", m, " challenging", " challenging)");
  }

  /** Regrouping a one-bucket clause into its printed pieces. */
  lemma SingleFlat(n: string, tag: string, tagClose: string)
    requires tagClose == tag + ")"
    ensures " (" + n + tag + ")" == " (" + n + tagClose
  {
  }

  /** Regrouping a two-bucket clause into its printed pieces. */
  lemma PairFlat(n: string, tag: string, tagSep: string, m: string, tag2: string, tagClose: string)
    requires tagSep == tag + ", " && tagClose == tag2 + ")"
    ensures " (" + n + (tag + ", ") + m + tag2 + ")" == " (" + n + tagSep + m + tagClose
  {
  }

  lemma SingleClause(n: string, tag: string, b: seq<string>)
    requires b == [n + tag]
    ensures " (" + Join(b, ", ") + ")" == " (" + n + tag + ")"
  {
  }

  lemma PairClause(n: string, tag: string, m: string, tag2: string, b: seq<string>)
    requires b == [n + tag, m + tag2]
    ensures " (" + Join(b, ", ") + ")" == " (" + n + (tag + ", ") + m + tag2 + ")"
  {
    assert b[1..] == [m + tag2];
    assert Join(b, ", ") == (n + tag) + ", " + (m + tag2);
  }

  lemma JoinThreeFlat(p: string, n: string, u: string)
    ensures " (" + ((p + " positive") + ", " + ((n + " challenging") + ", " + (u + " routine"))) + ")"
            == " (" + p + " positive, " + n + " challenging, " + u + " routine)"
  {
    assert " positive" + ", " == " positive, ";
    assert " challenging" + ", " == " challenging, ";
  }

  /** Four escalations over ten tasks: rate 0.4, drift detected, score clamped to 1. */
  lemma DriftExample(agentId: string, fmt: Formatters)
    ensures var r := DetectDrift(agentId, [4], [10], fmt);
      r.escalationRate == 0.4 && r.driftDetected && r.driftScore == 1.0
  {
  }

  /** No completed task: no division, no drift, score 0. */
  lemma NoTasksNoDrift(agentId: string, escalationRows: seq<nat>, fmt: Formatters)
    ensures var r := DetectDrift(agentId, escalationRows, [], fmt);
      r.escalationRate == 0.0 && !r.driftDetected && r.driftScore == 0.0
  {
  }

  /** An empty day yields the quiet-day note, whatever the drift result. */
  lemma QuietDayNote(agentId: string, drift: DriftResult, fmt: Formatters)
    ensures GenerateMorningNote(agentId, RunConsolidation(agentId, []), drift, fmt) == QuietDay(agentId)
  {
  }
}
