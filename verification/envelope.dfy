/**
 * The retrieval side (packages/judgment/src/retrieval/envelope_builder.py):
 * assembling the expert-judgment half of a task envelope from the agent's
 * latest core-memory record, the semantically similar past episodes and
 * the company's org knowledge graph.
 *
 * The semantic search and the org-graph query are inputs: `hits` are the
 * search results (already limited to five by the caller's query) and
 * `orgRows` is `None` when the query raised, otherwise the rows in the
 * order the database returned them. A JSON-text `entity_data` column is
 * taken as already decoded.
 */
module EnvelopeBuilder {
  import opened Wrappers
  import opened Text
  import opened Judgment
  import CoreMemory

  datatype ExpertJudgment = ExpertJudgment(
    expertId: string,
    version: string,
    patterns: seq<Pattern>,
    escalationTriggers: seq<Trigger>,
    hardConstraints: seq<Constraint>,
    confidenceMap: seq<ConfidenceRange>)

  /** One semantic-search result; absent `content` reads as the empty string. */
  datatype SearchHit = SearchHit(
    content: string,
    metadata: map<string, string>,
    similarity: Option<real>)

  datatype HistoryEntry = HistoryEntry(
    sessionId: string,
    summary: string,
    outcome: string,
    timestamp: string,
    sentiment: real,
    relevanceScore: real)

  /** The keys of an org-graph entity's data that the builder reads. */
  datatype EntityData = EntityData(
    id: Option<string>,
    title: Option<string>,
    description: Option<string>,
    status: Option<string>,
    stakeholders: Option<seq<string>>,
    deadline: Option<string>,
    name: Option<string>,
    role: Option<string>,
    relevance: Option<string>,
    contactPreference: Option<string>,
    goal: Option<string>,
    constraints: Option<seq<string>>,
    budgetRemaining: Option<real>)

  datatype OrgRow = OrgRow(entityType: string, data: EntityData)

  datatype Decision = Decision(
    id: string,
    title: string,
    description: string,
    status: string,
    stakeholders: seq<string>,
    deadline: Option<string>)

  datatype Person = Person(
    id: string,
    name: string,
    role: string,
    relevance: string,
    contactPreference: Option<string>)

  datatype OrgContext = OrgContext(
    goal: string,
    activeDecisions: seq<Decision>,
    keyPeople: seq<Person>,
    budgetRemaining: real,
    constraints: seq<string>,
    history: seq<HistoryEntry>)

  datatype Envelope = Envelope(expertJudgment: ExpertJudgment, orgContext: OrgContext)

  const SummaryLimit: nat := 200
  const UntrainedVersion: string := "untrained"

  /** The advisory bands handed to an agent nobody has trained yet. */
  const UntrainedConfidenceMap: seq<ConfidenceRange> := [
    ConfidenceRange(0.0, 0.3, "escalate", "Low"),
    ConfidenceRange(0.3, 0.7, "slow_down", "Medium"),
    ConfidenceRange(0.7, 1.0, "act", "High")
  ]

  const EmptyOrgContext: OrgContext := OrgContext("", [], [], 0.0, [], [])

  // ---------------------------------------------------------------------------
  // Expert judgment and history
  // ---------------------------------------------------------------------------

  /** The expert-judgment half: placeholders when untrained, else the record's fields. */
  function JudgmentOf(cm: Option<CoreMemory.Record>): (j: ExpertJudgment)
    ensures cm.None? ==> j.expertId == "" && j.version == UntrainedVersion
                         && j.patterns == [] && j.escalationTriggers == [] && j.hardConstraints == []
                         && j.confidenceMap == UntrainedConfidenceMap
    ensures cm.Some? ==> j.expertId == cm.value.expertId && j.version == cm.value.trainingVersion
                         && j.patterns == cm.value.judgment.patterns
                         && j.escalationTriggers == cm.value.escalationTriggers
                         && j.hardConstraints == cm.value.hardConstraints
                         && j.confidenceMap == cm.value.confidenceMap
  {
    match cm
    case None => ExpertJudgment("", UntrainedVersion, [], [], [], UntrainedConfidenceMap)
    case Some(r) =>
      ExpertJudgment(r.expertId, r.trainingVersion, r.judgment.patterns,
                     r.escalationTriggers, r.hardConstraints, r.confidenceMap)
  }

  function MetadataOr(m: map<string, string>, key: string): (v: string)
    ensures key in m ==> v == m[key]
    ensures key !in m ==> v == ""
  {
    if key in m then m[key] else ""
  }

  /** A search hit as a history entry: a 200-character summary, no outcome, neutral sentiment. */
  function HistoryOf(hit: SearchHit): (h: HistoryEntry)
    ensures |h.summary| <= SummaryLimit && h.summary <= hit.content
    ensures |hit.content| <= SummaryLimit ==> h.summary == hit.content
    ensures |hit.content| > SummaryLimit ==> |h.summary| == SummaryLimit
    ensures h.sessionId == MetadataOr(hit.metadata, "session_id")
    ensures h.timestamp == MetadataOr(hit.metadata, "created_at")
    ensures h.outcome == "" && h.sentiment == 0.0
    ensures h.relevanceScore == hit.similarity.GetOr(0.0)
  {
    HistoryEntry(MetadataOr(hit.metadata, "session_id"), Take(hit.content, SummaryLimit), "",
                 MetadataOr(hit.metadata, "created_at"), 0.0, hit.similarity.GetOr(0.0))
  }

  // ---------------------------------------------------------------------------
  // Org context
  // ---------------------------------------------------------------------------

  function DecisionOf(d: EntityData): Decision
  {
    Decision(d.id.GetOr(""), d.title.GetOr(""), d.description.GetOr(""), d.status.GetOr("proposed"),
             d.stakeholders.GetOr([]), d.deadline)
  }

  function PersonOf(d: EntityData): Person
  {
    Person(d.id.GetOr(""), d.name.GetOr("Unknown"), d.role.GetOr(""), d.relevance.GetOr(""),
           d.contactPreference)
  }

  /** The decision rows, in row order: the reference the fold is compared with. */
  function DecisionsOf(rows: seq<OrgRow>): (ds: seq<Decision>)
    ensures |ds| <= |rows|
  {
    if rows == [] then []
    else (if rows[0].entityType == "decision" then [DecisionOf(rows[0].data)] else []) + DecisionsOf(rows[1..])
  }

  /** The person rows, in row order. */
  function PeopleOf(rows: seq<OrgRow>): (ps: seq<Person>)
    ensures |ps| <= |rows|
  {
    if rows == [] then []
    else (if rows[0].entityType == "person" then [PersonOf(rows[0].data)] else []) + PeopleOf(rows[1..])
  }

  function GoalOf(d: EntityData): Option<string> { d.goal }
  function ConstraintsOf(d: EntityData): Option<seq<string>> { d.constraints }
  function BudgetOf(d: EntityData): Option<real> { d.budgetRemaining }

  /** The field as a project row sets it; rows of other types set nothing. */
  function ProjectValue<T>(row: OrgRow, field: EntityData -> Option<T>): Option<T>
  {
    if row.entityType == "project" then field(row.data) else None
  }

  /**
   * The effect of running `x = data.get(key, x)` over the project rows,
   * starting from `dflt`: the reference the fold is compared with.
   */
  function LastProjectValue<T>(rows: seq<OrgRow>, field: EntityData -> Option<T>, dflt: T): (v: T)
    ensures rows == [] ==> v == dflt
  {
    if rows == [] then dflt
    else ProjectValue(rows[|rows| - 1], field).GetOr(LastProjectValue(rows[..|rows| - 1], field, dflt))
  }

  /**
   * `_build_org_context`: a failed query or no rows give the empty context;
   * otherwise decisions and people are collected in row order, and the
   * goal, constraints and remaining budget are those of the last project
   * row that carries each key (each key independently), defaulting to "",
   * [] and 0.0.
   */
  method BuildOrgContext(orgRows: Option<seq<OrgRow>>) returns (ctx: OrgContext)
    ensures orgRows.None? || orgRows == Some([]) ==> ctx == EmptyOrgContext
    ensures orgRows.Some? ==>
              var rows := orgRows.value;
              ctx.activeDecisions == DecisionsOf(rows) && ctx.keyPeople == PeopleOf(rows)
              && ctx.goal == LastProjectValue(rows, GoalOf, "")
              && ctx.constraints == LastProjectValue(rows, ConstraintsOf, [])
              && ctx.budgetRemaining == LastProjectValue(rows, BudgetOf, 0.0)
              && ctx.history == []
  {
    if orgRows.None? || orgRows.value == [] {
      return EmptyOrgContext;
    }
    var rows := orgRows.value;
    var decisions: seq<Decision> := [];
    var people: seq<Person> := [];
    var goal := "";
    var constraints: seq<string> := [];
    var budget := 0.0;
    var k := 0;
    while k < |rows|
      invariant 0 <= k <= |rows|
      invariant decisions == DecisionsOf(rows[..k])
      invariant people == PeopleOf(rows[..k])
      invariant goal == LastProjectValue(rows[..k], GoalOf, "")
      invariant constraints == LastProjectValue(rows[..k], ConstraintsOf, [])
      invariant budget == LastProjectValue(rows[..k], BudgetOf, 0.0)
    {
      var row := rows[k];
      DecisionsConcat(rows[..k], [row]);
      PeopleConcat(rows[..k], [row]);
      assert rows[..k + 1] == rows[..k] + [row];
      assert rows[..k + 1][..k] == rows[..k];
      if row.entityType == "decision" {
        decisions := decisions + [DecisionOf(row.data)];
      } else if row.entityType == "person" {
        people := people + [PersonOf(row.data)];
      } else if row.entityType == "project" {
        goal := row.data.goal.GetOr(goal);
        constraints := row.data.constraints.GetOr(constraints);
        budget := row.data.budgetRemaining.GetOr(budget);
      }
      k := k + 1;
    }
    assert rows[..k] == rows;
    return OrgContext(goal, decisions, people, budget, constraints, []);
  }

  /** Decisions are collected in order: the list for a concatenation is the concatenation of the lists. */
  lemma {:induction false} DecisionsConcat(a: seq<OrgRow>, b: seq<OrgRow>)
    ensures DecisionsOf(a + b) == DecisionsOf(a) + DecisionsOf(b)
  {
    if a != [] {
      assert (a + b)[1..] == a[1..] + b;
      DecisionsConcat(a[1..], b);
    } else {
      assert a + b == b;
    }
  }

  /** People are collected in order. */
  lemma {:induction false} PeopleConcat(a: seq<OrgRow>, b: seq<OrgRow>)
    ensures PeopleOf(a + b) == PeopleOf(a) + PeopleOf(b)
  {
    if a != [] {
      assert (a + b)[1..] == a[1..] + b;
      PeopleConcat(a[1..], b);
    } else {
      assert a + b == b;
    }
  }

  // ---------------------------------------------------------------------------
  // build
  // ---------------------------------------------------------------------------

  /**
   * `EnvelopeBuilder.build`: the judgment half from the agent's latest
   * core-memory record, one history entry per search hit in hit order, and
   * the org context with its history replaced by those entries.
   */
  method Build(store: CoreMemory.Store, agentId: string, hits: seq<SearchHit>, orgRows: Option<seq<OrgRow>>)
    returns (env: Envelope)
    ensures env.expertJudgment == JudgmentOf(CoreMemory.Load(store, agentId))
    ensures (forall i :: 0 <= i < |store.log| ==> store.log[i].agentId != agentId)
            ==> env.expertJudgment.version == UntrainedVersion
                && env.expertJudgment.confidenceMap == UntrainedConfidenceMap
    ensures |env.orgContext.history| == |hits|
    ensures forall i :: 0 <= i < |hits| ==> env.orgContext.history[i] == HistoryOf(hits[i])
    ensures orgRows.Some? ==>
              env.orgContext.activeDecisions == DecisionsOf(orgRows.value)
              && env.orgContext.keyPeople == PeopleOf(orgRows.value)
              && env.orgContext.goal == LastProjectValue(orgRows.value, GoalOf, "")
              && env.orgContext.constraints == LastProjectValue(orgRows.value, ConstraintsOf, [])
              && env.orgContext.budgetRemaining == LastProjectValue(orgRows.value, BudgetOf, 0.0)
    ensures orgRows.None? ==>
              env.orgContext == EmptyOrgContext.(history := env.orgContext.history)
  {
    var cm := CoreMemory.Load(store, agentId);
    var judgment := JudgmentOf(cm);
    var history: seq<HistoryEntry> := [];
    var k := 0;
    while k < |hits|
      invariant 0 <= k <= |hits|
      invariant |history| == k
      invariant forall i :: 0 <= i < k ==> history[i] == HistoryOf(hits[i])
    {
      history := history + [HistoryOf(hits[k])];
      k := k + 1;
    }
    var ctx := BuildOrgContext(orgRows);
    return Envelope(judgment, ctx.(history := history));
  }

  // ---------------------------------------------------------------------------
  // Properties
  // ---------------------------------------------------------------------------

  /** The untrained bands partition [0, 1]. */
  lemma UntrainedMapPartitions()
    ensures PartitionsUnitInterval(UntrainedConfidenceMap)
  {
  }

  /**
   * Rows of any type other than decision, person or project change nothing,
   * wherever they appear.
   */
  lemma {:induction false} OtherRowsIgnored(a: seq<OrgRow>, b: seq<OrgRow>, row: OrgRow)
    requires row.entityType != "decision" && row.entityType != "person" && row.entityType != "project"
    ensures DecisionsOf(a + [row] + b) == DecisionsOf(a + b)
    ensures PeopleOf(a + [row] + b) == PeopleOf(a + b)
    ensures LastProjectValue(a + [row] + b, GoalOf, "") == LastProjectValue(a + b, GoalOf, "")
    ensures LastProjectValue(a + [row] + b, ConstraintsOf, []) == LastProjectValue(a + b, ConstraintsOf, [])
    ensures LastProjectValue(a + [row] + b, BudgetOf, 0.0) == LastProjectValue(a + b, BudgetOf, 0.0)
  {
    assert DecisionsOf(a + [row] + b) == DecisionsOf(a + b) by {
      DecisionsConcat(a + [row], b);
      DecisionsConcat(a, [row]);
      DecisionsConcat(a, b);
      assert DecisionsOf([row]) == [];
    }
    assert PeopleOf(a + [row] + b) == PeopleOf(a + b) by {
      PeopleConcat(a + [row], b);
      PeopleConcat(a, [row]);
      PeopleConcat(a, b);
      assert PeopleOf([row]) == [];
    }
    ProjectValuesSkipOthers(a, b, row, GoalOf, "");
    ProjectValuesSkipOthers(a, b, row, ConstraintsOf, []);
    ProjectValuesSkipOthers(a, b, row, BudgetOf, 0.0);
  }

  /** A row that is not a project row does not move the last-project-value. */
  lemma {:induction false} ProjectValuesSkipOthers<T>(a: seq<OrgRow>, b: seq<OrgRow>, row: OrgRow,
                                                       field: EntityData -> Option<T>, dflt: T)
    requires row.entityType != "project"
    ensures LastProjectValue(a + [row] + b, field, dflt) == LastProjectValue(a + b, field, dflt)
    decreases |b|
  {
    if b == [] {
      assert a + [row] + b == a + [row] && a + b == a;
      assert (a + [row])[..|a|] == a;
    } else {
      var b' := b[..|b| - 1];
      assert (a + [row] + b)[..|a + [row] + b| - 1] == a + [row] + b';
      assert (a + b)[..|a + b| - 1] == a + b';
      ProjectValuesSkipOthers(a, b', row, field, dflt);
    }
  }

  /**
   * The last project row that carries the key decides the value; with no
   * such row the value is the default.
   */
  lemma {:induction false} LastProjectValueIsLast<T>(rows: seq<OrgRow>, field: EntityData -> Option<T>, dflt: T)
    ensures (forall i :: 0 <= i < |rows| ==> ProjectValue(rows[i], field).None?)
            ==> LastProjectValue(rows, field, dflt) == dflt
    ensures forall i :: (0 <= i < |rows| && ProjectValue(rows[i], field).Some?
                         && (forall j :: i < j < |rows| ==> ProjectValue(rows[j], field).None?))
                        ==> LastProjectValue(rows, field, dflt) == ProjectValue(rows[i], field).value
  {
    if rows != [] {
      var init := rows[..|rows| - 1];
      LastProjectValueIsLast(init, field, dflt);
      assert forall i :: 0 <= i < |init| ==> init[i] == rows[i];
    }
  }
}
