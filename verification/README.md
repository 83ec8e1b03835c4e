# Judgment-profile pipeline of 0agent, in Dafny

This project models the judgment service of 0agent (`packages/judgment`): the
path an expert's training transcript takes to become an agent's versioned
judgment profile, and the ways that profile is read back.

- **Extraction** (`Extractor`). A transcript is split into sentences on runs of
  `.`, `!` and `?`, and each sentence is stripped. A sentence that an
  indicator matches yields one pattern, constraint or trigger. Each item has
  an MD5-derived id, a description of at most 200 characters and fixed
  defaults. The result also carries a fixed three-band confidence map and a
  16-hex-digit SHA-256 prefix of the transcript.
- **Training consolidation** (`TrainingConsolidator`).
  - An incoming pattern whose lower-cased name matches an existing one
    deepens that pattern: `"\nDeepened: "` plus the new description is
    appended, and confidence rises by 0.1, capped at 1.0.
  - Any other incoming pattern is appended.
  - Constraints are de-duplicated by lower-cased rule, triggers by
    lower-cased description.
  - A confidence map in the extraction replaces the stored one.
- **Encoding** (`Encoder`). The latest core-memory record is merged with an
  extraction by item id. The result is written as a new record.
- **Core memory** (`CoreMemory`).
  - The store is an append-only log of locked records.
  - `load` and `get_version` read the most recent record of an agent.
  - `write` stamps each record with a 16-hex-digit version hash of its
    content.
- **Nightly review** (`NightlyReview`). It summarises the day's episodes and
  checks the week's escalation rate against the 30% threshold. From both it
  composes the morning note.
- **Envelope building** (`EnvelopeBuilder`). It assembles the expert-judgment
  half of a task envelope from:
  - the latest record, or placeholders for an untrained agent;
  - the semantically similar past episodes;
  - the company's org knowledge graph.

Shared pieces:
- `Dedup`: the "append what has an unseen key" merge used by both the
  consolidator and the encoder.
- `Text`: Python string operations such as `lower`, `strip`, slicing, `join`
  and integer formatting.
- `Digest`: hex digests.
- `Judgment`: the record types.

Database reads, hashing, regular expressions and real-number formatting enter
as parameters:
- Each query's rows are an argument.
- `now` is an argument.
- SHA-256 and MD5 are functions to fixed-length hex strings.
- Each indicator list is a predicate on sentences.
- `:.2f` and `:.1%` are formatter functions.

Floats are modelled as reals.

## Model

| member | source | states |
|---|---|---|
| Extractor.Extract | packages/judgment/src/training/extractor.py:19-49 | The extraction holds the patterns, constraints and triggers of the three extractors, the fixed confidence map, and a raw transcript hash of 16 hex digits that is a prefix of the transcript's SHA-256. |
| Extractor.SplitOnRuns | packages/judgment/src/training/extractor.py:68 | Splitting on `[.!?]+` yields pieces free of terminators, separated by non-empty terminator runs, with no empty piece between two runs (so every run is maximal), and interleaving them rebuilds the transcript exactly. |
| Extractor.SplitUnique | packages/judgment/src/training/extractor.py:68 | Any terminator-free pieces separated by non-empty terminator runs, with no empty piece between two runs, that rebuild the transcript are exactly the split's pieces and runs: the runs removed are maximal, so the sentence list is determined by the transcript. |
| Extractor.SplitExample | packages/judgment/src/training/extractor.py:68 | "a..b" gives exactly the sentences "a" and "b": a run of two terminators is removed as one. |
| Extractor.QualifyingIndices | packages/judgment/src/training/extractor.py:69-75 | The indices that yield an item are strictly increasing sentence indices whose stripped sentence is non-empty and matched by the indicator. |
| Extractor.QualifyingIndicesComplete | packages/judgment/src/training/extractor.py:69-75 | Every sentence whose stripped form is non-empty and matched yields an item: no qualifying sentence is skipped. |
| Extractor.Collect | packages/judgment/src/training/extractor.py:69-87 | One item per qualifying sentence, in sentence order, each built from the sentence's index and its stripped text: the `break` after the first matching indicator means at most one item per sentence. |
| Extractor.ItemId | packages/judgment/src/training/extractor.py:76-79 | An id is its prefix followed by exactly the first 8 hex digits of the sentence's MD5, so it has prefix length plus 8 characters. |
| Extractor.MakePattern | packages/judgment/src/training/extractor.py:76-86 | A pattern has a `pat_` id, the name "Pattern from training (line i+1)", a description that is the sentence when it has at most 200 characters and otherwise its first 200 characters, empty guidance and domains, and confidence 0.5. |
| Extractor.MakeConstraint | packages/judgment/src/training/extractor.py:116-125 | A constraint has a `con_` id, rule and description equal to the sentence when it has at most 200 characters and otherwise to its first 200 characters, category "operational", and is critical exactly when the lower-cased sentence contains "never". |
| Extractor.MakeTrigger | packages/judgment/src/training/extractor.py:154-163 | A trigger has a `trg_` id, a description that is the sentence when it has at most 200 characters and otherwise its first 200 characters, a single pattern that is the lower-cased first 100 characters, action "escalate" and priority 5. |
| Extractor.ExtractPatterns | packages/judgment/src/training/extractor.py:51-89 | The k-th pattern is built from the k-th qualifying sentence and its index. |
| Extractor.ExtractConstraints | packages/judgment/src/training/extractor.py:91-128 | The k-th constraint is built from the k-th sentence the constraint indicators match. |
| Extractor.ExtractTriggers | packages/judgment/src/training/extractor.py:130-166 | The k-th trigger is built from the k-th sentence the trigger indicators match. |
| Extractor.AtMostOnePerSentence | packages/judgment/src/training/extractor.py:74-87 | There are never more patterns than sentences, and the k-th pattern's name carries the line number of the k-th qualifying sentence. |
| Extractor.IncreasingBounded | packages/judgment/src/training/extractor.py:69-87 | A strictly increasing index list inside `[lo, hi)` has at most `hi - lo` entries. |
| Extractor.ExtractorMapPartitions | packages/judgment/src/training/extractor.py:168-195 | The extractor's bands 0–0.3, 0.3–0.6 and 0.6–1.0 cover [0, 1] without gap or overlap. |
| Text.Strip | packages/judgment/src/training/extractor.py:70 | A stripped sentence is no longer than the sentence, begins and ends with a non-space, and is empty exactly when the sentence is all whitespace. |
| Text.StripRemovesOnlyEdgeSpaces | packages/judgment/src/training/extractor.py:70 | Stripping removes only leading and trailing whitespace: the result is a contiguous slice of the sentence. |
| Text.NatToStringRoundTrip | packages/judgment/src/training/extractor.py:80 | The decimal rendering of a line number reads back as the same number. |
| Text.NatToStringInjective | packages/judgment/src/training/extractor.py:80 | Different line numbers render differently, so pattern names from different sentences differ. |
| Text.Lower | packages/judgment/src/training/consolidator.py:79-82 | Lower-casing keeps the length and maps each character by itself. |
| TrainingConsolidator.Consolidate | packages/judgment/src/training/consolidator.py:20-67 | The profile's patterns, constraints and triggers are the consolidated lists. The extraction's confidence map wins when present, else the stored one is kept. The review list is empty. |
| TrainingConsolidator.ConsolidatePatterns | packages/judgment/src/training/consolidator.py:69-95 | The existing patterns stay in place, each deepened by the descriptions of the incoming patterns whose lower-cased name lands on it, in order. The incoming patterns with unmatched names are appended in order. |
| TrainingConsolidator.PatternLoopSpec | packages/judgment/src/training/consolidator.py:78-95 | The deepen-or-append loop equals the closed form: the deepening descriptions per existing index, plus the unmatched patterns appended. |
| TrainingConsolidator.NameIndex | packages/judgment/src/training/consolidator.py:79 | The name index maps a lower-cased name to the LAST existing pattern that carries it, and is absent exactly when no existing pattern does. |
| TrainingConsolidator.NameIndexNoneIff | packages/judgment/src/training/consolidator.py:79-83 | A name has no index exactly when it is not among the existing lower-cased names. |
| TrainingConsolidator.Deepen | packages/judgment/src/training/consolidator.py:86-88 | Deepening changes only description and confidence. It appends "\nDeepened: " plus the new description, and sets the confidence to the old one (0.5 when absent) plus 0.1 when that is at most 1.0, and to exactly 1.0 otherwise. |
| TrainingConsolidator.DeepenedBy | packages/judgment/src/training/consolidator.py:81-88 | Repeated deepening keeps every field but description and confidence, only extends the description, and never lifts confidence above 1.0. |
| TrainingConsolidator.DeepenThenDeepenedBy | packages/judgment/src/training/consolidator.py:81-88 | One deepening followed by a batch equals deepening by the longer batch: the closed form composes. |
| TrainingConsolidator.ExistingPatternsKept | packages/judgment/src/training/consolidator.py:78-88 | Every existing pattern keeps its id, name, guidance and domains. Its description is only extended, and its confidence stays as it was or is at most 1.0. |
| TrainingConsolidator.SingleMatchDeepens | packages/judgment/src/training/consolidator.py:81-88 | One incoming pattern matching existing pattern j (and no later one) deepens exactly j and appends nothing. |
| TrainingConsolidator.DeepeningExample | packages/judgment/src/training/consolidator.py:81-88 | Existing "Foo" (description d1, confidence 0.5) meets incoming "foo" (d2): one pattern with description "d1\nDeepened: d2" and confidence 0.6. |
| TrainingConsolidator.BatchDuplicatePatternsAppended | packages/judgment/src/training/consolidator.py:79-93 | Two same-named new patterns in one batch are both appended, because the name index is built from the existing list only. |
| TrainingConsolidator.PatternCountStable | packages/judgment/src/training/consolidator.py:69-95 | Consolidating the same patterns a second time appends nothing. |
| TrainingConsolidator.ConsolidateTwiceNoGrowth | packages/judgment/src/training/consolidator.py:20-67 | A second consolidation with the same extraction leaves constraints, triggers, confidence map and pattern count unchanged. |
| TrainingConsolidator.ConsolidateConstraints | packages/judgment/src/training/consolidator.py:97-109 | The existing constraints are kept as a prefix. A new constraint is appended exactly when its lower-cased rule is not among the existing rules. |
| TrainingConsolidator.ConsolidateTriggers | packages/judgment/src/training/consolidator.py:111-122 | The existing triggers are kept as a prefix. A new trigger is appended exactly when its lower-cased description is not among the existing ones. |
| TrainingConsolidator.FindUnresolvedContradictions | packages/judgment/src/training/consolidator.py:124-132 | No contradiction is ever flagged. |
| Dedup.AppendUnseen | packages/judgment/src/training/encoder.py:92-101 | The merge keeps the existing list as a prefix and appends, in order, exactly the incoming items whose key is not an existing key. |
| Dedup.AppendLoopIsUnseen | packages/judgment/src/training/encoder.py:96-101 | The append loop equals the existing list followed by the filter of the incoming items with an unseen key. |
| Dedup.AppendUnseenIdempotent | packages/judgment/src/training/encoder.py:92-123 | Merging the same incoming list twice gives the same result as merging it once. |
| Dedup.NoExistingKeyAppended | packages/judgment/src/training/encoder.py:96-100 | An incoming item whose key an existing item already has is never appended. |
| Dedup.BatchDuplicatesKept | packages/judgment/src/training/consolidator.py:101-107 | Two equal new items in one batch are both appended, because the key set is built from the existing list only. |
| Dedup.AppendUnseenSelf | packages/judgment/src/training/encoder.py:92-101 | Merging a list into itself changes nothing. |
| Encoder.BuildDraft | packages/judgment/src/training/encoder.py:40-71 | For a first training the extraction is taken verbatim, with an empty confidence map when it has none. Otherwise patterns, constraints and triggers are merged by id, and the extraction's confidence map wins over the stored one. The source-transcript hash is the extraction's raw hash, or empty. |
| Encoder.Encode | packages/judgment/src/training/encoder.py:17-90 | Encoding appends exactly one record for the agent, built from the merge with the agent's latest record. It returns that record's 16-character version hash. |
| Encoder.MergePatterns | packages/judgment/src/training/encoder.py:92-101 | Existing patterns are kept as a prefix. A new pattern is appended exactly when its id is not an existing id. |
| Encoder.MergeConstraints | packages/judgment/src/training/encoder.py:103-112 | Existing constraints are kept as a prefix. A new constraint is appended exactly when its id is not an existing id. |
| Encoder.MergeTriggers | packages/judgment/src/training/encoder.py:114-123 | Existing triggers are kept as a prefix. A new trigger is appended exactly when its id is not an existing id. |
| Encoder.MergeIdempotent | packages/judgment/src/training/encoder.py:92-101 | Merging the same patterns again changes nothing, and merging a list with itself gives the list. |
| Encoder.KnownIdNeverAppended | packages/judgment/src/training/encoder.py:96-100 | A new pattern whose id is already stored is never appended. |
| Encoder.ReencodeSameVersion | packages/judgment/src/training/encoder.py:17-90 | Encoding the same extraction twice in a row, the first time stamped after the agent's stored records, stores the same content under the same version hash. |
| CoreMemory.Write | packages/judgment/src/memory/core.py:68-119 | Writing appends exactly one record and keeps the log before it. The record holds the given fields, is created and locked at the same instant, and carries the returned version hash. |
| CoreMemory.VersionHash | packages/judgment/src/memory/core.py:83-92 | The version hash is 16 hex digits and a prefix of the content's SHA-256 digest. |
| CoreMemory.VersionHashDependsOnlyOnContent | packages/judgment/src/memory/core.py:83-92 | Two writes of the same content get the same version hash, whatever the agent, expert, time or store. |
| CoreMemory.LatestIndex | packages/judgment/src/memory/core.py:27-38 | The selected record belongs to the agent and has the greatest creation time of the agent's records. Among equal times the last inserted is chosen. There is none exactly when the agent has no record. |
| CoreMemory.Load | packages/judgment/src/memory/core.py:22-66 | Load gives no record exactly when the agent has none. Otherwise it gives one of the agent's records with no later-created record of that agent. |
| CoreMemory.GetVersion | packages/judgment/src/memory/core.py:121-132 | The version is absent exactly when the agent has no record. Otherwise it is the training version of one of the agent's most recently created records. |
| CoreMemory.GetVersionAgreesWithLoad | packages/judgment/src/memory/core.py:121-132 | The version is absent exactly when load gives nothing, and otherwise equals the loaded record's training version. |
| CoreMemory.LoadAfterWrite | packages/judgment/src/memory/core.py:68-119 | After a write stamped strictly later than every earlier record of the agent, load returns the record just written. |
| CoreMemory.WrittenRecordsLocked | packages/judgment/src/memory/core.py:111-112 | If every stored record is locked at its creation time, that stays true after a write. |
| CoreMemory.WriteIsolatesAgents | packages/judgment/src/memory/core.py:68-119 | A write for one agent does not change what load returns for any other agent. |
| Digest.Truncate | packages/judgment/src/memory/core.py:92 | Cutting a hex digest to n characters gives n hex digits that are a prefix of the digest. |
| NightlyReview.RunConsolidation | packages/judgment/src/memory/consolidator.py:50-90 | One episode per fetched row, in row order, carrying its summary, outcome and sentiment. The reviewed count is the row count, and the pattern, prune and drift results stay at zero or false. |
| NightlyReview.DetectDrift | packages/judgment/src/memory/consolidator.py:130-157 | The counts are the first row's count, or 0. The rate is escalations per completed task, and 0 with no completed task. Drift is detected exactly when the rate exceeds 0.30. The score lies in [0, 1]: it is 1 under drift and rate / 0.30 otherwise. The details string names the rate and the verdict. |
| NightlyReview.DriftExample | packages/judgment/src/memory/consolidator.py:136-144 | Four escalations over ten tasks give rate 0.4, drift detected, and score 1. |
| NightlyReview.NoTasksNoDrift | packages/judgment/src/memory/consolidator.py:133-144 | Without completed tasks the rate and score are 0 and no drift is reported. |
| NightlyReview.GenerateMorningNote | packages/judgment/src/memory/consolidator.py:159-222 | With no episode the note is the quiet-day sentence. Otherwise it starts with "Good morning. Yesterday I processed N sessions". The period follows directly exactly when no episode is positive or challenging, and the patterns sentence follows the period exactly when some pattern was found. It ends with the all-clear exactly when no drift was detected; with drift it ends with the drift warning. |
| NightlyReview.DayNote | packages/judgment/src/memory/consolidator.py:186-222 | A day's note opens with the session count; the period follows the opening exactly when the positive and challenging counts are zero; " I identified " follows the period exactly when some pattern was found; and it ends with the all-clear exactly when no drift was detected, with the drift warning otherwise. |
| NightlyReview.MorningNoteOfDay | packages/judgment/src/memory/consolidator.py:64-222 | End to end over a day's rows: the note is the opening with the row count, the parenthetical over the positive, challenging and routine episodes, ".", and the closing; no patterns sentence appears because consolidation finds no pattern. |
| NightlyReview.ClosingIsExclusive | packages/judgment/src/memory/consolidator.py:213-220 | A note ending in one closing ends with the all-clear exactly when no drift was detected; the drift warning and the all-clear never both apply. |
| NightlyReview.SentimentClauseCases | packages/judgment/src/memory/consolidator.py:196-204 | The parenthetical in each of the six non-empty cases, spelled out: the non-zero buckets among "P positive", "N challenging" and "U routine", in that order, joined by ", " inside " (" and ")". |
| NightlyReview.SentimentBuckets | packages/judgment/src/memory/consolidator.py:197-203 | Exactly the non-zero buckets are listed: "P positive" first, "N challenging" right after it (or first without positives), and "U routine" last. |
| NightlyReview.AllBucketsClause | packages/judgment/src/memory/consolidator.py:196-204 | With all three buckets non-empty the parenthetical reads " (P positive, N challenging, U routine)", so 3, 1 and 1 give " (3 positive, 1 challenging, 1 routine)". |
| NightlyReview.PatternsSentence | packages/judgment/src/memory/consolidator.py:208-211 | The patterns sentence appears exactly when some pattern was found. |
| NightlyReview.BucketsPartitionEpisodes | packages/judgment/src/memory/consolidator.py:187-189 | Every episode is positive (>0.5), challenging (<-0.2) or routine, and in exactly one of them. |
| NightlyReview.NeutralIsRoutineCount | packages/judgment/src/memory/consolidator.py:187-189 | For a consolidation result the note's neutral count equals the number of routine episodes, so it is never negative. |
| NightlyReview.QuietDayNote | packages/judgment/src/memory/consolidator.py:50-61 | A day without episodes produces the quiet-day note, whatever the drift result. |
| EnvelopeBuilder.Build | packages/judgment/src/retrieval/envelope_builder.py:19-96 | The expert judgment comes from the agent's latest record, with the untrained placeholders when the agent has no record. There is one history entry per search hit, in hit order. Decisions, people, goal, constraints and budget come from the org rows as in the org context, and a failed org query gives the empty context apart from the history. |
| EnvelopeBuilder.JudgmentOf | packages/judgment/src/retrieval/envelope_builder.py:42-67 | An untrained agent gets an empty expert id, version "untrained", no patterns, triggers or constraints, and the default bands. A trained agent gets its record's fields. |
| EnvelopeBuilder.HistoryOf | packages/judgment/src/retrieval/envelope_builder.py:76-87 | The summary is the content when it has at most 200 characters and otherwise its first 200 characters. Session id and timestamp come from the metadata, defaulting to "". The outcome is empty, the sentiment is 0, and the relevance is the similarity, defaulting to 0. |
| EnvelopeBuilder.BuildOrgContext | packages/judgment/src/retrieval/envelope_builder.py:98-161 | A failed query or no rows give the empty context. Otherwise decisions and people are collected in row order, and goal, constraints and budget are each the last value a project row supplied (defaulting to "", [] and 0). The history is empty. |
| EnvelopeBuilder.LastProjectValueIsLast | packages/judgment/src/retrieval/envelope_builder.py:149-152 | The value of goal, constraints or budget is that of the last project row carrying the key, or the default when no project row carries it. |
| EnvelopeBuilder.DecisionsConcat | packages/judgment/src/retrieval/envelope_builder.py:122-138 | Decisions are collected in row order: the list for concatenated rows is the concatenation of the lists. |
| EnvelopeBuilder.PeopleConcat | packages/judgment/src/retrieval/envelope_builder.py:122-148 | People are collected in row order. |
| EnvelopeBuilder.OtherRowsIgnored | packages/judgment/src/retrieval/envelope_builder.py:128-152 | A row whose type is not decision, person or project changes no part of the context, wherever it appears. |
| EnvelopeBuilder.UntrainedMapPartitions | packages/judgment/src/retrieval/envelope_builder.py:50-54 | The untrained bands 0–0.3, 0.3–0.7 and 0.7–1.0 cover [0, 1] without gap or overlap. |

## Left out

- I/O and orchestration:
  - database access, connection handling and row-to-dict decoding;
  - the logging `print` calls;
  - the HTTP server;
  - semantic memory's embedding and search internals;
  - the training session flow and voice transcription.

  These only move data into or out of the modelled functions.
- Concurrency is not modelled: two concurrent writes for one agent may both
  read the same latest record. Each call is modelled as atomic.
- JSON encoding (`json.dumps(..., sort_keys=True)`, `json.loads`) is folded
  into the datatypes. A `VersionContent` value stands for its canonical
  serialisation, so digesting the datatype is the same as digesting the
  text.
- `created_at`/`locked_at` ISO formatting and the database row `id` are not
  modelled; times are integers.
- NULL columns and missing dictionary keys read with `.get(k, [])` are
  modelled as empty sequences. Missing ids and names are assumed present: the
  source would raise `AttributeError` or compare `None`.
- CoreMemory.LatestIndex: `ORDER BY created_at DESC LIMIT 1` leaves the winner among records with equal
  stamps unspecified; the model picks the later insertion, and CoreMemory.LoadAfterWrite asks for a
  stamp strictly later than the agent's earlier records so that it does not rest on that choice.
- Text.Lower: lower-cases ASCII letters only, whereas Python's `str.lower`
  also folds non-ASCII letters.
- TrainingConsolidator.Deepen: a missing incoming description (which Python
  renders as `"None"`) is modelled as a present string.
- TrainingConsolidator.ConsolidatePatterns: the source mutates the existing
  pattern dictionaries in place, so the caller's `existing_judgment` changes
  too. The model returns new values and does not state that side effect.
- Extractor.Extract: regular-expression matching is a predicate parameter per
  indicator list, and the five or six regexes are not modelled character by
  character. MD5 and SHA-256 are parameters returning hex digests of the
  right length.
- NightlyReview.DetectDrift: the stored `drift_score` and `escalation_rate`
  are not rounded to three decimals, and the morning note formats the
  unrounded values through the formatter parameters. Rendering with `:.2f`
  and `:.1%` is left to those parameters, and the time windows (24 hours, 7
  days) are part of the query inputs.
- NightlyReview.RunConsolidation: clustering, cross-cluster pattern
  extraction, drift detection and pruning are placeholders in the source
  that always report zero or false, and the model states exactly that.
- EnvelopeBuilder.Build: the semantic-search limit of 5 and the query text
  are the caller's; the hits arrive as an argument. A JSON-text
  `entity_data` column is taken as already decoded.
- Floating-point arithmetic is modelled with reals: `min(1.0, c + 0.1)` and
  `escalation_count / task_count` are exact.
