# finfraud core in Dafny

finfraud is a fraud-decision service. It has three pieces, and this project models each of them:

1. **Model consensus.** Two model agents and one rule agent vote on a transaction. A majority of two out of three decides the verdict.
2. **Recommendation engine.** It turns the verdict and the agents' votes into a list of recommendations, sorted by confidence.
3. **Tamper-evident audit ledger.** Every decision is appended to two tables:
   - `chain_blocks`, where each block header is hashed and each block links to its predecessor's hash;
   - `chain_entries`, where an HMAC chain runs through every entry ever written.

The project has these files:

- `wrappers.dfy`: `Option` and `Result`.
- `numerals.dfy`: the decimal text of integers, as `str(int)` and `json.dumps` write it, and its parser. The round trip is proved.
- `canonical_json.dfy`: the canonical serialiser `stable_json`, with:
  - sorted keys in code-point order;
  - the `,` and `:` separators;
  - `ensure_ascii=False` escaping.

  It proves that the key order is a strict total order and that sorting permutes the members. It also proves that escaping reads back, that a dict's text does not depend on its insertion order, and that the text holds no whitespace, provided the value's strings and keys hold no space.
- `audit_ledger.dfy`: the ledger.
  - A `Ledger` class whose two tables are `seq` fields. Its methods are `GetLastBlock`, `GetLastHmac`, `AppendBlock`, `InsertEntryRows` (the HMAC-chain loop) and `InsertEntryRow` (one INSERT). `AppendBlock` hashes the entries in a loop (`HashEntries`) and calls `InsertEntryRows`.
  - A well-formedness invariant (`WellFormed`), which `AppendBlock` preserves.
  - Guarantees that follow from the invariant: entry counts, block numbering and tamper evidence.
  - The exact header text that is hashed.
- `recommendations.dfy`: the recommendation engine, covering:
  - `_clamp`, `_extract_flags`, `_base_confidence` and the templates;
  - the two branches of `generate_recommendations`, written as imperative methods and proved against the functions `FraudRecs` and `LegitRecs`;
  - the stable sort by confidence, highest first.
- `consensus.dfy`: the consensus section of the predictor, and what the fraud route then hands to the engine.

Some modelling choices:

- **Hash functions.** SHA-256 and HMAC-SHA256 are the two function-valued fields of `AuditLedger.Primitives`. Every ledger property therefore holds for any hash function, except three, each of which takes its assumption as a `requires`. `ChainedDetectsPayload` and `PayloadTamperDetected` assume that SHA-256 has no collisions. `ComputeHmacBinds` assumes that HMAC-SHA256 under the configured key has no collisions.
- **Clock and other inputs.** The clock is a parameter: `timestamp` for the block header, and `clock(k)` for the k-th recommendation id. The model probabilities are inputs too.
- **Numbers.** Scores and confidences are `real`.
- **How the route uses the engine.** The fraud route passes only `{"agents": ...}` to the engine (`backend/app/routers/fraud.py:128`). As a result, the engine's rule flags never fire on that route, and its base score is the mean of the three agent scores. `Consensus.RouteFlags` states this.
- **HMAC order.** `compute_hmac` hashes the previous link followed by the payload. The loop in `append_block`, which is what actually writes the chain, hashes the entry hash followed by the previous link. Both are modelled as written.

## Model

| member | source | states |
|---|---|---|
| Numerals.NatText | backend/app/ledger/ledger.py:89 | The decimal text of a natural number is non-empty and all digits, and it starts with `0` only for 0 itself (no leading zeros). |
| Numerals.NatTextRoundTrip | backend/app/ledger/ledger.py:89 | Reading the digits back gives the same number. |
| Numerals.IntTextRoundTrip | backend/app/ledger/ledger.py:89 | The text of every integer is well-formed integer text, and it parses back to that integer. So `str(int)` in `tx_reference` and the integers in the header never collide. |
| CanonicalJson.KeyLessIrreflexive | backend/app/ledger/ledger.py:11-12 | No key sorts before itself. |
| CanonicalJson.KeyLessTransitive | backend/app/ledger/ledger.py:11-12 | The key order used by `sort_keys` is transitive. |
| CanonicalJson.KeyLessTotal | backend/app/ledger/ledger.py:11-12 | Any two different keys are ordered one way or the other. |
| CanonicalJson.KeyLessAsymmetric | backend/app/ledger/ledger.py:11-12 | Two keys are never each below the other. |
| CanonicalJson.InsertPermutes | backend/app/ledger/ledger.py:11-12 | Inserting a member into the sorted list adds exactly that member. |
| CanonicalJson.SortByKeyPermutes | backend/app/ledger/ledger.py:11-12 | Sorting the members is a permutation: nothing is lost or duplicated. |
| CanonicalJson.InsertKeepsStrictOrder | backend/app/ledger/ledger.py:11-12 | Inserting a member with a new key into a strictly ordered list keeps it strictly ordered. |
| CanonicalJson.SortByKeyStrict | backend/app/ledger/ledger.py:11-12 | When the keys are distinct, the sorted members are strictly increasing by key. |
| CanonicalJson.StrictlySortedUnique | backend/app/ledger/ledger.py:11-12 | Two strictly ordered member lists with the same elements are identical. |
| CanonicalJson.UnescapeEscapeChar | backend/app/ledger/ledger.py:12 | Each escaped character reads back as itself, whatever text follows it. |
| CanonicalJson.EscapeRoundTrip | backend/app/ledger/ledger.py:12 | String escaping with `ensure_ascii=False` is invertible, so different strings encode to different texts. |
| CanonicalJson.EncodeObjectSorted | backend/app/ledger/ledger.py:11-12 | For a dict with distinct keys and ANY list that is strictly ordered by key and holds exactly the dict's encoded members, the dict's text is `{`, then that list's `"key":value` texts joined by `,`, then `}`. |
| CanonicalJson.UniqueKeysDistinct | backend/app/ledger/ledger.py:11-12 | A dict's encoded members have distinct keys. |
| CanonicalJson.SameMembersSortAlike | backend/app/ledger/ledger.py:11-12 | Two dicts holding the same members, in any insertion order, sort to the same member list. |
| CanonicalJson.SameMembersEncodeAlike | backend/app/ledger/ledger.py:11-12 | Two dicts holding the same members, in any insertion order, have the same canonical text, so the hash depends only on the content. |
| CanonicalJson.EncodeNoWhitespace | backend/app/ledger/ledger.py:12 | With the `(",", ":")` separators, the canonical text of a value contains no whitespace, provided its strings and keys hold no space. |
| CanonicalJson.ArrayNoWhitespace | backend/app/ledger/ledger.py:12 | The same for a list. |
| CanonicalJson.ObjectNoWhitespace | backend/app/ledger/ledger.py:12 | The same for a dict. |
| CanonicalJson.SortedMembersNoWhitespace | backend/app/ledger/ledger.py:12 | The joined, sorted member texts contain no whitespace, provided every key holds no space and every value text holds no whitespace. |
| CanonicalJson.MemberTextNoWhitespace | backend/app/ledger/ledger.py:12 | A `"key":value` member text contains no whitespace, provided the key holds no space and the value text holds no whitespace. |
| AuditLedger.HmacKey | backend/app/ledger/ledger.py:78 | The chain key is never empty. It is the configured key when one is set, and `secret-default-key` otherwise. |
| AuditLedger.MerkleRoot | backend/app/ledger/ledger.py:52-53 | The root is the SHA-256 of the concatenated entry hashes. For an empty batch it is the SHA-256 of the empty text, so both branches of the source agree. |
| AuditLedger.ChainRows | backend/app/ledger/ledger.py:80-94 | One entry row per entry of the batch. |
| AuditLedger.ChainRowsLinked | backend/app/ledger/ledger.py:80-94 | Each row's link is the HMAC over its own entry hash followed by the previous row's link (the starting link for row 0). |
| AuditLedger.ComputeHmac | backend/app/ledger/ledger.py:17-23 | The HMAC over the previous link (a missing one counts as empty) followed by the canonical payload, under the configured key as it is. When a key is configured, this equals the HMAC under the chain key. |
| AuditLedger.ComputeHmacBinds | backend/app/ledger/ledger.py:17-23 | If the HMAC under the key has no collisions, two `compute_hmac` calls whose previous links have equal length give different values when the links or the canonical payload texts differ. |
| AuditLedger.ChainRowsStep | backend/app/ledger/ledger.py:80-94 | The first i+1 rows are the first i rows plus row i. Row i is numbered i+1 and holds the entry's reference text, canonical payload and hash. Its link is the HMAC over its hash and the link before it, and that link is what the next row chains onto. |
| AuditLedger.ChainRowsGrow | backend/app/ledger/ledger.py:80-94 | One turn of the insertion loop: the rows written so far plus the next row equal the table one row further on, and the running link advances with them. |
| AuditLedger.LinkedPrefix | backend/app/ledger/ledger.py:44-45 | Every prefix of a linked block table is linked. |
| AuditLedger.LinkedAppend | backend/app/ledger/ledger.py:44-74 | A block with the next index that points to the newest block's hash keeps the table linked. |
| AuditLedger.ChainedAppend | backend/app/ledger/ledger.py:64-94 | Appending a block together with the rows it seals keeps every block owning its own rows. |
| AuditLedger.HeadersHashedAppend | backend/app/ledger/ledger.py:55-62 | The new block's hash is the hash of its own header, so every stored block hash still matches its header. |
| AuditLedger.HmacThreadedAppend | backend/app/ledger/ledger.py:77-94 | Rows chained on from the newest entry keep the HMAC chain unbroken across block boundaries. |
| AuditLedger.SealedNewBlock | backend/app/ledger/ledger.py:47-94 | The new block and its rows agree on the count, on the merkle root over the rows' hashes, on the block index, on the numbering from 1, and on each payload's hash. |
| AuditLedger.AppendKeepsWellFormed | backend/app/ledger/ledger.py:40-97 | Appending a batch as `append_block` does keeps both tables well formed: linked, headers hashed, rows sealed by their blocks, HMAC chain threaded. Sequential appends never fork the chain. |
| AuditLedger.EntriesTotal | backend/app/ledger/ledger.py:59 | The blocks' `entries_count` values add up to the number of entry rows. |
| AuditLedger.EntryBlockInRange | backend/app/ledger/ledger.py:87 | Every entry row names an existing block. |
| AuditLedger.RowsOfBlockConcat | backend/app/ledger/ledger.py:87 | Counting a block's rows distributes over concatenation. |
| AuditLedger.RowsOfBlockUniform | backend/app/ledger/ledger.py:87 | In a run of rows that all carry (or all miss) a block's index, that block's count is the run's length (or zero). |
| AuditLedger.ChainedNewest | backend/app/ledger/ledger.py:64-94 | The newest block owns the last `entries_count` rows, all carrying its index. The older blocks own the rest. |
| AuditLedger.OwnRowsCount | backend/app/ledger/ledger.py:73 | On linked, chained tables, each block's `entries_count` equals the number of rows carrying its index. |
| AuditLedger.EntriesCountMatchesRows | backend/app/ledger/ledger.py:73 | The same, on any well-formed ledger. |
| AuditLedger.ChainedDetectsPayload | backend/app/ledger/ledger.py:49 | If SHA-256 has no collisions, rewriting one stored payload breaks the seal of the block that owns it. |
| AuditLedger.PayloadTamperDetected | backend/app/ledger/ledger.py:47-94 | If SHA-256 has no collisions, a well-formed ledger with one payload rewritten is no longer well formed. |
| AuditLedger.HmacTamperDetected | backend/app/ledger/ledger.py:80-94 | A well-formed ledger with one `hmac_chain` value rewritten is no longer well formed, for any HMAC function. |
| AuditLedger.HeaderKeysSorted | backend/app/ledger/ledger.py:55-61 | The keys `block_index`, `entries_count`, `merkle_root`, `prev_block_hash`, `timestamp` are in strictly increasing code-point order. |
| AuditLedger.HeaderUniqueKeys | backend/app/ledger/ledger.py:55-61 | The five header keys are distinct, so the header is a dict. |
| AuditLedger.HeaderArrangement | backend/app/ledger/ledger.py:55-61 | The header's encoded members listed as `block_index`, `entries_count`, `merkle_root`, `prev_block_hash`, `timestamp` are strictly key-ordered and are exactly the header's members. |
| AuditLedger.HeaderMemberTexts | backend/app/ledger/ledger.py:55-61 | The header members in key order are written as `"key":value`, with each key copied unescaped, integers in decimal and hashes quoted. |
| AuditLedger.HeaderText | backend/app/ledger/ledger.py:55-62 | The exact header text that is hashed into `block_hash`: the five members in key order, comma-separated, in braces, with no whitespace. |
| AuditLedger.LastOfLinked | backend/app/ledger/ledger.py:25-31 | On a linked table, the highest index and its hash are the newest block's, so the new block gets the next position and links to the tip. |
| AuditLedger.HashEntries | backend/app/ledger/ledger.py:47-50 | The loop computes, in order, the SHA-256 of every entry's canonical payload. |
| AuditLedger.Ledger.constructor | backend/app/ledger/ledger.py:25-38 | An empty ledger is well formed. |
| AuditLedger.Ledger.GetLastBlock | backend/app/ledger/ledger.py:25-31 | On an empty table it returns -1 and the 64-zero sentinel. Otherwise it returns the highest `block_index` of any block, together with that block's hash. |
| AuditLedger.Ledger.GetLastHmac | backend/app/ledger/ledger.py:33-38 | The link of the most recently inserted entry, whatever its block, or the sentinel when there is none. |
| AuditLedger.Ledger.InsertEntryRows | backend/app/ledger/ledger.py:76-94 | Appends exactly the chained rows for the batch, continuing from the newest link. The block table is unchanged. |
| AuditLedger.Ledger.InsertEntryRow | backend/app/ledger/ledger.py:83-93 | One INSERT: the row is appended after every existing entry row, and nothing else changes. |
| AuditLedger.Ledger.AppendBlock | backend/app/ledger/ledger.py:40-97 | Appends one sealed block, at the next index and linked to the tip, plus its chained rows. It keeps the ledger well formed and returns the block's index, hash and merkle root. |
| AuditLedger.TwoDecisionsScenario | backend/app/routers/fraud.py:118 | Two decisions appended to an empty ledger: the first block links to the sentinel, and the second links to the first block's hash. |
| Recommendations.Clamp | backend/app/recommendations/engine.py:12-13 | The result lies in [0, 1]. It is the input when the input is in range, 0 below the range and 1 above it. |
| Recommendations.ClampMonotone | backend/app/recommendations/engine.py:12-13 | Clamping preserves order. |
| Recommendations.ClampReaches | backend/app/recommendations/engine.py:12-13 | For a threshold in (0, 1], the clamped value reaches it exactly when the raw value does. |
| Recommendations.MakeIdReadsBack | backend/app/recommendations/engine.py:8-10 | An id is its prefix, then `_`, then the clock reading, which reads back exactly. |
| Recommendations.CountVerdict | backend/app/recommendations/engine.py:28 | The vote count is at most the number of agents. |
| Recommendations.AllVerdictCount | backend/app/recommendations/engine.py:28-31 | All agents vote v exactly when the count of v votes is the number of agents. |
| Recommendations.AllOtherVerdictCount | backend/app/recommendations/engine.py:28-31 | When all agents vote w, no agent votes any other v. |
| Recommendations.MaxScore | backend/app/recommendations/engine.py:32 | 0.0 for no agents. Otherwise an upper bound on every score that is attained by some agent. |
| Recommendations.ScoreSumBounds | backend/app/recommendations/engine.py:33 | With every score in [0, 1], the sum lies between 0 and the number of agents. |
| Recommendations.MeanScoreInUnit | backend/app/recommendations/engine.py:33 | With every score in [0, 1], the mean lies in [0, 1]. |
| Recommendations.ExtractFlags | backend/app/recommendations/engine.py:17-55 | `fraud_votes` is the number of fraud verdicts, at most the number of agents, and `agent_count` is the number of agents, or 1 when there are none (`max(1, len(agents))`). `unanimous_fraud` holds iff there are agents and all vote fraud. `unanimous_legit` holds iff there are agents and all vote legit, and it implies no fraud vote. The maximum and average scores are those of the agents. Each rule flag holds iff its amount or device risk (from the transaction, or from the context when there is none) exceeds its threshold. The reason codes are exactly the codes of the flags that are set, one per flag, with `high_amount` before `device_risk`. |
| Recommendations.BaseConfidence | backend/app/recommendations/engine.py:57-83 | The base confidence lies in [0, 1]. With no flag set, it is the clamped score. |
| Recommendations.BaseConfidenceBoost | backend/app/recommendations/engine.py:63-83 | The base confidence is the clamp of the score plus the net boost of the flags. |
| Recommendations.BaseConfidenceMonotone | backend/app/recommendations/engine.py:57-83 | A higher consensus score never lowers the base confidence. |
| Recommendations.RuleFlagsRaiseBase | backend/app/recommendations/engine.py:73-77 | Setting a rule flag never lowers the base confidence. |
| Recommendations.ScoreUsed | backend/app/recommendations/engine.py:138-141 | The given consensus score is used when it is non-zero. Otherwise the agents' mean score is used. |
| Recommendations.FraudGates | backend/app/recommendations/engine.py:154-179 | Each fraud template's clamped confidence reaches its minimum exactly when the unclamped gate opens: base + bonus >= 0.5 (block), >= 0.4 (2FA), >= 0.6 (escalation). |
| Recommendations.PieceShapes | backend/app/recommendations/engine.py:154-187 | Each gated piece adds at most one recommendation, with a confidence in [0, 1]. |
| Recommendations.PieceCategories | backend/app/recommendations/engine.py:154-187 | Each gated piece holds its category exactly when its gate opens. |
| Recommendations.FraudPiecesShape | backend/app/recommendations/engine.py:152-187 | Block, 2FA and escalation appear exactly when their gates open, in that order, with at most three entries in all. |
| Recommendations.FraudCategories | backend/app/recommendations/engine.py:152-197 | The fraud list's categories: the open gates in order, then `analyst_action`. |
| Recommendations.FraudRecsShape | backend/app/recommendations/engine.py:189-197 | The fraud list holds 1 to 4 entries and ends with the analyst entry. That entry carries the clamped base confidence and the rule reasons. All confidences lie in [0, 1]. |
| Recommendations.LegitRecsShape | backend/app/recommendations/engine.py:199-230 | For any other verdict: monitoring, then education, then the analyst entry exactly on mixed votes, carrying `mixed_agent_votes`. All confidences lie in [0, 1]. |
| Recommendations.GatesImplyTwoFactor | backend/app/recommendations/engine.py:154-179 | When the block gate or the escalation gate opens, the 2FA gate opens too. |
| Recommendations.TwoFactorAccompanies | backend/app/recommendations/engine.py:150-230 | The list never holds a block or an escalation without step-up authentication beside it. |
| Recommendations.CandidatesShape | backend/app/recommendations/engine.py:150-230 | For "fraud": 1 to 4 entries, always including `analyst_action`. For any other verdict: 2 or 3 entries, with `analyst_action` exactly on mixed votes. Every confidence lies in [0, 1]. |
| Recommendations.InsertByConfidence | backend/app/recommendations/engine.py:233 | Inserting adds exactly one entry. |
| Recommendations.InsertPermutes | backend/app/recommendations/engine.py:233 | Inserting adds exactly that entry to the multiset. |
| Recommendations.InsertSorted | backend/app/recommendations/engine.py:233 | Inserting into a list sorted by descending confidence keeps it sorted. |
| Recommendations.InsertStable | backend/app/recommendations/engine.py:233 | Among entries of equal confidence, the inserted one comes before those already placed. |
| Recommendations.SortByConfidenceSorted | backend/app/recommendations/engine.py:233 | The sorted list is in descending confidence. |
| Recommendations.SortByConfidencePermutes | backend/app/recommendations/engine.py:233 | The sorted list is a permutation of the input. |
| Recommendations.SortByConfidenceStable | backend/app/recommendations/engine.py:233 | The sort is stable, as Python's `sorted(..., reverse=True)` is: entries of equal confidence keep their build order. |
| Recommendations.SortedCandidates | backend/app/recommendations/engine.py:232-235 | The returned list is sorted by descending confidence, is a permutation of the built list, and has every confidence in [0, 1]. |
| Recommendations.FraudBranch | backend/app/recommendations/engine.py:152-197 | The appends of the fraud branch build exactly `FraudRecs`. |
| Recommendations.OtherBranch | backend/app/recommendations/engine.py:199-230 | The appends of the other branch build exactly `LegitRecs`. |
| Recommendations.GenerateRecommendations | backend/app/recommendations/engine.py:127-235 | The result is the stable descending sort of the list the verdict's branch builds. It is sorted, it is a permutation of that list, and all its confidences lie in [0, 1]. |
| Consensus.FieldValue | backend/app/ml/predictor.py:99 | A present number is read as is. An absent field is read as the default. |
| Consensus.ModelVerdict | backend/app/ml/predictor.py:93-94 | A model agent votes "fraud" iff its probability is at least 0.5, and "legit" otherwise. |
| Consensus.RuleReasons | backend/app/ml/predictor.py:96-105 | `high_amount` is present iff the amount exceeds 50000, and `device_risk` iff the device risk exceeds 0.8. No other code appears, each appears at most once, and `high_amount` comes first. |
| Consensus.RuleAgent | backend/app/ml/predictor.py:109-115 | The rule agent votes "fraud" iff a rule fires, with score 1.0 (0.0 otherwise), and carries its reasons. |
| Consensus.ConsensusAgents | backend/app/ml/predictor.py:107-116 | Three agents, in the order rf, xgb, rules. |
| Consensus.CountThree | backend/app/ml/predictor.py:118-119 | The fraud votes of three agents are the sum of their individual votes. |
| Consensus.MeanOfThree | backend/app/ml/predictor.py:121 | The consensus score is the mean of the three scores. |
| Consensus.MajorityOfThree | backend/app/ml/predictor.py:118-120 | The consensus is "fraud" exactly when two of the three signals are raised: rf probability, xgb probability, a rule. |
| Consensus.ConsensusScoreInUnit | backend/app/ml/predictor.py:121 | With the model probabilities in [0, 1], every agent's score and the consensus score lie in [0, 1]. |
| Consensus.RuleVote | backend/app/ml/predictor.py:96-105 | A JSON null amount fails on `amount`. A JSON null device risk fails on `device_risk_score`. Otherwise the result is the rule agent over the values read, with defaults for absent fields. |
| Consensus.PredictConsensus | backend/app/ml/predictor.py:93-129 | It fails exactly when the rules do. On success it returns the three agents and the rule reasons; the verdict is "fraud" iff at least two agents vote fraud, and the score is their mean. |
| Consensus.RouteFlags | backend/app/routers/fraud.py:128 | On the fraud route the engine sees no transaction. So no rule flag is set and no reason code is carried, it counts three agents and their fraud votes, and it starts from the consensus mean. |
| Consensus.RouteLegitAnalyst | backend/app/routers/fraud.py:128 | After a "legit" consensus, the analyst entry is recommended exactly when one of the three agents voted fraud. |
| Consensus.RouteUnanimousFraud | backend/app/routers/fraud.py:128 | The unanimous-fraud bonus applies exactly when both model probabilities reach 0.5 and a rule fires. |

## Left out

- **Database and atomicity.**
  - The database, its sessions and the SQL text are not modelled: the tables are sequences.
  - The transaction commit is not modelled, and neither is atomicity between the block insert and the entry inserts.
  - Concurrent `append_block` calls are not modelled. The unique constraint on `block_index` (`backend/app/db/models.py:48`) would reject a racing duplicate. The model covers sequential appends only.
- **Hashing.**
  - SHA-256 and HMAC-SHA256 are left abstract: the proofs hold for any functions.
  - The UTF-8 encoding applied before hashing is left implicit (text stands for its bytes).
- **Clock.** The wall clock (`time.time()`) is a parameter.
  - The header timestamp is not stored in `chain_blocks`. The model keeps it in a ghost sequence so that the header hash can be stated.
- **Numbers.**
  - Python floats are `real`: rounding, NaN and infinities are not modelled.
  - `numpy.mean` is not modelled beyond the exact mean.
  - A float inside a ledger payload is carried as its `repr` text, taken as given.
- **JSON values.** Python values that `json.dumps` rejects or converts (tuples, non-string keys, `NaN`) are outside the model's `Value` type.
- **Engine input types.** The engine's `float(...)` conversions of non-numeric values, which raise, are not modelled: the context holds numbers or nothing.
  - An absent `txn` and an empty `txn` dict are both `None`.
  - A missing agent verdict is read as `""` and a missing score as 0.0.
- **Predictor.**
  - The predictor's `amount` can only be absent, null or a number. A string `amount` that `float()` parses or rejects is not modelled.
  - Model loading, feature preparation (pandas) and the model probabilities themselves are inputs, not modelled.
  - The `reason_codes` second result is represented only by its rule reasons.
- **Unused template.** The `hold_review` template is declared (`Recommendations.HoldReviewTemplate`) but no branch of the engine uses it, so no lemma is about it.
- **Routes.**
  - The FastAPI routers, authentication, the transaction status update and the storing of recommendations are not modelled.
  - `backend/app/routers/fraud.py:127` imports `app.recommendation.engine`, while the package is `app/recommendations`. The model follows the engine's code, not the import path.
- Recommendations.BaseConfidenceBoost: states the sum of the flag deltas against the function's own definition. It is a helper for the monotonicity lemmas, not a separate promise of the source.
