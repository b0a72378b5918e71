/**
 * The recommendation engine: flags drawn from the agents' votes and the
 * transaction, a clamped base confidence, per-verdict templates gated by a
 * minimum confidence, and a stable sort by confidence, highest first.
 *
 * Scores and confidences are `real`: Python's float rounding is not modelled.
 */
module Recommendations {
  import opened Wrappers
  import opened Numerals

  /**
   * One agent's vote as the engine reads it. A missing "verdict" is read as
   * "" and a missing "score" as 0.0, which is what the engine's `.get` calls
   * make of them.
   */
  datatype Agent = Agent(name: string, verdict: string, score: real, reasons: Option<seq<string>>)

  /** A non-empty `txn` dict; a missing field is None and is read as 0.0. */
  datatype Txn = Txn(amount: Option<real>, deviceRisk: Option<real>)

  /**
   * The `context` dict. A missing or None entry is None (an absent or None
   * "agents" list is []), and an empty `txn` dict is None as well.
   */
  datatype Context = Context(
    agents: seq<Agent>,
    txn: Option<Txn>,
    amount: Option<real>,
    deviceRisk: Option<real>,
    consensusScore: Option<real>)

  datatype Flags = Flags(
    fraudVotes: nat,
    agentCount: nat,
    unanimousFraud: bool,
    unanimousLegit: bool,
    maxAgentScore: real,
    avgAgentScore: real,
    ruleHighAmount: bool,
    ruleDeviceRisk: bool,
    ruleReasons: seq<string>)

  datatype Template = Template(category: string, text: string, minConfidence: real)

  /** What each recommendation carries besides its advice: the agents and the transaction it was made for. */
  datatype Meta = Meta(agents: seq<Agent>, txn: Option<Txn>)

  datatype Recommendation = Recommendation(
    id: string,
    category: string,
    text: string,
    confidence: real,
    reasonCodes: seq<string>,
    meta: Meta)

  // ---------------------------------------------------------------------
  // The templates.

  const BlockTemplate := Template("block",
    "Block the transaction and notify the customer. High probability of fraud.", 0.5)
  const HoldReviewTemplate := Template("manual_review",
    "Hold transaction for manual review by fraud analyst; request additional verification.", 0.25)
  const AllowMonitorTemplate := Template("monitoring",
    "Allow transaction but increase monitoring for the customer and device.", 0.0)
  const Require2faTemplate := Template("remediation_user",
    "Require step-up authentication (2FA) before completing high-risk transaction.", 0.3)
  const EducationTemplate := Template("education",
    "Send user education tips: enable 2FA, avoid unknown devices/merchants.", 0.0)
  const EscalateOpsTemplate := Template("escalation",
    "Escalate to fraud operations team for investigation; correlated patterns detected.", 0.6)
  const AnalystTemplate := Template("analyst_action",
    "Analyst suggestions: check device fingerprint, confirm recent account changes, verify merchant.", 0.0)

  // ---------------------------------------------------------------------
  // Small helpers.

  /** `_clamp`: max(0, min(1, x)). */
  function Clamp(x: real): (r: real)
    ensures 0.0 <= r <= 1.0
    ensures 0.0 <= x <= 1.0 ==> r == x
    ensures x < 0.0 ==> r == 0.0
    ensures x > 1.0 ==> r == 1.0
  {
    var upper := if x < 1.0 then x else 1.0;
    if upper > 0.0 then upper else 0.0
  }

  lemma ClampMonotone(x: real, y: real)
    requires x <= y
    ensures Clamp(x) <= Clamp(y)
  {
  }

  /** A clamped value reaches a threshold in (0, 1] exactly when the unclamped one does. */
  lemma ClampReaches(x: real, t: real)
    requires 0.0 < t <= 1.0
    ensures Clamp(x) >= t <==> x >= t
  {
  }

  /** `_make_id`: the prefix, "_", and the clock in milliseconds. */
  function MakeId(prefix: string, millis: int): string
  {
    prefix + "_" + IntText(millis)
  }

  /** An id starts with its prefix and "_", and the clock reading can be read back from the rest. */
  lemma MakeIdReadsBack(prefix: string, millis: int)
    ensures var id := MakeId(prefix, millis);
      |id| > |prefix| + 1 && id[..|prefix|] == prefix && id[|prefix|] == '_'
      && ParseInt(id[|prefix| + 1..]) == millis
  {
    IntTextRoundTrip(millis);
    var id := MakeId(prefix, millis);
    assert id[|prefix| + 1..] == IntText(millis);
  }

  /** `float(x)` of a field read with default 0.0. */
  function OrZero(x: Option<real>): real
  {
    if x.Some? then x.value else 0.0
  }

  // ---------------------------------------------------------------------
  // _extract_flags

  function CountVerdict(agents: seq<Agent>, verdict: string): (n: nat)
    ensures n <= |agents|
  {
    if agents == [] then 0
    else (if agents[0].verdict == verdict then 1 else 0) + CountVerdict(agents[1..], verdict)
  }

  predicate AllVerdict(agents: seq<Agent>, verdict: string)
  {
    forall i :: 0 <= i < |agents| ==> agents[i].verdict == verdict
  }

  /** Every agent votes `verdict` exactly when all of them are counted. */
  lemma {:induction false} AllVerdictCount(agents: seq<Agent>, verdict: string)
    ensures AllVerdict(agents, verdict) <==> CountVerdict(agents, verdict) == |agents|
    decreases |agents|
  {
    if agents != [] {
      AllVerdictCount(agents[1..], verdict);
      if AllVerdict(agents, verdict) {
        assert AllVerdict(agents[1..], verdict) by {
          forall i | 0 <= i < |agents[1..]| ensures agents[1..][i].verdict == verdict {
            assert agents[1..][i] == agents[i + 1];
          }
        }
      }
      if CountVerdict(agents, verdict) == |agents| {
        forall i | 0 <= i < |agents| ensures agents[i].verdict == verdict {
          if i > 0 {
            assert agents[i] == agents[1..][i - 1];
          }
        }
      }
    }
  }

  /** Nobody voting `v` when all vote a different `w`. */
  lemma {:induction false} AllOtherVerdictCount(agents: seq<Agent>, v: string, w: string)
    requires v != w
    ensures AllVerdict(agents, w) ==> CountVerdict(agents, v) == 0
    decreases |agents|
  {
    if agents != [] && AllVerdict(agents, w) {
      assert agents[0].verdict == w;
      assert AllVerdict(agents[1..], w) by {
        forall i | 0 <= i < |agents[1..]| ensures agents[1..][i].verdict == w {
          assert agents[1..][i] == agents[i + 1];
        }
      }
      AllOtherVerdictCount(agents[1..], v, w);
    }
  }

  /** `max(scores, default=0.0)`. */
  function MaxScore(agents: seq<Agent>): (m: real)
    ensures agents == [] ==> m == 0.0
    ensures forall i :: 0 <= i < |agents| ==> agents[i].score <= m
    ensures agents != [] ==> exists i :: 0 <= i < |agents| && agents[i].score == m
  {
    if agents == [] then 0.0
    else if |agents| == 1 then agents[0].score
    else
      var rest := MaxScore(agents[1..]);
      assert forall i :: 1 <= i < |agents| ==> agents[i] == agents[1..][i - 1];
      if agents[0].score >= rest then agents[0].score else rest
  }

  function ScoreSum(agents: seq<Agent>): real
  {
    if agents == [] then 0.0 else agents[0].score + ScoreSum(agents[1..])
  }

  /** The mean agent score, 0.0 for no agents. */
  function MeanScore(agents: seq<Agent>): real
  {
    if agents == [] then 0.0 else ScoreSum(agents) / (|agents| as real)
  }

  predicate ScoresInUnit(agents: seq<Agent>)
  {
    forall i :: 0 <= i < |agents| ==> 0.0 <= agents[i].score <= 1.0
  }

  lemma {:induction false} ScoreSumBounds(agents: seq<Agent>)
    requires ScoresInUnit(agents)
    ensures 0.0 <= ScoreSum(agents) <= |agents| as real
    decreases |agents|
  {
    if agents != [] {
      assert ScoresInUnit(agents[1..]) by {
        forall i | 0 <= i < |agents[1..]| ensures 0.0 <= agents[1..][i].score <= 1.0 {
          assert agents[1..][i] == agents[i + 1];
        }
      }
      ScoreSumBounds(agents[1..]);
    }
  }

  /** The mean of scores in [0, 1] lies in [0, 1]. */
  lemma MeanScoreInUnit(agents: seq<Agent>)
    requires ScoresInUnit(agents)
    ensures 0.0 <= MeanScore(agents) <= 1.0
  {
    if agents != [] {
      ScoreSumBounds(agents);
      var n := |agents| as real;
      assert ScoreSum(agents) / n <= n / n;
    }
  }

  /** The amount the rules look at: the transaction's, or the context's when there is no transaction. */
  function RuleAmount(ctx: Context): real
  {
    if ctx.txn.Some? then OrZero(ctx.txn.value.amount) else OrZero(ctx.amount)
  }

  function RuleDeviceRisk(ctx: Context): real
  {
    if ctx.txn.Some? then OrZero(ctx.txn.value.deviceRisk) else OrZero(ctx.deviceRisk)
  }

  /** `_extract_flags`. */
  function ExtractFlags(ctx: Context): (f: Flags)
    ensures f.fraudVotes == CountVerdict(ctx.agents, "fraud") && f.fraudVotes <= |ctx.agents|
    ensures f.agentCount == if |ctx.agents| > 1 then |ctx.agents| else 1
    ensures f.unanimousFraud <==> ctx.agents != [] && f.fraudVotes == |ctx.agents|
    ensures f.unanimousLegit <==> ctx.agents != [] && AllVerdict(ctx.agents, "legit")
    ensures f.unanimousLegit ==> f.fraudVotes == 0
    ensures f.maxAgentScore == MaxScore(ctx.agents) && f.avgAgentScore == MeanScore(ctx.agents)
    ensures f.ruleHighAmount <==> RuleAmount(ctx) > 50000.0
    ensures f.ruleDeviceRisk <==> RuleDeviceRisk(ctx) > 0.8
    ensures "high_amount" in f.ruleReasons <==> f.ruleHighAmount
    ensures "device_risk" in f.ruleReasons <==> f.ruleDeviceRisk
    ensures forall r :: r in f.ruleReasons ==> r == "high_amount" || r == "device_risk"
    ensures |f.ruleReasons| == (if f.ruleHighAmount then 1 else 0) + (if f.ruleDeviceRisk then 1 else 0)
    ensures f.ruleHighAmount && f.ruleDeviceRisk ==> f.ruleReasons == ["high_amount", "device_risk"]
  {
    var agents := ctx.agents;
    var amount, deviceRisk := RuleAmount(ctx), RuleDeviceRisk(ctx);
    var high := amount != 0.0 && amount > 50000.0;
    var device := deviceRisk != 0.0 && deviceRisk > 0.8;
    AllVerdictCount(agents, "fraud");
    AllOtherVerdictCount(agents, "fraud", "legit");
    Flags(
      fraudVotes := CountVerdict(agents, "fraud"),
      agentCount := if |agents| > 1 then |agents| else 1,
      unanimousFraud := agents != [] && AllVerdict(agents, "fraud"),
      unanimousLegit := agents != [] && AllVerdict(agents, "legit"),
      maxAgentScore := MaxScore(agents),
      avgAgentScore := MeanScore(agents),
      ruleHighAmount := high,
      ruleDeviceRisk := device,
      ruleReasons := (if high then ["high_amount"] else []) + (if device then ["device_risk"] else []))
  }

  // ---------------------------------------------------------------------
  // _base_confidence

  /** `_base_confidence`: the score plus the flag boosts, less the single-agent caution, clamped. */
  function BaseConfidence(score: real, f: Flags): (c: real)
    ensures 0.0 <= c <= 1.0
    ensures (!f.unanimousFraud && !f.unanimousLegit && !f.ruleHighAmount && !f.ruleDeviceRisk
             && !(f.agentCount == 1 && f.maxAgentScore > 0.9)) ==> c == Clamp(score)
  {
    var c1 := if f.unanimousFraud then score + 0.10 else score;
    var c2 := if f.unanimousLegit then c1 + 0.05 else c1;
    var c3 := if f.ruleHighAmount then c2 + 0.08 else c2;
    var c4 := if f.ruleDeviceRisk then c3 + 0.10 else c3;
    var c5 := if f.agentCount == 1 && f.maxAgentScore > 0.9 then c4 - 0.05 else c4;
    Clamp(c5)
  }

  /** The net adjustment the flags make to the score before clamping. */
  function Boost(f: Flags): real
  {
    (if f.unanimousFraud then 0.10 else 0.0) + (if f.unanimousLegit then 0.05 else 0.0)
    + (if f.ruleHighAmount then 0.08 else 0.0) + (if f.ruleDeviceRisk then 0.10 else 0.0)
    - (if f.agentCount == 1 && f.maxAgentScore > 0.9 then 0.05 else 0.0)
  }

  /** The step-by-step adjustments add up to one boost, applied before the clamp. */
  lemma BaseConfidenceBoost(score: real, f: Flags)
    ensures BaseConfidence(score, f) == Clamp(score + Boost(f))
  {
  }

  /** A higher consensus score never lowers the base confidence. */
  lemma BaseConfidenceMonotone(s1: real, s2: real, f: Flags)
    requires s1 <= s2
    ensures BaseConfidence(s1, f) <= BaseConfidence(s2, f)
  {
    BaseConfidenceBoost(s1, f);
    BaseConfidenceBoost(s2, f);
    ClampMonotone(s1 + Boost(f), s2 + Boost(f));
  }

  /** A rule firing never lowers the base confidence. */
  lemma RuleFlagsRaiseBase(score: real, f: Flags)
    ensures BaseConfidence(score, f) <= BaseConfidence(score, f.(ruleHighAmount := true))
    ensures BaseConfidence(score, f) <= BaseConfidence(score, f.(ruleDeviceRisk := true))
  {
    var high, device := f.(ruleHighAmount := true), f.(ruleDeviceRisk := true);
    BaseConfidenceBoost(score, f);
    BaseConfidenceBoost(score, high);
    BaseConfidenceBoost(score, device);
    ClampMonotone(score + Boost(f), score + Boost(high));
    ClampMonotone(score + Boost(f), score + Boost(device));
  }

  // ---------------------------------------------------------------------
  // generate_recommendations

  /** The consensus score used: the given one, or the agents' mean when it is missing or 0. */
  function ScoreUsed(ctx: Context): (s: real)
    ensures OrZero(ctx.consensusScore) != 0.0 ==> s == ctx.consensusScore.value
    ensures OrZero(ctx.consensusScore) == 0.0 ==> s == MeanScore(ctx.agents)
  {
    var given := OrZero(ctx.consensusScore);
    if given == 0.0 && ctx.agents != [] then ScoreSum(ctx.agents) / (|ctx.agents| as real) else given
  }

  function Make(t: Template, prefix: string, millis: int, confidence: real, reasons: seq<string>, meta: Meta): Recommendation
  {
    Recommendation(MakeId(prefix, millis), t.category, t.text, confidence, reasons, meta)
  }

  function BlockConfidence(base: real, f: Flags): real
  {
    Clamp(base + (if f.unanimousFraud then 0.05 else 0.0))
  }

  function TwoFactorConfidence(base: real, f: Flags): real
  {
    Clamp(base - 0.10 + (if f.ruleDeviceRisk then 0.08 else 0.0))
  }

  function EscalationConfidence(base: real, f: Flags): real
  {
    Clamp(if f.ruleHighAmount then base + 0.12 else base + 0.05)
  }

  function MonitorConfidence(base: real, f: Flags): real
  {
    Clamp(base * 0.6 + (if f.ruleHighAmount then 0.1 else 0.0))
  }

  function EducationConfidence(base: real): real
  {
    Clamp(base * 0.4)
  }

  function MixedAnalystConfidence(base: real): real
  {
    Clamp(base * 0.5 + 0.1)
  }

  /** The gates of the fraud branch, with the clamp taken away. */
  predicate BlockGate(base: real, f: Flags)
  {
    base + (if f.unanimousFraud then 0.05 else 0.0) >= 0.5
  }

  predicate TwoFactorGate(base: real, f: Flags)
  {
    base + (if f.ruleDeviceRisk then 0.08 else 0.0) >= 0.4
  }

  predicate EscalationGate(base: real, f: Flags)
  {
    base + (if f.ruleHighAmount then 0.12 else 0.05) >= 0.6
  }

  predicate MixedVotes(f: Flags)
  {
    f.fraudVotes >= 1 && f.agentCount > 1
  }

  /** The block recommendation when its confidence reaches the minimum; `k` ids were made before it. */
  function BlockPiece(base: real, f: Flags, meta: Meta, clock: nat -> int, k: nat): seq<Recommendation>
  {
    var c := BlockConfidence(base, f);
    if c >= BlockTemplate.minConfidence
    then [Make(BlockTemplate, "block", clock(k), c, f.ruleReasons + ["consensus_fraud"], meta)] else []
  }

  function TwoFactorPiece(base: real, f: Flags, meta: Meta, clock: nat -> int, k: nat): seq<Recommendation>
  {
    var c := TwoFactorConfidence(base, f);
    if c >= Require2faTemplate.minConfidence
    then [Make(Require2faTemplate, "2fa", clock(k), c, f.ruleReasons + (if f.ruleDeviceRisk then ["device_risk"] else []), meta)]
    else []
  }

  function EscalationPiece(base: real, f: Flags, meta: Meta, clock: nat -> int, k: nat): seq<Recommendation>
  {
    var c := EscalationConfidence(base, f);
    if c >= EscalateOpsTemplate.minConfidence
    then [Make(EscalateOpsTemplate, "escalate", clock(k), c, f.ruleReasons + ["escalation_rule"], meta)] else []
  }

  /** The gated part of the fraud branch: block, 2FA and escalation, each when its confidence reaches the minimum. */
  function FraudPieces(base: real, f: Flags, meta: Meta, clock: nat -> int): seq<Recommendation>
  {
    var block := BlockPiece(base, f, meta, clock, 0);
    var twoFactor := TwoFactorPiece(base, f, meta, clock, |block|);
    block + twoFactor + EscalationPiece(base, f, meta, clock, |block| + |twoFactor|)
  }

  /**
   * The list the fraud branch builds, in build order: the gated pieces, then
   * the analyst suggestion. `clock(k)` is the clock reading for the k-th id.
   */
  function FraudRecs(base: real, f: Flags, meta: Meta, clock: nat -> int): seq<Recommendation>
  {
    var pieces := FraudPieces(base, f, meta, clock);
    pieces + [Make(AnalystTemplate, "analyst", clock(|pieces|), Clamp(base), f.ruleReasons, meta)]
  }

  /** The list any other verdict builds: monitoring, education, and an analyst entry on mixed votes. */
  function LegitRecs(base: real, f: Flags, meta: Meta, clock: nat -> int): seq<Recommendation>
  {
    var reasons := f.ruleReasons;
    [Make(AllowMonitorTemplate, "monitor", clock(0), MonitorConfidence(base, f), reasons, meta),
     Make(EducationTemplate, "edu", clock(1), EducationConfidence(base), reasons, meta)]
    + (if MixedVotes(f)
       then [Make(AnalystTemplate, "analyst", clock(2), MixedAnalystConfidence(base), reasons + ["mixed_agent_votes"], meta)]
       else [])
  }

  /** The base confidence generate_recommendations computes for a context. */
  function ContextBase(ctx: Context): real
  {
    BaseConfidence(ScoreUsed(ctx), ExtractFlags(ctx))
  }

  /** The list generate_recommendations builds, before sorting. */
  function Candidates(verdict: string, ctx: Context, clock: nat -> int): seq<Recommendation>
  {
    var f := ExtractFlags(ctx);
    var meta := Meta(ctx.agents, ctx.txn);
    if verdict == "fraud" then FraudRecs(ContextBase(ctx), f, meta, clock)
    else LegitRecs(ContextBase(ctx), f, meta, clock)
  }

  function Categories(recs: seq<Recommendation>): (cs: seq<string>)
    ensures |cs| == |recs|
  {
    seq(|recs|, i requires 0 <= i < |recs| => recs[i].category)
  }

  predicate ConfidencesInUnit(recs: seq<Recommendation>)
  {
    forall i :: 0 <= i < |recs| ==> 0.0 <= recs[i].confidence <= 1.0
  }

  // ---------------------------------------------------------------------
  // What the two branches emit.

  lemma CategoriesConcat(a: seq<Recommendation>, b: seq<Recommendation>)
    ensures Categories(a + b) == Categories(a) + Categories(b)
  {
  }

  /** Each clamped confidence reaches its template minimum exactly when its unclamped gate holds. */
  lemma FraudGates(base: real, f: Flags)
    ensures BlockConfidence(base, f) >= BlockTemplate.minConfidence <==> BlockGate(base, f)
    ensures TwoFactorConfidence(base, f) >= Require2faTemplate.minConfidence <==> TwoFactorGate(base, f)
    ensures EscalationConfidence(base, f) >= EscalateOpsTemplate.minConfidence <==> EscalationGate(base, f)
  {
    ClampReaches(base + (if f.unanimousFraud then 0.05 else 0.0), 0.5);
    ClampReaches(base - 0.10 + (if f.ruleDeviceRisk then 0.08 else 0.0), 0.3);
    ClampReaches(if f.ruleHighAmount then base + 0.12 else base + 0.05, 0.6);
  }

  lemma ConfidencesInUnitConcat(a: seq<Recommendation>, b: seq<Recommendation>)
    requires ConfidencesInUnit(a) && ConfidencesInUnit(b)
    ensures ConfidencesInUnit(a + b)
  {
    forall i | 0 <= i < |a + b| ensures 0.0 <= (a + b)[i].confidence <= 1.0 {
      if i >= |a| {
        assert (a + b)[i] == b[i - |a|];
      }
    }
  }

  /** Each gated piece holds at most one recommendation, with a confidence in [0, 1]. */
  lemma PieceShapes(base: real, f: Flags, meta: Meta, clock: nat -> int, j: nat, k: nat, l: nat)
    ensures |BlockPiece(base, f, meta, clock, j)| <= 1 && ConfidencesInUnit(BlockPiece(base, f, meta, clock, j))
    ensures |TwoFactorPiece(base, f, meta, clock, k)| <= 1 && ConfidencesInUnit(TwoFactorPiece(base, f, meta, clock, k))
    ensures |EscalationPiece(base, f, meta, clock, l)| <= 1 && ConfidencesInUnit(EscalationPiece(base, f, meta, clock, l))
  {
  }

  /** Each gated piece holds its template's category exactly when its gate is open. */
  lemma PieceCategories(base: real, f: Flags, meta: Meta, clock: nat -> int, j: nat, k: nat, l: nat)
    ensures Categories(BlockPiece(base, f, meta, clock, j)) == (if BlockGate(base, f) then ["block"] else [])
    ensures Categories(TwoFactorPiece(base, f, meta, clock, k)) == (if TwoFactorGate(base, f) then ["remediation_user"] else [])
    ensures Categories(EscalationPiece(base, f, meta, clock, l)) == (if EscalationGate(base, f) then ["escalation"] else [])
  {
    FraudGates(base, f);
  }

  /** The gated pieces: block, 2FA and escalation exactly when their gates open, in that order, confidences in [0, 1]. */
  lemma FraudPiecesShape(base: real, f: Flags, meta: Meta, clock: nat -> int)
    ensures var pieces := FraudPieces(base, f, meta, clock);
      && |pieces| <= 3
      && ConfidencesInUnit(pieces)
      && Categories(pieces) ==
        (if BlockGate(base, f) then ["block"] else [])
        + (if TwoFactorGate(base, f) then ["remediation_user"] else [])
        + (if EscalationGate(base, f) then ["escalation"] else [])
  {
    var block := BlockPiece(base, f, meta, clock, 0);
    var twoFactor := TwoFactorPiece(base, f, meta, clock, |block|);
    var escalate := EscalationPiece(base, f, meta, clock, |block| + |twoFactor|);
    assert FraudPieces(base, f, meta, clock) == block + twoFactor + escalate;
    PieceShapes(base, f, meta, clock, 0, |block|, |block| + |twoFactor|);
    PieceCategories(base, f, meta, clock, 0, |block|, |block| + |twoFactor|);
    ConfidencesInUnitConcat(block, twoFactor);
    ConfidencesInUnitConcat(block + twoFactor, escalate);
    CategoriesConcat(block, twoFactor);
    CategoriesConcat(block + twoFactor, escalate);
  }

  /**
   * The fraud branch: block, 2FA and escalation each appear exactly when
   * the base confidence plus their bonus reaches the template minimum, in
   * that order, and the analyst suggestion always comes last.
   */
  lemma FraudCategories(base: real, f: Flags, meta: Meta, clock: nat -> int)
    ensures Categories(FraudRecs(base, f, meta, clock)) ==
      (if BlockGate(base, f) then ["block"] else [])
      + (if TwoFactorGate(base, f) then ["remediation_user"] else [])
      + (if EscalationGate(base, f) then ["escalation"] else [])
      + ["analyst_action"]
  {
    var pieces := FraudPieces(base, f, meta, clock);
    var analyst := [Make(AnalystTemplate, "analyst", clock(|pieces|), Clamp(base), f.ruleReasons, meta)];
    FraudPiecesShape(base, f, meta, clock);
    CategoriesConcat(pieces, analyst);
    assert Categories(analyst) == ["analyst_action"];
  }

  /** The analyst suggestion ends the fraud branch with the base confidence and the rule reasons; all confidences lie in [0, 1]. */
  lemma FraudRecsShape(base: real, f: Flags, meta: Meta, clock: nat -> int)
    ensures var recs := FraudRecs(base, f, meta, clock);
      && 1 <= |recs| <= 4
      && recs[|recs| - 1].category == "analyst_action" && recs[|recs| - 1].confidence == Clamp(base)
      && recs[|recs| - 1].reasonCodes == f.ruleReasons
      && ConfidencesInUnit(recs)
  {
    var pieces := FraudPieces(base, f, meta, clock);
    var analyst := [Make(AnalystTemplate, "analyst", clock(|pieces|), Clamp(base), f.ruleReasons, meta)];
    FraudPiecesShape(base, f, meta, clock);
    ConfidencesInUnitConcat(pieces, analyst);
  }

  /** Any verdict other than "fraud": monitoring, education, and the analyst entry exactly on mixed votes. */
  lemma LegitRecsShape(base: real, f: Flags, meta: Meta, clock: nat -> int)
    ensures var recs := LegitRecs(base, f, meta, clock);
      && Categories(recs) == ["monitoring", "education"] + (if MixedVotes(f) then ["analyst_action"] else [])
      && (MixedVotes(f) ==> "mixed_agent_votes" in recs[2].reasonCodes)
      && ConfidencesInUnit(recs)
  {
  }

  /** Whenever the block or the escalation gate opens, so does the 2FA gate. */
  lemma GatesImplyTwoFactor(base: real, f: Flags)
    ensures BlockGate(base, f) ==> TwoFactorGate(base, f)
    ensures EscalationGate(base, f) ==> TwoFactorGate(base, f)
  {
  }

  /** Which categories a fraud list holds, read off its open gates. */
  lemma GatedCategoriesIn(blockOpen: bool, twoFactorOpen: bool, escalationOpen: bool)
    ensures var cs := (if blockOpen then ["block"] else []) + (if twoFactorOpen then ["remediation_user"] else [])
                      + (if escalationOpen then ["escalation"] else []) + ["analyst_action"];
      && ("block" in cs <==> blockOpen)
      && ("remediation_user" in cs <==> twoFactorOpen)
      && ("escalation" in cs <==> escalationOpen)
      && "analyst_action" in cs
  {
  }

  /** The list for any other verdict holds no block, 2FA or escalation. */
  lemma OtherCategoriesIn(mixed: bool)
    ensures var cs := ["monitoring", "education"] + (if mixed then ["analyst_action"] else []);
      && "block" !in cs && "remediation_user" !in cs && "escalation" !in cs
      && ("analyst_action" in cs <==> mixed)
  {
  }

  /** Block and escalation are never recommended without step-up authentication beside them. */
  lemma TwoFactorAccompanies(verdict: string, ctx: Context, clock: nat -> int)
    ensures var cs := Categories(Candidates(verdict, ctx, clock));
      ("block" in cs || "escalation" in cs) ==> "remediation_user" in cs
  {
    var f := ExtractFlags(ctx);
    var meta := Meta(ctx.agents, ctx.txn);
    var base := ContextBase(ctx);
    if verdict == "fraud" {
      assert Candidates(verdict, ctx, clock) == FraudRecs(base, f, meta, clock);
      FraudCategories(base, f, meta, clock);
      GatesImplyTwoFactor(base, f);
      GatedCategoriesIn(BlockGate(base, f), TwoFactorGate(base, f), EscalationGate(base, f));
    } else {
      assert Candidates(verdict, ctx, clock) == LegitRecs(base, f, meta, clock);
      LegitRecsShape(base, f, meta, clock);
      OtherCategoriesIn(MixedVotes(f));
    }
  }

  /** 1 to 4 recommendations for "fraud", 2 or 3 otherwise, every confidence in [0, 1]. */
  lemma CandidatesShape(verdict: string, ctx: Context, clock: nat -> int)
    ensures var recs := Candidates(verdict, ctx, clock);
      && (verdict == "fraud" ==> 1 <= |recs| <= 4 && "analyst_action" in Categories(recs))
      && (verdict != "fraud" ==> 2 <= |recs| <= 3)
      && (verdict != "fraud" ==> ("analyst_action" in Categories(recs) <==> MixedVotes(ExtractFlags(ctx))))
      && ConfidencesInUnit(recs)
  {
    var f := ExtractFlags(ctx);
    var meta := Meta(ctx.agents, ctx.txn);
    var base := ContextBase(ctx);
    if verdict == "fraud" {
      assert Candidates(verdict, ctx, clock) == FraudRecs(base, f, meta, clock);
      FraudRecsShape(base, f, meta, clock);
      FraudCategories(base, f, meta, clock);
      GatedCategoriesIn(BlockGate(base, f), TwoFactorGate(base, f), EscalationGate(base, f));
    } else {
      assert Candidates(verdict, ctx, clock) == LegitRecs(base, f, meta, clock);
      LegitRecsShape(base, f, meta, clock);
      OtherCategoriesIn(MixedVotes(f));
    }
  }

  // ---------------------------------------------------------------------
  // sorted(recs, key=confidence, reverse=True): a stable sort, highest first.

  /** Insert `r` before the first recommendation whose confidence is not above its own. */
  function InsertByConfidence(r: Recommendation, s: seq<Recommendation>): (t: seq<Recommendation>)
    ensures |t| == |s| + 1
  {
    if s == [] || r.confidence >= s[0].confidence then [r] + s
    else [s[0]] + InsertByConfidence(r, s[1..])
  }

  function SortByConfidence(s: seq<Recommendation>): seq<Recommendation>
  {
    if s == [] then [] else InsertByConfidence(s[0], SortByConfidence(s[1..]))
  }

  predicate SortedDesc(s: seq<Recommendation>)
  {
    forall i, j :: 0 <= i < j < |s| ==> s[i].confidence >= s[j].confidence
  }

  /** The recommendations of confidence exactly `c`, in their order in `s`. */
  function WithConfidence(s: seq<Recommendation>, c: real): seq<Recommendation>
  {
    if s == [] then [] else (if s[0].confidence == c then [s[0]] else []) + WithConfidence(s[1..], c)
  }

  lemma {:induction false} InsertPermutes(r: Recommendation, s: seq<Recommendation>)
    ensures multiset(InsertByConfidence(r, s)) == multiset(s) + multiset{r}
    decreases |s|
  {
    if s != [] && r.confidence < s[0].confidence {
      InsertPermutes(r, s[1..]);
      assert s == [s[0]] + s[1..];
    }
  }

  lemma {:induction false} InsertSorted(r: Recommendation, s: seq<Recommendation>)
    requires SortedDesc(s)
    ensures SortedDesc(InsertByConfidence(r, s))
    decreases |s|
  {
    if s != [] && r.confidence < s[0].confidence {
      var tail := s[1..];
      var rest := InsertByConfidence(r, tail);
      assert SortedDesc(tail) by {
        forall i, j | 0 <= i < j < |tail| ensures tail[i].confidence >= tail[j].confidence {
          assert tail[i] == s[i + 1] && tail[j] == s[j + 1];
        }
      }
      InsertSorted(r, tail);
      // the new head of the tail is r or the old one, both below s[0]
      assert rest[0].confidence <= s[0].confidence by {
        if tail != [] && r.confidence < tail[0].confidence {
          assert rest[0] == tail[0] == s[1];
        } else {
          assert rest[0] == r;
        }
      }
      var out := [s[0]] + rest;
      assert out == InsertByConfidence(r, s);
      forall i, j | 0 <= i < j < |out| ensures out[i].confidence >= out[j].confidence {
        assert out[j] == rest[j - 1];
        if i == 0 {
          assert rest[0].confidence >= rest[j - 1].confidence;
        } else {
          assert out[i] == rest[i - 1];
        }
      }
    }
  }

  /** WithConfidence of a list with a known head. */
  lemma WithConfidenceCons(x: Recommendation, t: seq<Recommendation>, c: real)
    ensures WithConfidence([x] + t, c) == (if x.confidence == c then [x] else []) + WithConfidence(t, c)
  {
    assert ([x] + t)[0] == x;
    assert ([x] + t)[1..] == t;
  }

  /** Two pieces of which one is empty can be put in either order. */
  lemma SwapEmpty(a: seq<Recommendation>, b: seq<Recommendation>, w: seq<Recommendation>)
    requires a == [] || b == []
    ensures a + (b + w) == b + (a + w)
  {
    if a == [] {
      assert a + (b + w) == b + w == b + (a + w);
    } else {
      assert a + (b + w) == a + w == b + (a + w);
    }
  }

  /** Insertion only moves `r` past strictly greater confidences, so equal ones keep their order. */
  lemma {:induction false} InsertStable(r: Recommendation, s: seq<Recommendation>, c: real)
    ensures WithConfidence(InsertByConfidence(r, s), c) == (if r.confidence == c then [r] else []) + WithConfidence(s, c)
    decreases |s|
  {
    if s == [] || r.confidence >= s[0].confidence {
      WithConfidenceCons(r, s, c);
    } else {
      var rest := InsertByConfidence(r, s[1..]);
      var head := if s[0].confidence == c then [s[0]] else [];
      var own := if r.confidence == c then [r] else [];
      InsertStable(r, s[1..], c);
      assert WithConfidence(rest, c) == own + WithConfidence(s[1..], c);
      WithConfidenceCons(s[0], rest, c);
      assert WithConfidence(InsertByConfidence(r, s), c) == head + (own + WithConfidence(s[1..], c));
      assert s == [s[0]] + s[1..];
      WithConfidenceCons(s[0], s[1..], c);
      // r sorts after s[0], so the two cannot share the confidence c
      SwapEmpty(head, own, WithConfidence(s[1..], c));
    }
  }

  /** The sort orders by confidence, highest first. */
  lemma {:induction false} SortByConfidenceSorted(s: seq<Recommendation>)
    ensures SortedDesc(SortByConfidence(s))
    decreases |s|
  {
    if s != [] {
      SortByConfidenceSorted(s[1..]);
      InsertSorted(s[0], SortByConfidence(s[1..]));
    }
  }

  /** The sort rearranges the list and nothing more. */
  lemma {:induction false} SortByConfidencePermutes(s: seq<Recommendation>)
    ensures multiset(SortByConfidence(s)) == multiset(s)
    decreases |s|
  {
    if s != [] {
      SortByConfidencePermutes(s[1..]);
      InsertPermutes(s[0], SortByConfidence(s[1..]));
      assert s == [s[0]] + s[1..];
    }
  }

  /** The sort is stable: the recommendations of any one confidence keep their build order. */
  lemma {:induction false} SortByConfidenceStable(s: seq<Recommendation>, c: real)
    ensures WithConfidence(SortByConfidence(s), c) == WithConfidence(s, c)
    decreases |s|
  {
    if s != [] {
      SortByConfidenceStable(s[1..], c);
      InsertStable(s[0], SortByConfidence(s[1..]), c);
    }
  }

  /** The sorted list is ordered, a permutation of the built one, and every confidence lies in [0, 1]. */
  lemma SortedCandidates(verdict: string, ctx: Context, clock: nat -> int)
    ensures var built := Candidates(verdict, ctx, clock);
      var sorted := SortByConfidence(built);
      SortedDesc(sorted) && multiset(sorted) == multiset(built) && ConfidencesInUnit(sorted)
  {
    var built := Candidates(verdict, ctx, clock);
    var sorted := SortByConfidence(built);
    CandidatesShape(verdict, ctx, clock);
    SortByConfidenceSorted(built);
    SortByConfidencePermutes(built);
    forall i | 0 <= i < |sorted| ensures 0.0 <= sorted[i].confidence <= 1.0 {
      assert sorted[i] in multiset(built);
    }
  }

  /** The fraud branch of generate_recommendations, appending to the list step by step. */
  method FraudBranch(baseConf: real, flags: Flags, meta: Meta, clock: nat -> int) returns (recs: seq<Recommendation>)
    ensures recs == FraudRecs(baseConf, flags, meta, clock)
  {
    var reasonCodes := flags.ruleReasons;
    recs := [];
    var cBlock := BlockConfidence(baseConf, flags);
    if cBlock >= BlockTemplate.minConfidence {
      recs := recs + [Make(BlockTemplate, "block", clock(|recs|), cBlock, reasonCodes + ["consensus_fraud"], meta)];
    }
    ghost var block := BlockPiece(baseConf, flags, meta, clock, 0);
    assert recs == block;
    var c2fa := TwoFactorConfidence(baseConf, flags);
    if c2fa >= Require2faTemplate.minConfidence {
      recs := recs + [Make(Require2faTemplate, "2fa", clock(|recs|), c2fa,
                           reasonCodes + (if flags.ruleDeviceRisk then ["device_risk"] else []), meta)];
    }
    ghost var twoFactor := TwoFactorPiece(baseConf, flags, meta, clock, |block|);
    assert recs == block + twoFactor;
    var cEscalate := EscalationConfidence(baseConf, flags);
    if cEscalate >= EscalateOpsTemplate.minConfidence {
      recs := recs + [Make(EscalateOpsTemplate, "escalate", clock(|recs|), cEscalate, reasonCodes + ["escalation_rule"], meta)];
    }
    ghost var escalate := EscalationPiece(baseConf, flags, meta, clock, |block| + |twoFactor|);
    assert recs == FraudPieces(baseConf, flags, meta, clock);
    recs := recs + [Make(AnalystTemplate, "analyst", clock(|recs|), Clamp(baseConf), reasonCodes, meta)];
  }

  /** The branch of generate_recommendations for any other verdict. */
  method OtherBranch(baseConf: real, flags: Flags, meta: Meta, clock: nat -> int) returns (recs: seq<Recommendation>)
    ensures recs == LegitRecs(baseConf, flags, meta, clock)
  {
    var reasonCodes := flags.ruleReasons;
    recs := [];
    recs := recs + [Make(AllowMonitorTemplate, "monitor", clock(|recs|), MonitorConfidence(baseConf, flags), reasonCodes, meta)];
    recs := recs + [Make(EducationTemplate, "edu", clock(|recs|), EducationConfidence(baseConf), reasonCodes, meta)];
    if flags.fraudVotes >= 1 && flags.agentCount > 1 {
      recs := recs + [Make(AnalystTemplate, "analyst", clock(|recs|), MixedAnalystConfidence(baseConf),
                           reasonCodes + ["mixed_agent_votes"], meta)];
    }
  }

  /**
   * generate_recommendations: builds the list under the per-verdict gates,
   * then sorts it by confidence, highest first. `clock(k)` is the clock
   * reading in milliseconds when the k-th id is made.
   */
  method GenerateRecommendations(verdict: string, ctx: Context, clock: nat -> int) returns (recs: seq<Recommendation>)
    ensures recs == SortByConfidence(Candidates(verdict, ctx, clock))
    ensures SortedDesc(recs)
    ensures multiset(recs) == multiset(Candidates(verdict, ctx, clock))
    ensures ConfidencesInUnit(recs)
  {
    var consensusScore := OrZero(ctx.consensusScore);
    if consensusScore == 0.0 && ctx.agents != [] {
      consensusScore := ScoreSum(ctx.agents) / (|ctx.agents| as real);
    }
    assert consensusScore == ScoreUsed(ctx);
    var flags := ExtractFlags(ctx);
    var baseConf := BaseConfidence(consensusScore, flags);
    var meta := Meta(ctx.agents, ctx.txn);
    if verdict == "fraud" {
      recs := FraudBranch(baseConf, flags, meta, clock);
    } else {
      recs := OtherBranch(baseConf, flags, meta, clock);
    }
    SortedCandidates(verdict, ctx, clock);
    recs := SortByConfidence(recs);
  }
}
