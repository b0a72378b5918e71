/**
 * The consensus step of the predictor: two model agents and one rule agent
 * vote, and a majority of two out of three decides. The model
 * probabilities are inputs; loading the models and preparing their
 * features are not part of this model.
 */
module Consensus {
  import opened Wrappers
  import opened Recommendations

  /** A field of the incoming transaction dict: absent, JSON null, or a number. */
  datatype Field = Missing | Null | Num(x: real)

  /**
   * What the predictor returns: the consensus verdict and score, the agents'
   * votes, and the rule agent's reason codes (the "rules" entry of the
   * second result).
   */
  datatype Prediction = Prediction(verdict: string, score: real, agents: seq<Agent>, ruleReasons: seq<string>)

  /** The value a present field is read as, with `default` for an absent one. */
  function FieldValue(f: Field, default: real): (v: real)
    requires !f.Null?
    ensures f.Num? ==> v == f.x
    ensures f.Missing? ==> v == default
  {
    if f.Num? then f.x else default
  }

  /** A model agent votes "fraud" from probability 0.5 on. */
  function ModelVerdict(proba: real): (v: string)
    ensures v == "fraud" || v == "legit"
    ensures v == "fraud" <==> proba >= 0.5
  {
    if proba >= 0.5 then "fraud" else "legit"
  }

  /** The rule agent's reason codes: "high_amount", then "device_risk", each only when its rule fires. */
  function RuleReasons(amount: real, deviceRisk: real): (rs: seq<string>)
    ensures "high_amount" in rs <==> amount > 50000.0
    ensures "device_risk" in rs <==> deviceRisk > 0.8
    ensures forall r :: r in rs ==> r == "high_amount" || r == "device_risk"
    ensures |rs| == (if amount > 50000.0 then 1 else 0) + (if deviceRisk > 0.8 then 1 else 0)
    ensures amount > 50000.0 && deviceRisk > 0.8 ==> rs == ["high_amount", "device_risk"]
  {
    (if amount > 50000.0 then ["high_amount"] else []) + (if deviceRisk > 0.8 then ["device_risk"] else [])
  }

  /** The rule agent: "fraud" with score 1.0 when a rule fires, "legit" with 0.0 otherwise. */
  function RuleAgent(amount: real, deviceRisk: real): (a: Agent)
    ensures a.verdict == "fraud" <==> amount > 50000.0 || deviceRisk > 0.8
    ensures a.verdict == "fraud" || a.verdict == "legit"
    ensures a.score == (if a.verdict == "fraud" then 1.0 else 0.0)
    ensures a.reasons == Some(RuleReasons(amount, deviceRisk)) && a.name == "rules"
  {
    var fires := amount > 50000.0 || deviceRisk > 0.8;
    Agent("rules", if fires then "fraud" else "legit", if fires then 1.0 else 0.0, Some(RuleReasons(amount, deviceRisk)))
  }

  /** The three agents in the order rf, xgb, rules. */
  function ConsensusAgents(rfProba: real, xgbProba: real, amount: real, deviceRisk: real): (agents: seq<Agent>)
    ensures |agents| == 3
    ensures agents[0] == Agent("rf", ModelVerdict(rfProba), rfProba, None)
    ensures agents[1] == Agent("xgb", ModelVerdict(xgbProba), xgbProba, None)
    ensures agents[2] == RuleAgent(amount, deviceRisk)
  {
    [Agent("rf", ModelVerdict(rfProba), rfProba, None),
     Agent("xgb", ModelVerdict(xgbProba), xgbProba, None),
     RuleAgent(amount, deviceRisk)]
  }

  /** Counting the fraud votes of three agents. */
  lemma CountThree(agents: seq<Agent>)
    requires |agents| == 3
    ensures CountVerdict(agents, "fraud") ==
      (if agents[0].verdict == "fraud" then 1 else 0) + (if agents[1].verdict == "fraud" then 1 else 0)
      + (if agents[2].verdict == "fraud" then 1 else 0)
  {
    var tail := agents[1..];
    assert tail[1..][1..] == [];
    assert tail[1..][0] == agents[2] && tail[0] == agents[1];
    assert CountVerdict(tail[1..], "fraud") == (if agents[2].verdict == "fraud" then 1 else 0);
    assert CountVerdict(tail, "fraud") ==
      (if agents[1].verdict == "fraud" then 1 else 0) + CountVerdict(tail[1..], "fraud");
  }

  /** The mean of three agents' scores. */
  lemma MeanOfThree(agents: seq<Agent>)
    requires |agents| == 3
    ensures MeanScore(agents) == (agents[0].score + agents[1].score + agents[2].score) / 3.0
  {
    var tail := agents[1..];
    assert tail[1..][1..] == [];
    assert ScoreSum(tail[1..]) == agents[2].score;
    assert ScoreSum(tail) == agents[1].score + agents[2].score;
    assert ScoreSum(agents) == agents[0].score + agents[1].score + agents[2].score;
  }

  /** Two of three agents vote "fraud" exactly when two of the three signals are raised. */
  lemma MajorityOfThree(rfProba: real, xgbProba: real, amount: real, deviceRisk: real)
    ensures var rule := amount > 50000.0 || deviceRisk > 0.8;
      CountVerdict(ConsensusAgents(rfProba, xgbProba, amount, deviceRisk), "fraud") >= 2 <==>
        (rfProba >= 0.5 && xgbProba >= 0.5) || (rfProba >= 0.5 && rule) || (xgbProba >= 0.5 && rule)
  {
    CountThree(ConsensusAgents(rfProba, xgbProba, amount, deviceRisk));
  }

  /** With model probabilities in [0, 1], every agent's score and the consensus score lie in [0, 1]. */
  lemma ConsensusScoreInUnit(rfProba: real, xgbProba: real, amount: real, deviceRisk: real)
    requires 0.0 <= rfProba <= 1.0 && 0.0 <= xgbProba <= 1.0
    ensures ScoresInUnit(ConsensusAgents(rfProba, xgbProba, amount, deviceRisk))
    ensures 0.0 <= MeanScore(ConsensusAgents(rfProba, xgbProba, amount, deviceRisk)) <= 1.0
  {
    var agents := ConsensusAgents(rfProba, xgbProba, amount, deviceRisk);
    MeanOfThree(agents);
  }

  /**
   * The simple rules of predict_models: `amount` is read with default 0.0
   * and `float()`, `device_risk_score` with default 0 and compared as is.
   * A JSON null in either raises a TypeError, which is the Failure here,
   * carrying the name of the field.
   */
  method RuleVote(amount: Field, deviceRisk: Field) returns (r: Result<Agent, string>)
    ensures amount.Null? ==> r == Failure("amount")
    ensures !amount.Null? && deviceRisk.Null? ==> r == Failure("device_risk_score")
    ensures !amount.Null? && !deviceRisk.Null? ==>
      r == Success(RuleAgent(FieldValue(amount, 0.0), FieldValue(deviceRisk, 0.0)))
  {
    var ruleReasons: seq<string> := [];
    var ruleVerdict := "legit";
    if amount.Null? {
      return Failure("amount");
    }
    var amountValue := if amount.Num? then amount.x else 0.0;
    if amountValue > 50000.0 {
      ruleVerdict := "fraud";
      ruleReasons := ruleReasons + ["high_amount"];
    }
    assert ruleReasons == (if amountValue > 50000.0 then ["high_amount"] else []);
    if deviceRisk.Null? {
      return Failure("device_risk_score");
    }
    var deviceValue := if deviceRisk.Num? then deviceRisk.x else 0.0;
    if deviceValue > 0.8 {
      ruleVerdict := "fraud";
      ruleReasons := ruleReasons + ["device_risk"];
    }
    assert ruleReasons == RuleReasons(amountValue, deviceValue);
    r := Success(Agent("rules", ruleVerdict, if ruleVerdict == "fraud" then 1.0 else 0.0, Some(ruleReasons)));
  }

  /**
   * The consensus section of predict_models: the two model verdicts, the
   * rule agent, the majority vote and the mean score. It fails exactly when
   * the rules do.
   */
  method PredictConsensus(rfProba: real, xgbProba: real, amount: Field, deviceRisk: Field)
    returns (r: Result<Prediction, string>)
    ensures amount.Null? ==> r == Failure("amount")
    ensures !amount.Null? && deviceRisk.Null? ==> r == Failure("device_risk_score")
    ensures r.Success? <==> !amount.Null? && !deviceRisk.Null?
    ensures r.Success? ==>
      var p := r.value;
      var agents := ConsensusAgents(rfProba, xgbProba, FieldValue(amount, 0.0), FieldValue(deviceRisk, 0.0));
      && p.agents == agents
      && p.ruleReasons == RuleReasons(FieldValue(amount, 0.0), FieldValue(deviceRisk, 0.0))
      && (p.verdict == "fraud" || p.verdict == "legit")
      && (p.verdict == "fraud" <==> CountVerdict(agents, "fraud") >= 2)
      && p.score == MeanScore(agents)
  {
    var rfVerdict := ModelVerdict(rfProba);
    var xgbVerdict := ModelVerdict(xgbProba);
    var rule := RuleVote(amount, deviceRisk);
    if rule.Failure? {
      return Failure(rule.error);
    }
    var rules := rule.value;
    var agents := [Agent("rf", rfVerdict, rfProba, None), Agent("xgb", xgbVerdict, xgbProba, None), rules];
    assert agents == ConsensusAgents(rfProba, xgbProba, FieldValue(amount, 0.0), FieldValue(deviceRisk, 0.0));

    var votes := (if rfVerdict == "fraud" then 1 else 0) + (if xgbVerdict == "fraud" then 1 else 0)
               + (if rules.verdict == "fraud" then 1 else 0);
    CountThree(agents);
    var verdict := if votes >= 2 then "fraud" else "legit";
    var score := (agents[0].score + agents[1].score + agents[2].score) / 3.0;
    MeanOfThree(agents);
    r := Success(Prediction(verdict, score, agents, rules.reasons.value));
  }

  /** The context the fraud route hands the engine: only the agents. */
  function RouteContext(agents: seq<Agent>): Context
  {
    Context(agents, None, None, None, None)
  }

  /**
   * What the engine makes of the predictor's agents: no transaction reaches
   * it, so no rule flag is set and no rule reason code is carried; the score
   * it starts from is the consensus score; and it counts all three votes.
   */
  lemma RouteFlags(rfProba: real, xgbProba: real, amount: real, deviceRisk: real)
    ensures var agents := ConsensusAgents(rfProba, xgbProba, amount, deviceRisk);
      var f := ExtractFlags(RouteContext(agents));
      && !f.ruleHighAmount && !f.ruleDeviceRisk && f.ruleReasons == []
      && f.agentCount == 3
      && f.fraudVotes == CountVerdict(agents, "fraud")
      && ScoreUsed(RouteContext(agents)) == MeanScore(agents)
  {
    var agents := ConsensusAgents(rfProba, xgbProba, amount, deviceRisk);
    var f := ExtractFlags(RouteContext(agents));
    assert "high_amount" !in f.ruleReasons && "device_risk" !in f.ruleReasons;
  }

  /**
   * After a "legit" consensus the engine adds the analyst entry for mixed
   * votes exactly when one of the three agents voted "fraud".
   */
  lemma RouteLegitAnalyst(rfProba: real, xgbProba: real, amount: real, deviceRisk: real, clock: nat -> int)
    requires CountVerdict(ConsensusAgents(rfProba, xgbProba, amount, deviceRisk), "fraud") < 2
    ensures var agents := ConsensusAgents(rfProba, xgbProba, amount, deviceRisk);
      ("analyst_action" in Categories(Candidates("legit", RouteContext(agents), clock)))
      <==> CountVerdict(agents, "fraud") == 1
  {
    var agents := ConsensusAgents(rfProba, xgbProba, amount, deviceRisk);
    RouteFlags(rfProba, xgbProba, amount, deviceRisk);
    CandidatesShape("legit", RouteContext(agents), clock);
  }

  /**
   * After a "fraud" consensus the block recommendation's bonus for a
   * unanimous vote applies exactly when all three agents voted "fraud".
   */
  lemma RouteUnanimousFraud(rfProba: real, xgbProba: real, amount: real, deviceRisk: real)
    ensures var agents := ConsensusAgents(rfProba, xgbProba, amount, deviceRisk);
      ExtractFlags(RouteContext(agents)).unanimousFraud <==>
        rfProba >= 0.5 && xgbProba >= 0.5 && (amount > 50000.0 || deviceRisk > 0.8)
  {
    var agents := ConsensusAgents(rfProba, xgbProba, amount, deviceRisk);
    CountThree(agents);
  }
}
