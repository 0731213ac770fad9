/** The consumer action plan: rebalance actions for policy targets that drifted, concentration
    actions for oversized top positions, then the configured notes. Actions are kept as
    structured records; their rendering as sentences is not part of this model. */
module ConsumerActions {
  import opened Wrappers
  import opened ConsumerPortfolio

  /** The keys of the `action_templates` section that the action agent reads; every key is
      optional. (Its `monthly_contribution` key is read by the growth projection, which
      takes it as a parameter.) */
  datatype ActionTemplates = ActionTemplates(
    rebalanceThreshold: Option<real>,
    maxSinglePosition: Option<real>,
    notes: Option<seq<string>>)

  datatype Direction = Trim | Add

  datatype Action =
    | Rebalance(direction: Direction, assetClass: string, amount: real, target: real)
    | Reduce(symbol: string, weight: real, limit: real)
    | Note(text: string)

  function Abs(x: real): real {
    if x < 0.0 then -x else x
  }

  /** Current weight minus target; a class missing from the allocation counts as 0. */
  function Drift(allocation: map<string, real>, assetClass: string, target: real): real {
    (if assetClass in allocation then allocation[assetClass] else 0.0) - target
  }

  /** Whether a policy target emits an action: the drift reaches the threshold (inclusive). */
  predicate Emits(allocation: map<string, real>, threshold: real, t: (string, real)) {
    Abs(Drift(allocation, t.0, t.1)) >= threshold
  }

  /** The rebalance action for one policy target. */
  function RebalanceFor(allocation: map<string, real>, totalValue: real, t: (string, real)): Action {
    var drift := Drift(allocation, t.0, t.1);
    Rebalance(if drift > 0.0 then Trim else Add, t.0, Abs(drift) * totalValue, t.1)
  }

  /** The rebalance actions of the targets, in target order. */
  function RebalanceActions(allocation: map<string, real>, totalValue: real,
                            targets: seq<(string, real)>, threshold: real): seq<Action>
  {
    if targets == [] then []
    else
      var t := targets[|targets| - 1];
      RebalanceActions(allocation, totalValue, targets[..|targets| - 1], threshold)
        + (if Emits(allocation, threshold, t) then [RebalanceFor(allocation, totalValue, t)] else [])
  }

  /** The concentration actions of the top positions, in their order. */
  function ConcentrationActions(top: seq<Position>, limit: real): seq<Action> {
    if top == [] then []
    else
      var p := top[|top| - 1];
      ConcentrationActions(top[..|top| - 1], limit)
        + (if p.weight > limit then [Reduce(p.symbol, p.weight, limit)] else [])
  }

  function NoteActions(notes: seq<string>): (r: seq<Action>)
    ensures |r| == |notes|
    ensures forall i :: 0 <= i < |notes| ==> r[i] == Note(notes[i])
  {
    seq(|notes|, i requires 0 <= i < |notes| => Note(notes[i]))
  }

  /** `ConsumerActionAgent.generate_rebalance_actions`; the threshold defaults to 0. */
  method GenerateRebalanceActions(allocation: map<string, real>, totalValue: real,
                                  targets: seq<(string, real)>, rebalanceThreshold: Option<real>)
    returns (actions: seq<Action>)
    ensures actions == RebalanceActions(allocation, totalValue, targets, rebalanceThreshold.GetOr(0.0))
  {
    var threshold := rebalanceThreshold.GetOr(0.0);
    actions := [];
    for i := 0 to |targets|
      invariant actions == RebalanceActions(allocation, totalValue, targets[..i], threshold)
    {
      var (assetClass, target) := targets[i];
      var current := if assetClass in allocation then allocation[assetClass] else 0.0;
      var drift := current - target;
      RebalanceStep(allocation, totalValue, targets, threshold, i);
      assert drift == Drift(allocation, targets[i].0, targets[i].1);
      if Abs(drift) >= threshold {
        var direction := if drift > 0.0 then Trim else Add;
        var dollar := Abs(drift) * totalValue;
        assert Rebalance(direction, assetClass, dollar, target) == RebalanceFor(allocation, totalValue, targets[i]);
        actions := actions + [Rebalance(direction, assetClass, dollar, target)];
      }
    }
    assert targets[..|targets|] == targets;
  }

  lemma RebalanceStep(allocation: map<string, real>, totalValue: real,
                      targets: seq<(string, real)>, threshold: real, i: nat)
    requires i < |targets|
    ensures RebalanceActions(allocation, totalValue, targets[..i + 1], threshold) ==
      RebalanceActions(allocation, totalValue, targets[..i], threshold)
        + (if Emits(allocation, threshold, targets[i]) then [RebalanceFor(allocation, totalValue, targets[i])] else [])
  {
    assert targets[..i + 1][..i] == targets[..i];
  }

  /** `ConsumerActionAgent.generate_concentration_actions`; the cap defaults to 1 (100%). */
  method GenerateConcentrationActions(top: seq<Position>, maxSinglePosition: Option<real>)
    returns (actions: seq<Action>)
    ensures actions == ConcentrationActions(top, maxSinglePosition.GetOr(1.0))
  {
    var limit := maxSinglePosition.GetOr(1.0);
    actions := [];
    for i := 0 to |top|
      invariant actions == ConcentrationActions(top[..i], limit)
    {
      assert top[..i + 1][..i] == top[..i];
      if top[i].weight > limit {
        actions := actions + [Reduce(top[i].symbol, top[i].weight, limit)];
      }
    }
    assert top[..|top|] == top;
  }

  /** `ConsumerActionAgent.build_action_plan`: rebalance actions, then concentration
      actions, then the configured notes verbatim. */
  method BuildActionPlan(allocation: map<string, real>, top: seq<Position>, totalValue: real,
                         targets: seq<(string, real)>, templates: ActionTemplates)
    returns (plan: seq<Action>)
    ensures plan ==
      RebalanceActions(allocation, totalValue, targets, templates.rebalanceThreshold.GetOr(0.0))
      + ConcentrationActions(top, templates.maxSinglePosition.GetOr(1.0))
      + NoteActions(templates.notes.GetOr([]))
  {
    plan := [];
    var rebalance := GenerateRebalanceActions(allocation, totalValue, targets, templates.rebalanceThreshold);
    plan := plan + rebalance;
    var concentration := GenerateConcentrationActions(top, templates.maxSinglePosition);
    plan := plan + concentration;
    plan := plan + NoteActions(templates.notes.GetOr([]));
  }

  // ---- properties of the rules --------------------------------------------------

  /** Every rebalance action is the action of a target whose drift reached the threshold; it
      trims exactly when the class is over target, and its amount is |drift| x total value. */
  lemma {:induction false} RebalanceActionsSound(allocation: map<string, real>, totalValue: real,
                                                 targets: seq<(string, real)>, threshold: real, a: Action)
    requires a in RebalanceActions(allocation, totalValue, targets, threshold)
    ensures a.Rebalance?
    ensures exists i :: 0 <= i < |targets| && Emits(allocation, threshold, targets[i])
                        && a == RebalanceFor(allocation, totalValue, targets[i])
    ensures a.direction == Trim <==> Drift(allocation, a.assetClass, a.target) > 0.0
    ensures a.amount == Abs(Drift(allocation, a.assetClass, a.target)) * totalValue
  {
    var init := targets[..|targets| - 1];
    var t := targets[|targets| - 1];
    var rest := RebalanceActions(allocation, totalValue, init, threshold);
    if a in rest {
      RebalanceActionsSound(allocation, totalValue, init, threshold, a);
      var i :| 0 <= i < |init| && Emits(allocation, threshold, init[i])
               && a == RebalanceFor(allocation, totalValue, init[i]);
      assert targets[i] == init[i];
    } else {
      assert Emits(allocation, threshold, t) && a == RebalanceFor(allocation, totalValue, t);
      RebalanceForShape(allocation, totalValue, t);
      assert targets[|targets| - 1] == t;
    }
  }

  lemma RebalanceForShape(allocation: map<string, real>, totalValue: real, t: (string, real))
    ensures RebalanceFor(allocation, totalValue, t).Rebalance?
    ensures RebalanceFor(allocation, totalValue, t).assetClass == t.0
    ensures RebalanceFor(allocation, totalValue, t).target == t.1
    ensures RebalanceFor(allocation, totalValue, t).direction == Trim <==> Drift(allocation, t.0, t.1) > 0.0
    ensures RebalanceFor(allocation, totalValue, t).amount == Abs(Drift(allocation, t.0, t.1)) * totalValue
  {
  }

  /** Every target whose drift reaches the threshold gets its action. */
  lemma {:induction false} RebalanceActionsComplete(allocation: map<string, real>, totalValue: real,
                                                    targets: seq<(string, real)>, threshold: real, i: nat)
    requires i < |targets| && Emits(allocation, threshold, targets[i])
    ensures RebalanceFor(allocation, totalValue, targets[i]) in RebalanceActions(allocation, totalValue, targets, threshold)
  {
    var init := targets[..|targets| - 1];
    if i < |targets| - 1 {
      RebalanceActionsComplete(allocation, totalValue, init, threshold, i);
    }
  }

  /** How many targets reach the threshold. */
  function EmittingCount(allocation: map<string, real>, targets: seq<(string, real)>, threshold: real): nat {
    if targets == [] then 0
    else
      var t := targets[|targets| - 1];
      EmittingCount(allocation, targets[..|targets| - 1], threshold) + (if Emits(allocation, threshold, t) then 1 else 0)
  }

  /** One action per target whose |drift| reaches the threshold, and no other. */
  lemma {:induction false} RebalanceActionCount(allocation: map<string, real>, totalValue: real,
                                                targets: seq<(string, real)>, threshold: real)
    ensures |RebalanceActions(allocation, totalValue, targets, threshold)| == EmittingCount(allocation, targets, threshold)
  {
    if targets != [] {
      RebalanceActionCount(allocation, totalValue, targets[..|targets| - 1], threshold);
    }
  }

  /** With the default threshold of 0 every policy target emits an action. */
  lemma {:induction false} DefaultThresholdEmitsEveryTarget(allocation: map<string, real>, totalValue: real,
                                                            targets: seq<(string, real)>)
    ensures |RebalanceActions(allocation, totalValue, targets, 0.0)| == |targets|
  {
    if targets != [] {
      DefaultThresholdEmitsEveryTarget(allocation, totalValue, targets[..|targets| - 1]);
    }
  }

  /** No rebalance action when every drift stays below the threshold. */
  lemma {:induction false} WithinThresholdNoRebalance(allocation: map<string, real>, totalValue: real,
                                                      targets: seq<(string, real)>, threshold: real)
    requires forall i :: 0 <= i < |targets| ==> Abs(Drift(allocation, targets[i].0, targets[i].1)) < threshold
    ensures RebalanceActions(allocation, totalValue, targets, threshold) == []
  {
    if targets != [] {
      WithinThresholdNoRebalance(allocation, totalValue, targets[..|targets| - 1], threshold);
    }
  }

  /** A class exactly on target still emits (the comparison is inclusive) and is an "Add"
      of nothing when the threshold is at most 0. */
  lemma OnTargetIsAdd(allocation: map<string, real>, totalValue: real, t: (string, real), threshold: real)
    requires t.0 in allocation && allocation[t.0] == t.1 && threshold <= 0.0
    ensures Emits(allocation, threshold, t)
    ensures RebalanceFor(allocation, totalValue, t) == Rebalance(Add, t.0, 0.0, t.1)
  {
  }

  /** Every concentration action names a top position strictly above the limit. */
  lemma {:induction false} ConcentrationActionsSound(top: seq<Position>, limit: real, a: Action)
    requires a in ConcentrationActions(top, limit)
    ensures a.Reduce? && a.limit == limit && a.weight > limit
    ensures exists i :: 0 <= i < |top| && top[i].symbol == a.symbol && top[i].weight == a.weight
  {
    var init := top[..|top| - 1];
    if a in ConcentrationActions(init, limit) {
      ConcentrationActionsSound(init, limit, a);
      var i :| 0 <= i < |init| && init[i].symbol == a.symbol && init[i].weight == a.weight;
      assert top[i] == init[i];
    } else {
      assert top[|top| - 1].symbol == a.symbol;
    }
  }

  /** Every top position strictly above the limit gets its action. */
  lemma {:induction false} ConcentrationActionsComplete(top: seq<Position>, limit: real, i: nat)
    requires i < |top| && top[i].weight > limit
    ensures Reduce(top[i].symbol, top[i].weight, limit) in ConcentrationActions(top, limit)
  {
    if i < |top| - 1 {
      ConcentrationActionsComplete(top[..|top| - 1], limit, i);
    }
  }

  /** How many top positions lie strictly above the limit. */
  function AboveCapCount(top: seq<Position>, limit: real): nat {
    if top == [] then 0
    else AboveCapCount(top[..|top| - 1], limit) + (if top[|top| - 1].weight > limit then 1 else 0)
  }

  /** One action per top position strictly above the limit, and no other: two identical
      rows above the cap give two actions. */
  lemma {:induction false} ConcentrationActionCount(top: seq<Position>, limit: real)
    ensures |ConcentrationActions(top, limit)| == AboveCapCount(top, limit)
  {
    if top != [] {
      ConcentrationActionCount(top[..|top| - 1], limit);
    }
  }

  /** Positions at or below the limit (a weight equal to the cap included) yield nothing;
      in particular the default cap of 1 flags no position of a portfolio whose weights are
      fractions. */
  lemma {:induction false} WithinCapNoConcentration(top: seq<Position>, limit: real)
    requires forall i :: 0 <= i < |top| ==> top[i].weight <= limit
    ensures ConcentrationActions(top, limit) == []
  {
    if top != [] {
      WithinCapNoConcentration(top[..|top| - 1], limit);
    }
  }

  /** The rank of an action kind in the plan: rebalance, then concentration, then notes. */
  function Rank(a: Action): nat {
    match a
    case Rebalance(_, _, _, _) => 0
    case Reduce(_, _, _) => 1
    case Note(_) => 2
  }

  lemma {:induction false} RebalanceRanks(allocation: map<string, real>, totalValue: real,
                                          targets: seq<(string, real)>, threshold: real)
    ensures forall a :: a in RebalanceActions(allocation, totalValue, targets, threshold) ==> Rank(a) == 0
  {
    forall a | a in RebalanceActions(allocation, totalValue, targets, threshold) ensures Rank(a) == 0 {
      RebalanceActionsSound(allocation, totalValue, targets, threshold, a);
    }
  }

  lemma {:induction false} ConcentrationRanks(top: seq<Position>, limit: real)
    ensures forall a :: a in ConcentrationActions(top, limit) ==> Rank(a) == 1
  {
    forall a | a in ConcentrationActions(top, limit) ensures Rank(a) == 1 {
      ConcentrationActionsSound(top, limit, a);
    }
  }

  /** Actions of a lower rank come first. */
  ghost predicate OrderedByRank(plan: seq<Action>) {
    forall i, j :: 0 <= i < j < |plan| ==> Rank(plan[i]) <= Rank(plan[j])
  }

  /** The last entries of the plan are the notes, verbatim and in order. */
  ghost predicate EndsWithNotes(plan: seq<Action>, notes: seq<string>) {
    |plan| >= |notes| && forall k :: 0 <= k < |notes| ==> plan[|plan| - |notes| + k] == Note(notes[k])
  }

  /** The plan is grouped by kind in the fixed order and ends with the notes verbatim. */
  lemma PlanOrder(allocation: map<string, real>, top: seq<Position>, totalValue: real,
                  targets: seq<(string, real)>, templates: ActionTemplates)
    ensures OrderedByRank(
      RebalanceActions(allocation, totalValue, targets, templates.rebalanceThreshold.GetOr(0.0))
      + ConcentrationActions(top, templates.maxSinglePosition.GetOr(1.0))
      + NoteActions(templates.notes.GetOr([])))
    ensures EndsWithNotes(
      RebalanceActions(allocation, totalValue, targets, templates.rebalanceThreshold.GetOr(0.0))
      + ConcentrationActions(top, templates.maxSinglePosition.GetOr(1.0))
      + NoteActions(templates.notes.GetOr([])),
      templates.notes.GetOr([]))
  {
    RebalanceRanks(allocation, totalValue, targets, templates.rebalanceThreshold.GetOr(0.0));
    ConcentrationRanks(top, templates.maxSinglePosition.GetOr(1.0));
    GroupedPlan(RebalanceActions(allocation, totalValue, targets, templates.rebalanceThreshold.GetOr(0.0)),
                ConcentrationActions(top, templates.maxSinglePosition.GetOr(1.0)),
                templates.notes.GetOr([]));
  }

  /** Rebalance actions, then concentration actions, then the notes: ordered by rank, and
      the notes close the plan verbatim. */
  lemma GroupedPlan(r: seq<Action>, c: seq<Action>, notes: seq<string>)
    requires forall a :: a in r ==> Rank(a) == 0
    requires forall a :: a in c ==> Rank(a) == 1
    ensures OrderedByRank(r + c + NoteActions(notes))
    ensures EndsWithNotes(r + c + NoteActions(notes), notes)
  {
    var n := NoteActions(notes);
    var plan := r + c + n;
    forall i | 0 <= i < |plan| ensures Rank(plan[i]) == if i < |r| then 0 else if i < |r| + |c| then 1 else 2 {
      if i < |r| {
        assert plan[i] == r[i];
      } else if i < |r| + |c| {
        assert plan[i] == c[i - |r|];
      } else {
        assert plan[i] == n[i - |r| - |c|];
      }
    }
    forall k | 0 <= k < |notes| ensures plan[|plan| - |notes| + k] == Note(notes[k]) {
      assert plan[|plan| - |notes| + k] == n[k];
    }
  }
}
