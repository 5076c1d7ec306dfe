/** reference_proposal and evaluate: a planner and an acceptance checker that must agree. */
module Acceptance {
  import opened Values
  import opened RangePlanner
  import G = GridPlanner
  import Y = YieldPlanner
  import H = HealthPlanner

  datatype Limits = Limits(maxCost: real, maxSlippage: int, maxAge: int)

  datatype Inputs =
    | Rebalancing(range: LpInput)
    | GridTrading(grid: G.GridInput)
    | YieldOptimisation(savings: Y.YieldInput)
    | HealthMonitoring(health: H.HealthInput)

  datatype Task = Task(inputs: Inputs, limits: Limits, observedAt: int, taskHash: string, snapshotHash: string)

  datatype Action = Hold | ResetLpRange | PlanGrid | RouteYield | Repay

  /** Proposal parameters as JSON values; ints and floats are different Python types. */
  datatype Param =
    | Nothing
    | Flag(flag: bool)
    | Whole(whole: int)
    | Float(float: real)
    | Text(text: string)
    | List(items: seq<Param>)

  datatype Proposal = Proposal(taskHash: string, snapshotHash: string, action: Action, parameters: map<string, Param>)

  /** Fractional powers: the square root of 1.0001, grid ratios, and base ** exponent. */
  datatype Powers = Powers(root: real, ratio: G.GridInput -> real, growth: Y.Growth)

  ghost predicate Sound(m: Powers) {
    IsRoot(m.root) && (forall i | G.ValidGrid(i) :: G.IsRatio(i, m.ratio(i))) && Y.IsGrowth(m.growth)
  }

  ghost predicate ValidTask(t: Task) {
    match t.inputs
    case Rebalancing(i) => ValidLp(i)
    case GridTrading(i) => G.ValidGrid(i)
    case YieldOptimisation(i) => Y.ValidYield(i)
    case HealthMonitoring(i) => H.ValidHealth(i)
  }

  predicate Fresh(t: Task, now: int) {
    -5 <= now - t.observedAt <= t.limits.maxAge
  }

  // ---------------------------------------------------------------- the planner

  datatype Plan = Plan(action: Action, parameters: map<string, Param>)

  const HOLD := Plan(Hold, map[])

  function RangePlan(l: Limits, i: LpInput): Option<Plan>
    requires ValidLp(i)
  {
    if InOldRange(i) then Some(HOLD)
    else
      var target :- LpRange(i);
      if i.cost <= l.maxCost && i.slippage <= l.maxSlippage
      then Some(Plan(ResetLpRange, map["lower_tick" := Whole(target.0), "upper_tick" := Whole(target.1)]))
      else Some(HOLD)
  }

  function Floats(xs: seq<real>): seq<Param> {
    seq(|xs|, n requires 0 <= n < |xs| => Float(xs[n]))
  }

  function GridPlan(m: Powers, l: Limits, i: G.GridInput): Plan
    requires G.ValidGrid(i)
  {
    var g := G.GridMetrics(i, m.ratio(i));
    if g.net > 0.0 && g.cost <= l.maxCost && i.slippage <= l.maxSlippage
    then Plan(PlanGrid, map["prices" := List(Floats(g.prices)), "stop_price" := Float(i.stop)])
    else HOLD
  }

  predicate Good(l: Limits, i: Y.YieldInput, row: Y.Row) {
    row.improvement > i.minImprovement && row.capacityOk && row.withdrawalOk && row.venue.migration <= l.maxCost
  }

  function FirstGood(l: Limits, i: Y.YieldInput, rows: seq<Y.Row>): (row: Option<Y.Row>)
    ensures row.None? <==> forall r | r in rows :: !Good(l, i, r)
    ensures row.Some? ==> row.value in rows && Good(l, i, row.value)
  {
    if rows == [] then None else if Good(l, i, rows[0]) then Some(rows[0]) else FirstGood(l, i, rows[1..])
  }

  function YieldPlan(m: Powers, l: Limits, i: Y.YieldInput): Plan {
    match FirstGood(l, i, Y.Ranking(m.growth, i))
    case None => HOLD
    case Some(row) => Plan(RouteYield, map["venue_id" := Text(row.venue.id)])
  }

  function HealthPlan(l: Limits, i: H.HealthInput): Plan
    requires 1.0 < i.target
  {
    var h := H.HealthMetrics(i);
    if h.required > 0.0 && h.sufficient && i.cost <= l.maxCost
    then Plan(Repay, map["repay_usd" := Float(h.required)])
    else HOLD
  }

  /** reference_proposal's action and parameters; None is the planner raising. */
  function ReferencePlan(m: Powers, t: Task): Option<Plan>
    requires ValidTask(t)
  {
    match t.inputs
    case Rebalancing(i) => RangePlan(t.limits, i)
    case GridTrading(i) => Some(GridPlan(m, t.limits, i))
    case YieldOptimisation(i) => Some(YieldPlan(m, t.limits, i))
    case HealthMonitoring(i) => Some(HealthPlan(t.limits, i))
  }

  function ReferenceProposal(m: Powers, t: Task): Option<Proposal>
    requires ValidTask(t)
  {
    var plan :- ReferencePlan(m, t);
    Some(Proposal(t.taskHash, t.snapshotHash, plan.action, plan.parameters))
  }

  // ---------------------------------------------------------------- what acceptance means

  /** The value of an int or float parameter; booleans are not numbers. */
  function Number(p: Param): Option<real> {
    match p
    case Whole(n) => Some(n as real)
    case Float(x) => Some(x)
    case _ => None
  }

  function Absolute(x: real): real {
    if x < 0.0 then -x else x
  }

  /** math.isclose(a, b, rel_tol=1e-10, abs_tol=1e-14) */
  predicate Close(a: real, b: real) {
    || Absolute(a - b) <= 0.0000000001 * Absolute(a)
    || Absolute(a - b) <= 0.0000000001 * Absolute(b)
    || Absolute(a - b) <= 0.00000000000001
  }

  predicate Numbers(items: seq<Param>) {
    forall n | 0 <= n < |items| :: Number(items[n]).Some?
  }

  predicate CloseTo(items: seq<Param>, prices: seq<real>)
    requires |items| == |prices| && Numbers(items)
  {
    forall n | 0 <= n < |items| :: Close(Number(items[n]).value, prices[n])
  }

  predicate HoldResolves(t: Task)
    requires t.inputs.HealthMonitoring? ==> 1.0 < t.inputs.health.target
  {
    match t.inputs
    case Rebalancing(i) => InOldRange(i)
    case HealthMonitoring(i) => H.HealthMetrics(i).required == 0.0
    case _ => true
  }

  predicate RangeAccepted(l: Limits, i: LpInput, p: Proposal)
    requires ValidLp(i)
  {
    && p.action == ResetLpRange && LpRange(i).Some? && !InOldRange(i)
    && p.parameters == map["lower_tick" := Whole(LpRange(i).value.0), "upper_tick" := Whole(LpRange(i).value.1)]
    && i.cost <= l.maxCost && i.slippage <= l.maxSlippage
  }

  predicate GridAccepted(m: Powers, l: Limits, i: G.GridInput, p: Proposal)
    requires G.ValidGrid(i)
  {
    var g := G.GridMetrics(i, m.ratio(i));
    && p.action == PlanGrid && p.parameters.Keys == {"prices", "stop_price"}
    && p.parameters["prices"].List? && |p.parameters["prices"].items| == i.levels
    && Numbers(p.parameters["prices"].items) && CloseTo(p.parameters["prices"].items, g.prices)
    && Number(p.parameters["stop_price"]) == Some(i.stop)
    && g.net > 0.0 && g.cost <= l.maxCost && i.slippage <= l.maxSlippage
  }

  ghost predicate YieldAccepted(m: Powers, l: Limits, i: Y.YieldInput, p: Proposal) {
    p.action == RouteYield
    && exists v :: v in i.venues && p.parameters == map["venue_id" := Text(v.id)] && Good(l, i, Y.RowOf(m.growth, i, v))
  }

  predicate HealthAccepted(l: Limits, i: H.HealthInput, p: Proposal)
    requires 1.0 < i.target
  {
    var h := H.HealthMetrics(i);
    && p.action == Repay && p.parameters.Keys == {"repay_usd"} && Number(p.parameters["repay_usd"]).Some?
    && var repay := Number(p.parameters["repay_usd"]).value;
       0.0 <= repay <= h.debt && repay <= i.available && h.required <= repay && 0.0 < h.required && i.cost <= l.maxCost
  }

  /** policy_accepted, for a task on which the planner does not raise. */
  ghost predicate Accepted(m: Powers, t: Task, p: Proposal, now: int)
    requires ValidTask(t) && ReferencePlan(m, t).Some?
  {
    && p.taskHash == t.taskHash && p.snapshotHash == t.snapshotHash && Fresh(t, now)
    && if p.action == Hold then ReferencePlan(m, t).value.action == Hold && p.parameters == map[] && HoldResolves(t)
       else match t.inputs
            case Rebalancing(i) => RangeAccepted(t.limits, i, p)
            case GridTrading(i) => GridAccepted(m, t.limits, i, p)
            case YieldOptimisation(i) => YieldAccepted(m, t.limits, i, p)
            case HealthMonitoring(i) => HealthAccepted(t.limits, i, p)
  }

  // ---------------------------------------------------------------- the two agree

  lemma RowsOfRanking(growth: Y.Growth, i: Y.YieldInput)
    requires Y.ValidYield(i)
    ensures forall row :: row in Y.Ranking(growth, i) <==> row.venue in i.venues && row == Y.RowOf(growth, i, row.venue)
  {
    Y.RankingIndependentOfListing(growth, i, i.venues);
    forall row ensures row in Y.Ranking(growth, i) <==> row.venue in i.venues && row == Y.RowOf(growth, i, row.venue) {
      Y.RowCount(growth, i, i.venues, row);
      assert i.(venues := i.venues) == i;
      assert row in Y.Ranking(growth, i) <==> row in multiset(Y.Ranking(growth, i));
    }
  }

  /** The planner takes an action exactly when some action would be accepted. */
  lemma ActionsAgree(m: Powers, t: Task, p: Proposal, now: int)
    requires Sound(m) && ValidTask(t) && ReferencePlan(m, t).Some? && Accepted(m, t, p, now)
    ensures ReferencePlan(m, t).value.action == p.action
  {
    hide Y.Ranking, Y.RowOf, G.GridMetrics, H.HealthMetrics, LpRange, Y.ValidYield, H.ValidHealth, ValidLp, Close,
         IsRoot, G.IsRatio;
    if p.action == RouteYield {
      var i := t.inputs.savings;
      RowsOfRanking(m.growth, i);
      var v :| v in i.venues && p.parameters == map["venue_id" := Text(v.id)]
                     && Good(t.limits, i, Y.RowOf(m.growth, i, v));
      assert Y.RowOf(m.growth, i, v) in Y.Ranking(m.growth, i);
    } else if p.action == Repay {
      TargetAboveOne(t.inputs.health);
      Sufficient(t.inputs.health);
    }
  }

  lemma Sufficient(i: H.HealthInput)
    requires 1.0 < i.target
    ensures H.HealthMetrics(i).sufficient <==> H.HealthMetrics(i).required <= i.available
  {
  }

  /** MAIN RESULT. For a fresh task on which the planner does not raise, if any proposal at all is accepted then the
      reference plan is accepted too. */
  lemma ReferenceAcceptedIfAnyIs(m: Powers, t: Task, p: Proposal, now: int)
    requires Sound(m) && ValidTask(t) && ReferencePlan(m, t).Some? && Accepted(m, t, p, now)
    ensures Accepted(m, t, ReferenceProposal(m, t).value, now)
  {
    hide Y.Ranking, Y.RowOf, G.GridMetrics, H.HealthMetrics, LpRange, Y.ValidYield, H.ValidHealth, ValidLp, IsRoot,
         G.IsRatio, Close;
    ActionsAgree(m, t, p, now);
    var q := ReferenceProposal(m, t).value;
    match t.inputs
    case Rebalancing(i) =>
    case GridTrading(i) =>
      if q.action == PlanGrid {
        PricesAcceptable(i, m.ratio(i));
      }
    case YieldOptimisation(i) =>
      if q.action == RouteYield {
        RowsOfRanking(m.growth, i);
        var row := FirstGood(t.limits, i, Y.Ranking(m.growth, i)).value;
        assert row.venue in i.venues && row == Y.RowOf(m.growth, i, row.venue);
      }
    case HealthMonitoring(i) =>
      H.RequiredRepayIsLeast(i);
      TargetAboveOne(i);
      Sufficient(i);
  }

  lemma PricesAcceptable(i: G.GridInput, ratio: real)
    requires G.ValidGrid(i) && G.IsRatio(i, ratio)
    ensures var prices := G.GridMetrics(i, ratio).prices; var items := Floats(prices);
            |items| == |prices| == i.levels && Numbers(items) && CloseTo(items, prices)
  {
    hide G.GridMetrics, G.IsRatio;
    G.GridIsGeometric(i, ratio);
  }

  /** MAIN RESULT. No task accepts both hold and an action. */
  lemma NeverBothHoldAndAct(m: Powers, t: Task, p: Proposal, q: Proposal, now: int, later: int)
    requires Sound(m) && ValidTask(t) && ReferencePlan(m, t).Some?
    requires Accepted(m, t, p, now) && Accepted(m, t, q, later)
    ensures p.action == q.action
  {
    hide Accepted, ReferencePlan;
    ActionsAgree(m, t, p, now);
    ActionsAgree(m, t, q, later);
  }

  /** MAIN RESULT. Every accepted repayment clears the stressed debt or leaves modelled health at or above target; the
      required repayment is at most every whole-cent repayment that would. */
  lemma AcceptedRepaySuffices(m: Powers, t: Task, p: Proposal, now: int)
    requires Sound(m) && ValidTask(t) && ReferencePlan(m, t).Some? && Accepted(m, t, p, now) && p.action == Repay
    ensures t.inputs.HealthMonitoring? && p.parameters.Keys == {"repay_usd"} && Number(p.parameters["repay_usd"]).Some?
    ensures var i, repay := t.inputs.health, Number(p.parameters["repay_usd"]).value; var h := H.HealthMetrics(i);
            && repay <= i.available && H.Reaches(h, i.target, repay)
            && forall x | 0.0 <= x && H.WholeCents(x) && H.Reaches(h, i.target, x) :: h.required <= x
  {
    hide H.HealthMetrics, H.WholeCents, Y.ValidYield, ValidLp, LpRange, G.GridMetrics, H.ValidHealth;
    var i := t.inputs.health;
    TargetAboveOne(i);
    var h := H.HealthMetrics(i);
    H.RequiredRepayIsLeast(i);
    H.ReachesIff(h, i.target, h.required);
    H.ReachesIff(h, i.target, Number(p.parameters["repay_usd"]).value);
  }

  lemma TargetAboveOne(i: H.HealthInput)
    requires H.ValidHealth(i)
    ensures 1.0 < i.target
  {
  }

  /** MAIN RESULT. The best venue wins: an accepted route exists exactly when some venue is good, and the reference
      routes to a good venue that comes before every other good one in (-improvement, venue_id) order. */
  lemma ReferenceRoutesToBest(m: Powers, l: Limits, i: Y.YieldInput)
    requires Y.ValidYield(i)
    ensures YieldPlan(m, l, i).action == Hold <==> forall v | v in i.venues :: !Good(l, i, Y.RowOf(m.growth, i, v))
    ensures YieldPlan(m, l, i).action != Hold ==>
              exists v :: v in i.venues && YieldPlan(m, l, i) == Plan(RouteYield, map["venue_id" := Text(v.id)])
                     && Good(l, i, Y.RowOf(m.growth, i, v))
                     && forall w | w in i.venues && Good(l, i, Y.RowOf(m.growth, i, w)) ::
                          Y.Before(Y.RowOf(m.growth, i, v), Y.RowOf(m.growth, i, w))
  {
    hide Y.Before, Y.RowOf, Y.Ranking, Y.ValidYield;
    var rows := Y.Ranking(m.growth, i);
    RowsOfRanking(m.growth, i);
    forall v | v in i.venues ensures Y.RowOf(m.growth, i, v) in rows {
    }
    var first := FirstGood(l, i, rows);
    if first.Some? {
      RankedRows(m.growth, i);
      FirstIsBest(l, i, rows);
      var v := first.value.venue;
      assert first.value == Y.RowOf(m.growth, i, v);
      assert v in i.venues && YieldPlan(m, l, i) == Plan(RouteYield, map["venue_id" := Text(v.id)]);
    }
  }

  lemma RankedRows(growth: Y.Growth, i: Y.YieldInput)
    requires Y.ValidYield(i)
    ensures Y.Ranked(Y.Ranking(growth, i))
  {
    Y.RankingIndependentOfListing(growth, i, i.venues);
  }

  lemma {:induction false} FirstIsBest(l: Limits, i: Y.YieldInput, rows: seq<Y.Row>)
    requires Y.Ranked(rows) && FirstGood(l, i, rows).Some?
    ensures forall r | r in rows && Good(l, i, r) :: Y.Before(FirstGood(l, i, rows).value, r)
  {
    hide Good;
    if Good(l, i, rows[0]) {
      forall r | r in rows && Good(l, i, r) ensures Y.Before(rows[0], r) {
        Y.BeforeTotal(r, r);
      }
    } else {
      FirstIsBest(l, i, rows[1..]);
    }
  }

  // ---------------------------------------------------------------- evaluate

  datatype Check = Check(name: string, passed: bool)

  predicate AllPassed(checks: seq<Check>) {
    forall k | 0 <= k < |checks| :: checks[k].passed
  }

  function Add(checks: seq<Check>, name: string, condition: bool): (all: seq<Check>)
    ensures AllPassed(all) <==> AllPassed(checks) && condition
    ensures all == checks + [Check(name, condition)]
  {
    var all := checks + [Check(name, condition)];
    assert all[|checks|] == Check(name, condition);
    assert forall k | 0 <= k < |checks| :: all[k] == checks[k];
    all
  }

  datatype Metrics =
    | NoMetrics
    | RangeMetrics(before: Option<(real, real)>, target: Option<(real, real)>)
    | RepayMetrics(healthAfter: Option<real>, debtCleared: bool)

  datatype Report = Report(accepted: bool, checks: seq<Check>, metrics: Metrics)

  function Get(p: Proposal, key: string): Param {
    if key in p.parameters then p.parameters[key] else Nothing
  }

  /** The branch of evaluate for a hold. */
  method CheckHold(m: Powers, t: Task, p: Proposal, before: seq<Check>) returns (checks: seq<Check>)
    requires ValidTask(t) && ReferencePlan(m, t).Some?
    ensures AllPassed(checks) <==>
            AllPassed(before) && ReferencePlan(m, t).value.action == Hold && p.parameters == map[] && HoldResolves(t)
  {
    hide ReferencePlan, H.HealthMetrics, AllPassed, Add;
    checks := Add(before, "hold_is_policy_consistent", ReferencePlan(m, t).value.action == Hold);
    checks := Add(checks, "hold_has_no_parameters", p.parameters == map[]);
    if t.inputs.HealthMonitoring? {
      checks := Add(checks, "protection_target_resolved", H.HealthMetrics(t.inputs.health).required == 0.0);
    }
    if t.inputs.Rebalancing? {
      checks := Add(checks, "range_target_resolved", InOldRange(t.inputs.range));
    }
  }

  function Inventory(root: real, i: LpInput, range: (int, int)): Option<(real, real)>
    requires IsRoot(root)
  {
    LpInventory(root, i.tick, range.0, range.1, i.liquidity, i.decimals0, i.decimals1)
  }

  /** The branch for a range reset. The comparison with lp_range makes the earlier tick checks redundant. */
  method CheckRange(m: Powers, l: Limits, i: LpInput, p: Proposal, before: seq<Check>)
    returns (checks: seq<Check>, metrics: Metrics)
    requires IsRoot(m.root) && ValidLp(i) && LpRange(i).Some?
    ensures AllPassed(checks) <==> AllPassed(before) && RangeAccepted(l, i, p)
    ensures AllPassed(checks) ==>
              && metrics.RangeMetrics? && metrics.before.Some? && metrics.target.Some?
              && metrics.before
                 == LpInventory(m.root, i.tick, i.oldLower, i.oldUpper, i.liquidity, i.decimals0, i.decimals1)
              && metrics.target
                 == LpInventory(m.root, i.tick, LpRange(i).value.0, LpRange(i).value.1, i.liquidity, i.decimals0,
                                i.decimals1)
  {
    hide AllPassed, Add, LpRange, IsRoot, RawInventory;
    metrics := NoMetrics;
    checks := Add(before, "category_action", p.action == ResetLpRange);
    checks := Add(checks, "parameter_schema", p.parameters.Keys == {"lower_tick", "upper_tick"});
    var lower, upper := Get(p, "lower_tick"), Get(p, "upper_tick");
    var valid := lower.Whole? && upper.Whole? && MIN_TICK <= lower.whole < upper.whole <= MAX_TICK;
    checks := Add(checks, "protocol_tick_bounds", valid);
    if valid {
      checks := Add(checks, "tick_spacing", lower.whole % i.spacing == 0 && upper.whole % i.spacing == 0);
      checks := Add(checks, "spot_inside_target", lower.whole <= i.tick < upper.whole);
      var target := LpRange(i).value;
      checks := Add(checks, "requested_range_policy", (lower.whole, upper.whole) == target);
      checks := Add(checks, "avoid_unnecessary_churn", !InOldRange(i));
      metrics := RangeMetrics(Inventory(m.root, i, (i.oldLower, i.oldUpper)),
                              Inventory(m.root, i, (lower.whole, upper.whole)));
    }
    checks := Add(checks, "cost_cap", i.cost <= l.maxCost);
    checks := Add(checks, "slippage_cap", i.slippage <= l.maxSlippage);
    RangeFits(i);
    TwoParameters(p.parameters, "lower_tick", "upper_tick");
  }

  lemma TwoParameters(m: map<string, Param>, a: string, b: string)
    requires a != b
    ensures m.Keys == {a, b} ==> m == map[a := m[a], b := m[b]]
    ensures forall x, y :: m == map[a := x, b := y] ==> m.Keys == {a, b} && m[a] == x && m[b] == y
  {
  }

  /** The branch for a grid plan. */
  method CheckGrid(m: Powers, l: Limits, i: G.GridInput, p: Proposal, before: seq<Check>) returns (checks: seq<Check>)
    requires G.ValidGrid(i) && G.IsRatio(i, m.ratio(i))
    ensures AllPassed(checks) <==> AllPassed(before) && GridAccepted(m, l, i, p)
  {
    hide AllPassed, Add, G.GridMetrics, G.IsRatio, Close, Number;
    var g := G.GridMetrics(i, m.ratio(i));
    G.GridIsGeometric(i, m.ratio(i));
    checks := Add(before, "category_action", p.action == PlanGrid);
    checks := Add(checks, "parameter_schema", p.parameters.Keys == {"prices", "stop_price"});
    var prices := Get(p, "prices");
    var valid := prices.List? && |prices.items| == i.levels && Numbers(prices.items);
    checks := Add(checks, "order_count_and_numbers", valid);
    if valid {
      checks := Add(checks, "grid_geometry", CloseTo(prices.items, g.prices));
    }
    var stop := Get(p, "stop_price");
    checks := Add(checks, "stop_price", Number(stop) == Some(i.stop));
    checks := Add(checks, "positive_net_cycle", g.net > 0.0);
    checks := Add(checks, "cycle_cost_cap", g.cost <= l.maxCost);
    checks := Add(checks, "slippage_cap", i.slippage <= l.maxSlippage);
  }

  /** next(v for v in rows if v['venue_id'] == chosen) */
  function Select(rows: seq<Y.Row>, chosen: Param): (row: Option<Y.Row>)
    ensures row.None? <==> forall r | r in rows :: Text(r.venue.id) != chosen
    ensures row.Some? ==> row.value in rows && Text(row.value.venue.id) == chosen
  {
    if rows == [] then None else if Text(rows[0].venue.id) == chosen then Some(rows[0]) else Select(rows[1..], chosen)
  }

  /** The branch for a venue. */
  method CheckYield(m: Powers, l: Limits, i: Y.YieldInput, p: Proposal, before: seq<Check>) returns (checks: seq<Check>)
    requires Y.ValidYield(i)
    ensures AllPassed(checks) <==> AllPassed(before) && YieldAccepted(m, l, i, p)
  {
    hide AllPassed, Add, Y.ValidYield, Y.Ranking, YieldAccepted;
    checks := Add(before, "category_action", p.action == RouteYield);
    checks := Add(checks, "parameter_schema", p.parameters.Keys == {"venue_id"});
    var rows := Y.YieldMetrics(m.growth, i);
    var selected := Select(rows, Get(p, "venue_id"));
    checks := Add(checks, "approved_venue", selected.Some?);
    if selected.Some? {
      var row := selected.value;
      checks := Add(checks, "improves_on_current_venue", row.improvement > i.minImprovement);
      checks := Add(checks, "capacity", row.capacityOk);
      checks := Add(checks, "withdrawal_horizon", row.withdrawalOk);
      checks := Add(checks, "cost_cap", row.venue.migration <= l.maxCost);
    }
    SelectionAccepted(m, l, i, p);
  }

  lemma SelectionAccepted(m: Powers, l: Limits, i: Y.YieldInput, p: Proposal)
    requires Y.ValidYield(i)
    ensures var selected := Select(Y.Ranking(m.growth, i), Get(p, "venue_id"));
            YieldAccepted(m, l, i, p) <==>
            p.action == RouteYield && p.parameters.Keys == {"venue_id"} && selected.Some? && Good(l, i, selected.value)
  {
    hide Y.Ranking, Y.RowOf, Good;
    RowsOfRanking(m.growth, i);
    var rows := Y.Ranking(m.growth, i);
    var selected := Select(rows, Get(p, "venue_id"));
    if YieldAccepted(m, l, i, p) {
      var v :| v in i.venues && p.parameters == map["venue_id" := Text(v.id)] && Good(l, i, Y.RowOf(m.growth, i, v));
      assert Y.RowOf(m.growth, i, v) in rows;
      assert selected.Some?;
      SameVenue(i, selected.value.venue, v);
    }
    if p.action == RouteYield && p.parameters.Keys == {"venue_id"} && selected.Some? && Good(l, i, selected.value) {
      var v := selected.value.venue;
      assert p.parameters == map["venue_id" := Text(v.id)];
      assert v in i.venues && selected.value == Y.RowOf(m.growth, i, v);
    }
  }

  lemma SameVenue(i: Y.YieldInput, v: Y.Venue, w: Y.Venue)
    requires Y.ValidYield(i) && v in i.venues && w in i.venues && v.id == w.id
    ensures v == w
  {
  }

  /** The branch for a repayment. */
  method CheckHealth(l: Limits, i: H.HealthInput, p: Proposal, before: seq<Check>)
    returns (checks: seq<Check>, metrics: Metrics)
    requires H.ValidHealth(i)
    ensures AllPassed(checks) <==> AllPassed(before) && HealthAccepted(l, i, p)
    ensures AllPassed(checks) ==>
              && metrics.RepayMetrics?
              && (metrics.debtCleared || (metrics.healthAfter.Some? && metrics.healthAfter.value >= i.target))
  {
    hide AllPassed, Add, H.HealthMetrics, H.ValidHealth;
    TargetAboveOne(i);
    var h := H.HealthMetrics(i);
    metrics := NoMetrics;
    checks := Add(before, "category_action", p.action == Repay);
    checks := Add(checks, "parameter_schema", p.parameters.Keys == {"repay_usd"});
    var repay := Number(Get(p, "repay_usd"));
    var valid := repay.Some? && 0.0 <= repay.value <= h.debt;
    checks := Add(checks, "repay_value", valid);
    if valid {
      checks := Add(checks, "repay_budget", repay.value <= i.available);
      checks := Add(checks, "target_reached", repay.value >= h.required);
      checks := Add(checks, "avoid_unnecessary_repay", h.required > 0.0);
      var remaining := h.debt - repay.value;
      metrics := RepayMetrics(if remaining == 0.0 then None else Some(h.collateral / remaining), remaining == 0.0);
    }
    checks := Add(checks, "cost_cap", i.cost <= l.maxCost);
    if AllPassed(checks) {
      H.RequiredRepayIsLeast(i);
      H.ReachesIff(h, i.target, h.required);
      H.ReachesIff(h, i.target, repay.value);
    }
  }

  /** evaluate(); None is its raising, which happens exactly when the planner raises. */
  method Evaluate(m: Powers, t: Task, p: Proposal, now: int) returns (report: Option<Report>)
    requires Sound(m) && ValidTask(t)
    ensures report.None? <==> ReferencePlan(m, t).None?
    ensures report.Some? ==> (report.value.accepted <==> Accepted(m, t, p, now))
    ensures report.Some? ==> (report.value.accepted <==> AllPassed(report.value.checks))
  {
    hide AllPassed, Add, RangeAccepted, GridAccepted, YieldAccepted, HealthAccepted, IsRoot, G.IsRatio, HoldResolves,
      H.ValidHealth, Y.ValidYield, G.ValidGrid, GridPlan, YieldPlan, HealthPlan, ValidLp;
    var checks := Add([], "same_task", p.taskHash == t.taskHash);
    checks := Add(checks, "same_snapshot", p.snapshotHash == t.snapshotHash);
    checks := Add(checks, "fresh_snapshot", Fresh(t, now));
    NoChecks();
    var reference := ReferenceProposal(m, t);
    if reference.None? {
      return None;
    }
    var metrics := NoMetrics;
    if p.action == Hold {
      checks := CheckHold(m, t, p, checks);
    } else {
      match t.inputs
      case Rebalancing(i) =>
        if InOldRange(i) {
          InRangeDoesNotRaise(i);
        }
        checks, metrics := CheckRange(m, t.limits, i, p, checks);
      case GridTrading(i) =>
        checks := CheckGrid(m, t.limits, i, p, checks);
      case YieldOptimisation(i) =>
        checks := CheckYield(m, t.limits, i, p, checks);
      case HealthMonitoring(i) =>
        checks, metrics := CheckHealth(t.limits, i, p, checks);
    }
    report := Some(Report(AllPassed(checks), checks, metrics));
  }

  lemma NoChecks()
    ensures AllPassed([])
  {
  }

  // ---------------------------------------------------------------- what the conditions mean

  /** MAIN RESULT. An accepted proposal is accepted at exactly the times from 5 seconds before the snapshot's
      observation to its maximum age after it; nothing else in the verdict depends on the time. */
  lemma AcceptanceWindow(m: Powers, t: Task, p: Proposal, now: int, later: int)
    requires ValidTask(t) && ReferencePlan(m, t).Some? && Accepted(m, t, p, now)
    ensures Accepted(m, t, p, later) <==> t.observedAt - 5 <= later <= t.observedAt + t.limits.maxAge
  {
    hide RangeAccepted, GridAccepted, YieldAccepted, HealthAccepted, HoldResolves, ReferencePlan, ValidTask;
  }

  /** Prices are close when they differ by at most a ten-billionth of the larger, or by at most 1e-14. */
  lemma CloseIff(a: real, b: real)
    ensures var larger := if Absolute(a) < Absolute(b) then Absolute(b) else Absolute(a);
            var apart := if a < b then b - a else a - b;
            Close(a, b) <==> apart * 10000000000.0 <= larger || apart * 100000000000000.0 <= 1.0
    ensures Absolute(a) >= 0.0 && (Absolute(a) == a || Absolute(a) == -a)
  {
  }

  /** MAIN RESULT. A venue is good exactly when the capital fits, the money is out in time, moving is within the cost
      limit, and compounding there earns more than the required improvement over staying. */
  lemma GoodIff(m: Powers, l: Limits, i: Y.YieldInput, v: Y.Venue) returns (hold: real, earned: real)
    requires Sound(m) && Y.ValidYield(i) && 0.0 <= v.apy
    ensures Y.Compounds(i, i.currentApy, hold) && Y.Compounds(i, v.apy, earned)
    ensures Good(l, i, Y.RowOf(m.growth, i, v))
            <==> && i.capital <= v.capacity && v.delay <= i.horizon && v.migration <= l.maxCost
                 && earned - v.migration - hold > i.minImprovement
  {
    hide Y.RowOf, Y.Compounds, Y.ValidYield, Y.IsGrowth;
    Y.RowTells(m.growth, i, v);
    var row := Y.RowOf(m.growth, i, v);
    hold, earned := row.hold, row.income + v.migration;
  }

  /** MAIN RESULT. When the planner does not raise it holds in exactly these cases: the position is in its old range, or
      a reset would break a cap; a grid cycle makes nothing, or breaks a cap; no venue is good; nothing needs repaying,
      or what is needed cannot be afforded. */
  lemma ReferenceHoldsIff(m: Powers, t: Task)
    requires Sound(m) && ValidTask(t) && ReferencePlan(m, t).Some?
    ensures ReferencePlan(m, t).value.action == Hold
            <==> match t.inputs
                 case Rebalancing(i) =>
                   (i.oldLower <= i.tick && i.tick < i.oldUpper)
                   || i.cost > t.limits.maxCost || i.slippage > t.limits.maxSlippage
                 case GridTrading(i) =>
                   var g := G.GridMetrics(i, m.ratio(i));
                   g.net <= 0.0 || g.cost > t.limits.maxCost || i.slippage > t.limits.maxSlippage
                 case YieldOptimisation(i) =>
                   forall v | v in i.venues :: !Good(t.limits, i, Y.RowOf(m.growth, i, v))
                 case HealthMonitoring(i) =>
                   var required := H.HealthMetrics(i).required;
                   required == 0.0 || required > i.available || i.cost > t.limits.maxCost
  {
    hide G.GridMetrics, H.HealthMetrics, LpRange, Y.Ranking, Y.RowOf, H.ValidHealth, Good, IsRoot, G.IsRatio;
    match t.inputs
    case Rebalancing(_) =>
    case GridTrading(_) =>
    case YieldOptimisation(i) => ReferenceRoutesToBest(m, t.limits, i);
    case HealthMonitoring(i) =>
      H.RequiredRepayIsLeast(i);
      TargetAboveOne(i);
      Sufficient(i);
  }

  /** MAIN RESULT. What is accepted keeps the limits of the task: an action is within the cost and slippage caps, a hold
      leaves no position out of range and no loan below its target. */
  lemma AcceptedWithinLimits(m: Powers, t: Task, p: Proposal, now: int)
    requires Sound(m) && ValidTask(t) && ReferencePlan(m, t).Some? && Accepted(m, t, p, now)
    ensures match t.inputs
            case Rebalancing(i) =>
              if p.action == Hold then i.oldLower <= i.tick && i.tick < i.oldUpper
              else !(i.oldLower <= i.tick && i.tick < i.oldUpper)
                   && i.cost <= t.limits.maxCost && i.slippage <= t.limits.maxSlippage
            case GridTrading(i) =>
              var g := G.GridMetrics(i, m.ratio(i));
              p.action == Hold || (g.net > 0.0 && g.cost <= t.limits.maxCost && i.slippage <= t.limits.maxSlippage)
            case YieldOptimisation(i) =>
              p.action == Hold
              || exists v :: v in i.venues && v.migration <= t.limits.maxCost && i.capital <= v.capacity
            case HealthMonitoring(i) =>
              if p.action == Hold then H.HealthMetrics(i).required == 0.0 else i.cost <= t.limits.maxCost
  {
    hide G.GridMetrics, H.HealthMetrics, LpRange, H.ValidHealth, IsRoot, G.IsRatio, ReferencePlan, Close, Number;
  }
}
