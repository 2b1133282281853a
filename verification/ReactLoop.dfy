/**
 The tool loop of a turn: the planner picks a goal it has not tried, the selector maps it to a tool,
 the executor runs the tool and asks for another round, up to a configured number of rounds.
 */
module ReactLoop {
  import opened Sums

  datatype Goal = Done | CrossSellLookup | OfferLookup | CampaignScan

  datatype Tool = CrossSell | Offers | Campaigns

  /** The `react_*` fields of the session state. */
  datatype React = React(
    scratchpad: seq<Goal>,
    goal: Goal,
    selected: seq<Tool>,
    count: nat,
    capped: bool,
    again: bool)

  /** The planner sees whether an item is unavailable and whether any line names a catalog item. */
  function Plan(unavailable: bool, resolved: bool, attempted: seq<Goal>): Goal
  {
    if unavailable && CrossSellLookup !in attempted then CrossSellLookup
    else if resolved && OfferLookup !in attempted then OfferLookup
    else if resolved && CampaignScan !in attempted then CampaignScan
    else Done
  }

  function Select(goal: Goal): seq<Tool>
  {
    match goal
    case OfferLookup => [Offers]
    case CampaignScan => [Campaigns]
    case CrossSellLookup => [CrossSell]
    case Done => []
  }

  function Execute(r: React, loopMax: int): React
  {
    if r.count >= Max(1, loopMax) then r.(capped := true, selected := [], again := false)
    else if r.selected == [] then r.(count := r.count + 1, again := false)
    else r.(count := r.count + 1, again := true, selected := [])
  }

  const RESET := React([], Done, [], 0, false, false)

  // ---------- what the loop amounts to ----------

  /** The goals there is anything to look up for, in the planner's order. */
  function Applicable(unavailable: bool, resolved: bool): (goals: seq<Goal>)
    ensures |goals| <= 3 && Done !in goals
    ensures forall j, k :: 0 <= j < k < |goals| ==> goals[j] != goals[k]
  {
    (if unavailable then [CrossSellLookup] else []) + if resolved then [OfferLookup, CampaignScan] else []
  }

  /** The planner walks through the applicable goals and then has nothing left. */
  lemma PlansInOrder(unavailable: bool, resolved: bool, n: nat)
    requires n <= |Applicable(unavailable, resolved)|
    ensures Plan(unavailable, resolved, Applicable(unavailable, resolved)[..n]) == NextGoal(Applicable(unavailable, resolved), n)
  {
    var goals := Applicable(unavailable, resolved);
    if n == 0 {
      assert goals[..n] == [];
    } else if n == 1 {
      assert goals[..n] == [goals[0]];
    } else if n == 2 {
      assert goals[..n] == [goals[0], goals[1]];
    } else {
      assert goals[..n] == [goals[0], goals[1], goals[2]];
    }
  }

  function NextGoal(goals: seq<Goal>, n: nat): Goal
  {
    if n < |goals| then goals[n] else Done
  }

  /** The tool rounds the configuration leaves for these goals. */
  function Rounds(goals: seq<Goal>, loopMax: int): nat
  {
    if |goals| <= Max(1, loopMax) then |goals| else Max(1, loopMax)
  }

  function ToolFor(goal: Goal): Tool
  {
    if goal.CrossSellLookup? then CrossSell else if goal.OfferLookup? then Offers else Campaigns
  }

  /** The tools of the first `n` goals ran, in order. */
  ghost predicate Ran(goals: seq<Goal>, tools: seq<Tool>, n: nat)
  {
    |tools| == n <= |goals| && forall k :: 0 <= k < n ==> tools[k] == ToolFor(goals[k])
  }

  /** `n` goals have been planned and their tools run. */
  ghost predicate Tried(goals: seq<Goal>, scratchpad: seq<Goal>, tools: seq<Tool>, n: nat)
  {
    n <= |goals| && scratchpad == goals[..n] && Ran(goals, tools, n)
  }

  ghost predicate Finished(goals: seq<Goal>, loopMax: int, r: React, tools: seq<Tool>, visits: nat)
  {
    var n := Rounds(goals, loopMax);
    && !r.again && r.selected == [] && visits == n + 1
    && r.capped == (|goals| >= Max(1, loopMax))
    && r.scratchpad == goals[..n] + [NextGoal(goals, n)] && Ran(goals, tools, n)
  }

  lemma RoundRunsTool(goals: seq<Goal>, loopMax: int, r: React, tools: seq<Tool>)
    requires Done !in goals && Tried(goals, r.scratchpad, tools, r.count)
    requires r.count < Max(1, loopMax) && r.count < |goals|
    ensures var goal := NextGoal(goals, r.count);
            Select(goal) == [ToolFor(goal)] && Tried(goals, r.scratchpad + [goal], tools + [ToolFor(goal)], r.count + 1)
  {
    assert goals[..r.count + 1] == goals[..r.count] + [goals[r.count]];
    assert goals[r.count] in goals;
  }

  lemma RoundEnds(goals: seq<Goal>, loopMax: int, r: React, tools: seq<Tool>)
    requires Tried(goals, r.scratchpad, tools, r.count) && !r.capped && r.count <= Max(1, loopMax)
    requires r.count == Max(1, loopMax) || r.count == |goals|
    ensures var goal := NextGoal(goals, r.count);
            Finished(goals, loopMax, Execute(r.(goal := goal, scratchpad := r.scratchpad + [goal], selected := Select(goal)), loopMax),
                     tools, r.count + 1)
  {
    assert r.count == Rounds(goals, loopMax);
  }

  /** Cross-sells for what has run out, then offers and campaigns for what is identified, as far as the rounds go. */
  predicate InTurn(unavailable: bool, resolved: bool, loopMax: int, tools: seq<Tool>)
  {
    var all := (if unavailable then [CrossSell] else []) + if resolved then [Offers, Campaigns] else [];
    tools <= all && |tools| == if |all| <= Max(1, loopMax) then |all| else Max(1, loopMax)
  }

  lemma FinishedMeans(unavailable: bool, resolved: bool, loopMax: int, r: React, tools: seq<Tool>, visits: nat)
    requires Finished(Applicable(unavailable, resolved), loopMax, r, tools, visits)
    ensures visits <= 4 && visits <= Max(1, loopMax) + 1
    ensures !unavailable ==> visits <= 3 && CrossSell !in tools
    ensures InTurn(unavailable, resolved, loopMax, tools)
    ensures forall j, k :: 0 <= j < k < |r.scratchpad| ==> r.scratchpad[j] != r.scratchpad[k]
  {
    var goals := Applicable(unavailable, resolved);
    if !unavailable {
      forall k | 0 <= k < |tools| ensures tools[k] != CrossSell {
        assert tools[k] == ToolFor(goals[k]);
      }
    }
    forall j, k | 0 <= j < k < |r.scratchpad| ensures r.scratchpad[j] != r.scratchpad[k] {
      assert r.scratchpad[j] == goals[j] && goals[j] in goals;
      assert k < |goals| ==> r.scratchpad[k] == goals[k];
    }
  }

  /**
   The loop from `react_planner` back to it.  Each applicable goal is planned once, in order, as long
   as rounds are left, and no goal is planned twice; the executor is visited once more than it runs a tool, so at most four times
   and at most once more than the configured number of rounds.
   */
  method RunTools(unavailable: bool, resolved: bool, loopMax: int) returns (r: React, tools: seq<Tool>, visits: nat)
    ensures Finished(Applicable(unavailable, resolved), loopMax, r, tools, visits)
    ensures visits <= 4 && visits <= Max(1, loopMax) + 1
    ensures !unavailable ==> visits <= 3 && CrossSell !in tools
    ensures InTurn(unavailable, resolved, loopMax, tools)
    ensures forall j, k :: 0 <= j < k < |r.scratchpad| ==> r.scratchpad[j] != r.scratchpad[k]
  {
    r, tools, visits := RESET, [], 0;
    ghost var goals := Applicable(unavailable, resolved);
    var more := true;
    while more
      invariant more ==> Tried(goals, r.scratchpad, tools, r.count) && !r.capped && r.count <= Max(1, loopMax)
      invariant more ==> visits == r.count
      invariant !more ==> Finished(goals, loopMax, r, tools, visits)
      decreases more, Max(1, loopMax) - r.count
    {
      PlansInOrder(unavailable, resolved, r.count);
      var goal := Plan(unavailable, resolved, r.scratchpad);
      if r.count < Max(1, loopMax) && r.count < |goals| {
        RoundRunsTool(goals, loopMax, r, tools);
      } else {
        RoundEnds(goals, loopMax, r, tools);
      }
      var selected := Select(goal);
      r := Execute(r.(goal := goal, scratchpad := r.scratchpad + [goal], selected := selected), loopMax);
      visits := visits + 1;
      more := !r.capped && r.again;
      if more {
        tools := tools + selected;
      }
    }
    FinishedMeans(unavailable, resolved, loopMax, r, tools, visits);
  }
}
