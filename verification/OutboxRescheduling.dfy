/**
 * The arithmetic of `rescheduleOverdueItems`: placing the overdue peers of an
 * accepted transaction, in expiry order, strictly after the observed height and
 * strictly before their own expiries, whatever delays the sampler draws.
 */
module OutboxRescheduling {
  import opened Common

  /** `sampleDelay` draws any number and clamps it to 1..maxBlocks. */
  function SampleDelay(drawn: U64, maxBlocks: U64): (delay: U64)
    requires maxBlocks > 0
    ensures 1 <= delay <= maxBlocks
  {
    Min(Max(1, drawn), maxBlocks)
  }

  predicate SortedHeights(heights: seq<U64>) {
    forall i, j :: 0 <= i < j < |heights| ==> heights[i] <= heights[j]
  }

  /**
   * Blocks elapsed after placing the first of `count` peers, which must leave
   * room for the others before its own expiry; `None` for `invalidSchedule`.
   */
  function NextElapsed(expiry: U64, count: nat, height: U64, maxBlocks: U64, draw: U64, elapsed: U64)
    : (r: Option<U64>)
    requires maxBlocks > 0 && count > 0
  {
    var remaining := count - 1;
    if expiry <= remaining + 1 then None
    else
      var latest: U64 := expiry - remaining - 1;
      var current := SaturatingAdd(height, elapsed);
      if latest <= current then None
      else Some(SaturatingAdd(elapsed, SampleDelay(draw, Min(maxBlocks, latest - current))))
  }

  /** The heights given to the peers with these expiries, or `None` for `invalidSchedule`. */
  function Plan(expiries: seq<U64>, height: U64, maxBlocks: U64, draws: seq<U64>, elapsed: U64)
    : (plan: Option<seq<U64>>)
    requires maxBlocks > 0
    requires |draws| >= |expiries|
    ensures plan.Some? ==> |plan.value| == |expiries|
  {
    if expiries == [] then Some([])
    else
      match NextElapsed(expiries[0], |expiries|, height, maxBlocks, draws[0], elapsed)
      case None => None
      case Some(elapsed') =>
        match Plan(expiries[1..], height, maxBlocks, draws[1..], elapsed')
        case None => None
        case Some(rest) => Some([SaturatingAdd(height, elapsed')] + rest)
  }

  lemma NextElapsedExact(expiry: U64, count: nat, height: U64, maxBlocks: U64, draw: U64, elapsed: U64)
    requires maxBlocks > 0 && count > 0
    requires height + elapsed < TWO_64
    ensures var r := NextElapsed(expiry, count, height, maxBlocks, draw, elapsed);
            && (r.Some? <==> height + elapsed + count < expiry)
            && (r.Some? ==> elapsed < r.value <= elapsed + maxBlocks && height + r.value + count <= expiry)
  {
  }

  /** One run of `n` peers fits behind `height` exactly when the least expiry leaves room for all of them. */
  predicate Fits(expiries: seq<U64>, height: int) {
    expiries == [] || height + |expiries| < expiries[0]
  }

  lemma {:induction false} PlanExact(
    expiries: seq<U64>, height: U64, maxBlocks: U64, draws: seq<U64>, elapsed: U64)
    requires SortedHeights(expiries)
    requires maxBlocks > 0 && |draws| >= |expiries|
    requires height + elapsed < TWO_64
    ensures Plan(expiries, height, maxBlocks, draws, elapsed).Some?
            <==> Fits(expiries, height + elapsed)
  {
    if expiries != [] {
      NextElapsedExact(expiries[0], |expiries|, height, maxBlocks, draws[0], elapsed);
      var next := NextElapsed(expiries[0], |expiries|, height, maxBlocks, draws[0], elapsed);
      if next.Some? {
        PlanExact(expiries[1..], height, maxBlocks, draws[1..], next.value);
      }
    }
  }

  /** What a plan promises about the peers, in expiry order. */
  ghost predicate GoodPlan(expiries: seq<U64>, start: int, maxBlocks: U64, plan: seq<U64>)
    requires |plan| == |expiries|
  {
    && (forall i :: 0 <= i < |plan| ==> start < plan[i] < expiries[i])
    && (forall i, j :: 0 <= i < j < |plan| ==> plan[i] < plan[j])
    && (plan != [] ==> plan[0] - start <= maxBlocks)
    && (forall i, j :: 0 <= i < j < |plan| && j == i + 1 ==> plan[j] - plan[i] <= maxBlocks)
  }

  lemma GoodPlanNone(start: int, maxBlocks: U64)
    ensures GoodPlan([], start, maxBlocks, [])
  {
  }

  /** Placing one more peer in front of a good plan. */
  lemma GoodPlanCons(expiries: seq<U64>, start: int, first: U64, maxBlocks: U64, rest: seq<U64>)
    requires expiries != [] && |rest| == |expiries| - 1
    requires start < first < expiries[0] && first - start <= maxBlocks
    requires GoodPlan(expiries[1..], first, maxBlocks, rest)
    ensures GoodPlan(expiries, start, maxBlocks, [first] + rest)
  {
    var plan := [first] + rest;
    assert forall i :: 1 <= i < |plan| ==> plan[i] == rest[i - 1] && expiries[i] == expiries[1..][i - 1];
  }

  lemma {:induction false} PlanIsGood(
    expiries: seq<U64>, height: U64, maxBlocks: U64, draws: seq<U64>, elapsed: U64)
    requires SortedHeights(expiries)
    requires maxBlocks > 0 && |draws| >= |expiries|
    requires height + elapsed < TWO_64
    requires Fits(expiries, height + elapsed)
    ensures var plan := Plan(expiries, height, maxBlocks, draws, elapsed);
            plan.Some? && GoodPlan(expiries, height + elapsed, maxBlocks, plan.value)
  {
    hide GoodPlan;
    if expiries == [] {
      GoodPlanNone(height + elapsed, maxBlocks);
    } else {
      NextElapsedExact(expiries[0], |expiries|, height, maxBlocks, draws[0], elapsed);
      var elapsed' := NextElapsed(expiries[0], |expiries|, height, maxBlocks, draws[0], elapsed).value;
      PlanIsGood(expiries[1..], height, maxBlocks, draws[1..], elapsed');
      var rest := Plan(expiries[1..], height, maxBlocks, draws[1..], elapsed').value;
      GoodPlanCons(expiries, height + elapsed, height + elapsed', maxBlocks, rest);
    }
  }

  /**
   * The rescheduling theorem. Whether `n` overdue peers can be rescheduled at
   * `height` does not depend on the draws: with least expiry `e`, every draw
   * succeeds when `height + n < e`, and every draw fails otherwise.
   */
  lemma ReschedulingSucceedsExactly(expiries: seq<U64>, height: U64, maxBlocks: U64, draws: seq<U64>)
    requires SortedHeights(expiries)
    requires maxBlocks > 0 && |draws| >= |expiries|
    ensures Plan(expiries, height, maxBlocks, draws, 0).Some?
            <==> (expiries == [] || height + |expiries| < expiries[0])
    ensures Plan(expiries, height, maxBlocks, draws, 0).Some? ==>
              GoodPlan(expiries, height, maxBlocks, Plan(expiries, height, maxBlocks, draws, 0).value)
  {
    PlanExact(expiries, height, maxBlocks, draws, 0);
    if Fits(expiries, height) {
      PlanIsGood(expiries, height, maxBlocks, draws, 0);
    }
  }

  // ----- Which plans come out

  /** Heights that rise by steps of at most the cadence and each leave room for the peers still to come. */
  predicate Admissible(expiries: seq<U64>, start: int, maxBlocks: U64, plan: seq<U64>) {
    && |plan| == |expiries|
    && (plan != [] ==>
          && start < plan[0] <= start + maxBlocks && plan[0] + |plan| - 1 < expiries[0]
          && Admissible(expiries[1..], plan[0], maxBlocks, plan[1..]))
  }

  /** The steps of a plan. */
  function Steps(expiries: seq<U64>, start: U64, maxBlocks: U64, plan: seq<U64>): (draws: seq<U64>)
    requires Admissible(expiries, start, maxBlocks, plan)
    ensures |draws| == |plan|
  {
    if plan == [] then [] else [plan[0] - start] + Steps(expiries[1..], plan[0], maxBlocks, plan[1..])
  }

  /** Draws that are the steps of an admissible plan are followed to the block. */
  lemma {:induction false} DrawsAreFollowed(expiries: seq<U64>, height: U64, maxBlocks: U64, plan: seq<U64>,
                                            elapsed: U64)
    requires maxBlocks > 0 && height + elapsed < TWO_64
    requires Admissible(expiries, height + elapsed, maxBlocks, plan)
    ensures Plan(expiries, height, maxBlocks, Steps(expiries, height + elapsed, maxBlocks, plan), elapsed)
            == Some(plan)
  {
    if plan != [] {
      var draws := Steps(expiries, height + elapsed, maxBlocks, plan);
      var elapsed' := plan[0] - height;
      assert NextElapsed(expiries[0], |expiries|, height, maxBlocks, draws[0], elapsed) == Some(elapsed');
      DrawsAreFollowed(expiries[1..], height, maxBlocks, plan[1..], elapsed');
      assert draws[1..] == Steps(expiries[1..], plan[0], maxBlocks, plan[1..]);
      assert Plan(expiries[1..], height, maxBlocks, draws[1..], elapsed') == Some(plan[1..]);
      assert SaturatingAdd(height, elapsed') == plan[0] && plan == [plan[0]] + plan[1..];
    }
  }

  lemma {:induction false} PlanIsAdmissible(expiries: seq<U64>, height: U64, maxBlocks: U64, draws: seq<U64>,
                                            elapsed: U64)
    requires maxBlocks > 0 && |draws| >= |expiries| && height + elapsed < TWO_64
    ensures var plan := Plan(expiries, height, maxBlocks, draws, elapsed);
            plan.Some? ==> Admissible(expiries, height + elapsed, maxBlocks, plan.value)
  {
    if expiries != [] {
      NextElapsedExact(expiries[0], |expiries|, height, maxBlocks, draws[0], elapsed);
      var next := NextElapsed(expiries[0], |expiries|, height, maxBlocks, draws[0], elapsed);
      if next.Some? {
        PlanIsAdmissible(expiries[1..], height, maxBlocks, draws[1..], next.value);
      }
    }
  }

  /** Every schedule can come out that keeps to the cadence and leaves room, and no other: the draws decide alone. */
  lemma PlansComeOutExactly(expiries: seq<U64>, height: U64, maxBlocks: U64, plan: seq<U64>)
    requires maxBlocks > 0
    ensures (exists draws: seq<U64> ::
               |draws| >= |expiries| && Plan(expiries, height, maxBlocks, draws, 0) == Some(plan))
            <==> Admissible(expiries, height, maxBlocks, plan)
  {
    if Admissible(expiries, height, maxBlocks, plan) {
      DrawsAreFollowed(expiries, height, maxBlocks, plan, 0);
    }
    if draws: seq<U64> :| |draws| >= |expiries| && Plan(expiries, height, maxBlocks, draws, 0) == Some(plan) {
      PlanIsAdmissible(expiries, height, maxBlocks, draws, 0);
    }
  }

  // ----- The check made before broadcasting

  /** The loop of `validateReschedulingAfterAcceptance` over the sorted expiries. */
  predicate Preflight(expiries: seq<U64>, nextHeight: U64) {
    expiries == []
    || (nextHeight + 1 < TWO_64 && nextHeight + 1 < expiries[0] && Preflight(expiries[1..], nextHeight + 1))
  }

  lemma {:induction false} PreflightExact(expiries: seq<U64>, height: U64)
    ensures Preflight(expiries, height)
            <==> forall i :: 0 <= i < |expiries| ==> height + i + 1 < expiries[i]
  {
    if expiries != [] && height + 1 < TWO_64 {
      var tail := expiries[1..];
      PreflightExact(tail, height + 1);
      if forall i :: 0 <= i < |expiries| ==> height + i + 1 < expiries[i] {
        assert forall i :: 0 <= i < |tail| ==> height + 1 + i + 1 < tail[i];
      } else {
        var i :| 0 <= i < |expiries| && !(height + i + 1 < expiries[i]);
        assert i > 0 ==> expiries[i] == tail[i - 1];
      }
    } else if expiries != [] {
      assert !(height + 0 + 1 < expiries[0]);
    }
  }

  /** The check is necessary: peers that can be rescheduled always pass it. */
  lemma FitsImpliesPreflight(expiries: seq<U64>, height: U64)
    requires SortedHeights(expiries)
    requires Fits(expiries, height)
    ensures Preflight(expiries, height)
  {
    PreflightExact(expiries, height);
  }

  /** With one common expiry the check is also sufficient. */
  lemma PreflightExactForCommonExpiry(expiries: seq<U64>, height: U64)
    requires forall i, j :: 0 <= i < |expiries| && 0 <= j < |expiries| ==> expiries[i] == expiries[j]
    ensures Preflight(expiries, height) <==> Fits(expiries, height)
  {
    PreflightExact(expiries, height);
    if expiries != [] {
      var last := |expiries| - 1;
      assert expiries[last] == expiries[0];
    }
  }

  /** With different expiries it is not: three peers may pass the check and still not fit. */
  lemma PreflightTooWeakForMixedExpiries()
    ensures exists expiries: seq<U64>, height: U64 ::
              SortedHeights(expiries) && Preflight(expiries, height) && !Fits(expiries, height)
  {
    var expiries: seq<U64> := [102, 200, 200];
    var height: U64 := 100;
    PreflightExact(expiries, height);
    assert SortedHeights(expiries) && Preflight(expiries, height) && !Fits(expiries, height);
  }
}
