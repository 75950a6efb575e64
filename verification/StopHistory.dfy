/** A trailing stop in closed form, over everything an open position has seen: shared by both engines. */
module StopHistory {
  import opened Market
  import opened Options
  import opened Reals

  /** The parts of a position that never change. */
  datatype Trade = Trade(side: Side, entryPrice: real, initialStop: real)

  function TradeOf(p: Position): Trade { Trade(p.side, p.entryPrice, p.initialStop) }

  /** How the stop trails; without an activation every evaluation is active. */
  datatype Trail = Trail(distance: real, activation: Option<real>)

  // ----- the water mark -----

  /** What a step offers: its high to a long, its low to a short. */
  function FavourableOf(t: Trade, seen: Observation): real {
    match t.side case Long => seen.high case Short => seen.low
  }

  /** The extreme price in the position's favour: of the entry and the first `k` steps. */
  ghost predicate IsWater(t: Trade, held: seq<Observation>, k: nat, water: real)
    requires k <= |held|
  {
    && NoWorse(t.side, water, t.entryPrice)
    && (forall j :: 0 <= j < k ==> NoWorse(t.side, water, FavourableOf(t, held[j])))
    && (water == t.entryPrice || exists j :: 0 <= j < k && water == FavourableOf(t, held[j]))
  }

  /** The same as a fold. */
  function WaterAfter(t: Trade, held: seq<Observation>, k: nat): real
    requires k <= |held|
  {
    if k == 0 then t.entryPrice else Better(t.side, WaterAfter(t, held, k - 1), FavourableOf(t, held[k - 1]))
  }

  lemma {:induction false} FoldIsWater(t: Trade, held: seq<Observation>, k: nat)
    requires k <= |held|
    ensures IsWater(t, held, k, WaterAfter(t, held, k))
  {
    if k > 0 {
      FoldIsWater(t, held, k - 1);
      var before := WaterAfter(t, held, k - 1);
      if WaterAfter(t, held, k) == before && before != t.entryPrice {
        var j :| 0 <= j < k - 1 && before == FavourableOf(t, held[j]);
      }
    }
  }

  lemma {:induction false} WaterPrefix(t: Trade, held: seq<Observation>, seen: Observation, k: nat)
    requires k <= |held|
    ensures WaterAfter(t, held + [seen], k) == WaterAfter(t, held, k)
  {
    if k > 0 {
      WaterPrefix(t, held, seen, k - 1);
    }
  }

  // ----- the stop -----

  /** How far a water mark is ahead of the entry. */
  function Ahead(t: Trade, water: real): real {
    match t.side case Long => water - t.entryPrice case Short => t.entryPrice - water
  }

  /** The trail is evaluated where it may move and the water mark is the activation ahead, in ATR;
      without an ATR nothing is ahead. */
  predicate Active(t: Trade, rule: Trail, water: real, seen: Observation) {
    && seen.trailAllowed
    && (rule.activation.Some? ==>
          if seen.atr > 0.0 then Ahead(t, water) >= rule.activation.value * seen.atr else rule.activation.value <= 0.0)
  }

  /** The distance behind the water mark: below it for a long, above it for a short. */
  function Candidate(t: Trade, rule: Trail, water: real, seen: Observation): real {
    match t.side
    case Long => water - rule.distance * seen.atr
    case Short => water + rule.distance * seen.atr
  }

  /** The engines measure the profit in ATR by dividing. */
  lemma ProfitIsAhead(t: Trade, water: real, atr: real, activation: real)
    ensures ProfitAtr(t.side, t.entryPrice, water, atr) >= activation <==>
      if atr > 0.0 then Ahead(t, water) >= activation * atr else activation <= 0.0
  {
    if atr > 0.0 {
      ShareAtLeast(Ahead(t, water), atr, activation);
    }
  }

  /** One evaluation of the trail. */
  function Evaluated(t: Trade, rule: Trail, water: real, seen: Observation, stop: real): real {
    if Active(t, rule, water, seen) then Better(t.side, stop, Candidate(t, rule, water, seen)) else stop
  }

  /** Every step evaluates the trail twice, at the water mark before it and at the one after it:
      evaluation `e` is the one before (even) or after (odd) step `e / 2`. */
  function WaterAt(t: Trade, held: seq<Observation>, e: nat): real
    requires e < 2 * |held|
  {
    WaterAfter(t, held, e / 2 + e % 2)
  }

  predicate Counts(t: Trade, rule: Trail, held: seq<Observation>, e: nat)
    requires e < 2 * |held|
  {
    Active(t, rule, WaterAt(t, held, e), held[e / 2])
  }

  function CandidateAt(t: Trade, rule: Trail, held: seq<Observation>, e: nat): real
    requires e < 2 * |held|
  {
    Candidate(t, rule, WaterAt(t, held, e), held[e / 2])
  }

  /** `stop` is the best of the initial stop and the candidates of the first `n` evaluations that
      count: none is better, and it is one of them. */
  ghost predicate IsBest(t: Trade, rule: Trail, held: seq<Observation>, n: nat, stop: real)
    requires n <= 2 * |held|
  {
    && NoWorse(t.side, stop, t.initialStop)
    && (forall e :: 0 <= e < n && Counts(t, rule, held, e) ==> NoWorse(t.side, stop, CandidateAt(t, rule, held, e)))
    && (stop == t.initialStop ||
        exists e :: 0 <= e < n && Counts(t, rule, held, e) && stop == CandidateAt(t, rule, held, e))
  }

  lemma NothingHeld(t: Trade, rule: Trail)
    ensures IsBest(t, rule, [], 0, t.initialStop) && WaterAfter(t, [], 0) == t.entryPrice
  {}

  lemma EvaluationsStay(t: Trade, rule: Trail, held: seq<Observation>, seen: Observation, e: nat)
    requires e < 2 * |held|
    ensures Counts(t, rule, held + [seen], e) == Counts(t, rule, held, e)
    ensures CandidateAt(t, rule, held + [seen], e) == CandidateAt(t, rule, held, e)
  {
    hide Active, Candidate, WaterAfter;
    WaterPrefix(t, held, seen, e / 2 + e % 2);
  }

  lemma BestStays(t: Trade, rule: Trail, held: seq<Observation>, seen: Observation, stop: real)
    requires IsBest(t, rule, held, 2 * |held|, stop)
    ensures IsBest(t, rule, held + [seen], 2 * |held|, stop)
  {
    hide Counts, CandidateAt;
    forall e | 0 <= e < 2 * |held|
      ensures Counts(t, rule, held + [seen], e) == Counts(t, rule, held, e)
      ensures CandidateAt(t, rule, held + [seen], e) == CandidateAt(t, rule, held, e)
    {
      EvaluationsStay(t, rule, held, seen, e);
    }
    if stop != t.initialStop {
      var e :| 0 <= e < 2 * |held| && Counts(t, rule, held, e) && stop == CandidateAt(t, rule, held, e);
      assert Counts(t, rule, held + [seen], e);
    }
  }

  /** One more evaluation takes the better of the stop and its candidate, if it counts. */
  lemma BestGrows(t: Trade, rule: Trail, held: seq<Observation>, n: nat, stop: real)
    requires n < 2 * |held| && IsBest(t, rule, held, n, stop)
    ensures IsBest(t, rule, held, n + 1, Evaluated(t, rule, WaterAt(t, held, n), held[n / 2], stop))
  {
    hide Active, Candidate, WaterAt;
    var next := Evaluated(t, rule, WaterAt(t, held, n), held[n / 2], stop);
    assert next == if Counts(t, rule, held, n) then Better(t.side, stop, CandidateAt(t, rule, held, n)) else stop;
    if next != t.initialStop && next == stop {
      var e :| 0 <= e < n && Counts(t, rule, held, e) && stop == CandidateAt(t, rule, held, e);
    }
  }

  /** A step evaluates at the water mark before it: after that the stop is the best so far. */
  lemma FirstEvaluation(t: Trade, rule: Trail, held: seq<Observation>, seen: Observation, stop: real)
    requires IsBest(t, rule, held, 2 * |held|, stop)
    ensures IsBest(t, rule, held + [seen], 2 * |held| + 1, Evaluated(t, rule, WaterAfter(t, held, |held|), seen, stop))
  {
    hide IsBest, Evaluated, WaterAfter;
    BestStays(t, rule, held, seen, stop);
    BestGrows(t, rule, held + [seen], 2 * |held|, stop);
    WaterPrefix(t, held, seen, |held|);
  }

  /** And then at the water mark after it. */
  lemma SecondEvaluation(t: Trade, rule: Trail, held: seq<Observation>, seen: Observation, stop: real)
    requires IsBest(t, rule, held + [seen], 2 * |held| + 1, stop)
    ensures var water := Better(t.side, WaterAfter(t, held, |held|), FavourableOf(t, seen));
      && WaterAfter(t, held + [seen], |held| + 1) == water
      && IsBest(t, rule, held + [seen], 2 * |held| + 2, Evaluated(t, rule, water, seen, stop))
  {
    hide IsBest, Evaluated;
    BestGrows(t, rule, held + [seen], 2 * |held| + 1, stop);
    WaterPrefix(t, held, seen, |held|);
  }
}
