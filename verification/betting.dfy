/**
 * The makeBet scoring loop of problem_solving_tester.py.
 *
 * The harness plays 10000 runs of 100 coin-toss rounds against a betting
 * strategy and averages the profit per run. The pseudo-random draws are
 * inputs here: per run one coin that fixes the regime, then per round the
 * heads odds, the tails odds and the draw that decides the outcome, in that
 * order. The strategy is a pure function value; the harness threads the
 * previous outcome and the strategy's own state from one round into the
 * next, and nothing else carries over from one run to the next.
 */
module BettingHarness {

  datatype Option<T> = None | Some(value: T)

  datatype Outcome = Heads | Tails

  /** The runs the harness plays (the source's `numberOfRounds`). */
  const NumberOfRuns: nat := 10000
  /** The rounds in one run. */
  const RoundsPerRun: nat := 100

  const NoBet: string := "no bet"

  /** The string the source uses for an outcome, also the key of its odds. */
  function Name(o: Outcome): string
  {
    match o
    case Heads => "heads"
    case Tails => "tails"
  }

  /** The draws one round consumes: `uniform(1, 3)` twice, then `random()`. */
  datatype RoundDraws = RoundDraws(headsOdds: real, tailsOdds: real, outcomeDraw: real)

  /** The draws one run consumes: `randint(0, 1)` for the regime, then its rounds. */
  datatype RunDraws = RunDraws(regimeCoin: int, rounds: seq<RoundDraws>)

  /**
   * A betting strategy: given the heads odds, the tails odds, the previous
   * outcome and its own state, it answers a bet and its next state.
   */
  type Strategy<!S> = (real, real, Option<Outcome>, Option<S>) -> (string, Option<S>)

  /** What `uniform(1, 3)` guarantees about the odds of a round. */
  predicate OddsInRange(r: RoundDraws)
  {
    1.0 <= r.headsOdds <= 3.0 && 1.0 <= r.tailsOdds <= 3.0
  }

  predicate AllOddsInRange(rounds: seq<RoundDraws>)
  {
    forall k :: 0 <= k < |rounds| ==> OddsInRange(rounds[k])
  }

  predicate DrawsInRange(runs: seq<RunDraws>)
  {
    forall k :: 0 <= k < |runs| ==> AllOddsInRange(runs[k].rounds)
  }

  /** Every run has exactly the number of rounds the harness plays. */
  predicate WellShaped(runs: seq<RunDraws>)
  {
    forall k :: 0 <= k < |runs| ==> |runs[k].rounds| == RoundsPerRun
  }

  /**
   * The heads probability of a run: 0.7 when the coin shows 0, else 0.4. It
   * is a probability, and heads is favoured exactly when the coin shows 0.
   */
  function Regime(coin: int): (headsprob: real)
    ensures 0.0 < headsprob < 1.0
    ensures headsprob > 0.5 <==> coin == 0
  {
    if coin == 0 then 0.7 else 0.4
  }

  /** A round comes up heads exactly when its draw is below the heads probability. */
  function RoundOutcome(draw: real, headsprob: real): (outcome: Outcome)
    ensures Name(outcome) == "heads" <==> draw < headsprob
    ensures 0.0 <= draw && headsprob <= 0.0 ==> outcome == Tails
    ensures draw < 1.0 && headsprob >= 1.0 ==> outcome == Heads
  {
    if draw < headsprob then Heads else Tails
  }

  /** The stake is lost: the bet is neither the outcome nor "no bet". */
  predicate StakeLost(bet: string, outcome: Outcome)
  {
    bet != Name(outcome) && bet != NoBet
  }

  /**
   * The change of profit in one round: a matching bet wins its odds minus the
   * stake, "no bet" changes nothing, and any other bet loses the stake of 1.
   */
  function Settle(bet: string, outcome: Outcome, headsOdds: real, tailsOdds: real): (delta: real)
    ensures StakeLost(bet, outcome) ==> delta == -1.0
    ensures headsOdds >= 1.0 && tailsOdds >= 1.0 ==> (delta < 0.0 <==> StakeLost(bet, outcome))
    ensures 1.0 <= headsOdds <= 3.0 && 1.0 <= tailsOdds <= 3.0 ==> -1.0 <= delta <= 2.0
  {
    var odds := if outcome == Heads then headsOdds else tailsOdds;
    if bet == Name(outcome) then odds - 1.0
    else if bet != NoBet then -1.0
    else 0.0
  }

  /**
   * The profit the remaining rounds of a run add, given the run's heads
   * probability and the previous outcome and strategy state they start from.
   */
  function RunProfit<S>(headsprob: real, rounds: seq<RoundDraws>, strategy: Strategy<S>,
                        previous: Option<Outcome>, state: Option<S>): real
    decreases |rounds|
  {
    if |rounds| == 0 then 0.0
    else
      var r := rounds[0];
      var (bet, next) := strategy(r.headsOdds, r.tailsOdds, previous, state);
      var outcome := RoundOutcome(r.outcomeDraw, headsprob);
      Settle(bet, outcome, r.headsOdds, r.tailsOdds)
        + RunProfit(headsprob, rounds[1..], strategy, Some(outcome), next)
  }

  /** The profit of one whole run: its regime, no previous outcome, no state. */
  function FreshRunProfit<S>(run: RunDraws, strategy: Strategy<S>): real
  {
    RunProfit(Regime(run.regimeCoin), run.rounds, strategy, None, None)
  }

  /** The total profit over a sequence of runs. */
  function TotalProfit<S>(runs: seq<RunDraws>, strategy: Strategy<S>): real
  {
    if |runs| == 0 then 0.0
    else FreshRunProfit(runs[0], strategy) + TotalProfit(runs[1..], strategy)
  }

  /** `math.ceil` on reals, expressed through `Floor`. */
  function Ceil(x: real): (r: int)
    ensures r as real - 1.0 < x <= r as real
  {
    -((-x).Floor)
  }

  /** Each round changes the profit by at least -1 and at most 2, so n rounds by [-n, 2n]. */
  lemma {:induction false} RunProfitBounds<S>(headsprob: real, rounds: seq<RoundDraws>, strategy: Strategy<S>,
                                                previous: Option<Outcome>, state: Option<S>)
    requires AllOddsInRange(rounds)
    ensures -(|rounds| as real) <= RunProfit(headsprob, rounds, strategy, previous, state) <= 2.0 * |rounds| as real
  {
    if |rounds| > 0 {
      var r := rounds[0];
      var (bet, next) := strategy(r.headsOdds, r.tailsOdds, previous, state);
      var outcome := RoundOutcome(r.outcomeDraw, headsprob);
      assert OddsInRange(rounds[0]);
      assert AllOddsInRange(rounds[1..]) by {
        forall k | 0 <= k < |rounds[1..]| ensures OddsInRange(rounds[1..][k]) {
          assert rounds[1..][k] == rounds[k + 1];
        }
      }
      RunProfitBounds(headsprob, rounds[1..], strategy, Some(outcome), next);
    }
  }

  /** A strategy that never bets neither wins nor loses anything. */
  lemma {:induction false} NeverBettingBreaksEven<S>(headsprob: real, rounds: seq<RoundDraws>, strategy: Strategy<S>,
                                                      previous: Option<Outcome>, state: Option<S>)
    requires forall h, t, p, s :: strategy(h, t, p, s).0 == NoBet
    ensures RunProfit(headsprob, rounds, strategy, previous, state) == 0.0
  {
    if |rounds| > 0 {
      var r := rounds[0];
      var (bet, next) := strategy(r.headsOdds, r.tailsOdds, previous, state);
      var outcome := RoundOutcome(r.outcomeDraw, headsprob);
      NeverBettingBreaksEven(headsprob, rounds[1..], strategy, Some(outcome), next);
    }
  }

  /** Runs of 100 rounds each contribute between -100 and 200 apiece to the total. */
  lemma {:induction false} TotalProfitBounds<S>(runs: seq<RunDraws>, strategy: Strategy<S>)
    requires WellShaped(runs) && DrawsInRange(runs)
    ensures -100.0 * |runs| as real <= TotalProfit(runs, strategy) <= 200.0 * |runs| as real
  {
    if |runs| > 0 {
      RunProfitBounds(Regime(runs[0].regimeCoin), runs[0].rounds, strategy, None, None);
      assert WellShaped(runs[1..]) && DrawsInRange(runs[1..]) by {
        forall k | 0 <= k < |runs[1..]|
          ensures |runs[1..][k].rounds| == RoundsPerRun && AllOddsInRange(runs[1..][k].rounds)
        {
          assert runs[1..][k] == runs[k + 1];
        }
      }
      TotalProfitBounds(runs[1..], strategy);
    }
  }

  /**
   * One run (the body of the outer loop): choose the regime, reset the
   * previous outcome, the strategy state and the profit, then play 100
   * rounds, keeping the odds in a dictionary that each round rewrites.
   */
  method PlayRun<S>(run: RunDraws, strategy: Strategy<S>) returns (profit: real)
    requires |run.rounds| == RoundsPerRun
    ensures profit == FreshRunProfit(run, strategy)
    ensures AllOddsInRange(run.rounds) ==> -100.0 <= profit <= 200.0
  {
    ghost var spec := FreshRunProfit(run, strategy);
    var headsprob: real;
    if run.regimeCoin == 0 {
      headsprob := 0.7;
    } else {
      headsprob := 0.4;
    }
    var previousOutcome: Option<Outcome> := None;
    var state: Option<S> := None;
    profit := 0.0;
    var odds: map<string, real> := map[];
    var i := 0;
    while i < RoundsPerRun
      invariant 0 <= i <= RoundsPerRun
      invariant profit + RunProfit(headsprob, run.rounds[i..], strategy, previousOutcome, state) == spec
    {
      var draws := run.rounds[i];
      odds := odds["heads" := draws.headsOdds];
      odds := odds["tails" := draws.tailsOdds];
      var (bet, next) := strategy(odds["heads"], odds["tails"], previousOutcome, state);
      state := next;
      var outcome := RoundOutcome(draws.outcomeDraw, headsprob);
      ghost var delta := Settle(bet, outcome, draws.headsOdds, draws.tailsOdds);
      ghost var before := profit;
      if bet == Name(outcome) {
        profit := profit + odds[bet] - 1.0;
      } else if bet != NoBet {
        profit := profit - 1.0;
      }
      assert profit == before + delta;
      assert run.rounds[i..][1..] == run.rounds[i + 1..];
      previousOutcome := Some(outcome);
      i := i + 1;
    }
    assert run.rounds[RoundsPerRun..] == [];
    if AllOddsInRange(run.rounds) {
      RunProfitBounds(Regime(run.regimeCoin), run.rounds, strategy, None, None);
    }
  }

  /**
   * The scoring block: play every run, add each run's profit to the total,
   * average over the 10000 runs and turn the average into marks.
   */
  method ScoreMakeBet<S>(runs: seq<RunDraws>, strategy: Strategy<S>) returns (averageProfit: real, marks: int)
    requires |runs| == NumberOfRuns && WellShaped(runs)
    ensures averageProfit == TotalProfit(runs, strategy) / NumberOfRuns as real
    ensures marks as real - 1.0 < 7.0 * averageProfit / 33.5 <= marks as real
    ensures DrawsInRange(runs) ==> -100.0 <= averageProfit <= 200.0 && -20 <= marks <= 42
  {
    var totalProfit := 0.0;
    var round := 0;
    while round < NumberOfRuns
      invariant 0 <= round <= NumberOfRuns
      invariant totalProfit + TotalProfit(runs[round..], strategy) == TotalProfit(runs, strategy)
    {
      var profit := PlayRun(runs[round], strategy);
      assert runs[round..][1..] == runs[round + 1..];
      totalProfit := totalProfit + profit;
      round := round + 1;
    }
    assert runs[NumberOfRuns..] == [];
    if DrawsInRange(runs) {
      TotalProfitBounds(runs, strategy);
    }
    averageProfit := totalProfit / NumberOfRuns as real;
    marks := Ceil(7.0 * averageProfit / 33.5);
  }
}
