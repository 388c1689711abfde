# Discrete probability helpers and the makeBet scoring loop

This project models two pieces of a small probability and decision-theory
teaching toolkit in Dafny and proves their properties.

- `probability.dfy`, module `ProbabilityExample`, models the vector helpers of
  `problem_solving_example.py`. A distribution is a vector `P` of reals. An
  event is a 0/1 indicator vector. A utility is one payoff per outcome.
  `IsProb` checks a distribution with max, min and sum. `ProbEvent` is the dot
  product `P.E`. `ConditionalProb` is `P.(E*C) / P.C`. `Utility` is `P.u`.
  `Decide` stacks the utility vectors, multiplies them by `P` and takes the
  numpy `argmax`. The empty vector, a zero denominator and vectors of unequal
  length are preconditions, because numpy raises or divides by zero there.
- `betting.dfy`, module `BettingHarness`, models the makeBet scoring block of
  `problem_solving_tester.py`. It plays 10000 runs. Each run picks a regime
  (heads probability 0.7 or 0.4) from one coin draw, resets its state, and
  plays 100 rounds. Each round writes fresh odds into the odds dictionary,
  asks the strategy for a bet and a new state, draws the outcome and settles
  the bet. The pseudo-random draws are inputs (`RunDraws`, `RoundDraws`), in
  the order the harness itself consumes them. A strategy that draws random
  numbers of its own would shift this order; such strategies are not
  modelled (see "## Left out"). The strategy is a pure function value of
  type `Strategy<S>`. `PlayRun` and `ScoreMakeBet` are the two nested loops,
  proved against the recursive specifications `RunProfit` and `TotalProfit`.

Three facts about the vector helpers shape this model:
- Distributions and events are index-aligned vectors, not dictionaries keyed
  by outcome.
- `conditionalProb` divides `P.(E*C)` by `P.C`. The dictionary-based
  `conditionalProb` at `probability(1).py:34-38` instead divides the
  probability of A alone by that of C. For indicator events the two agree
  whenever A has no mass outside C, in particular when A lies inside C.
- `conditionalProb` has no guard for a zero denominator. It has no `None`
  result, unlike the dictionary version. This model therefore requires a
  non-zero denominator.

All floating-point values are Dafny `real`s, so sums and the `== 1` test are exact.

## Model

| member | source | states |
|---|---|---|
| `ProbabilityExample.Sum` | problem_solving_example.py:8 | `P.sum()`; the sum of non-negative entries is non-negative |
| `ProbabilityExample.Max` | problem_solving_example.py:4 | the result bounds every entry from above and is one of the entries |
| `ProbabilityExample.Min` | problem_solving_example.py:6 | the result bounds every entry from below and is one of the entries |
| `ProbabilityExample.IsProb` | problem_solving_example.py:3-8 | true exactly when every entry lies in [0,1] and the entries sum to 1; a vector with an entry above 1 or below 0 is rejected whatever its sum |
| `ProbabilityExample.DotIsMassOfEvent` | problem_solving_example.py:10-11 | against a 0/1 event, the dot product equals the independently defined sum of `P[i]` over the indices with `E[i] = 1` |
| `ProbabilityExample.DotConstant` | problem_solving_example.py:10-11 | the dot product with a constant vector c is c times the sum of `P` |
| `ProbabilityExample.DotMonotone` | problem_solving_example.py:10-17 | with non-negative weights, a pointwise larger second vector never gives a smaller dot product |
| `ProbabilityExample.DotBetween` | problem_solving_example.py:16-17 | with non-negative weights and every payoff in [lo, hi], the dot product lies between lo and hi times the total mass |
| `ProbabilityExample.ProbEvent` | problem_solving_example.py:3-11 | probEvent `P.E`: for a 0/1 event it is the mass of the selected outcomes; with non-negative P it lies in [0, sum(P)]; under a distribution it lies in [0,1]; the all-ones event gives sum(P) |
| `ProbabilityExample.DotIndicatorBounds` | problem_solving_example.py:10-11 | with non-negative weights, a 0/1 event's dot product lies between 0 and the total mass |
| `ProbabilityExample.ProbEventMonotone` | problem_solving_example.py:10-11 | with non-negative weights, an event contained in another has a probability between 0 and the other's |
| `ProbabilityExample.Hadamard` | problem_solving_example.py:14 | `E * C`: for two 0/1 events it is the 0/1 indicator of their intersection, contained in both |
| `ProbabilityExample.ConditionalProb` | problem_solving_example.py:13-14 | conditionalProb `P.(E*C)/P.C` with a non-zero denominator: for 0/1 events it is the mass of the outcomes in both events over the (non-zero) mass of C; under a distribution it lies in [0,1] |
| `ProbabilityExample.IntersectionRatioBounds` | problem_solving_example.py:13-14 | under a distribution, the mass of `E * C` over the non-zero mass of C lies in [0,1] for 0/1 events |
| `ProbabilityExample.ConditionalProbOfItself` | problem_solving_example.py:13-14 | conditioning an event on itself gives 1 |
| `ProbabilityExample.Utility` | problem_solving_example.py:16-17 | utility `P.u`: under a distribution it lies between the smallest and the largest payoff |
| `ProbabilityExample.DotWithinPayoffs` | problem_solving_example.py:16-17 | under a distribution the dot product with u lies between the smallest and largest entry of u |
| `ProbabilityExample.UtilityOfConstantPayoff` | problem_solving_example.py:16-17 | under a distribution, the expected utility of a constant payoff c is c |
| `ProbabilityExample.UtilityMonotone` | problem_solving_example.py:16-17 | with non-negative weights, a pointwise larger payoff never has a smaller expected utility |
| `ProbabilityExample.DotCommutes` | problem_solving_example.py:17-21 | `u.P` equals `P.u`, so the rows of `U @ P` are the utilities |
| `ProbabilityExample.MatVec` | problem_solving_example.py:20-21 | `np.row_stack(ulist) @ P`: one entry per choice, entry k being `utility(P, ulist[k])` |
| `ProbabilityExample.ArgMax` | problem_solving_example.py:22 | the index of a maximal entry; every earlier entry is strictly smaller (first maximum on ties) |
| `ProbabilityExample.Decide` | problem_solving_example.py:19-23 | returns an index of ulist and its utility; that utility is at least every choice's utility and strictly above every earlier choice's |
| `ProbabilityExample.DemoIsProb` | problem_solving_example.py:27-30 | the demonstration's isProb answers: true for [0.5, 0.4, 0.1], false for [0.5, 0.4, 0.2] |
| `ProbabilityExample.DemoEvents` | problem_solving_example.py:32-35 | the demonstration's probEvent 0.4 and conditionalProb 0.8 (denominator 0.5) |
| `ProbabilityExample.DemoDecide` | problem_solving_example.py:37-43 | the demonstration's utility 1.6 and decide result (0, 1.6) |
| `BettingHarness.Regime` | problem_solving_tester.py:125-128 | the run's heads probability is strictly between 0 and 1, and favours heads exactly when the coin draw is 0 (0.7 against 0.4) |
| `BettingHarness.RoundOutcome` | problem_solving_tester.py:140 | the outcome is "heads" exactly when the draw is below the heads probability; a draw in [0,1) always gives tails at probability 0 and heads at probability 1 |
| `BettingHarness.Settle` | problem_solving_tester.py:140-144 | a bet that neither matches nor is "no bet" loses exactly 1; with odds of at least 1 the change is negative exactly then; with odds in [1,3] it lies in [-1,2], whatever string the strategy bets |
| `BettingHarness.RunProfitBounds` | problem_solving_tester.py:134-144 | with odds in [1,3], n rounds change the profit by an amount in [-n, 2n], for any bets |
| `BettingHarness.NeverBettingBreaksEven` | problem_solving_tester.py:141-144 | a strategy that always answers "no bet" ends every run with profit 0 |
| `BettingHarness.TotalProfitBounds` | problem_solving_tester.py:122-148 | with odds in [1,3], the total over runs of 100 rounds lies in [-100, 200] times the number of runs |
| `BettingHarness.Ceil` | problem_solving_tester.py:151 | the least integer not below x, i.e. `math.ceil` |
| `BettingHarness.PlayRun` | problem_solving_tester.py:125-146 | the profit of a run equals the specification that fixes the regime from the coin (0.7 on 0, else 0.4), starts from no outcome, no state and profit 0, and threads outcome and state from round to round; with odds in [1,3] it lies in [-100, 200] |
| `BettingHarness.ScoreMakeBet` | problem_solving_tester.py:120-152 | the average is the total of the 10000 run profits divided by 10000, and marks is the ceiling of `7 * average / 33.5`; with odds in [1,3] the average lies in [-100, 200] and marks in [-20, 42] |

## Left out

- Floating point: every float is a `real`. Rounding, the fragility of the exact `== 1` test on a float sum, and NaN or infinity from a zero denominator are not modelled.
- `ProbabilityExample.ConditionalProb`: a zero denominator is a precondition. numpy would return NaN or infinity there.
- numpy array mechanics: broadcasting, dtype, and `row_stack` of rows with different lengths are not modelled. Equal lengths are preconditions.
- Pseudo-random generation: `random.seed(0)`, `randint`, `uniform` and `random` are replaced by the draws they return, passed in as `RunDraws`. Reproducing the Mersenne Twister stream is out of scope.
- The strategy `makeBet` is student code loaded at run time. It is modelled as a pure, total function of the odds, the previous outcome and the state the harness passes back, so the model does not capture three kinds of strategy:
  - a strategy that keeps module-level state across calls or across runs (the harness resets only `state`, and the tester's closing note warns about exactly such variables);
  - a strategy that calls `random` itself, shifting every later draw;
  - a strategy that raises, which the source catches and reports.
- `BettingHarness.PlayRun` and `BettingHarness.ScoreMakeBet` equate a run's profit with `FreshRunProfit` and the total with a sum of such run profits. This treats runs as independent, which holds only for the strategies above that keep no state of their own. The bounds do not depend on this: every round changes the profit by an amount in [-1, 2] whatever the bet, so [-100, 200] per run and for the average hold for any sequence of bets.
- Printing, command-line checking, module loading, and the `try`/`except` reporting of the tester are I/O.
- The censor and fertiliser test drivers of the tester only call student code and print results.
- `problem_solving.py` is not part of this model. It does not parse, and its functions wrap regex and matrix-inverse library calls.
- `probability(1).py` is not part of this model. Its dictionary-based distributions, marginal likelihood and posterior are a separate library.
