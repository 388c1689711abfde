/**
 * Discrete probability and decision helpers of problem_solving_example.py.
 *
 * A distribution is a vector P of reals (entry i is the probability of
 * outcome i); an event is a 0/1 indicator vector over the same outcomes; a
 * utility vector gives one payoff per outcome. Every operation of the source
 * is a single numpy expression, so each becomes a function here, and the
 * properties the source relies on are lemmas about those functions.
 */
module ProbabilityExample {

  /** numpy `sum`: the sum of the entries, never negative when no entry is. */
  function Sum(s: seq<real>): (r: real)
    ensures NonNegative(s) ==> 0.0 <= r
  {
    if |s| == 0 then 0.0
    else
      assert NonNegative(s) ==> NonNegative(s[1..]) by {
        if NonNegative(s) {
          forall i | 0 <= i < |s[1..]| ensures 0.0 <= s[1..][i] { assert s[1..][i] == s[i + 1]; }
        }
      }
      s[0] + Sum(s[1..])
  }

  /** numpy `dot` on two vectors of equal length. */
  function Dot(a: seq<real>, b: seq<real>): real
    requires |a| == |b|
  {
    if |a| == 0 then 0.0 else a[0] * b[0] + Dot(a[1..], b[1..])
  }

  /** The vector of length n whose entries are all c. */
  function Constant(n: nat, c: real): (r: seq<real>)
    ensures |r| == n
  {
    seq(n, _ => c)
  }

  /** numpy `max`: the largest entry, which occurs in the vector. */
  function Max(s: seq<real>): (m: real)
    requires |s| > 0
    ensures forall i :: 0 <= i < |s| ==> s[i] <= m
    ensures exists i :: 0 <= i < |s| && s[i] == m
  {
    if |s| == 1 then s[0]
    else
      var rest := Max(s[1..]);
      if s[0] >= rest then s[0] else rest
  }

  /** numpy `min`: the smallest entry, which occurs in the vector. */
  function Min(s: seq<real>): (m: real)
    requires |s| > 0
    ensures forall i :: 0 <= i < |s| ==> m <= s[i]
    ensures exists i :: 0 <= i < |s| && s[i] == m
  {
    if |s| == 1 then s[0]
    else
      var rest := Min(s[1..]);
      if s[0] <= rest then s[0] else rest
  }

  /** Every entry is a probability and the entries sum to exactly 1. */
  predicate IsDistribution(P: seq<real>)
  {
    (forall i :: 0 <= i < |P| ==> 0.0 <= P[i] <= 1.0) && Sum(P) == 1.0
  }

  predicate NonNegative(P: seq<real>)
  {
    forall i :: 0 <= i < |P| ==> 0.0 <= P[i]
  }

  /** An event: every entry is 0 or 1. */
  predicate IsIndicator(E: seq<real>)
  {
    forall i :: 0 <= i < |E| ==> E[i] == 0.0 || E[i] == 1.0
  }

  /**
   * isProb: rejects a vector whose maximum exceeds 1 or whose minimum is
   * negative, and otherwise accepts it exactly when it sums to 1. The empty
   * vector is excluded because numpy's max and min of it raise.
   */
  function IsProb(P: seq<real>): (b: bool)
    requires |P| > 0
    ensures b <==> IsDistribution(P)
  {
    if Max(P) > 1.0 then false
    else if Min(P) < 0.0 then false
    else Sum(P) == 1.0
  }

  /**
   * Reference reading of an event's probability: the total mass of the
   * outcomes that the event selects.
   */
  function MassWhere(P: seq<real>, E: seq<real>): real
    requires |P| == |E|
  {
    if |P| == 0 then 0.0
    else (if E[0] == 1.0 then P[0] else 0.0) + MassWhere(P[1..], E[1..])
  }

  /** Against an indicator, the dot product is the mass of the selected outcomes. */
  lemma {:induction false} DotIsMassOfEvent(P: seq<real>, E: seq<real>)
    requires |P| == |E|
    ensures IsIndicator(E) ==> Dot(P, E) == MassWhere(P, E)
  {
    if |P| > 0 && IsIndicator(E) {
      assert IsIndicator(E[1..]) by {
        forall i | 0 <= i < |E[1..]| ensures E[1..][i] == 0.0 || E[1..][i] == 1.0 {
          assert E[1..][i] == E[i + 1];
        }
      }
      DotIsMassOfEvent(P[1..], E[1..]);
    }
  }

  /** Weighting by a constant payoff scales the total mass. */
  lemma {:induction false} DotConstant(P: seq<real>, c: real)
    ensures Dot(P, Constant(|P|, c)) == c * Sum(P)
  {
    if |P| > 0 {
      assert Constant(|P|, c)[1..] == Constant(|P| - 1, c);
      DotConstant(P[1..], c);
    }
  }

  /**
   * With non-negative weights, the dot product is monotone in the second
   * vector: a pointwise larger vector never gives a smaller product.
   */
  lemma {:induction false} DotMonotone(P: seq<real>, u: seq<real>, v: seq<real>)
    requires |P| == |u| == |v| && NonNegative(P)
    requires forall i :: 0 <= i < |u| ==> u[i] <= v[i]
    ensures Dot(P, u) <= Dot(P, v)
  {
    if |P| > 0 {
      assert NonNegative(P[1..]) by {
        forall i | 0 <= i < |P[1..]| ensures 0.0 <= P[1..][i] { assert P[1..][i] == P[i + 1]; }
      }
      assert forall i :: 0 <= i < |u[1..]| ==> u[1..][i] <= v[1..][i] by {
        forall i | 0 <= i < |u[1..]| ensures u[1..][i] <= v[1..][i] {
          assert u[1..][i] == u[i + 1] && v[1..][i] == v[i + 1];
        }
      }
      DotMonotone(P[1..], u[1..], v[1..]);
      assert P[0] * u[0] <= P[0] * v[0] by {
        assert 0.0 <= P[0] && u[0] <= v[0];
        assert P[0] * (v[0] - u[0]) >= 0.0;
      }
    }
  }

  /** With non-negative weights, every entry of u between lo and hi bounds P.u by lo and hi times the mass. */
  lemma DotBetween(P: seq<real>, u: seq<real>, lo: real, hi: real)
    requires |P| == |u| && NonNegative(P)
    requires forall i :: 0 <= i < |u| ==> lo <= u[i] <= hi
    ensures lo * Sum(P) <= Dot(P, u) <= hi * Sum(P)
  {
    DotMonotone(P, Constant(|P|, lo), u);
    DotMonotone(P, u, Constant(|P|, hi));
    DotConstant(P, lo);
    DotConstant(P, hi);
  }

  /** E is contained in C: every outcome selected by E is selected by C. */
  predicate SubEvent(E: seq<real>, C: seq<real>)
    requires |E| == |C|
  {
    forall i :: 0 <= i < |E| ==> E[i] == 1.0 ==> C[i] == 1.0
  }

  /** For indicators, containment is the pointwise order. */
  lemma SubEventIsPointwise(E: seq<real>, C: seq<real>)
    requires |E| == |C| && IsIndicator(E) && IsIndicator(C) && SubEvent(E, C)
    ensures forall i :: 0 <= i < |E| ==> E[i] <= C[i]
  {
    forall i | 0 <= i < |E| ensures E[i] <= C[i] {
      assert E[i] == 0.0 || E[i] == 1.0;
      assert C[i] == 0.0 || C[i] == 1.0;
    }
  }

  /**
   * probEvent: the probability of event E under P, the dot product P.E. For
   * an indicator event it is the mass of the selected outcomes; with
   * non-negative weights it lies between 0 and the total mass; under a
   * distribution it lies in [0, 1]; the certain event has the total mass.
   */
  function ProbEvent(P: seq<real>, E: seq<real>): (r: real)
    requires |P| == |E|
    ensures IsIndicator(E) ==> r == MassWhere(P, E)
    ensures NonNegative(P) && IsIndicator(E) ==> 0.0 <= r <= Sum(P)
    ensures IsDistribution(P) && IsIndicator(E) ==> 0.0 <= r <= 1.0
    ensures E == Constant(|P|, 1.0) ==> r == Sum(P)
  {
    DotIsMassOfEvent(P, E);
    DotIndicatorBounds(P, E);
    DotConstant(P, 1.0);
    Dot(P, E)
  }

  /** With non-negative weights, an indicator selects between none and all of the mass. */
  lemma DotIndicatorBounds(P: seq<real>, E: seq<real>)
    requires |P| == |E|
    ensures NonNegative(P) && IsIndicator(E) ==> 0.0 <= Dot(P, E) <= Sum(P)
  {
    if NonNegative(P) && IsIndicator(E) {
      DotConstant(P, 0.0);
      DotConstant(P, 1.0);
      DotMonotone(P, Constant(|P|, 0.0), E);
      DotMonotone(P, E, Constant(|P|, 1.0));
    }
  }

  /** With non-negative weights, a smaller event never has a larger probability. */
  lemma ProbEventMonotone(P: seq<real>, E: seq<real>, C: seq<real>)
    requires |P| == |E| == |C| && NonNegative(P)
    requires IsIndicator(E) && IsIndicator(C) && SubEvent(E, C)
    ensures 0.0 <= ProbEvent(P, E) <= ProbEvent(P, C)
  {
    SubEventIsPointwise(E, C);
    DotMonotone(P, E, C);
  }

  /**
   * numpy `*` on vectors: the elementwise product. The product of two
   * indicators is the indicator of their intersection, contained in both.
   */
  function Hadamard(E: seq<real>, C: seq<real>): (r: seq<real>)
    requires |E| == |C|
    ensures |r| == |E|
    ensures IsIndicator(E) && IsIndicator(C) ==>
      IsIndicator(r) && SubEvent(r, E) && SubEvent(r, C) &&
      forall i :: 0 <= i < |E| ==> (r[i] == 1.0 <==> E[i] == 1.0 && C[i] == 1.0)
  {
    seq(|E|, i requires 0 <= i < |E| => E[i] * C[i])
  }

  /**
   * conditionalProb: P.(E*C) / P.C. The source divides without a guard, so a
   * zero denominator is excluded here. For indicator events the result is the
   * mass of the outcomes in both events over the mass of the conditioning
   * event, and under a distribution it lies in [0, 1].
   */
  function ConditionalProb(P: seq<real>, E: seq<real>, C: seq<real>): (r: real)
    requires |P| == |E| == |C|
    requires ProbEvent(P, C) != 0.0
    ensures IsIndicator(E) && IsIndicator(C) ==>
      MassWhere(P, C) != 0.0 && r == MassWhere(P, Hadamard(E, C)) / MassWhere(P, C)
    ensures IsDistribution(P) && IsIndicator(E) && IsIndicator(C) ==> 0.0 <= r <= 1.0
  {
    IntersectionRatioBounds(P, E, C);
    ProbEvent(P, Hadamard(E, C)) / ProbEvent(P, C)
  }

  /** Under a distribution, the mass of E*C over that of C lies in [0, 1] for indicator events. */
  lemma IntersectionRatioBounds(P: seq<real>, E: seq<real>, C: seq<real>)
    requires |P| == |E| == |C| && ProbEvent(P, C) != 0.0
    ensures IsDistribution(P) && IsIndicator(E) && IsIndicator(C) ==>
      0.0 <= ProbEvent(P, Hadamard(E, C)) / ProbEvent(P, C) <= 1.0
  {
    if IsDistribution(P) && IsIndicator(E) && IsIndicator(C) {
      ProbEventMonotone(P, Hadamard(E, C), C);
      RatioInUnitInterval(ProbEvent(P, Hadamard(E, C)), ProbEvent(P, C));
    }
  }

  lemma RatioInUnitInterval(num: real, den: real)
    requires 0.0 <= num <= den && den != 0.0
    ensures 0.0 <= num / den <= 1.0
  {
    assert num / den * den == num;
  }

  /** Conditioning an indicator event on itself gives 1. */
  lemma ConditionalProbOfItself(P: seq<real>, C: seq<real>)
    requires |P| == |C| && IsIndicator(C) && ProbEvent(P, C) != 0.0
    ensures ConditionalProb(P, C, C) == 1.0
  {
    assert Hadamard(C, C) == C by {
      forall i | 0 <= i < |C| ensures Hadamard(C, C)[i] == C[i] {
        assert C[i] == 0.0 || C[i] == 1.0;
      }
    }
    var d := ProbEvent(P, C);
    assert ConditionalProb(P, C, C) == d / d;
    assert d / d == 1.0 by {
      assert d != 0.0 && d * (1.0 / d) == 1.0;
    }
  }

  /**
   * utility: the expected utility P.u of payoff vector u. Under a
   * distribution it lies between the smallest and the largest payoff.
   */
  function Utility(P: seq<real>, u: seq<real>): (r: real)
    requires |P| == |u|
    ensures IsDistribution(P) ==> |P| > 0 && Min(u) <= r <= Max(u)
  {
    DotWithinPayoffs(P, u);
    Dot(P, u)
  }

  /** Under a distribution, the dot product lies between the smallest and the largest payoff. */
  lemma DotWithinPayoffs(P: seq<real>, u: seq<real>)
    requires |P| == |u|
    ensures IsDistribution(P) ==> |P| > 0 && Min(u) <= Dot(P, u) <= Max(u)
  {
    if IsDistribution(P) {
      assert |P| > 0;
      var lo, hi := Min(u), Max(u);
      DotBetween(P, u, lo, hi);
      assert lo * Sum(P) == lo && hi * Sum(P) == hi;
    }
  }

  /** The expected value of a constant payoff c under a distribution is c. */
  lemma UtilityOfConstantPayoff(P: seq<real>, c: real)
    requires IsDistribution(P)
    ensures Utility(P, Constant(|P|, c)) == c
  {
    DotConstant(P, c);
  }

  /** With non-negative weights, a pointwise larger payoff has a larger expected utility. */
  lemma UtilityMonotone(P: seq<real>, u: seq<real>, v: seq<real>)
    requires |P| == |u| == |v| && NonNegative(P)
    requires forall i :: 0 <= i < |u| ==> u[i] <= v[i]
    ensures Utility(P, u) <= Utility(P, v)
  {
    DotMonotone(P, u, v);
  }

  /** Rows all have the length of P, as `np.row_stack(ulist) @ P` needs. */
  predicate RowsMatch(U: seq<seq<real>>, P: seq<real>)
  {
    forall k :: 0 <= k < |U| ==> |U[k]| == |P|
  }

  lemma {:induction false} DotCommutes(a: seq<real>, b: seq<real>)
    requires |a| == |b|
    ensures Dot(a, b) == Dot(b, a)
  {
    if |a| > 0 {
      DotCommutes(a[1..], b[1..]);
    }
  }

  /**
   * `np.row_stack(U) @ P`: one dot product of a row with P per row, so entry
   * k is the expected utility of choice k.
   */
  function MatVec(U: seq<seq<real>>, P: seq<real>): (r: seq<real>)
    requires RowsMatch(U, P)
    ensures |r| == |U|
    ensures forall k :: 0 <= k < |U| ==> r[k] == Utility(P, U[k])
  {
    if |U| == 0 then []
    else
      DotCommutes(U[0], P);
      assert RowsMatch(U[1..], P) by {
        forall k | 0 <= k < |U[1..]| ensures |U[1..][k]| == |P| { assert U[1..][k] == U[k + 1]; }
      }
      var rest := MatVec(U[1..], P);
      assert forall k :: 1 <= k < |U| ==> U[k] == U[1..][k - 1];
      [Dot(U[0], P)] + rest
  }

  /**
   * numpy `argmax`: an index of a maximal entry, the first one when the
   * maximum occurs several times.
   */
  function ArgMax(s: seq<real>): (k: nat)
    requires |s| > 0
    ensures k < |s|
    ensures forall j :: 0 <= j < |s| ==> s[j] <= s[k]
    ensures forall j :: 0 <= j < k ==> s[j] < s[k]
  {
    if |s| == 1 then 0
    else
      var k := ArgMax(s[..|s| - 1]);
      if s[|s| - 1] > s[k] then |s| - 1 else k
  }

  /**
   * decide: the index of the choice with the largest expected utility (the
   * first such index on a tie) together with that utility.
   */
  function Decide(P: seq<real>, ulist: seq<seq<real>>): (r: (nat, real))
    requires |ulist| > 0 && RowsMatch(ulist, P)
    ensures r.0 < |ulist| && r.1 == Utility(P, ulist[r.0])
    ensures forall k :: 0 <= k < |ulist| ==> Utility(P, ulist[k]) <= r.1
    ensures forall k :: 0 <= k < r.0 ==> Utility(P, ulist[k]) < r.1
  {
    var utilities := MatVec(ulist, P);
    var best := ArgMax(utilities);
    (best, utilities[best])
  }

  /** The distribution checks of the source's demonstration. */
  lemma DemoIsProb()
    ensures IsProb([0.5, 0.4, 0.1]) && !IsProb([0.5, 0.4, 0.2])
  {
  }

  /** The event probabilities of the source's demonstration. */
  lemma DemoEvents()
    ensures ProbEvent([0.5, 0.4, 0.1], [0.0, 1.0, 0.0]) == 0.4
    ensures ProbEvent([0.5, 0.4, 0.1], [0.0, 1.0, 1.0]) == 0.5
    ensures ConditionalProb([0.5, 0.4, 0.1], [0.0, 1.0, 0.0], [0.0, 1.0, 1.0]) == 0.8
  {
  }

  /** The expected utility and the decision of the source's demonstration. */
  lemma DemoDecide()
    ensures Utility([0.5, 0.4, 0.1], [1.0, 2.0, 3.0]) == 1.6
    ensures Decide([0.5, 0.4, 0.1], [[1.0, 2.0, 3.0], [-1.0, 2.0, 2.0], [1.0, -1.0, 5.0]]) == (0, 1.6)
  {
  }
}
