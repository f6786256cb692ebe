/** What a tier is worth in the ranking: how little verified evidence every provisional seller outranks. */
module TierWorth {
  import opened Texts
  import opened Rounding
  import opened Reputation
  import opened Conservative
  import opened Routing

  function Weight(mode: Mode): real {
    if mode.Safe? then 0.43 else 0.27
  }

  /** What the evidence alone adds to the utility, up to a constant. */
  function Worth(e: Evidence, mode: Mode, sqrt: real -> real): real {
    0.0042 * Trust(e, mode, sqrt) + Weight(mode) * RoutingConfidence(e)
  }

  /** At equal price, latency and fit the evidence decides. */
  lemma WorthDecides(c: CandidateRequest, d: CandidateRequest, e: Evidence, v: Evidence, budget: nat, mode: Mode,
                     sqrt: real -> real)
    requires c.price == d.price <= budget && c.taskFit == d.taskFit && c.latency.Some? && c.latency == d.latency
    ensures Utility(Score(c, e, mode, sqrt), budget, mode) < Utility(Score(d, v, mode, sqrt), budget, mode)
            <==> Worth(e, mode, sqrt) < Worth(v, mode, sqrt)
  {
    var a, b := Score(c, e, mode, sqrt), Score(d, v, mode, sqrt);
    assert Utility(b, budget, mode) - Utility(a, budget, mode)
        == 0.42 * (b.trust / 100.0) - 0.42 * (a.trust / 100.0) + Weight(mode) * (b.confidence - a.confidence);
  }

  predicate IsVerified(e: Evidence, n: nat) {
    RoutingTier(e).Verified? && e.task.Observations() == n
  }

  predicate IsProvisional(e: Evidence) {
    RoutingTier(e).Provisional?
  }

  /** Every provisional seller outranks every seller with `n` verified results. */
  ghost predicate AlwaysOutranked(n: nat, mode: Mode, sqrt: real -> real) {
    forall e, v | IsVerified(e, n) && IsProvisional(v) :: Worth(e, mode, sqrt) < Worth(v, mode, sqrt)
  }

  function Passes(n: nat): Evidence {
    Evidence(BayesianReputation(n, 0), BayesianReputation(0, 0), None, None)
  }

  // ---------- the least a provisional seller is worth ----------

  lemma TwoCanaries(r: BayesianReputation)
    requires r.Observations() >= 2
    ensures r.Confidence() >= 0.2
  {
    DivLess(2.0, 10.0, r.Observations() as real, (r.Observations() + 8) as real);
  }

  lemma ProvisionalFloor(v: Evidence, mode: Mode, sqrt: real -> real)
    requires IsProvisional(v)
    ensures 50.0 <= Trust(v, mode, sqrt) && (v.protocol == BayesianReputation(1, 0) ==> Trust(v, mode, sqrt) == 50.555)
  {
    LeadNotNegative(v.protocol.successes, v.protocol.failures);
    OneCanaryScore();
  }

  lemma ProvisionalConfidence(v: Evidence)
    requires IsProvisional(v)
    ensures RoutingConfidence(v) >= if v.protocol == BayesianReputation(1, 0) then 0.2 + 0.5 / 9.0 else 0.3
  {
    if v.protocol.Observations() >= 2 {
      TwoCanaries(v.protocol);
    } else {
      OneCanaryScore();
    }
  }

  lemma OneCanaryScore()
    ensures BayesianReputation(1, 0).Score100() == 51.11 && BayesianReputation(1, 0).Confidence() == 1.0 / 9.0
  {
    var one := BayesianReputation(1, 0);
    assert one.Mean() == 0.6 && one.Confidence() == 1.0 / 9.0;
    assert one.Exact() == 460.0 / 9.0;
    assert RoundHalfEven(100.0 * one.Exact()) == 5111;
  }

  /** At least as many passes as fails score at least 50. */
  lemma LeadNotNegative(s: nat, f: nat)
    requires f <= s
    ensures BayesianReputation(s, f).Score100() >= 50.0
  {
    ExactForm(s, f);
    LeadingExact(BayesianReputation(s, f).Confidence(), Lead(s, f), (s + f + 4) as real,
                 BayesianReputation(s, f).Exact());
    Round2Against(BayesianReputation(s, f).Exact(), 5000);
  }

  lemma LeadingExact(c: real, lead: real, t: real, x: real)
    requires 0.0 <= c && 0.0 <= lead && 0.0 < t && x == 50.0 + 50.0 * (c * (lead / t))
    ensures x >= 50.0
  {
    DivLess(0.0, 1.0, lead, t);
    MulMonotone(0.0, lead / t, c);
  }

  lemma ProvisionalWorth(v: Evidence, mode: Mode, sqrt: real -> real)
    requires IsProvisional(v)
    ensures Worth(v, mode, sqrt) >= if mode.Safe? then 0.3222 else 0.2813
  {
    ProvisionalFloor(v, mode, sqrt);
    ProvisionalConfidence(v);
  }

  lemma OneCanaryWorth(v: Evidence, mode: Mode, sqrt: real -> real)
    requires IsProvisional(v) && v.protocol == BayesianReputation(1, 0)
    ensures Worth(v, mode, sqrt) <= if mode.Safe? then 0.3223 else 0.2814
  {
    ProvisionalFloor(v, mode, sqrt);
    OneCanaryScore();
    var trust, confidence := Trust(v, mode, sqrt), RoutingConfidence(v);
    assert trust == 50.555 && confidence == 0.2 + 0.5 / 9.0;
  }

  // ---------- the most a few verified results are worth ----------

  lemma CleanConfidence(n: nat)
    requires 1 <= n <= 3
    ensures BayesianReputation(n, 0).Confidence() == if n == 1 then 1.0 / 9.0 else if n == 2 then 0.2 else 3.0 / 11.0
  {
    if n == 1 {
    } else if n == 2 {
    } else {
    }
  }

  lemma FewScores(n: nat, c: real, x: real)
    requires 1 <= n <= 3 && c == if n == 1 then 1.0 / 9.0 else if n == 2 then 0.2 else 3.0 / 11.0
    requires x == 50.0 + 50.0 * (c * (Lead(n, 0) / (n + 4) as real))
    ensures Round2(x) <= if n == 1 then 51.12 else if n == 2 then 53.34 else 55.85
  {
    if n == 1 {
      Round2Against(x, 5112);
    } else if n == 2 {
      Round2Against(x, 5334);
    } else {
      Round2Against(x, 5585);
    }
  }

  lemma FewResults(n: nat)
    requires 1 <= n <= 3
    ensures BayesianReputation(n, 0).Score100() <= if n == 1 then 51.12 else if n == 2 then 53.34 else 55.85
  {
    ExactForm(n, 0);
    CleanConfidence(n);
    FewScores(n, BayesianReputation(n, 0).Confidence(), BayesianReputation(n, 0).Exact());
  }

  lemma ExploreOutranked(e: Evidence, n: nat, sqrt: real -> real)
    requires IsVerified(e, n) && 1 <= n <= 2
    ensures Worth(e, Explore, sqrt) < 0.2813
  {
    AllPassesBest(e.task.successes, e.task.failures);
    FewResults(n);
    CleanConfidence(n);
  }

  ghost predicate Roots(sqrt: real -> real) {
    forall s, f :: RootOf(sqrt(BayesianReputation(s, f).Variance()), s, f)
  }

  lemma RootsTaken(sqrt: real -> real)
    requires TakesRoots(sqrt)
    ensures Roots(sqrt)
  {
    forall s, f
      ensures RootOf(sqrt(BayesianReputation(s, f).Variance()), s, f)
    {
      VariancePositive(BayesianReputation(s, f));
    }
  }

  function Cautious(s: nat, f: nat, sqrt: real -> real): real {
    BayesianReputation(s, f).ConservativeScore100(Z, sqrt(BayesianReputation(s, f).Variance()))
  }

  lemma {:induction false} Climb(s: nat, k: nat, f: nat, sqrt: real -> real)
    requires 1 <= s && Roots(sqrt)
    ensures Cautious(s, f, sqrt) <= Cautious(s + k, f, sqrt)
  {
    if k == 0 {
    } else {
      Climb(s, k - 1, f, sqrt);
      var m := s + k - 1;
      PassRaisesExactly(m, f, sqrt(BayesianReputation(m, f).Variance()), sqrt(BayesianReputation(m + 1, f).Variance()));
    }
  }

  lemma {:induction false} Fall(s: nat, f: nat, sqrt: real -> real)
    requires Roots(sqrt)
    ensures Cautious(s, f, sqrt) <= Cautious(s, 0, sqrt)
  {
    if f == 0 {
    } else {
      Fall(s, f - 1, sqrt);
      FailNeverRaises(s, f - 1, sqrt(BayesianReputation(s, f - 1).Variance()),
                      sqrt(BayesianReputation(s, f).Variance()));
    }
  }

  lemma ThreePasses(root: real)
    requires RootOf(root, 3, 0)
    ensures BayesianReputation(3, 0).ConservativeScore100(Z, root) <= 48.69
  {
    SpreadSquare(3, 0, root);
    Above(1.118, Spread(3, 0, root), 1.25);
    UnclampedForm(3, 0, root);
    CleanConfidence(3);
    FloorBelow(3, 0, root);
    Round2Against(Conservative100(BayesianReputation(3, 0), root), 4869);
  }

  lemma OnePass(root: real)
    requires RootOf(root, 1, 0)
    ensures BayesianReputation(1, 0).ConservativeScore100(Z, root) >= 47.45
  {
    SpreadSquare(1, 0, root);
    Below(Spread(1, 0, root), 1.0, 1.0);
    UnclampedForm(1, 0, root);
    CleanConfidence(1);
    FloorBelow(1, 0, root);
    Round2Against(Conservative100(BayesianReputation(1, 0), root), 4745);
  }

  lemma FailsScored(n: nat)
    requires 1 <= n <= 3
    ensures BayesianReputation(0, n).Score100() <= if n == 3 then 48.69 else 50.0
  {
    ExactForm(0, n);
    CleanConfidence(n);
    var c := BayesianReputation(0, n).Confidence();
    assert c == BayesianReputation(n, 0).Confidence();
    FailScores(n, c);
    Round2Against(BayesianReputation(0, n).Exact(), if n == 3 then 4869 else 5000);
  }

  lemma FailsOnly(n: nat, sqrt: real -> real)
    requires 1 <= n <= 3 && Roots(sqrt)
    ensures Cautious(0, n, sqrt) <= if n == 3 then 48.69 else 50.0
  {
    var root := sqrt(BayesianReputation(0, n).Variance());
    assert RootOf(root, 0, n);
    ConservativeBelow(BayesianReputation(0, n), Z, root);
    FailsScored(n);
  }

  lemma FailScores(n: nat, c: real)
    requires 1 <= n <= 3 && c == if n == 1 then 1.0 / 9.0 else if n == 2 then 0.2 else 3.0 / 11.0
    ensures 50.0 + 50.0 * (c * (Lead(0, n) / (n + 4) as real)) <= if n == 3 then 48.69 else 50.0
  {
    if n == 1 {
    } else if n == 2 {
    } else {
    }
  }

  lemma FewCautious(s: nat, f: nat, sqrt: real -> real)
    requires 1 <= s + f <= 3 && Roots(sqrt)
    ensures Cautious(s, f, sqrt) <= if s + f == 3 then 48.69 else 50.0
  {
    if s == 0 {
      FailsOnly(f, sqrt);
    } else {
      Fall(s, f, sqrt);
      Climb(s, 3 - s, 0, sqrt);
      ThreePasses(sqrt(BayesianReputation(3, 0).Variance()));
    }
  }

  lemma SafeOutranked(e: Evidence, n: nat, sqrt: real -> real)
    requires IsVerified(e, n) && 1 <= n <= 3 && Roots(sqrt)
    ensures Worth(e, Safe, sqrt) < 0.3222
  {
    FewCautious(e.task.successes, e.task.failures, sqrt);
    CleanConfidence(n);
    assert e.task == BayesianReputation(e.task.successes, e.task.failures);
    assert e.task.Confidence() == BayesianReputation(n, 0).Confidence();
  }

  lemma MoreConfidence(n: nat, m: nat)
    requires m <= n && m <= 4
    ensures BayesianReputation(n, 0).Confidence() >= m as real / (m + 8) as real
  {
    DivLess(m as real, (m + 8) as real, n as real, (n + 8) as real);
    DivLess(m as real, (m + 8) as real, 4.0, 12.0);
  }

  lemma PassesExplored(n: nat, sqrt: real -> real)
    requires n >= 3
    ensures Worth(Passes(n), Explore, sqrt) > 0.2814
  {
    MoreConfidence(n, 3);
    ManyPasses(3, n - 3, 0);
    ThreeScore();
  }

  lemma PassesCautious(n: nat, sqrt: real -> real)
    requires Roots(sqrt) && n >= 4
    ensures Worth(Passes(n), Safe, sqrt) > 0.3223
  {
    MoreConfidence(n, 4);
    Climb(1, n - 1, 0, sqrt);
    OnePass(sqrt(BayesianReputation(1, 0).Variance()));
    var trust := Trust(Passes(n), Safe, sqrt);
    assert trust == Cautious(n, 0, sqrt) && trust >= 47.45;
  }

  lemma ThreeScore()
    ensures BayesianReputation(3, 0).Score100() >= 55.84
  {
    ExactForm(3, 0);
    CleanConfidence(3);
    Round2Against(BayesianReputation(3, 0).Exact(), 5584);
  }

  lemma OneCanary() returns (v: Evidence)
    ensures IsProvisional(v) && v.protocol == BayesianReputation(1, 0)
  {
    v := Evidence(BayesianReputation(0, 0), BayesianReputation(1, 0), None, None);
  }

  lemma SafeLimit(n: nat, sqrt: real -> real)
    requires n >= 4 && Roots(sqrt)
    ensures !AlwaysOutranked(n, Safe, sqrt)
  {
    var e := Passes(n);
    var v := OneCanary();
    PassesCautious(n, sqrt);
    OneCanaryWorth(v, Safe, sqrt);
    assert IsVerified(e, n) && Worth(v, Safe, sqrt) < Worth(e, Safe, sqrt);
  }

  lemma ExploreLimit(n: nat, sqrt: real -> real)
    requires n >= 3
    ensures !AlwaysOutranked(n, Explore, sqrt)
  {
    var e := Passes(n);
    var v := OneCanary();
    PassesExplored(n, sqrt);
    OneCanaryWorth(v, Explore, sqrt);
    assert IsVerified(e, n) && Worth(v, Explore, sqrt) < Worth(e, Explore, sqrt);
  }

  /** In safe mode every provisional seller outranks every seller with `n` verified results, at equal price, latency and
      fit, exactly when `n` is at most three. */
  lemma OutrankedWhenSafe(n: nat, sqrt: real -> real)
    requires 1 <= n && TakesRoots(sqrt)
    ensures AlwaysOutranked(n, Safe, sqrt) <==> n <= 3
  {
    RootsTaken(sqrt);
    if n > 3 {
      SafeLimit(n, sqrt);
    } else {
      forall e, v | IsVerified(e, n) && IsProvisional(v)
        ensures Worth(e, Safe, sqrt) < Worth(v, Safe, sqrt)
      {
        ProvisionalWorth(v, Safe, sqrt);
        SafeOutranked(e, n, sqrt);
      }
    }
  }

  /** In exploration, exactly when it is at most two. */
  lemma OutrankedWhenExploring(n: nat, sqrt: real -> real)
    requires 1 <= n && TakesRoots(sqrt)
    ensures AlwaysOutranked(n, Explore, sqrt) <==> n <= 2
  {
    if n > 2 {
      ExploreLimit(n, sqrt);
    } else {
      forall e, v | IsVerified(e, n) && IsProvisional(v)
        ensures Worth(e, Explore, sqrt) < Worth(v, Explore, sqrt)
      {
        ProvisionalWorth(v, Explore, sqrt);
        ExploreOutranked(e, n, sqrt);
      }
    }
  }
}
