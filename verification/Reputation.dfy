/** Python's `round`, over exact reals: half goes to the even neighbour. */
module Rounding {

  function RoundHalfEven(x: real): int {
    var low := x.Floor;
    var part := x - low as real;
    if part < 0.5 then low
    else if part > 0.5 then low + 1
    else if low % 2 == 0 then low else low + 1
  }

  function Round2(x: real): real {
    RoundHalfEven(100.0 * x) as real / 100.0
  }

  function Round4(x: real): real {
    RoundHalfEven(10000.0 * x) as real / 10000.0
  }

  lemma DivEqual(a: real, b: real, x: real)
    requires 0.0 < b && a == x * b
    ensures a / b == x
  {
  }

  lemma RoundMonotone(x: real, y: real)
    requires x <= y
    ensures RoundHalfEven(x) <= RoundHalfEven(y)
  {
    assert x.Floor <= y.Floor;
  }

  lemma Round2Monotone(x: real, y: real)
    requires x <= y
    ensures Round2(x) <= Round2(y)
  {
    RoundMonotone(100.0 * x, 100.0 * y);
  }

  lemma Round4Monotone(x: real, y: real)
    requires x <= y
    ensures Round4(x) <= Round4(y)
  {
    RoundMonotone(10000.0 * x, 10000.0 * y);
  }

  lemma Round4Unit(x: real)
    requires 0.0 <= x <= 1.0
    ensures 0.0 <= Round4(x) <= 1.0
  {
    RoundMonotone(0.0, 10000.0 * x);
    RoundMonotone(10000.0 * x, 10000.0);
  }

  /** Rounding keeps an order with a two-decimal number `n / 100`. */
  lemma Round2Against(x: real, n: int)
    ensures x <= n as real / 100.0 ==> Round2(x) <= n as real / 100.0
    ensures x >= n as real / 100.0 ==> Round2(x) >= n as real / 100.0
  {
    assert RoundHalfEven(n as real) == n;
    if x <= n as real / 100.0 {
      RoundMonotone(100.0 * x, n as real);
    }
    if x >= n as real / 100.0 {
      RoundMonotone(n as real, 100.0 * x);
    }
  }
}

/** The Beta(2, 2) reputation of a seller. */
module Reputation {
  import opened Rounding

  datatype BayesianReputation = BayesianReputation(successes: nat, failures: nat) {

    function Observations(): nat { successes + failures }

    function Mean(): real {
      (2 + successes) as real / (4 + Observations()) as real
    }

    function Variance(): real {
      var a, b := (2 + successes) as real, (2 + failures) as real;
      var total := a + b;
      a * b / (total * total * (total + 1.0))
    }

    function Confidence(): (c: real)
      ensures 0.0 <= c <= 0.99
    {
      var c := Observations() as real / (Observations() + 8) as real;
      if 0.99 < c then 0.99 else c
    }

    /** `centre` shrunk toward one half by the missing confidence, on the 0-100 scale. */
    function Adjusted(centre: real): real {
      (0.5 * (1.0 - Confidence()) + centre * Confidence()) * 100.0
    }

    function Exact(): real { Adjusted(Mean()) }

    function Score100(): real { Round2(Exact()) }

    function LowerBound(z: real, root: real): real {
      var lower := Mean() - z * root;
      if lower > 0.0 then lower else 0.0
    }

    /** `root` is the square root of the variance. */
    function ConservativeScore100(z: real, root: real): real {
      Round2(Adjusted(LowerBound(z, root)))
    }
  }

  const Z := 1.645

  ghost predicate IsRoot(root: real, x: real) {
    0.0 <= root && root * root == x
  }

  function Lead(s: nat, f: nat): real {
    s as real - f as real
  }

  lemma MulMonotone(a: real, b: real, c: real)
    requires a <= b && 0.0 <= c
    ensures a * c <= b * c
  {
  }

  lemma SignOfFactor(p: real, q: real)
    requires 0.0 < q && p * q <= 0.0
    ensures p <= 0.0
  {
  }

  lemma DivLess(a: real, b: real, c: real, d: real)
    requires 0.0 < b && 0.0 < d && a * d <= c * b
    ensures a / b <= c / d
  {
    var x, y := a / b, c / d;
    assert x * b == a && y * d == c;
    assert (x - y) * (b * d) == (x * b) * d - (y * d) * b;
    SignOfFactor(x - y, b * d);
  }

  lemma DivInside(a: real, b: real)
    requires 0.0 < b && -b < a < b
    ensures -1.0 < a / b < 1.0 && a / b * b == a
  {
  }

  lemma Distribute(c: real, q: real)
    ensures (0.5 * (1.0 - c) + (0.5 + 0.5 * q) * c) * 100.0 == 50.0 + 50.0 * (c * q)
  {
    assert (0.5 + 0.5 * q) * c == 0.5 * c + 0.5 * (c * q);
  }

  lemma MeanForm(s: nat, f: nat)
    ensures BayesianReputation(s, f).Mean() == 0.5 + 0.5 * (Lead(s, f) / (s + f + 4) as real)
  {
    var t := (s + f + 4) as real;
    var q := Lead(s, f) / t;
    assert q * t == Lead(s, f);
    assert (0.5 + 0.5 * q) * t == 0.5 * t + 0.5 * (q * t);
    DivEqual((2 + s) as real, t, 0.5 + 0.5 * q);
  }

  /** The score is 50 plus the confidence times the lead of passes over fails, scaled by the evidence. */
  lemma ExactForm(s: nat, f: nat)
    ensures var r := BayesianReputation(s, f);
            r.Exact() == 50.0 + 50.0 * (r.Confidence() * (Lead(s, f) / (s + f + 4) as real))
  {
    MeanForm(s, f);
    Distribute(BayesianReputation(s, f).Confidence(), Lead(s, f) / (s + f + 4) as real);
  }

  /** Swapping passes and fails mirrors the score. */
  lemma ScoreMirrors(s: nat, f: nat)
    ensures BayesianReputation(s, f).Exact() + BayesianReputation(f, s).Exact() == 100.0
  {
    ExactForm(s, f);
    ExactForm(f, s);
    var t := (s + f + 4) as real;
    assert Lead(f, s) / t == -(Lead(s, f) / t);
  }

  function Quotient(a: real, u: real, v: real): real
    requires 0.0 < u && 0.0 < v
  {
    a / (u * v)
  }

  /** Confidence times relative lead, below the confidence cap. */
  function Gain(n: real, d: real): real
    requires 0.0 <= n
  {
    Quotient(n * d, n + 8.0, n + 4.0)
  }

  /** One more pass never loses ground, cleared of denominators. */
  lemma StepGain(n: real, d: real, m: real, e: real)
    requires 0.0 <= n && -n <= d <= n && m == n + 1.0 && e == d + 1.0
    ensures n * d * ((m + 8.0) * (m + 4.0)) <= m * e * ((n + 8.0) * (n + 4.0))
  {
    var n2 := n * n;
    assert m * e * ((n + 8.0) * (n + 4.0)) - n * d * ((m + 8.0) * (m + 4.0))
        == n2 * n + 13.0 * n2 + 44.0 * n + 32.0 + d * (32.0 - n - n2);
    if d >= 0.0 {
      MulMonotone(d, n, n + n2);
      assert d * (n + n2) <= n2 + n * n2;
    } else {
      MulMonotone(-n, d, 32.0);
      MulMonotone(d, 0.0, n + n2);
      assert d * (n + n2) <= 0.0;
    }
  }

  lemma CrossedGain(n: real, d: real, m: real, e: real)
    requires 0.0 <= n && 0.0 <= m && n * d * ((m + 8.0) * (m + 4.0)) <= m * e * ((n + 8.0) * (n + 4.0))
    ensures Gain(n, d) <= Gain(m, e)
  {
    DivProductLess(n * d, n + 8.0, n + 4.0, m * e, m + 8.0, m + 4.0);
  }

  lemma GainOrdered(n: real, d: real)
    requires 0.0 <= n && -n <= d <= n
    ensures Gain(n, d) <= Gain(n + 1.0, d + 1.0)
  {
    StepGain(n, d, n + 1.0, d + 1.0);
    CrossedGain(n, d, n + 1.0, d + 1.0);
  }

  lemma DivProductLess(a: real, u: real, v: real, b: real, x: real, y: real)
    requires 0.0 < u && 0.0 < v && 0.0 < x && 0.0 < y && a * (x * y) <= b * (u * v)
    ensures Quotient(a, u, v) <= Quotient(b, x, y)
  {
    DivLess(a, u * v, b, x * y);
  }

  lemma QuotientProduct(n: real, u: real, d: real, v: real)
    requires 0.0 < u && 0.0 < v
    ensures n / u * (d / v) == Quotient(n * d, u, v)
  {
    var x, y := n / u, d / v;
    assert x * u == n && y * v == d;
    assert (x * y) * (u * v) == (x * u) * (y * v);
    DivEqual(n * d, u * v, x * y);
  }

  lemma ConfidenceBelowCap(s: nat, f: nat)
    requires s + f <= 792
    ensures BayesianReputation(s, f).Confidence() == (s + f) as real / ((s + f) as real + 8.0)
  {
    DivLess((s + f) as real, (s + f + 8) as real, 792.0, 800.0);
    assert 792.0 / 800.0 == 0.99;
  }

  lemma ExactBelowCap(s: nat, f: nat)
    requires s + f <= 792
    ensures BayesianReputation(s, f).Exact() == 50.0 + 50.0 * Gain((s + f) as real, Lead(s, f))
  {
    var n := (s + f) as real;
    ExactForm(s, f);
    ConfidenceBelowCap(s, f);
    QuotientProduct(n, n + 8.0, Lead(s, f), n + 4.0);
    var x, q := BayesianReputation(s, f).Exact(), n / (n + 8.0) * (Lead(s, f) / (n + 4.0));
    assert x == 50.0 + 50.0 * q;
    assert q == Gain(n, Lead(s, f));
  }

  lemma PassRaisesBelowCap(s: nat, f: nat)
    requires s + f < 792
    ensures BayesianReputation(s, f).Exact() <= BayesianReputation(s + 1, f).Exact()
  {
    ExactBelowCap(s, f);
    ExactBelowCap(s + 1, f);
    GainOrdered((s + f) as real, Lead(s, f));
    var x, y := BayesianReputation(s, f).Exact(), BayesianReputation(s + 1, f).Exact();
    assert x <= y;
  }

  lemma PassRaisesAtCap(s: nat, f: nat)
    requires s + f >= 792
    ensures BayesianReputation(s, f).Exact() <= BayesianReputation(s + 1, f).Exact()
  {
    var n, d := s + f, Lead(s, f);
    ExactForm(s, f);
    ExactForm(s + 1, f);
    DivLess(792.0, 800.0, n as real, (n + 8) as real);
    DivLess(792.0, 800.0, (n + 1) as real, (n + 9) as real);
    assert Lead(s + 1, f) == d + 1.0;
    DivLess(d, (n + 4) as real, d + 1.0, (n + 5) as real);
  }

  /** One more verified pass never lowers the score, one more fail never raises it, at any volume. */
  lemma ScoreMonotone(s: nat, f: nat)
    ensures BayesianReputation(s, f).Exact() <= BayesianReputation(s + 1, f).Exact()
    ensures BayesianReputation(s, f + 1).Exact() <= BayesianReputation(s, f).Exact()
    ensures BayesianReputation(s, f).Score100() <= BayesianReputation(s + 1, f).Score100()
    ensures BayesianReputation(s, f + 1).Score100() <= BayesianReputation(s, f).Score100()
  {
    PassRaises(s, f);
    PassRaises(f, s);
    ScoreMirrors(s, f);
    ScoreMirrors(s, f + 1);
    Round2Monotone(BayesianReputation(s, f).Exact(), BayesianReputation(s + 1, f).Exact());
    Round2Monotone(BayesianReputation(s, f + 1).Exact(), BayesianReputation(s, f).Exact());
  }

  lemma PassRaises(s: nat, f: nat)
    ensures BayesianReputation(s, f).Exact() <= BayesianReputation(s + 1, f).Exact()
  {
    if s + f < 792 {
      PassRaisesBelowCap(s, f);
    } else {
      PassRaisesAtCap(s, f);
    }
  }

  lemma ProductInside(c: real, q: real)
    requires 0.0 <= c <= 0.99 && -1.0 < q < 1.0
    ensures -0.99 < c * q < 0.99
  {
    if q >= 0.0 {
      MulMonotone(c, 0.99, q);
    } else {
      MulMonotone(c, 0.99, -q);
    }
  }

  /** No volume of evidence reaches certainty. */
  lemma ScoreBounds(s: nat, f: nat)
    ensures 0.5 < BayesianReputation(s, f).Exact() < 99.5
    ensures 0.5 <= BayesianReputation(s, f).Score100() <= 99.5
  {
    var r := BayesianReputation(s, f);
    var q := Lead(s, f) / (s + f + 4) as real;
    ExactForm(s, f);
    DivInside(Lead(s, f), (s + f + 4) as real);
    ProductInside(r.Confidence(), q);
    assert r.Exact() == 50.0 + 50.0 * (r.Confidence() * q);
    assert 0.5 < r.Exact() < 99.5;
    assert 50 as real / 100.0 == 0.5 && 9950 as real / 100.0 == 99.5;
    Round2Against(r.Exact(), 50);
    Round2Against(r.Exact(), 9950);
  }

  lemma AdjustedOrdered(r: BayesianReputation, low: real, high: real)
    requires 0.0 <= low <= high
    ensures 0.0 <= r.Adjusted(low) <= r.Adjusted(high)
  {
    MulMonotone(low, high, r.Confidence());
    MulMonotone(0.0, low, r.Confidence());
  }

  /** The conservative score never exceeds the plain one, and stays on the scale. */
  lemma ConservativeBelow(r: BayesianReputation, z: real, root: real)
    requires 0.0 <= z && IsRoot(root, r.Variance())
    ensures r.Adjusted(r.LowerBound(z, root)) <= r.Exact()
    ensures 0.0 <= r.ConservativeScore100(z, root) <= r.Score100() <= 99.5
  {
    var lower := r.LowerBound(z, root);
    MulMonotone(0.0, z, root);
    MeanPositive(r);
    AdjustedOrdered(r, lower, r.Mean());
    assert 0 as real / 100.0 == 0.0;
    Round2Against(r.Adjusted(lower), 0);
    Round2Monotone(r.Adjusted(lower), r.Exact());
    ScoreBounds(r.successes, r.failures);
  }

  lemma MeanPositive(r: BayesianReputation)
    ensures 0.0 < r.Mean()
  {
  }

  lemma {:induction false} ManyPasses(s: nat, k: nat, f: nat)
    ensures BayesianReputation(s, f).Score100() <= BayesianReputation(s + k, f).Score100()
  {
    if k == 0 {
    } else {
      ManyPasses(s, k - 1, f);
      ScoreMonotone(s + k - 1, f);
    }
  }

  /** At equal volume, turning fails into passes raises the score. */
  lemma AllPassesBest(s: nat, f: nat)
    ensures BayesianReputation(s, f).Score100() <= BayesianReputation(s + f, 0).Score100()
  {
    ExactForm(s, f);
    ExactForm(s + f, 0);
    var c, t := BayesianReputation(s, f).Confidence(), (s + f + 4) as real;
    MulMonotone(Lead(s, f), Lead(s + f, 0), t);
    DivLess(Lead(s, f), t, Lead(s + f, 0), t);
    MulMonotone(Lead(s, f) / t, Lead(s + f, 0) / t, c);
    Round2Monotone(BayesianReputation(s, f).Exact(), BayesianReputation(s + f, 0).Exact());
  }

  lemma FourteenAndFifteen()
    ensures BayesianReputation(14, 0).Score100() < 75.0 <= BayesianReputation(15, 0).Score100()
  {
    var a, b := BayesianReputation(14, 0), BayesianReputation(15, 0);
    assert a.Confidence() == 14.0 / 22.0 && a.Mean() == 16.0 / 18.0;
    assert b.Confidence() == 15.0 / 23.0 && b.Mean() == 17.0 / 19.0;
    Round2Against(a.Exact(), 7475);
    Round2Against(b.Exact(), 7500);
  }

  /** A score of 75 needs 15 observations, which already give the confidence the verdict asks for. */
  lemma ScoreImpliesVolume(r: BayesianReputation)
    requires r.Score100() >= 75.0
    ensures r.Observations() >= 15 && r.Confidence() >= 0.5
  {
    var n := r.Observations();
    AllPassesBest(r.successes, r.failures);
    FourteenAndFifteen();
    if n < 15 {
      ManyPasses(n, 14 - n, 0);
    }
    DivLess(15.0, 23.0, n as real, (n + 8) as real);
  }
}
