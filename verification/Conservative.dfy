/** How the conservative score moves with one more result: exactly when a pass raises it, and that a fail never does. */
module Conservative {
  import opened Rounding
  import opened Reputation

  /** The score before clamping the lower bound at zero. */
  function Unclamped(r: BayesianReputation, root: real): real {
    r.Adjusted(r.Mean() - Z * root)
  }

  /** The score of a lower bound of zero. */
  function Floor(r: BayesianReputation): real {
    r.Adjusted(0.0)
  }

  function Conservative100(r: BayesianReputation, root: real): real {
    r.Adjusted(r.LowerBound(Z, root))
  }

  /** The root of the variance, cleared of the squared volume. */
  function Spread(s: nat, f: nat, root: real): real {
    (s + f + 4) as real * root
  }

  /** The lead less its uncertainty. */
  function SureLead(s: nat, f: nat, root: real): real {
    Lead(s, f) - 2.0 * Z * Spread(s, f, root)
  }

  ghost predicate RootOf(root: real, s: nat, f: nat) {
    IsRoot(root, BayesianReputation(s, f).Variance())
  }

  ghost predicate SpreadOf(q: real, a: real, b: real) {
    0.0 <= q && q * q * (a + b + 1.0) == a * b
  }

  lemma SpreadSquare(s: nat, f: nat, root: real)
    requires RootOf(root, s, f)
    ensures SpreadOf(Spread(s, f, root), (s + 2) as real, (f + 2) as real)
  {
    var a, b := (s + 2) as real, (f + 2) as real;
    var t := a + b;
    var v := a * b / (t * t * (t + 1.0));
    assert v == BayesianReputation(s, f).Variance();
    assert v * (t * t * (t + 1.0)) == a * b;
    assert (t * root) * (t * root) == t * t * (root * root);
    assert (t * t * v) * (t + 1.0) == v * (t * t * (t + 1.0));
  }

  lemma UnclampedForm(s: nat, f: nat, root: real)
    ensures var r := BayesianReputation(s, f);
            Unclamped(r, root) == 50.0 + 50.0 * (r.Confidence() * (SureLead(s, f, root) / (s + f + 4) as real))
  {
    var r, t := BayesianReputation(s, f), (s + f + 4) as real;
    MeanForm(s, f);
    var x, y := Lead(s, f) / t, SureLead(s, f, root) / t;
    assert x * t == Lead(s, f);
    DivEqual(SureLead(s, f, root), t, x - 2.0 * Z * root);
    assert r.Mean() - Z * root == 0.5 + 0.5 * y;
    Distribute(r.Confidence(), y);
  }

  lemma FloorForm(r: BayesianReputation)
    ensures Floor(r) == 50.0 - 50.0 * r.Confidence()
  {
  }

  /** The score is the larger of the two. */
  lemma ClampForm(r: BayesianReputation, root: real)
    ensures Floor(r) <= Conservative100(r, root) && Unclamped(r, root) <= Conservative100(r, root)
    ensures Conservative100(r, root) == Floor(r) || Conservative100(r, root) == Unclamped(r, root)
  {
    var lower := r.Mean() - Z * root;
    if lower > 0.0 {
      AdjustedOrdered(r, 0.0, lower);
    } else {
      MulMonotone(lower, 0.0, r.Confidence());
    }
  }

  // ---------- comparing two records ----------

  /** Confidence times relative sure lead, below the confidence cap. */
  function SureGain(s: nat, f: nat, root: real): real {
    Gain((s + f) as real, SureLead(s, f, root))
  }

  lemma BelowCapForm(s: nat, f: nat, root: real)
    requires s + f <= 792
    ensures Unclamped(BayesianReputation(s, f), root) == 50.0 + 50.0 * SureGain(s, f, root)
  {
    var n, x := (s + f) as real, SureLead(s, f, root);
    UnclampedForm(s, f, root);
    ConfidenceBelowCap(s, f);
    QuotientProduct(n, n + 8.0, x, n + 4.0);
    var q := n / (n + 8.0) * (x / (n + 4.0));
    assert Unclamped(BayesianReputation(s, f), root) == 50.0 + 50.0 * q;
    assert q == SureGain(s, f, root);
  }

  lemma BelowCapOrder(s: nat, f: nat, root: real, s': nat, f': nat, root': real)
    requires s + f <= 792 && s' + f' <= 792 && SureGain(s, f, root) <= SureGain(s', f', root')
    ensures Unclamped(BayesianReputation(s, f), root) <= Unclamped(BayesianReputation(s', f'), root')
  {
    BelowCapForm(s, f, root);
    BelowCapForm(s', f', root');
    var x, y := Unclamped(BayesianReputation(s, f), root), Unclamped(BayesianReputation(s', f'), root');
    assert x <= y;
  }

  lemma CappedConfidence(s: nat, f: nat)
    requires s + f >= 792
    ensures BayesianReputation(s, f).Confidence() == 0.99
  {
    DivLess(792.0, 800.0, (s + f) as real, (s + f + 8) as real);
  }

  lemma CappedOrder(s: nat, f: nat, root: real, s': nat, f': nat, root': real)
    requires s + f >= 792 && s' + f' >= 792
    requires SureLead(s, f, root) * (s' + f' + 4) as real <= SureLead(s', f', root') * (s + f + 4) as real
    ensures Unclamped(BayesianReputation(s, f), root) <= Unclamped(BayesianReputation(s', f'), root')
  {
    UnclampedForm(s, f, root);
    UnclampedForm(s', f', root');
    CappedConfidence(s, f);
    CappedConfidence(s', f');
    DivLess(SureLead(s, f, root), (s + f + 4) as real, SureLead(s', f', root'), (s' + f' + 4) as real);
  }

  // ---------- the spread of one more result ----------

  lemma SquaresOrdered(x: real, y: real)
    requires 0.0 <= x && 0.0 <= y && x * x <= y * y
    ensures x <= y
  {
    assert (x - y) * (x + y) == x * x - y * y;
    if x + y > 0.0 {
      SignOfFactor(x - y, x + y);
    }
  }

  lemma SpreadAtLeastOne(a: real, b: real, q: real)
    requires SpreadOf(q, a, b) && a >= 3.0 && b >= 2.0
    ensures q >= 1.0
  {
    MulMonotone(2.0, a - 1.0, b - 1.0);
    assert a * b >= a + b + 1.0;
    Cancel(1.0, q * q, a + b + 1.0);
    SquaresOrdered(1.0, q);
  }

  lemma Cancel(x: real, y: real, c: real)
    requires 0.0 < c && x * c <= y * c
    ensures x <= y
  {
    assert (y - x) * c >= 0.0;
    SignOfFactor(x - y, c);
  }

  /** The square of the spread stays below either side's weight. */
  lemma SpreadBelow(a: real, b: real, q: real)
    requires SpreadOf(q, a, b) && a >= 2.0 && b >= 2.0
    ensures q * q <= a
  {
    assert a * b <= a * (a + b + 1.0);
    Cancel(q * q, a, a + b + 1.0);
  }

  lemma SquareStep(a: real, b: real, q: real, p: real)
    requires SpreadOf(q, a, b) && SpreadOf(p, a + 1.0, b)
    ensures (p * p - q * q) * ((a + b + 1.0) * (a + b + 2.0)) == b * (b + 1.0)
  {
    var u, v := a + b + 1.0, a + b + 2.0;
    assert (p * p) * (u * v) == (a + 1.0) * b * u;
    assert (q * q) * (u * v) == a * b * v;
    assert (a + 1.0) * b * u - a * b * v == b * (b + 1.0);
  }

  lemma SpreadRises(a: real, b: real, q: real, p: real)
    requires SpreadOf(q, a, b) && SpreadOf(p, a + 1.0, b) && a >= 2.0 && b >= 2.0
    ensures q <= p
  {
    SquareStep(a, b, q, p);
    var w, d := (a + b + 1.0) * (a + b + 2.0), p * p - q * q;
    assert b * (b + 1.0) >= 0.0 && d * w >= 0.0;
    SignOfFactor(-d, w) by {
      assert -d * w <= 0.0;
    }
    SquaresOrdered(q, p);
  }

  lemma HalfStep(e: real, sum: real, w: real, c: real)
    requires 0.0 <= e && 2.0 <= sum && 0.0 < w && e * sum * w == c
    ensures 2.0 * e * w <= c
  {
    MulMonotone(2.0, sum, e);
    MulMonotone(2.0 * e, e * sum, w);
  }

  lemma FactorStep(q: real, p: real, w: real, c: real)
    requires (p * p - q * q) * w == c
    ensures (p - q) * (p + q) * w == c
  {
    assert (p - q) * (p + q) == p * p - q * q;
  }

  lemma RootStep(q: real, p: real, w: real, c: real)
    requires 1.0 <= q <= p && 0.0 < w && (p * p - q * q) * w == c
    ensures 2.0 * (p - q) * w <= c
  {
    FactorStep(q, p, w, c);
    HalfStep(p - q, p + q, w, c);
  }

  lemma SpreadStep(a: real, b: real, q: real, p: real)
    requires SpreadOf(q, a, b) && SpreadOf(p, a + 1.0, b) && 1.0 <= q <= p && a >= 3.0 && b >= 2.0
    ensures 2.0 * (p - q) * ((a + b + 1.0) * (a + b + 2.0)) <= b * (b + 1.0)
  {
    SquareStep(a, b, q, p);
    RootStep(q, p, (a + b + 1.0) * (a + b + 2.0), b * (b + 1.0));
  }

  // ---------- one more pass, below the cap ----------

  function Before(n: real): real {
    n * (n + 5.0) * (n + 9.0)
  }

  function After(n: real): real {
    (n + 1.0) * (n + 4.0) * (n + 8.0)
  }

  /** What the weight of the evidence gains by one more result; negative up to five results. */
  function Growth(n: real): real {
    n * n + n - 32.0
  }

  lemma GrowthForm(n: real)
    ensures Before(n) - After(n) == Growth(n)
    ensures After(n) - Growth(n) * n == 12.0 * n * n + 76.0 * n + 32.0
  {
  }

  lemma PassCross(n: real, x: real, y: real)
    requires 0.0 <= n && Before(n) * x <= After(n) * y
    ensures Gain(n, x) <= Gain(n + 1.0, y)
  {
    assert Before(n) * x == n * x * ((n + 1.0 + 8.0) * (n + 1.0 + 4.0));
    assert After(n) * y == (n + 1.0) * y * ((n + 8.0) * (n + 4.0));
    CrossedGain(n, x, n + 1.0, y);
  }

  lemma ScaleZ(x: real, y: real)
    requires x <= y
    ensures Z * x <= Z * y
  {
  }

  lemma SumTimes(a: real, b: real, c: real)
    ensures (a + b) * c == a * c + b * c
  {
  }

  /** What a pass does to lead and uncertainty, both weighed. */
  lemma Weighed(u: real, v: real, d: real, q: real, p: real)
    ensures v * (d + 1.0 - 2.0 * Z * p) - u * (d - 2.0 * Z * q) == v + (v - u) * d - Z * (2.0 * (v * p - u * q))
  {
    assert v * (d + 1.0 - 2.0 * Z * p) == v * d + v - 2.0 * Z * (v * p);
    assert u * (d - 2.0 * Z * q) == u * d - 2.0 * Z * (u * q);
    assert (v - u) * d == v * d - u * d;
  }

  lemma CostForm(u: real, v: real, k: real, q: real, p: real, e: real)
    requires u - v == k && e == 2.0 * (p - q)
    ensures 2.0 * (v * p - u * q) == u * e - 2.0 * (k * p)
  {
    assert u == v + k;
    SumTimes(v, k, p);
    assert u * e == 2.0 * (u * p) - 2.0 * (u * q);
  }

  /** The margin of a pass: `u` and `v` weigh the evidence before and after it, `k` is what the weight loses, `e` is
      twice the step of the spread. */
  lemma PassMargin(u: real, v: real, k: real, n: real, f: real, q: real, p: real, e: real, top: real)
    requires u - v == k && v - k * n == 12.0 * n * n + 76.0 * n + 32.0
    requires e == 2.0 * (p - q) && u * e <= top && k <= k * p
    requires Z * (top - 2.0 * k) <= 12.0 * n * n + 76.0 * n + 32.0 + 2.0 * f * k
    ensures u * (n - 2.0 * f - 2.0 * Z * q) <= v * (n - 2.0 * f + 1.0 - 2.0 * Z * p)
  {
    CostForm(u, v, k, q, p, e);
    ScaleZ(2.0 * (v * p - u * q), top - 2.0 * k);
    Weighed(u, v, n - 2.0 * f, q, p);
    assert (v - u) * (n - 2.0 * f) == -(k * n) + 2.0 * f * k;
  }

  /** Twice the step of the spread, weighed by the evidence, is at most the fails times the volume. */
  lemma WeighedStep(n: real, b: real, x: real)
    requires 1.0 <= n && 2.0 <= b <= n + 1.0 && x * (n + 6.0) <= b * (b + 1.0)
    ensures x * (n + 9.0) <= b * (n + 5.0)
  {
    MulMonotone(b + 1.0, n + 2.0, b);
    assert x * (n + 6.0) <= b * (n + 2.0) <= b * (n + 6.0);
    Cancel(x, b, n + 6.0);
    assert x * (n + 9.0) == x * (n + 6.0) + 3.0 * x && b * (n + 5.0) == b * (n + 2.0) + 3.0 * b;
  }

  lemma BeforeTimes(n: real, e: real, x: real, y: real)
    requires x == e * (n + 5.0) && y == x * (n + 9.0)
    ensures Before(n) * e == y * n
  {
    assert e * (n + 5.0) * (n + 9.0) == y by {
      assert e * (n + 5.0) * (n + 9.0) == x * (n + 9.0);
    }
    assert Before(n) * e == e * (n + 5.0) * (n + 9.0) * n;
  }

  /** From six results on the growing evidence pays for the uncertainty. */
  lemma LargePolynomial(n: real, f: real, w: real)
    requires 6.0 <= n && 0.0 <= f <= n - 1.0 && w == (f + 2.0) * (n + 5.0)
    ensures Z * (w * n - 2.0 * Growth(n)) <= 12.0 * n * n + 76.0 * n + 32.0 + 2.0 * f * Growth(n)
  {
    var slope := 2.0 * Growth(n) - Z * (n * (n + 5.0));
    var rest := 12.0 * n * n + 76.0 * n + 32.0 + 2.0 * Z * Growth(n) - 2.0 * Z * (n * (n + 5.0));
    assert w * n == f * (n * (n + 5.0)) + 2.0 * (n * (n + 5.0));
    assert f * slope == 2.0 * f * Growth(n) - Z * (f * (n * (n + 5.0)));
    if slope < 0.0 {
      MulMonotone(f, n - 1.0, -slope);
      LargeEnd(n);
    } else {
      MulMonotone(0.0, f, slope);
      assert rest >= 0.0;
    }
  }

  lemma LargeEnd(n: real)
    requires 6.0 <= n
    ensures 0.0 <= (n - 1.0) * (2.0 * Growth(n) - Z * (n * (n + 5.0)))
                   + 12.0 * n * n + 76.0 * n + 32.0 + 2.0 * Z * Growth(n) - 2.0 * Z * (n * (n + 5.0))
  {
    var n2 := n * n;
    assert (n - 1.0) * (2.0 * Growth(n) - Z * (n * (n + 5.0)))
           + 12.0 * n * n + 76.0 * n + 32.0 + 2.0 * Z * Growth(n) - 2.0 * Z * (n * (n + 5.0))
           == 0.355 * (n2 * n) + 5.42 * n2 + 5.065 * n - 9.28;
    assert n2 * n >= 0.0 && n2 >= 36.0;
  }

  lemma WeighedTotal(n: real, b: real, e: real, x: real, w: real)
    requires 6.0 <= n && 2.0 <= b <= n + 1.0 && w == b * (n + 5.0)
    requires x == e * (n + 5.0) && x * (n + 6.0) <= b * (b + 1.0)
    ensures Before(n) * e <= w * n
  {
    var y := x * (n + 9.0);
    WeighedStep(n, b, x);
    BeforeTimes(n, e, x, y);
    MulMonotone(y, w, n);
  }

  lemma PassAssembled(n: real, f: real, q: real, p: real, e: real, top: real)
    requires e == 2.0 * (p - q) && Before(n) * e <= top && Growth(n) <= Growth(n) * p
    requires Z * (top - 2.0 * Growth(n)) <= 12.0 * n * n + 76.0 * n + 32.0 + 2.0 * f * Growth(n)
    ensures Before(n) * (n - 2.0 * f - 2.0 * Z * q) <= After(n) * (n - 2.0 * f + 1.0 - 2.0 * Z * p)
  {
    GrowthForm(n);
    PassMargin(Before(n), After(n), Growth(n), n, f, q, p, e, top);
  }

  /** `x` is twice the step of the spread times `n + 5`. */
  lemma PassLarge(n: real, f: real, q: real, p: real, e: real, x: real)
    requires 6.0 <= n && 0.0 <= f <= n - 1.0 && 1.0 <= p && e == 2.0 * (p - q)
    requires x == e * (n + 5.0) && x * (n + 6.0) <= (f + 2.0) * (f + 3.0)
    ensures Before(n) * (n - 2.0 * f - 2.0 * Z * q) <= After(n) * (n - 2.0 * f + 1.0 - 2.0 * Z * p)
  {
    var w := (f + 2.0) * (n + 5.0);
    WeighedTotal(n, f + 2.0, e, x, w);
    LargePolynomial(n, f, w);
    GrowthPays(n, p);
    PassAssembled(n, f, q, p, e, w * n);
  }

  lemma GrowthPays(n: real, p: real)
    requires 6.0 <= n && 1.0 <= p
    ensures Growth(n) <= Growth(n) * p
  {
    assert Growth(n) >= 0.0;
    MulMonotone(1.0, p, Growth(n));
  }

  /** Up to five results, one record at a time. */
  lemma PassSmall(s: nat, f: nat, n: real, q: real, p: real, x: real, before: real, after: real)
    requires 1 <= s && s + f <= 5 && n == (s + f) as real && SpreadOf(q, (s + 2) as real, (f + 2) as real)
    requires StepBound(n, (f + 2) as real, q, p, x)
    requires before == Lead(s, f) - 2.0 * Z * q && after == Lead(s, f) + 1.0 - 2.0 * Z * p
    ensures Before(n) * before <= After(n) * after
  {
    assert 2.0 * q <= q * q + 1.0 by {
      assert (q - 1.0) * (q - 1.0) >= 0.0;
    }
    if s == 1 {
      if f == 0 {} else if f == 1 {} else if f == 2 {} else if f == 3 {} else {}
    } else if s == 2 {
      if f == 0 {} else if f == 1 {} else if f == 2 {} else {}
    } else if s == 3 {
      if f == 0 {} else if f == 1 {} else {}
    } else if s == 4 {
      if f == 0 {} else {}
    }
  }

  // ---------- a seller with a verified pass ----------

  /** `x` is twice the step of the spread times `n + 5`. */
  ghost predicate StepBound(n: real, b: real, q: real, p: real, x: real) {
    1.0 <= q <= p && x == 2.0 * (p - q) * (n + 5.0) && x * (n + 6.0) <= b * (b + 1.0)
  }

  lemma StepBounded(s: nat, f: nat, root: real, root': real) returns (x: real)
    requires 1 <= s && RootOf(root, s, f) && RootOf(root', s + 1, f)
    ensures StepBound((s + f) as real, (f + 2) as real, Spread(s, f, root), Spread(s + 1, f, root'), x)
  {
    SpreadSquare(s, f, root);
    SpreadSquare(s + 1, f, root');
    x := SpreadBound((s + 2) as real, (f + 2) as real, Spread(s, f, root), Spread(s + 1, f, root'));
  }

  lemma SpreadBound(a: real, b: real, q: real, p: real) returns (x: real)
    requires SpreadOf(q, a, b) && SpreadOf(p, a + 1.0, b) && a >= 3.0 && b >= 2.0
    ensures StepBound(a + b - 4.0, b, q, p, x)
  {
    SpreadAtLeastOne(a, b, q);
    SpreadRises(a, b, q, p);
    SpreadStep(a, b, q, p);
    x := StepForm(a + b - 4.0, b, q, p);
  }

  lemma StepForm(n: real, b: real, q: real, p: real) returns (x: real)
    requires 1.0 <= q <= p && 2.0 * (p - q) * ((n + 5.0) * (n + 6.0)) <= b * (b + 1.0)
    ensures StepBound(n, b, q, p, x)
  {
    var e := 2.0 * (p - q);
    x := e * (n + 5.0);
    assert x * (n + 6.0) == e * ((n + 5.0) * (n + 6.0));
  }

  lemma PassFew(s: nat, f: nat, n: real, q: real, p: real, x: real, before: real, after: real)
    requires 1 <= s && s + f <= 5 && n == (s + f) as real && SpreadOf(q, (s + 2) as real, (f + 2) as real)
    requires StepBound(n, (f + 2) as real, q, p, x)
    requires before == Lead(s, f) - 2.0 * Z * q && after == Lead(s, f) + 1.0 - 2.0 * Z * p
    ensures Gain(n, before) <= Gain(n + 1.0, after)
  {
    PassSmall(s, f, n, q, p, x, before, after);
    PassCross(n, before, after);
  }

  lemma PassCleared(s: nat, f: nat, q: real, p: real, x: real)
    requires 1 <= s && SpreadOf(q, (s + 2) as real, (f + 2) as real)
             && StepBound((s + f) as real, (f + 2) as real, q, p, x)
    ensures Gain((s + f) as real, Lead(s, f) - 2.0 * Z * q)
            <= Gain((s + f) as real + 1.0, Lead(s, f) + 1.0 - 2.0 * Z * p)
  {
    if s + f <= 5 {
      PassFew(s, f, (s + f) as real, q, p, x, Lead(s, f) - 2.0 * Z * q, Lead(s, f) + 1.0 - 2.0 * Z * p);
    } else {
      PassMany((s + f) as real, f as real, Lead(s, f), q, p, x);
    }
  }

  lemma PassMany(n: real, fails: real, lead: real, q: real, p: real, x: real)
    requires 6.0 <= n && 0.0 <= fails <= n - 1.0 && lead == n - 2.0 * fails && StepBound(n, fails + 2.0, q, p, x)
    ensures Gain(n, lead - 2.0 * Z * q) <= Gain(n + 1.0, lead + 1.0 - 2.0 * Z * p)
  {
    PassLarge(n, fails, q, p, 2.0 * (p - q), x);
    PassCross(n, lead - 2.0 * Z * q, lead + 1.0 - 2.0 * Z * p);
  }

  lemma SameGain(n: real, x: real, m: real, y: real)
    requires 0.0 <= n && n == m && x == y
    ensures Gain(n, x) == Gain(m, y)
  {
  }

  lemma PassGainsFrom(s: nat, f: nat, root: real, root': real, x: real)
    requires 1 <= s && SpreadOf(Spread(s, f, root), (s + 2) as real, (f + 2) as real)
    requires StepBound((s + f) as real, (f + 2) as real, Spread(s, f, root), Spread(s + 1, f, root'), x)
    ensures SureGain(s, f, root) <= SureGain(s + 1, f, root')
  {
    var q, p := Spread(s, f, root), Spread(s + 1, f, root');
    PassCleared(s, f, q, p, x);
    SameGain((s + f) as real + 1.0, Lead(s, f) + 1.0 - 2.0 * Z * p, (s + 1 + f) as real, SureLead(s + 1, f, root'));
  }

  lemma PassGains(s: nat, f: nat, root: real, root': real)
    requires 1 <= s && RootOf(root, s, f) && RootOf(root', s + 1, f)
    ensures SureGain(s, f, root) <= SureGain(s + 1, f, root')
  {
    var x := StepBounded(s, f, root, root');
    SpreadSquare(s, f, root);
    PassGainsFrom(s, f, root, root', x);
  }

  lemma PassCapped(s: nat, f: nat, root: real, root': real)
    requires 1 <= s && s + f >= 792 && RootOf(root, s, f) && RootOf(root', s + 1, f)
    ensures Unclamped(BayesianReputation(s, f), root) <= Unclamped(BayesianReputation(s + 1, f), root')
  {
    var x := StepBounded(s, f, root, root');
    CappedPass(s, f, root, root', x);
  }

  lemma CappedPass(s: nat, f: nat, root: real, root': real, x: real)
    requires 1 <= s && s + f >= 792
    requires StepBound((s + f) as real, (f + 2) as real, Spread(s, f, root), Spread(s + 1, f, root'), x)
    ensures Unclamped(BayesianReputation(s, f), root) <= Unclamped(BayesianReputation(s + 1, f), root')
  {
    CappedCleared(s, f, root, root', x);
    CappedOrder(s, f, root, s + 1, f, root');
  }

  lemma CappedCleared(s: nat, f: nat, root: real, root': real, x: real)
    requires 1 <= s && StepBound((s + f) as real, (f + 2) as real, Spread(s, f, root), Spread(s + 1, f, root'), x)
    ensures SureLead(s, f, root) * (s + 1 + f + 4) as real <= SureLead(s + 1, f, root') * (s + f + 4) as real
  {
    CappedMargin((s + f) as real, Lead(s, f), (f + 2) as real, Spread(s, f, root), Spread(s + 1, f, root'), x);
  }

  lemma CappedMargin(n: real, d: real, b: real, q: real, p: real, x: real)
    requires 0.0 <= n && 2.0 <= b <= n + 1.0 && d == n + 4.0 - 2.0 * b && StepBound(n, b, q, p, x)
    ensures (d - 2.0 * Z * q) * (n + 5.0) <= (d + 1.0 - 2.0 * Z * p) * (n + 4.0)
  {
    var e := 2.0 * (p - q);
    MulMonotone(b + 1.0, n + 6.0, b);
    Cancel(x, b, n + 6.0);
    assert e * (n + 4.0) == x - e;
    assert (d + 1.0 - 2.0 * Z * p) * (n + 4.0) - (d - 2.0 * Z * q) * (n + 5.0)
        == n + 4.0 - d - Z * (e * (n + 4.0)) + 2.0 * Z * q;
  }

  /** The uncertainty never exceeds the passes, once one is verified. */
  lemma SpreadCovered(a: real, b: real, q: real)
    requires SpreadOf(q, a, b) && a >= 3.0 && b >= 2.0
    ensures Z * q <= a
  {
    SpreadBelow(a, b, q);
    assert (Z * q) * (Z * q) == 2.706025 * (q * q);
    MulMonotone(3.0, a, a);
    SquaresOrdered(Z * q, a);
  }

  lemma SureLeadCovered(s: nat, f: nat, root: real)
    requires 1 <= s && RootOf(root, s, f)
    ensures -((s + f + 4) as real) <= SureLead(s, f, root)
  {
    SpreadSquare(s, f, root);
    SpreadCovered((s + 2) as real, (f + 2) as real, Spread(s, f, root));
  }

  function Lifted(c: real, x: real, t: real): real
    requires 0.0 < t
  {
    50.0 + 50.0 * (c * (x / t))
  }

  lemma UnclampedLifted(s: nat, f: nat, root: real)
    ensures var r := BayesianReputation(s, f);
            Unclamped(r, root) == Lifted(r.Confidence(), SureLead(s, f, root), (s + f + 4) as real)
  {
    UnclampedForm(s, f, root);
  }

  lemma FloorUnderUnclamped(s: nat, f: nat, root: real)
    requires 1 <= s && RootOf(root, s, f)
    ensures Floor(BayesianReputation(s, f)) <= Unclamped(BayesianReputation(s, f), root)
  {
    var r := BayesianReputation(s, f);
    SureLeadCovered(s, f, root);
    UnclampedLifted(s, f, root);
    FloorForm(r);
    FloorUnder(r.Confidence(), SureLead(s, f, root), (s + f + 4) as real);
  }

  /** The lower bound is then positive. */
  lemma FloorBelow(s: nat, f: nat, root: real)
    requires 1 <= s && RootOf(root, s, f)
    ensures Conservative100(BayesianReputation(s, f), root) == Unclamped(BayesianReputation(s, f), root)
  {
    FloorUnderUnclamped(s, f, root);
    ClampForm(BayesianReputation(s, f), root);
  }

  lemma FloorUnder(c: real, x: real, t: real)
    requires 0.0 <= c && 0.0 < t && -t <= x
    ensures 50.0 - 50.0 * c <= Lifted(c, x, t)
  {
    RatioAbove(c, x, t);
  }

  lemma RatioAbove(c: real, x: real, t: real)
    requires 0.0 <= c && 0.0 < t && -t <= x
    ensures -c <= c * (x / t)
  {
    DivLess(-t, t, x, t);
    DivEqual(-t, t, -1.0);
    MulMonotone(-1.0, x / t, c);
  }

  lemma PassAfterPass(s: nat, f: nat, root: real, root': real)
    requires 1 <= s && RootOf(root, s, f) && RootOf(root', s + 1, f)
    ensures Conservative100(BayesianReputation(s, f), root) <= Conservative100(BayesianReputation(s + 1, f), root')
  {
    FloorBelow(s, f, root);
    FloorBelow(s + 1, f, root');
    if s + f < 792 {
      PassGains(s, f, root, root');
      BelowCapOrder(s, f, root, s + 1, f, root');
    } else {
      PassCapped(s, f, root, root');
    }
  }

  // ---------- a seller without one ----------

  /** After seven fails the lower bound is clamped. */
  lemma ClampedWithoutPass(f: nat, root: real)
    requires f >= 7 && RootOf(root, 0, f)
    ensures Conservative100(BayesianReputation(0, f), root) == Floor(BayesianReputation(0, f))
  {
    var q, b := Spread(0, f, root), (f + 2) as real;
    SpreadSquare(0, f, root);
    UncertaintyCovers(b, q);
    UnclampedForm(0, f, root);
    FloorForm(BayesianReputation(0, f));
    RatioBelow(BayesianReputation(0, f).Confidence(), SureLead(0, f, root), (f + 4) as real);
    ClampForm(BayesianReputation(0, f), root);
  }

  lemma UncertaintyCovers(b: real, q: real)
    requires b >= 9.0 && SpreadOf(q, 2.0, b)
    ensures 2.0 <= Z * q
  {
    assert (Z * q) * (Z * q) == 2.706025 * (q * q);
    Cancel(1.5, q * q, b + 3.0);
    SquaresOrdered(2.0, Z * q);
  }

  lemma RatioBelow(c: real, x: real, t: real)
    requires 0.0 <= c && 0.0 < t && x <= -t
    ensures c * (x / t) <= -c
  {
    DivLess(x, t, -t, t);
    DivEqual(-t, t, -1.0);
    MulMonotone(x / t, -1.0, c);
  }

  lemma Tangent(p: real)
    ensures 2.0 * Z * p <= 1.028125 * (p * p) + 2.632
  {
    assert (p - 1.6) * (p - 1.6) >= 0.0;
  }

  lemma CostUp(n: real, x: real, y: real)
    requires 0.0 <= n && x <= y
    ensures (n + 1.0) * (n + 8.0) * x <= (n + 1.0) * (n + 8.0) * y
  {
    MulMonotone(x, y, (n + 1.0) * (n + 8.0));
  }

  /** With four fails or more, a first pass lifts the bound above the old floor. */
  lemma FirstPassCleared(n: real, p: real, w: real)
    requires 4.0 <= n && w * (n + 6.0) == 3.0 * (n + 2.0) && 2.0 * Z * p <= 1.028125 * w + 2.632
    ensures Before(n) * -(n + 4.0) <= After(n) * (1.0 - n - 2.0 * Z * p)
  {
    FirstPassPolynomial(n, w);
    CostUp(n, n - 1.0 + 2.0 * Z * p, n + 1.632 + 1.028125 * w);
    FirstPassScaled(n, p);
  }

  lemma FirstPassScaled(n: real, p: real)
    requires 4.0 <= n && (n + 1.0) * (n + 8.0) * (n - 1.0 + 2.0 * Z * p) <= Before(n)
    ensures Before(n) * -(n + 4.0) <= After(n) * (1.0 - n - 2.0 * Z * p)
  {
    var g := (n + 1.0) * (n + 8.0) * (n - 1.0 + 2.0 * Z * p);
    MulMonotone(g, Before(n), n + 4.0);
    assert After(n) * (1.0 - n - 2.0 * Z * p) == -(g * (n + 4.0));
  }

  lemma FirstPassPolynomial(n: real, w: real)
    requires 4.0 <= n && w * (n + 6.0) == 3.0 * (n + 2.0)
    ensures (n + 1.0) * (n + 8.0) * (n + 1.632 + 1.028125 * w) <= Before(n)
  {
    var m := (n + 1.0) * (n + 8.0);
    assert (n + 1.632 + 1.028125 * w) * (n + 6.0) == (n + 1.632) * (n + 6.0) + 3.084375 * (n + 2.0);
    FirstPassQuartic(n);
    assert m * (n + 1.632 + 1.028125 * w) * (n + 6.0) == m * ((n + 1.632) * (n + 6.0) + 3.084375 * (n + 2.0));
    Cancel(m * (n + 1.632 + 1.028125 * w), Before(n), n + 6.0);
  }

  lemma FirstPassQuartic(n: real)
    requires 4.0 <= n
    ensures (n + 1.0) * (n + 8.0) * ((n + 1.632) * (n + 6.0) + 3.084375 * (n + 2.0)) <= Before(n) * (n + 6.0)
  {
    var n2 := n * n;
    assert Before(n) * (n + 6.0) - (n + 1.0) * (n + 8.0) * ((n + 1.632) * (n + 6.0) + 3.084375 * (n + 2.0))
        == 0.283625 * (n2 * n) + 8.591875 * n2 + 40.62225 * n - 127.686;
    assert n2 >= 16.0 && n2 * n >= 0.0;
  }

  lemma GainOfFloor(n: real)
    requires 0.0 <= n
    ensures Gain(n, -(n + 4.0)) == -(n / (n + 8.0))
  {
    var c := n / (n + 8.0);
    assert c * (n + 8.0) == n;
    assert -c * ((n + 8.0) * (n + 4.0)) == n * -(n + 4.0);
    DivEqual(n * -(n + 4.0), (n + 8.0) * (n + 4.0), -c);
  }

  lemma FirstPassGain(f: nat, root: real)
    requires f >= 4 && RootOf(root, 1, f)
    ensures Gain(f as real, -(f as real + 4.0)) <= SureGain(1, f, root)
  {
    var n, p := f as real, Spread(1, f, root);
    SpreadSquare(1, f, root);
    Tangent(p);
    FirstPassCleared(n, p, p * p);
    PassCross(n, -(n + 4.0), SureLead(1, f, root));
  }

  lemma FloorLifted(f: nat, root: real)
    requires f >= 4 && RootOf(root, 1, f)
    ensures Floor(BayesianReputation(0, f)) <= Conservative100(BayesianReputation(1, f), root)
  {
    FloorForm(BayesianReputation(0, f));
    FloorForm(BayesianReputation(1, f));
    ClampForm(BayesianReputation(1, f), root);
    if f + 1 <= 792 {
      FirstPassGain(f, root);
      GainOfFloor(f as real);
      ConfidenceBelowCap(0, f);
      BelowCapForm(1, f, root);
    } else {
      CappedConfidence(0, f);
      CappedConfidence(1, f);
    }
  }

  lemma Above(low: real, q: real, square: real)
    requires 0.0 <= q && 0.0 <= low && q * q == square && low * low <= square
    ensures low <= q
  {
    SquaresOrdered(low, q);
  }

  lemma Below(q: real, high: real, square: real)
    requires 0.0 <= q && 0.0 <= high && q * q == square && square <= high * high
    ensures q <= high
  {
    SquaresOrdered(q, high);
  }

  /** Between four and six fails the bound is not clamped yet, and a pass already raises it. */
  lemma FewFails(f: nat, root: real, root': real)
    requires 4 <= f <= 6 && RootOf(root, 0, f) && RootOf(root', 1, f)
    ensures SureGain(0, f, root) <= SureGain(1, f, root')
  {
    var q, p := Spread(0, f, root), Spread(1, f, root');
    SpreadSquare(0, f, root);
    SpreadSquare(1, f, root');
    if f == 4 {
      Above(1.15, q, 12.0 / 9.0);
      Below(p, 1.35, 1.8);
    } else if f == 5 {
      Above(1.18, q, 1.4);
      Below(p, 1.39, 21.0 / 11.0);
    } else {
      Above(1.2, q, 16.0 / 11.0);
      Below(p, 1.42, 2.0);
    }
    FewFailsCleared(f, q, p);
    PassCross(f as real, SureLead(0, f, root), SureLead(1, f, root'));
  }

  lemma FewFailsCleared(f: nat, q: real, p: real)
    requires (f == 4 && 1.15 <= q && p <= 1.35) || (f == 5 && 1.18 <= q && p <= 1.39)
             || (f == 6 && 1.2 <= q && p <= 1.42)
    ensures Before(f as real) * (Lead(0, f) - 2.0 * Z * q) <= After(f as real) * (Lead(1, f) - 2.0 * Z * p)
  {
    if f == 4 {
    } else if f == 5 {
    } else {
    }
  }

  lemma FirstPassRaises(f: nat, root: real, root': real)
    requires f >= 4 && RootOf(root, 0, f) && RootOf(root', 1, f)
    ensures Conservative100(BayesianReputation(0, f), root) <= Conservative100(BayesianReputation(1, f), root')
  {
    FloorLifted(f, root');
    ClampForm(BayesianReputation(1, f), root');
    if f >= 7 {
      ClampedWithoutPass(f, root);
    } else {
      FewFails(f, root, root');
      BelowCapOrder(0, f, root, 1, f, root');
      ClampForm(BayesianReputation(0, f), root);
    }
  }

  // ---------- the four records a pass lowers ----------

  /** What separates the two scores, at two decimals. */
  function Mark(f: nat): int {
    if f == 0 then 4746 else if f == 1 then 4379 else if f == 2 then 4021 else 3698
  }

  lemma SpreadBefore(f: nat, root: real)
    requires f <= 3 && RootOf(root, 0, f)
    ensures Spread(0, f, root) <= if f == 1 then 1.0 else if f == 2 then 1.0691 else 1.11804
  {
    var q := Spread(0, f, root);
    SpreadSquare(0, f, root);
    if f == 0 {
      Below(q, 1.0, 0.8);
    } else if f == 1 {
      Below(q, 1.0, 1.0);
    } else if f == 2 {
      Below(q, 1.0691, 8.0 / 7.0);
    } else {
      Below(q, 1.11804, 1.25);
    }
  }

  lemma FewConfidence(n: nat)
    requires n <= 3
    ensures var c := BayesianReputation(0, n).Confidence();
            c == if n == 0 then 0.0 else if n == 1 then 1.0 / 9.0 else if n == 2 then 0.2 else 3.0 / 11.0
  {
    if n == 0 {
    } else if n == 1 {
    } else if n == 2 {
    } else {
    }
  }

  lemma ScoreBeforeAt(f: nat, c: real, x: real)
    requires f <= 3
    requires c == if f == 0 then 0.0 else if f == 1 then 1.0 / 9.0 else if f == 2 then 0.2 else 3.0 / 11.0
    requires x >= -(f as real) - 3.29 * if f == 1 then 1.0 else if f == 2 then 1.0691 else 1.11804
    ensures 50.0 + 50.0 * (c * (x / (f + 4) as real)) >= (Mark(f) + 1) as real / 100.0
  {
    if f == 0 {
    } else if f == 1 {
    } else if f == 2 {
    } else {
    }
  }

  lemma ScoreBefore(f: nat, root: real)
    requires f <= 3 && RootOf(root, 0, f)
    ensures Unclamped(BayesianReputation(0, f), root) >= (Mark(f) + 1) as real / 100.0
  {
    UnclampedForm(0, f, root);
    SpreadBefore(f, root);
    FewConfidence(f);
    ScoreBeforeAt(f, BayesianReputation(0, f).Confidence(), SureLead(0, f, root));
  }

  lemma ScoreAfter(f: nat, root: real)
    requires f <= 3 && RootOf(root, 1, f)
    ensures Unclamped(BayesianReputation(1, f), root) < Mark(f) as real / 100.0 + 0.005
  {
    var p := Spread(1, f, root);
    SpreadSquare(1, f, root);
    UnclampedForm(1, f, root);
    if f == 0 {
      Above(1.0, p, 1.0);
      assert BayesianReputation(1, 0).Confidence() == 1.0 / 9.0;
    } else if f == 1 {
      Above(1.133, p, 9.0 / 7.0);
      assert BayesianReputation(1, 1).Confidence() == 0.2;
    } else if f == 2 {
      Above(1.2247, p, 1.5);
      assert BayesianReputation(1, 2).Confidence() == 3.0 / 11.0;
    } else {
      Above(1.29099, p, 5.0 / 3.0);
      assert BayesianReputation(1, 3).Confidence() == 1.0 / 3.0;
    }
  }

  lemma Round2Under(x: real, n: int)
    requires x < n as real / 100.0 + 0.005
    ensures Round2(x) <= n as real / 100.0
  {
    assert 100.0 * x < n as real + 0.5;
    assert RoundHalfEven(100.0 * x) <= n;
  }

  lemma FirstPassLowers(f: nat, root: real, root': real)
    requires f <= 3 && RootOf(root, 0, f) && RootOf(root', 1, f)
    ensures Conservative100(BayesianReputation(1, f), root') < Conservative100(BayesianReputation(0, f), root)
    ensures Round2(Conservative100(BayesianReputation(1, f), root'))
            < Round2(Conservative100(BayesianReputation(0, f), root))
  {
    var before, after := Conservative100(BayesianReputation(0, f), root),
        Conservative100(BayesianReputation(1, f), root');
    ScoreBefore(f, root);
    ScoreAfter(f, root');
    ClampForm(BayesianReputation(0, f), root);
    FloorBelow(1, f, root');
    Round2Against(before, Mark(f) + 1);
    Round2Under(after, Mark(f));
  }

  /** A pass lowers the conservative score exactly on a seller's first pass after at most three fails. */
  lemma PassRaisesExactly(s: nat, f: nat, root: real, root': real)
    requires RootOf(root, s, f) && RootOf(root', s + 1, f)
    ensures Conservative100(BayesianReputation(s, f), root) <= Conservative100(BayesianReputation(s + 1, f), root')
            <==> !(s == 0 && f <= 3)
    ensures BayesianReputation(s, f).ConservativeScore100(Z, root)
            <= BayesianReputation(s + 1, f).ConservativeScore100(Z, root')
            <==> !(s == 0 && f <= 3)
  {
    var before, after := Conservative100(BayesianReputation(s, f), root),
        Conservative100(BayesianReputation(s + 1, f), root');
    if s == 0 && f <= 3 {
      FirstPassLowers(f, root, root');
    } else {
      if s == 0 {
        FirstPassRaises(f, root, root');
      } else {
        PassAfterPass(s, f, root, root');
      }
      Round2Monotone(before, after);
    }
  }

  // ---------- one more fail ----------

  lemma Weaker(u: real, v: real, d: real, q: real, p: real)
    ensures u * (d - 2.0 * Z * q) - v * (d - 1.0 - 2.0 * Z * p) == v + (u - v) * d + Z * (2.0 * (v * p - u * q))
  {
    assert v * (d - 1.0 - 2.0 * Z * p) == v * d - v - 2.0 * Z * (v * p);
    assert u * (d - 2.0 * Z * q) == u * d - 2.0 * Z * (u * q);
    assert (u - v) * d == u * d - v * d;
  }

  lemma FailMargin(u: real, v: real, k: real, n: real, s: real, q: real, p: real)
    requires u - v == k && v - k * n == 12.0 * n * n + 76.0 * n + 32.0
    requires 0.0 <= v && q <= p && 2.0 * Z * (k * q) <= 12.0 * n * n + 76.0 * n + 32.0 + 2.0 * s * k
    ensures v * (2.0 * s - n - 1.0 - 2.0 * Z * p) <= u * (2.0 * s - n - 2.0 * Z * q)
  {
    MulMonotone(q, p, v);
    SumTimes(v, k, q);
    assert u == v + k;
    ScaleZ(-2.0 * (k * q), 2.0 * (v * p - u * q));
    Weaker(u, v, 2.0 * s - n, q, p);
    assert (u - v) * (2.0 * s - n) == 2.0 * s * k - k * n;
  }

  lemma FailWhileGrowing(n: real, s: real, k: real, q: real)
    requires 0.0 <= s && 0.0 <= k <= n * n + n && 0.0 <= n && 2.0 * q <= s + 3.0
    ensures 2.0 * Z * (k * q) <= 12.0 * n * n + 76.0 * n + 32.0 + 2.0 * s * k
  {
    MulMonotone(2.0 * q, s + 3.0, k);
    MulMonotone(0.0, s, k);
    ScaleZ(2.0 * (k * q), s * k + 3.0 * k);
  }

  lemma FailWhileShrinking(n: real, s: real, k: real, q: real)
    requires 0.0 <= s <= n && -32.0 <= k < 0.0 && 0.0 <= q
    ensures 2.0 * Z * (k * q) <= 12.0 * n * n + 76.0 * n + 32.0 + 2.0 * s * k
  {
    MulMonotone(0.0, q, -k);
    MulMonotone(-k, 32.0, s);
    assert n * n >= 0.0 && s * k >= -32.0 * s;
  }

  lemma FailPolynomial(n: real, s: real, q: real)
    requires 0.0 <= s <= n && 0.0 <= q && q * q <= s + 2.0
    ensures 2.0 * Z * (Growth(n) * q) <= 12.0 * n * n + 76.0 * n + 32.0 + 2.0 * s * Growth(n)
  {
    assert (q - 1.0) * (q - 1.0) >= 0.0;
    if Growth(n) >= 0.0 {
      FailWhileGrowing(n, s, Growth(n), q);
    } else {
      FailWhileShrinking(n, s, Growth(n), q);
    }
  }

  lemma Flip(q: real, a: real, b: real)
    requires SpreadOf(q, a, b)
    ensures SpreadOf(q, b, a)
  {
  }

  lemma FailSpread(a: real, b: real, q: real, p: real)
    requires SpreadOf(q, a, b) && SpreadOf(p, a, b + 1.0) && a >= 2.0 && b >= 2.0
    ensures 0.0 <= q <= p && q * q <= a
    ensures a >= 3.0 ==> Z * q <= a
  {
    Flip(q, a, b);
    Flip(p, a, b + 1.0);
    SpreadRises(b, a, q, p);
    SpreadBelow(a, b, q);
    if a >= 3.0 {
      SpreadCovered(a, b, q);
    }
  }

  lemma FailSpreads(s: nat, f: nat, root: real, root': real)
    requires RootOf(root, s, f) && RootOf(root', s, f + 1)
    ensures 0.0 <= Spread(s, f, root) <= Spread(s, f + 1, root')
    ensures Spread(s, f, root) * Spread(s, f, root) <= (s + 2) as real
    ensures 1 <= s ==> Z * Spread(s, f, root) <= (s + 2) as real
  {
    SpreadSquare(s, f, root);
    SpreadSquare(s, f + 1, root');
    FailSpread((s + 2) as real, (f + 2) as real, Spread(s, f, root), Spread(s, f + 1, root'));
  }

  lemma FailGains(s: nat, f: nat, root: real, root': real)
    requires RootOf(root, s, f) && RootOf(root', s, f + 1)
    ensures SureGain(s, f + 1, root') <= SureGain(s, f, root)
  {
    FailSpreads(s, f, root, root');
    FailGainsFrom(s, f, root, root');
  }

  lemma FailGainsFrom(s: nat, f: nat, root: real, root': real)
    requires 0.0 <= Spread(s, f, root) <= Spread(s, f + 1, root')
    requires Spread(s, f, root) * Spread(s, f, root) <= (s + 2) as real
    ensures SureGain(s, f + 1, root') <= SureGain(s, f, root)
  {
    var n, q, p := (s + f) as real, Spread(s, f, root), Spread(s, f + 1, root');
    FailCleared(n, s as real, q, p);
    SameGain(n + 1.0, 2.0 * s as real - n - 1.0 - 2.0 * Z * p, (s + (f + 1)) as real, SureLead(s, f + 1, root'));
    SameGain(n, 2.0 * s as real - n - 2.0 * Z * q, n, SureLead(s, f, root));
  }

  lemma FailCleared(n: real, s: real, q: real, p: real)
    requires 0.0 <= s <= n && 0.0 <= q <= p && q * q <= s + 2.0
    ensures Gain(n + 1.0, 2.0 * s - n - 1.0 - 2.0 * Z * p) <= Gain(n, 2.0 * s - n - 2.0 * Z * q)
  {
    FailPolynomial(n, s, q);
    FailAssembled(n, s, q, p);
    FailCross(n, 2.0 * s - n - 2.0 * Z * q, 2.0 * s - n - 1.0 - 2.0 * Z * p);
  }

  lemma FailAssembled(n: real, s: real, q: real, p: real)
    requires 0.0 <= n && q <= p
    requires 2.0 * Z * (Growth(n) * q) <= 12.0 * n * n + 76.0 * n + 32.0 + 2.0 * s * Growth(n)
    ensures After(n) * (2.0 * s - n - 1.0 - 2.0 * Z * p) <= Before(n) * (2.0 * s - n - 2.0 * Z * q)
  {
    GrowthForm(n);
    AfterPositive(n);
    FailMargin(Before(n), After(n), Growth(n), n, s, q, p);
  }

  lemma AfterPositive(n: real)
    requires 0.0 <= n
    ensures 0.0 <= After(n)
  {
  }

  lemma FailCross(n: real, x: real, y: real)
    requires 0.0 <= n && After(n) * y <= Before(n) * x
    ensures Gain(n + 1.0, y) <= Gain(n, x)
  {
    assert Before(n) * x == n * x * ((n + 1.0 + 8.0) * (n + 1.0 + 4.0));
    assert After(n) * y == (n + 1.0) * y * ((n + 8.0) * (n + 4.0));
    CrossedGain(n + 1.0, y, n, x);
  }

  lemma FailCappedFrom(s: nat, f: nat, root: real, root': real)
    requires s + f >= 792 && Spread(s, f, root) <= Spread(s, f + 1, root') && Z * Spread(s, f, root) <= (s + 2) as real
    ensures Unclamped(BayesianReputation(s, f + 1), root') <= Unclamped(BayesianReputation(s, f), root)
  {
    CappedFail((s + f) as real, Lead(s, f), (s + 2) as real, Spread(s, f, root), Spread(s, f + 1, root'));
    CappedOrder(s, f + 1, root', s, f, root);
  }

  lemma FailCapped(s: nat, f: nat, root: real, root': real)
    requires 1 <= s && s + f >= 792 && RootOf(root, s, f) && RootOf(root', s, f + 1)
    ensures Unclamped(BayesianReputation(s, f + 1), root') <= Unclamped(BayesianReputation(s, f), root)
  {
    FailSpreads(s, f, root, root');
    FailCappedFrom(s, f, root, root');
  }

  lemma CappedFail(n: real, d: real, a: real, q: real, p: real)
    requires 0.0 <= n && d == 2.0 * a - n - 4.0 && q <= p && Z * q <= a
    ensures (d - 1.0 - 2.0 * Z * p) * (n + 4.0) <= (d - 2.0 * Z * q) * (n + 5.0)
  {
    MulMonotone(q, p, n + 4.0);
    assert (d - 2.0 * Z * q) * (n + 5.0) - (d - 1.0 - 2.0 * Z * p) * (n + 4.0)
        == d + n + 4.0 + 2.0 * Z * (p * (n + 4.0) - q * (n + 4.0)) - 2.0 * Z * q;
  }

  lemma FloorFalls(s: nat, f: nat)
    ensures Floor(BayesianReputation(s, f + 1)) <= Floor(BayesianReputation(s, f))
  {
    var n := (s + f) as real;
    FloorForm(BayesianReputation(s, f));
    FloorForm(BayesianReputation(s, f + 1));
    DivLess(n, n + 8.0, n + 1.0, n + 9.0);
  }

  /** A fail never raises the conservative score, at any volume. */
  lemma FailNeverRaises(s: nat, f: nat, root: real, root': real)
    requires RootOf(root, s, f) && RootOf(root', s, f + 1)
    ensures Conservative100(BayesianReputation(s, f + 1), root') <= Conservative100(BayesianReputation(s, f), root)
    ensures BayesianReputation(s, f + 1).ConservativeScore100(Z, root')
            <= BayesianReputation(s, f).ConservativeScore100(Z, root)
  {
    FloorFalls(s, f);
    ClampForm(BayesianReputation(s, f), root);
    ClampForm(BayesianReputation(s, f + 1), root');
    if s + f < 792 {
      FailGains(s, f, root, root');
      BelowCapOrder(s, f + 1, root', s, f, root);
    } else if s == 0 {
      ClampedWithoutPass(f + 1, root');
    } else {
      FailCapped(s, f, root, root');
    }
    Round2Monotone(Conservative100(BayesianReputation(s, f + 1), root'),
                   Conservative100(BayesianReputation(s, f), root));
  }
}
