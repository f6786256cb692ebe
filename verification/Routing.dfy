/** The purchase decisions: the trust snapshot's verdict and tier, and the ranking behind `best_execution`. */
module Routing {
  import opened Texts
  import opened Sorting
  import opened Rounding
  import opened Reputation

  datatype Verdict = Buy | TrySmall | Caution | Unproven | Avoid
  datatype Tier = Verified | Provisional | Rejected | Unproven

  /** What the store knows about one seller for one task type. */
  datatype Evidence = Evidence(task: BayesianReputation, protocol: BayesianReputation,
                               taskLatency: Option<nat>, protocolLatency: Option<nat>)

  function ScoredVerdict(rep: BayesianReputation): Verdict {
    if rep.Score100() >= 75.0 && rep.Confidence() >= 0.5 then Buy
    else if rep.Score100() >= 55.0 then Caution
    else Avoid
  }

  function SnapshotVerdict(e: Evidence): Verdict {
    if e.task.Observations() == 0 then
      if e.protocol.Observations() == 0 then Verdict.Unproven
      else if e.protocol.failures > e.protocol.successes then Avoid
      else TrySmall
    else ScoredVerdict(e.task)
  }

  function SnapshotTier(e: Evidence): Tier {
    if e.task.Observations() != 0 then Verified
    else if e.protocol.Observations() != 0 && e.protocol.failures > e.protocol.successes then Rejected
    else if e.protocol.Observations() != 0 then Provisional
    else Tier.Unproven
  }

  // ---------- best execution ----------

  datatype Mode = Safe | Explore

  datatype CandidateRequest = CandidateRequest(id: Text, price: nat, taskFit: real, latency: Option<nat>)

  datatype CandidateScore = CandidateScore(id: Text, price: nat, trust: real, confidence: real, taskFit: real,
                                           latency: nat, observations: nat, protocolObservations: nat, tier: Tier)

  datatype Ranked = Ranked(c: CandidateScore, utility: real)

  datatype Decision =
    | NoBudgetFit
    | AllRejected(table: seq<Ranked>)
    | NeedsEvidence(table: seq<Ranked>, targets: seq<Text>)
    | Recommended(winner: Ranked, table: seq<Ranked>)

  /** The request bounds of `BestExecutionRequest`: unique ids, a positive budget, prices and fits in range. */
  ghost predicate ValidRequest(candidates: seq<CandidateRequest>, budget: nat) {
    && 0 < budget <= 100
    && 1 <= |candidates| <= 32
    && (forall i | 0 <= i < |candidates| :: candidates[i].price <= 100 && 0.0 <= candidates[i].taskFit <= 1.0)
    && (forall i, j | 0 <= i < j < |candidates| :: candidates[i].id != candidates[j].id)
  }

  /** `CandidateScore`'s own bounds. */
  predicate InBounds(c: CandidateScore) {
    && 0.0 <= c.trust <= 100.0
    && 0.0 <= c.confidence <= 1.0
    && 0.0 <= c.taskFit <= 1.0
  }

  ghost predicate TakesRoots(sqrt: real -> real) {
    forall x: real {:trigger sqrt(x)} | 0.0 <= x :: IsRoot(sqrt(x), x)
  }

  /** `a or b or 1000`: a median of zero counts as absent. */
  function KnownLatency(e: Evidence): nat {
    if e.taskLatency.Some? && e.taskLatency.value != 0 then e.taskLatency.value
    else if e.protocolLatency.Some? && e.protocolLatency.value != 0 then e.protocolLatency.value
    else 1000
  }

  function RoutingTier(e: Evidence): Tier {
    if e.task.Observations() > 0 then Verified
    else if e.protocol.Observations() > 0 then
      if e.protocol.failures > e.protocol.successes then Rejected else Provisional
    else Tier.Unproven
  }

  function Trust(e: Evidence, mode: Mode, sqrt: real -> real): real {
    if e.task.Observations() > 0 then
      if mode.Safe? then e.task.ConservativeScore100(Z, sqrt(e.task.Variance())) else e.task.Score100()
    else if e.protocol.Observations() > 0 then 50.0 + 0.5 * (e.protocol.Score100() - 50.0)
    else 50.0
  }

  function RoutingConfidence(e: Evidence): real {
    if e.task.Observations() > 0 then e.task.Confidence()
    else if e.protocol.Observations() > 0 then
      var c := 0.2 + 0.5 * e.protocol.Confidence();
      if c < 0.5 then c else 0.5
    else 0.0
  }

  function Score(c: CandidateRequest, e: Evidence, mode: Mode, sqrt: real -> real): CandidateScore {
    CandidateScore(c.id, c.price, Trust(e, mode, sqrt), RoutingConfidence(e), c.taskFit,
                   if c.latency.Some? then c.latency.value else KnownLatency(e),
                   e.task.Observations(), e.protocol.Observations(), RoutingTier(e))
  }

  function Utility(c: CandidateScore, budget: nat, mode: Mode): real {
    if c.price > budget then -1_000_000_000.0
    else
      var fair := 1.0 - c.price as real / (if budget > 1 then budget else 1) as real;
      var slow := c.latency as real / 300_000.0;
      0.42 * (c.trust / 100.0)
      + 0.25 * c.taskFit
      + 0.18 * (if fair > 0.0 then fair else 0.0)
      + 0.15 * c.confidence
      - 0.10 * (if slow < 1.0 then slow else 1.0)
      - (if mode.Safe? then 0.28 else 0.12) * (1.0 - c.confidence)
  }

  /** Descending by utility, then by id: the `reverse=True` sort of `rank`. */
  predicate Before(a: Ranked, b: Ranked) {
    a.utility > b.utility || (a.utility == b.utility && TextLess(b.c.id, a.c.id))
  }

  function Rows(scores: seq<CandidateScore>, budget: nat, mode: Mode): (r: seq<Ranked>)
    ensures |r| == |scores| && forall i | 0 <= i < |r| :: r[i] == Ranked(scores[i], Utility(scores[i], budget, mode))
  {
    seq(|scores|, i requires 0 <= i < |scores| => Ranked(scores[i], Utility(scores[i], budget, mode)))
  }

  function Rank(scores: seq<CandidateScore>, budget: nat, mode: Mode): seq<Ranked> {
    Sort(Before, Rows(scores, budget, mode))
  }

  predicate IsViable(x: Ranked) { x.utility > -100_000_000.0 }

  predicate IsRouteable(x: Ranked) { !x.c.tier.Rejected? }

  predicate IsReady(x: Ranked) { x.c.tier.Verified? || x.c.tier.Provisional? }

  predicate IsUntested(x: Ranked) { x.c.tier == Tier.Unproven }

  function Ids(table: seq<Ranked>): seq<Text> {
    if table == [] then [] else [table[0].c.id] + Ids(table[1..])
  }

  function Decide(scores: seq<CandidateScore>, budget: nat, mode: Mode): Decision {
    var viable := Filter(IsViable, Rank(scores, budget, mode));
    var routeable := Filter(IsRouteable, viable);
    var ready := Filter(IsReady, routeable);
    if viable == [] then NoBudgetFit
    else if routeable == [] then AllRejected(viable)
    else if mode.Safe? && ready == [] then
      var untested := Ids(Filter(IsUntested, routeable));
      NeedsEvidence(viable, if |untested| > 5 then untested[..5] else untested)
    else Recommended(if mode.Safe? then ready[0] else routeable[0], viable)
  }

  function Scores(candidates: seq<CandidateRequest>, known: Text -> Evidence, mode: Mode,
                  sqrt: real -> real): (r: seq<CandidateScore>)
    ensures |r| == |candidates|
    ensures forall i | 0 <= i < |r| :: r[i] == Score(candidates[i], known(candidates[i].id), mode, sqrt)
  {
    seq(|candidates|, i requires 0 <= i < |candidates| => Score(candidates[i], known(candidates[i].id), mode, sqrt))
  }

  // ---------- what the decisions promise ----------

  /** Both classifiers, written apart, put a seller in the same tier. */
  lemma TiersAgree(e: Evidence)
    ensures SnapshotTier(e) == RoutingTier(e)
    ensures e.task.Observations() == 0 ==> (SnapshotVerdict(e) == Avoid <==> RoutingTier(e).Rejected?)
    ensures SnapshotVerdict(e) == TrySmall <==> RoutingTier(e).Provisional?
    ensures SnapshotVerdict(e) == Verdict.Unproven <==> RoutingTier(e) == Tier.Unproven
  {
  }

  /** BUY is exactly a score of 75: the confidence guard beside it never decides. */
  lemma BuyIsScore(e: Evidence)
    ensures SnapshotVerdict(e) == Buy <==> e.task.Observations() > 0 && e.task.Score100() >= 75.0
    ensures SnapshotVerdict(e) == Buy ==> e.task.Observations() >= 15
  {
    if e.task.Score100() >= 75.0 {
      ScoreImpliesVolume(e.task);
    }
  }

  lemma CleanRecordBuys(n: nat, protocol: BayesianReputation, taskLatency: Option<nat>, protocolLatency: Option<nat>)
    ensures SnapshotVerdict(Evidence(BayesianReputation(n, 0), protocol, taskLatency, protocolLatency)) == Buy
            <==> n >= 15
  {
    BuyIsScore(Evidence(BayesianReputation(n, 0), protocol, taskLatency, protocolLatency));
    if n >= 15 {
      FourteenAndFifteen();
      ManyPasses(15, n - 15, 0);
    }
  }

  function Standing(v: Verdict): nat {
    if v.Buy? then 3 else if v.Caution? || v.TrySmall? then 2 else if v.Unproven? then 1 else 0
  }

  /** Once a seller has task evidence, a pass never worsens the verdict and a fail never improves it. */
  lemma VerdictMonotone(e: Evidence)
    requires e.task.Observations() > 0
    ensures var s, f := e.task.successes, e.task.failures;
            && Standing(SnapshotVerdict(e)) <= Standing(SnapshotVerdict(e.(task := BayesianReputation(s + 1, f))))
            && Standing(SnapshotVerdict(e.(task := BayesianReputation(s, f + 1)))) <= Standing(SnapshotVerdict(e))
  {
    var s, f := e.task.successes, e.task.failures;
    ScoreMonotone(s, f);
    BuyIsScore(e);
    BuyIsScore(e.(task := BayesianReputation(s + 1, f)));
    BuyIsScore(e.(task := BayesianReputation(s, f + 1)));
    assert e.task == BayesianReputation(s, f);
  }

  lemma FirstPassAvoided(e: Evidence)
    ensures SnapshotVerdict(e.(task := BayesianReputation(1, 0))) == Avoid
  {
    var one := BayesianReputation(1, 0);
    assert one.Mean() == 0.6 && one.Confidence() == 1.0 / 9.0;
    Round2Against(one.Exact(), 5499);
    Round2Against(one.Exact(), 5200);
  }

  lemma FirstFailAvoided(e: Evidence)
    ensures SnapshotVerdict(e.(task := BayesianReputation(0, 1))) == Avoid
  {
    var one := BayesianReputation(0, 1);
    assert one.Mean() == 0.4 && one.Confidence() == 1.0 / 9.0;
    Round2Against(one.Exact(), 5499);
    Round2Against(one.Exact(), 5200);
  }

  /** Before that it does not hold: the first verified pass turns TRY_SMALL into AVOID. */
  lemma FirstPassDemotes(e: Evidence)
    requires e.task.Observations() == 0 && 0 < e.protocol.Observations() && e.protocol.failures <= e.protocol.successes
    ensures SnapshotVerdict(e) == TrySmall && SnapshotVerdict(e.(task := BayesianReputation(1, 0))) == Avoid
  {
    FirstPassAvoided(e);
  }

  lemma UntestedVerdict(e: Evidence)
    requires e.task.Observations() == 0
    ensures SnapshotVerdict(e) == Avoid <==> e.protocol.failures > e.protocol.successes
  {
  }

  /** Without task evidence the first result, pass or fail, always ends in AVOID; so it leaves the verdict as it was
      exactly when failed canaries prevail already, and worsens it otherwise. */
  lemma FirstResultAvoided(e: Evidence)
    requires e.task.Observations() == 0
    ensures SnapshotVerdict(e.(task := BayesianReputation(1, 0))) == Avoid
    ensures SnapshotVerdict(e.(task := BayesianReputation(0, 1))) == Avoid
    ensures SnapshotVerdict(e) == Avoid <==> e.protocol.failures > e.protocol.successes
  {
    FirstPassAvoided(e);
    FirstFailAvoided(e);
    UntestedVerdict(e);
  }

  /** Every score the handler builds is one `CandidateScore` accepts. */
  lemma ScoreInBounds(c: CandidateRequest, e: Evidence, mode: Mode, sqrt: real -> real)
    requires 0.0 <= c.taskFit <= 1.0 && TakesRoots(sqrt)
    ensures InBounds(Score(c, e, mode, sqrt))
  {
    ScoreBounds(e.protocol.successes, e.protocol.failures);
    ScoreBounds(e.task.successes, e.task.failures);
    VariancePositive(e.task);
    ConservativeBelow(e.task, Z, sqrt(e.task.Variance()));
  }

  lemma VariancePositive(r: BayesianReputation)
    ensures 0.0 < r.Variance()
  {
  }

  /** The -1e8 filter is exactly the budget test. */
  lemma ViableIsAffordable(c: CandidateScore, budget: nat, mode: Mode)
    requires InBounds(c)
    ensures IsViable(Ranked(c, Utility(c, budget, mode))) <==> c.price <= budget
  {
  }

  /** An affordable candidate's utility lies between -0.38 and 1 in safe mode, -0.22 and 1 in exploration, and the modes
      differ by 0.16 of the missing confidence. */
  lemma UtilityRange(c: CandidateScore, budget: nat)
    requires InBounds(c) && c.price <= budget
    ensures -0.38 <= Utility(c, budget, Safe) <= 1.0
    ensures -0.22 <= Utility(c, budget, Explore) <= 1.0
    ensures Utility(c, budget, Explore) - Utility(c, budget, Safe) == 0.16 * (1.0 - c.confidence)
  {
    var fair := 1.0 - c.price as real / (if budget > 1 then budget else 1) as real;
    assert fair <= 1.0;
  }

  /** Both ends are reached. */
  lemma UtilityRangeTight(id: Text, budget: nat)
    requires 0 < budget
    ensures Utility(CandidateScore(id, 0, 100.0, 1.0, 1.0, 0, 0, 0, Verified), budget, Safe) == 1.0
    ensures Utility(CandidateScore(id, budget, 0.0, 0.0, 0.0, 300_000, 0, 0, Verified), budget, Safe) == -0.38
    ensures Utility(CandidateScore(id, budget, 0.0, 0.0, 0.0, 300_000, 0, 0, Verified), budget, Explore) == -0.22
  {
    assert budget as real / (if budget > 1 then budget else 1) as real == 1.0;
  }

  /** Nothing about a candidate ever gains by getting worse. */
  lemma UtilityMonotone(c: CandidateScore, d: CandidateScore, budget: nat, mode: Mode)
    requires c.price <= d.price <= budget && c.latency <= d.latency
    requires c.trust >= d.trust && c.confidence >= d.confidence && c.taskFit >= d.taskFit
    ensures Utility(c, budget, mode) >= Utility(d, budget, mode)
  {
    var whole := (if budget > 1 then budget else 1) as real;
    QuotientOrdered(c.price as real, d.price as real, whole);
    QuotientOrdered(c.latency as real, d.latency as real, 300_000.0);
    var weight := if mode.Safe? then 0.28 else 0.12;
    assert weight * (1.0 - c.confidence) <= weight * (1.0 - d.confidence);
  }

  /** A point of trust is worth 0.0042, whatever else is known. */
  lemma TrustWorth(c: CandidateScore, trust: real, budget: nat, mode: Mode)
    requires c.price <= budget
    ensures Utility(c.(trust := trust), budget, mode) - Utility(c, budget, mode) == 0.0042 * (trust - c.trust)
  {
    var d := c.(trust := trust);
    assert Utility(d, budget, mode) - Utility(c, budget, mode) == 0.42 * (trust / 100.0) - 0.42 * (c.trust / 100.0);
  }

  lemma QuotientOrdered(a: real, b: real, c: real)
    requires a <= b && 0.0 < c
    ensures a / c <= b / c
  {
  }

  /** Provisional evidence weighs half and its confidence is capped at one half, reached with exactly twelve canaries.
      */
  lemma ProvisionalEvidence(e: Evidence, mode: Mode, sqrt: real -> real)
    requires e.task.Observations() == 0 && e.protocol.Observations() > 0
    ensures 25.25 <= Trust(e, mode, sqrt) <= 74.75
    ensures 0.2 < RoutingConfidence(e) <= 0.5
    ensures RoutingConfidence(e) == 0.5 <==> e.protocol.Observations() >= 12
  {
    ScoreBounds(e.protocol.successes, e.protocol.failures);
    TwelveCanaries(e.protocol.Observations());
  }

  lemma TwelveCanaries(n: nat)
    requires n > 0
    ensures n as real / (n + 8) as real > 0.0
    ensures n as real / (n + 8) as real >= 0.6 <==> n >= 12
  {
    if n >= 12 {
      DivLess(12.0, 20.0, n as real, (n + 8) as real);
    } else {
      DivLess(n as real, (n + 8) as real, 11.0, 19.0);
    }
  }

  lemma RowsOrdered(rows: seq<Ranked>)
    requires forall i, j | 0 <= i < j < |rows| :: rows[i].c.id != rows[j].c.id
    ensures OrdersAll(Before, rows) && Distinct(rows)
  {
    forall a | a in rows
      ensures !Before(a, a)
    {
      TextLessIrreflexive(a.c.id);
    }
    forall a, b | a in rows && b in rows && a != b
      ensures Before(a, b) || Before(b, a)
    {
      TextLessTotal(a.c.id, b.c.id);
    }
    forall a, b, c | a in rows && b in rows && c in rows && Before(a, b) && Before(b, c)
      ensures Before(a, c)
    {
      if a.utility == c.utility {
        TextLessTransitive(c.c.id, b.c.id, a.c.id);
      }
    }
  }

  ghost predicate UniqueIds(scores: seq<CandidateScore>) {
    forall i, j | 0 <= i < j < |scores| :: scores[i].id != scores[j].id
  }

  /** A candidate the mode may spend on. */
  predicate Eligible(c: CandidateScore, budget: nat, mode: Mode) {
    c.price <= budget && !c.tier.Rejected? && (mode.Safe? ==> c.tier != Tier.Unproven)
  }

  lemma RankedAscending(scores: seq<CandidateScore>, budget: nat, mode: Mode)
    requires UniqueIds(scores)
    ensures Ascending(Before, Rank(scores, budget, mode))
    ensures multiset(Rank(scores, budget, mode)) == multiset(Rows(scores, budget, mode))
  {
    var rows := Rows(scores, budget, mode);
    RowsOrdered(rows);
    SortAscending(Before, rows, rows);
    SortKeepsElements(Before, rows);
  }

  lemma PoolMembers(scores: seq<CandidateScore>, budget: nat, mode: Mode, x: Ranked)
    requires forall c | c in scores :: InBounds(c)
    ensures var routeable := Filter(IsRouteable, Filter(IsViable, Rank(scores, budget, mode)));
            var pool := if mode.Safe? then Filter(IsReady, routeable) else routeable;
            x in pool <==> x.c in scores && x.utility == Utility(x.c, budget, mode) && Eligible(x.c, budget, mode)
  {
    var rows := Rows(scores, budget, mode);
    if x.c in scores {
      var i :| 0 <= i < |scores| && scores[i] == x.c;
      assert rows[i].c == x.c;
      ViableIsAffordable(x.c, budget, mode);
    }
    if x in rows {
      var i :| 0 <= i < |rows| && rows[i] == x;
      assert scores[i] == x.c;
    }
  }

  /** A recommendation is made exactly when something is eligible, and it is an eligible candidate of highest utility.
      */
  lemma RecommendsBest(scores: seq<CandidateScore>, budget: nat, mode: Mode)
    requires UniqueIds(scores) && forall c | c in scores :: InBounds(c)
    ensures Decide(scores, budget, mode).Recommended? <==> exists c :: c in scores && Eligible(c, budget, mode)
    ensures var d := Decide(scores, budget, mode);
            d.Recommended? ==>
              && d.winner.c in scores && Eligible(d.winner.c, budget, mode)
              && d.winner.utility == Utility(d.winner.c, budget, mode)
              && forall c | c in scores && Eligible(c, budget, mode) :: Utility(c, budget, mode) <= d.winner.utility
  {
    var viable := Filter(IsViable, Rank(scores, budget, mode));
    var routeable := Filter(IsRouteable, viable);
    var pool := if mode.Safe? then Filter(IsReady, routeable) else routeable;
    RankedAscending(scores, budget, mode);
    FilterAscending(Before, IsViable, Rank(scores, budget, mode));
    FilterAscending(Before, IsRouteable, viable);
    FilterAscending(Before, IsReady, routeable);
    forall x
      ensures x in pool <==> x.c in scores && x.utility == Utility(x.c, budget, mode) && Eligible(x.c, budget, mode)
    {
      PoolMembers(scores, budget, mode, x);
    }
    if c :| c in scores && Eligible(c, budget, mode) {
      assert Ranked(c, Utility(c, budget, mode)) in pool;
    }
    if pool != [] {
      assert pool[0] in pool;
      forall c | c in scores && Eligible(c, budget, mode)
        ensures Utility(c, budget, mode) <= pool[0].utility
      {
        HeadLeast(Before, pool, Ranked(c, Utility(c, budget, mode)));
      }
    }
  }

  /** The three refusals, each with exactly the situation it reports. */
  lemma RefusalsExact(scores: seq<CandidateScore>, budget: nat, mode: Mode)
    requires UniqueIds(scores) && forall c | c in scores :: InBounds(c)
    ensures var d := Decide(scores, budget, mode);
            && (d.NoBudgetFit? <==> forall c | c in scores :: c.price > budget)
            && (d.AllRejected? <==> (exists c :: c in scores && c.price <= budget)
                                    && forall c | c in scores && c.price <= budget :: c.tier.Rejected?)
            && (d.NeedsEvidence? <==> mode.Safe? && (exists c :: c in scores && c.price <= budget && !c.tier.Rejected?)
                                      && forall c | c in scores && c.price <= budget ::
                                           c.tier.Rejected? || c.tier == Tier.Unproven)
            && (!d.NoBudgetFit? ==>
                  forall x :: x in d.table <==> x in Rows(scores, budget, mode) && x.c.price <= budget)
            && (!d.NoBudgetFit? ==> Ascending(Before, d.table))
  {
    var rows := Rows(scores, budget, mode);
    var viable := Filter(IsViable, Rank(scores, budget, mode));
    RankedAscending(scores, budget, mode);
    FilterAscending(Before, IsViable, Rank(scores, budget, mode));
    forall x
      ensures x in viable <==> x in rows && x.c.price <= budget
    {
      RowMembers(scores, budget, mode, x);
      if x in rows {
        ViableIsAffordable(x.c, budget, mode);
      }
    }
    forall c | c in scores && c.price <= budget
      ensures Ranked(c, Utility(c, budget, mode)) in viable
      ensures !c.tier.Rejected? ==> Ranked(c, Utility(c, budget, mode)) in Filter(IsRouteable, viable)
    {
      RowMembers(scores, budget, mode, Ranked(c, Utility(c, budget, mode)));
    }
    forall x | x in viable
      ensures x.c in scores && x.c.price <= budget
    {
      RowMembers(scores, budget, mode, x);
    }
    assert viable != [] ==> viable[0] in viable;
    var routeable := Filter(IsRouteable, viable);
    assert routeable != [] ==> routeable[0] in routeable;
    RecommendsBest(scores, budget, mode);
  }

  lemma {:induction false} IdsOf(table: seq<Ranked>, id: Text)
    ensures |Ids(table)| == |table|
    ensures id in Ids(table) <==> exists x :: x in table && x.c.id == id
  {
    if table == [] {
    } else {
      IdsOf(table[1..], id);
      assert table == [table[0]] + table[1..];
    }
  }

  /** Where evidence is asked for, it is of one to five affordable candidates that have none. */
  lemma TargetsUntested(scores: seq<CandidateScore>, budget: nat, mode: Mode, id: Text)
    requires UniqueIds(scores) && (forall c | c in scores :: InBounds(c)) && Decide(scores, budget, mode).NeedsEvidence?
    ensures 1 <= |Decide(scores, budget, mode).targets| <= 5
    ensures id in Decide(scores, budget, mode).targets ==>
            exists c :: c in scores && c.id == id && c.price <= budget && c.tier == Tier.Unproven
  {
    var routeable := Filter(IsRouteable, Filter(IsViable, Rank(scores, budget, mode)));
    var untested := Filter(IsUntested, routeable);
    assert routeable[0] in routeable && routeable[0] !in Filter(IsReady, routeable);
    assert routeable[0] in untested;
    IdsOf(untested, id);
    if x :| x in untested && x.c.id == id {
      RowMembers(scores, budget, mode, x);
      ViableIsAffordable(x.c, budget, mode);
    }
  }

  /** The ranking, and with it the whole decision, ignores the order in which the candidates came. */
  lemma DecisionIgnoresOrder(a: seq<CandidateScore>, b: seq<CandidateScore>, budget: nat, mode: Mode)
    requires multiset(a) == multiset(b) && UniqueIds(a) && UniqueIds(b)
    ensures Rank(a, budget, mode) == Rank(b, budget, mode)
    ensures Decide(a, budget, mode) == Decide(b, budget, mode)
  {
    var ra, rb := Rank(a, budget, mode), Rank(b, budget, mode);
    RankedAscending(a, budget, mode);
    RankedAscending(b, budget, mode);
    forall x
      ensures x in ra <==> x in rb
    {
      RowMembers(a, budget, mode, x);
      RowMembers(b, budget, mode, x);
      assert x.c in multiset(a) <==> x.c in multiset(b);
    }
    assert |a| == |multiset(a)| == |multiset(b)| == |b|;
    RowsOrdered(Rows(a, budget, mode));
    OrdersSorted(Rows(a, budget, mode), ra);
    AscendingUnique(Before, ra, rb);
  }

  lemma RowMembers(scores: seq<CandidateScore>, budget: nat, mode: Mode, x: Ranked)
    ensures x in Rows(scores, budget, mode) <==> x.c in scores && x.utility == Utility(x.c, budget, mode)
  {
    var rows := Rows(scores, budget, mode);
    if x.c in scores && x.utility == Utility(x.c, budget, mode) {
      var i :| 0 <= i < |scores| && scores[i] == x.c;
      assert rows[i] == x;
    }
    if x in rows {
      var i :| 0 <= i < |rows| && rows[i] == x;
      assert scores[i] == x.c;
    }
  }

  lemma OrdersSorted(rows: seq<Ranked>, sorted: seq<Ranked>)
    requires OrdersAll(Before, rows) && forall x :: x in sorted <==> x in rows
    ensures OrdersAll(Before, sorted)
  {
  }

  /** The handler's decision on any valid request, any store contents, any order of candidates. */
  lemma BestExecutionSound(candidates: seq<CandidateRequest>, budget: nat, mode: Mode, known: Text -> Evidence,
                           sqrt: real -> real)
    requires ValidRequest(candidates, budget) && TakesRoots(sqrt)
    ensures UniqueIds(Scores(candidates, known, mode, sqrt))
    ensures forall c | c in Scores(candidates, known, mode, sqrt) :: InBounds(c)
    ensures var d := Decide(Scores(candidates, known, mode, sqrt), budget, mode);
            d.Recommended? ==>
              && d.winner.c.price <= budget
              && !SnapshotTier(known(d.winner.c.id)).Rejected?
              && (mode.Safe? ==> SnapshotTier(known(d.winner.c.id)) != Tier.Unproven)
  {
    var scores := Scores(candidates, known, mode, sqrt);
    forall c | c in scores
      ensures InBounds(c) && c.tier == SnapshotTier(known(c.id))
    {
      var i :| 0 <= i < |scores| && scores[i] == c;
      ScoreInBounds(candidates[i], known(candidates[i].id), mode, sqrt);
    }
    RecommendsBest(scores, budget, mode);
  }
}
