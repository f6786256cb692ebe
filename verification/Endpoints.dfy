/** The two read endpoints on the store itself, and what their answers rest on: every call the backend ever served. */
module Endpoints {
  import opened Texts
  import opened Json
  import Verification
  import opened Reputation
  import EvidenceStore
  import Backend
  import opened Routing

  /** The two median latencies of a service, for a task type and for canaries. */
  type Medians = Text -> (Option<nat>, Option<nat>)

  /** What the store's two queries say of a service. */
  function Known(db: EvidenceStore.Db, task: Text, medians: Medians): Text -> Evidence {
    (service: Text) =>
      Evidence(EvidenceStore.Tally(EvidenceStore.Facts(db.deliveries), service, task),
               EvidenceStore.ProbeTally(EvidenceStore.Facts(db.probes), service), medians(service).0,
               medians(service).1)
  }

  /** `trust_snapshot`: classify, log, answer. */
  method HandleTrustSnapshot(w: EvidenceStore.World, store: EvidenceStore.CounterpartyStore, service: Text, task: Text,
                             medians: Medians,
                             report: (Evidence, Verdict, Tier) -> Json, env: EvidenceStore.Env)
    returns (reply: Option<(Verdict, Tier)>)
    requires store.hash == w.hash
    modifies store
    ensures var e := Known(old(store.Contents()), task, medians)(service);
            var answer := (SnapshotVerdict(e), SnapshotTier(e));
            var after := Backend.Step(w, old(store.Contents()),
                                      Backend.TrustSnapshot(report(e, answer.0, answer.1), env));
            && reply == (if after.Some? then Some(answer) else None)
            && store.Contents() == if after.Some? then after.value else old(store.Contents())
  {
    var rep, protocol := store.ReputationOf(service, task), store.ProtocolReputation(service);
    var e := Evidence(rep, protocol, medians(service).0, medians(service).1);
    var verdict: Verdict;
    if rep.Observations() == 0 {
      if protocol.Observations() == 0 {
        verdict := Verdict.Unproven;
      } else if protocol.failures > protocol.successes {
        verdict := Avoid;
      } else {
        verdict := TrySmall;
      }
    } else {
      verdict := ScoredVerdict(rep);
    }
    var tier: Tier;
    if rep.Observations() != 0 {
      tier := Tier.Verified;
    } else if protocol.Observations() != 0 && protocol.failures > protocol.successes {
      tier := Rejected;
    } else if protocol.Observations() != 0 {
      tier := Provisional;
    } else {
      tier := Tier.Unproven;
    }
    assert e == Known(store.Contents(), task, medians)(service);
    var committed := store.AppendAudit(EvidenceStore.TRUST_SNAPSHOT, report(e, verdict, tier), env);
    return if committed then Some((verdict, tier)) else None;
  }

  /** `best_execution`: score every candidate from the store, decide, log, answer. */
  method HandleBestExecution(w: EvidenceStore.World, store: EvidenceStore.CounterpartyStore,
                             candidates: seq<CandidateRequest>,
                             budget: nat, task: Text, mode: Mode, medians: Medians, sqrt: real -> real,
                             report: Decision -> Json, env: EvidenceStore.Env)
    returns (reply: Option<Decision>)
    requires store.hash == w.hash
    modifies store
    ensures var decision := Decide(Scores(candidates, Known(old(store.Contents()), task, medians), mode, sqrt), budget,
                                   mode);
            var after := Backend.Step(w, old(store.Contents()), Backend.BestExecution(report(decision), env));
            && reply == (if after.Some? then Some(decision) else None)
            && store.Contents() == if after.Some? then after.value else old(store.Contents())
  {
    ghost var known := Known(store.Contents(), task, medians);
    var scores: seq<CandidateScore> := [];
    var i := 0;
    while i < |candidates|
      invariant 0 <= i <= |candidates|
      invariant scores == Scores(candidates, known, mode, sqrt)[..i]
    {
      var c := candidates[i];
      var rep, protocol := store.ReputationOf(c.id, task), store.ProtocolReputation(c.id);
      var e := Evidence(rep, protocol, medians(c.id).0, medians(c.id).1);
      assert e == known(c.id);
      scores := scores + [Score(c, e, mode, sqrt)];
      i := i + 1;
    }
    assert scores == Scores(candidates, known, mode, sqrt);
    var decision := Decide(scores, budget, mode);
    var committed := store.AppendAudit(EvidenceStore.BEST_EXECUTION, report(decision), env);
    return if committed then Some(decision) else None;
  }

  // ---------- rows and calls ----------

  ghost predicate OnePerSubject(facts: seq<EvidenceStore.Fact>) {
    forall i, j | 0 <= i < j < |facts| :: facts[i].subject != facts[j].subject
  }

  lemma FreshOnePerSubject(facts: seq<EvidenceStore.Fact>, f: EvidenceStore.Fact)
    requires OnePerSubject(facts) && EvidenceStore.Fresh(facts, f)
    ensures OnePerSubject(facts + [f])
  {
  }

  lemma StepOnePerSubject(w: EvidenceStore.World, db: EvidenceStore.Db, c: Backend.Call, t: Backend.Table)
    requires Backend.Step(w, db, c).Some? && OnePerSubject(EvidenceStore.Facts(Backend.Rows(db, t)))
    ensures OnePerSubject(EvidenceStore.Facts(Backend.Rows(Backend.Step(w, db, c).value, t)))
  {
    var facts, sub := EvidenceStore.Facts(Backend.Rows(db, t)), Backend.Submission(w, c, t);
    Backend.StepRows(w, db, c, t);
    if sub.Some? && EvidenceStore.Fresh(facts, sub.value) {
      FreshOnePerSubject(facts, sub.value);
    }
  }

  /** No id is counted twice. */
  lemma {:induction false} RowsOnePerSubject(w: EvidenceStore.World, calls: seq<Backend.Call>, t: Backend.Table)
    ensures OnePerSubject(EvidenceStore.Facts(Backend.Rows(Backend.Run(w, calls), t)))
  {
    if calls == [] {
    } else {
      var n := |calls| - 1;
      RowsOnePerSubject(w, calls[..n], t);
      if Backend.Step(w, Backend.Run(w, calls[..n]), calls[n]).Some? {
        StepOnePerSubject(w, Backend.Run(w, calls[..n]), calls[n], t);
      }
    }
  }

  ghost function Subjects(facts: seq<EvidenceStore.Fact>, wanted: EvidenceStore.Fact -> bool,
                          outcome: Verification.State): set<Text> {
    set f | f in facts && wanted(f) && f.outcome == outcome :: f.subject
  }

  lemma SubjectsHead(facts: seq<EvidenceStore.Fact>, wanted: EvidenceStore.Fact -> bool, outcome: Verification.State)
    requires facts != []
    ensures Subjects(facts, wanted, outcome) ==
            Subjects(facts[1..], wanted, outcome)
            + if wanted(facts[0]) && facts[0].outcome == outcome then {facts[0].subject} else {}
  {
    assert forall f :: f in facts <==> f == facts[0] || f in facts[1..];
  }

  lemma {:induction false} OutcomesAreSubjects(facts: seq<EvidenceStore.Fact>, wanted: EvidenceStore.Fact -> bool,
                                               outcome: Verification.State)
    requires OnePerSubject(facts)
    ensures EvidenceStore.Outcomes(facts, wanted, outcome) == |Subjects(facts, wanted, outcome)|
  {
    if facts == [] {
    } else {
      var rest := Subjects(facts[1..], wanted, outcome);
      OutcomesAreSubjects(facts[1..], wanted, outcome);
      SubjectsHead(facts, wanted, outcome);
      forall f | f in facts[1..]
        ensures f.subject != facts[0].subject
      {
        var i :| 1 <= i < |facts| && facts[i] == f;
      }
      assert facts[0].subject !in rest;
    }
  }

  // ---------- a BUY ----------

  lemma {:induction false} FailsOnlyLower(s: nat, f: nat)
    ensures BayesianReputation(s, f).Score100() <= BayesianReputation(s, 0).Score100()
  {
    if f == 0 {
    } else {
      FailsOnlyLower(s, f - 1);
      ScoreMonotone(s, f - 1);
    }
  }

  /** Whatever else failed, a score of 75 needs fifteen passes. */
  lemma ScoreNeedsPasses(r: BayesianReputation)
    requires r.Score100() >= 75.0
    ensures r.successes >= 15
  {
    FailsOnlyLower(r.successes, r.failures);
    FourteenAndFifteen();
    if r.successes < 15 {
      ManyPasses(r.successes, 14 - r.successes, 0);
    }
  }

  predicate CountsFor(w: EvidenceStore.World, c: Backend.Call, service: Text, task: Text) {
    c.VerifyDelivery? && c.req.provider == service
    && (c.req.taskType == EvidenceStore.GENERAL || c.req.taskType == task)
  }

  /** The delivery ids of the service that some call showed to pass every check. */
  ghost function VerifiedIds(w: EvidenceStore.World, calls: seq<Backend.Call>, service: Text, task: Text): set<Text> {
    set c | c in calls && CountsFor(w, c, service, task) && Verification.FullyVerified(w.lib, c.req) :: c.req.delivery
  }

  lemma PassesAreVerified(w: EvidenceStore.World, calls: seq<Backend.Call>, service: Text, task: Text)
    requires Backend.ValidCalls(w, calls)
    ensures EvidenceStore.Tally(EvidenceStore.Facts(Backend.Run(w, calls).deliveries), service, task).successes
            <= |VerifiedIds(w, calls, service, task)|
  {
    var facts := EvidenceStore.Facts(Backend.Run(w, calls).deliveries);
    var wanted := (f: EvidenceStore.Fact) => EvidenceStore.Relevant(f, service, task);
    RowsOnePerSubject(w, calls, Backend.Deliveries);
    OutcomesAreSubjects(facts, wanted, Verification.PASS);
    forall f | f in facts && wanted(f) && f.outcome == Verification.PASS
      ensures f.subject in VerifiedIds(w, calls, service, task)
    {
      Backend.PassRowVerified(w, calls, f);
    }
    SubsetSize(Subjects(facts, wanted, Verification.PASS), VerifiedIds(w, calls, service, task));
  }

  /** After any calls, a BUY means that at least fifteen different deliveries of the seller, of this task type or of the
      general one, each passed every check of some call. */
  lemma BuyIsEarned(w: EvidenceStore.World, calls: seq<Backend.Call>, service: Text, task: Text, medians: Medians)
    requires Backend.ValidCalls(w, calls)
             && SnapshotVerdict(Known(Backend.Run(w, calls), task, medians)(service)) == Buy
    ensures |VerifiedIds(w, calls, service, task)| >= 15
  {
    var e := Known(Backend.Run(w, calls), task, medians)(service);
    BuyIsScore(e);
    ScoreNeedsPasses(e.task);
    PassesAreVerified(w, calls, service, task);
  }

  // ---------- a recommendation ----------

  /** Some call gave a decided verdict on a delivery of the seller that counts for the task type. */
  ghost predicate Judged(w: EvidenceStore.World, calls: seq<Backend.Call>, service: Text, task: Text) {
    exists c :: c in calls && CountsFor(w, c, service, task) && EvidenceStore.Eligible(c.req)
                && Verification.StateOf(Verification.DeliveryProbes(w.lib, c.req)) != Verification.INCONCLUSIVE
  }

  /** Some call brought the seller's own exact acknowledgement of a canary. */
  ghost predicate Echoed(w: EvidenceStore.World, calls: seq<Backend.Call>, service: Text) {
    exists c :: c in calls && c.ProbeObservation? && c.probe.provider == service
                && Verification.CanaryConforms(c.probe.output, c.probe.nonce)
  }

  lemma {:induction false} SomeCounted(facts: seq<EvidenceStore.Fact>, wanted: EvidenceStore.Fact -> bool,
                                       outcome: Verification.State)
    requires EvidenceStore.Outcomes(facts, wanted, outcome) > 0
    ensures exists f :: f in facts && wanted(f) && f.outcome == outcome
  {
    if facts == [] {
    } else if wanted(facts[0]) && facts[0].outcome == outcome {
      assert facts[0] in facts;
    } else {
      SomeCounted(facts[1..], wanted, outcome);
      var f :| f in facts[1..] && wanted(f) && f.outcome == outcome;
      assert f in facts;
    }
  }

  lemma ObservedIsJudged(w: EvidenceStore.World, calls: seq<Backend.Call>, service: Text, task: Text)
    requires var facts := EvidenceStore.Facts(Backend.Run(w, calls).deliveries);
             EvidenceStore.Tally(facts, service, task).Observations() > 0
    ensures Judged(w, calls, service, task)
  {
    var facts := EvidenceStore.Facts(Backend.Run(w, calls).deliveries);
    var wanted := (f: EvidenceStore.Fact) => EvidenceStore.Relevant(f, service, task);
    var passed := EvidenceStore.Outcomes(facts, wanted, Verification.PASS) > 0;
    SomeCounted(facts, wanted, if passed then Verification.PASS else Verification.FAIL);
    var f :| f in facts && wanted(f);
    Backend.RowsFromCalls(w, calls, Backend.Deliveries);
    assert Backend.FromCall(w, calls, Backend.Deliveries, f);
    var c :| c in calls && Backend.Submission(w, c, Backend.Deliveries) == Some(f) && !Backend.RaisesOn(w, c);
    assert CountsFor(w, c, service, task);
  }

  lemma PassedIsEchoed(w: EvidenceStore.World, calls: seq<Backend.Call>, service: Text)
    requires Backend.ValidWorld(w) && Backend.ValidCalls(w, calls)
    requires EvidenceStore.ProbeTally(EvidenceStore.Facts(Backend.Run(w, calls).probes), service).successes > 0
    ensures Echoed(w, calls, service)
  {
    var facts := EvidenceStore.Facts(Backend.Run(w, calls).probes);
    var wanted := (f: EvidenceStore.Fact) => f.service == service;
    SomeCounted(facts, wanted, Verification.PASS);
    var f :| f in facts && wanted(f) && f.outcome == Verification.PASS;
    Backend.PassProbeEchoed(w, calls, f);
  }

  /** What a seller of a spendable tier has shown. */
  lemma TierIsEarned(w: EvidenceStore.World, calls: seq<Backend.Call>, service: Text, task: Text, medians: Medians)
    requires Backend.ValidWorld(w) && Backend.ValidCalls(w, calls)
    ensures var tier := RoutingTier(Known(Backend.Run(w, calls), task, medians)(service));
            && tier == SnapshotTier(Known(Backend.Run(w, calls), task, medians)(service))
            && (tier.Verified? ==> Judged(w, calls, service, task))
            && (tier.Provisional? ==> Echoed(w, calls, service))
  {
    var e := Known(Backend.Run(w, calls), task, medians)(service);
    TiersAgree(e);
    if e.task.Observations() > 0 {
      ObservedIsJudged(w, calls, service, task);
    } else if RoutingTier(e).Provisional? {
      PassedIsEchoed(w, calls, service);
    }
  }

  /** After any calls, a safe recommendation is of an affordable seller of which a delivery was judged for the task
      type, or which itself acknowledged a canary, and which the trust snapshot on the same store does not reject; no
      eligible candidate has a higher utility. */
  lemma SafeRecommendationEarned(w: EvidenceStore.World, calls: seq<Backend.Call>, candidates: seq<CandidateRequest>,
                                 budget: nat,
                                 task: Text, medians: Medians, sqrt: real -> real)
    requires Backend.ValidWorld(w) && Backend.ValidCalls(w, calls) && ValidRequest(candidates, budget)
             && TakesRoots(sqrt)
    ensures var known := Known(Backend.Run(w, calls), task, medians);
            var scores := Scores(candidates, known, Safe, sqrt);
            var d := Decide(scores, budget, Safe);
            d.Recommended? ==>
              && (Judged(w, calls, d.winner.c.id, task) || Echoed(w, calls, d.winner.c.id))
              && d.winner.c in scores && d.winner.c.price <= budget
              && SnapshotTier(known(d.winner.c.id)) in [Tier.Verified, Tier.Provisional]
              && forall c | c in scores && Eligible(c, budget, Safe) :: Utility(c, budget, Safe) <= d.winner.utility
  {
    var known := Known(Backend.Run(w, calls), task, medians);
    var d := Decide(Scores(candidates, known, Safe, sqrt), budget, Safe);
    BestExecutionSound(candidates, budget, Safe, known, sqrt);
    RecommendsBest(Scores(candidates, known, Safe, sqrt), budget, Safe);
    if d.Recommended? {
      TierIsEarned(w, calls, d.winner.c.id, task, medians);
    }
  }
}
