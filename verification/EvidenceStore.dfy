/** The two observation tables and the audit log behind them, the transactions that write them, and replay of the log.
    */
module EvidenceStore {
  import opened Texts
  import opened JsonTokens
  import opened Json
  import opened AuditLog
  import opened Verification
  import opened Reputation

  /** What one row asserts. `subject` is the delivery id or the probe id; probe rows have no task type. */
  datatype Fact = Fact(subject: Text, service: Text, task: Option<Text>, outcome: State, evidence: Text)

  datatype Observation = Observation(fact: Fact, latency: Option<int>, created: int)

  datatype Db = Db(deliveries: seq<Observation>, probes: seq<Observation>, audit: seq<AuditRow>)

  /** What a transaction takes from outside: the event's id and times, and whether it reaches COMMIT. */
  datatype Env = Env(id: Text, ts: int, created: int, commits: bool)

  predicate Decisive(s: State) {
    s != INCONCLUSIVE
  }

  function Facts(rows: seq<Observation>): (r: seq<Fact>)
    ensures |r| == |rows| && forall i | 0 <= i < |r| :: r[i] == rows[i].fact
  {
    seq(|rows|, i requires 0 <= i < |rows| => rows[i].fact)
  }

  /** Neither uniqueness constraint of the table rejects `f`. */
  predicate Fresh(facts: seq<Fact>, f: Fact) {
    forall r | r in facts :: r.subject != f.subject && !(r.service == f.service && r.evidence == f.evidence)
  }

  predicate Counts(facts: seq<Fact>, f: Fact, eligible: bool) {
    eligible && Decisive(f.outcome) && Fresh(facts, f)
  }

  function Inserted(rows: seq<Observation>, f: Fact, eligible: bool, latency: Option<int>,
                    created: int): seq<Observation> {
    if Counts(Facts(rows), f, eligible) then rows + [Observation(f, latency, created)] else rows
  }

  function Flagged(ms: seq<Member>, flag: Text, updated: bool, suppressed: bool): Json {
    Obj(SetKey(SetKey(ms, flag, Bool(updated)), Lit("replay_suppressed"), Bool(suppressed)))
  }

  const VERIFY_DELIVERY := Lit("verify_delivery")
  const PROTOCOL_PROBE := Lit("protocol_probe")
  const TRUST_SNAPSHOT := Lit("trust_snapshot")
  const BEST_EXECUTION := Lit("best_execution")
  const DELIVERY_FLAG := Lit("reputation_updated")
  const PROBE_FLAG := Lit("protocol_reputation_updated")

  /** One committed transaction, or None where it rolls back. */
  function Logged(hash: Hash, db: Db, eventType: Text, payload: Json, env: Env): Option<Db> {
    match Append(hash, db.audit, env.id, env.ts, eventType, payload)
    case None => None
    case Some(row) => if env.commits then Some(db.(audit := db.audit + [row])) else None
  }

  function Recorded(hash: Hash, db: Db, f: Fact, eligible: bool, latency: Option<int>, payload: seq<Member>,
                    env: Env): Option<Db> {
    var updated := Counts(Facts(db.deliveries), f, eligible);
    var flagged := Flagged(payload, DELIVERY_FLAG, updated, Decisive(f.outcome) && !updated);
    Logged(hash, db.(deliveries := Inserted(db.deliveries, f, eligible, latency, env.created)), VERIFY_DELIVERY,
           flagged, env)
  }

  /** An undecided canary raises before the transaction. */
  function RecordedProbe(hash: Hash, db: Db, f: Fact, latency: int, payload: seq<Member>, env: Env): Option<Db> {
    if !Decisive(f.outcome) then None
    else
      var updated := Counts(Facts(db.probes), f, true);
      Logged(hash, db.(probes := Inserted(db.probes, f, true, Some(latency), env.created)), PROTOCOL_PROBE,
             Flagged(payload, PROBE_FLAG, updated, !updated), env)
  }

  class CounterpartyStore {
    const hash: Hash
    var deliveries: seq<Observation>
    var probes: seq<Observation>
    var audit: seq<AuditRow>

    constructor (hash: Hash)
      ensures this.hash == hash && Contents() == Db([], [], [])
    {
      this.hash := hash;
      deliveries, probes, audit := [], [], [];
    }

    function Contents(): Db
      reads this
    {
      Db(deliveries, probes, audit)
    }

    /** Appends inside the caller's transaction. */
    method AppendAuditTx(eventType: Text, payload: Json, env: Env) returns (row: Option<AuditRow>)
      modifies this`audit
      ensures row == Append(hash, old(audit), env.id, env.ts, eventType, payload)
      ensures audit == if row.Some? then old(audit) + [row.value] else old(audit)
    {
      row := Append(hash, audit, env.id, env.ts, eventType, payload);
      if row.Some? {
        audit := audit + [row.value];
      }
    }

    method AppendAudit(eventType: Text, payload: Json, env: Env) returns (committed: bool)
      modifies this
      ensures var after := Logged(hash, old(Contents()), eventType, payload, env);
              committed == after.Some? && Contents() == if committed then after.value else old(Contents())
    {
      var begun := Contents();
      var row := AppendAuditTx(eventType, payload, env);
      committed := row.Some? && env.commits;
      if !committed {
        Rollback(begun);
      }
    }

    method Rollback(begun: Db)
      modifies this
      ensures Contents() == begun
    {
      deliveries, probes, audit := begun.deliveries, begun.probes, begun.audit;
    }

    /** The observation, when decisive and new, and its audit event commit together or not at all. */
    method RecordVerification(f: Fact, latency: Option<int>, payload: seq<Member>, eligible: bool, env: Env)
      returns (committed: bool, updated: bool)
      modifies this
      ensures var after := Recorded(hash, old(Contents()), f, eligible, latency, payload, env);
              committed == after.Some? && Contents() == if committed then after.value else old(Contents())
      ensures updated <==> committed && deliveries != old(deliveries)
    {
      var begun := Contents();
      updated := false;
      if eligible && Decisive(f.outcome) {
        if Fresh(Facts(deliveries), f) {
          deliveries := deliveries + [Observation(f, latency, env.created)];
          updated := true;
        }
      }
      var flagged := SetKey(payload, DELIVERY_FLAG, Bool(updated));
      flagged := SetKey(flagged, Lit("replay_suppressed"), Bool(Decisive(f.outcome) && !updated));
      var row := AppendAuditTx(VERIFY_DELIVERY, Obj(flagged), env);
      committed := row.Some? && env.commits;
      if !committed {
        Rollback(begun);
        updated := false;
      }
    }

    method RecordProtocolObservation(f: Fact, latency: int, payload: seq<Member>, env: Env)
      returns (committed: bool, updated: bool)
      modifies this
      ensures var after := RecordedProbe(hash, old(Contents()), f, latency, payload, env);
              committed == after.Some? && Contents() == if committed then after.value else old(Contents())
      ensures updated <==> committed && probes != old(probes)
    {
      if !Decisive(f.outcome) {
        return false, false;
      }
      var begun := Contents();
      updated := false;
      if Fresh(Facts(probes), f) {
        probes := probes + [Observation(f, Some(latency), env.created)];
        updated := true;
      }
      var flagged := SetKey(payload, PROBE_FLAG, Bool(updated));
      flagged := SetKey(flagged, Lit("replay_suppressed"), Bool(!updated));
      var row := AppendAuditTx(PROTOCOL_PROBE, Obj(flagged), env);
      committed := row.Some? && env.commits;
      if !committed {
        Rollback(begun);
        updated := false;
      }
    }

    function ReputationOf(service: Text, task: Text): BayesianReputation
      reads this
    {
      Tally(Facts(deliveries), service, task)
    }

    function ProtocolReputation(service: Text): BayesianReputation
      reads this
    {
      ProbeTally(Facts(probes), service)
    }
  }

  const GENERAL := Lit("general")

  predicate Relevant(f: Fact, service: Text, task: Text) {
    f.service == service && (f.task == Some(GENERAL) || (task != GENERAL && f.task == Some(task)))
  }

  function Outcomes(facts: seq<Fact>, wanted: Fact -> bool, outcome: State): nat {
    if facts == [] then 0
    else (if wanted(facts[0]) && facts[0].outcome == outcome then 1 else 0) + Outcomes(facts[1..], wanted, outcome)
  }

  /** The rows of one service for one task type, the general ones included. */
  function Tally(facts: seq<Fact>, service: Text, task: Text): BayesianReputation {
    var wanted := (f: Fact) => Relevant(f, service, task);
    BayesianReputation(Outcomes(facts, wanted, PASS), Outcomes(facts, wanted, FAIL))
  }

  predicate OfTask(f: Fact, service: Text, task: Text) {
    f.service == service && f.task == Some(task)
  }

  lemma {:induction false} OutcomesSplit(facts: seq<Fact>, wanted: Fact -> bool, a: Fact -> bool, b: Fact -> bool,
                                         outcome: State)
    requires forall f | f in facts :: (wanted(f) <==> a(f) || b(f)) && !(a(f) && b(f))
    ensures Outcomes(facts, wanted, outcome) == Outcomes(facts, a, outcome) + Outcomes(facts, b, outcome)
  {
    if facts == [] {
    } else {
      assert facts[0] in facts && forall f | f in facts[1..] :: f in facts;
      OutcomesSplit(facts[1..], wanted, a, b, outcome);
    }
  }

  /** Every row of the service for a task type counts once, general rows count for every type, and nothing counts twice.
      */
  lemma NoDoubleCount(facts: seq<Fact>, service: Text, task: Text)
    ensures var own, general := (f: Fact) => OfTask(f, service, task), (f: Fact) => OfTask(f, service, GENERAL);
            Tally(facts, service, task) ==
              if task == GENERAL then BayesianReputation(Outcomes(facts, general, PASS), Outcomes(facts, general, FAIL))
              else BayesianReputation(Outcomes(facts, own, PASS) + Outcomes(facts, general, PASS),
                                      Outcomes(facts, own, FAIL) + Outcomes(facts, general, FAIL))
  {
    var own, general := (f: Fact) => OfTask(f, service, task), (f: Fact) => OfTask(f, service, GENERAL);
    var wanted, nothing := (f: Fact) => Relevant(f, service, task), (f: Fact) => false;
    if task == GENERAL {
      OutcomesSplit(facts, wanted, general, nothing, PASS);
      OutcomesSplit(facts, wanted, general, nothing, FAIL);
      NothingCounted(facts, nothing, PASS);
      NothingCounted(facts, nothing, FAIL);
    } else {
      OutcomesSplit(facts, wanted, own, general, PASS);
      OutcomesSplit(facts, wanted, own, general, FAIL);
    }
  }

  lemma {:induction false} NothingCounted(facts: seq<Fact>, wanted: Fact -> bool, outcome: State)
    requires forall f | f in facts :: !wanted(f)
    ensures Outcomes(facts, wanted, outcome) == 0
  {
    if facts == [] {
    } else {
      assert facts[0] in facts && forall f | f in facts[1..] :: f in facts;
      NothingCounted(facts[1..], wanted, outcome);
    }
  }

  function ProbeTally(facts: seq<Fact>, service: Text): BayesianReputation {
    var wanted := (f: Fact) => f.service == service;
    BayesianReputation(Outcomes(facts, wanted, PASS), Outcomes(facts, wanted, FAIL))
  }

  // ---------- what the two handlers record ----------

  /** The runtime: the digest, the libraries, and how a float is printed. */
  datatype World = World(hash: Hash, lib: Libraries, number: real -> Number)

  datatype ProbeRequest = ProbeRequest(probeId: Text, provider: Text, nonce: Text, output: Json, latency: int)

  function OpName(op: Verification.Op): Text {
    match op
    case Exists => Lit("exists")
    case Eq => Lit("eq")
    case Ne => Lit("ne")
    case Contains => Lit("contains")
    case Gte => Lit("gte")
    case Lte => Lit("lte")
  }

  function AssertionJson(a: Assertion): Json {
    Obj([Member(Lit("path"), Str(a.path)), Member(Lit("op"), Str(OpName(a.op))), Member(Lit("value"), a.value)])
  }

  function AssertionsJson(assertions: seq<Assertion>): (r: seq<Json>)
    ensures |r| == |assertions| && forall i | 0 <= i < |r| :: r[i] == AssertionJson(assertions[i])
  {
    seq(|assertions|, i requires 0 <= i < |assertions| => AssertionJson(assertions[i]))
  }

  function TextsJson(texts: seq<Text>): (r: seq<Json>)
    ensures |r| == |texts| && forall i | 0 <= i < |r| :: r[i] == Str(texts[i])
  {
    seq(|texts|, i requires 0 <= i < |texts| => Str(texts[i]))
  }

  /** `dump` is the JSON dump of the independent checks, with their reasons and evidence. */
  function DeliveryFields(req: DeliveryRequest, dump: Json): seq<Member> {
    [Member(Lit("delivery_id"), Str(req.delivery)), Member(Lit("provider_id"), Str(req.provider)),
     Member(Lit("task"), Str(req.task)),
     Member(Lit("output"), req.output),
     Member(Lit("expected_schema"), if req.schema.Some? then req.schema.value else Null),
     Member(Lit("assertions"), Arr(AssertionsJson(req.assertions))),
     Member(Lit("cited_urls"), Arr(TextsJson(req.citedUrls))),
     Member(Lit("independent_checks"), dump)]
  }

  function DeliveryMaterial(req: DeliveryRequest, dump: Json): Text {
    Canon(Obj(DeliveryFields(req, dump)), PyCompact)
  }

  function ProbeFields(req: ProbeRequest): seq<Member> {
    [Member(Lit("probe_id"), Str(req.probeId)), Member(Lit("provider_id"), Str(req.provider)),
     Member(Lit("nonce"), Str(req.nonce)),
     Member(Lit("output"), req.output)]
  }

  function ProbeMaterial(req: ProbeRequest): Text {
    Canon(Obj(ProbeFields(req)), PyCompact)
  }

  function DeliveryFact(w: World, req: DeliveryRequest, dump: Json): Fact {
    Fact(req.delivery, req.provider, Some(req.taskType), StateOf(DeliveryProbes(w.lib, req)),
         w.hash(DeliveryMaterial(req, dump)))
  }

  function ProbeFact(w: World, req: ProbeRequest): Fact {
    Fact(req.probeId, req.provider, None, CanaryState(w.lib, req.output, req.nonce), w.hash(ProbeMaterial(req)))
  }

  predicate Eligible(req: DeliveryRequest) {
    req.schema.Some? && req.assertions != []
  }

  function StateName(s: State): Text {
    match s
    case PASS => Lit("PASS")
    case FAIL => Lit("FAIL")
    case INCONCLUSIVE => Lit("INCONCLUSIVE")
  }

  /** `{p.probe: p.state.value for p in probes}`. */
  function ProbeStates(probes: seq<ProbeResult>): seq<Member> {
    if probes == [] then []
    else
      var front, last := probes[..|probes| - 1], probes[|probes| - 1];
      SetKey(ProbeStates(front), last.probe, Str(StateName(last.state)))
  }

  function DeliveryPayload(w: World, f: Fact, probes: seq<ProbeResult>, eligible: bool): seq<Member>
    requires f.task.Some?
  {
    var (_, score, confidence) := Aggregate(probes);
    [Member(Lit("delivery_id"), Str(f.subject)), Member(Lit("provider_id"), Str(f.service)),
     Member(Lit("task_type"), Str(f.task.value)),
     Member(Lit("state"), Str(StateName(f.outcome))), Member(Lit("score"), Num(w.number(score))),
     Member(Lit("confidence"), Num(w.number(confidence))), Member(Lit("evidence_hash"), Str(f.evidence)),
     Member(Lit("probe_states"), Obj(ProbeStates(probes))), Member(Lit("reputation_eligible"), Bool(eligible))]
  }

  function ProbePayload(w: World, f: Fact, probes: seq<ProbeResult>): seq<Member> {
    var (_, score, confidence) := Aggregate(probes);
    [Member(Lit("probe_id"), Str(f.subject)), Member(Lit("provider_id"), Str(f.service)),
     Member(Lit("state"), Str(StateName(f.outcome))),
     Member(Lit("score"), Num(w.number(score))), Member(Lit("confidence"), Num(w.number(confidence))),
     Member(Lit("evidence_hash"), Str(f.evidence)), Member(Lit("probe_states"), Obj(ProbeStates(probes)))]
  }
}
