/** Whole runs of the evidence backend: replay of its own log, what a passing row proves, and first submissions. */
module Backend {
  import opened Texts
  import opened JsonTokens
  import opened Json
  import opened AuditLog
  import opened Verification
  import opened Reputation
  import opened EvidenceStore

  lemma DeliveryNames(a: Json, b: Json, c: Json, d: Json, e: Json, f: Json, g: Json, h: Json, i: Json, j: Json, k: Json)
    ensures DistinctKeys([Member(Lit("delivery_id"), a), Member(Lit("provider_id"), b), Member(Lit("task_type"), c),
                          Member(Lit("state"), d), Member(Lit("score"), e), Member(Lit("confidence"), f),
                          Member(Lit("evidence_hash"), g), Member(Lit("probe_states"), h),
                          Member(Lit("reputation_eligible"), i),
                          Member(Lit("reputation_updated"), j), Member(Lit("replay_suppressed"), k)])
  {
    assert Lit("delivery_id")[0] != Lit("provider_id")[0];
    assert Lit("state")[1] != Lit("score")[1];
  }

  lemma ProbeNames(a: Json, b: Json, c: Json, d: Json, e: Json, f: Json, g: Json, h: Json, i: Json)
    ensures DistinctKeys([Member(Lit("probe_id"), a), Member(Lit("provider_id"), b), Member(Lit("state"), c),
                          Member(Lit("score"), d),
                          Member(Lit("confidence"), e), Member(Lit("evidence_hash"), f), Member(Lit("probe_states"), g),
                          Member(Lit("protocol_reputation_updated"), h), Member(Lit("replay_suppressed"), i)])
  {
    assert Lit("state")[1] != Lit("score")[1];
  }

  // ---------- calls and runs ----------

  datatype Call =
    | VerifyDelivery(req: DeliveryRequest, dump: Json, latency: int, env: Env)
    | ProbeObservation(probe: ProbeRequest, env: Env)
    | TrustSnapshot(payload: Json, env: Env)
    | BestExecution(payload: Json, env: Env)

  /** A handler's effect; None where it raises or its transaction rolls back. */
  function Step(w: World, db: Db, c: Call): Option<Db> {
    match c
    case VerifyDelivery(req, dump, latency, env) =>
      if Raises(w.lib, req.output) then None
      else
        var f := DeliveryFact(w, req, dump);
        Recorded(w.hash, db, f, Eligible(req), Some(latency),
                 DeliveryPayload(w, f, DeliveryProbes(w.lib, req), Eligible(req)), env)
    case ProbeObservation(probe, env) =>
      if Raises(w.lib, probe.output) then None
      else
        var f := ProbeFact(w, probe);
        RecordedProbe(w.hash, db, f, probe.latency, ProbePayload(w, f, CanaryProbes(w.lib, probe.output, probe.nonce)),
                      env)
    case TrustSnapshot(payload, env) => Logged(w.hash, db, TRUST_SNAPSHOT, payload, env)
    case BestExecution(payload, env) => Logged(w.hash, db, BEST_EXECUTION, payload, env)
  }

  /** What the caller is told besides the receipt. */
  datatype Reply = Reply(state: State, score: real, confidence: real, updated: bool, replaySuppressed: bool)

  /** The handler's list of checks, built up in place; None where a check raises. */
  method DeliveryChecks(lib: Libraries, req: DeliveryRequest) returns (checks: Option<seq<ProbeResult>>)
    ensures checks == if Raises(lib, req.output) then None else Some(DeliveryProbes(lib, req))
  {
    var checked := AssertionsProbe(lib, req.output, req.assertions);
    if Raises(lib, req.output) {
      return None;
    }
    var probes := [SchemaProbe(lib, req.output, req.schema), checked, InjectionProbe(lib, req.output),
                   ContradictionProbe(lib, req.output)];
    probes := probes + req.checks;
    if req.citedUrls != [] && !HasCitationsCheck(req.checks) {
      probes := probes + [CitationsProbe()];
    }
    assert probes == DeliveryProbes(lib, req);
    return Some(probes);
  }

  method HandleVerifyDelivery(w: World, store: CounterpartyStore, req: DeliveryRequest, dump: Json, latency: int,
                              env: Env)
    returns (reply: Option<Reply>)
    requires store.hash == w.hash
    modifies store
    ensures var after := Step(w, old(store.Contents()), VerifyDelivery(req, dump, latency, env));
            && (reply.Some? <==> after.Some?)
            && store.Contents() == if after.Some? then after.value else old(store.Contents())
    ensures reply.Some? ==>
            && Aggregate(DeliveryProbes(w.lib, req)) == (reply.value.state, reply.value.score, reply.value.confidence)
            && (reply.value.updated <==> store.deliveries != old(store.deliveries))
            && (reply.value.replaySuppressed
                <==> Decisive(reply.value.state) && store.deliveries == old(store.deliveries))
  {
    var checks := DeliveryChecks(w.lib, req);
    if checks.None? {
      return None;
    }
    var probes := checks.value;
    var (state, score, confidence) := Aggregate(probes);
    var f := Fact(req.delivery, req.provider, Some(req.taskType), state, w.hash(DeliveryMaterial(req, dump)));
    var eligible := req.schema.Some? && req.assertions != [];
    var committed, updated := store.RecordVerification(f, Some(latency), DeliveryPayload(w, f, probes, eligible),
                                                       eligible, env);
    if !committed {
      return None;
    }
    return Some(Reply(state, score, confidence, updated, Decisive(state) && !updated));
  }

  method HandleProbeObservation(w: World, store: CounterpartyStore, probe: ProbeRequest, env: Env)
    returns (reply: Option<Reply>)
    requires store.hash == w.hash
    modifies store
    ensures var after := Step(w, old(store.Contents()), ProbeObservation(probe, env));
            && (reply.Some? <==> after.Some?)
            && store.Contents() == if after.Some? then after.value else old(store.Contents())
    ensures reply.Some? ==>
            && reply.value.state == CanaryState(w.lib, probe.output, probe.nonce)
            && (reply.value.updated <==> store.probes != old(store.probes))
            && reply.value.replaySuppressed == !reply.value.updated
  {
    if Raises(w.lib, probe.output) {
      return None;
    }
    var probes := CanaryProbes(w.lib, probe.output, probe.nonce);
    var (state, score, confidence) := Aggregate(probes);
    if state == INCONCLUSIVE {
      state := FAIL;
    }
    var f := Fact(probe.probeId, probe.provider, None, state, w.hash(ProbeMaterial(probe)));
    var committed, updated := store.RecordProtocolObservation(f, probe.latency, ProbePayload(w, f, probes), env);
    if !committed {
      return None;
    }
    return Some(Reply(state, score, confidence, updated, !updated));
  }

  /** All calls in the order their transactions ran. */
  function Run(w: World, calls: seq<Call>): Db {
    if calls == [] then Db([], [], [])
    else
      var db := Run(w, calls[..|calls| - 1]);
      match Step(w, db, calls[|calls| - 1])
      case None => db
      case Some(after) => after
  }

  /** What the JSON layer guarantees of a request and the runtime of its floats. */
  ghost predicate ValidCall(w: World, c: Call) {
    match c
    case VerifyDelivery(req, dump, _, _) =>
      && Valid(req.output, PyCompact) && Valid(dump, PyCompact) && InUnit(req.checks)
      && (req.schema.Some? ==> Valid(req.schema.value, PyCompact))
      && forall a | a in req.assertions :: Valid(a.value, PyCompact)
    case ProbeObservation(probe, _) => Valid(probe.output, PyCompact)
    case TrustSnapshot(payload, _) => Valid(payload, PyCompact)
    case BestExecution(payload, _) => Valid(payload, PyCompact)
  }

  ghost predicate ValidCalls(w: World, calls: seq<Call>) {
    forall c | c in calls :: ValidCall(w, c)
  }

  ghost predicate ValidWorld(w: World) {
    && (forall r: real :: ValidNumber(w.number(r), PyCompact))
    && (forall v: Json :: w.lib.compare(Eq, v, v))
  }

  /** A conforming canary reply may say more, and the handler fail on what it says. */
  function CertainEcho(nonce: Text): Json {
    Certain([Member(PROBE_ID, Str(nonce)), Member(ACK, Bool(true))])
  }

  /** So not every conforming reply is recorded: on this one both handlers raise, and nothing is. */
  lemma ConformingReplyLost(w: World, db: Db, probe: ProbeRequest, req: DeliveryRequest, dump: Json, latency: int,
                            env: Env)
    requires w.lib.upper(Lit("FAIL")) == Lit("FAIL")
    requires probe.output == CertainEcho(probe.nonce) && req.output == probe.output
    ensures CanaryConforms(probe.output, probe.nonce) && ValidCall(w, ProbeObservation(probe, env))
    ensures Step(w, db, ProbeObservation(probe, env)) == None
    ensures Step(w, db, VerifyDelivery(req, dump, latency, env)) == None
  {
    var before := [Member(PROBE_ID, Str(probe.nonce)), Member(ACK, Bool(true))];
    assert |PROBE_ID| == 21 && |ACK| == 3 && |Lit("verdict")| == 7 && |Lit("confidence")| == 10 && |Lit("reason")| == 6;
    assert Keys(before) == [PROBE_ID, ACK];
    CertainRaises(w.lib, before);
    var ms := probe.output.members;
    LookupMember(ms, ms[0]);
    LookupMember(ms, ms[1]);
  }

  // ---------- replay ----------

  /** What an event says was decided. */
  datatype Receipt = Receipt(fact: Fact, eligible: bool, updated: bool, suppressed: bool)

  datatype Tables = Tables(deliveries: seq<Fact>, probes: seq<Fact>)

  function TextAt(p: Json, key: Text): Option<Text> {
    match Get(p, key)
    case Some(Str(s)) => Some(s)
    case _ => None
  }

  function FlagAt(p: Json, key: Text): Option<bool> {
    match Get(p, key)
    case Some(Bool(b)) => Some(b)
    case _ => None
  }

  function StateAt(p: Json): Option<State> {
    match TextAt(p, Lit("state"))
    case None => None
    case Some(name) =>
      if name == StateName(PASS) then Some(PASS)
      else if name == StateName(FAIL) then Some(FAIL)
      else if name == StateName(INCONCLUSIVE) then Some(INCONCLUSIVE)
      else None
  }

  function DeliveryReceipt(p: Json): Option<Receipt> {
    match (TextAt(p, Lit("delivery_id")), TextAt(p, Lit("provider_id")), TextAt(p, Lit("task_type")), StateAt(p),
           TextAt(p, Lit("evidence_hash")), FlagAt(p, Lit("reputation_eligible")), FlagAt(p, DELIVERY_FLAG),
           FlagAt(p, Lit("replay_suppressed")))
    case (Some(subject), Some(service), Some(task), Some(outcome), Some(evidence), Some(eligible), Some(updated),
          Some(suppressed)) =>
      Some(Receipt(Fact(subject, service, Some(task), outcome, evidence), eligible, updated, suppressed))
    case _ => None
  }

  function ProbeReceipt(p: Json): Option<Receipt> {
    match (TextAt(p, Lit("probe_id")), TextAt(p, Lit("provider_id")), StateAt(p), TextAt(p, Lit("evidence_hash")),
           FlagAt(p, PROBE_FLAG), FlagAt(p, Lit("replay_suppressed")))
    case (Some(subject), Some(service), Some(outcome), Some(evidence), Some(updated), Some(suppressed)) =>
      Some(Receipt(Fact(subject, service, None, outcome, evidence), true, updated, suppressed))
    case _ => None
  }

  /** Re-decides one receipt; None when a stored flag disagrees with the decision. */
  function Redecide(facts: seq<Fact>, r: Receipt): Option<seq<Fact>> {
    var updated := Counts(facts, r.fact, r.eligible);
    if r.updated != updated || r.suppressed != (Decisive(r.fact.outcome) && !updated) then None
    else Some(if updated then facts + [r.fact] else facts)
  }

  function ReplayRow(t: Tables, row: AuditRow): Option<Tables> {
    match Payload(row)
    case None => None
    case Some(p) =>
      if row.eventType == VERIFY_DELIVERY then
        match DeliveryReceipt(p)
        case None => None
        case Some(r) =>
          (match Redecide(t.deliveries, r)
           case None => None
           case Some(facts) => Some(t.(deliveries := facts)))
      else if row.eventType == PROTOCOL_PROBE then
        match ProbeReceipt(p)
        case None => None
        case Some(r) =>
          (match Redecide(t.probes, r)
           case None => None
           case Some(facts) => Some(t.(probes := facts)))
      else Some(t)
  }

  /** The log read on its own; None if any stored flag is not the one replay decides. */
  function Replay(rows: seq<AuditRow>): Option<Tables> {
    if rows == [] then Some(Tables([], []))
    else
      match Replay(rows[..|rows| - 1])
      case None => None
      case Some(t) => ReplayRow(t, rows[|rows| - 1])
  }

  function TablesOf(db: Db): Tables {
    Tables(Facts(db.deliveries), Facts(db.probes))
  }

  ghost predicate Faithful(w: World, db: Db) {
    Verifies(w.hash, db.audit) && Replay(db.audit) == Some(TablesOf(db))
  }

  lemma FieldRead(ms: seq<Member>, i: nat)
    requires DistinctKeys(ms) && i < |ms|
    ensures Get(Norm(Obj(ms)), ms[i].key) == Some(Norm(ms[i].value))
  {
    GetLoaded(ms, ms[i]);
  }

  lemma StateRead(p: Json, s: State)
    requires Get(p, Lit("state")) == Some(Str(StateName(s)))
    ensures StateAt(p) == Some(s)
  {
    assert StateName(PASS)[0] != StateName(FAIL)[0];
  }

  /** The nine fields of a delivery's event and its two flags. */
  function DeliveryRecord(f: Fact, score: Json, confidence: Json, states: Json, eligible: bool, updated: bool,
                          suppressed: bool): seq<Member>
    requires f.task.Some?
  {
    [Member(Lit("delivery_id"), Str(f.subject)), Member(Lit("provider_id"), Str(f.service)),
     Member(Lit("task_type"), Str(f.task.value)),
     Member(Lit("state"), Str(StateName(f.outcome))), Member(Lit("score"), score),
     Member(Lit("confidence"), confidence),
     Member(Lit("evidence_hash"), Str(f.evidence)), Member(Lit("probe_states"), states),
     Member(Lit("reputation_eligible"), Bool(eligible)),
     Member(DELIVERY_FLAG, Bool(updated)), Member(Lit("replay_suppressed"), Bool(suppressed))]
  }

  lemma DeliveryRecordDistinct(f: Fact, score: Json, confidence: Json, states: Json, eligible: bool, updated: bool,
                               suppressed: bool)
    requires f.task.Some?
    ensures DistinctKeys(DeliveryRecord(f, score, confidence, states, eligible, updated, suppressed))
  {
    DeliveryNames(Str(f.subject), Str(f.service), Str(f.task.value), Str(StateName(f.outcome)), score, confidence,
                  Str(f.evidence), states, Bool(eligible), Bool(updated), Bool(suppressed));
  }

  lemma DeliveryReadBack(f: Fact, score: Json, confidence: Json, states: Json, eligible: bool, updated: bool,
                         suppressed: bool)
    requires f.task.Some?
    ensures var ms := DeliveryRecord(f, score, confidence, states, eligible, updated, suppressed);
            DeliveryReceipt(Norm(Obj(ms))) == Some(Receipt(f, eligible, updated, suppressed))
  {
    var ms := DeliveryRecord(f, score, confidence, states, eligible, updated, suppressed);
    DeliveryRecordDistinct(f, score, confidence, states, eligible, updated, suppressed);
    FieldRead(ms, 0);
    FieldRead(ms, 1);
    FieldRead(ms, 2);
    FieldRead(ms, 3);
    FieldRead(ms, 6);
    FieldRead(ms, 8);
    FieldRead(ms, 9);
    FieldRead(ms, 10);
    StateRead(Norm(Obj(ms)), f.outcome);
  }

  function ProbeRecord(f: Fact, score: Json, confidence: Json, states: Json, updated: bool,
                       suppressed: bool): seq<Member> {
    [Member(Lit("probe_id"), Str(f.subject)), Member(Lit("provider_id"), Str(f.service)),
     Member(Lit("state"), Str(StateName(f.outcome))),
     Member(Lit("score"), score), Member(Lit("confidence"), confidence), Member(Lit("evidence_hash"), Str(f.evidence)),
     Member(Lit("probe_states"), states), Member(PROBE_FLAG, Bool(updated)),
     Member(Lit("replay_suppressed"), Bool(suppressed))]
  }

  lemma ProbeRecordDistinct(f: Fact, score: Json, confidence: Json, states: Json, updated: bool, suppressed: bool)
    ensures DistinctKeys(ProbeRecord(f, score, confidence, states, updated, suppressed))
  {
    ProbeNames(Str(f.subject), Str(f.service), Str(StateName(f.outcome)), score, confidence, Str(f.evidence), states,
               Bool(updated), Bool(suppressed));
  }

  lemma ProbeReadBack(f: Fact, score: Json, confidence: Json, states: Json, updated: bool, suppressed: bool)
    requires f.task.None?
    ensures var ms := ProbeRecord(f, score, confidence, states, updated, suppressed);
            ProbeReceipt(Norm(Obj(ms))) == Some(Receipt(f, true, updated, suppressed))
  {
    var ms := ProbeRecord(f, score, confidence, states, updated, suppressed);
    ProbeRecordDistinct(f, score, confidence, states, updated, suppressed);
    FieldRead(ms, 0);
    FieldRead(ms, 1);
    FieldRead(ms, 2);
    FieldRead(ms, 5);
    FieldRead(ms, 7);
    FieldRead(ms, 8);
    StateRead(Norm(Obj(ms)), f.outcome);
  }

  lemma PrefixDistinct(ms: seq<Member>, n: nat)
    requires DistinctKeys(ms) && n < |ms|
    ensures ms[n].key !in Keys(ms[..n]) && DistinctKeys(ms[..n])
  {
  }

  /** The two flags land after the handler's own fields. */
  lemma FlagsAppended(ms: seq<Member>, flag: Text, updated: bool, suppressed: bool)
    requires DistinctKeys(ms + [Member(flag, Bool(updated)), Member(Lit("replay_suppressed"), Bool(suppressed))])
    ensures Flagged(ms, flag, updated, suppressed) ==
            Obj(ms + [Member(flag, Bool(updated)), Member(Lit("replay_suppressed"), Bool(suppressed))])
  {
    var a, b := Member(flag, Bool(updated)), Member(Lit("replay_suppressed"), Bool(suppressed));
    var all := ms + [a, b];
    PrefixDistinct(all, |ms|);
    assert all[..|ms|] == ms;
    SetFresh(ms, flag, Bool(updated));
    PrefixDistinct(all, |ms| + 1);
    assert all[..|ms| + 1] == ms + [a];
    SetFresh(ms + [a], b.key, b.value);
    assert ms + [a] + [b] == all;
  }

  lemma {:induction false} ProbeStatesValid(probes: seq<ProbeResult>)
    ensures ValidMembers(ProbeStates(probes), PyCompact)
  {
    if probes == [] {
    } else {
      var n := |probes| - 1;
      ProbeStatesValid(probes[..n]);
      SetKeyValid(ProbeStates(probes[..n]), probes[n].probe, Str(StateName(probes[n].state)), PyCompact);
    }
  }

  lemma FactsAppend(rows: seq<Observation>, row: Observation)
    ensures Facts(rows + [row]) == Facts(rows) + [row.fact]
  {
  }

  /** A committed event keeps the chain intact, and replay reads it as the loaded payload. */
  lemma LoggedKeeps(w: World, db: Db, eventType: Text, payload: Json, env: Env)
    requires Verifies(w.hash, db.audit) && Valid(payload, PyCompact)
    requires Logged(w.hash, db, eventType, payload, env).Some?
    ensures var after := Logged(w.hash, db, eventType, payload, env).value;
            && Verifies(w.hash, after.audit) && |after.audit| == |db.audit| + 1 && after.audit[..|db.audit|] == db.audit
            && after.audit[|db.audit|].eventType == eventType && Payload(after.audit[|db.audit|]) == Some(Norm(payload))
            && after.deliveries == db.deliveries && after.probes == db.probes
  {
    AppendVerifies(w.hash, db.audit, env.id, env.ts, eventType, payload);
    var row := Append(w.hash, db.audit, env.id, env.ts, eventType, payload).value;
    assert (db.audit + [row])[..|db.audit|] == db.audit;
  }

  lemma OtherEvent(w: World, db: Db, eventType: Text, payload: Json, env: Env)
    requires Faithful(w, db) && Valid(payload, PyCompact)
             && (eventType == TRUST_SNAPSHOT || eventType == BEST_EXECUTION)
    requires Logged(w.hash, db, eventType, payload, env).Some?
    ensures Faithful(w, Logged(w.hash, db, eventType, payload, env).value)
  {
    LoggedKeeps(w, db, eventType, payload, env);
    assert PROTOCOL_PROBE[0] != TRUST_SNAPSHOT[0] && PROTOCOL_PROBE[0] != BEST_EXECUTION[0];
    assert |VERIFY_DELIVERY| != |eventType|;
  }

  lemma DeliveryPayloadIs(w: World, f: Fact, probes: seq<ProbeResult>, eligible: bool, updated: bool, suppressed: bool)
    requires f.task.Some?
    ensures var (_, score, confidence) := Aggregate(probes);
            Flagged(DeliveryPayload(w, f, probes, eligible), DELIVERY_FLAG, updated, suppressed)
              == Obj(DeliveryRecord(f, Num(w.number(score)), Num(w.number(confidence)), Obj(ProbeStates(probes)),
                                    eligible,
                                    updated, suppressed))
  {
    var (_, score, confidence) := Aggregate(probes);
    var a, b, c := Num(w.number(score)), Num(w.number(confidence)), Obj(ProbeStates(probes));
    DeliveryRecordDistinct(f, a, b, c, eligible, updated, suppressed);
    var own := DeliveryPayload(w, f, probes, eligible);
    assert DeliveryRecord(f, a, b, c, eligible, updated, suppressed)
        == own + [Member(DELIVERY_FLAG, Bool(updated)), Member(Lit("replay_suppressed"), Bool(suppressed))];
    FlagsAppended(own, DELIVERY_FLAG, updated, suppressed);
  }

  lemma DeliveryPayloadValid(w: World, f: Fact, probes: seq<ProbeResult>, eligible: bool, updated: bool,
                             suppressed: bool)
    requires ValidWorld(w) && f.task.Some?
    ensures var p := Flagged(DeliveryPayload(w, f, probes, eligible), DELIVERY_FLAG, updated, suppressed);
            Valid(p, PyCompact) && DeliveryReceipt(Norm(p)) == Some(Receipt(f, eligible, updated, suppressed))
  {
    var (_, score, confidence) := Aggregate(probes);
    var a, b, c := Num(w.number(score)), Num(w.number(confidence)), Obj(ProbeStates(probes));
    DeliveryPayloadIs(w, f, probes, eligible, updated, suppressed);
    DeliveryRecordDistinct(f, a, b, c, eligible, updated, suppressed);
    ProbeStatesValid(probes);
    DeliveryReadBack(f, a, b, c, eligible, updated, suppressed);
  }

  lemma ProbePayloadIs(w: World, f: Fact, probes: seq<ProbeResult>, updated: bool, suppressed: bool)
    ensures var (_, score, confidence) := Aggregate(probes);
            Flagged(ProbePayload(w, f, probes), PROBE_FLAG, updated, suppressed)
              == Obj(ProbeRecord(f, Num(w.number(score)), Num(w.number(confidence)), Obj(ProbeStates(probes)), updated,
                                 suppressed))
  {
    var (_, score, confidence) := Aggregate(probes);
    var a, b, c := Num(w.number(score)), Num(w.number(confidence)), Obj(ProbeStates(probes));
    ProbeRecordDistinct(f, a, b, c, updated, suppressed);
    var own := ProbePayload(w, f, probes);
    assert ProbeRecord(f, a, b, c, updated, suppressed)
        == own + [Member(PROBE_FLAG, Bool(updated)), Member(Lit("replay_suppressed"), Bool(suppressed))];
    FlagsAppended(own, PROBE_FLAG, updated, suppressed);
  }

  lemma ProbePayloadValid(w: World, f: Fact, probes: seq<ProbeResult>, updated: bool)
    requires ValidWorld(w) && f.task.None?
    ensures var p := Flagged(ProbePayload(w, f, probes), PROBE_FLAG, updated, !updated);
            Valid(p, PyCompact) && ProbeReceipt(Norm(p)) == Some(Receipt(f, true, updated, !updated))
  {
    var (_, score, confidence) := Aggregate(probes);
    var a, b, c := Num(w.number(score)), Num(w.number(confidence)), Obj(ProbeStates(probes));
    ProbePayloadIs(w, f, probes, updated, !updated);
    ProbeRecordDistinct(f, a, b, c, updated, !updated);
    ProbeStatesValid(probes);
    ProbeReadBack(f, a, b, c, updated, !updated);
  }

  /** Replay decides a receipt as the store did. */
  lemma RedecideMatches(rows: seq<Observation>, f: Fact, eligible: bool, latency: Option<int>, created: int)
    ensures var updated := Counts(Facts(rows), f, eligible);
            Redecide(Facts(rows), Receipt(f, eligible, updated, Decisive(f.outcome) && !updated))
              == Some(Facts(Inserted(rows, f, eligible, latency, created)))
  {
    FactsAppend(rows, Observation(f, latency, created));
  }

  lemma DeliveryEvent(w: World, db: Db, f: Fact, eligible: bool, latency: Option<int>, probes: seq<ProbeResult>,
                      env: Env)
    requires ValidWorld(w) && Faithful(w, db) && f.task.Some?
    requires Recorded(w.hash, db, f, eligible, latency, DeliveryPayload(w, f, probes, eligible), env).Some?
    ensures Faithful(w, Recorded(w.hash, db, f, eligible, latency, DeliveryPayload(w, f, probes, eligible), env).value)
  {
    var updated := Counts(Facts(db.deliveries), f, eligible);
    var suppressed := Decisive(f.outcome) && !updated;
    var payload := Flagged(DeliveryPayload(w, f, probes, eligible), DELIVERY_FLAG, updated, suppressed);
    var staged := db.(deliveries := Inserted(db.deliveries, f, eligible, latency, env.created));
    DeliveryPayloadValid(w, f, probes, eligible, updated, suppressed);
    LoggedKeeps(w, staged, VERIFY_DELIVERY, payload, env);
    RedecideMatches(db.deliveries, f, eligible, latency, env.created);
  }

  lemma ProbeEvent(w: World, db: Db, f: Fact, latency: int, probes: seq<ProbeResult>, env: Env)
    requires ValidWorld(w) && Faithful(w, db) && f.task.None?
    requires RecordedProbe(w.hash, db, f, latency, ProbePayload(w, f, probes), env).Some?
    ensures Faithful(w, RecordedProbe(w.hash, db, f, latency, ProbePayload(w, f, probes), env).value)
  {
    var updated := Counts(Facts(db.probes), f, true);
    var payload := Flagged(ProbePayload(w, f, probes), PROBE_FLAG, updated, !updated);
    var staged := db.(probes := Inserted(db.probes, f, true, Some(latency), env.created));
    ProbePayloadValid(w, f, probes, updated);
    LoggedKeeps(w, staged, PROTOCOL_PROBE, payload, env);
    RedecideMatches(db.probes, f, true, Some(latency), env.created);
    assert |PROTOCOL_PROBE| != |VERIFY_DELIVERY|;
  }

  lemma StepFaithful(w: World, db: Db, c: Call)
    requires ValidWorld(w) && ValidCall(w, c) && Faithful(w, db) && Step(w, db, c).Some?
    ensures Faithful(w, Step(w, db, c).value)
  {
    match c
    case VerifyDelivery(req, dump, latency, env) =>
      DeliveryEvent(w, db, DeliveryFact(w, req, dump), Eligible(req), Some(latency), DeliveryProbes(w.lib, req), env);
    case ProbeObservation(probe, env) =>
      ProbeEvent(w, db, ProbeFact(w, probe), probe.latency, CanaryProbes(w.lib, probe.output, probe.nonce), env);
    case TrustSnapshot(payload, env) => OtherEvent(w, db, TRUST_SNAPSHOT, payload, env);
    case BestExecution(payload, env) => OtherEvent(w, db, BEST_EXECUTION, payload, env);
  }

  /** Every log the backend writes verifies, and replaying it reproduces every stored flag and both tables, apart from
      latencies and times, whatever calls came, raised, rolled back or crashed. */
  lemma {:induction false} LogReplays(w: World, calls: seq<Call>)
    requires ValidWorld(w) && ValidCalls(w, calls)
    ensures Verifies(w.hash, Run(w, calls).audit)
    ensures Replay(Run(w, calls).audit) == Some(TablesOf(Run(w, calls)))
  {
    if calls == [] {
    } else {
      var n := |calls| - 1;
      assert calls[n] in calls && forall c | c in calls[..n] :: c in calls;
      LogReplays(w, calls[..n]);
      if Step(w, Run(w, calls[..n]), calls[n]).Some? {
        StepFaithful(w, Run(w, calls[..n]), calls[n]);
      }
    }
  }

  // ---------- first submissions ----------

  datatype Table = Deliveries | Probes

  function Rows(db: Db, t: Table): seq<Observation> {
    if t.Deliveries? then db.deliveries else db.probes
  }

  /** The decisive, eligible fact a call submits to a table, if any. */
  function Submission(w: World, c: Call, t: Table): Option<Fact> {
    match c
    case VerifyDelivery(req, dump, _, _) =>
      var f := DeliveryFact(w, req, dump);
      if t.Deliveries? && Eligible(req) && Decisive(f.outcome) then Some(f) else None
    case ProbeObservation(probe, _) => if t.Probes? then Some(ProbeFact(w, probe)) else None
    case _ => None
  }

  /** The facts submitted by the calls that committed, in order. */
  function Submitted(w: World, calls: seq<Call>, t: Table): seq<Fact> {
    if calls == [] then []
    else
      var n := |calls| - 1;
      var before := Submitted(w, calls[..n], t);
      if Step(w, Run(w, calls[..n]), calls[n]).Some? && Submission(w, calls[n], t).Some?
      then before + [Submission(w, calls[n], t).value]
      else before
  }

  predicate Seen(facts: seq<Fact>, subject: Text) {
    exists f :: f in facts && f.subject == subject
  }

  /** The first fact of each delivery or probe id. */
  function FirstOf(facts: seq<Fact>): seq<Fact> {
    if facts == [] then []
    else
      var n := |facts| - 1;
      FirstOf(facts[..n]) + if Seen(facts[..n], facts[n].subject) then [] else [facts[n]]
  }

  lemma {:induction false} FirstOfSubjects(facts: seq<Fact>, subject: Text)
    ensures Seen(FirstOf(facts), subject) <==> Seen(facts, subject)
  {
    if facts == [] {
    } else {
      var n := |facts| - 1;
      FirstOfSubjects(facts[..n], subject);
      assert forall f :: f in facts <==> f in facts[..n] || f == facts[n] by {
        assert facts == facts[..n] + [facts[n]];
      }
    }
  }

  function MaterialOf(c: Call, t: Table): Option<Text> {
    match c
    case VerifyDelivery(req, dump, _, _) => if t.Deliveries? then Some(DeliveryMaterial(req, dump)) else None
    case ProbeObservation(probe, _) => if t.Probes? then Some(ProbeMaterial(probe)) else None
    case _ => None
  }

  /** Two calls' evidence texts that collide under the digest. */
  ghost predicate EvidenceCollides(w: World, calls: seq<Call>, t: Table) {
    exists a, b :: a in calls && b in calls && MaterialOf(a, t).Some? && MaterialOf(b, t).Some?
                   && Collision(w.hash, MaterialOf(a, t).value, MaterialOf(b, t).value)
  }

  lemma DeliveryFieldsValid(w: World, req: DeliveryRequest, dump: Json, latency: int, env: Env)
    requires ValidCall(w, VerifyDelivery(req, dump, latency, env))
    ensures Valid(Obj(DeliveryFields(req, dump)), PyCompact)
  {
    assert Lit("delivery_id")[0] != Lit("provider_id")[0];
    assert Lit("assertions")[0] != Lit("cited_urls")[0];
    forall i | 0 <= i < |req.assertions|
      ensures Valid(AssertionJson(req.assertions[i]), PyCompact)
    {
      assert req.assertions[i] in req.assertions;
      assert |Lit("path")| == 4 && |Lit("op")| == 2 && |Lit("value")| == 5;
    }
  }

  lemma ProbeFieldsValid(probe: ProbeRequest)
    requires Valid(probe.output, PyCompact)
    ensures Valid(Obj(ProbeFields(probe)), PyCompact)
  {
    assert |Lit("probe_id")| == 8 && |Lit("provider_id")| == 11 && |Lit("nonce")| == 5 && |Lit("output")| == 6;
  }

  function SchemaJson(req: DeliveryRequest): Json {
    DeliveryFields(req, Null)[4].value
  }

  /** The same delivery evidence, JSON values up to key order. */
  ghost predicate SameDelivery(a: DeliveryRequest, aDump: Json, b: DeliveryRequest, bDump: Json) {
    && a.delivery == b.delivery && a.provider == b.provider && a.task == b.task && Same(a.output, b.output)
    && Same(SchemaJson(a), SchemaJson(b)) && Same(Arr(AssertionsJson(a.assertions)), Arr(AssertionsJson(b.assertions)))
    && Same(Arr(TextsJson(a.citedUrls)), Arr(TextsJson(b.citedUrls))) && Same(aDump, bDump)
  }

  lemma DeliveryFieldsSame(a: DeliveryRequest, aDump: Json, b: DeliveryRequest, bDump: Json)
    ensures var x, y := DeliveryFields(a, aDump), DeliveryFields(b, bDump);
            (forall i | 0 <= i < |x| :: Same(x[i].value, y[i].value)) <==> SameDelivery(a, aDump, b, bDump)
  {
    var x, y := DeliveryFields(a, aDump), DeliveryFields(b, bDump);
    EightFields(x, y);
    TextsSame(a.delivery, b.delivery);
    TextsSame(a.provider, b.provider);
    TextsSame(a.task, b.task);
  }

  lemma EightFields(x: seq<Member>, y: seq<Member>)
    requires |x| == |y| == 8
    ensures (forall i | 0 <= i < |x| :: Same(x[i].value, y[i].value)) <==>
            Same(x[0].value, y[0].value) && Same(x[1].value, y[1].value) && Same(x[2].value, y[2].value)
            && Same(x[3].value, y[3].value) &&
            Same(x[4].value, y[4].value) && Same(x[5].value, y[5].value) && Same(x[6].value, y[6].value)
            && Same(x[7].value, y[7].value)
  {
  }

  /** A delivery's evidence text decides the whole request, so the hash binds the delivery id. */
  lemma DeliveryMaterialBinds(w: World, a: Call, b: Call)
    requires a.VerifyDelivery? && b.VerifyDelivery? && ValidCall(w, a) && ValidCall(w, b)
    ensures DeliveryMaterial(a.req, a.dump) == DeliveryMaterial(b.req, b.dump)
            <==> SameDelivery(a.req, a.dump, b.req, b.dump)
  {
    DeliveryFieldsValid(w, a.req, a.dump, a.latency, a.env);
    DeliveryFieldsValid(w, b.req, b.dump, b.latency, b.env);
    RecordsText(DeliveryFields(a.req, a.dump), DeliveryFields(b.req, b.dump), PyCompact);
    DeliveryFieldsSame(a.req, a.dump, b.req, b.dump);
  }

  ghost predicate SameProbe(a: ProbeRequest, b: ProbeRequest) {
    a.probeId == b.probeId && a.provider == b.provider && a.nonce == b.nonce && Same(a.output, b.output)
  }

  lemma ProbeFieldsSame(a: ProbeRequest, b: ProbeRequest)
    ensures var x, y := ProbeFields(a), ProbeFields(b);
            (forall i | 0 <= i < |x| :: Same(x[i].value, y[i].value)) <==> SameProbe(a, b)
  {
    TextsSame(a.probeId, b.probeId);
    TextsSame(a.provider, b.provider);
    TextsSame(a.nonce, b.nonce);
    FourFields(ProbeFields(a), ProbeFields(b));
  }

  lemma FourFields(x: seq<Member>, y: seq<Member>)
    requires |x| == |y| == 4
    ensures (forall i | 0 <= i < |x| :: Same(x[i].value, y[i].value)) <==>
            Same(x[0].value, y[0].value) && Same(x[1].value, y[1].value) && Same(x[2].value, y[2].value)
            && Same(x[3].value, y[3].value)
  {
  }

  lemma ProbeMaterialBinds(a: ProbeRequest, b: ProbeRequest)
    requires Valid(a.output, PyCompact) && Valid(b.output, PyCompact)
    ensures ProbeMaterial(a) == ProbeMaterial(b) <==> SameProbe(a, b)
  {
    ProbeFieldsValid(a);
    ProbeFieldsValid(b);
    RecordsText(ProbeFields(a), ProbeFields(b), PyCompact);
    ProbeFieldsSame(a, b);
  }

  /** Different ids give different evidence texts. */
  lemma MaterialBindsSubject(w: World, a: Call, b: Call, t: Table)
    requires ValidCall(w, a) && ValidCall(w, b) && Submission(w, a, t).Some? && Submission(w, b, t).Some?
    requires MaterialOf(a, t) == MaterialOf(b, t)
    ensures Submission(w, a, t).value.subject == Submission(w, b, t).value.subject
  {
    if a.VerifyDelivery? && b.VerifyDelivery? {
      DeliveryMaterialBinds(w, a, b);
    } else if a.ProbeObservation? && b.ProbeObservation? {
      ProbeMaterialBinds(a.probe, b.probe);
    }
  }

  /** One step on one table: the store's two constraints decide. */
  lemma StepRows(w: World, db: Db, c: Call, t: Table)
    requires Step(w, db, c).Some?
    ensures var sub, facts := Submission(w, c, t), Facts(Rows(db, t));
            Facts(Rows(Step(w, db, c).value, t))
              == if sub.Some? && Fresh(facts, sub.value) then facts + [sub.value] else facts
  {
    match c
    case VerifyDelivery(req, dump, latency, env) =>
      FactsAppend(db.deliveries, Observation(DeliveryFact(w, req, dump), Some(latency), env.created));
    case ProbeObservation(probe, env) =>
      FactsAppend(db.probes, Observation(ProbeFact(w, probe), Some(probe.latency), env.created));
    case _ =>
  }

  ghost predicate FromCall(w: World, calls: seq<Call>, t: Table, f: Fact) {
    exists c :: c in calls && Submission(w, c, t) == Some(f) && !RaisesOn(w, c)
  }

  predicate RaisesOn(w: World, c: Call) {
    match c
    case VerifyDelivery(req, _, _, _) => Raises(w.lib, req.output)
    case ProbeObservation(probe, _) => Raises(w.lib, probe.output)
    case _ => false
  }

  lemma StepFromCall(w: World, db: Db, c: Call, t: Table, f: Fact)
    requires Step(w, db, c).Some? && f in Facts(Rows(Step(w, db, c).value, t)) && f !in Facts(Rows(db, t))
    ensures Submission(w, c, t) == Some(f) && !RaisesOn(w, c)
  {
    StepRows(w, db, c, t);
  }

  /** Every stored row was submitted by one of the calls. */
  lemma {:induction false} RowsFromCalls(w: World, calls: seq<Call>, t: Table)
    ensures forall f | f in Facts(Rows(Run(w, calls), t)) :: FromCall(w, calls, t, f)
  {
    if calls == [] {
    } else {
      var front, c := calls[..|calls| - 1], calls[|calls| - 1];
      RowsFromCalls(w, front, t);
      forall f | f in Facts(Rows(Run(w, calls), t))
        ensures FromCall(w, calls, t, f)
      {
        if f in Facts(Rows(Run(w, front), t)) {
          assert FromCall(w, front, t, f);
          var e :| e in front && Submission(w, e, t) == Some(f) && !RaisesOn(w, e);
          assert e in calls;
        } else {
          StepFromCall(w, Run(w, front), c, t, f);
          assert c in calls;
        }
      }
    }
  }

  /** Barring a collision, a second uniqueness constraint never rejects a row the first would accept. */
  lemma EvidenceNeverClashes(w: World, calls: seq<Call>, c: Call, t: Table)
    requires ValidCall(w, c) && ValidCalls(w, calls) && Submission(w, c, t).Some?
    ensures var facts, f := Facts(Rows(Run(w, calls), t)), Submission(w, c, t).value;
            EvidenceCollides(w, calls + [c], t) || (Fresh(facts, f) <==> !Seen(facts, f.subject))
  {
    var facts, f := Facts(Rows(Run(w, calls), t)), Submission(w, c, t).value;
    RowsFromCalls(w, calls, t);
    forall r | r in facts && r.subject != f.subject && r.evidence == f.evidence
      ensures EvidenceCollides(w, calls + [c], t)
    {
      assert FromCall(w, calls, t, r);
      var other :| other in calls && Submission(w, other, t) == Some(r);
      if MaterialOf(other, t) == MaterialOf(c, t) {
        MaterialBindsSubject(w, other, c, t);
      }
      assert Collision(w.hash, MaterialOf(other, t).value, MaterialOf(c, t).value);
      assert other in calls + [c] && c in calls + [c];
    }
  }

  lemma CollisionStays(w: World, calls: seq<Call>, n: nat, t: Table)
    requires n <= |calls| && EvidenceCollides(w, calls[..n], t)
    ensures EvidenceCollides(w, calls, t)
  {
    assert forall c | c in calls[..n] :: c in calls;
  }

  lemma FirstStep(w: World, calls: seq<Call>, c: Call, t: Table)
    requires ValidCall(w, c) && ValidCalls(w, calls) && Submission(w, c, t).Some? && Step(w, Run(w, calls), c).Some?
    requires Facts(Rows(Run(w, calls), t)) == FirstOf(Submitted(w, calls, t))
    ensures EvidenceCollides(w, calls + [c], t) ||
            Facts(Rows(Step(w, Run(w, calls), c).value, t))
            == FirstOf(Submitted(w, calls, t) + [Submission(w, c, t).value])
  {
    StepRows(w, Run(w, calls), c, t);
    EvidenceNeverClashes(w, calls, c, t);
    FirstOfAppend(Submitted(w, calls, t), Submission(w, c, t).value);
  }

  /** For any calls, each table holds exactly the first committed decisive submission of each id, or two evidence texts
      collide. */
  lemma {:induction false} FirstSubmissionCounts(w: World, calls: seq<Call>, t: Table)
    requires ValidCalls(w, calls)
    ensures EvidenceCollides(w, calls, t) || Facts(Rows(Run(w, calls), t)) == FirstOf(Submitted(w, calls, t))
  {
    if calls == [] {
    } else {
      var front, c := calls[..|calls| - 1], calls[|calls| - 1];
      assert c in calls && forall c | c in front :: c in calls;
      assert calls == front + [c];
      FirstSubmissionCounts(w, front, t);
      if EvidenceCollides(w, front, t) {
        CollisionStays(w, calls, |front|, t);
      } else if Step(w, Run(w, front), c).Some? {
        if Submission(w, c, t).Some? {
          FirstStep(w, front, c, t);
        } else {
          StepRows(w, Run(w, front), c, t);
        }
      }
    }
  }

  lemma FirstOfAppend(facts: seq<Fact>, f: Fact)
    ensures FirstOf(facts + [f]) == if Seen(FirstOf(facts), f.subject) then FirstOf(facts) else FirstOf(facts) + [f]
  {
    FirstOfSubjects(facts, f.subject);
    assert (facts + [f])[..|facts|] == facts;
  }

  /** So a seller's reputation is that of first submissions only. */
  lemma ReputationOfFirst(w: World, calls: seq<Call>, service: Text, task: Text)
    requires ValidCalls(w, calls)
    ensures EvidenceCollides(w, calls, Deliveries) ||
            Tally(Facts(Run(w, calls).deliveries), service, task)
            == Tally(FirstOf(Submitted(w, calls, Deliveries)), service, task)
    ensures EvidenceCollides(w, calls, Probes) ||
            ProbeTally(Facts(Run(w, calls).probes), service)
            == ProbeTally(FirstOf(Submitted(w, calls, Probes)), service)
  {
    FirstSubmissionCounts(w, calls, Deliveries);
    FirstSubmissionCounts(w, calls, Probes);
  }

  // ---------- what a passing row proves ----------

  /** A PASS row in the observations table was written by a delivery that passed every check. */
  lemma PassRowVerified(w: World, calls: seq<Call>, f: Fact)
    requires ValidCalls(w, calls) && f in Facts(Run(w, calls).deliveries) && f.outcome == PASS
    ensures exists c :: c in calls && c.VerifyDelivery? && !Raises(w.lib, c.req.output) && FullyVerified(w.lib, c.req)
                        && f == DeliveryFact(w, c.req, c.dump)
  {
    RowsFromCalls(w, calls, Deliveries);
    assert FromCall(w, calls, Deliveries, f);
    var c :| c in calls && Submission(w, c, Deliveries) == Some(f) && !RaisesOn(w, c);
    PassIsFullyVerified(w.lib, c.req);
  }

  /** A PASS row in the protocol table was written by a reply that echoed the canary exactly. */
  lemma PassProbeEchoed(w: World, calls: seq<Call>, f: Fact)
    requires ValidWorld(w) && ValidCalls(w, calls) && f in Facts(Run(w, calls).probes) && f.outcome == PASS
    ensures exists c :: c in calls && c.ProbeObservation? && CanaryConforms(c.probe.output, c.probe.nonce)
                        && !w.lib.manipulated(c.probe.output) && f == ProbeFact(w, c.probe)
  {
    RowsFromCalls(w, calls, Probes);
    assert FromCall(w, calls, Probes, f);
    var c :| c in calls && Submission(w, c, Probes) == Some(f) && !RaisesOn(w, c);
    CanaryDecided(w.lib, c.probe.output, c.probe.nonce);
  }
}
