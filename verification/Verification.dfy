/** The evidence checks and their aggregation into PASS, FAIL or INCONCLUSIVE. */
module Verification {
  import opened Texts
  import opened JsonTokens
  import opened Json
  import opened Pointer
  import opened Rounding

  datatype State = PASS | FAIL | INCONCLUSIVE

  /** `score` is absent where the check could not decide; reasons and evidence texts are left out. */
  datatype ProbeResult = ProbeResult(probe: Text, state: State, score: Option<real>)

  datatype Op = Exists | Eq | Ne | Contains | Gte | Lte

  datatype Assertion = Assertion(path: Text, op: Op, value: Json)

  datatype SchemaVerdict = MalformedSchema | Violated | Satisfied

  /** What the code takes from its libraries: Draft 2020-12 validation, Python's comparisons (a TypeError is false),
      the marker scan and `str.upper`. */
  datatype Libraries = Libraries(schema: (Json, Json) -> SchemaVerdict, compare: (Op, Json, Json) -> bool,
                                 manipulated: Json -> bool, upper: Text -> Text)

  // ---------- aggregation ----------

  function StateOf(probes: seq<ProbeResult>): State {
    if exists p :: p in probes && p.state == FAIL then FAIL
    else if exists p :: p in probes && p.state == INCONCLUSIVE then INCONCLUSIVE
    else PASS
  }

  function Scored(probes: seq<ProbeResult>): nat {
    if probes == [] then 0 else (if probes[0].score.Some? then 1 else 0) + Scored(probes[1..])
  }

  function Total(probes: seq<ProbeResult>): real {
    if probes == [] then 0.0 else (if probes[0].score.Some? then probes[0].score.value else 0.0) + Total(probes[1..])
  }

  function MeanScore(probes: seq<ProbeResult>): real {
    if Scored(probes) > 0 then Total(probes) / Scored(probes) as real else 0.0
  }

  function Coverage(probes: seq<ProbeResult>): real {
    if probes != [] then Scored(probes) as real / |probes| as real else 0.0
  }

  function Aggregate(probes: seq<ProbeResult>): (State, real, real) {
    var state, score, coverage := StateOf(probes), MeanScore(probes), Coverage(probes);
    var confidence :=
      if state == PASS then (if score < coverage then score else coverage)
      else if state == FAIL then coverage
      else coverage * 0.5;
    (state, Round4(score), Round4(confidence))
  }

  ghost predicate InUnit(probes: seq<ProbeResult>) {
    forall p | p in probes :: p.score.Some? ==> 0.0 <= p.score.value <= 1.0
  }

  lemma {:induction false} TotalBounds(probes: seq<ProbeResult>)
    requires InUnit(probes)
    ensures 0.0 <= Total(probes) <= Scored(probes) as real
    ensures Scored(probes) <= |probes|
  {
    if probes == [] {
    } else {
      assert probes[0] in probes;
      assert forall p | p in probes[1..] :: p in probes;
      TotalBounds(probes[1..]);
    }
  }

  lemma UnitQuotient(a: real, b: real)
    requires 0.0 <= a <= b && 0.0 < b
    ensures 0.0 <= a / b <= 1.0
  {
  }

  /** FAIL absorbs; PASS needs every check to pass; score and confidence stay in the unit interval. */
  lemma AggregateMeaning(probes: seq<ProbeResult>)
    requires InUnit(probes)
    ensures var (state, score, confidence) := Aggregate(probes);
            && (state == FAIL <==> exists p :: p in probes && p.state == FAIL)
            && (state == PASS <==> forall p | p in probes :: p.state == PASS)
            && 0.0 <= score <= 1.0 && 0.0 <= confidence <= 1.0
  {
    TotalBounds(probes);
    if Scored(probes) > 0 {
      UnitQuotient(Total(probes), Scored(probes) as real);
    }
    if probes != [] {
      UnitQuotient(Scored(probes) as real, |probes| as real);
    }
    var score, coverage := MeanScore(probes), Coverage(probes);
    Round4Unit(score);
    Round4Unit(coverage);
    Round4Unit(if score < coverage then score else coverage);
    Round4Unit(coverage * 0.5);
  }

  /** Confidence is never above what was scored: half of it while undecided, and no more than the score on a PASS. */
  lemma ConfidenceMeaning(probes: seq<ProbeResult>)
    requires InUnit(probes)
    ensures var (state, score, confidence) := Aggregate(probes);
            && confidence <= Round4(Coverage(probes))
            && (state == INCONCLUSIVE ==> confidence <= 0.5)
            && (state == PASS ==> confidence <= score)
            && (state == FAIL ==> confidence == Round4(Coverage(probes)))
  {
    TotalBounds(probes);
    if probes != [] {
      UnitQuotient(Scored(probes) as real, |probes| as real);
    }
    var score, coverage := MeanScore(probes), Coverage(probes);
    Round4Monotone(if score < coverage then score else coverage, coverage);
    Round4Monotone(if score < coverage then score else coverage, score);
    Round4Monotone(coverage * 0.5, coverage);
    Round4Monotone(coverage * 0.5, 0.5);
    assert (0.5 * 10000.0) == 5000.0;
  }

  function Repeated(x: real, n: nat): real {
    if n == 0 then 0.0 else x + Repeated(x, n - 1)
  }

  lemma {:induction false} RepeatedIsProduct(x: real, n: nat)
    ensures Repeated(x, n) == x * n as real
  {
    if n == 0 {
    } else {
      RepeatedIsProduct(x, n - 1);
      assert x * n as real == x * (n - 1) as real + x;
    }
  }

  lemma {:induction false} UniformTotal(probes: seq<ProbeResult>, x: real)
    requires forall p | p in probes :: p.score == Some(x)
    ensures Scored(probes) == |probes| && Total(probes) == Repeated(x, |probes|)
  {
    if probes == [] {
    } else {
      assert probes[0] in probes && forall p | p in probes[1..] :: p in probes;
      UniformTotal(probes[1..], x);
    }
  }

  /** Checks that agree on a score aggregate to it, with full confidence in what was checked. */
  lemma UniformScore(probes: seq<ProbeResult>, x: real)
    requires probes != [] && 0.0 <= x <= 1.0 && forall p | p in probes :: p.score == Some(x)
    ensures MeanScore(probes) == x && Coverage(probes) == 1.0
    ensures StateOf(probes) == PASS ==> Aggregate(probes) == (PASS, Round4(x), Round4(x))
  {
    UniformTotal(probes, x);
    RepeatedIsProduct(x, |probes|);
    DivEqual(Repeated(x, |probes|), |probes| as real, x);
    DivEqual(|probes| as real, |probes| as real, 1.0);
  }

  lemma MiddleElement<T>(b: seq<T>, k: nat)
    requires k < |b|
    ensures b == b[..k] + ([b[k]] + b[k + 1..])
    ensures multiset(b) == multiset(b[..k] + b[k + 1..]) + multiset{b[k]}
  {
    var front, back := b[..k], b[k + 1..];
    assert b == front + ([b[k]] + back);
    assert multiset([b[k]] + back) == multiset{b[k]} + multiset(back);
  }

  lemma CancelHead<T>(a: seq<T>, b: seq<T>, k: nat)
    requires multiset(a) == multiset(b) && a != [] && k < |b| && b[k] == a[0]
    ensures multiset(a[1..]) == multiset(b[..k] + b[k + 1..])
  {
    MiddleElement(a, 0);
    assert a[..0] + a[1..] == a[1..];
    MiddleElement(b, k);
    SameAfterRemoval(multiset(a[1..]), multiset(b[..k] + b[k + 1..]), a[0]);
  }

  lemma SameAfterRemoval<T>(a: multiset<T>, b: multiset<T>, x: T)
    requires a + multiset{x} == b + multiset{x}
    ensures a == b
  {
    assert a == a + multiset{x} - multiset{x} && b == b + multiset{x} - multiset{x};
  }

  lemma {:induction false} SumsIgnoreOrder(a: seq<ProbeResult>, b: seq<ProbeResult>)
    requires multiset(a) == multiset(b)
    ensures |a| == |b| && Scored(a) == Scored(b) && Total(a) == Total(b)
    decreases |a|
  {
    assert |a| == |multiset(a)| == |multiset(b)| == |b|;
    if a == [] {
    } else {
      assert a[0] in multiset(b);
      var k :| 0 <= k < |b| && b[k] == a[0];
      CancelHead(a, b, k);
      SumsIgnoreOrder(a[1..], b[..k] + b[k + 1..]);
      MiddleElement(b, k);
      SumsMove(b[..k], a[0], b[k + 1..]);
    }
  }

  lemma {:induction false} SumsMove(front: seq<ProbeResult>, p: ProbeResult, back: seq<ProbeResult>)
    ensures Scored(front + ([p] + back)) == Scored([p]) + Scored(front + back)
    ensures Total(front + ([p] + back)) == Total([p]) + Total(front + back)
  {
    if front == [] {
      assert front + ([p] + back) == [p] + back && front + back == back;
    } else {
      SumsMove(front[1..], p, back);
      assert (front + ([p] + back))[1..] == front[1..] + ([p] + back);
      assert (front + back)[1..] == front[1..] + back;
    }
  }

  /** The verdict, score and confidence do not depend on the order of the checks. */
  lemma AggregateIgnoresOrder(a: seq<ProbeResult>, b: seq<ProbeResult>)
    requires multiset(a) == multiset(b)
    ensures Aggregate(a) == Aggregate(b)
  {
    SumsIgnoreOrder(a, b);
    assert forall p :: p in a <==> p in multiset(a);
    assert forall p :: p in b <==> p in multiset(b);
  }

  // ---------- checks ----------

  function SchemaProbe(lib: Libraries, output: Json, schema: Option<Json>): ProbeResult {
    var name := Lit("schema");
    if schema.None? || schema.value == Obj([]) then ProbeResult(name, INCONCLUSIVE, None)
    else
      match lib.schema(output, schema.value)
      case MalformedSchema => ProbeResult(name, INCONCLUSIVE, None)
      case Violated => ProbeResult(name, FAIL, Some(0.0))
      case Satisfied => ProbeResult(name, PASS, Some(1.0))
  }

  function InjectionProbe(lib: Libraries, output: Json): ProbeResult {
    var name := Lit("prompt_manipulation");
    if lib.manipulated(output) then ProbeResult(name, FAIL, Some(0.0)) else ProbeResult(name, PASS, Some(1.0))
  }

  function CitationsProbe(): ProbeResult {
    ProbeResult(Lit("citations"), INCONCLUSIVE, None)
  }

  function Pow10(n: nat): (r: real)
    ensures r > 0.0
  {
    if n == 0 then 1.0 else 10.0 * Pow10(n - 1)
  }

  /** The size of a number; booleans count as 0 and 1, as Python's `isinstance(x, (int, float))` lets them. */
  function Size(v: Json): Option<real> {
    match v
    case Bool(b) => Some(if b then 1.0 else 0.0)
    case Num(Int(i)) => Some(i as real)
    case Num(Dec(neg, digits, point)) =>
      var scale, whole := point - |digits|, FromDigits(digits) as real;
      var size := if scale >= 0 then whole * Pow10(scale) else whole / Pow10(-scale);
      Some(if neg then -size else size)
    case _ => None
  }

  /** `str(output.get("verdict", output.get("state", ""))).upper()`, as far as it can equal one of the words below. */
  function Word(lib: Libraries, output: Json): Text {
    var verdict := if Get(output, Lit("verdict")).Some? then Get(output, Lit("verdict")) else Get(output, Lit("state"));
    match verdict
    case Some(Str(s)) => lib.upper(s)
    case _ => []
  }

  predicate Positive(word: Text) {
    word in [Lit("PASS"), Lit("APPROVE"), Lit("BUY"), Lit("SUCCESS")]
  }

  predicate Negative(word: Text) {
    word in [Lit("FAIL"), Lit("REJECT"), Lit("AVOID")]
  }

  /** A negative verdict of extreme certainty, whose reason the consistency check then looks up in a set. */
  predicate NeedsReason(lib: Libraries, output: Json) {
    match Get(output, Lit("confidence"))
    case None => false
    case Some(c) => Size(c).Some? && Size(c).value > 0.98 && Negative(Word(lib, output))
  }

  /** The look-up raises on an unhashable reason, a list or a dict. */
  predicate Raises(lib: Libraries, output: Json) {
    NeedsReason(lib, output) && Get(output, Lit("reason")).Some? &&
    (Get(output, Lit("reason")).value.Arr? || Get(output, Lit("reason")).value.Obj?)
  }

  predicate Contradicts(lib: Libraries, output: Json) {
    match Get(output, Lit("confidence"))
    case None => false
    case Some(c) =>
      || (Size(c).Some? && Size(c).value < 0.2 && Positive(Word(lib, output)))
      || (NeedsReason(lib, output) && Get(output, Lit("reason")) in [None, Some(Null), Some(Str([]))])
  }

  /** A certain refusal that gives an empty list as its reason, after other members. */
  function Certain(before: seq<Member>): Json {
    Obj(before + [Member(Lit("verdict"), Str(Lit("FAIL"))), Member(Lit("confidence"), Num(Int(1))),
                  Member(Lit("reason"), Arr([]))])
  }

  /** On that output the check raises, where a missing, null or empty reason would be a contradiction it reports. */
  lemma CertainRaises(lib: Libraries, before: seq<Member>)
    requires DistinctKeys(before) && lib.upper(Lit("FAIL")) == Lit("FAIL")
    requires forall k | k in [Lit("verdict"), Lit("confidence"), Lit("reason")] :: k !in Keys(before)
    ensures DistinctKeys(Certain(before).members) && Raises(lib, Certain(before)) && !Contradicts(lib, Certain(before))
  {
    var ms := Certain(before).members;
    CertainKeys(before);
    LookupMember(ms, ms[|before|]);
    LookupMember(ms, ms[|before| + 1]);
    LookupMember(ms, ms[|before| + 2]);
  }

  lemma CertainKeys(before: seq<Member>)
    requires DistinctKeys(before)
    requires forall k | k in [Lit("verdict"), Lit("confidence"), Lit("reason")] :: k !in Keys(before)
    ensures DistinctKeys(Certain(before).members)
  {
    assert |Lit("verdict")| == 7 && |Lit("confidence")| == 10 && |Lit("reason")| == 6;
    assert forall i | 0 <= i < |before| :: Keys(before)[i] == before[i].key;
    var last := [Lit("verdict"), Lit("confidence"), Lit("reason")];
    forall i | 0 <= i < |before|
      ensures before[i].key !in last
    {
      assert before[i].key in Keys(before);
    }
  }

  function ContradictionProbe(lib: Libraries, output: Json): ProbeResult {
    var name := Lit("self_consistency");
    if Contradicts(lib, output) then ProbeResult(name, FAIL, Some(0.0)) else ProbeResult(name, PASS, Some(1.0))
  }

  predicate Holds(lib: Libraries, output: Json, a: Assertion) {
    match Walk(output, Parts(a.path))
    case None => false
    case Some(actual) => a.op.Exists? || lib.compare(a.op, actual, a.value)
  }

  /** The failed assertions, in order. */
  function Failures(lib: Libraries, output: Json, assertions: seq<Assertion>): (r: seq<Assertion>)
    ensures |r| <= |assertions|
    ensures r == [] <==> forall a | a in assertions :: Holds(lib, output, a)
  {
    if assertions == [] then []
    else
      var last := assertions[|assertions| - 1];
      assert assertions == assertions[..|assertions| - 1] + [last];
      Failures(lib, output, assertions[..|assertions| - 1]) + if Holds(lib, output, last) then [] else [last]
  }

  function AssertionsResult(total: nat, failed: nat): ProbeResult
    requires failed <= total
  {
    var name := Lit("assertions");
    if total == 0 then ProbeResult(name, INCONCLUSIVE, None)
    else if failed > 0 then ProbeResult(name, FAIL, Some(1.0 - failed as real / total as real))
    else ProbeResult(name, PASS, Some(1.0))
  }

  function Held(lib: Libraries, output: Json, assertions: seq<Assertion>): nat {
    if assertions == [] then 0
    else
      var front, last := assertions[..|assertions| - 1], assertions[|assertions| - 1];
      Held(lib, output, front) + if Holds(lib, output, last) then 1 else 0
  }

  lemma {:induction false} HeldOrFailed(lib: Libraries, output: Json, assertions: seq<Assertion>)
    ensures Held(lib, output, assertions) + |Failures(lib, output, assertions)| == |assertions|
  {
    if assertions == [] {
    } else {
      HeldOrFailed(lib, output, assertions[..|assertions| - 1]);
    }
  }

  /** Undecided exactly without assertions, and PASS exactly when all of some hold. */
  lemma AssertionsMeaning(lib: Libraries, output: Json, assertions: seq<Assertion>)
    ensures var p := AssertionsResult(|assertions|, |Failures(lib, output, assertions)|);
            && (p.state == INCONCLUSIVE <==> assertions == [])
            && (p.state == PASS <==> assertions != [] && forall a | a in assertions :: Holds(lib, output, a))
  {
    assert Failures(lib, output, assertions) == [] <==> |Failures(lib, output, assertions)| == 0;
  }

  /** The score is the share of the assertions that hold. */
  lemma AssertionsShare(lib: Libraries, output: Json, assertions: seq<Assertion>)
    requires assertions != []
    ensures AssertionsResult(|assertions|, |Failures(lib, output, assertions)|).score
            == Some(Held(lib, output, assertions) as real / |assertions| as real)
  {
    HeldOrFailed(lib, output, assertions);
    ShareLeft(Held(lib, output, assertions), |Failures(lib, output, assertions)|, |assertions|);
  }

  lemma ShareLeft(held: nat, failed: nat, total: nat)
    requires held + failed == total && total > 0
    ensures 1.0 - failed as real / total as real == held as real / total as real
  {
    var x := failed as real / total as real;
    assert x * total as real == failed as real;
    DivEqual(held as real, total as real, 1.0 - x);
  }

  lemma FailuresStep(lib: Libraries, output: Json, assertions: seq<Assertion>, i: nat)
    requires i < |assertions|
    ensures Failures(lib, output, assertions[..i + 1]) ==
            Failures(lib, output, assertions[..i]) + if Holds(lib, output, assertions[i]) then [] else [assertions[i]]
  {
    assert assertions[..i + 1][..i] == assertions[..i];
  }

  /** The loop that collects failures, one resolved path at a time. */
  method AssertionsProbe(lib: Libraries, output: Json, assertions: seq<Assertion>) returns (result: ProbeResult)
    ensures result == AssertionsResult(|assertions|, |Failures(lib, output, assertions)|)
  {
    var failures: seq<Assertion> := [];
    var i := 0;
    while i < |assertions|
      invariant 0 <= i <= |assertions|
      invariant failures == Failures(lib, output, assertions[..i])
    {
      var a := assertions[i];
      var found := ResolvePath(output, a.path);
      var ok := found.Some? && (a.op.Exists? || lib.compare(a.op, found.value, a.value));
      FailuresStep(lib, output, assertions, i);
      if !ok {
        failures := failures + [a];
      }
      i := i + 1;
    }
    assert assertions[..i] == assertions;
    result := AssertionsResult(|assertions|, |failures|);
  }

  // ---------- the two handlers' check lists ----------

  datatype DeliveryRequest = DeliveryRequest(delivery: Text, provider: Text, task: Text, taskType: Text, output: Json,
                                             schema: Option<Json>, assertions: seq<Assertion>, citedUrls: seq<Text>,
                                             checks: seq<ProbeResult>)

  function AssertionsCheck(lib: Libraries, output: Json, assertions: seq<Assertion>): ProbeResult {
    AssertionsResult(|assertions|, |Failures(lib, output, assertions)|)
  }

  predicate HasCitationsCheck(checks: seq<ProbeResult>) {
    exists c :: c in checks && c.probe == Lit("citations")
  }

  function DeliveryProbes(lib: Libraries, req: DeliveryRequest): seq<ProbeResult> {
    [SchemaProbe(lib, req.output, req.schema), AssertionsCheck(lib, req.output, req.assertions),
     InjectionProbe(lib, req.output), ContradictionProbe(lib, req.output)]
    + req.checks
    + if req.citedUrls != [] && !HasCitationsCheck(req.checks) then [CitationsProbe()] else []
  }

  /** Everything a passing delivery was checked for. */
  predicate FullyVerified(lib: Libraries, req: DeliveryRequest) {
    && req.schema.Some? && req.schema.value != Obj([]) && lib.schema(req.output, req.schema.value) == Satisfied
    && req.assertions != [] && (forall a | a in req.assertions :: Holds(lib, req.output, a))
    && !lib.manipulated(req.output)
    && !Contradicts(lib, req.output)
    && (forall c | c in req.checks :: c.state == PASS)
    && (req.citedUrls != [] ==> HasCitationsCheck(req.checks))
  }

  ghost predicate AllPass(probes: seq<ProbeResult>) {
    forall p | p in probes :: p.state == PASS
  }

  lemma AppendProbes(a: seq<ProbeResult>, b: seq<ProbeResult>)
    ensures AllPass(a + b) <==> AllPass(a) && AllPass(b)
    ensures InUnit(a + b) <==> InUnit(a) && InUnit(b)
  {
    assert forall p :: p in a + b <==> p in a || p in b;
  }

  lemma PrependProbe(p: ProbeResult, probes: seq<ProbeResult>)
    ensures AllPass([p] + probes) <==> p.state == PASS && AllPass(probes)
    ensures InUnit([p] + probes) <==> (p.score.Some? ==> 0.0 <= p.score.value <= 1.0) && InUnit(probes)
  {
    AppendProbes([p], probes);
    assert p in [p];
  }

  lemma FourProbes(a: ProbeResult, b: ProbeResult, c: ProbeResult, d: ProbeResult)
    ensures AllPass([a, b, c, d]) <==> a.state == PASS && b.state == PASS && c.state == PASS && d.state == PASS
    ensures InUnit([a]) && InUnit([b]) && InUnit([c]) && InUnit([d]) ==> InUnit([a, b, c, d])
  {
    assert [a, b, c, d] == [a] + ([b] + ([c] + [d]));
    PrependProbe(a, [b] + ([c] + [d]));
    PrependProbe(b, [c] + [d]);
    PrependProbe(c, [d]);
    assert [d] == [d] + [];
    PrependProbe(d, []);
  }

  /** A delivery passes exactly when every one of its checks was made and passed. */
  lemma PassIsFullyVerified(lib: Libraries, req: DeliveryRequest)
    requires InUnit(req.checks)
    ensures StateOf(DeliveryProbes(lib, req)) == PASS <==> FullyVerified(lib, req)
    ensures InUnit(DeliveryProbes(lib, req))
  {
    var s, a := SchemaProbe(lib, req.output, req.schema), AssertionsCheck(lib, req.output, req.assertions);
    var i, c := InjectionProbe(lib, req.output), ContradictionProbe(lib, req.output);
    var tail := if req.citedUrls != [] && !HasCitationsCheck(req.checks) then [CitationsProbe()] else [];
    AssertionsScore(|req.assertions|, |Failures(lib, req.output, req.assertions)|);
    FourProbes(s, a, i, c);
    AppendProbes([s, a, i, c], req.checks);
    AppendProbes([s, a, i, c] + req.checks, tail);
    assert AllPass(tail) <==> tail == [] by {
      assert tail != [] ==> tail[0] in tail;
    }
    AggregateMeaning(DeliveryProbes(lib, req));
  }

  lemma AssertionsScore(total: nat, failed: nat)
    requires failed <= total
    ensures var s := AssertionsResult(total, failed).score; s.Some? ==> 0.0 <= s.value <= 1.0
  {
    if total > 0 {
      UnitQuotient(failed as real, total as real);
    }
  }

  const PROBE_ID := Lit("counterparty_probe_id")
  const ACK := Lit("ack")

  /** The server-owned canary contract: an object echoing the nonce, with `ack` true. */
  predicate CanaryConforms(output: Json, nonce: Text) {
    output.Obj? && Get(output, PROBE_ID) == Some(Str(nonce)) && Get(output, ACK) == Some(Bool(true))
  }

  function CanaryAssertions(nonce: Text): seq<Assertion> {
    [Assertion([SLASH] + PROBE_ID, Eq, Str(nonce)), Assertion([SLASH] + ACK, Eq, Bool(true))]
  }

  function CanaryProbes(lib: Libraries, output: Json, nonce: Text): seq<ProbeResult> {
    [if CanaryConforms(output, nonce) then ProbeResult(Lit("schema"), PASS, Some(1.0))
     else ProbeResult(Lit("schema"), FAIL, Some(0.0)),
     AssertionsCheck(lib, output, CanaryAssertions(nonce)), InjectionProbe(lib, output),
     ContradictionProbe(lib, output)]
  }

  /** The handler turns an undecided canary into FAIL. */
  function CanaryState(lib: Libraries, output: Json, nonce: Text): State {
    var state := StateOf(CanaryProbes(lib, output, nonce));
    if state == INCONCLUSIVE then FAIL else state
  }

  lemma CanaryAssertionsDecided(lib: Libraries, output: Json, nonce: Text)
    requires lib.compare(Eq, Str(nonce), Str(nonce)) && lib.compare(Eq, Bool(true), Bool(true))
    ensures var p := AssertionsCheck(lib, output, CanaryAssertions(nonce));
            p.state != INCONCLUSIVE && (CanaryConforms(output, nonce) ==> p.state == PASS)
  {
    var assertions := CanaryAssertions(nonce);
    if CanaryConforms(output, nonce) {
      CanaryPath(PROBE_ID);
      CanaryPath(ACK);
      WalkOne(output, PROBE_ID);
      WalkOne(output, ACK);
      assert forall a | a in assertions :: a == assertions[0] || a == assertions[1];
      assert Failures(lib, output, assertions) == [];
    }
  }

  /** A canary is always decided, so that fallback never applies; it passes exactly on the echoed contract, provided
      `==` holds between a string or boolean and itself. */
  lemma CanaryDecided(lib: Libraries, output: Json, nonce: Text)
    requires lib.compare(Eq, Str(nonce), Str(nonce)) && lib.compare(Eq, Bool(true), Bool(true))
    ensures StateOf(CanaryProbes(lib, output, nonce)) != INCONCLUSIVE
    ensures CanaryState(lib, output, nonce) == PASS <==>
            CanaryConforms(output, nonce) && !lib.manipulated(output) && !Contradicts(lib, output)
  {
    var probes := CanaryProbes(lib, output, nonce);
    CanaryAssertionsDecided(lib, output, nonce);
    FourProbes(probes[0], probes[1], probes[2], probes[3]);
    assert AllPass(probes) || exists p :: p in probes && p.state == FAIL;
  }

  lemma LitPlain(s: string)
    requires forall c | c in s :: c != '/' && c != '~' && c as int < 0x1_0000
    ensures forall u | u in Lit(s) :: u != SLASH && u != TILDE
  {
    forall u | u in Lit(s)
      ensures u != SLASH && u != TILDE
    {
      var i :| 0 <= i < |s| && Lit(s)[i] == u;
      assert s[i] in s;
      assert s[i] != '/' && s[i] != '~';
      assert (s[i] as int) as char == s[i] && (47 as char) == '/' && (126 as char) == '~';
    }
  }

  lemma CanaryPath(key: Text)
    requires key == PROBE_ID || key == ACK
    ensures Parts([SLASH] + key) == [key]
  {
    LitPlain("counterparty_probe_id");
    LitPlain("ack");
    PlainEscape(key);
    assert Encode([key]) == [SLASH] + Escaped(key) + Encode([]);
    assert [SLASH] + key + [] == [SLASH] + key;
    PartsOfEncoding([key]);
  }

  lemma {:induction false} PlainEscape(t: Text)
    requires forall u | u in t :: u != SLASH && u != TILDE
    ensures Escaped(t) == t
  {
    if t == [] {
    } else {
      assert t[0] in t && forall u | u in t[1..] :: u in t;
      PlainEscape(t[1..]);
      assert t == [t[0]] + t[1..];
    }
  }

  lemma WalkOne(doc: Json, key: Text)
    requires doc.Obj?
    ensures Walk(doc, [key]) == Get(doc, key)
  {
  }
}
