/** The Router and the Probe: two small machines that answer each turn input with one decision. */
module Drivers {
  import opened Texts
  import opened JsonTokens
  import opened Json
  import opened Services
  import opened Grants
  import opened Verification
  import opened SharedNet

  datatype Tool = ServiceTool(service: Service) | RecordProbeTool | MessageTool | EscalateTool

  datatype TurnInput = Opening | ToolResult(succeeded: bool, output: Option<Json>)

  datatype Decision =
    | Ask(recipient: Address, payload: seq<Member>)
    | RecordProbe(probeId: Text, provider: Text, nonce: Text, output: Json, latency: int)
    | CallService(service: Service, input: Json)
    | Escalate(service: Service)
    | Complete(answer: Option<Json>)

  predicate IsCall(d: Decision) {
    d.Ask? || d.RecordProbe? || d.CallService?
  }

  function AsObject(v: Option<Json>): Option<Json> {
    if v.Some? && v.value.Obj? then v else None
  }

  /** `asObject(x)?.key`. */
  function FieldOf(v: Option<Json>, key: Text): Option<Json> {
    if v.Some? then Get(v.value, key) else None
  }

  function TextOf(v: Option<Json>): Option<Text> {
    match v
    case Some(Str(s)) => Some(s)
    case _ => None
  }

  /** A number with no fraction. */
  function WholeNumber(v: Option<Json>): Option<int> {
    match v
    case Some(Num(n)) =>
      var size := Size(Num(n));
      if size.Some? && (size.value.Floor as real) == size.value then Some(size.value.Floor) else None
    case _ => None
  }

  /** The reasons are shortened to codes. */
  function Undecided(reason: Text): Json {
    Obj([Member(Lit("state"), Str(Lit("INCONCLUSIVE"))), Member(Lit("reason"), Str(reason))])
  }

  // ---------- Router ----------

  /** What `open` captures. */
  datatype RouterSetup = RouterSetup(service: Option<Service>, input: Option<Json>, tools: set<Tool>, probeId: Text,
                                     nonce: Text)

  function OpenRouter(payload: Json, tools: set<Tool>, probeId: Text, nonce: Text): RouterSetup {
    var name := TextOf(FieldOf(AsObject(Some(payload)), Lit("service")));
    RouterSetup(if name.Some? then ServiceNamed(name.value) else None,
                AsObject(FieldOf(AsObject(Some(payload)), Lit("input"))), tools, probeId, nonce)
  }

  datatype Phase = Start | AwaitProbe | AwaitRecord | AwaitService

  datatype RouterState = RouterState(phase: Phase, probed: Option<Json>)

  function ServiceId(r: RouterSetup): Option<Text> {
    TextOf(FieldOf(r.input, Lit("service_id")))
  }

  predicate CanProbe(r: RouterSetup) {
    && r.service == Some(TrustSnapshot) && ServiceId(r).Some? && 0 < |ServiceId(r).value| <= 200
    && MessageTool in r.tools && RecordProbeTool in r.tools
  }

  /** An inherited name has no tool of that name, so its tool is never available. */
  predicate ToolAvailable(r: RouterSetup) {
    r.service.Some? && !r.service.value.Inherited? && ServiceTool(r.service.value) in r.tools
  }

  function CanaryRequest(r: RouterSetup, seat: Text): seq<Member> {
    [Member(Lit("operation"), Str(Lit("trust_canary"))),
     Member(Lit("target"), Obj([Member(Lit("kind"), Str(Lit("service"))), Member(Lit("serviceId"), Str(seat))])),
     Member(Lit("probe_id"), Str(r.probeId)), Member(Lit("nonce"), Str(r.nonce))]
  }

  /** The observation echoes the host's own envelope. */
  predicate Echoes(r: RouterSetup, observed: Option<Json>) {
    && FieldOf(observed, Lit("state")) == Some(Str(Lit("OBSERVED")))
    && FieldOf(observed, Lit("probe_id")) == Some(Str(r.probeId))
    && ServiceId(r).Some? && FieldOf(observed, Lit("provider_id")) == Some(Str(ServiceId(r).value))
    && FieldOf(observed, Lit("nonce")) == Some(Str(r.nonce))
    && AsObject(FieldOf(observed, Lit("output"))).Some?
    && WholeNumber(FieldOf(observed, Lit("latency_ms"))).Some?
    && WholeNumber(FieldOf(observed, Lit("latency_ms"))).value >= 0
  }

  function Capped(latency: int): int {
    if latency < 300000 then latency else 300000
  }

  function CallOwnService(r: RouterSetup): Decision
    requires r.service.Some? && r.input.Some?
  {
    CallService(r.service.value, r.input.value)
  }

  function StartNext(r: RouterSetup, s: RouterState): (RouterState, Decision) {
    if r.service.None? || r.input.None? then (s, Complete(Some(Undecided(Lit("malformed")))))
    else if !ToolAvailable(r) then
      if EscalateTool in r.tools then (s, Escalate(r.service.value))
      else (s, Complete(Some(Undecided(Lit("unavailable")))))
    else if CanProbe(r) then (s.(phase := AwaitProbe), Ask(PROBE, CanaryRequest(r, ServiceId(r).value)))
    else if r.service == Some(TrustSnapshot) then
      (RouterState(AwaitService, Some(Undecided(Lit("unauthorized")))), CallOwnService(r))
    else (s.(phase := AwaitService), CallOwnService(r))
  }

  function AfterProbe(r: RouterSetup, s: RouterState, succeeded: bool, output: Option<Json>): (RouterState, Decision)
    requires r.service.Some? && r.input.Some?
  {
    var observed := AsObject(output);
    if succeeded && Echoes(r, observed) then
      (s.(phase := AwaitRecord),
       RecordProbe(r.probeId, ServiceId(r).value, r.nonce, FieldOf(observed, Lit("output")).value,
                   Capped(WholeNumber(FieldOf(observed, Lit("latency_ms"))).value)))
    else
      var reason := if succeeded then Lit("mismatch")
                    else Lit("no observation");
      (RouterState(AwaitService, Some(Undecided(reason))), CallOwnService(r))
  }

  function AfterRecord(r: RouterSetup, succeeded: bool, output: Option<Json>): (RouterState, Decision)
    requires r.service.Some? && r.input.Some?
  {
    var probed :=
      if !succeeded then Undecided(Lit("not persisted"))
      else if AsObject(output).Some? then output.value
      else Obj([Member(Lit("state"), Str(Lit("INCONCLUSIVE")))]);
    (RouterState(AwaitService, Some(probed)), CallOwnService(r))
  }

  const FALLBACK := Obj([Member(Lit("state"), Str(Lit("INCONCLUSIVE")))])

  function AfterService(r: RouterSetup, probed: Option<Json>, succeeded: bool, output: Option<Json>): Decision {
    if !succeeded then Complete(Some(Undecided(Lit("failed"))))
    else if r.service == Some(TrustSnapshot) && AsObject(output).Some? then
      var probe := if probed.Some? then probed.value else FALLBACK;
      Complete(Some(Obj(SetKey(output.value.members, Lit("fresh_probe"), probe))))
    else Complete(output)
  }

  /** Past the start a request has been read. */
  predicate Opened(r: RouterSetup, s: RouterState) {
    s.phase.Start? || (r.service.Some? && r.input.Some?)
  }

  function RouterNext(r: RouterSetup, s: RouterState, input: TurnInput): (RouterState, Decision)
    requires Opened(r, s)
  {
    if s.phase.Start? then StartNext(r, s)
    else
      match input
      case Opening => (s, Complete(Some(Undecided(Lit("no result")))))
      case ToolResult(succeeded, output) =>
        match s.phase
        case AwaitProbe => AfterProbe(r, s, succeeded, output)
        case AwaitRecord => AfterRecord(r, succeeded, output)
        case _ => (s, AfterService(r, s.probed, succeeded, output))
  }

  class RouterDriver {
    const setup: RouterSetup
    var phase: Phase
    var freshProbe: Option<Json>

    constructor (payload: Json, tools: set<Tool>, probeId: Text, nonce: Text)
      ensures setup == OpenRouter(payload, tools, probeId, nonce)
      ensures Valid() && State() == RouterState(Start, None)
    {
      setup := OpenRouter(payload, tools, probeId, nonce);
      phase, freshProbe := Start, None;
    }

    function State(): RouterState
      reads this
    {
      RouterState(phase, freshProbe)
    }

    predicate Valid()
      reads this
    {
      Opened(setup, State())
    }

    method ServiceCall() returns (d: Decision)
      requires setup.service.Some? && setup.input.Some?
      modifies this`phase
      ensures phase == AwaitService && d == CallOwnService(setup)
    {
      phase := AwaitService;
      d := CallService(setup.service.value, setup.input.value);
    }

    method NextAtStart() returns (d: Decision)
      requires Valid() && phase == Start
      modifies this
      ensures Valid() && (State(), d) == StartNext(setup, old(State()))
    {
      if setup.service.None? || setup.input.None? {
        return Complete(Some(Undecided(Lit("malformed"))));
      }
      if !ToolAvailable(setup) {
        if EscalateTool in setup.tools {
          return Escalate(setup.service.value);
        }
        return Complete(Some(Undecided(Lit("unavailable"))));
      }
      if CanProbe(setup) {
        phase := AwaitProbe;
        return Ask(PROBE, CanaryRequest(setup, ServiceId(setup).value));
      }
      if setup.service == Some(TrustSnapshot) {
        freshProbe := Some(Undecided(Lit("unauthorized")));
      }
      d := ServiceCall();
    }

    method NextAfterProbe(succeeded: bool, output: Option<Json>) returns (d: Decision)
      requires Valid() && phase == AwaitProbe
      modifies this
      ensures Valid() && (State(), d) == AfterProbe(setup, old(State()), succeeded, output)
    {
      if succeeded {
        var observed := AsObject(output);
        if Echoes(setup, observed) {
          phase := AwaitRecord;
          return RecordProbe(setup.probeId, ServiceId(setup).value, setup.nonce, FieldOf(observed, Lit("output")).value,
                             Capped(WholeNumber(FieldOf(observed, Lit("latency_ms"))).value));
        }
        freshProbe := Some(Undecided(Lit("mismatch")));
      } else {
        freshProbe := Some(Undecided(Lit("no observation")));
      }
      d := ServiceCall();
    }

    method Next(input: TurnInput) returns (d: Decision)
      requires Valid()
      modifies this
      ensures Valid() && (State(), d) == RouterNext(setup, old(State()), input)
    {
      if phase == Start {
        d := NextAtStart();
        return;
      }
      if input.Opening? {
        return Complete(Some(Undecided(Lit("no result"))));
      }
      if phase == AwaitProbe {
        d := NextAfterProbe(input.succeeded, input.output);
        return;
      }
      if phase == AwaitRecord {
        freshProbe := Some(
          if !input.succeeded then Undecided(Lit("not persisted"))
          else if AsObject(input.output).Some? then input.output.value
          else FALLBACK);
        d := ServiceCall();
        return;
      }
      d := AfterService(setup, freshProbe, input.succeeded, input.output);
    }
  }

  // ---------- whole Router turns ----------

  /** How many calls the Router can still make. */
  function Rank(p: Phase): nat {
    match p
    case Start => 3
    case AwaitProbe => 2
    case AwaitRecord => 1
    case AwaitService => 0
  }

  /** A turn under any inputs: it goes on while the decision is a call. */
  function RouterTurn(r: RouterSetup, s: RouterState, inputs: seq<TurnInput>): seq<Decision>
    requires Opened(r, s)
    decreases |inputs|
  {
    if inputs == [] then []
    else
      var (next, d) := RouterNext(r, s, inputs[0]);
      [d] + if IsCall(d) then RouterTurn(r, next, inputs[1..]) else []
  }

  function CallsIn(ds: seq<Decision>): nat {
    if ds == [] then 0 else (if IsCall(ds[0]) then 1 else 0) + CallsIn(ds[1..])
  }

  /** At the service call of a trust snapshot the fresh probe is always set. */
  predicate ProbeSet(r: RouterSetup, s: RouterState) {
    s.phase.AwaitService? && r.service == Some(TrustSnapshot) ==> s.probed.Some?
  }

  /** A recorded probe carries the turn's own ids, and answers a successful Probe result that echoes them. */
  predicate RecordsOwn(r: RouterSetup, d: Decision, input: TurnInput) {
    d.RecordProbe? ==>
      && CanProbe(r) && d.probeId == r.probeId && d.nonce == r.nonce && d.provider == ServiceId(r).value
      && input.ToolResult? && input.succeeded && Echoes(r, AsObject(input.output))
      && FieldOf(input.output, Lit("output")) == Some(d.output) && d.output.Obj?
      && 0 <= d.latency <= 300000
  }

  /** `await_probe` is entered only by asking the Probe. */
  predicate Asked(r: RouterSetup, s: RouterState) {
    s.phase.AwaitProbe? ==> CanProbe(r)
  }

  /** What one step keeps: calls lower the rank, only own observations are recorded, and the probe is set on every path.
      */
  ghost predicate StepKeeps(r: RouterSetup, s: RouterState, input: TurnInput, next: RouterState, d: Decision) {
    && (IsCall(d) ==> Rank(next.phase) < Rank(s.phase))
    && (Asked(r, s) ==> RecordsOwn(r, d, input) && Asked(r, next))
    && (ProbeSet(r, s) ==> ProbeSet(r, next))
  }

  lemma StartKeeps(r: RouterSetup, s: RouterState, input: TurnInput)
    requires s.phase.Start?
    ensures var (next, d) := StartNext(r, s); StepKeeps(r, s, input, next, d)
  {
  }

  lemma ProbeKeeps(r: RouterSetup, s: RouterState, succeeded: bool, output: Option<Json>)
    requires s.phase.AwaitProbe? && r.service.Some? && r.input.Some?
    ensures var (next, d) := AfterProbe(r, s, succeeded, output);
            StepKeeps(r, s, ToolResult(succeeded, output), next, d)
  {
  }

  lemma RecordKeeps(r: RouterSetup, s: RouterState, succeeded: bool, output: Option<Json>)
    requires s.phase.AwaitRecord? && r.service.Some? && r.input.Some?
    ensures var (next, d) := AfterRecord(r, succeeded, output); StepKeeps(r, s, ToolResult(succeeded, output), next, d)
  {
  }

  lemma RouterKeeps(r: RouterSetup, s: RouterState, input: TurnInput)
    requires Opened(r, s)
    ensures var (next, d) := RouterNext(r, s, input); StepKeeps(r, s, input, next, d)
  {
    if s.phase.Start? {
      StartKeeps(r, s, input);
    } else if input.ToolResult? {
      if s.phase.AwaitProbe? {
        ProbeKeeps(r, s, input.succeeded, input.output);
      } else if s.phase.AwaitRecord? {
        RecordKeeps(r, s, input.succeeded, input.output);
      }
    }
  }

  /** Every call lowers the rank, so a turn makes at most three calls and four decisions, and with four inputs it ends.
      */
  lemma {:induction false} RouterTurnBounded(r: RouterSetup, s: RouterState, inputs: seq<TurnInput>)
    requires Opened(r, s)
    ensures var ds := RouterTurn(r, s, inputs);
            && CallsIn(ds) <= Rank(s.phase) && |ds| <= Rank(s.phase) + 1
            && (|inputs| > Rank(s.phase) ==> ds != [] && !IsCall(ds[|ds| - 1]))
    decreases |inputs|
  {
    if inputs == [] {
    } else {
      var (next, d) := RouterNext(r, s, inputs[0]);
      RouterKeeps(r, s, inputs[0]);
      if IsCall(d) {
        RouterTurnBounded(r, next, inputs[1..]);
        Uncons(d, RouterTurn(r, next, inputs[1..]));
      }
    }
  }

  function RouterAfter(r: RouterSetup, s: RouterState, inputs: seq<TurnInput>): (t: RouterState)
    requires Opened(r, s)
    ensures Opened(r, t)
    decreases |inputs|
  {
    if inputs == [] then s else RouterAfter(r, RouterNext(r, s, inputs[0]).0, inputs[1..])
  }

  /** So the fallback of the final answer is never used, whatever the inputs. */
  lemma {:induction false} FallbackDead(r: RouterSetup, s: RouterState, inputs: seq<TurnInput>)
    requires Opened(r, s) && ProbeSet(r, s)
    ensures ProbeSet(r, RouterAfter(r, s, inputs))
    decreases |inputs|
  {
    if inputs == [] {
    } else {
      RouterKeeps(r, s, inputs[0]);
      FallbackDead(r, RouterNext(r, s, inputs[0]).0, inputs[1..]);
    }
  }

  lemma {:induction false} RecordsOnlyOwn(r: RouterSetup, s: RouterState, inputs: seq<TurnInput>)
    requires Opened(r, s) && Asked(r, s)
    ensures |RouterTurn(r, s, inputs)| <= |inputs|
    ensures forall i | 0 <= i < |RouterTurn(r, s, inputs)| :: RecordsOwn(r, RouterTurn(r, s, inputs)[i], inputs[i])
    decreases |inputs|
  {
    if inputs == [] {
    } else {
      var (next, d) := RouterNext(r, s, inputs[0]);
      RouterKeeps(r, s, inputs[0]);
      if IsCall(d) {
        RecordsOnlyOwn(r, next, inputs[1..]);
        var rest := RouterTurn(r, next, inputs[1..]);
        assert RouterTurn(r, s, inputs) == [d] + rest;
        forall i | 0 <= i < |rest| + 1
          ensures RecordsOwn(r, ([d] + rest)[i], inputs[i])
        {
          if i > 0 {
            assert RecordsOwn(r, rest[i - 1], inputs[1..][i - 1]);
          }
        }
      }
    }
  }

  /** A trust snapshot that goes well asks the Probe, records what it observed, calls the service and answers with the
      service's output and the recorded probe. */
  lemma SnapshotTurn(r: RouterSetup, first: TurnInput, observed: Json, recorded: Json, answer: Json)
    requires CanProbe(r) && ToolAvailable(r) && r.input.Some?
    requires Echoes(r, Some(observed)) && observed.Obj? && recorded.Obj? && answer.Obj?
    ensures var inputs := [first, ToolResult(true, Some(observed)), ToolResult(true, Some(recorded)),
                           ToolResult(true, Some(answer))];
            RouterTurn(r, RouterState(Start, None), inputs) ==
              [Ask(PROBE, CanaryRequest(r, ServiceId(r).value)),
               RecordProbe(r.probeId, ServiceId(r).value, r.nonce, FieldOf(Some(observed), Lit("output")).value,
                           Capped(WholeNumber(FieldOf(Some(observed), Lit("latency_ms"))).value)),
               CallService(TrustSnapshot, r.input.value),
               Complete(Some(Obj(SetKey(answer.members, Lit("fresh_probe"), recorded))))]
  {
    var a, b, c, d := first, ToolResult(true, Some(observed)), ToolResult(true, Some(recorded)),
        ToolResult(true, Some(answer));
    var start, probing, recording, calling :=
      RouterState(Start, None), RouterState(AwaitProbe, None), RouterState(AwaitRecord, None),
      RouterState(AwaitService, Some(recorded));
    OneMore(r, calling, d, []);
    OneMore(r, recording, c, [d]);
    OneMore(r, probing, b, [c, d]);
    OneMore(r, start, a, [b, c, d]);
    assert [a] + [b, c, d] == [a, b, c, d] && [b] + [c, d] == [b, c, d] && [c] + [d] == [c, d] && [d] + [] == [d];
  }

  lemma OneMore(r: RouterSetup, s: RouterState, input: TurnInput, inputs: seq<TurnInput>)
    requires Opened(r, s)
    ensures var (next, d) := RouterNext(r, s, input);
            RouterTurn(r, s, [input] + inputs) == [d] + if IsCall(d) then RouterTurn(r, next, inputs) else []
  {
    Uncons(input, inputs);
  }

  /** White space at both ends that the backend's models strip: the Unicode White_Space characters of the basic plane.
      */
  predicate Stripped(u: Unit) {
    u in [9, 10, 11, 12, 13, 0x20, 0x85, 0xA0, 0x1680, 0x2028, 0x2029, 0x202F, 0x205F, 0x3000] || 0x2000 <= u <= 0x200A
  }

  function StripStart(t: Text): (r: Text)
    ensures |r| <= |t|
  {
    if t != [] && Stripped(t[0]) then StripStart(t[1..]) else t
  }

  function Strip(t: Text): (r: Text)
    ensures |r| <= |t|
    decreases |t|
  {
    if t != [] && Stripped(t[|t| - 1]) then Strip(t[..|t| - 1]) else StripStart(t)
  }

  /** The length of Python's `repr` of a value. */
  type Rendered = Json -> nat

  const MAX_OUTPUT_CHARS := 120000

  /** The bounds of the backend's `ProbeObservationRequest`, its validator of the output included. */
  predicate WithinBounds(rendered: Rendered, probeId: Text, provider: Text, nonce: Text, latency: int, output: Json) {
    && 1 <= |Strip(probeId)| <= 200 && 1 <= |Strip(provider)| <= 200 && 8 <= |Strip(nonce)| <= 200
    && 0 <= latency <= 300000
    && rendered(output) <= MAX_OUTPUT_CHARS
  }

  /** A `crypto.randomUUID()`, as far as it matters: 36 characters, none of them white space. */
  predicate Uuid(t: Text) {
    |t| == 36 && forall u | u in t :: !Stripped(u)
  }

  lemma {:induction false} StripKeeps(t: Text)
    ensures Strip(t) == [] <==> forall u | u in t :: Stripped(u)
    ensures (forall u | u in t :: !Stripped(u)) ==> Strip(t) == t
    decreases |t|
  {
    if t != [] && Stripped(t[|t| - 1]) {
      assert t == t[..|t| - 1] + [t[|t| - 1]];
      StripKeeps(t[..|t| - 1]);
    } else {
      StripStartKeeps(t);
    }
  }

  lemma {:induction false} StripStartKeeps(t: Text)
    ensures StripStart(t) == [] <==> forall u | u in t :: Stripped(u)
    ensures (forall u | u in t :: !Stripped(u)) ==> StripStart(t) == t
  {
    if t == [] || !Stripped(t[0]) {
    } else {
      assert t == [t[0]] + t[1..];
      StripStartKeeps(t[1..]);
    }
  }

  /** Every recorded probe meets the backend's bounds exactly when the seller's id is not all white space and the
      observed output is short enough once rendered. */
  lemma RecordMeetsBounds(rendered: Rendered, r: RouterSetup, d: Decision, input: TurnInput)
    requires Uuid(r.probeId) && Uuid(r.nonce) && d.RecordProbe? && RecordsOwn(r, d, input)
    ensures WithinBounds(rendered, d.probeId, d.provider, d.nonce, d.latency, d.output)
            <==> (exists u :: u in d.provider && !Stripped(u)) && rendered(d.output) <= MAX_OUTPUT_CHARS
  {
    StripKeeps(d.probeId);
    StripKeeps(d.provider);
    StripKeeps(d.nonce);
  }

  // ---------- Probe ----------

  datatype ProbeSetup = ProbeSetup(operation: Option<Json>, seat: Option<Text>, probeId: Option<Text>,
                                   nonce: Option<Text>,
                                   messages: bool, started: int)

  function OpenProbe(payload: Json, tools: set<Tool>, started: int): ProbeSetup {
    var p := AsObject(Some(payload));
    var target := AsObject(FieldOf(p, Lit("target")));
    var service := FieldOf(target, Lit("kind")) == Some(Str(Lit("service")));
    ProbeSetup(FieldOf(p, Lit("operation")), if service then TextOf(FieldOf(target, Lit("serviceId"))) else None,
               TextOf(FieldOf(p, Lit("probe_id"))), TextOf(FieldOf(p, Lit("nonce"))), MessageTool in tools, started)
  }

  predicate Asks(p: ProbeSetup) {
    && p.operation == Some(Str(Lit("trust_canary"))) && p.seat.Some? && p.probeId.Some?
    && p.nonce.Some? && |p.nonce.value| >= 8 && p.messages
  }

  /** The instruction's wording is shortened. */
  function CanaryMessage(nonce: Text): seq<Member> {
    [Member(Lit("type"), Str(Lit("counterparty.capability-canary.v1"))),
     Member(Lit("instruction"), Str(Lit("acknowledge"))),
     Member(PROBE_ID, Str(nonce)),
     Member(Lit("expected_response"), Obj([Member(PROBE_ID, Str(nonce)), Member(ACK, Bool(true))]))]
  }

  function TextOr(t: Option<Text>): Text {
    if t.Some? then t.value else []
  }

  /** An absent output leaves its member out. */
  function Observation(p: ProbeSetup, output: Option<Json>, latency: int): seq<Member> {
    [Member(Lit("state"), Str(Lit("OBSERVED"))), Member(Lit("probe_id"), Str(TextOr(p.probeId))),
     Member(Lit("provider_id"), Str(TextOr(p.seat))), Member(Lit("nonce"), Str(TextOr(p.nonce)))]
    + (if output.Some? then [Member(Lit("output"), output.value)] else [])
    + [Member(Lit("latency_ms"), Num(Int(latency)))]
  }

  function Elapsed(p: ProbeSetup, now: int): int {
    if Capped(now - p.started) < 0 then 0 else Capped(now - p.started)
  }

  function ProbeNext(p: ProbeSetup, called: bool, input: TurnInput, now: int): Decision {
    if !called then
      if Asks(p) then Ask(Seller(p.seat.value), CanaryMessage(p.nonce.value))
      else Complete(Some(Undecided(Lit("malformed"))))
    else
      match input
      case ToolResult(true, output) => Complete(Some(Obj(Observation(p, output, Elapsed(p, now)))))
      case _ => Complete(Some(Undecided(Lit("no reply"))))
  }

  class ProbeDriver {
    const setup: ProbeSetup
    var called: bool

    constructor (payload: Json, tools: set<Tool>, started: int)
      ensures setup == OpenProbe(payload, tools, started) && !called
    {
      setup := OpenProbe(payload, tools, started);
      called := false;
    }

    method Next(input: TurnInput, now: int) returns (d: Decision)
      modifies this
      ensures called && d == ProbeNext(setup, old(called), input, now)
    {
      if !called {
        called := true;
        if !Asks(setup) {
          return Complete(Some(Undecided(Lit("malformed"))));
        }
        return Ask(Seller(setup.seat.value), CanaryMessage(setup.nonce.value));
      }
      if input.Opening? || !input.succeeded {
        return Complete(Some(Undecided(Lit("no reply"))));
      }
      return Complete(Some(Obj(Observation(setup, input.output, Elapsed(setup, now)))));
    }
  }

  function ProbeTurn(p: ProbeSetup, called: bool, inputs: seq<(TurnInput, int)>): seq<Decision>
    decreases |inputs|
  {
    if inputs == [] then []
    else
      var d := ProbeNext(p, called, inputs[0].0, inputs[0].1);
      [d] + if IsCall(d) then ProbeTurn(p, true, inputs[1..]) else []
  }

  /** A Probe turn makes at most one call, only to the named seat, and two decisions; with two inputs it ends. */
  lemma ProbeTurnBounded(p: ProbeSetup, inputs: seq<(TurnInput, int)>)
    ensures var ds := ProbeTurn(p, false, inputs);
            && CallsIn(ds) <= 1 && |ds| <= 2
            && (|inputs| > 1 ==> ds != [] && !IsCall(ds[|ds| - 1]))
            && forall i | 0 <= i < |ds| && IsCall(ds[i]) ::
                 i == 0 && p.seat.Some? && p.nonce.Some?
                 && ds[i] == Ask(Seller(p.seat.value), CanaryMessage(p.nonce.value))
  {
    if inputs != [] {
      var d, rest := ProbeNext(p, false, inputs[0].0, inputs[0].1), inputs[1..];
      assert ProbeTurn(p, true, []) == [];
      if IsCall(d) && rest != [] {
        var e := ProbeNext(p, true, rest[0].0, rest[0].1);
        assert ProbeTurn(p, true, rest) == [e];
        assert ProbeTurn(p, false, inputs) == [d, e];
        assert CallsIn([d, e][1..]) == 0;
      } else {
        assert ProbeTurn(p, false, inputs) == [d];
        assert CallsIn([d][1..]) == 0;
      }
    }
  }
}
