/** The in-process transport between Router, Probe and the room, and a whole canary through all of them. */
module Transport {
  import opened Texts
  import opened JsonTokens
  import opened Json
  import opened Services
  import opened Grants
  import opened Verification
  import opened SharedNet
  import opened Drivers

  datatype Envelope = Envelope(id: Text, sender: Address, receiver: Address, payload: Json)

  datatype Reply = Reply(sender: Address, receiver: Address, payload: Json, replyTo: Text)

  datatype Delivery = Accepted | Delivered(message: SharedNet.Message) | Refused

  /** Our seat, where its cursor starts, and the room and the clock during one poll. */
  datatype Room = Room(seat: Text, initial: int, timeoutMs: int, start: int, clock: nat -> int,
                       log: nat -> seq<SharedNet.Message>)

  ghost predicate Live(room: Room) {
    Passes(room.clock, room.log, room.start)
  }

  ghost predicate FirstAt(room: Room, k: nat, target: Text, nonce: Text, m: SharedNet.Message) {
    FoundFirst(room.log(k), target, Acknowledgement(target, nonce), room.initial, m)
  }

  /** `m` is the first acknowledgement the target seat itself wrote in the room after the cursor. */
  ghost predicate Heard(room: Room, target: Text, nonce: Text, m: SharedNet.Message) {
    IsSeat(target) && exists k: nat :: FirstAt(room, k, target, nonce, m)
  }

  class MessageRouter {
    var pendingReplies: map<Text, Reply>

    constructor ()
      ensures pendingReplies == map[]
    {
      pendingReplies := map[];
    }

    method Deliver(e: Envelope, room: Room) returns (d: Delivery)
      requires Live(room)
      modifies this
      ensures d.Accepted? <==> e.receiver == PROBE
      ensures d.Delivered? ==>
              && e.receiver.Seller? && IsSeat(e.receiver.seat) && e.receiver.seat != room.seat
              && e.payload.Obj? && NonceOf(e.payload.members).Some?
              && Heard(room, e.receiver.seat, NonceOf(e.payload.members).value, d.message)
              && ParseJson(d.message.content).Some?
              && var reply := Reply(e.receiver, e.sender, ParseJson(d.message.content).value, e.id);
                 pendingReplies == old(pendingReplies)[e.id := reply]
      ensures !d.Delivered? ==> pendingReplies == old(pendingReplies)
    {
      if e.receiver == PROBE {
        return Accepted;
      }
      if !e.receiver.Seller? || !e.payload.Obj? {
        return Refused;
      }
      var result, _, _, pages := SendCanary(room.seat, e.receiver.seat, e.payload.members, room.initial, room.timeoutMs,
                                            room.start,
                                            room.clock, room.log);
      if !result.Observed? {
        return Refused;
      }
      assert FirstAt(room, pages - 1, e.receiver.seat, NonceOf(e.payload.members).value, result.message);
      pendingReplies := pendingReplies[e.id := Reply(e.receiver, e.sender, result.payload, e.id)];
      return Delivered(result.message);
    }

    /** A seller's reply is handed over once. */
    method TakeReply(id: Text) returns (reply: Option<Reply>)
      modifies this
      ensures reply == if id in old(pendingReplies) then Some(old(pendingReplies)[id]) else None
      ensures pendingReplies == old(pendingReplies) - {id}
    {
      if id !in pendingReplies {
        reply := None;
        assert pendingReplies == pendingReplies - {id};
      } else {
        reply := Some(pendingReplies[id]);
        pendingReplies := pendingReplies - {id};
      }
    }
  }

  lemma FieldAt(ms: seq<Member>, i: nat)
    requires DistinctKeys(ms) && i < |ms|
    ensures FieldOf(Some(Obj(ms)), ms[i].key) == Some(ms[i].value)
  {
    LookupMember(ms, ms[i]);
  }

  /** The Probe reads exactly what the Router asked. */
  lemma ProbeReadsRequest(r: RouterSetup, seat: Text, tools: set<Tool>, started: int)
    ensures OpenProbe(Obj(CanaryRequest(r, seat)), tools, started)
            == ProbeSetup(Some(Str(Lit("trust_canary"))), Some(seat), Some(r.probeId), Some(r.nonce),
                          MessageTool in tools, started)
  {
    var ms := CanaryRequest(r, seat);
    assert |Lit("operation")| == 9 && |Lit("target")| == 6 && |Lit("probe_id")| == 8 && |Lit("nonce")| == 5;
    FieldAt(ms, 0);
    FieldAt(ms, 1);
    FieldAt(ms, 2);
    FieldAt(ms, 3);
    var target := ms[1].value.members;
    assert |Lit("kind")| == 4 && |Lit("serviceId")| == 9;
    FieldAt(target, 0);
    FieldAt(target, 1);
  }

  /** The Router reads exactly what the Probe observed, a missing output included. */
  lemma RouterReadsObservation(p: ProbeSetup, output: Option<Json>, latency: int)
    ensures FieldOf(Some(Obj(Observation(p, output, latency))), Lit("output")) == output
    ensures FieldOf(Some(Obj(Observation(p, output, latency))), Lit("latency_ms")) == Some(Num(Int(latency)))
  {
    var ms := Observation(p, output, latency);
    assert |Lit("state")| == 5 && |Lit("probe_id")| == 8 && |Lit("provider_id")| == 11 && |Lit("nonce")| == 5 &&
           |Lit("output")| == 6 && |Lit("latency_ms")| == 10;
    assert Lit("state")[0] != Lit("nonce")[0];
    FieldAt(ms, 4);
    if output.Some? {
      FieldAt(ms, 5);
    } else {
      assert Lit("output") !in Keys(ms);
      LookupMissing(ms, Lit("output"));
    }
  }

  lemma CanaryCarriesNonce(nonce: Text)
    requires |nonce| >= 8
    ensures NonceOf(CanaryMessage(nonce)) == Some(nonce)
  {
    var ms := CanaryMessage(nonce);
    assert |Lit("type")| == 4 && |Lit("instruction")| == 11 && |PROBE_ID| == 21 && |Lit("expected_response")| == 17;
    FieldAt(ms, 2);
  }

  /** The output is an observation of what the target seat itself wrote. */
  ghost predicate Witnessed(room: Room, p: ProbeSetup, output: Json) {
    exists m, latency ::
      && Asks(p) && Heard(room, p.seat.value, p.nonce.value, m) && ParseJson(m.content).Some?
      && output == Obj(Observation(p, Some(ParseJson(m.content).value), latency))
  }

  predicate IsObserved(output: Json) {
    Get(output, Lit("state")) == Some(Str(Lit("OBSERVED")))
  }

  /** `resolveReply` for the Probe: one Probe turn. `allowed` is the kernel's answer to its one message. */
  method RunProbe(payload: Json, tools: set<Tool>, router: MessageRouter, id: Text, allowed: bool, room: Room, now: int)
    returns (output: Json)
    requires Live(room) && id !in router.pendingReplies
    modifies router
    ensures router.pendingReplies == old(router.pendingReplies)
    ensures IsObserved(output) ==> Witnessed(room, OpenProbe(payload, tools, room.start), output)
  {
    var driver := new ProbeDriver(payload, tools, room.start);
    var d := driver.Next(Opening, now);
    if !d.Ask? {
      UndecidedState(Lit("malformed"));
      return d.answer.value;
    }
    UndecidedState(Lit("no reply"));
    CanaryCarriesNonce(driver.setup.nonce.value);
    if allowed {
      var delivered := router.Deliver(Envelope(id, PROBE, d.recipient, Obj(d.payload)), room);
      if delivered.Delivered? {
        var reply := router.TakeReply(id);
        var answer := driver.Next(ToolResult(true, Some(reply.value.payload)), now);
        output := answer.answer.value;
        assert output == Obj(Observation(driver.setup, Some(ParseJson(delivered.message.content).value),
                                         Elapsed(driver.setup, now)));
        return;
      }
    }
    var answer := driver.Next(ToolResult(false, None), now);
    output := answer.answer.value;
  }

  /** However values are rendered, the record call meets the backend's bounds exactly when its output is short enough.
      */
  ghost predicate BoundedByOutput(d: Decision)
    requires d.RecordProbe?
  {
    forall rendered: Rendered ::
      WithinBounds(rendered, d.probeId, d.provider, d.nonce, d.latency, d.output)
      <==> rendered(d.output) <= MAX_OUTPUT_CHARS
  }

  /** A seat's address is never all white space, so only the length of the output decides whether its record call meets
      the backend's bounds. */
  lemma SeatPassesBounds(r: RouterSetup, d: Decision, input: TurnInput)
    requires d.RecordProbe? && RecordsOwn(r, d, input) && IsSeat(d.provider)
    ensures Uuid(r.probeId) && Uuid(r.nonce) ==> BoundedByOutput(d)
  {
    assert IsAlnum(d.provider[|d.provider| - 1]) by {
      assert d.provider[|d.provider| - 1] in d.provider[|Lit("i_")|..];
    }
    if Uuid(r.probeId) && Uuid(r.nonce) {
      forall rendered: Rendered
        ensures WithinBounds(rendered, d.probeId, d.provider, d.nonce, d.latency, d.output)
                <==> rendered(d.output) <= MAX_OUTPUT_CHARS
      {
        RecordMeetsBounds(rendered, r, d, input);
      }
    }
  }

  lemma UndecidedState(reason: Text)
    ensures !IsObserved(Undecided(reason))
  {
    var ms := Undecided(reason).members;
    assert |Lit("state")| == 5 && |Lit("reason")| == 6 && |Lit("INCONCLUSIVE")| == 12 && |Lit("OBSERVED")| == 8;
    FieldAt(ms, 0);
  }

  /**
   A trust snapshot up to its record call, through Router, Probe, transport and room. Whatever the kernel allows and
   whatever is written in the room, an output is recorded only if the paid target seat itself wrote it, as the exact
   acknowledgement of this turn's nonce.
   */
  method RunCanary(payload: Json, tools: set<Tool>, probeTools: set<Tool>, probeId: Text, nonce: Text,
                   router: MessageRouter,
                   id: Text, allowed: bool, sent: bool, room: Room, now: int)
    returns (recorded: Option<Decision>)
    requires Live(room) && id !in router.pendingReplies
    modifies router
    ensures router.pendingReplies == old(router.pendingReplies)
    ensures recorded.Some? ==>
            var r, d := OpenRouter(payload, tools, probeId, nonce), recorded.value;
            && d.RecordProbe? && d.probeId == probeId && d.nonce == nonce && ServiceId(r) == Some(d.provider)
            && (exists m :: Heard(room, d.provider, nonce, m) && ParseJson(m.content) == Some(d.output))
            && (Uuid(probeId) && Uuid(nonce) ==> BoundedByOutput(d))
  {
    var driver := new RouterDriver(payload, tools, probeId, nonce);
    var d := driver.Next(Opening);
    if !d.Ask? {
      return None;
    }
    ghost var r := driver.setup;
    var answer := ToolResult(false, None);
    if allowed {
      ProbeReadsRequest(r, ServiceId(r).value, probeTools, room.start);
      var output := RunProbe(Obj(d.payload), probeTools, router, id, sent, room, now);
      answer := ToolResult(true, Some(output));
    }
    var next := driver.Next(answer);
    if !next.RecordProbe? {
      return None;
    }
    ghost var p := OpenProbe(Obj(d.payload), probeTools, room.start);
    ghost var m, latency :| Asks(p) && Heard(room, p.seat.value, p.nonce.value, m) && ParseJson(m.content).Some?
                            && answer.output.value == Obj(Observation(p, Some(ParseJson(m.content).value), latency));
    RouterReadsObservation(p, Some(ParseJson(m.content).value), latency);
    SeatPassesBounds(r, next, answer);
    return Some(next);
  }

  /** What was heard conforms to the server's canary contract, so the backend's schema and assertions pass on it. */
  lemma HeardConforms(room: Room, target: Text, nonce: Text, m: SharedNet.Message)
    requires Heard(room, target, nonce, m)
    ensures m.sender == Some(target) && m.sequence > room.initial
    ensures ParseJson(m.content).Some? && CanaryConforms(ParseJson(m.content).value, nonce)
  {
    var k: nat :| FirstAt(room, k, target, nonce, m);
  }

  /** An acknowledgement may carry more beside its two members. */
  function Padded(nonce: Text, pad: Text): Json {
    Obj([Member(PROBE_ID, Str(nonce)), Member(ACK, Bool(true)), Member(Lit("pad"), Str(pad))])
  }

  /** Padding is no obstacle to the canary contract, so a conforming acknowledgement can be of any length: with one too
      long, what the room heard is never recorded. */
  lemma LongAcknowledgement(rendered: Rendered, nonce: Text, pad: Text, d: Decision)
    requires rendered(Padded(nonce, pad)) >= |pad| > MAX_OUTPUT_CHARS
    requires d.RecordProbe? && d.output == Padded(nonce, pad)
    ensures CanaryConforms(d.output, nonce)
    ensures !WithinBounds(rendered, d.probeId, d.provider, d.nonce, d.latency, d.output)
  {
    var ms := d.output.members;
    assert |PROBE_ID| == 21 && |ACK| == 3 && |Lit("pad")| == 3;
    assert ACK[0] != Lit("pad")[0];
    FieldAt(ms, 0);
    FieldAt(ms, 1);
  }
}
