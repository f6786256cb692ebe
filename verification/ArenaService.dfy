/** One paid request from message to response: parsing, fingerprint, cache, payment, claim, grants, turn and save. */
module ArenaService {
  import opened Texts
  import opened JsonTokens
  import opened Json
  import opened Services
  import opened Grants
  import opened AuditLog
  import opened SharedNet
  import opened ArenaStore

  datatype Request = Request(id: Text, service: Service, input: Json, payment: Option<Text>)

  datatype Parsed = Parsed(sender: Text, source: Text, request: Request)

  /** `[A-Za-z0-9._:-]{1,100}`. */
  predicate IsRequestId(t: Text) {
    1 <= |t| <= 100 && forall u | u in t :: IsAlnum(u) || u in [Code('.'), Code('_'), Code(':'), Code('-')]
  }

  function TextField(v: Json, key: Text): Option<Text> {
    match Get(v, key)
    case Some(Str(s)) => Some(s)
    case _ => None
  }

  const REQUEST_TYPE := Lit("counterparty.service.request.v1")

  /** The request that a document spells, None if it spells none. */
  function ReadRequest(doc: Json): Option<Request> {
    var id, name := TextField(doc, Lit("request_id")), TextField(doc, Lit("service"));
    var input, payment := Get(doc, Lit("input")), Get(doc, Lit("payment_txn_id"));
    if TextField(doc, Lit("type")) != Some(REQUEST_TYPE) then None
    else if id.None? || !IsRequestId(id.value) then None
    else if name.None? || ServiceNamed(name.value).None? then None
    else if input.None? || !input.value.Obj? then None
    else if payment.Some? && !payment.value.Str? then None
    else Some(Request(id.value, ServiceNamed(name.value).value, input.value,
                      if payment.Some? then Some(payment.value.s) else None))
  }

  /** None for a message the service ignores. */
  function ParseRequest(m: Message): Option<Parsed> {
    if m.sender.None? || !IsSeat(m.sender.value) then None
    else
      match Load(m.content, Js)
      case None => None
      case Some(doc) =>
        match ReadRequest(doc)
        case None => None
        case Some(request) => Some(Parsed(m.sender.value, m.id, request))
  }

  /** What parsing guarantees. */
  ghost predicate WellParsed(p: Parsed) {
    IsSeat(p.sender) && IsRequestId(p.request.id) && Known(p.request.service) && p.request.input.Obj?
    && Valid(p.request.input, Js)
  }

  lemma ParseWellFormed(m: Message)
    ensures ParseRequest(m).Some? ==>
            WellParsed(ParseRequest(m).value) && m.sender == Some(ParseRequest(m).value.sender)
  {
    LoadValid(m.content, Js);
    if ParseRequest(m).Some? {
      var doc := Load(m.content, Js).value;
      LookupValid(doc.members, Lit("input"), Js);
      NamesKnown(TextField(doc, Lit("service")).value);
    }
  }

  /** A request as a client would write it. */
  function RequestFields(r: Request): seq<Member> {
    [Member(Lit("type"), Str(REQUEST_TYPE)), Member(Lit("request_id"), Str(r.id)),
     Member(Lit("service"), Str(NameOf(r.service))),
     Member(Lit("input"), r.input)]
    + if r.payment.Some? then [Member(Lit("payment_txn_id"), Str(r.payment.value))] else []
  }

  function RequestText(r: Request): Text {
    Canon(Obj(RequestFields(r)), Js)
  }

  lemma RequestFieldsValid(p: Parsed)
    requires WellParsed(p)
    ensures Valid(Obj(RequestFields(p.request)), Js)
  {
    assert |Lit("type")| == 4 && |Lit("request_id")| == 10 && |Lit("service")| == 7 && |Lit("input")| == 5
        && |Lit("payment_txn_id")| == 14;
  }

  /** Parsing undoes writing: the service reads the request that was meant, its input in key order. */
  lemma ParseRequestText(p: Parsed, sequence: int)
    requires WellParsed(p)
    ensures ParseRequest(Message(p.source, sequence, Some(p.sender), RequestText(p.request)))
            == Some(p.(request := p.request.(input := Norm(p.request.input))))
  {
    var ms := RequestFields(p.request);
    RequestFieldsValid(p);
    LoadCanon(Obj(ms), Js);
    FieldsRead(p);
    ReadFields(p.request.(input := Norm(p.request.input)), Norm(Obj(ms)));
  }

  /** The members of a document that make it this request. */
  ghost predicate Spells(doc: Json, r: Request) {
    && Get(doc, Lit("type")) == Some(Str(REQUEST_TYPE)) && Get(doc, Lit("request_id")) == Some(Str(r.id))
    && Get(doc, Lit("service")) == Some(Str(NameOf(r.service))) && Get(doc, Lit("input")) == Some(r.input)
    && Get(doc, Lit("payment_txn_id")) == (if r.payment.Some? then Some(Str(r.payment.value)) else None)
  }

  lemma ReadFields(r: Request, doc: Json)
    requires Spells(doc, r) && IsRequestId(r.id) && Known(r.service) && r.input.Obj?
    ensures ReadRequest(doc) == Some(r)
  {
    NamesKnown(NameOf(r.service));
  }

  lemma FieldsRead(p: Parsed)
    requires WellParsed(p)
    ensures Spells(Norm(Obj(RequestFields(p.request))), p.request.(input := Norm(p.request.input)))
  {
    var ms := RequestFields(p.request);
    RequestFieldsValid(p);
    GetLoaded(ms, ms[0]);
    GetLoaded(ms, ms[1]);
    GetLoaded(ms, ms[2]);
    GetLoaded(ms, ms[3]);
    if p.request.payment.Some? {
      GetLoaded(ms, ms[4]);
    } else {
      NoPaymentField(p.request);
      GetLoadedMissing(ms, Lit("payment_txn_id"));
    }
  }

  lemma NoPaymentField(r: Request)
    requires r.payment.None?
    ensures Lit("payment_txn_id") !in Keys(RequestFields(r))
  {
    var ms := RequestFields(r);
    assert forall i | 0 <= i < |ms| :: |ms[i].key| < 14;
    assert |Lit("payment_txn_id")| == 14;
  }

  predicate ValidInput(r: Request) {
    match r.service
    case TrustSnapshot =>
      TextField(r.input, Lit("service_id")).Some? && IsSeat(TextField(r.input, Lit("service_id")).value)
    case VerifyDelivery =>
      TextField(r.input, Lit("delivery_id")).Some? && 1 <= |TextField(r.input, Lit("delivery_id")).value| <= 200
    case BestExecution =>
      (match Get(r.input, Lit("candidates"))
       case Some(Arr(items)) => 1 <= |items| <= 32
       case _ => false)
    case Inherited(_) => true
  }

  // ---------- fingerprint ----------

  function FingerprintFields(p: Parsed): seq<Member> {
    [Member(Lit("sender"), Str(p.sender)), Member(Lit("request_id"), Str(p.request.id)),
     Member(Lit("service"), Str(NameOf(p.request.service))), Member(Lit("input"), p.request.input)]
  }

  function FingerprintMaterial(p: Parsed): Text {
    Canon(Obj(FingerprintFields(p)), Js)
  }

  function Fingerprint(hash: Hash, p: Parsed): Text {
    hash(FingerprintMaterial(p))
  }

  /** The same request: sender, id, service and input up to key order. The payment is no part of it. */
  ghost predicate SameAsk(a: Parsed, b: Parsed) {
    && a.sender == b.sender && a.request.id == b.request.id && a.request.service == b.request.service
    && Same(a.request.input, b.request.input)
  }

  lemma FieldsDistinct(p: Parsed)
    requires WellParsed(p)
    ensures Valid(Obj(FingerprintFields(p)), Js)
  {
    assert |Lit("sender")| == 6 && |Lit("request_id")| == 10 && |Lit("service")| == 7 && |Lit("input")| == 5;
  }

  lemma FieldsSame(a: Parsed, b: Parsed)
    requires Known(a.request.service) && Known(b.request.service)
    ensures var x, y := FingerprintFields(a), FingerprintFields(b);
            (forall i | 0 <= i < |x| :: Same(x[i].value, y[i].value)) <==> SameAsk(a, b)
  {
    var x, y := FingerprintFields(a), FingerprintFields(b);
    TextsSame(a.sender, b.sender);
    TextsSame(a.request.id, b.request.id);
    TextsSame(NameOf(a.request.service), NameOf(b.request.service));
    assert (forall i | 0 <= i < |x| :: Same(x[i].value, y[i].value)) <==>
           Same(x[0].value, y[0].value) && Same(x[1].value, y[1].value) && Same(x[2].value, y[2].value)
           && Same(x[3].value, y[3].value);
  }

  /** Two requests have the same fingerprint material exactly when they are the same request. */
  lemma FingerprintBinds(a: Parsed, b: Parsed)
    requires WellParsed(a) && WellParsed(b)
    ensures FingerprintMaterial(a) == FingerprintMaterial(b) <==> SameAsk(a, b)
  {
    FieldsDistinct(a);
    FieldsDistinct(b);
    RecordsText(FingerprintFields(a), FingerprintFields(b), Js);
    FieldsSame(a, b);
  }

  /** What stands beside the input in these requests. */
  function Envelope(id: Text): seq<Member> {
    [Member(Lit("request_id"), Str(id)), Member(Lit("service"), Str(Lit("verify_delivery"))),
     Member(Lit("type"), Str(REQUEST_TYPE))]
  }

  function Delivery(id: Text): seq<Member> {
    [Member(Lit("delivery_id"), Str(id))]
  }

  /** A request whose input holds the value that `raw` spells. */
  function RequestWith(raw: Text, id: Text): Text {
    Spliced(Lit("input"), Spliced(Lit("v"), raw, Delivery(id)), Envelope(id))
  }

  function InputWith(v: Json, id: Text): Json {
    Obj([Member(Lit("v"), v)] + Delivery(id))
  }

  lemma TextsNorm(ms: seq<Member>, whole: Json)
    requires (forall m | m in ms :: m.value < whole) && forall m | m in ms :: m.value.Str?
    ensures NormMembers(ms, whole) == ms
  {
  }

  lemma EnvelopeValid(id: Text)
    ensures Valid(Obj(Envelope(id)), Js) && NormMembers(Envelope(id), Obj(Envelope(id))) == Envelope(id)
    ensures Lit("input") !in Keys(Envelope(id)) && Lit("payment_txn_id") !in Keys(Envelope(id))
  {
    assert |Lit("request_id")| == 10 && |Lit("service")| == 7 && |Lit("type")| == 4 && |Lit("input")| == 5
        && |Lit("payment_txn_id")| == 14;
    TextsNorm(Envelope(id), Obj(Envelope(id)));
  }

  lemma DeliveryValid(id: Text)
    ensures Valid(Obj(Delivery(id)), Js) && NormMembers(Delivery(id), Obj(Delivery(id))) == Delivery(id)
    ensures Lit("v") !in Keys(Delivery(id))
  {
    assert |Lit("v")| == 1 && |Lit("delivery_id")| == 11;
    TextsNorm(Delivery(id), Obj(Delivery(id)));
  }

  /** The document of such a request, as the reader gets it. */
  lemma RequestWithLoads(raw: Text, v: Json, id: Text)
    requires forall more | Stops(more) :: ParseValue(raw + more, Js) == Ok(v, more)
    ensures Load(RequestWith(raw, id), Js) == Some(Obj([Member(Lit("input"), InputWith(v, id))] + Envelope(id)))
  {
    EnvelopeValid(id);
    DeliveryValid(id);
    forall more | Stops(more)
      ensures ParseValue(Spliced(Lit("v"), raw, Delivery(id)) + more, Js) == Ok(InputWith(v, id), more)
    {
      SplicedRead(Lit("v"), raw, v, Delivery(id), more);
    }
    SplicedRead(Lit("input"), Spliced(Lit("v"), raw, Delivery(id)), InputWith(v, id), Envelope(id), []);
    assert RequestWith(raw, id) + [] == RequestWith(raw, id);
  }

  lemma EnvelopeFields(id: Text)
    ensures var rest := Obj(Envelope(id));
            && Get(rest, Lit("type")) == Some(Str(REQUEST_TYPE)) && Get(rest, Lit("request_id")) == Some(Str(id))
            && Get(rest, Lit("service")) == Some(Str(Lit("verify_delivery")))
            && Get(rest, Lit("payment_txn_id")) == None
  {
    var ms := Envelope(id);
    EnvelopeValid(id);
    LookupMember(ms, ms[0]);
    LookupMember(ms, ms[1]);
    LookupMember(ms, ms[2]);
    LookupMissing(ms, Lit("payment_txn_id"));
  }

  lemma GetAfter(m: Member, rest: seq<Member>, key: Text)
    ensures Get(Obj([m] + rest), key) == if m.key == key then Some(m.value) else Get(Obj(rest), key)
  {
    assert ([m] + rest)[1..] == rest;
  }

  lemma RequestWithSpells(v: Json, id: Text)
    ensures Spells(Obj([Member(Lit("input"), InputWith(v, id))] + Envelope(id)),
                   Request(id, VerifyDelivery, InputWith(v, id), None))
  {
    var input := Member(Lit("input"), InputWith(v, id));
    EnvelopeFields(id);
    GetAfter(input, Envelope(id), Lit("type"));
    GetAfter(input, Envelope(id), Lit("request_id"));
    GetAfter(input, Envelope(id), Lit("service"));
    GetAfter(input, Envelope(id), Lit("input"));
    GetAfter(input, Envelope(id), Lit("payment_txn_id"));
    assert |Lit("type")| == 4 && |Lit("request_id")| == 10 && |Lit("service")| == 7 && |Lit("input")| == 5
        && |Lit("payment_txn_id")| == 14;
  }

  lemma RequestWithRead(raw: Text, v: Json, id: Text, m: Message)
    requires forall more | Stops(more) :: ParseValue(raw + more, Js) == Ok(v, more)
    requires m.sender.Some? && IsSeat(m.sender.value) && IsRequestId(id) && m.content == RequestWith(raw, id)
    ensures ParseRequest(m) == Some(Parsed(m.sender.value, m.id, Request(id, VerifyDelivery, InputWith(v, id), None)))
  {
    RequestWithLoads(raw, v, id);
    RequestWithSpells(v, id);
    NamesKnown(Lit("verify_delivery"));
    ReadFields(Request(id, VerifyDelivery, InputWith(v, id), None), Load(m.content, Js).value);
  }

  /** The law needs overflow read as null: these two messages ask with different inputs and have one fingerprint. */
  lemma HugeAndNullAlike(sender: Text, source: Text, sequence: int, id: Text)
    requires IsSeat(sender) && IsRequestId(id)
    ensures var a := ParseRequest(Message(source, sequence, Some(sender), RequestWith(HUGE, id)));
            var b := ParseRequest(Message(source, sequence, Some(sender), RequestWith(Lit("null"), id)));
            && a.Some? && b.Some? && a.value.request.input != b.value.request.input
            && FingerprintMaterial(a.value) == FingerprintMaterial(b.value)
  {
    forall more | Stops(more)
      ensures ParseValue(HUGE + more, Js) == Ok(Num(Overflow(false)), more)
    {
      HugeRead(more);
    }
    forall more: Text
      ensures ParseValue(Lit("null") + more, Js) == Ok(Null, more)
    {
      NullRead(more, Js);
    }
    var m := Message(source, sequence, Some(sender), RequestWith(HUGE, id));
    var n := Message(source, sequence, Some(sender), RequestWith(Lit("null"), id));
    RequestWithRead(HUGE, Num(Overflow(false)), id, m);
    RequestWithRead(Lit("null"), Null, id, n);
    ParseWellFormed(m);
    ParseWellFormed(n);
    AlikeInputs(ParseRequest(m).value, ParseRequest(n).value, id);
  }

  lemma AlikeInputs(a: Parsed, b: Parsed, id: Text)
    requires WellParsed(a) && a.request.input == InputWith(Num(Overflow(false)), id)
    requires b == a.(request := a.request.(input := InputWith(Null, id))) && WellParsed(b)
    ensures a.request.input != b.request.input && FingerprintMaterial(a) == FingerprintMaterial(b)
  {
    assert a.request.input.members[0].value != b.request.input.members[0].value;
    assert |Lit("v")| == 1 && |Lit("delivery_id")| == 11;
    RecordsSame(a.request.input.members, b.request.input.members);
    FingerprintBinds(a, b);
  }

  // ---------- responses ----------

  datatype Reason = UsedRequestId | BoundElsewhere

  datatype Body =
    | InvalidRequest
    | Rejected(reason: Reason)
    | PaymentRequired(payee: Text, memo: Text)
    | BadTransferId
    | LedgerUnavailable
    | NotPaid(expectedPayee: Text)
    | Delivered(txn: Text, result: Json)
    | TurnFailed(txn: Text)

  datatype Response = Response(request: Text, service: Service, price: Option<nat>, body: Body)

  /** What one deployment fixes: the digest, its namespace and owner, its payee, the room, and the room named in claims.
      */
  datatype Config = Config(hash: Hash, namespace: Text, owner: Text, payee: Text, room: Text, claimRoom: Text)

  function Respond(p: Parsed, body: Body): Response {
    Response(p.request.id, p.request.service, Price(p.request.service), body)
  }

  /** The response where the request is answered without looking at the ledger. */
  function EarlyAnswer(cfg: Config, responses: map<Text, Saved<Response>>, p: Parsed): Option<Response> {
    if !ValidInput(p.request) then Some(Respond(p, InvalidRequest))
    else
      match Cached(responses, p.request.id, Fingerprint(cfg.hash, p))
      case Hit(r) => Some(r)
      case Mismatch => Some(Respond(p, Rejected(UsedRequestId)))
      case Missing =>
        if p.request.payment.None? then
          Some(Respond(p, PaymentRequired(cfg.payee, Memo(NameOf(p.request.service), p.request.id))))
        else if !IsTxn(p.request.payment.value) then Some(Respond(p, BadTransferId))
        else None
  }

  function ExpectedPayment(cfg: Config, p: Parsed): Expected
    requires p.request.payment.Some?
  {
    Expected(p.request.payment.value, p.sender, cfg.payee, Price(p.request.service), cfg.room, p.request.id,
             NameOf(p.request.service))
  }

  /** `page` is what the ledger returned, None if it could not be read. */
  function PaymentAnswer(cfg: Config, p: Parsed, page: Option<seq<LedgerItem>>): Option<Response>
    requires p.request.payment.Some?
  {
    if page.None? then Some(Respond(p, LedgerUnavailable))
    else if !VerifyPayment(page.value, ExpectedPayment(cfg, p)) then Some(Respond(p, NotPaid(cfg.payee)))
    else None
  }

  function RowFor(cfg: Config, p: Parsed): Payment
    requires p.request.payment.Some?
  {
    Payment(p.request.payment.value, p.request.id, Fingerprint(cfg.hash, p), p.request.service,
            Price(p.request.service), cfg.claimRoom)
  }

  function Target(p: Parsed): Text {
    match TextField(p.request.input, Lit("service_id"))
    case Some(seat) => seat
    case None => []
  }

  function AttemptGrants(cfg: Config, p: Parsed, attempt: Text): seq<Grant> {
    Minted(cfg.owner, p.request.service, Target(p), attempt)
  }

  function WithGrants(grants: map<Key, Grant>, namespace: Text, minted: seq<Grant>): map<Key, Grant> {
    if minted == [] then grants
    else
      var front, last := minted[..|minted| - 1], minted[|minted| - 1];
      WithGrants(grants, namespace, front)[(namespace, last.id) := last]
  }

  /** The kernel's uses of grants during a turn. */
  function WithUses(usage: map<Key, int>, namespace: Text, uses: seq<(GrantId, int)>): map<Key, int> {
    if uses == [] then usage
    else
      var before := WithUses(usage, namespace, uses[..|uses| - 1]);
      var (id, maximum) := uses[|uses| - 1];
      var key := (namespace, id);
      before[key := Consumed(if key in before then Some(before[key]) else None, maximum).0.value]
  }

  datatype TurnEnd = TurnEnd(succeeded: bool, output: Json)

  function TurnResponse(p: Parsed, end: TurnEnd): Response
    requires p.request.payment.Some?
  {
    Respond(p, if end.succeeded then Delivered(p.request.payment.value, end.output)
            else TurnFailed(p.request.payment.value))
  }

  function AfterTurn(cfg: Config, responses: map<Text, Saved<Response>>, p: Parsed,
                     end: TurnEnd): map<Text, Saved<Response>>
    requires p.request.payment.Some?
  {
    if end.succeeded then SavedAfter(responses, p.request.id, Fingerprint(cfg.hash, p), TurnResponse(p, end))
    else responses
  }

  // ---------- one request, uninterrupted ----------

  /** Everything outside the store that one run depends on. */
  datatype Env = Env(page: Option<seq<LedgerItem>>, claim: Claim, attempt: Text, uses: seq<(GrantId, int)>,
                     end: TurnEnd)

  /** The turn is reached. */
  predicate Runs(cfg: Config, store: Store<Response>, p: Parsed, env: Env) {
    EarlyAnswer(cfg, store.responses, p).None? && PaymentAnswer(cfg, p, env.page).None? && !env.claim.Conflict?
  }

  function Process(cfg: Config, store: Store<Response>, p: Parsed, env: Env): (Store<Response>, Response) {
    if EarlyAnswer(cfg, store.responses, p).Some? then (store, EarlyAnswer(cfg, store.responses, p).value)
    else if PaymentAnswer(cfg, p, env.page).Some? then (store, PaymentAnswer(cfg, p, env.page).value)
    else if env.claim.Conflict? then (store, Respond(p, Rejected(BoundElsewhere)))
    else
      (Store(WithGrants(store.grants, cfg.namespace, AttemptGrants(cfg, p, env.attempt)),
             WithUses(store.usage, cfg.namespace, env.uses),
             AfterClaim(store.payments, RowFor(cfg, p), env.claim),
             AfterTurn(cfg, store.responses, p, env.end)),
       TurnResponse(p, env.end))
  }

  lemma WithGrantsStep(grants: map<Key, Grant>, namespace: Text, minted: seq<Grant>, g: Grant)
    ensures WithGrants(grants, namespace, minted + [g]) == WithGrants(grants, namespace, minted)[(namespace, g.id) := g]
  {
    assert (minted + [g])[..|minted|] == minted;
  }

  method MintGrants(cfg: Config, store: ArenaStore<Response>, p: Parsed, attempt: Text)
    modifies store`grants
    ensures store.grants == WithGrants(old(store.grants), cfg.namespace, AttemptGrants(cfg, p, attempt))
  {
    var owner, service := cfg.owner, p.request.service;
    var minted := [RouterServiceGrant(owner, service)];
    store.StoreGrant(cfg.namespace, RouterServiceGrant(owner, service));
    WithGrantsStep(old(store.grants), cfg.namespace, [], RouterServiceGrant(owner, service));
    store.StoreGrant(cfg.namespace, RouterExecutionGrant(owner, attempt));
    WithGrantsStep(old(store.grants), cfg.namespace, minted, RouterExecutionGrant(owner, attempt));
    minted := minted + [RouterExecutionGrant(owner, attempt)];
    if service == TrustSnapshot {
      store.StoreGrant(cfg.namespace, RouterProbeMessageGrant(owner, attempt));
      WithGrantsStep(old(store.grants), cfg.namespace, minted, RouterProbeMessageGrant(owner, attempt));
      minted := minted + [RouterProbeMessageGrant(owner, attempt)];
      store.StoreGrant(cfg.namespace, ProbeExecutionGrant(owner, attempt));
      WithGrantsStep(old(store.grants), cfg.namespace, minted, ProbeExecutionGrant(owner, attempt));
      minted := minted + [ProbeExecutionGrant(owner, attempt)];
      store.StoreGrant(cfg.namespace, ProbeMessageGrant(owner, attempt, Target(p)));
      WithGrantsStep(old(store.grants), cfg.namespace, minted, ProbeMessageGrant(owner, attempt, Target(p)));
      minted := minted + [ProbeMessageGrant(owner, attempt, Target(p))];
    }
    assert minted == AttemptGrants(cfg, p, attempt);
  }

  method UseGrants(cfg: Config, store: ArenaStore<Response>, uses: seq<(GrantId, int)>)
    modifies store`usage
    ensures store.usage == WithUses(old(store.usage), cfg.namespace, uses)
  {
    var i := 0;
    while i < |uses|
      invariant 0 <= i <= |uses|
      invariant store.usage == WithUses(old(store.usage), cfg.namespace, uses[..i])
    {
      var _ := store.TryConsume(cfg.namespace, uses[i].0, uses[i].1);
      assert uses[..i + 1][..i] == uses[..i];
      i := i + 1;
    }
    assert uses[..i] == uses;
  }

  /** `processRequest`. The turn is what the kernel did with the grants and how the execution ended. */
  method ProcessRequest(cfg: Config, store: ArenaStore<Response>, p: Parsed, page: Option<seq<LedgerItem>>,
                        attempt: Text,
                        uses: seq<(GrantId, int)>, end: TurnEnd)
    returns (response: Response, claim: Claim)
    modifies store
    ensures (store.Contents(), response) == Process(cfg, old(store.Contents()), p, Env(page, claim, attempt, uses, end))
    ensures EarlyAnswer(cfg, old(store.responses), p).None? && PaymentAnswer(cfg, p, page).None? ==>
              ClaimMay(old(store.payments), RowFor(cfg, p), claim)
  {
    claim := Conflict;
    if !ValidInput(p.request) {
      return Respond(p, InvalidRequest), claim;
    }
    var fingerprint := Fingerprint(cfg.hash, p);
    var cached := store.CachedResponse(p.request.id, fingerprint);
    if cached.Hit? {
      return cached.response, claim;
    }
    if cached.Mismatch? {
      return Respond(p, Rejected(UsedRequestId)), claim;
    }
    if p.request.payment.None? {
      return Respond(p, PaymentRequired(cfg.payee, Memo(NameOf(p.request.service), p.request.id))), claim;
    }
    if !IsTxn(p.request.payment.value) {
      return Respond(p, BadTransferId), claim;
    }
    if page.None? {
      return Respond(p, LedgerUnavailable), claim;
    }
    if !VerifyPayment(page.value, ExpectedPayment(cfg, p)) {
      return Respond(p, NotPaid(cfg.payee)), claim;
    }
    claim := store.ClaimPayment(RowFor(cfg, p));
    if claim == Conflict {
      return Respond(p, Rejected(BoundElsewhere)), claim;
    }
    MintGrants(cfg, store, p, attempt);
    UseGrants(cfg, store, uses);
    response := TurnResponse(p, end);
    if end.succeeded {
      store.SaveResponse(p.request.id, fingerprint, response);
    }
  }

  // ---------- sequential processing ----------

  datatype Arrival = Arrival(p: Parsed, env: Env)

  function Serve(cfg: Config, store: Store<Response>, arrivals: seq<Arrival>): Store<Response> {
    if arrivals == [] then store
    else
      var a := arrivals[|arrivals| - 1];
      Process(cfg, Serve(cfg, store, arrivals[..|arrivals| - 1]), a.p, a.env).0
  }

  function Replies(cfg: Config, store: Store<Response>, arrivals: seq<Arrival>): (r: seq<Response>)
    ensures |r| == |arrivals|
  {
    if arrivals == [] then []
    else
      var n := |arrivals| - 1;
      Replies(cfg, store, arrivals[..n])
      + [Process(cfg, Serve(cfg, store, arrivals[..n]), arrivals[n].p, arrivals[n].env).1]
  }

  /** Once a response is saved, its request gets it back and every other valid request with the id is rejected; nothing
      is claimed, granted or run. */
  lemma SavedIsFinal(cfg: Config, store: Store<Response>, p: Parsed, env: Env)
    requires p.request.id in store.responses
    ensures !Runs(cfg, store, p, env) && Process(cfg, store, p, env).0 == store
    ensures var saved := store.responses[p.request.id];
            Process(cfg, store, p, env).1 ==
              if !ValidInput(p.request) then Respond(p, InvalidRequest)
              else if saved.fingerprint == Fingerprint(cfg.hash, p) then saved.response
              else Respond(p, Rejected(UsedRequestId))
  {
  }

  /** A turn that succeeds leaves its response saved under its fingerprint. */
  lemma SuccessIsSaved(cfg: Config, store: Store<Response>, p: Parsed, env: Env)
    requires Runs(cfg, store, p, env) && env.end.succeeded
    ensures var (after, response) := Process(cfg, store, p, env);
            && p.request.id in after.responses
            && after.responses[p.request.id] == Saved(Fingerprint(cfg.hash, p), response) && response.body.Delivered?
  {
  }

  /** Nothing in the store changes unless the turn is reached, and DELIVERED is said only for a saved response or for a
      turn that was paid for on this page, claimed, and succeeded. */
  lemma EffectsArePaid(cfg: Config, store: Store<Response>, p: Parsed, env: Env)
    ensures var (after, response) := Process(cfg, store, p, env);
            && (after != store ==> Runs(cfg, store, p, env))
            && (response.body.Delivered? ==>
                  || (p.request.id in store.responses
                      && store.responses[p.request.id] == Saved(Fingerprint(cfg.hash, p), response))
                  || (Runs(cfg, store, p, env) && env.end.succeeded))
    ensures Runs(cfg, store, p, env) ==>
            && p.request.payment.Some? && env.page.Some? && VerifyPayment(env.page.value, ExpectedPayment(cfg, p))
            && ValidInput(p.request) && p.request.id !in store.responses
  {
  }

  lemma {:induction false} SavedStays(cfg: Config, store: Store<Response>, arrivals: seq<Arrival>, id: Text)
    requires id in store.responses
    ensures id in Serve(cfg, store, arrivals).responses
            && Serve(cfg, store, arrivals).responses[id] == store.responses[id]
    decreases |arrivals|
  {
    if arrivals == [] {
    } else {
      var n := |arrivals| - 1;
      SavedStays(cfg, store, arrivals[..n], id);
      var before := Serve(cfg, store, arrivals[..n]);
      if arrivals[n].p.request.id == id {
        SavedIsFinal(cfg, before, arrivals[n].p, arrivals[n].env);
      }
    }
  }

  lemma {:induction false} ServeSplit(cfg: Config, store: Store<Response>, arrivals: seq<Arrival>, k: nat)
    requires k <= |arrivals|
    ensures Serve(cfg, store, arrivals) == Serve(cfg, Serve(cfg, store, arrivals[..k]), arrivals[k..])
    decreases |arrivals|
  {
    var n := |arrivals| - 1;
    if k == |arrivals| {
      assert arrivals[..k] == arrivals && arrivals[k..] == [];
    } else {
      var front, tail := arrivals[..n], arrivals[k..];
      assert front[..k] == arrivals[..k] && front[k..] == tail[..|tail| - 1] && tail[|tail| - 1] == arrivals[n];
      ServeSplit(cfg, store, front, k);
    }
  }

  predicate RunsAt(cfg: Config, store: Store<Response>, arrivals: seq<Arrival>, i: nat)
    requires i < |arrivals|
  {
    Runs(cfg, Serve(cfg, store, arrivals[..i]), arrivals[i].p, arrivals[i].env)
  }

  /** After a success, no later arrival with that id runs: at most one turn succeeds per request id. */
  lemma AtMostOneSuccess(cfg: Config, store: Store<Response>, arrivals: seq<Arrival>, i: nat, j: nat)
    requires i < j < |arrivals| && arrivals[i].p.request.id == arrivals[j].p.request.id
    requires RunsAt(cfg, store, arrivals, i) && arrivals[i].env.end.succeeded
    ensures !RunsAt(cfg, store, arrivals, j)
    ensures var (after, response) := Process(cfg, Serve(cfg, store, arrivals[..j]), arrivals[j].p, arrivals[j].env);
            && after == Serve(cfg, store, arrivals[..j])
            && (ValidInput(arrivals[j].p.request)
                && Fingerprint(cfg.hash, arrivals[j].p) == Fingerprint(cfg.hash, arrivals[i].p) ==>
                  response == Process(cfg, Serve(cfg, store, arrivals[..i]), arrivals[i].p, arrivals[i].env).1)
  {
    var id := arrivals[i].p.request.id;
    var before := Serve(cfg, store, arrivals[..i]);
    SuccessIsSaved(cfg, before, arrivals[i].p, arrivals[i].env);
    assert arrivals[..i + 1][..i] == arrivals[..i];
    var saved := Serve(cfg, store, arrivals[..i + 1]);
    ServeSplit(cfg, store, arrivals[..j], i + 1);
    assert arrivals[..j][..i + 1] == arrivals[..i + 1];
    SavedStays(cfg, saved, arrivals[..j][i + 1..], id);
    SavedIsFinal(cfg, Serve(cfg, store, arrivals[..j]), arrivals[j].p, arrivals[j].env);
  }

  /** Paying as the reply instructs, then retrying with the transfer's id: the payment check passes, and the retry is
      the same request to cache and claim. */
  lemma PayThenRetry(cfg: Config, p: Parsed, txn: Text, responses: map<Text, Saved<Response>>)
    requires WellParsed(p) && p.request.payment.None? && IsTxn(txn) && IsAddress(cfg.payee)
             && Price(p.request.service).Some?
    requires ValidInput(p.request) && p.request.id !in responses
    ensures var asked, retry := EarlyAnswer(cfg, responses, p), p.(request := p.request.(payment := Some(txn)));
            && asked.Some? && asked.value.body.PaymentRequired?
            && Fingerprint(cfg.hash, retry) == Fingerprint(cfg.hash, p)
            && EarlyAnswer(cfg, responses, retry).None?
            && PaymentAnswer(cfg, retry, Some([Transfer(cfg, p, txn, asked.value.body)])).None?
  {
    InstructedPaymentMatches(ExpectedPayment(cfg, p.(request := p.request.(payment := Some(txn)))));
  }

  /** The ledger entry of paying what the reply asks. */
  function Transfer(cfg: Config, p: Parsed, txn: Text, asked: Body): LedgerItem
    requires asked.PaymentRequired? && Price(p.request.service).Some?
  {
    LedgerItem(Some(txn), Some(Price(p.request.service).value as real), Some(asked.memo), Some(cfg.room),
               Some(asked.payee), Some(p.sender))
  }

  // ---------- a batch ----------

  /** The requests of a batch, in order; other messages are dropped. */
  function Requests(messages: seq<Message>): seq<Parsed> {
    if messages == [] then []
    else
      var n := |messages| - 1;
      Requests(messages[..n]) + if ParseRequest(messages[n]).Some? then [ParseRequest(messages[n]).value] else []
  }

  /** What the world does to the k-th request of a batch. */
  datatype Outside = Outside(page: Option<seq<LedgerItem>>, attempt: Text, uses: seq<(GrantId, int)>, end: TurnEnd)

  datatype BatchReply = Silent | Single(response: Response) | Several(responses: seq<Response>)

  function Reply(responses: seq<Response>): BatchReply {
    if responses == [] then Silent else if |responses| == 1 then Single(responses[0]) else Several(responses)
  }

  /** One request after another, on one store. */
  method RunBatch(cfg: Config, store: ArenaStore<Response>, messages: seq<Message>, outside: nat -> Outside)
    returns (reply: BatchReply, ghost arrivals: seq<Arrival>)
    modifies store
    ensures |arrivals| == |Requests(messages)|
    ensures forall i | 0 <= i < |arrivals| ::
              arrivals[i].p == Requests(messages)[i] &&
              Outside(arrivals[i].env.page, arrivals[i].env.attempt, arrivals[i].env.uses, arrivals[i].env.end)
              == outside(i)
    ensures store.Contents() == Serve(cfg, old(store.Contents()), arrivals)
    ensures reply == Reply(Replies(cfg, old(store.Contents()), arrivals))
  {
    var requests := Requests(messages);
    arrivals := [];
    var responses := [];
    var i := 0;
    while i < |requests|
      invariant 0 <= i <= |requests| && |arrivals| == i
      invariant forall k | 0 <= k < i ::
                  arrivals[k].p == requests[k] &&
                  Outside(arrivals[k].env.page, arrivals[k].env.attempt, arrivals[k].env.uses, arrivals[k].env.end)
                  == outside(k)
      invariant store.Contents() == Serve(cfg, old(store.Contents()), arrivals)
      invariant responses == Replies(cfg, old(store.Contents()), arrivals)
    {
      var o := outside(i);
      var response, claim := ProcessRequest(cfg, store, requests[i], o.page, o.attempt, o.uses, o.end);
      ghost var next := arrivals + [Arrival(requests[i], Env(o.page, claim, o.attempt, o.uses, o.end))];
      assert next[..i] == arrivals;
      responses := responses + [response];
      arrivals := next;
      i := i + 1;
    }
    reply := Reply(responses);
  }
}
