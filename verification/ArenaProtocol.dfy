/**
 The paid protocol under interleaving: any number of workers, each at its own step, crashes between any two steps,
 redelivered messages, transfers appearing at any time, and a kernel that may be asked for any use of any grant.
 */
module ArenaProtocol {
  import opened Texts
  import opened Services
  import opened Grants
  import opened AuditLog
  import opened SharedNet
  import opened ArenaStore
  import opened ArenaService

  /** Where a worker stands: each phase ends with one atomic step on the store or the world. */
  datatype Phase =
    | Looking
    | Verifying
    | Claiming
    | Minting(attempt: Text, k: nat)
    | Turning(attempt: Text)
    | Saving(attempt: Text, end: TurnEnd)

  datatype Worker = Worker(p: Parsed, phase: Phase)

  datatype Canary = Canary(id: GrantId, seat: Text)

  /** The store, the workers and the ledger; and the history: requests seen, attempts begun, turns started, canaries
      sent. */
  datatype State = State(store: Store<Response>, workers: map<nat, Worker>, ledger: set<LedgerItem>,
                         arrived: set<Parsed>,
                         attempts: map<Text, Parsed>, executed: seq<Parsed>, canaries: seq<Canary>)

  /** What the world supplies to a step; only the part the phase asks for matters. */
  datatype Supply = Supply(page: Option<seq<LedgerItem>>, claim: Claim, attempt: Text, end: TurnEnd)

  datatype Action =
    | Arrive(w: nat, m: Message)
    | Crash(w: nat)
    | Transfer(item: LedgerItem)
    | Work(w: nat, supply: Supply)
    | Use(actor: Address, capability: Capability, id: GrantId)

  function Initial(): State {
    State(EmptyStore(), map[], {}, {}, map[], [], [])
  }

  function Gone(s: State, w: nat): State {
    s.(workers := s.workers - {w})
  }

  function Moved(s: State, w: nat, p: Parsed, phase: Phase): State {
    s.(workers := s.workers[w := Worker(p, phase)])
  }

  function LookStep(cfg: Config, s: State, w: nat, p: Parsed): State {
    if EarlyAnswer(cfg, s.store.responses, p).Some? then Gone(s, w) else Moved(s, w, p, Verifying)
  }

  /** The page holds transfers of the ledger. */
  function VerifyStep(cfg: Config, s: State, w: nat, p: Parsed, page: Option<seq<LedgerItem>>): State {
    if p.request.payment.None? || (page.Some? && exists i :: i in page.value && i !in s.ledger) then s
    else if PaymentAnswer(cfg, p, page).Some? then Gone(s, w)
    else Moved(s, w, p, Claiming)
  }

  /** The attempt's UUID is new. */
  ghost function ClaimStep(cfg: Config, s: State, w: nat, p: Parsed, claim: Claim, attempt: Text): State {
    if p.request.payment.None? || !ClaimMay(s.store.payments, RowFor(cfg, p), claim) || attempt in s.attempts then s
    else if claim.Conflict? then Gone(s, w)
    else
      Moved(s, w, p, Minting(attempt, 0))
        .(store := s.store.(payments := AfterClaim(s.store.payments, RowFor(cfg, p), claim)),
          attempts := s.attempts[attempt := p])
  }

  function MintStep(cfg: Config, s: State, w: nat, p: Parsed, attempt: Text, k: nat): State {
    var minted := AttemptGrants(cfg, p, attempt);
    if k < |minted| then
      Moved(s, w, p, Minting(attempt, k + 1))
        .(store := s.store.(grants := s.store.grants[(cfg.namespace, minted[k].id) := minted[k]]))
    else Moved(s, w, p, Turning(attempt)).(executed := s.executed + [p])
  }

  function SaveStep(cfg: Config, s: State, w: nat, p: Parsed, end: TurnEnd): State {
    if p.request.payment.None? then s
    else Gone(s, w).(store := s.store.(responses := AfterTurn(cfg, s.store.responses, p, end)))
  }

  ghost function WorkStep(cfg: Config, s: State, w: nat, supply: Supply): State
    requires w in s.workers
  {
    var p := s.workers[w].p;
    match s.workers[w].phase
    case Looking => LookStep(cfg, s, w, p)
    case Verifying => VerifyStep(cfg, s, w, p, supply.page)
    case Claiming => ClaimStep(cfg, s, w, p, supply.claim, supply.attempt)
    case Minting(attempt, k) => MintStep(cfg, s, w, p, attempt, k)
    case Turning(attempt) => Moved(s, w, p, Saving(attempt, supply.end))
    case Saving(_, end) => SaveStep(cfg, s, w, p, end)
  }

  function Noted(s: State, capability: Capability, id: GrantId): State {
    match capability
    case SendTo(Seller(seat)) => s.(canaries := s.canaries + [Canary(id, seat)])
    case _ => s
  }

  /** The grant that would be used is stored, and loads for this actor. */
  predicate Holds(cfg: Config, s: State, actor: Address, capability: Capability, id: GrantId) {
    var key := (cfg.namespace, id);
    key in s.store.grants && s.store.grants[key].subject == actor && s.store.grants[key].issuer == cfg.owner
    && s.store.grants[key].capability == capability
  }

  /** What is held is exactly what the store loads under that id. */
  lemma HeldIsLoaded(cfg: Config, s: State, actor: Address, capability: Capability, id: GrantId)
    requires forall k | k in s.store.grants :: s.store.grants[k].id == k.1
    ensures Holds(cfg, s, actor, capability, id) <==>
            exists g :: g in Loaded(s.store.grants, cfg.namespace, actor, cfg.owner) && g.id == id
              && g.capability == capability
  {
    if g :| g in Loaded(s.store.grants, cfg.namespace, actor, cfg.owner) && g.id == id && g.capability == capability {
      var k :| k in s.store.grants && k.0 == cfg.namespace && s.store.grants[k] == g && g.subject == actor
          && g.issuer == cfg.owner;
      assert k == (cfg.namespace, id);
    }
  }

  predicate Unused(cfg: Config, s: State, id: GrantId) {
    var key := (cfg.namespace, id);
    key in s.store.grants &&
    match s.store.grants[key].maxUses
    case None => true
    case Some(maximum) => key in s.store.usage ==> s.store.usage[key] < maximum
  }

  /** The kernel says yes; a first use is not measured against the maximum. */
  predicate Allowed(cfg: Config, s: State, actor: Address, capability: Capability, id: GrantId) {
    Holds(cfg, s, actor, capability, id) && Unused(cfg, s, id)
  }

  /** The kernel's contract: a use is allowed only by a stored grant that matches it exactly, and is counted. */
  function UseStep(cfg: Config, s: State, actor: Address, capability: Capability, id: GrantId): State {
    var key := (cfg.namespace, id);
    if !Holds(cfg, s, actor, capability, id) then s
    else if s.store.grants[key].maxUses.None? then Noted(s, capability, id)
    else
      var before := if key in s.store.usage then Some(s.store.usage[key]) else None;
      var (used, ok) := Consumed(before, s.store.grants[key].maxUses.value);
      var t := s.(store := s.store.(usage := s.store.usage[key := used.value]));
      if ok then Noted(t, capability, id) else t
  }

  /** Any action in any state; one that does not apply changes nothing. */
  ghost function Apply(cfg: Config, s: State, a: Action): State {
    match a
    case Arrive(w, m) =>
      if w in s.workers || ParseRequest(m).None? then s
      else Moved(s, w, ParseRequest(m).value, Looking).(arrived := s.arrived + {ParseRequest(m).value})
    case Crash(w) => Gone(s, w)
    case Transfer(item) => s.(ledger := s.ledger + {item})
    case Work(w, supply) => if w in s.workers then WorkStep(cfg, s, w, supply) else s
    case Use(actor, capability, id) => UseStep(cfg, s, actor, capability, id)
  }

  ghost function Run(cfg: Config, actions: seq<Action>): State {
    if actions == [] then Initial() else Apply(cfg, Run(cfg, actions[..|actions| - 1]), actions[|actions| - 1])
  }

  // ---------- what every state keeps ----------

  /** `i` is a transfer that pays for `p`: its id, seat, payee, room and price. */
  predicate Pays(cfg: Config, p: Parsed, i: LedgerItem) {
    p.request.payment.Some? && LedgerPaymentMatches(Some(i), ExpectedPayment(cfg, p))
  }

  /** A claimed row stands for a request that arrived and a transfer that paid for it. */
  predicate Backs(cfg: Config, row: Payment, q: Parsed, i: LedgerItem) {
    && Pays(cfg, q, i) && q.request.payment == Some(row.txn) && q.request.id == row.request
    && Fingerprint(cfg.hash, q) == row.fingerprint && row.service == q.request.service
    && row.amount == Price(q.request.service)
  }

  ghost predicate RowPaid(cfg: Config, s: State, row: Payment) {
    exists q, i :: q in s.arrived && i in s.ledger && Backs(cfg, row, q, i)
  }

  ghost predicate HasClaim(cfg: Config, s: State, p: Parsed) {
    p in s.arrived && HasRow(s.store.payments, p.request.id, Fingerprint(cfg.hash, p))
  }

  ghost predicate PaidBySome(cfg: Config, s: State, p: Parsed) {
    exists i :: i in s.ledger && Pays(cfg, p, i)
  }

  ghost predicate Begun(cfg: Config, s: State, p: Parsed, attempt: Text) {
    HasClaim(cfg, s, p) && attempt in s.attempts && s.attempts[attempt] == p
  }

  ghost predicate WorkerOk(cfg: Config, s: State, worker: Worker) {
    worker.p in s.arrived &&
    match worker.phase
    case Looking => true
    case Verifying => ValidInput(worker.p.request)
    case Claiming => ValidInput(worker.p.request) && PaidBySome(cfg, s, worker.p)
    case Minting(attempt, _) => Begun(cfg, s, worker.p, attempt)
    case Turning(attempt) => Begun(cfg, s, worker.p, attempt) && worker.p in s.executed
    case Saving(attempt, _) => Begun(cfg, s, worker.p, attempt) && worker.p in s.executed
  }

  predicate GrantFits(cfg: Config, attempts: map<Text, Parsed>, id: GrantId, g: Grant) {
    match id
    case RouterService(service) => g == RouterServiceGrant(cfg.owner, service)
    case RouterExec(a) => a in attempts && g == RouterExecutionGrant(cfg.owner, a)
    case RouterProbe(a) => a in attempts && g == RouterProbeMessageGrant(cfg.owner, a)
    case ProbeExec(a) => a in attempts && g == ProbeExecutionGrant(cfg.owner, a)
    case ProbeTarget(a) =>
      a in attempts && attempts[a].request.service.TrustSnapshot?
      && g == ProbeMessageGrant(cfg.owner, a, Target(attempts[a]))
  }

  ghost predicate GrantsOk(cfg: Config, s: State) {
    forall k | k in s.store.grants :: k.0 == cfg.namespace && GrantFits(cfg, s.attempts, k.1, s.store.grants[k])
  }

  ghost predicate UsageOk(s: State) {
    forall k | k in s.store.usage :: k in s.store.grants && s.store.grants[k].maxUses == Some(1)
      && s.store.usage[k] == 1
  }

  predicate CanaryOk(cfg: Config, s: State, c: Canary) {
    c.id.ProbeTarget? && (cfg.namespace, c.id) in s.store.usage && c.id.attempt in s.attempts
    && c.seat == Target(s.attempts[c.id.attempt])
  }

  ghost predicate CanariesOk(cfg: Config, s: State) {
    && (forall c | c in s.canaries :: CanaryOk(cfg, s, c))
    && forall i, j | 0 <= i < j < |s.canaries| :: s.canaries[i].id != s.canaries[j].id
  }

  ghost predicate PaymentsOk(cfg: Config, s: State) {
    RowsUnique(s.store.payments) && forall row | row in s.store.payments :: RowPaid(cfg, s, row)
  }

  ghost predicate HistoryOk(cfg: Config, s: State) {
    && (forall p | p in s.arrived :: WellParsed(p))
    && (forall p | p in s.executed :: HasClaim(cfg, s, p))
    && (forall a | a in s.attempts :: HasClaim(cfg, s, s.attempts[a]) && ValidInput(s.attempts[a].request))
  }

  ghost predicate WorkersOk(cfg: Config, s: State) {
    forall w | w in s.workers :: WorkerOk(cfg, s, s.workers[w])
  }

  ghost predicate Inv(cfg: Config, s: State) {
    PaymentsOk(cfg, s) && HistoryOk(cfg, s) && WorkersOk(cfg, s) && GrantsOk(cfg, s) && UsageOk(s) && CanariesOk(cfg, s)
  }

  // ---------- facts only accumulate ----------

  ghost predicate Extends(a: map<Text, Parsed>, b: map<Text, Parsed>) {
    forall k | k in a :: k in b && b[k] == a[k]
  }

  ghost predicate Grows(s: State, t: State) {
    && s.arrived <= t.arrived && s.ledger <= t.ledger && s.store.payments <= t.store.payments
    && Extends(s.attempts, t.attempts)
    && s.executed <= t.executed
  }

  lemma ClaimedStays(cfg: Config, s: State, t: State, p: Parsed)
    requires Grows(s, t) && HasClaim(cfg, s, p)
    ensures HasClaim(cfg, t, p)
  {
    var k :| 0 <= k < |s.store.payments| && s.store.payments[k].request == p.request.id &&
             s.store.payments[k].fingerprint == Fingerprint(cfg.hash, p);
    assert t.store.payments[k] == s.store.payments[k];
  }

  lemma RowPaidStays(cfg: Config, s: State, t: State, row: Payment)
    requires Grows(s, t) && RowPaid(cfg, s, row)
    ensures RowPaid(cfg, t, row)
  {
    var q, i :| q in s.arrived && i in s.ledger && Backs(cfg, row, q, i);
    assert q in t.arrived && i in t.ledger;
  }

  lemma WorkerStays(cfg: Config, s: State, t: State, worker: Worker)
    requires Grows(s, t) && WorkerOk(cfg, s, worker)
    ensures WorkerOk(cfg, t, worker)
  {
    match worker.phase
    case Looking =>
    case Verifying =>
    case Claiming =>
      var i :| i in s.ledger && Pays(cfg, worker.p, i);
      assert i in t.ledger;
    case Minting(_, _) => ClaimedStays(cfg, s, t, worker.p);
    case Turning(_) => ClaimedStays(cfg, s, t, worker.p);
    case Saving(_, _) => ClaimedStays(cfg, s, t, worker.p);
  }

  lemma PaymentsStay(cfg: Config, s: State, t: State)
    requires Grows(s, t) && PaymentsOk(cfg, s) && t.store.payments == s.store.payments
    ensures PaymentsOk(cfg, t)
  {
    forall row | row in t.store.payments
      ensures RowPaid(cfg, t, row)
    {
      RowPaidStays(cfg, s, t, row);
    }
  }

  lemma HistoryStays(cfg: Config, s: State, t: State)
    requires Grows(s, t) && HistoryOk(cfg, s)
    requires forall p | p in t.arrived :: p in s.arrived || WellParsed(p)
    requires forall p | p in t.executed :: p in s.executed || HasClaim(cfg, t, p)
    requires forall a | a in t.attempts :: a in s.attempts
               || (HasClaim(cfg, t, t.attempts[a]) && ValidInput(t.attempts[a].request))
    ensures HistoryOk(cfg, t)
  {
    forall p | HasClaim(cfg, s, p)
      ensures HasClaim(cfg, t, p)
    {
      ClaimedStays(cfg, s, t, p);
    }
  }

  lemma WorkersStay(cfg: Config, s: State, t: State)
    requires Grows(s, t) && WorkersOk(cfg, s)
    requires forall v | v in t.workers :: (v in s.workers && t.workers[v] == s.workers[v])
               || WorkerOk(cfg, t, t.workers[v])
    ensures WorkersOk(cfg, t)
  {
    forall v | v in t.workers
      ensures WorkerOk(cfg, t, t.workers[v])
    {
      if v in s.workers && t.workers[v] == s.workers[v] {
        WorkerStays(cfg, s, t, s.workers[v]);
      }
    }
  }

  ghost predicate SameAuthority(s: State, t: State) {
    s.store.grants == t.store.grants && s.store.usage == t.store.usage && s.canaries == t.canaries
  }

  lemma AuthorityStays(cfg: Config, s: State, t: State)
    requires SameAuthority(s, t) && Extends(s.attempts, t.attempts) && GrantsOk(cfg, s) && UsageOk(s)
             && CanariesOk(cfg, s)
    ensures GrantsOk(cfg, t) && UsageOk(t) && CanariesOk(cfg, t)
  {
    forall k | k in t.store.grants
      ensures GrantFits(cfg, t.attempts, k.1, t.store.grants[k])
    {
      assert GrantFits(cfg, s.attempts, k.1, s.store.grants[k]);
    }
    forall c | c in t.canaries
      ensures CanaryOk(cfg, t, c)
    {
      assert CanaryOk(cfg, s, c);
    }
  }

  /** A step that adds no payment row and touches no grant. */
  lemma QuietStep(cfg: Config, s: State, t: State)
    requires Inv(cfg, s) && Grows(s, t) && SameAuthority(s, t)
    requires t.store.payments == s.store.payments && t.attempts == s.attempts
    requires forall p | p in t.arrived :: p in s.arrived || WellParsed(p)
    requires forall p | p in t.executed :: p in s.executed || HasClaim(cfg, t, p)
    requires forall v | v in t.workers :: (v in s.workers && t.workers[v] == s.workers[v])
               || WorkerOk(cfg, t, t.workers[v])
    ensures Inv(cfg, t)
  {
    PaymentsStay(cfg, s, t);
    HistoryStays(cfg, s, t);
    WorkersStay(cfg, s, t);
    AuthorityStays(cfg, s, t);
  }

  /** A step of worker `w` on a claimed request. */
  lemma StepKeeps(cfg: Config, s: State, t: State, w: nat, p: Parsed, phase: Phase)
    requires Inv(cfg, s) && Grows(s, t) && PaymentsOk(cfg, t) && GrantsOk(cfg, t) && UsageOk(t) && CanariesOk(cfg, t)
    requires t.workers == s.workers[w := Worker(p, phase)] && WorkerOk(cfg, t, Worker(p, phase)) && HasClaim(cfg, t, p)
    requires t.arrived == s.arrived && (t.executed == s.executed || t.executed == s.executed + [p])
    requires forall a | a in t.attempts :: a in s.attempts || (t.attempts[a] == p && ValidInput(p.request))
    ensures Inv(cfg, t)
  {
    HistoryStays(cfg, s, t);
    WorkersStay(cfg, s, t);
  }

  lemma ArriveKeeps(cfg: Config, s: State, w: nat, m: Message)
    requires Inv(cfg, s)
    ensures Inv(cfg, Apply(cfg, s, Arrive(w, m)))
  {
    if w !in s.workers && ParseRequest(m).Some? {
      ParseWellFormed(m);
      QuietStep(cfg, s, Apply(cfg, s, Arrive(w, m)));
    }
  }

  lemma MoveKeeps(cfg: Config, s: State, w: nat, p: Parsed, phase: Phase)
    requires Inv(cfg, s) && WorkerOk(cfg, s, Worker(p, phase))
    ensures Inv(cfg, Moved(s, w, p, phase))
  {
    var t := Moved(s, w, p, phase);
    WorkerStays(cfg, s, t, Worker(p, phase));
    QuietStep(cfg, s, t);
  }

  lemma EndOk(cfg: Config, s: State, p: Parsed, attempt: Text, end: TurnEnd)
    requires WorkerOk(cfg, s, Worker(p, Turning(attempt)))
    ensures WorkerOk(cfg, s, Worker(p, Saving(attempt, end)))
  {
  }

  lemma GoneKeeps(cfg: Config, s: State, w: nat)
    requires Inv(cfg, s)
    ensures Inv(cfg, Gone(s, w))
  {
    QuietStep(cfg, s, Gone(s, w));
  }

  lemma TransferKeeps(cfg: Config, s: State, item: LedgerItem)
    requires Inv(cfg, s)
    ensures Inv(cfg, s.(ledger := s.ledger + {item}))
  {
    QuietStep(cfg, s, s.(ledger := s.ledger + {item}));
  }

  /** A request that reaches the ledger has valid input and names a transfer. */
  lemma PastTheCache(cfg: Config, responses: map<Text, Saved<Response>>, p: Parsed)
    requires EarlyAnswer(cfg, responses, p).None?
    ensures ValidInput(p.request) && p.request.payment.Some? && p.request.id !in responses
  {
  }

  /** A verified payment is a transfer on the page. */
  lemma VerifiedPays(cfg: Config, p: Parsed, page: Option<seq<LedgerItem>>)
    requires p.request.payment.Some? && PaymentAnswer(cfg, p, page).None?
    ensures page.Some? && exists i :: i in page.value && Pays(cfg, p, i)
  {
    FindFirst(page.value, p.request.payment.value);
    var i := Find(page.value, p.request.payment.value).value;
    assert i in page.value && Pays(cfg, p, i);
  }

  lemma LookKeeps(cfg: Config, s: State, w: nat, p: Parsed)
    requires Inv(cfg, s) && w in s.workers && s.workers[w] == Worker(p, Looking)
    ensures Inv(cfg, LookStep(cfg, s, w, p))
  {
    assert WorkerOk(cfg, s, s.workers[w]);
    if EarlyAnswer(cfg, s.store.responses, p).Some? {
      GoneKeeps(cfg, s, w);
    } else {
      PastTheCache(cfg, s.store.responses, p);
      MoveKeeps(cfg, s, w, p, Verifying);
    }
  }

  lemma VerifiedHere(cfg: Config, s: State, p: Parsed, page: seq<LedgerItem>)
    requires p.request.payment.Some? && PaymentAnswer(cfg, p, Some(page)).None? && forall i | i in page :: i in s.ledger
    ensures PaidBySome(cfg, s, p)
  {
    VerifiedPays(cfg, p, Some(page));
  }

  lemma VerifyKeeps(cfg: Config, s: State, w: nat, p: Parsed, page: Option<seq<LedgerItem>>)
    requires Inv(cfg, s) && w in s.workers && s.workers[w] == Worker(p, Verifying)
    ensures Inv(cfg, VerifyStep(cfg, s, w, p, page))
  {
    assert WorkerOk(cfg, s, s.workers[w]);
    if p.request.payment.None? || (page.Some? && exists i :: i in page.value && i !in s.ledger) {
    } else if PaymentAnswer(cfg, p, page).Some? {
      GoneKeeps(cfg, s, w);
    } else {
      VerifiedHere(cfg, s, p, page.value);
      MoveKeeps(cfg, s, w, p, Claiming);
    }
  }

  /** The claimed row is backed by the claimant itself. */
  lemma NewRowPaid(cfg: Config, s: State, p: Parsed)
    requires p in s.arrived && p.request.payment.Some? && PaidBySome(cfg, s, p)
    ensures RowPaid(cfg, s, RowFor(cfg, p))
  {
    var i :| i in s.ledger && Pays(cfg, p, i);
    assert Backs(cfg, RowFor(cfg, p), p, i);
  }

  lemma ClaimedPayments(cfg: Config, s: State, t: State, p: Parsed, claim: Claim)
    requires PaymentsOk(cfg, s) && Grows(s, t) && p in s.arrived && p.request.payment.Some? && PaidBySome(cfg, s, p)
    requires ClaimMay(s.store.payments, RowFor(cfg, p), claim) && !claim.Conflict?
    requires t.store.payments == AfterClaim(s.store.payments, RowFor(cfg, p), claim)
    ensures PaymentsOk(cfg, t) && HasClaim(cfg, t, p)
  {
    ClaimKeepsRows(s.store.payments, RowFor(cfg, p), claim);
    NewRowPaid(cfg, s, p);
    forall row | row in t.store.payments
      ensures RowPaid(cfg, t, row)
    {
      RowPaidStays(cfg, s, t, row);
    }
  }

  /** The state after a passed claim, part by part. */
  lemma ClaimParts(cfg: Config, s: State, t: State, w: nat, p: Parsed, claim: Claim, attempt: Text)
    requires p in s.arrived && p.request.payment.Some? && PaymentsOk(cfg, s) && PaidBySome(cfg, s, p)
    requires ClaimMay(s.store.payments, RowFor(cfg, p), claim) && !claim.Conflict? && attempt !in s.attempts
    requires t == ClaimStep(cfg, s, w, p, claim, attempt)
    ensures Grows(s, t) && SameAuthority(s, t) && PaymentsOk(cfg, t) && HasClaim(cfg, t, p)
    ensures t.workers == s.workers[w := Worker(p, Minting(attempt, 0))] && t.attempts == s.attempts[attempt := p]
    ensures t.arrived == s.arrived && t.executed == s.executed
  {
    ClaimKeepsRows(s.store.payments, RowFor(cfg, p), claim);
    assert Grows(s, t);
    ClaimedPayments(cfg, s, t, p, claim);
  }

  lemma ClaimPasses(cfg: Config, s: State, w: nat, p: Parsed, claim: Claim, attempt: Text)
    requires Inv(cfg, s) && p in s.arrived && ValidInput(p.request) && p.request.payment.Some? && PaidBySome(cfg, s, p)
    requires ClaimMay(s.store.payments, RowFor(cfg, p), claim) && !claim.Conflict? && attempt !in s.attempts
    ensures Inv(cfg, ClaimStep(cfg, s, w, p, claim, attempt))
  {
    var t := ClaimStep(cfg, s, w, p, claim, attempt);
    ClaimParts(cfg, s, t, w, p, claim, attempt);
    AuthorityStays(cfg, s, t);
    StepKeeps(cfg, s, t, w, p, Minting(attempt, 0));
  }

  lemma ClaimKeeps(cfg: Config, s: State, w: nat, p: Parsed, claim: Claim, attempt: Text)
    requires Inv(cfg, s) && w in s.workers && s.workers[w] == Worker(p, Claiming)
    ensures Inv(cfg, ClaimStep(cfg, s, w, p, claim, attempt))
  {
    assert WorkerOk(cfg, s, s.workers[w]);
    if p.request.payment.None? || !ClaimMay(s.store.payments, RowFor(cfg, p), claim) || attempt in s.attempts {
    } else if claim.Conflict? {
      GoneKeeps(cfg, s, w);
    } else {
      ClaimPasses(cfg, s, w, p, claim, attempt);
    }
  }

  // ---------- grants and uses ----------

  /** The grants minted for an attempt are the ones its ids stand for. */
  lemma MintedFit(cfg: Config, attempts: map<Text, Parsed>, p: Parsed, attempt: Text, k: nat)
    requires attempt in attempts && attempts[attempt] == p && k < |AttemptGrants(cfg, p, attempt)|
    ensures var g := AttemptGrants(cfg, p, attempt)[k]; GrantFits(cfg, attempts, g.id, g)
  {
  }

  /** What an id stands for is fixed, so storing it again changes nothing. */
  lemma FitUnique(cfg: Config, attempts: map<Text, Parsed>, id: GrantId, g: Grant, h: Grant)
    requires GrantFits(cfg, attempts, id, g) && GrantFits(cfg, attempts, id, h)
    ensures g == h
  {
  }

  lemma MintAuthority(cfg: Config, s: State, t: State, g: Grant)
    requires GrantsOk(cfg, s) && UsageOk(s) && CanariesOk(cfg, s) && GrantFits(cfg, s.attempts, g.id, g)
    requires t.store.grants == s.store.grants[(cfg.namespace, g.id) := g] && t.store.usage == s.store.usage
    requires t.attempts == s.attempts && t.canaries == s.canaries
    ensures GrantsOk(cfg, t) && UsageOk(t) && CanariesOk(cfg, t)
  {
    var key := (cfg.namespace, g.id);
    if key in s.store.grants {
      FitUnique(cfg, s.attempts, g.id, s.store.grants[key], g);
    }
    forall c | c in t.canaries
      ensures CanaryOk(cfg, t, c)
    {
      assert CanaryOk(cfg, s, c);
    }
  }

  lemma MintGrantKeeps(cfg: Config, s: State, w: nat, p: Parsed, attempt: Text, k: nat)
    requires Inv(cfg, s) && w in s.workers && s.workers[w] == Worker(p, Minting(attempt, k))
             && k < |AttemptGrants(cfg, p, attempt)|
    ensures Inv(cfg, MintStep(cfg, s, w, p, attempt, k))
  {
    var t := MintStep(cfg, s, w, p, attempt, k);
    assert WorkerOk(cfg, s, s.workers[w]);
    MintedFit(cfg, s.attempts, p, attempt, k);
    MintAuthority(cfg, s, t, AttemptGrants(cfg, p, attempt)[k]);
    PaymentsStay(cfg, s, t);
    ClaimedStays(cfg, s, t, p);
    StepKeeps(cfg, s, t, w, p, Minting(attempt, k + 1));
  }

  lemma StartTurnKeeps(cfg: Config, s: State, w: nat, p: Parsed, attempt: Text, k: nat)
    requires Inv(cfg, s) && w in s.workers && s.workers[w] == Worker(p, Minting(attempt, k))
             && k >= |AttemptGrants(cfg, p, attempt)|
    ensures Inv(cfg, MintStep(cfg, s, w, p, attempt, k))
  {
    assert WorkerOk(cfg, s, s.workers[w]);
    var t := MintStep(cfg, s, w, p, attempt, k);
    PaymentsStay(cfg, s, t);
    ClaimedStays(cfg, s, t, p);
    AuthorityStays(cfg, s, t);
    StepKeeps(cfg, s, t, w, p, Turning(attempt));
  }

  lemma EndTurnKeeps(cfg: Config, s: State, w: nat, p: Parsed, attempt: Text, end: TurnEnd)
    requires Inv(cfg, s) && w in s.workers && s.workers[w] == Worker(p, Turning(attempt))
    ensures Inv(cfg, Moved(s, w, p, Saving(attempt, end)))
  {
    assert WorkerOk(cfg, s, s.workers[w]);
    EndOk(cfg, s, p, attempt, end);
    MoveKeeps(cfg, s, w, p, Saving(attempt, end));
  }

  lemma SaveKeeps(cfg: Config, s: State, w: nat, p: Parsed, end: TurnEnd)
    requires Inv(cfg, s)
    ensures Inv(cfg, SaveStep(cfg, s, w, p, end))
  {
    QuietStep(cfg, s, SaveStep(cfg, s, w, p, end));
  }

  lemma WorkKeeps(cfg: Config, s: State, w: nat, supply: Supply)
    requires Inv(cfg, s) && w in s.workers
    ensures Inv(cfg, WorkStep(cfg, s, w, supply))
  {
    var p := s.workers[w].p;
    match s.workers[w].phase
    case Looking => LookKeeps(cfg, s, w, p);
    case Verifying => VerifyKeeps(cfg, s, w, p, supply.page);
    case Claiming => ClaimKeeps(cfg, s, w, p, supply.claim, supply.attempt);
    case Minting(attempt, k) =>
      if k < |AttemptGrants(cfg, p, attempt)| {
        MintGrantKeeps(cfg, s, w, p, attempt, k);
      } else {
        StartTurnKeeps(cfg, s, w, p, attempt, k);
      }
    case Turning(attempt) => EndTurnKeeps(cfg, s, w, p, attempt, supply.end);
    case Saving(_, end) => SaveKeeps(cfg, s, w, p, end);
  }

  /** Only a Probe-target grant lets a message reach a seller, and only the Probe holds one. */
  lemma SellerGrant(cfg: Config, attempts: map<Text, Parsed>, id: GrantId, g: Grant)
    requires GrantFits(cfg, attempts, id, g) && g.capability.SendTo? && g.capability.recipient.Seller?
    ensures id.ProbeTarget? && g.subject == PROBE && id.attempt in attempts && g.maxUses == Some(1)
    ensures g.capability.recipient.seat == Target(attempts[id.attempt])
            && attempts[id.attempt].request.service.TrustSnapshot?
  {
  }

  /** A counted use: the counter is now one. */
  lemma CountedUse(cfg: Config, s: State, t: State, id: GrantId)
    requires GrantsOk(cfg, s) && UsageOk(s) && CanariesOk(cfg, s)
    requires var key := (cfg.namespace, id);
             && key in s.store.grants && s.store.grants[key].maxUses == Some(1)
             && t == s.(store := s.store.(usage := s.store.usage[key := 1]))
    ensures GrantsOk(cfg, t) && UsageOk(t) && CanariesOk(cfg, t)
  {
    forall c | c in t.canaries
      ensures CanaryOk(cfg, t, c)
    {
      assert CanaryOk(cfg, s, c);
    }
  }

  /** A canary noted at the first use of its ticket is a new one. */
  lemma NotedCanary(cfg: Config, s: State, t: State, id: GrantId, seat: Text)
    requires CanariesOk(cfg, s) && CanariesOk(cfg, t) && CanaryOk(cfg, t, Canary(id, seat))
             && (cfg.namespace, id) !in s.store.usage
    requires t.canaries == s.canaries
    ensures CanariesOk(cfg, t.(canaries := t.canaries + [Canary(id, seat)]))
  {
    var u := t.(canaries := t.canaries + [Canary(id, seat)]);
    forall c | c in u.canaries
      ensures CanaryOk(cfg, u, c)
    {
      assert CanaryOk(cfg, t, c);
    }
    forall i | 0 <= i < |s.canaries|
      ensures s.canaries[i].id != id
    {
      assert CanaryOk(cfg, s, s.canaries[i]);
    }
  }

  lemma FitLimits(cfg: Config, attempts: map<Text, Parsed>, id: GrantId, g: Grant)
    requires GrantFits(cfg, attempts, id, g)
    ensures g.maxUses == None || g.maxUses == Some(1)
    ensures g.maxUses == None ==> g.capability.Invoke?
  {
  }

  lemma UseKeepsAuthority(cfg: Config, s: State, actor: Address, capability: Capability, id: GrantId)
    requires GrantsOk(cfg, s) && UsageOk(s) && CanariesOk(cfg, s)
    ensures var t := UseStep(cfg, s, actor, capability, id); GrantsOk(cfg, t) && UsageOk(t) && CanariesOk(cfg, t)
  {
    var key := (cfg.namespace, id);
    if key in s.store.grants && s.store.grants[key].capability == capability {
      FitLimits(cfg, s.attempts, id, s.store.grants[key]);
      if s.store.grants[key].maxUses.Some? {
        var t := s.(store := s.store.(usage := s.store.usage[key := 1]));
        CountedUse(cfg, s, t, id);
        if key !in s.store.usage && capability.SendTo? && capability.recipient.Seller? {
          SellerGrant(cfg, s.attempts, id, s.store.grants[key]);
          NotedCanary(cfg, s, t, id, capability.recipient.seat);
        }
      }
    }
  }

  lemma UseTouches(cfg: Config, s: State, actor: Address, capability: Capability, id: GrantId)
    ensures var t := UseStep(cfg, s, actor, capability, id);
            && t.store.payments == s.store.payments && t.store.responses == s.store.responses
            && t.store.grants == s.store.grants
            && t.workers == s.workers && t.ledger == s.ledger && t.arrived == s.arrived
            && t.attempts == s.attempts && t.executed == s.executed
  {
  }

  lemma UseKeeps(cfg: Config, s: State, actor: Address, capability: Capability, id: GrantId)
    requires Inv(cfg, s)
    ensures Inv(cfg, UseStep(cfg, s, actor, capability, id))
  {
    var t := UseStep(cfg, s, actor, capability, id);
    UseTouches(cfg, s, actor, capability, id);
    UseKeepsAuthority(cfg, s, actor, capability, id);
    PaymentsStay(cfg, s, t);
    HistoryStays(cfg, s, t);
    WorkersStay(cfg, s, t);
  }

  lemma ApplyKeeps(cfg: Config, s: State, a: Action)
    requires Inv(cfg, s)
    ensures Inv(cfg, Apply(cfg, s, a))
  {
    match a
    case Arrive(w, m) => ArriveKeeps(cfg, s, w, m);
    case Crash(w) => GoneKeeps(cfg, s, w);
    case Transfer(item) => TransferKeeps(cfg, s, item);
    case Work(w, supply) =>
      if w in s.workers {
        WorkKeeps(cfg, s, w, supply);
      }
    case Use(actor, capability, id) => UseKeeps(cfg, s, actor, capability, id);
  }

  /** Every state of every run keeps the invariant. */
  lemma {:induction false} Safe(cfg: Config, actions: seq<Action>)
    ensures Inv(cfg, Run(cfg, actions))
  {
    if actions == [] {
    } else {
      var n := |actions| - 1;
      Safe(cfg, actions[..n]);
      ApplyKeeps(cfg, Run(cfg, actions[..n]), actions[n]);
    }
  }

  // ---------- payment safety ----------

  ghost predicate FingerprintsCollide(cfg: Config, s: State) {
    exists a, b :: a in s.arrived && b in s.arrived
      && Collision(cfg.hash, FingerprintMaterial(a), FingerprintMaterial(b))
  }

  /** Requests with one fingerprint are the same request, or their texts collide. */
  lemma FingerprintDecides(cfg: Config, s: State, a: Parsed, b: Parsed)
    requires HistoryOk(cfg, s) && a in s.arrived && b in s.arrived
             && Fingerprint(cfg.hash, a) == Fingerprint(cfg.hash, b)
    ensures FingerprintsCollide(cfg, s) || SameAsk(a, b)
  {
    if FingerprintMaterial(a) == FingerprintMaterial(b) {
      FingerprintBinds(a, b);
    } else {
      assert Collision(cfg.hash, FingerprintMaterial(a), FingerprintMaterial(b));
    }
  }

  /** The row of an executed request, the arrival that claimed it and the transfer that paid. */
  ghost predicate PaidBy(cfg: Config, s: State, p: Parsed, row: Payment, q: Parsed, i: LedgerItem) {
    && row in s.store.payments && row.request == p.request.id && row.fingerprint == Fingerprint(cfg.hash, p)
    && q in s.arrived && i in s.ledger && Backs(cfg, row, q, i)
  }

  lemma RowOfClaim(cfg: Config, s: State, p: Parsed) returns (row: Payment, q: Parsed, i: LedgerItem)
    requires PaymentsOk(cfg, s) && HasClaim(cfg, s, p)
    ensures PaidBy(cfg, s, p, row, q, i)
  {
    var k :| 0 <= k < |s.store.payments| && s.store.payments[k].request == p.request.id &&
             s.store.payments[k].fingerprint == Fingerprint(cfg.hash, p);
    row := s.store.payments[k];
    assert row in s.store.payments;
    assert RowPaid(cfg, s, row);
    q, i :| q in s.arrived && i in s.ledger && Backs(cfg, row, q, i);
  }

  /** Over every run, each executed turn has a payment row under its id and fingerprint, whose transfer matched the
      seat, payee, price and room of an arrival that is the same request, unless fingerprints collide. */
  lemma ExecutedIsPaid(cfg: Config, actions: seq<Action>, p: Parsed)
    requires p in Run(cfg, actions).executed
    ensures var s := Run(cfg, actions);
            exists row, q, i :: PaidBy(cfg, s, p, row, q, i) && (FingerprintsCollide(cfg, s) || SameAsk(q, p))
  {
    var s := Run(cfg, actions);
    Safe(cfg, actions);
    var row, q, i := RowOfClaim(cfg, s, p);
    FingerprintDecides(cfg, s, q, p);
  }

  /** Rows map request ids one-to-one to transfers, in every state. */
  lemma RowsOneToOne(cfg: Config, actions: seq<Action>, a: Payment, b: Payment)
    requires var s := Run(cfg, actions); a in s.store.payments && b in s.store.payments
    ensures a.request == b.request <==> a.txn == b.txn
    ensures a.request == b.request <==> a == b
  {
    Safe(cfg, actions);
    RowsDiffer(Run(cfg, actions).store.payments, a, b);
  }

  lemma RowsDiffer(rows: seq<Payment>, a: Payment, b: Payment)
    requires RowsUnique(rows) && a in rows && b in rows
    ensures a.request == b.request || a.txn == b.txn ==> a == b
  {
    var i :| 0 <= i < |rows| && rows[i] == a;
    var j :| 0 <= j < |rows| && rows[j] == b;
  }

  // ---------- conservation ----------

  ghost function Sum<T(!new)>(xs: set<T>, weight: T -> real): real {
    if xs == {} then 0.0
    else
      var x :| x in xs;
      weight(x) + Sum(xs - {x}, weight)
  }

  lemma {:induction false} SumRemove<T(!new)>(xs: set<T>, weight: T -> real, x: T)
    requires x in xs
    ensures Sum(xs, weight) == weight(x) + Sum(xs - {x}, weight)
    decreases |xs|
  {
    var y :| y in xs && Sum(xs, weight) == weight(y) + Sum(xs - {y}, weight);
    if y == x {
    } else {
      SumRemove(xs - {y}, weight, x);
      SumRemove(xs - {x}, weight, y);
      assert xs - {y} - {x} == xs - {x} - {y};
    }
  }

  lemma {:induction false} SumNonNegative<T(!new)>(xs: set<T>, weight: T -> real)
    requires forall x | x in xs :: weight(x) >= 0.0
    ensures Sum(xs, weight) >= 0.0
    decreases |xs|
  {
    if xs == {} {
    } else {
      var x :| x in xs;
      SumRemove(xs, weight, x);
      SumNonNegative(xs - {x}, weight);
    }
  }

  /** An injection that does not lower weights does not lower sums. */
  lemma {:induction false} SumInjection<T(!new), U(!new)>(xs: set<T>, weight: T -> real, ys: set<U>, worth: U -> real,
                                                          f: T -> U)
    requires forall x | x in xs :: f(x) in ys && weight(x) <= worth(f(x))
    requires forall a, b | a in xs && b in xs && f(a) == f(b) :: a == b
    requires forall y | y in ys :: worth(y) >= 0.0
    ensures Sum(xs, weight) <= Sum(ys, worth)
    decreases |xs|
  {
    if x :| x in xs {
      SumRemove(xs, weight, x);
      SumRemove(ys, worth, f(x));
      SumInjection(xs - {x}, weight, ys - {f(x)}, worth, f);
    } else {
      SumNonNegative(ys, worth);
    }
  }

  type Ask = (Text, Service)

  /** The distinct executed requests, each with the service it was run for. */
  ghost function Executed(s: State): set<Ask> {
    set p | p in s.executed :: (p.request.id, p.request.service)
  }

  /** The distinct transfers that match some request that arrived. */
  ghost function Matching(cfg: Config, s: State): set<LedgerItem> {
    set i | i in s.ledger && exists q :: q in s.arrived && Pays(cfg, q, i)
  }

  function PriceOf(ask: Ask): real {
    if Price(ask.1).Some? then Price(ask.1).value as real else 0.0
  }

  function AmountOf(i: LedgerItem): real {
    if i.amount.Some? then i.amount.value else 0.0
  }

  ghost predicate Funds(cfg: Config, s: State, ask: Ask, i: LedgerItem) {
    exists row, q :: row in s.store.payments && q in s.arrived && i in s.ledger && Backs(cfg, row, q, i)
                     && row.request == ask.0 && q.request.service == ask.1
  }

  ghost function FundOf(cfg: Config, s: State, ask: Ask): LedgerItem {
    if exists i :: Funds(cfg, s, ask, i) then
      var i :| Funds(cfg, s, ask, i); i
    else LedgerItem(None, None, None, None, None, None)
  }

  lemma AskFunded(cfg: Config, s: State, p: Parsed)
    requires PaymentsOk(cfg, s) && HistoryOk(cfg, s) && p in s.executed && !FingerprintsCollide(cfg, s)
    ensures Funds(cfg, s, (p.request.id, p.request.service), FundOf(cfg, s, (p.request.id, p.request.service)))
  {
    var row, q, i := RowOfClaim(cfg, s, p);
    FingerprintDecides(cfg, s, q, p);
    assert Funds(cfg, s, (p.request.id, p.request.service), i);
  }

  lemma FundWorth(cfg: Config, s: State, ask: Ask, i: LedgerItem)
    requires Funds(cfg, s, ask, i)
    ensures i in Matching(cfg, s) && PriceOf(ask) == AmountOf(i)
  {
    var row, q :| row in s.store.payments && q in s.arrived && i in s.ledger && Backs(cfg, row, q, i)
                  && row.request == ask.0 && q.request.service == ask.1;
    assert Pays(cfg, q, i);
  }

  /** One transfer funds one request: its id names one row, its amount one service. */
  lemma FundInjective(cfg: Config, s: State, a: Ask, b: Ask, i: LedgerItem)
    requires PaymentsOk(cfg, s) && Funds(cfg, s, a, i) && Funds(cfg, s, b, i)
    ensures a == b
  {
    var row, q :| row in s.store.payments && q in s.arrived && i in s.ledger && Backs(cfg, row, q, i)
                  && row.request == a.0 && q.request.service == a.1;
    var row', q' :| row' in s.store.payments && q' in s.arrived && i in s.ledger && Backs(cfg, row', q', i)
                    && row'.request == b.0 && q'.request.service == b.1;
    RowsDiffer(s.store.payments, row, row');
    PriceDecidesService(q.request.service, q'.request.service);
  }

  lemma MatchingWorth(cfg: Config, s: State, i: LedgerItem)
    requires i in Matching(cfg, s)
    ensures AmountOf(i) >= 0.0
  {
    var q :| q in s.arrived && Pays(cfg, q, i);
  }

  /** Over every run, the total price of the distinct requests executed never exceeds the total of the distinct
      transfers that match a request, although memos are only searched and the claim query returns any row. */
  lemma Conservation(cfg: Config, actions: seq<Action>)
    ensures var s := Run(cfg, actions);
            FingerprintsCollide(cfg, s) || Sum(Executed(s), PriceOf) <= Sum(Matching(cfg, s), AmountOf)
  {
    var s := Run(cfg, actions);
    Safe(cfg, actions);
    if !FingerprintsCollide(cfg, s) {
      var f := (ask: Ask) => FundOf(cfg, s, ask);
      forall ask | ask in Executed(s)
        ensures Funds(cfg, s, ask, f(ask)) && f(ask) in Matching(cfg, s) && PriceOf(ask) <= AmountOf(f(ask))
      {
        var p :| p in s.executed && ask == (p.request.id, p.request.service);
        AskFunded(cfg, s, p);
        FundWorth(cfg, s, ask, f(ask));
      }
      forall a, b | a in Executed(s) && b in Executed(s) && f(a) == f(b)
        ensures a == b
      {
        FundInjective(cfg, s, a, b, f(a));
      }
      forall i | i in Matching(cfg, s)
        ensures AmountOf(i) >= 0.0
      {
        MatchingWorth(cfg, s, i);
      }
      SumInjection(Executed(s), PriceOf, Matching(cfg, s), AmountOf, f);
    }
  }

  // ---------- canaries and grants ----------

  function CanariesTo(canaries: seq<Canary>, seat: Text): nat {
    if canaries == [] then 0
    else CanariesTo(canaries[..|canaries| - 1], seat) + if canaries[|canaries| - 1].seat == seat then 1 else 0
  }

  /** The tickets minted for a seat: grants to message it. */
  ghost function Tickets(s: State, seat: Text): set<Key> {
    set k | k in s.store.grants && s.store.grants[k].capability == SendTo(Seller(seat))
  }

  /** The attempts whose paid request is a trust snapshot of the seat. */
  ghost function AttemptsNaming(s: State, seat: Text): set<Text> {
    set a | a in s.attempts && s.attempts[a].request.service.TrustSnapshot? && Target(s.attempts[a]) == seat
  }

  ghost function KeysUsed(cfg: Config, canaries: seq<Canary>, seat: Text): set<Key> {
    set c | c in canaries && c.seat == seat :: (cfg.namespace, c.id)
  }

  lemma {:induction false} DistinctCanaries(cfg: Config, canaries: seq<Canary>, seat: Text)
    requires forall i, j | 0 <= i < j < |canaries| :: canaries[i].id != canaries[j].id
    ensures CanariesTo(canaries, seat) == |KeysUsed(cfg, canaries, seat)|
  {
    if canaries == [] {
    } else {
      var n := |canaries| - 1;
      var front, last := canaries[..n], canaries[n];
      DistinctCanaries(cfg, front, seat);
      assert canaries == front + [last];
      if last.seat == seat {
        assert KeysUsed(cfg, canaries, seat) == KeysUsed(cfg, front, seat) + {(cfg.namespace, last.id)};
        assert (cfg.namespace, last.id) !in KeysUsed(cfg, front, seat);
      } else {
        assert KeysUsed(cfg, canaries, seat) == KeysUsed(cfg, front, seat);
      }
    }
  }

  lemma {:induction false} TicketKeys(cfg: Config, attempts: set<Text>)
    ensures |set a | a in attempts :: (cfg.namespace, ProbeTarget(a))| == |attempts|
    decreases |attempts|
  {
    var keys := set a | a in attempts :: (cfg.namespace, ProbeTarget(a));
    if x :| x in attempts {
      var rest := attempts - {x};
      TicketKeys(cfg, rest);
      var fewer := set a | a in rest :: (cfg.namespace, ProbeTarget(a));
      assert keys == fewer + {(cfg.namespace, ProbeTarget(x))};
    } else {
      assert keys == {};
    }
  }

  lemma UsedKeysAreTickets(cfg: Config, s: State, seat: Text)
    requires GrantsOk(cfg, s) && UsageOk(s) && CanariesOk(cfg, s)
    ensures KeysUsed(cfg, s.canaries, seat) <= Tickets(s, seat)
  {
    forall c | c in s.canaries && c.seat == seat
      ensures (cfg.namespace, c.id) in Tickets(s, seat)
    {
      assert CanaryOk(cfg, s, c);
    }
  }

  lemma TicketsAreAttempts(cfg: Config, s: State, seat: Text)
    requires GrantsOk(cfg, s)
    ensures Tickets(s, seat) <= set a | a in AttemptsNaming(s, seat) :: (cfg.namespace, ProbeTarget(a))
  {
    forall k | k in Tickets(s, seat)
      ensures k.1.ProbeTarget? && k == (cfg.namespace, ProbeTarget(k.1.attempt))
              && k.1.attempt in AttemptsNaming(s, seat)
    {
      SellerGrant(cfg, s.attempts, k.1, s.store.grants[k]);
    }
  }

  /** Over every run, with crashes, retries and leftover grants: the canaries sent to a seat never exceed the tickets
      minted for it, which never exceed the claimed trust-snapshot attempts naming it. */
  lemma CanaryConservation(cfg: Config, actions: seq<Action>, seat: Text)
    ensures var s := Run(cfg, actions);
            CanariesTo(s.canaries, seat) <= |Tickets(s, seat)| <= |AttemptsNaming(s, seat)|
    ensures var s := Run(cfg, actions);
            forall a | a in AttemptsNaming(s, seat) :: HasClaim(cfg, s, s.attempts[a])
  {
    var s := Run(cfg, actions);
    Safe(cfg, actions);
    DistinctCanaries(cfg, s.canaries, seat);
    UsedKeysAreTickets(cfg, s, seat);
    SubsetSize(KeysUsed(cfg, s.canaries, seat), Tickets(s, seat));
    TicketsAreAttempts(cfg, s, seat);
    TicketKeys(cfg, AttemptsNaming(s, seat));
    SubsetSize(Tickets(s, seat), set a | a in AttemptsNaming(s, seat) :: (cfg.namespace, ProbeTarget(a)));
  }

  /** No counter passes its grant's maximum, and the Router never holds a grant to message a seller. */
  lemma GrantsRespected(cfg: Config, actions: seq<Action>, k: Key)
    requires k in Run(cfg, actions).store.grants
    ensures var s := Run(cfg, actions); var g := s.store.grants[k];
            && (k in s.store.usage ==> g.maxUses.Some? && s.store.usage[k] <= g.maxUses.value)
            && (g.capability.SendTo? && g.capability.recipient.Seller? ==> g.subject == PROBE != ROUTER)
  {
    var s := Run(cfg, actions);
    Safe(cfg, actions);
    AgentsDiffer();
    if s.store.grants[k].capability.SendTo? && s.store.grants[k].capability.recipient.Seller? {
      SellerGrant(cfg, s.attempts, k.1, s.store.grants[k]);
    }
  }

  lemma AgentsDiffer()
    ensures ROUTER != PROBE
  {
    assert |Lit("counterparty-router")| == 19 && |Lit("counterparty-probe")| == 18;
  }

  /** A message reaches a seller only from the Probe. */
  lemma OnlyProbeSends(cfg: Config, actions: seq<Action>, actor: Address, capability: Capability, id: GrantId)
    requires var s := Run(cfg, actions); UseStep(cfg, s, actor, capability, id).canaries != s.canaries
    ensures actor == PROBE && exists seat :: capability == SendTo(Seller(seat)) && IsSeat(seat)
  {
    var s := Run(cfg, actions);
    Safe(cfg, actions);
    var key := (cfg.namespace, id);
    SellerGrant(cfg, s.attempts, id, s.store.grants[key]);
    assert IsSeat(Target(s.attempts[id.attempt]));
  }
}
