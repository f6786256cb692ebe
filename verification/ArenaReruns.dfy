/** When a paid request is run again: exactly when, at most once under which order, and runs in which it happens. */
module ArenaReruns {
  import opened Texts
  import opened JsonTokens
  import opened Json
  import opened Services
  import opened Grants
  import opened SharedNet
  import opened ArenaStore
  import opened ArenaService
  import opened ArenaProtocol
  import opened ArenaRuns

  // ---------- one redelivery ----------

  lemma OwnRowAnswers(cfg: Config, s: State, p: Parsed)
    requires HasClaim(cfg, s, p) && p.request.payment.Some?
    ensures ClaimMay(s.store.payments, RowFor(cfg, p), SameRequest)
            && !ClaimMay(s.store.payments, RowFor(cfg, p), Claimed)
  {
    var k :| 0 <= k < |s.store.payments| && s.store.payments[k].request == p.request.id &&
             s.store.payments[k].fingerprint == Fingerprint(cfg.hash, p);
    var row := s.store.payments[k];
    assert Answers(s.store.payments, RowFor(cfg, p), row) && Binds(row, RowFor(cfg, p));
  }

  /** The request can be paid for: its parts pass every check that does not read the store or the ledger. */
  predicate Fundable(cfg: Config, p: Parsed) {
    && ValidInput(p.request) && p.request.payment.Some? && IsTxn(p.request.payment.value)
    && Price(p.request.service).Some? && IsSeat(p.sender) && IsAddress(cfg.payee)
  }

  lemma CacheDecides(cfg: Config, responses: map<Text, Saved<Response>>, p: Parsed)
    requires Fundable(cfg, p)
    ensures EarlyAnswer(cfg, responses, p).None? <==> p.request.id !in responses
  {
  }

  /** A redelivered request whose row is there and whose page pays runs once more exactly when no response is saved
      under its id and the claim answers from its row; else it leaves the store as it is. */
  lemma RedeliveryRunsExactly(cfg: Config, s: State, w: nat, p: Parsed, supply: Supply)
    requires w in s.workers && s.workers[w] == Worker(p, Looking) && HasClaim(cfg, s, p) && Fundable(cfg, p)
    requires PaymentAnswer(cfg, p, supply.page).None? && Possible(cfg, s, p, supply)
    ensures var t := Steps(cfg, s, w, supply, |AttemptGrants(cfg, p, supply.attempt)| + 4);
            var again := p.request.id !in s.store.responses && supply.claim.SameRequest?;
            && t.executed == s.executed + (if again then [p] else [])
            && t.store.payments == s.store.payments
            && (!again ==> t == Gone(s, w))
  {
    OwnRowAnswers(cfg, s, p);
    CacheDecides(cfg, s.store.responses, p);
    if p.request.id !in s.store.responses && supply.claim.SameRequest? {
      ReachTurn(cfg, s, w, p, supply);
    } else {
      StopsEarly(cfg, s, w, p, supply, |AttemptGrants(cfg, p, supply.attempt)| + 1);
      assert s.executed + [] == s.executed;
    }
  }

  // ---------- successes along a run ----------

  /** A turn under this id ends well. */
  predicate Succeeds(s: State, a: Action, id: Text) {
    a.Work? && a.w in s.workers && s.workers[a.w].phase.Turning? && a.supply.end.succeeded
    && s.workers[a.w].p.request.id == id
  }

  ghost function Wins(cfg: Config, s: State, actions: seq<Action>, id: Text): nat {
    if actions == [] then 0
    else
      var front, last := actions[..|actions| - 1], actions[|actions| - 1];
      Wins(cfg, s, front, id) + if Succeeds(RunFrom(cfg, s, front), last, id) then 1 else 0
  }

  function Crashes(actions: seq<Action>): nat {
    if actions == [] then 0 else Crashes(actions[..|actions| - 1]) + if actions[|actions| - 1].Crash? then 1 else 0
  }

  /** Some actions lead from `s` to `t` with at least `wins` successes under the id and exactly `crashes` crashes. */
  ghost predicate Leads(cfg: Config, s: State, t: State, id: Text, wins: nat, crashes: nat) {
    exists actions :: RunFrom(cfg, s, actions) == t && Wins(cfg, s, actions, id) >= wins && Crashes(actions) == crashes
  }

  lemma Stay(cfg: Config, s: State, id: Text)
    ensures Leads(cfg, s, s, id, 0, 0)
  {
    assert RunFrom(cfg, s, []) == s && Wins(cfg, s, [], id) >= 0 && Crashes([]) == 0;
  }

  lemma Then(cfg: Config, s0: State, s: State, a: Action, id: Text, wins: nat, crashes: nat)
    requires Leads(cfg, s0, s, id, wins, crashes)
    ensures Leads(cfg, s0, Apply(cfg, s, a), id, wins + (if Succeeds(s, a, id) then 1 else 0),
                  crashes + if a.Crash? then 1 else 0)
  {
    var actions :| RunFrom(cfg, s0, actions) == s && Wins(cfg, s0, actions, id) >= wins && Crashes(actions) == crashes;
    var more := actions + [a];
    assert more[..|actions|] == actions;
    assert RunFrom(cfg, s0, more) == Apply(cfg, s, a);
  }

  lemma Fewer(cfg: Config, s0: State, s: State, id: Text, wins: nat, few: nat, crashes: nat)
    requires Leads(cfg, s0, s, id, wins, crashes) && few <= wins
    ensures Leads(cfg, s0, s, id, few, crashes)
  {
    var actions :| RunFrom(cfg, s0, actions) == s && Wins(cfg, s0, actions, id) >= wins && Crashes(actions) == crashes;
  }

  lemma ThenWork(cfg: Config, s0: State, s: State, w: nat, supply: Supply, id: Text, wins: nat, crashes: nat)
    requires Leads(cfg, s0, s, id, wins, crashes)
    ensures Leads(cfg, s0, Apply(cfg, s, Work(w, supply)), id, wins, crashes)
  {
    var a := Work(w, supply);
    Then(cfg, s0, s, a, id, wins, crashes);
    Fewer(cfg, s0, Apply(cfg, s, a), id, wins + (if Succeeds(s, a, id) then 1 else 0), wins, crashes);
  }

  /** What every step of a worker keeps, any number of them keeps. */
  lemma {:induction false} StepsKeep(cfg: Config, s: State, w: nat, supply: Supply, n: nat, keeps: State -> bool)
    requires keeps(s) && forall u | keeps(u) :: keeps(Apply(cfg, u, Work(w, supply)))
    ensures keeps(Steps(cfg, s, w, supply, n))
    decreases n
  {
    if n == 0 {
    } else {
      StepsKeep(cfg, Apply(cfg, s, Work(w, supply)), w, supply, n - 1, keeps);
    }
  }

  lemma ThenSteps(cfg: Config, s0: State, s: State, w: nat, supply: Supply, n: nat, id: Text, wins: nat, crashes: nat)
    requires Leads(cfg, s0, s, id, wins, crashes)
    ensures Leads(cfg, s0, Steps(cfg, s, w, supply, n), id, wins, crashes)
  {
    var keeps := (u: State) => Leads(cfg, s0, u, id, wins, crashes);
    forall u | keeps(u)
      ensures keeps(Apply(cfg, u, Work(w, supply)))
    {
      ThenWork(cfg, s0, u, w, supply, id, wins, crashes);
    }
    StepsKeep(cfg, s, w, supply, n, keeps);
  }

  /** Some run from `s0` with one success more, with no crash more, and on the rows of `s`. */
  ghost predicate CanWin(cfg: Config, s0: State, s: State, id: Text, wins: nat, crashes: nat) {
    exists t :: Leads(cfg, s0, t, id, wins + 1, crashes) && t.store.payments == s.store.payments
  }

  // ---------- how a success comes about ----------

  const WELL := TurnEnd(true, Null)

  /** Longer than all of them, so none of them. */
  lemma FreshText(texts: set<Text>) returns (t: Text)
    ensures t !in texts
  {
    var longest := Longest(texts);
    t := seq(longest + 1, i => 0);
    assert |t| > longest;
  }

  lemma {:induction false} Longest(texts: set<Text>) returns (n: nat)
    ensures forall t | t in texts :: |t| <= n
    decreases |texts|
  {
    if t :| t in texts {
      var m := Longest(texts - {t});
      n := if m < |t| then |t| else m;
    } else {
      n := 0;
    }
  }

  lemma {:induction false} FreshWorker(workers: set<nat>) returns (w: nat)
    ensures forall v | v in workers :: v < w
    decreases |workers|
  {
    if v :| v in workers {
      w := FreshWorker(workers - {v});
      assert forall u | u in workers :: u == v || u in workers - {v};
      w := if w <= v then v + 1 else w;
    } else {
      w := 0;
    }
  }

  lemma EndTurn(cfg: Config, s: State, w: nat, p: Parsed, supply: Supply, attempt: Text)
    requires w in s.workers && s.workers[w] == Worker(p, Turning(attempt))
    ensures Apply(cfg, s, Work(w, supply)) == Moved(s, w, p, Saving(attempt, supply.end))
  {
  }

  lemma TurnWins(cfg: Config, s0: State, s: State, w: nat, p: Parsed, supply: Supply, attempt: Text, wins: nat,
                 crashes: nat)
    requires w in s.workers && s.workers[w] == Worker(p, Turning(attempt)) && supply.end == WELL
    requires Leads(cfg, s0, s, p.request.id, wins, crashes)
    ensures Leads(cfg, s0, Moved(s, w, p, Saving(attempt, WELL)), p.request.id, wins + 1, crashes)
  {
    Then(cfg, s0, s, Work(w, supply), p.request.id, wins, crashes);
    EndTurn(cfg, s, w, p, supply, attempt);
  }

  lemma WinInTurn(cfg: Config, s0: State, s: State, w: nat, wins: nat, crashes: nat)
    requires w in s.workers && s.workers[w].phase.Turning?
    requires Leads(cfg, s0, s, s.workers[w].p.request.id, wins, crashes)
    ensures CanWin(cfg, s0, s, s.workers[w].p.request.id, wins, crashes)
  {
    var p, attempt := s.workers[w].p, s.workers[w].phase.attempt;
    TurnWins(cfg, s0, s, w, p, Supply(None, Conflict, [], WELL), attempt, wins, crashes);
    assert Moved(s, w, p, Saving(attempt, WELL)).store.payments == s.store.payments;
  }

  /** Minting goes on to the turn. */
  lemma {:induction false} WinFromMinting(cfg: Config, s0: State, s: State, w: nat, wins: nat, crashes: nat)
    requires w in s.workers && s.workers[w].phase.Minting?
    requires Leads(cfg, s0, s, s.workers[w].p.request.id, wins, crashes)
    ensures CanWin(cfg, s0, s, s.workers[w].p.request.id, wins, crashes)
    decreases var m := |AttemptGrants(cfg, s.workers[w].p, s.workers[w].phase.attempt)|;
              if s.workers[w].phase.k < m then m - s.workers[w].phase.k else 0
  {
    var p, attempt, k := s.workers[w].p, s.workers[w].phase.attempt, s.workers[w].phase.k;
    var a := Work(w, Supply(None, Conflict, [], WELL));
    var t := Apply(cfg, s, a);
    Then(cfg, s0, s, a, p.request.id, wins, crashes);
    assert t == MintStep(cfg, s, w, p, attempt, k) && t.store.payments == s.store.payments;
    if k < |AttemptGrants(cfg, p, attempt)| {
      WinFromMinting(cfg, s0, t, w, wins, crashes);
    } else {
      WinInTurn(cfg, s0, t, w, wins, crashes);
    }
  }

  lemma WinFromClaiming(cfg: Config, s0: State, s: State, w: nat, p: Parsed, wins: nat, crashes: nat)
    requires w in s.workers && s.workers[w] == Worker(p, Claiming) && p.request.payment.Some?
    requires HasRow(s.store.payments, p.request.id, Fingerprint(cfg.hash, p)) && p in s.arrived
    requires Leads(cfg, s0, s, p.request.id, wins, crashes)
    ensures CanWin(cfg, s0, s, p.request.id, wins, crashes)
  {
    var attempt := FreshText(s.attempts.Keys);
    var a := Work(w, Supply(None, SameRequest, attempt, WELL));
    OwnRowAnswers(cfg, s, p);
    Then(cfg, s0, s, a, p.request.id, wins, crashes);
    var t := Apply(cfg, s, a);
    assert t == ClaimStep(cfg, s, w, p, SameRequest, attempt);
    WinFromMinting(cfg, s0, t, w, wins, crashes);
  }

  /** The transfer that pays as the service instructs. */
  function Payer(cfg: Config, p: Parsed): LedgerItem
    requires Fundable(cfg, p)
  {
    ArenaService.Transfer(cfg, p, p.request.payment.value,
                          PaymentRequired(cfg.payee, Memo(NameOf(p.request.service), p.request.id)))
  }

  lemma PayerPays(cfg: Config, p: Parsed)
    requires Fundable(cfg, p)
    ensures PaymentAnswer(cfg, p, Some([Payer(cfg, p)])).None?
  {
    InstructedPaymentMatches(ExpectedPayment(cfg, p));
  }

  lemma WinFromVerifying(cfg: Config, s0: State, s: State, w: nat, p: Parsed, wins: nat, crashes: nat)
    requires w in s.workers && s.workers[w] == Worker(p, Verifying) && Fundable(cfg, p)
    requires HasRow(s.store.payments, p.request.id, Fingerprint(cfg.hash, p)) && p in s.arrived
    requires Leads(cfg, s0, s, p.request.id, wins, crashes)
    ensures CanWin(cfg, s0, s, p.request.id, wins, crashes)
  {
    var pay := Action.Transfer(Payer(cfg, p));
    var paid := Apply(cfg, s, pay);
    Then(cfg, s0, s, pay, p.request.id, wins, crashes);
    PayerPays(cfg, p);
    var supply := Supply(Some([Payer(cfg, p)]), Conflict, [], WELL);
    VerifyPasses(cfg, paid, w, p, supply);
    Then(cfg, s0, paid, Work(w, supply), p.request.id, wins, crashes);
    WinFromClaiming(cfg, s0, Moved(paid, w, p, Claiming), w, p, wins, crashes);
  }

  lemma WinFromLooking(cfg: Config, s0: State, s: State, w: nat, p: Parsed, wins: nat, crashes: nat)
    requires w in s.workers && s.workers[w] == Worker(p, Looking) && Fundable(cfg, p)
             && p.request.id !in s.store.responses
    requires HasRow(s.store.payments, p.request.id, Fingerprint(cfg.hash, p)) && p in s.arrived
    requires Leads(cfg, s0, s, p.request.id, wins, crashes)
    ensures CanWin(cfg, s0, s, p.request.id, wins, crashes)
  {
    var supply := Supply(None, Conflict, [], WELL);
    CacheDecides(cfg, s.store.responses, p);
    LookPasses(cfg, s, w, p, supply);
    Then(cfg, s0, s, Work(w, supply), p.request.id, wins, crashes);
    WinFromVerifying(cfg, s0, Moved(s, w, p, Verifying), w, p, wins, crashes);
  }

  lemma WinFromRedelivery(cfg: Config, s0: State, s: State, m: Message, wins: nat, crashes: nat)
    requires ParseRequest(m).Some? && Fundable(cfg, ParseRequest(m).value)
             && ParseRequest(m).value.request.id !in s.store.responses
    requires HasClaim(cfg, s, ParseRequest(m).value)
    requires Leads(cfg, s0, s, ParseRequest(m).value.request.id, wins, crashes)
    ensures CanWin(cfg, s0, s, ParseRequest(m).value.request.id, wins, crashes)
  {
    var p := ParseRequest(m).value;
    var w := FreshWorker(s.workers.Keys);
    Then(cfg, s0, s, Arrive(w, m), p.request.id, wins, crashes);
    WinFromLooking(cfg, s0, Apply(cfg, s, Arrive(w, m)), w, p, wins, crashes);
  }

  // ---------- what every state keeps ----------

  ghost predicate Arrived(p: Parsed) {
    exists m :: ParseRequest(m) == Some(p)
  }

  predicate WorkerFunded(cfg: Config, worker: Worker) {
    worker.phase.Looking? || worker.phase.Verifying? || Fundable(cfg, worker.p)
  }

  /** Whatever passed the ledger was fundable, and whatever arrived came as a message. */
  ghost predicate Funded(cfg: Config, s: State) {
    && (forall p | p in s.arrived :: Arrived(p))
    && (forall p | p in s.executed :: Fundable(cfg, p))
    && forall w | w in s.workers :: WorkerFunded(cfg, s.workers[w])
  }

  lemma VerifiedFundable(cfg: Config, p: Parsed, page: Option<seq<LedgerItem>>)
    requires ValidInput(p.request) && p.request.payment.Some? && PaymentAnswer(cfg, p, page).None?
    ensures Fundable(cfg, p)
  {
  }

  lemma VerifyFunded(cfg: Config, s: State, w: nat, p: Parsed, page: Option<seq<LedgerItem>>)
    requires w in s.workers && s.workers[w] == Worker(p, Verifying) && ValidInput(p.request)
    ensures var t := VerifyStep(cfg, s, w, p, page); w in t.workers ==> WorkerFunded(cfg, t.workers[w])
  {
    if p.request.payment.Some? && PaymentAnswer(cfg, p, page).None? {
      VerifiedFundable(cfg, p, page);
    }
  }

  lemma StepFunded(cfg: Config, s: State, w: nat, supply: Supply)
    requires w in s.workers && WorkerFunded(cfg, s.workers[w]) && WorkerOk(cfg, s, s.workers[w])
    ensures var t := WorkStep(cfg, s, w, supply); w in t.workers ==> WorkerFunded(cfg, t.workers[w])
  {
    if s.workers[w].phase.Verifying? {
      VerifyFunded(cfg, s, w, s.workers[w].p, supply.page);
    } else if s.workers[w].phase.Looking? {
      assert WorkStep(cfg, s, w, supply) == LookStep(cfg, s, w, s.workers[w].p);
    } else {
      SamePerson(cfg, s, w, supply);
    }
  }

  lemma SamePerson(cfg: Config, s: State, w: nat, supply: Supply)
    requires w in s.workers
    ensures var t := WorkStep(cfg, s, w, supply); w in t.workers ==> t.workers[w].p == s.workers[w].p
  {
  }

  lemma WorkExecutes(cfg: Config, s: State, w: nat, supply: Supply)
    requires w in s.workers
    ensures var t := WorkStep(cfg, s, w, supply);
            && t.arrived == s.arrived
            && (t.executed == s.executed
                || (s.workers[w].phase.Minting? && t.executed == s.executed + [s.workers[w].p]))
  {
  }

  lemma ApplyExecutes(cfg: Config, s: State, a: Action)
    requires Funded(cfg, s)
    ensures var t := Apply(cfg, s, a);
            (forall p | p in t.arrived :: Arrived(p))
            && forall p | p in t.executed :: Fundable(cfg, p)
  {
    if a.Use? {
      UseTouches(cfg, s, a.actor, a.capability, a.id);
    } else if a.Work? && a.w in s.workers {
      WorkExecutes(cfg, s, a.w, a.supply);
      assert WorkerFunded(cfg, s.workers[a.w]);
    }
  }

  lemma ApplyFunded(cfg: Config, s: State, a: Action)
    requires WorkersOk(cfg, s) && Funded(cfg, s)
    ensures Funded(cfg, Apply(cfg, s, a))
  {
    var t := Apply(cfg, s, a);
    ApplyExecutes(cfg, s, a);
    forall v | v in t.workers
      ensures WorkerFunded(cfg, t.workers[v])
    {
      if a.Work? && a.w == v {
        StepFunded(cfg, s, v, a.supply);
      } else {
        OthersStay(cfg, s, a, v);
      }
    }
  }

  lemma {:induction false} FundedAlways(cfg: Config, actions: seq<Action>)
    ensures Funded(cfg, Run(cfg, actions))
  {
    if actions == [] {
    } else {
      var n := |actions| - 1;
      FundedAlways(cfg, actions[..n]);
      Safe(cfg, actions[..n]);
      ApplyFunded(cfg, Run(cfg, actions[..n]), actions[n]);
    }
  }

  // ---------- exactly when it can be run again ----------

  /** A worker that looked too early, and that nothing will stop: it read the cache before a response was saved. */
  predicate Late(cfg: Config, p: Parsed, worker: Worker) {
    worker.p.request.id == p.request.id &&
    match worker.phase
    case Looking => false
    case Verifying => Fundable(cfg, worker.p) && Fingerprint(cfg.hash, worker.p) == Fingerprint(cfg.hash, p)
    case Claiming => Fingerprint(cfg.hash, worker.p) == Fingerprint(cfg.hash, p)
    case Minting(_, _) => true
    case Turning(_) => true
    case Saving(_, _) => false
  }

  predicate SomeLate(cfg: Config, s: State, p: Parsed) {
    exists w :: w in s.workers && Late(cfg, p, s.workers[w])
  }

  lemma LateWins(cfg: Config, s: State, p: Parsed, w: nat)
    requires Inv(cfg, s) && Funded(cfg, s) && p in s.executed && w in s.workers && Late(cfg, p, s.workers[w])
    ensures CanWin(cfg, s, s, p.request.id, 0, 0)
  {
    var worker := s.workers[w];
    assert WorkerOk(cfg, s, worker) && HasClaim(cfg, s, p);
    Stay(cfg, s, p.request.id);
    match worker.phase
    case Verifying => WinFromVerifying(cfg, s, s, w, worker.p, 0, 0);
    case Claiming => WinFromClaiming(cfg, s, s, w, worker.p, 0, 0);
    case Minting(_, _) => WinFromMinting(cfg, s, s, w, 0, 0);
    case Turning(_) => WinInTurn(cfg, s, s, w, 0, 0);
  }

  lemma UnsavedWins(cfg: Config, s: State, p: Parsed)
    requires Inv(cfg, s) && Funded(cfg, s) && p in s.executed && p.request.id !in s.store.responses
    ensures CanWin(cfg, s, s, p.request.id, 0, 0)
  {
    assert HasClaim(cfg, s, p) && Arrived(p);
    var m :| ParseRequest(m) == Some(p);
    Stay(cfg, s, p.request.id);
    WinFromRedelivery(cfg, s, s, m, 0, 0);
  }

  /** The request is over: its response is saved, and no worker looked before. */
  ghost predicate Over(cfg: Config, s: State, p: Parsed) {
    Inv(cfg, s) && Funded(cfg, s) && HasClaim(cfg, s, p) && p.request.id in s.store.responses && !SomeLate(cfg, s, p)
  }

  /** The row under the id is the one of `p`, so a worker with another fingerprint is refused. */
  lemma OtherRefused(cfg: Config, s: State, p: Parsed, q: Parsed, claim: Claim)
    requires PaymentsOk(cfg, s) && HasClaim(cfg, s, p) && q.request.id == p.request.id && q.request.payment.Some?
    requires Fingerprint(cfg.hash, q) != Fingerprint(cfg.hash, p)
    requires ClaimMay(s.store.payments, RowFor(cfg, q), claim)
    ensures claim.Conflict?
  {
    var k :| 0 <= k < |s.store.payments| && s.store.payments[k].request == p.request.id &&
             s.store.payments[k].fingerprint == Fingerprint(cfg.hash, p);
    OtherAnswers(s.store.payments, k, RowFor(cfg, q), claim);
  }

  /** Where a row with the request's id has another fingerprint, no row binds it. */
  lemma OtherAnswers(rows: seq<Payment>, k: nat, p: Payment, claim: Claim)
    requires RowsUnique(rows) && k < |rows| && rows[k].request == p.request && rows[k].fingerprint != p.fingerprint
    requires ClaimMay(rows, p, claim)
    ensures claim.Conflict?
  {
    assert Answers(rows, p, rows[k]);
    forall row | Answers(rows, p, row)
      ensures !Binds(row, p)
    {
      var j :| 0 <= j < |rows| && rows[j] == row;
    }
  }

  lemma LookStaysOver(cfg: Config, s: State, p: Parsed, w: nat, q: Parsed)
    requires w in s.workers && s.workers[w] == Worker(q, Looking) && q.request.id == p.request.id
    requires p.request.id in s.store.responses
    ensures w !in LookStep(cfg, s, w, q).workers
  {
  }

  lemma VerifyStaysOver(cfg: Config, s: State, p: Parsed, w: nat, q: Parsed, page: Option<seq<LedgerItem>>)
    requires w in s.workers && s.workers[w] == Worker(q, Verifying) && ValidInput(q.request)
             && !Late(cfg, p, s.workers[w])
    ensures var t := VerifyStep(cfg, s, w, q, page); w in t.workers ==> !Late(cfg, p, t.workers[w])
  {
    if q.request.payment.Some? && PaymentAnswer(cfg, q, page).None? {
      VerifiedFundable(cfg, q, page);
    }
  }

  lemma ClaimStaysOver(cfg: Config, s: State, p: Parsed, w: nat, q: Parsed, claim: Claim, attempt: Text)
    requires w in s.workers && s.workers[w] == Worker(q, Claiming) && !Late(cfg, p, s.workers[w])
    requires PaymentsOk(cfg, s) && HasClaim(cfg, s, p)
    ensures var t := ClaimStep(cfg, s, w, q, claim, attempt); w in t.workers ==> !Late(cfg, p, t.workers[w])
  {
    if q.request.id == p.request.id && q.request.payment.Some? && ClaimMay(s.store.payments, RowFor(cfg, q), claim) {
      OtherRefused(cfg, s, p, q, claim);
    }
  }

  lemma WorkStaysOver(cfg: Config, s: State, p: Parsed, w: nat, supply: Supply)
    requires Over(cfg, s, p) && w in s.workers
    ensures var t := WorkStep(cfg, s, w, supply); w in t.workers ==> !Late(cfg, p, t.workers[w])
  {
    var q := s.workers[w].p;
    assert !Late(cfg, p, s.workers[w]) && WorkerOk(cfg, s, s.workers[w]);
    SamePerson(cfg, s, w, supply);
    if q.request.id == p.request.id {
      match s.workers[w].phase
      case Looking => LookStaysOver(cfg, s, p, w, q);
      case Verifying => VerifyStaysOver(cfg, s, p, w, q, supply.page);
      case Claiming => ClaimStaysOver(cfg, s, p, w, q, supply.claim, supply.attempt);
      case Saving(_, _) =>
    }
  }

  lemma NobodyLate(cfg: Config, s: State, a: Action, p: Parsed)
    requires Over(cfg, s, p)
    ensures !SomeLate(cfg, Apply(cfg, s, a), p)
  {
    var t := Apply(cfg, s, a);
    forall w | w in t.workers
      ensures !Late(cfg, p, t.workers[w])
    {
      if a.Work? && a.w == w {
        WorkStaysOver(cfg, s, p, w, a.supply);
      } else {
        OthersStay(cfg, s, a, w);
      }
    }
  }

  lemma StaysOver(cfg: Config, s: State, a: Action, p: Parsed)
    requires Over(cfg, s, p)
    ensures Over(cfg, Apply(cfg, s, a), p) && !Succeeds(s, a, p.request.id)
  {
    ApplyKeeps(cfg, s, a);
    ApplyFunded(cfg, s, a);
    ApplyKeepsSaved(cfg, s, a, p.request.id);
    ApplyGrows(cfg, s, a);
    ClaimedStays(cfg, s, Apply(cfg, s, a), p);
    NobodyLate(cfg, s, a, p);
    assert Succeeds(s, a, p.request.id) ==> Late(cfg, p, s.workers[a.w]);
  }

  lemma {:induction false} OverForGood(cfg: Config, s: State, actions: seq<Action>, p: Parsed)
    requires Over(cfg, s, p)
    ensures Wins(cfg, s, actions, p.request.id) == 0 && Over(cfg, RunFrom(cfg, s, actions), p)
  {
    if actions == [] {
    } else {
      var n := |actions| - 1;
      OverForGood(cfg, s, actions[..n], p);
      StaysOver(cfg, RunFrom(cfg, s, actions[..n]), actions[n], p);
    }
  }

  lemma WinMeans(cfg: Config, s: State, id: Text)
    requires CanWin(cfg, s, s, id, 0, 0)
    ensures exists more :: Wins(cfg, s, more, id) > 0
  {
    var t :| Leads(cfg, s, t, id, 1, 0);
    var more :| RunFrom(cfg, s, more) == t && Wins(cfg, s, more, id) >= 1;
  }

  lemma OverMeans(cfg: Config, s: State, p: Parsed)
    requires Over(cfg, s, p)
    ensures !exists more :: Wins(cfg, s, more, p.request.id) > 0
  {
    forall more: seq<Action>
      ensures Wins(cfg, s, more, p.request.id) == 0
    {
      OverForGood(cfg, s, more, p);
    }
  }

  /** In every state of every run, a request that was run can succeed once more, whatever happens next, exactly when no
      response is saved under its id or a worker that looked before is still on its way to a turn. It then can without a
      crash and on the payment row it has. */
  lemma SucceedsAgainExactly(cfg: Config, actions: seq<Action>, p: Parsed)
    requires p in Run(cfg, actions).executed
    ensures var s, id := Run(cfg, actions), p.request.id;
            (exists more :: Wins(cfg, s, more, id) > 0) <==> id !in s.store.responses || SomeLate(cfg, s, p)
    ensures var s, id := Run(cfg, actions), p.request.id;
            id !in s.store.responses || SomeLate(cfg, s, p) ==> CanWin(cfg, s, s, id, 0, 0)
  {
    var s := Run(cfg, actions);
    Safe(cfg, actions);
    FundedAlways(cfg, actions);
    if p.request.id !in s.store.responses {
      UnsavedWins(cfg, s, p);
      WinMeans(cfg, s, p.request.id);
    } else if SomeLate(cfg, s, p) {
      var w :| w in s.workers && Late(cfg, p, s.workers[w]);
      LateWins(cfg, s, p, w);
      WinMeans(cfg, s, p.request.id);
    } else {
      assert Over(cfg, s, p);
      OverMeans(cfg, s, p);
    }
  }

  // ---------- at most once ----------

  predicate PastLook(s: State, v: nat, id: Text) {
    v in s.workers && s.workers[v].p.request.id == id && !s.workers[v].phase.Looking?
  }

  predicate Looks(s: State, a: Action, id: Text) {
    a.Work? && a.w in s.workers && s.workers[a.w].phase.Looking? && s.workers[a.w].p.request.id == id
  }

  /** When a worker looks, no other one with the id is past its look, and a success there was has been saved. */
  ghost predicate InTurn(s: State, id: Text, wins: nat) {
    (forall v | v in s.workers :: !PastLook(s, v, id)) && (wins > 0 ==> id in s.store.responses)
  }

  ghost predicate Ordered(cfg: Config, s: State, actions: seq<Action>, id: Text) {
    actions == [] ||
    var front, last := actions[..|actions| - 1], actions[|actions| - 1];
    var t := RunFrom(cfg, s, front);
    Ordered(cfg, s, front, id) && (Looks(t, last, id) ==> InTurn(t, id, Wins(cfg, s, front, id)))
  }

  ghost predicate OneAtATime(s: State, id: Text, wins: nat) {
    && wins <= 1
    && (forall u, v | u in s.workers && v in s.workers && PastLook(s, u, id) && PastLook(s, v, id) :: u == v)
    && (wins == 1 ==> forall v | v in s.workers && PastLook(s, v, id) :: s.workers[v].phase.Saving?)
  }

  lemma LookOnce(cfg: Config, s: State, w: nat, supply: Supply, id: Text, wins: nat)
    requires OneAtATime(s, id, wins) && Looks(s, Work(w, supply), id) && InTurn(s, id, wins)
    ensures OneAtATime(Apply(cfg, s, Work(w, supply)), id, wins)
  {
    assert Apply(cfg, s, Work(w, supply)) == LookStep(cfg, s, w, s.workers[w].p);
    if id in s.store.responses {
      assert EarlyAnswer(cfg, s.store.responses, s.workers[w].p).Some?;
    }
  }

  /** Only a look takes a worker past its look. */
  lemma PastBefore(cfg: Config, s: State, a: Action, v: nat, id: Text)
    requires PastLook(Apply(cfg, s, a), v, id) && !Looks(s, a, id)
    ensures PastLook(s, v, id)
    ensures s.workers[v].phase.Saving? || (a.Work? && a.w == v && s.workers[v].phase.Turning?)
            ==> Apply(cfg, s, a).workers[v].phase.Saving?
  {
    if a.Work? && a.w == v {
      SamePerson(cfg, s, v, a.supply);
    } else {
      OthersStay(cfg, s, a, v);
    }
  }

  lemma StepOnce(cfg: Config, s: State, a: Action, id: Text, wins: nat)
    requires OneAtATime(s, id, wins) && (Looks(s, a, id) ==> InTurn(s, id, wins))
    ensures OneAtATime(Apply(cfg, s, a), id, wins + if Succeeds(s, a, id) then 1 else 0)
  {
    if Looks(s, a, id) {
      LookOnce(cfg, s, a.w, a.supply, id, wins);
    } else {
      var t := Apply(cfg, s, a);
      forall v | v in t.workers && PastLook(t, v, id)
        ensures PastLook(s, v, id)
        ensures s.workers[v].phase.Saving? || (a.Work? && a.w == v && s.workers[v].phase.Turning?) ==>
                t.workers[v].phase.Saving?
      {
        PastBefore(cfg, s, a, v, id);
      }
      if Succeeds(s, a, id) {
        assert PastLook(s, a.w, id);
      }
    }
  }

  /** In a run where workers with one id take turns, and a success is saved before the next looks, the id succeeds at
      most once, whatever crashes, is redelivered or runs beside them. */
  lemma {:induction false} OrderedOnce(cfg: Config, actions: seq<Action>, id: Text)
    requires Ordered(cfg, Initial(), actions, id)
    ensures Wins(cfg, Initial(), actions, id) <= 1
    ensures OneAtATime(Run(cfg, actions), id, Wins(cfg, Initial(), actions, id))
  {
    if actions == [] {
    } else {
      var n := |actions| - 1;
      RunFromInitial(cfg, actions[..n]);
      OrderedOnce(cfg, actions[..n], id);
      StepOnce(cfg, Run(cfg, actions[..n]), actions[n], id, Wins(cfg, Initial(), actions[..n], id));
    }
  }

  lemma {:induction false} RunFromInitial(cfg: Config, actions: seq<Action>)
    ensures RunFrom(cfg, Initial(), actions) == Run(cfg, actions)
  {
    if actions == [] {
    } else {
      RunFromInitial(cfg, actions[..|actions| - 1]);
    }
  }

  // ---------- two successes for one payment ----------

  /** The first claim of a deployment passes, and its worker reaches its turn. */
  lemma FirstTurn(cfg: Config, s: State, w: nat, p: Parsed, supply: Supply)
    requires s.store == EmptyStore() && w in s.workers && s.workers[w] == Worker(p, Looking)
    requires Fundable(cfg, p) && Payer(cfg, p) in s.ledger && supply.attempt !in s.attempts
    requires supply.page == Some([Payer(cfg, p)]) && supply.claim == Claimed
    ensures var t := TurnStarted(cfg, s, w, p, supply);
            && Steps(cfg, s, w, supply, |AttemptGrants(cfg, p, supply.attempt)| + 4) == t
            && t.store.payments == [RowFor(cfg, p)] && t.store.responses == map[] && t.arrived == s.arrived
            && t.workers == s.workers[w := Worker(p, Turning(supply.attempt))]
  {
    PayerPays(cfg, p);
    CacheDecides(cfg, s.store.responses, p);
    ReachTurn(cfg, s, w, p, supply);
  }

  /** The first delivery runs to its success; the response is not saved yet. */
  lemma FirstSuccess(cfg: Config, s: State, w: nat, p: Parsed) returns (t: State, attempt: Text)
    requires Leads(cfg, Initial(), s, p.request.id, 0, 0) && s.store == EmptyStore()
    requires w in s.workers && s.workers[w] == Worker(p, Looking) && Fundable(cfg, p) && Payer(cfg, p) in s.ledger
    ensures Leads(cfg, Initial(), t, p.request.id, 1, 0)
    ensures t.store.payments == [RowFor(cfg, p)] && t.store.responses == map[] && t.arrived == s.arrived
    ensures t.workers == s.workers[w := Worker(p, Saving(attempt, WELL))]
  {
    attempt := FreshText(s.attempts.Keys);
    var supply := Supply(Some([Payer(cfg, p)]), Claimed, attempt, WELL);
    var turning := TurnStarted(cfg, s, w, p, supply);
    FirstTurn(cfg, s, w, p, supply);
    ThenSteps(cfg, Initial(), s, w, supply, |AttemptGrants(cfg, p, attempt)| + 4, p.request.id, 0, 0);
    t := Moved(turning, w, p, Saving(attempt, WELL));
    TurnWins(cfg, Initial(), turning, w, p, supply, attempt, 0, 0);
  }

  /** The transfer is made and the request is delivered, to worker 0. */
  lemma Delivered(cfg: Config, m: Message) returns (s: State)
    requires ParseRequest(m).Some? && Fundable(cfg, ParseRequest(m).value)
    ensures var p := ParseRequest(m).value;
            && Leads(cfg, Initial(), s, p.request.id, 0, 0) && s.store == EmptyStore()
            && s.workers == map[0 := Worker(p, Looking)] && Payer(cfg, p) in s.ledger && p in s.arrived
  {
    var p := ParseRequest(m).value;
    var pay := Action.Transfer(Payer(cfg, p));
    Stay(cfg, Initial(), p.request.id);
    Then(cfg, Initial(), Initial(), pay, p.request.id, 0, 0);
    Then(cfg, Initial(), Apply(cfg, Initial(), pay), Arrive(0, m), p.request.id, 0, 0);
    s := Apply(cfg, Apply(cfg, Initial(), pay), Arrive(0, m));
  }

  lemma Arrives(cfg: Config, s: State, w: nat, m: Message)
    requires w !in s.workers && ParseRequest(m).Some?
    ensures Apply(cfg, s, Arrive(w, m))
            == Moved(s, w, ParseRequest(m).value, Looking).(arrived := s.arrived + {ParseRequest(m).value})
  {
  }

  /** It is delivered again, to worker 1, which looks at once. */
  lemma DeliveredTwice(cfg: Config, m: Message) returns (s: State)
    requires ParseRequest(m).Some? && Fundable(cfg, ParseRequest(m).value)
    ensures var p := ParseRequest(m).value;
            && Leads(cfg, Initial(), s, p.request.id, 0, 0) && s.store == EmptyStore() && Payer(cfg, p) in s.ledger
            && p in s.arrived
            && 0 in s.workers && 1 in s.workers && s.workers[0] == Worker(p, Looking)
            && s.workers[1] == Worker(p, Verifying)
  {
    var p := ParseRequest(m).value;
    var one := Delivered(cfg, m);
    Then(cfg, Initial(), one, Arrive(1, m), p.request.id, 0, 0);
    Arrives(cfg, one, 1, m);
    var two := Moved(one, 1, p, Looking).(arrived := one.arrived + {p});
    var supply := Supply(None, Conflict, [], WELL);
    CacheDecides(cfg, two.store.responses, p);
    LookPasses(cfg, two, 1, p, supply);
    ThenWork(cfg, Initial(), two, 1, supply, p.request.id, 0, 0);
    s := Moved(two, 1, p, Verifying);
  }

  /** The first failing order: a crash between a success and its save, and then a redelivery. */
  lemma CrashRunsTwice(cfg: Config, m: Message)
    requires ParseRequest(m).Some? && Fundable(cfg, ParseRequest(m).value)
    ensures var p := ParseRequest(m).value;
            exists t :: Leads(cfg, Initial(), t, p.request.id, 2, 1) && t.store.payments == [RowFor(cfg, p)]
  {
    var p := ParseRequest(m).value;
    var waiting := Delivered(cfg, m);
    var won, _ := FirstSuccess(cfg, waiting, 0, p);
    Then(cfg, Initial(), won, Crash(0), p.request.id, 1, 0);
    var dead := Apply(cfg, won, Crash(0));
    assert dead.store.payments[0].request == p.request.id;
    WinFromRedelivery(cfg, Initial(), dead, m, 1, 1);
  }

  /** After the first worker's save the second is late. */
  lemma SavedAndLate(cfg: Config, s: State, p: Parsed, attempt: Text, supply: Supply)
    requires 0 in s.workers && 1 in s.workers && Fundable(cfg, p)
    requires s.workers[0] == Worker(p, Saving(attempt, WELL)) && s.workers[1] == Worker(p, Verifying)
    ensures var t := Apply(cfg, s, Work(0, supply));
            && p.request.id in t.store.responses && t.store.payments == s.store.payments && t.arrived == s.arrived
            && 1 in t.workers && t.workers[1] == Worker(p, Verifying) && SomeLate(cfg, t, p)
  {
    var t := Apply(cfg, s, Work(0, supply));
    assert t == SaveStep(cfg, s, 0, p, WELL);
    assert Late(cfg, p, t.workers[1]);
  }

  /** The second one, without a crash: a redelivered worker looks before the first one saves, and runs after it has. */
  lemma LateWorkerRunsTwice(cfg: Config, m: Message)
    requires ParseRequest(m).Some? && Fundable(cfg, ParseRequest(m).value)
    ensures var p := ParseRequest(m).value;
            exists s :: Leads(cfg, Initial(), s, p.request.id, 1, 0) && p.request.id in s.store.responses
              && SomeLate(cfg, s, p)
    ensures var p := ParseRequest(m).value;
            exists t :: Leads(cfg, Initial(), t, p.request.id, 2, 0) && t.store.payments == [RowFor(cfg, p)]
  {
    var p := ParseRequest(m).value;
    var waiting := DeliveredTwice(cfg, m);
    var won, attempt := FirstSuccess(cfg, waiting, 0, p);
    var save := Work(0, Supply(None, Conflict, [], WELL));
    SavedAndLate(cfg, won, p, attempt, save.supply);
    ThenWork(cfg, Initial(), won, 0, save.supply, p.request.id, 1, 0);
    var saved := Apply(cfg, won, save);
    assert saved.store.payments[0].request == p.request.id;
    WinFromVerifying(cfg, Initial(), saved, 1, p, 1, 0);
  }

  // ---------- such a request ----------

  const SEAT := Lit("i_aaaaaaaaaa")
  const PAID := Lit("txn_aaaaaaaaaa")

  function SmallInput(): Json {
    Obj([Member(Lit("delivery_id"), Str(Lit("d")))])
  }

  /** A small delivery check from a seat, paid for by a named transfer. */
  function Small(): Parsed {
    Parsed(SEAT, [], Request(Lit("r"), VerifyDelivery, SmallInput(), Some(PAID)))
  }

  function SmallMessage(): Message {
    Message([], 0, Some(SEAT), RequestText(Small().request))
  }

  lemma SmallNames()
    ensures IsSeat(SEAT) && IsTxn(PAID) && IsRequestId(Lit("r"))
  {
    assert |Lit("i_")| == 2 && |Lit("txn_")| == 4 && |SEAT| == 12 && |PAID| == 14;
  }

  lemma SmallInputValid()
    ensures Valid(SmallInput(), Js) && SmallInput().Obj? && Norm(SmallInput()).Obj?
    ensures TextField(Norm(SmallInput()), Lit("delivery_id")) == Some(Lit("d"))
  {
    var ms := SmallInput().members;
    GetLoaded(ms, ms[0]);
  }

  /** The runs above exist at any deployment with a proper payee: this message is a fundable request. */
  lemma SmallFundable(cfg: Config)
    requires IsAddress(cfg.payee)
    ensures ParseRequest(SmallMessage()).Some? && Fundable(cfg, ParseRequest(SmallMessage()).value)
  {
    SmallNames();
    SmallInputValid();
    NamesKnown(Lit("verify_delivery"));
    ParseRequestText(Small(), 0);
    SmallFunded(cfg, Small().(request := Small().request.(input := Norm(SmallInput()))));
  }

  lemma SmallFunded(cfg: Config, p: Parsed)
    requires IsAddress(cfg.payee) && IsSeat(p.sender) && p.request.service == VerifyDelivery
    requires p.request.payment == Some(PAID) && IsTxn(PAID)
             && TextField(p.request.input, Lit("delivery_id")) == Some(Lit("d"))
    ensures Fundable(cfg, p)
  {
    assert |Lit("d")| == 1;
  }
}
