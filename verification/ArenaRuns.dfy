/** Runs of the paid protocol: what a saved response keeps, and what one worker left alone does. */
module ArenaRuns {
  import opened Texts
  import opened Services
  import opened Grants
  import opened SharedNet
  import opened ArenaStore
  import opened ArenaService
  import opened ArenaProtocol

  ghost function RunFrom(cfg: Config, s: State, actions: seq<Action>): State {
    if actions == [] then s else Apply(cfg, RunFrom(cfg, s, actions[..|actions| - 1]), actions[|actions| - 1])
  }

  // ---------- what one step leaves ----------

  lemma UseStays(cfg: Config, s: State, a: Action)
    requires a.Use?
    ensures Apply(cfg, s, a).store.grants == s.store.grants && Apply(cfg, s, a).workers == s.workers
  {
    UseTouches(cfg, s, a.actor, a.capability, a.id);
  }

  /** A step touches one worker at most. */
  lemma OthersStay(cfg: Config, s: State, a: Action, v: nat)
    requires v in Apply(cfg, s, a).workers && !(a.Work? && a.w == v)
    ensures (v in s.workers && Apply(cfg, s, a).workers[v] == s.workers[v])
            || Apply(cfg, s, a).workers[v].phase.Looking?
  {
    if a.Use? {
      UseStays(cfg, s, a);
    }
  }

  /** Facts only accumulate. */
  lemma ApplyGrows(cfg: Config, s: State, a: Action)
    ensures ArenaProtocol.Grows(s, Apply(cfg, s, a))
  {
    if a.Use? {
      UseTouches(cfg, s, a.actor, a.capability, a.id);
    } else if a.Work? && a.w in s.workers {
      WorkGrows(cfg, s, a.w, a.supply);
    }
  }

  lemma WorkGrows(cfg: Config, s: State, w: nat, supply: Supply)
    requires w in s.workers
    ensures ArenaProtocol.Grows(s, WorkStep(cfg, s, w, supply))
  {
  }

  // ---------- saved responses ----------

  /** Under interleaving a later turn may replace a saved response, but only under the same fingerprint. */
  lemma ApplyKeepsSaved(cfg: Config, s: State, a: Action, id: Text)
    requires id in s.store.responses
    ensures var t := Apply(cfg, s, a);
            id in t.store.responses && t.store.responses[id].fingerprint == s.store.responses[id].fingerprint
  {
    if a.Use? {
      UseTouches(cfg, s, a.actor, a.capability, a.id);
    }
  }

  lemma {:induction false} SavedFingerprintStays(cfg: Config, s: State, actions: seq<Action>, id: Text)
    requires id in s.store.responses
    ensures var t := RunFrom(cfg, s, actions);
            id in t.store.responses && t.store.responses[id].fingerprint == s.store.responses[id].fingerprint
  {
    if actions == [] {
    } else {
      var n := |actions| - 1;
      SavedFingerprintStays(cfg, s, actions[..n], id);
      ApplyKeepsSaved(cfg, RunFrom(cfg, s, actions[..n]), actions[n], id);
    }
  }

  /** Some request with this id and fingerprint was run. */
  ghost predicate RanUnder(cfg: Config, executed: seq<Parsed>, id: Text, fingerprint: Text) {
    exists p :: p in executed && p.request.id == id && Fingerprint(cfg.hash, p) == fingerprint
  }

  /** A saved response belongs to a turn that ran under its id and fingerprint. */
  ghost predicate SavedRan(cfg: Config, s: State) {
    forall id | id in s.store.responses :: RanUnder(cfg, s.executed, id, s.store.responses[id].fingerprint)
  }

  lemma SaveRan(cfg: Config, s: State, w: nat, p: Parsed, end: TurnEnd)
    requires SavedRan(cfg, s) && p in s.executed
    ensures SavedRan(cfg, SaveStep(cfg, s, w, p, end))
  {
    assert RanUnder(cfg, s.executed, p.request.id, Fingerprint(cfg.hash, p));
  }

  lemma OtherStepsSaveNothing(cfg: Config, s: State, a: Action)
    requires a.Work? && a.w in s.workers ==> !s.workers[a.w].phase.Saving?
    ensures Apply(cfg, s, a).store.responses == s.store.responses && s.executed <= Apply(cfg, s, a).executed
  {
    if a.Use? {
      UseTouches(cfg, s, a.actor, a.capability, a.id);
    }
  }

  lemma SavedRanStays(cfg: Config, s: State, t: State)
    requires SavedRan(cfg, s) && t.store.responses == s.store.responses && s.executed <= t.executed
    ensures SavedRan(cfg, t)
  {
    forall id | id in t.store.responses
      ensures RanUnder(cfg, t.executed, id, t.store.responses[id].fingerprint)
    {
      assert RanUnder(cfg, s.executed, id, s.store.responses[id].fingerprint);
    }
  }

  lemma ApplyRan(cfg: Config, s: State, a: Action)
    requires WorkersOk(cfg, s) && SavedRan(cfg, s)
    ensures SavedRan(cfg, Apply(cfg, s, a))
  {
    if a.Work? && a.w in s.workers && s.workers[a.w].phase.Saving? {
      assert WorkerOk(cfg, s, s.workers[a.w]);
      SaveRan(cfg, s, a.w, s.workers[a.w].p, s.workers[a.w].phase.end);
    } else {
      OtherStepsSaveNothing(cfg, s, a);
      SavedRanStays(cfg, s, Apply(cfg, s, a));
    }
  }

  lemma {:induction false} SavedRanAlways(cfg: Config, actions: seq<Action>)
    ensures SavedRan(cfg, Run(cfg, actions))
  {
    if actions == [] {
    } else {
      var n := |actions| - 1;
      SavedRanAlways(cfg, actions[..n]);
      Safe(cfg, actions[..n]);
      ApplyRan(cfg, Run(cfg, actions[..n]), actions[n]);
    }
  }

  /** Every saved response was run and paid for. */
  lemma SavedIsPaid(cfg: Config, actions: seq<Action>, id: Text)
    requires id in Run(cfg, actions).store.responses
    ensures var s := Run(cfg, actions);
            exists p, row, q, i :: p in s.executed && p.request.id == id
              && Fingerprint(cfg.hash, p) == s.store.responses[id].fingerprint
                                   && PaidBy(cfg, s, p, row, q, i)
  {
    var s := Run(cfg, actions);
    SavedRanAlways(cfg, actions);
    Safe(cfg, actions);
    assert RanUnder(cfg, s.executed, id, s.store.responses[id].fingerprint);
    var p :| p in s.executed && p.request.id == id && Fingerprint(cfg.hash, p) == s.store.responses[id].fingerprint;
    var row, q, i := RowOfClaim(cfg, s, p);
  }

  // ---------- one worker left alone ----------

  /** `n` steps of one worker with nothing in between. */
  ghost function Steps(cfg: Config, s: State, w: nat, supply: Supply, n: nat): State
    decreases n
  {
    if n == 0 then s else Steps(cfg, Apply(cfg, s, Work(w, supply)), w, supply, n - 1)
  }

  lemma {:induction false} StepsJoin(cfg: Config, s: State, w: nat, supply: Supply, m: nat, n: nat)
    ensures Steps(cfg, s, w, supply, m + n) == Steps(cfg, Steps(cfg, s, w, supply, m), w, supply, n)
    decreases m
  {
    if m == 0 {
    } else {
      StepsJoin(cfg, Apply(cfg, s, Work(w, supply)), w, supply, m - 1, n);
    }
  }

  lemma {:induction false} GoneIsIdle(cfg: Config, s: State, w: nat, supply: Supply, n: nat)
    requires w !in s.workers
    ensures Steps(cfg, s, w, supply, n) == s
  {
    if n == 0 {
    } else {
      GoneIsIdle(cfg, s, w, supply, n - 1);
    }
  }

  /** All grants minted and the turn started, from a state whose grants were `base` before the minting. */
  function Turned(cfg: Config, s: State, w: nat, p: Parsed, attempt: Text, base: map<Key, Grant>): State {
    s.(workers := s.workers[w := Worker(p, Turning(attempt))],
       store := s.store.(grants := WithGrants(base, cfg.namespace, AttemptGrants(cfg, p, attempt))),
       executed := s.executed + [p])
  }

  lemma MintOne(cfg: Config, s: State, w: nat, supply: Supply, p: Parsed, attempt: Text, k: nat, base: map<Key, Grant>)
    requires w in s.workers && s.workers[w] == Worker(p, Minting(attempt, k)) && k < |AttemptGrants(cfg, p, attempt)|
    requires s.store.grants == WithGrants(base, cfg.namespace, AttemptGrants(cfg, p, attempt)[..k])
    ensures var t := Apply(cfg, s, Work(w, supply));
            && t.workers == s.workers[w := Worker(p, Minting(attempt, k + 1))]
            && t.store.grants == WithGrants(base, cfg.namespace, AttemptGrants(cfg, p, attempt)[..k + 1])
            && Turned(cfg, t, w, p, attempt, base) == Turned(cfg, s, w, p, attempt, base)
  {
    var grants := AttemptGrants(cfg, p, attempt);
    assert grants[..k + 1] == grants[..k] + [grants[k]];
    WithGrantsStep(base, cfg.namespace, grants[..k], grants[k]);
    assert Apply(cfg, s, Work(w, supply)) == MintStep(cfg, s, w, p, attempt, k);
  }

  lemma MintDone(cfg: Config, s: State, w: nat, supply: Supply, p: Parsed, attempt: Text, base: map<Key, Grant>)
    requires w in s.workers && s.workers[w] == Worker(p, Minting(attempt, |AttemptGrants(cfg, p, attempt)|))
    requires s.store.grants == WithGrants(base, cfg.namespace, AttemptGrants(cfg, p, attempt))
    ensures Apply(cfg, s, Work(w, supply)) == Turned(cfg, s, w, p, attempt, base)
  {
    assert Apply(cfg, s, Work(w, supply)) == MintStep(cfg, s, w, p, attempt, |AttemptGrants(cfg, p, attempt)|);
  }

  /** Minting to the end, and the start of the turn. */
  lemma {:induction false} MintAll(cfg: Config, s: State, w: nat, supply: Supply, p: Parsed, attempt: Text, k: nat,
                                   base: map<Key, Grant>)
    requires w in s.workers && s.workers[w] == Worker(p, Minting(attempt, k)) && k <= |AttemptGrants(cfg, p, attempt)|
    requires s.store.grants == WithGrants(base, cfg.namespace, AttemptGrants(cfg, p, attempt)[..k])
    ensures Steps(cfg, s, w, supply, |AttemptGrants(cfg, p, attempt)| - k + 1) == Turned(cfg, s, w, p, attempt, base)
    decreases |AttemptGrants(cfg, p, attempt)| - k
  {
    var grants := AttemptGrants(cfg, p, attempt);
    var t := Apply(cfg, s, Work(w, supply));
    FirstOfSteps(cfg, s, w, supply, |grants| - k);
    if k < |grants| {
      MintOne(cfg, s, w, supply, p, attempt, k, base);
      MintAll(cfg, t, w, supply, p, attempt, k + 1, base);
    } else {
      assert grants[..k] == grants;
      MintDone(cfg, s, w, supply, p, attempt, base);
    }
  }

  lemma FirstOfSteps(cfg: Config, s: State, w: nat, supply: Supply, n: nat)
    ensures Steps(cfg, s, w, supply, n + 1) == Steps(cfg, Apply(cfg, s, Work(w, supply)), w, supply, n)
    ensures Steps(cfg, s, w, supply, 0) == s
  {
  }

  /** What the world supplies is possible: transfers of the ledger, an outcome the claim can have, a new attempt. */
  ghost predicate Possible(cfg: Config, s: State, p: Parsed, supply: Supply) {
    && (supply.page.Some? ==> forall i | i in supply.page.value :: i in s.ledger)
    && (p.request.payment.Some? ==> ClaimMay(s.store.payments, RowFor(cfg, p), supply.claim))
    && supply.attempt !in s.attempts
  }

  /** The worker's turn has started. */
  function TurnStarted(cfg: Config, s: State, w: nat, p: Parsed, supply: Supply): State
    requires p.request.payment.Some?
  {
    var store := s.store.(payments := AfterClaim(s.store.payments, RowFor(cfg, p), supply.claim),
                          grants := WithGrants(s.store.grants, cfg.namespace, AttemptGrants(cfg, p, supply.attempt)));
    s.(workers := s.workers[w := Worker(p, Turning(supply.attempt))], store := store,
       attempts := s.attempts[supply.attempt := p], executed := s.executed + [p])
  }

  lemma LookPasses(cfg: Config, s: State, w: nat, p: Parsed, supply: Supply)
    requires w in s.workers && s.workers[w] == Worker(p, Looking) && EarlyAnswer(cfg, s.store.responses, p).None?
    ensures Apply(cfg, s, Work(w, supply)) == Moved(s, w, p, Verifying)
  {
  }

  lemma VerifyPasses(cfg: Config, s: State, w: nat, p: Parsed, supply: Supply)
    requires w in s.workers && s.workers[w] == Worker(p, Verifying) && p.request.payment.Some?
             && PaymentAnswer(cfg, p, supply.page).None?
    requires supply.page.Some? ==> forall i | i in supply.page.value :: i in s.ledger
    ensures Apply(cfg, s, Work(w, supply)) == Moved(s, w, p, Claiming)
  {
  }

  lemma ClaimReached(cfg: Config, s: State, w: nat, p: Parsed, supply: Supply)
    requires w in s.workers && s.workers[w] == Worker(p, Looking)
    requires EarlyAnswer(cfg, s.store.responses, p).None? && PaymentAnswer(cfg, p, supply.page).None?
             && Possible(cfg, s, p, supply)
    ensures Steps(cfg, s, w, supply, 2) == Moved(s, w, p, Claiming)
  {
    var t := Moved(s, w, p, Verifying);
    LookPasses(cfg, s, w, p, supply);
    VerifyPasses(cfg, t, w, p, supply);
    FirstOfSteps(cfg, s, w, supply, 1);
    FirstOfSteps(cfg, t, w, supply, 0);
    assert Moved(t, w, p, Claiming) == Moved(s, w, p, Claiming);
  }

  lemma ClaimTaken(cfg: Config, s: State, w: nat, p: Parsed, supply: Supply)
    requires w in s.workers && s.workers[w] == Worker(p, Claiming) && p.request.payment.Some?
             && Possible(cfg, s, p, supply)
    ensures Apply(cfg, s, Work(w, supply)) == ClaimStep(cfg, s, w, p, supply.claim, supply.attempt)
    ensures !supply.claim.Conflict? ==>
            ClaimStep(cfg, s, w, p, supply.claim, supply.attempt)
              == s.(workers := s.workers[w := Worker(p, Minting(supply.attempt, 0))],
                    attempts := s.attempts[supply.attempt := p],
                    store := s.store.(payments := AfterClaim(s.store.payments, RowFor(cfg, p), supply.claim)))
  {
  }

  lemma TurnFromClaim(cfg: Config, s: State, w: nat, p: Parsed, supply: Supply)
    requires w in s.workers && s.workers[w] == Worker(p, Claiming) && Possible(cfg, s, p, supply)
             && !supply.claim.Conflict?
    requires p.request.payment.Some?
    ensures Steps(cfg, s, w, supply, |AttemptGrants(cfg, p, supply.attempt)| + 2) == TurnStarted(cfg, s, w, p, supply)
  {
    var u := ClaimStep(cfg, s, w, p, supply.claim, supply.attempt);
    var n := |AttemptGrants(cfg, p, supply.attempt)|;
    ClaimTaken(cfg, s, w, p, supply);
    FirstOfSteps(cfg, s, w, supply, n + 1);
    MintAll(cfg, u, w, supply, p, supply.attempt, 0, s.store.grants);
    SameEnd(cfg, s, u, w, p, supply);
  }

  /** A worker whose claim passes reaches its turn with its row, its grants and its attempt in place. */
  lemma ReachTurn(cfg: Config, s: State, w: nat, p: Parsed, supply: Supply)
    requires w in s.workers && s.workers[w] == Worker(p, Looking) && Possible(cfg, s, p, supply)
             && !supply.claim.Conflict?
    requires EarlyAnswer(cfg, s.store.responses, p).None? && PaymentAnswer(cfg, p, supply.page).None?
    ensures Steps(cfg, s, w, supply, |AttemptGrants(cfg, p, supply.attempt)| + 4) == TurnStarted(cfg, s, w, p, supply)
  {
    var t := Moved(s, w, p, Claiming);
    ClaimReached(cfg, s, w, p, supply);
    StepsJoin(cfg, s, w, supply, 2, |AttemptGrants(cfg, p, supply.attempt)| + 2);
    TurnFromClaim(cfg, t, w, p, supply);
    assert TurnStarted(cfg, t, w, p, supply) == TurnStarted(cfg, s, w, p, supply);
  }

  lemma SameEnd(cfg: Config, s: State, u: State, w: nat, p: Parsed, supply: Supply)
    requires p.request.payment.Some?
    requires u == s.(workers := s.workers[w := Worker(p, Minting(supply.attempt, 0))],
                     attempts := s.attempts[supply.attempt := p],
                     store := s.store.(payments := AfterClaim(s.store.payments, RowFor(cfg, p), supply.claim)))
    ensures Turned(cfg, u, w, p, supply.attempt, s.store.grants) == TurnStarted(cfg, s, w, p, supply)
  {
  }

  lemma EndAndSave(cfg: Config, s: State, w: nat, p: Parsed, attempt: Text, supply: Supply)
    requires w in s.workers && s.workers[w] == Worker(p, Turning(attempt)) && p.request.payment.Some?
    ensures var t := Steps(cfg, s, w, supply, 2);
            t.store == s.store.(responses := AfterTurn(cfg, s.store.responses, p, supply.end)) && w !in t.workers
  {
    var t := Moved(s, w, p, Saving(attempt, supply.end));
    assert Apply(cfg, s, Work(w, supply)) == t;
    FirstOfSteps(cfg, s, w, supply, 1);
    FirstOfSteps(cfg, t, w, supply, 0);
    assert Apply(cfg, t, Work(w, supply)) == SaveStep(cfg, t, w, p, supply.end);
  }

  lemma StopsAtLook(cfg: Config, s: State, w: nat, p: Parsed, supply: Supply, n: nat)
    requires w in s.workers && s.workers[w] == Worker(p, Looking) && EarlyAnswer(cfg, s.store.responses, p).Some?
    ensures Steps(cfg, s, w, supply, n + 1) == Gone(s, w)
  {
    FirstOfSteps(cfg, s, w, supply, n);
    assert Apply(cfg, s, Work(w, supply)) == Gone(s, w);
    GoneIsIdle(cfg, Gone(s, w), w, supply, n);
  }

  lemma StopsAtLedger(cfg: Config, s: State, w: nat, p: Parsed, supply: Supply, n: nat)
    requires w in s.workers && s.workers[w] == Worker(p, Verifying) && Possible(cfg, s, p, supply)
    requires p.request.payment.Some? && PaymentAnswer(cfg, p, supply.page).Some?
    ensures Steps(cfg, s, w, supply, n + 1) == Gone(s, w)
  {
    FirstOfSteps(cfg, s, w, supply, n);
    assert Apply(cfg, s, Work(w, supply)) == Gone(s, w);
    GoneIsIdle(cfg, Gone(s, w), w, supply, n);
  }

  lemma StopsAtClaim(cfg: Config, s: State, w: nat, p: Parsed, supply: Supply, n: nat)
    requires w in s.workers && s.workers[w] == Worker(p, Claiming) && Possible(cfg, s, p, supply)
    requires p.request.payment.Some? && supply.claim.Conflict?
    ensures Steps(cfg, s, w, supply, n + 1) == Gone(s, w)
  {
    FirstOfSteps(cfg, s, w, supply, n);
    ClaimTaken(cfg, s, w, p, supply);
    GoneIsIdle(cfg, Gone(s, w), w, supply, n);
  }

  lemma StopsEarly(cfg: Config, s: State, w: nat, p: Parsed, supply: Supply, n: nat)
    requires w in s.workers && s.workers[w] == Worker(p, Looking) && Possible(cfg, s, p, supply)
    requires EarlyAnswer(cfg, s.store.responses, p).Some? || PaymentAnswer(cfg, p, supply.page).Some?
             || supply.claim.Conflict?
    ensures Steps(cfg, s, w, supply, n + 3) == Gone(s, w)
  {
    if EarlyAnswer(cfg, s.store.responses, p).Some? {
      StopsAtLook(cfg, s, w, p, supply, n + 2);
    } else if PaymentAnswer(cfg, p, supply.page).Some? {
      LookPasses(cfg, s, w, p, supply);
      FirstOfSteps(cfg, s, w, supply, n + 2);
      StopsAtLedger(cfg, Moved(s, w, p, Verifying), w, p, supply, n + 1);
      assert Gone(Moved(s, w, p, Verifying), w) == Gone(s, w);
    } else {
      ClaimReached(cfg, s, w, p, supply);
      StepsJoin(cfg, s, w, supply, 2, n + 1);
      StopsAtClaim(cfg, Moved(s, w, p, Claiming), w, p, supply, n);
      assert Gone(Moved(s, w, p, Claiming), w) == Gone(s, w);
    }
  }

  ghost predicate OnlyUses(uses: seq<Action>) {
    forall a | a in uses :: a.Use?
  }

  /** The grant a use is measured by, if it is held and has a maximum. */
  function Meter(cfg: Config, s: State, actor: Address, capability: Capability, id: GrantId): Option<int> {
    if Holds(cfg, s, actor, capability, id) then s.store.grants[(cfg.namespace, id)].maxUses else None
  }

  /** The uses that are counted, each with its grant's maximum: those of held grants that have one. */
  function Metered(cfg: Config, s: State, uses: seq<Action>): seq<(GrantId, int)> {
    if uses == [] then []
    else
      Metered(cfg, s, uses[..|uses| - 1]) +
      match uses[|uses| - 1]
      case Use(actor, capability, id) =>
        (match Meter(cfg, s, actor, capability, id) case Some(maximum) => [(id, maximum)] case None => [])
      case _ => []
  }

  /** The kernel's uses change the counters as the metered uses do, and else only the canaries. */
  lemma {:induction false} UsesMetered(cfg: Config, s: State, uses: seq<Action>)
    requires OnlyUses(uses)
    ensures var t := RunFrom(cfg, s, uses);
            t == s.(store := s.store.(usage := WithUses(s.store.usage, cfg.namespace, Metered(cfg, s, uses))),
                    canaries := t.canaries)
    decreases |uses|
  {
    if uses == [] {
    } else {
      var front, last := uses[..|uses| - 1], uses[|uses| - 1];
      assert last in uses && OnlyUses(front) && uses == front + [last];
      UsesMetered(cfg, s, front);
      MeteredNext(cfg, s, RunFrom(cfg, s, front), front, last.actor, last.capability, last.id);
      assert last == Use(last.actor, last.capability, last.id);
    }
  }

  lemma MeteredNext(cfg: Config, s: State, u: State, front: seq<Action>, actor: Address, capability: Capability,
                    id: GrantId)
    requires u == s.(store := s.store.(usage := WithUses(s.store.usage, cfg.namespace, Metered(cfg, s, front))),
                     canaries := u.canaries)
    ensures var t, uses := UseStep(cfg, u, actor, capability, id), front + [Use(actor, capability, id)];
            t == s.(store := s.store.(usage := WithUses(s.store.usage, cfg.namespace, Metered(cfg, s, uses))),
                    canaries := t.canaries)
  {
    UseChangesUsage(cfg, u, actor, capability, id);
    UsageNext(cfg, s, u, front, actor, capability, id);
  }

  lemma UsageNext(cfg: Config, s: State, u: State, front: seq<Action>, actor: Address, capability: Capability,
                  id: GrantId)
    requires u.store.usage == WithUses(s.store.usage, cfg.namespace, Metered(cfg, s, front))
             && u.store.grants == s.store.grants
    ensures UseStep(cfg, u, actor, capability, id).store.usage
            == WithUses(s.store.usage, cfg.namespace, Metered(cfg, s, front + [Use(actor, capability, id)]))
  {
    var maximum := Meter(cfg, s, actor, capability, id);
    OneMetered(cfg, u, actor, capability, id);
    MeteredStep(cfg, s, front, actor, capability, id);
    if maximum.Some? {
      WithUsesStep(s.store.usage, cfg.namespace, Metered(cfg, s, front), (id, maximum.value));
    } else {
      assert Metered(cfg, s, front) + [] == Metered(cfg, s, front);
    }
  }

  lemma WithUsesStep(usage: map<Key, int>, namespace: Text, uses: seq<(GrantId, int)>, u: (GrantId, int))
    ensures WithUses(usage, namespace, uses + [u]) == WithUses(WithUses(usage, namespace, uses), namespace, [u])
  {
    assert (uses + [u])[..|uses|] == uses;
    assert [u][..0] == [];
  }

  lemma WithOneUse(usage: map<Key, int>, namespace: Text, id: GrantId, maximum: int)
    ensures WithUses(usage, namespace, []) == usage
    ensures var key := (namespace, id);
            WithUses(usage, namespace, [(id, maximum)])
            == usage[key := Consumed(if key in usage then Some(usage[key]) else None, maximum).0.value]
  {
    assert [(id, maximum)][..0] == [];
  }

  lemma UseChangesUsage(cfg: Config, s: State, actor: Address, capability: Capability, id: GrantId)
    ensures var t := UseStep(cfg, s, actor, capability, id);
            t == s.(store := s.store.(usage := t.store.usage), canaries := t.canaries)
  {
  }

  lemma MeteredStep(cfg: Config, s: State, uses: seq<Action>, actor: Address, capability: Capability, id: GrantId)
    ensures Metered(cfg, s, uses + [Use(actor, capability, id)])
            == Metered(cfg, s, uses) +
               match Meter(cfg, s, actor, capability, id) case Some(maximum) => [(id, maximum)] case None => []
  {
    assert (uses + [Use(actor, capability, id)])[..|uses|] == uses;
  }

  lemma OneMetered(cfg: Config, s: State, actor: Address, capability: Capability, id: GrantId)
    ensures UseStep(cfg, s, actor, capability, id).store.usage ==
            match Meter(cfg, s, actor, capability, id)
            case Some(maximum) => WithUses(s.store.usage, cfg.namespace, [(id, maximum)])
            case None => s.store.usage
  {
    var maximum := Meter(cfg, s, actor, capability, id);
    if maximum.Some? {
      WithOneUse(s.store.usage, cfg.namespace, id, maximum.value);
    }
  }

  /** One worker's request with nothing in between but the kernel's uses, made while its turn is on. */
  ghost function Alone(cfg: Config, s: State, w: nat, p: Parsed, supply: Supply, uses: seq<Action>): State {
    var t := Steps(cfg, s, w, supply, |AttemptGrants(cfg, p, supply.attempt)| + 4);
    if w in t.workers then Steps(cfg, RunFrom(cfg, t, uses), w, supply, 2) else t
  }

  lemma LoneTurn(cfg: Config, s: State, w: nat, p: Parsed, supply: Supply, uses: seq<Action>)
    requires w in s.workers && s.workers[w] == Worker(p, Looking) && Possible(cfg, s, p, supply)
             && !supply.claim.Conflict?
    requires EarlyAnswer(cfg, s.store.responses, p).None? && PaymentAnswer(cfg, p, supply.page).None? && OnlyUses(uses)
    ensures var t, after := TurnStarted(cfg, s, w, p, supply), Alone(cfg, s, w, p, supply, uses);
            && w !in after.workers
            && after.store == t.store.(usage := WithUses(t.store.usage, cfg.namespace, Metered(cfg, t, uses)),
                                       responses := AfterTurn(cfg, s.store.responses, p, supply.end))
  {
    var t := TurnStarted(cfg, s, w, p, supply);
    ReachTurn(cfg, s, w, p, supply);
    UsesMetered(cfg, t, uses);
    EndAndSave(cfg, RunFrom(cfg, t, uses), w, p, supply.attempt, supply);
  }

  /** A worker that nothing but its own turn's uses interrupts does to the store exactly what `processRequest` does with
      those uses. */
  lemma AloneIsProcess(cfg: Config, s: State, w: nat, p: Parsed, supply: Supply, uses: seq<Action>)
    requires w in s.workers && s.workers[w] == Worker(p, Looking) && Possible(cfg, s, p, supply) && OnlyUses(uses)
    ensures var t := Steps(cfg, s, w, supply, |AttemptGrants(cfg, p, supply.attempt)| + 4);
            var env := Env(supply.page, supply.claim, supply.attempt, Metered(cfg, t, uses), supply.end);
            && Alone(cfg, s, w, p, supply, uses).store == Process(cfg, s.store, p, env).0
            && w !in Alone(cfg, s, w, p, supply, uses).workers
  {
    var n := |AttemptGrants(cfg, p, supply.attempt)|;
    if EarlyAnswer(cfg, s.store.responses, p).Some? || PaymentAnswer(cfg, p, supply.page).Some?
       || supply.claim.Conflict? {
      StopsEarly(cfg, s, w, p, supply, n + 1);
    } else {
      ReachTurn(cfg, s, w, p, supply);
      LoneTurn(cfg, s, w, p, supply, uses);
    }
  }
}
