/** The grants of a paid attempt in every run: once stored they stay, and they are enough for the turn they were minted
    for. */
module ArenaTickets {
  import opened Texts
  import opened Services
  import opened Grants
  import opened ArenaStore
  import opened ArenaService
  import opened ArenaProtocol
  import opened ArenaRuns

  lemma MintStays(cfg: Config, s: State, w: nat, p: Parsed, attempt: Text, n: nat, k: Key)
    requires GrantsOk(cfg, s) && attempt in s.attempts && s.attempts[attempt] == p && k in s.store.grants
    ensures var t := MintStep(cfg, s, w, p, attempt, n); k in t.store.grants && t.store.grants[k] == s.store.grants[k]
  {
    var minted := AttemptGrants(cfg, p, attempt);
    if n < |minted| && k == (cfg.namespace, minted[n].id) {
      MintedFit(cfg, s.attempts, p, attempt, n);
      FitUnique(cfg, s.attempts, k.1, minted[n], s.store.grants[k]);
    }
  }

  /** Minting is the only step that stores grants. */
  lemma OnlyMintingStores(cfg: Config, s: State, a: Action)
    requires a.Work? && a.w in s.workers ==> !s.workers[a.w].phase.Minting?
    ensures Apply(cfg, s, a).store.grants == s.store.grants
  {
    if a.Use? {
      UseStays(cfg, s, a);
    }
  }

  lemma MintBegun(cfg: Config, s: State, worker: Worker)
    requires WorkerOk(cfg, s, worker) && worker.phase.Minting?
    ensures worker.phase.attempt in s.attempts && s.attempts[worker.phase.attempt] == worker.p
  {
  }

  /** No step changes a stored grant. */
  lemma GrantStays(cfg: Config, s: State, a: Action, k: Key)
    requires GrantsOk(cfg, s) && WorkersOk(cfg, s) && k in s.store.grants
    ensures var t := Apply(cfg, s, a); k in t.store.grants && t.store.grants[k] == s.store.grants[k]
  {
    if a.Work? && a.w in s.workers && s.workers[a.w].phase.Minting? {
      var worker := s.workers[a.w];
      MintBegun(cfg, s, worker);
      MintStays(cfg, s, a.w, worker.p, worker.phase.attempt, worker.phase.k, k);
      assert Apply(cfg, s, a) == MintStep(cfg, s, a.w, worker.p, worker.phase.attempt, worker.phase.k);
    } else {
      OnlyMintingStores(cfg, s, a);
    }
  }

  /** The first `n` grants of the attempt are stored. */
  predicate Stored(cfg: Config, s: State, p: Parsed, attempt: Text, n: nat) {
    var minted := AttemptGrants(cfg, p, attempt);
    forall j | 0 <= j < n && j < |minted| ::
      (cfg.namespace, minted[j].id) in s.store.grants && s.store.grants[(cfg.namespace, minted[j].id)] == minted[j]
  }

  predicate WorkerStored(cfg: Config, s: State, worker: Worker) {
    match worker.phase
    case Minting(attempt, k) => Stored(cfg, s, worker.p, attempt, k)
    case Turning(attempt) => Stored(cfg, s, worker.p, attempt, |AttemptGrants(cfg, worker.p, attempt)|)
    case Saving(attempt, _) => Stored(cfg, s, worker.p, attempt, |AttemptGrants(cfg, worker.p, attempt)|)
    case _ => true
  }

  predicate AllStored(cfg: Config, s: State) {
    forall w | w in s.workers :: WorkerStored(cfg, s, s.workers[w])
  }

  lemma WorkerStoredStays(cfg: Config, s: State, a: Action, worker: Worker)
    requires Inv(cfg, s) && WorkerStored(cfg, s, worker)
    ensures WorkerStored(cfg, Apply(cfg, s, a), worker)
  {
    forall k | k in s.store.grants
      ensures k in Apply(cfg, s, a).store.grants && Apply(cfg, s, a).store.grants[k] == s.store.grants[k]
    {
      GrantStays(cfg, s, a, k);
    }
  }

  lemma MintStores(cfg: Config, s: State, w: nat, p: Parsed, attempt: Text, k: nat)
    requires GrantsOk(cfg, s) && attempt in s.attempts && s.attempts[attempt] == p && Stored(cfg, s, p, attempt, k)
    ensures var t := MintStep(cfg, s, w, p, attempt, k); WorkerStored(cfg, t, t.workers[w])
  {
    var minted, t := AttemptGrants(cfg, p, attempt), MintStep(cfg, s, w, p, attempt, k);
    if k < |minted| {
      forall j | 0 <= j < k
        ensures (cfg.namespace, minted[j].id) in t.store.grants
                && t.store.grants[(cfg.namespace, minted[j].id)] == minted[j]
      {
        MintStays(cfg, s, w, p, attempt, k, (cfg.namespace, minted[j].id));
      }
      assert Stored(cfg, t, p, attempt, k + 1);
    } else {
      assert t.store.grants == s.store.grants;
    }
  }

  /** The worker that takes the step has the grants of its new phase. */
  lemma WorkStores(cfg: Config, s: State, w: nat, supply: Supply)
    requires Inv(cfg, s) && w in s.workers && WorkerStored(cfg, s, s.workers[w])
    ensures var t := WorkStep(cfg, s, w, supply); w in t.workers ==> WorkerStored(cfg, t, t.workers[w])
  {
    var p := s.workers[w].p;
    if s.workers[w].phase.Minting? {
      assert WorkerOk(cfg, s, s.workers[w]);
      MintStores(cfg, s, w, p, s.workers[w].phase.attempt, s.workers[w].phase.k);
    } else if s.workers[w].phase.Saving? {
      assert p.request.payment.Some? ==> w !in WorkStep(cfg, s, w, supply).workers;
    } else if s.workers[w].phase.Turning? {
      TurnStores(cfg, s, w, supply);
    } else {
      EarlyStores(cfg, s, w, supply);
    }
  }

  lemma TurnStores(cfg: Config, s: State, w: nat, supply: Supply)
    requires w in s.workers && s.workers[w].phase.Turning? && WorkerStored(cfg, s, s.workers[w])
    ensures var t := WorkStep(cfg, s, w, supply); w in t.workers && WorkerStored(cfg, t, t.workers[w])
  {
  }

  /** Before its claim a worker has no grants to have. */
  lemma EarlyStores(cfg: Config, s: State, w: nat, supply: Supply)
    requires w in s.workers
             && (s.workers[w].phase.Looking? || s.workers[w].phase.Verifying? || s.workers[w].phase.Claiming?)
    ensures var t := WorkStep(cfg, s, w, supply);
            w in t.workers ==>
              var phase := t.workers[w].phase;
              phase.Looking? || phase.Verifying? || phase.Claiming? || (phase.Minting? && phase.k == 0)
  {
  }

  lemma ApplyStores(cfg: Config, s: State, a: Action)
    requires Inv(cfg, s) && AllStored(cfg, s)
    ensures AllStored(cfg, Apply(cfg, s, a))
  {
    var t := Apply(cfg, s, a);
    forall v | v in t.workers
      ensures WorkerStored(cfg, t, t.workers[v])
    {
      if a.Work? && a.w == v {
        WorkStores(cfg, s, v, a.supply);
      } else {
        OthersStay(cfg, s, a, v);
        if t.workers[v].phase.Looking? {
        } else {
          WorkerStoredStays(cfg, s, a, s.workers[v]);
        }
      }
    }
  }

  lemma {:induction false} StoredAlways(cfg: Config, actions: seq<Action>)
    ensures AllStored(cfg, Run(cfg, actions))
  {
    if actions == [] {
    } else {
      var n := |actions| - 1;
      StoredAlways(cfg, actions[..n]);
      Safe(cfg, actions[..n]);
      ApplyStores(cfg, Run(cfg, actions[..n]), actions[n]);
    }
  }

  /** Whatever was done in between, a worker in its turn has every grant of its attempt, and the kernel allows each of
      them exactly when it has no limit or was not used yet. */
  lemma TicketsSuffice(cfg: Config, actions: seq<Action>, w: nat, attempt: Text, j: nat)
    requires var s := Run(cfg, actions);
             w in s.workers && s.workers[w].phase == Turning(attempt)
             && j < |AttemptGrants(cfg, s.workers[w].p, attempt)|
    ensures var s := Run(cfg, actions);
            var g := AttemptGrants(cfg, s.workers[w].p, attempt)[j];
            Allowed(cfg, s, g.subject, g.capability, g.id)
            <==> g.maxUses.None? || (cfg.namespace, g.id) !in s.store.usage
  {
    var s := Run(cfg, actions);
    StoredAlways(cfg, actions);
    Safe(cfg, actions);
    assert WorkerStored(cfg, s, s.workers[w]);
    StoredAllowed(cfg, s, s.workers[w].p, attempt, j);
  }

  /** A stored grant of the attempt is allowed to its subject exactly when it has no limit or is unused. */
  lemma StoredAllowed(cfg: Config, s: State, p: Parsed, attempt: Text, j: nat)
    requires UsageOk(s) && j < |AttemptGrants(cfg, p, attempt)|
             && Stored(cfg, s, p, attempt, |AttemptGrants(cfg, p, attempt)|)
    ensures var g := AttemptGrants(cfg, p, attempt)[j];
            Allowed(cfg, s, g.subject, g.capability, g.id)
            <==> g.maxUses.None? || (cfg.namespace, g.id) !in s.store.usage
  {
    OwnerIssues(cfg, p, attempt, j);
    GrantAllowed(cfg, s, AttemptGrants(cfg, p, attempt)[j]);
  }

  lemma OwnerIssues(cfg: Config, p: Parsed, attempt: Text, j: nat)
    requires j < |AttemptGrants(cfg, p, attempt)|
    ensures AttemptGrants(cfg, p, attempt)[j].issuer == cfg.owner
  {
  }

  lemma GrantAllowed(cfg: Config, s: State, g: Grant)
    requires UsageOk(s) && (cfg.namespace, g.id) in s.store.grants && s.store.grants[(cfg.namespace, g.id)] == g
             && g.issuer == cfg.owner
    ensures Allowed(cfg, s, g.subject, g.capability, g.id)
            <==> g.maxUses.None? || (cfg.namespace, g.id) !in s.store.usage
  {
  }

  predicate Fresh(cfg: Config, s: State, attempt: Text) {
    forall id | id in [RouterExec(attempt), RouterProbe(attempt), ProbeExec(attempt), ProbeTarget(attempt)] ::
      (cfg.namespace, id) !in s.store.usage
  }

  /** So the grants of a trust snapshot are enough for one canary: in a turn whose grants are unused, the service, the
      Router's turn, its message to the Probe, the Probe's turn and its message to the named seat are each allowed. */
  lemma CanaryAllowed(cfg: Config, actions: seq<Action>, w: nat, a: Text)
    requires var s := Run(cfg, actions);
             w in s.workers && s.workers[w].phase == Turning(a) && s.workers[w].p.request.service == TrustSnapshot
             && Fresh(cfg, s, a)
    ensures var s := Run(cfg, actions);
            var seat := Target(s.workers[w].p);
            && Allowed(cfg, s, ROUTER, Invoke(TrustSnapshot), RouterService(TrustSnapshot))
            && Allowed(cfg, s, ROUTER, Execute(ROUTER), RouterExec(a))
            && Allowed(cfg, s, ROUTER, SendTo(PROBE), RouterProbe(a))
            && Allowed(cfg, s, PROBE, Execute(PROBE), ProbeExec(a))
            && Allowed(cfg, s, PROBE, SendTo(Seller(seat)), ProbeTarget(a))
  {
    TicketsSuffice(cfg, actions, w, a, 0);
    TicketsSuffice(cfg, actions, w, a, 1);
    TicketsSuffice(cfg, actions, w, a, 2);
    TicketsSuffice(cfg, actions, w, a, 3);
    TicketsSuffice(cfg, actions, w, a, 4);
  }

  /** Allowed is what the kernel's step does: a message to a seller goes out exactly when it is allowed, and its ticket
      is then spent. */
  lemma SendSpendsTicket(cfg: Config, actions: seq<Action>, actor: Address, seat: Text, id: GrantId)
    ensures var s := Run(cfg, actions);
            var t := UseStep(cfg, s, actor, SendTo(Seller(seat)), id);
            && t.canaries
               == s.canaries + (if Allowed(cfg, s, actor, SendTo(Seller(seat)), id) then [Canary(id, seat)] else [])
            && !Allowed(cfg, t, actor, SendTo(Seller(seat)), id)
  {
    var s := Run(cfg, actions);
    Safe(cfg, actions);
    if Holds(cfg, s, actor, SendTo(Seller(seat)), id) {
      SellerGrant(cfg, s.attempts, id, s.store.grants[(cfg.namespace, id)]);
      SendCounted(cfg, s, actor, seat, id);
    } else {
      assert s.canaries + [] == s.canaries;
    }
  }

  lemma SendCounted(cfg: Config, s: State, actor: Address, seat: Text, id: GrantId)
    requires Holds(cfg, s, actor, SendTo(Seller(seat)), id) && s.store.grants[(cfg.namespace, id)].maxUses == Some(1)
             && UsageOk(s)
    ensures var t := UseStep(cfg, s, actor, SendTo(Seller(seat)), id);
            && t.canaries
               == s.canaries + (if Allowed(cfg, s, actor, SendTo(Seller(seat)), id) then [Canary(id, seat)] else [])
            && !Allowed(cfg, t, actor, SendTo(Seller(seat)), id)
  {
  }
}
