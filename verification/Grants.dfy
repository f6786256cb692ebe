/** The exact-recipient grants one paid attempt is given, and who may hold what. */
module Grants {
  import opened Texts
  import opened Services

  datatype Address = Agent(id: Text) | Seller(seat: Text)

  const ROUTER := Agent(Lit("counterparty-router"))
  const PROBE := Agent(Lit("counterparty-probe"))

  /** Scope "exact" throughout. */
  datatype Capability = Invoke(service: Service) | Execute(agent: Address) | SendTo(recipient: Address)

  /** Grant ids are built from the service or from the attempt's UUID. */
  datatype GrantId =
    | RouterService(service: Service)
    | RouterExec(attempt: Text)
    | RouterProbe(attempt: Text)
    | ProbeExec(attempt: Text)
    | ProbeTarget(attempt: Text)

  datatype Grant = Grant(id: GrantId, subject: Address, issuer: Text, capability: Capability, maxUses: Option<int>)

  function RouterServiceGrant(owner: Text, service: Service): Grant {
    Grant(RouterService(service), ROUTER, owner, Invoke(service), None)
  }

  function RouterExecutionGrant(owner: Text, attempt: Text): Grant {
    Grant(RouterExec(attempt), ROUTER, owner, Execute(ROUTER), Some(1))
  }

  function RouterProbeMessageGrant(owner: Text, attempt: Text): Grant {
    Grant(RouterProbe(attempt), ROUTER, owner, SendTo(PROBE), Some(1))
  }

  function ProbeExecutionGrant(owner: Text, attempt: Text): Grant {
    Grant(ProbeExec(attempt), PROBE, owner, Execute(PROBE), Some(1))
  }

  function ProbeMessageGrant(owner: Text, attempt: Text, seat: Text): Grant {
    Grant(ProbeTarget(attempt), PROBE, owner, SendTo(Seller(seat)), Some(1))
  }

  /** The grants one attempt stores, in order. `target` is the seat a trust snapshot names. */
  function Minted(owner: Text, service: Service, target: Text, attempt: Text): seq<Grant> {
    [RouterServiceGrant(owner, service), RouterExecutionGrant(owner, attempt)]
    + if service.TrustSnapshot?
      then [RouterProbeMessageGrant(owner, attempt), ProbeExecutionGrant(owner, attempt),
            ProbeMessageGrant(owner, attempt, target)]
      else []
  }

  function GrantName(id: GrantId): Text {
    match id
    case RouterService(service) => Lit("grant-router-") + NameOf(service)
    case RouterExec(attempt) => Lit("grant-router-exec-") + attempt
    case RouterProbe(attempt) => Lit("grant-router-probe-") + attempt
    case ProbeExec(attempt) => Lit("grant-probe-exec-") + attempt
    case ProbeTarget(attempt) => Lit("grant-probe-target-") + attempt
  }

  /** A priced service, or an attempt of a UUID's length. */
  predicate WellNamed(id: GrantId) {
    match id
    case RouterService(service) => Price(service).Some?
    case RouterExec(attempt) => |attempt| == 36
    case RouterProbe(attempt) => |attempt| == 36
    case ProbeExec(attempt) => |attempt| == 36
    case ProbeTarget(attempt) => |attempt| == 36
  }

  lemma CommonPrefix(prefix: Text, a: Text, b: Text)
    requires prefix + a == prefix + b
    ensures a == b
  {
    assert (prefix + a)[|prefix|..] == a && (prefix + b)[|prefix|..] == b;
  }

  lemma PriceNames(s: Service)
    requires Price(s).Some?
    ensures |NameOf(s)| == 14 || |NameOf(s)| == 15
    ensures s.VerifyDelivery? <==> |NameOf(s)| == 15
    ensures s.TrustSnapshot? ==> NameOf(s)[0] == Code('t')
    ensures s.BestExecution? ==> NameOf(s)[0] == Code('b')
  {
  }

  /** Different grants have different names in the store, so no two attempts share a use counter. */
  lemma GrantNamesDistinct(a: GrantId, b: GrantId)
    requires WellNamed(a) && WellNamed(b) && GrantName(a) == GrantName(b)
    ensures a == b
  {
    var exec, probe := Lit("grant-router-exec-"), Lit("grant-router-probe-");
    var pexec, ptarget := Lit("grant-probe-exec-"), Lit("grant-probe-target-");
    assert |Lit("grant-router-")| == 13 && |exec| == 18 && |probe| == 19 && |pexec| == 17 && |ptarget| == 19;
    if a.RouterService? && b.RouterService? {
      CommonPrefix(Lit("grant-router-"), NameOf(a.service), NameOf(b.service));
      PriceNames(a.service);
      PriceNames(b.service);
    } else if a.RouterService? {
      PriceNames(a.service);
    } else if b.RouterService? {
      PriceNames(b.service);
    } else {
      assert GrantName(a)[6] == GrantName(b)[6] && probe[6] != ptarget[6];
      CommonPrefix(GrantName(a)[..|GrantName(a)| - 36], a.attempt, b.attempt);
    }
  }
}
