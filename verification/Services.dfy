/** The three paid services, their names and prices. */
module Services {
  import opened Texts

  /** `service in PRICES` also admits the names every object inherits; those have no price and no tool. */
  datatype Service = TrustSnapshot | VerifyDelivery | BestExecution | Inherited(name: Text)

  const INHERITED: seq<string> :=
    ["constructor", "__proto__", "__defineGetter__", "__defineSetter__", "__lookupGetter__", "__lookupSetter__",
     "hasOwnProperty", "isPrototypeOf", "propertyIsEnumerable", "toLocaleString", "toString", "valueOf"]

  function NameOf(s: Service): Text {
    match s
    case TrustSnapshot => Lit("trust_snapshot")
    case VerifyDelivery => Lit("verify_delivery")
    case BestExecution => Lit("best_execution")
    case Inherited(name) => name
  }

  function ServiceNamed(t: Text): Option<Service> {
    if t == Lit("trust_snapshot") then Some(TrustSnapshot)
    else if t == Lit("verify_delivery") then Some(VerifyDelivery)
    else if t == Lit("best_execution") then Some(BestExecution)
    else if exists i | 0 <= i < |INHERITED| :: t == Lit(INHERITED[i]) then Some(Inherited(t))
    else None
  }

  /** A service the code can meet: one that was parsed from its name. */
  predicate Known(s: Service) {
    ServiceNamed(NameOf(s)) == Some(s)
  }

  function Price(s: Service): Option<nat> {
    match s
    case TrustSnapshot => Some(4)
    case VerifyDelivery => Some(7)
    case BestExecution => Some(10)
    case Inherited(_) => None
  }

  lemma NamesKnown(t: Text)
    ensures Known(TrustSnapshot) && Known(VerifyDelivery) && Known(BestExecution)
    ensures ServiceNamed(t).Some? ==> NameOf(ServiceNamed(t).value) == t && Known(ServiceNamed(t).value)
  {
    assert |Lit("trust_snapshot")| == 14 && |Lit("verify_delivery")| == 15 && |Lit("best_execution")| == 14;
    assert Lit("trust_snapshot")[0] != Lit("best_execution")[0];
  }

  /** The price decides the service, so a transfer for one service never pays for another. */
  lemma PriceDecidesService(a: Service, b: Service)
    requires Price(a).Some? && Price(a) == Price(b)
    ensures a == b
  {
  }
}
