/** The Arena service's database: grants and their use counters, claimed payments and cached responses. */
module ArenaStore {
  import opened Texts
  import opened Services
  import opened Grants

  type Key = (Text, GrantId)

  datatype Payment = Payment(txn: Text, request: Text, fingerprint: Text, service: Service, amount: Option<nat>,
                             room: Text)

  datatype Saved<R> = Saved(fingerprint: Text, response: R)

  /** The four tables; `R` is the type of a response. */
  datatype Store<R> = Store(grants: map<Key, Grant>, usage: map<Key, int>, payments: seq<Payment>,
                            responses: map<Text, Saved<R>>)

  function EmptyStore<R>(): Store<R> {
    Store(map[], map[], [], map[])
  }

  /** The grants a kernel is given for one actor and one authority. */
  function Loaded(grants: map<Key, Grant>, namespace: Text, actor: Address, authority: Text): set<Grant> {
    set k | k in grants && k.0 == namespace && grants[k].subject == actor && grants[k].issuer == authority :: grants[k]
  }

  datatype Claim = Claimed | SameRequest | Conflict

  predicate Touches(row: Payment, p: Payment) {
    row.txn == p.txn || row.request == p.request
  }

  predicate Binds(row: Payment, p: Payment) {
    row.request == p.request && row.fingerprint == p.fingerprint
  }

  /** What the query may return: any row with the transfer or the request id. */
  predicate Answers(rows: seq<Payment>, p: Payment, row: Payment) {
    row in rows && Touches(row, p)
  }

  function Judge(row: Payment, p: Payment): Claim {
    if Binds(row, p) then SameRequest else Conflict
  }

  /** The outcomes `claimPayment` can have; which one it has when several rows answer is the database's choice. */
  ghost predicate ClaimMay(rows: seq<Payment>, p: Payment, c: Claim) {
    if exists row :: Answers(rows, p, row) then exists row :: Answers(rows, p, row) && c == Judge(row, p)
    else c == Claimed
  }

  function AfterClaim(rows: seq<Payment>, p: Payment, c: Claim): seq<Payment> {
    if c.Claimed? then rows + [p] else rows
  }

  /** One grant's counter after one more attempt to use it. */
  function Consumed(used: Option<int>, maximum: int): (Option<int>, bool) {
    match used
    case None => (Some(1), true)
    case Some(n) => if n < maximum then (Some(n + 1), true) else (used, false)
  }

  datatype CacheEntry<+R> = Missing | Hit(response: R) | Mismatch

  function Cached<R>(responses: map<Text, Saved<R>>, request: Text, fingerprint: Text): CacheEntry<R> {
    if request !in responses then Missing
    else if responses[request].fingerprint != fingerprint then Mismatch
    else Hit(responses[request].response)
  }

  /** A second save under another fingerprint changes nothing. */
  function SavedAfter<R>(responses: map<Text, Saved<R>>, request: Text, fingerprint: Text,
                         response: R): map<Text, Saved<R>> {
    if request in responses && responses[request].fingerprint != fingerprint then responses
    else responses[request := Saved(fingerprint, response)]
  }

  class ArenaStore<R> {
    var grants: map<Key, Grant>
    var usage: map<Key, int>
    var payments: seq<Payment>
    var responses: map<Text, Saved<R>>

    constructor ()
      ensures Contents() == EmptyStore()
    {
      grants, usage, payments, responses := map[], map[], [], map[];
    }

    function Contents(): Store<R>
      reads this
    {
      Store(grants, usage, payments, responses)
    }

    method StoreGrant(namespace: Text, grant: Grant)
      modifies this`grants
      ensures grants == old(grants)[(namespace, grant.id) := grant]
    {
      grants := grants[(namespace, grant.id) := grant];
    }

    /** The grants of one actor from one authority in one namespace. */
    method Load(namespace: Text, actor: Address, authority: Text) returns (loaded: set<Grant>)
      ensures loaded == Loaded(grants, namespace, actor, authority)
      ensures forall g :: g in loaded <==>
                exists k :: k in grants && k.0 == namespace && grants[k] == g && g.subject == actor
                  && g.issuer == authority
    {
      loaded := set k | k in grants && k.0 == namespace && grants[k].subject == actor && grants[k].issuer == authority
                  :: grants[k];
    }

    method GetUsage(namespace: Text, id: GrantId) returns (used: int)
      ensures used == if (namespace, id) in usage then usage[(namespace, id)] else 0
    {
      if (namespace, id) !in usage {
        return 0;
      }
      return usage[(namespace, id)];
    }

    method TryConsume(namespace: Text, id: GrantId, maximumUses: int) returns (consumed: bool)
      modifies this`usage
      ensures var key := (namespace, id);
              var before := if key in old(usage) then Some(old(usage)[key]) else None;
              && consumed == Consumed(before, maximumUses).1
              && usage == old(usage)[key := Consumed(before, maximumUses).0.value]
    {
      var key := (namespace, id);
      if key !in usage {
        usage := usage[key := 1];
        return true;
      }
      if usage[key] < maximumUses {
        usage := usage[key := usage[key] + 1];
        return true;
      }
      assert usage == usage[key := usage[key]];
      return false;
    }

    /** One IMMEDIATE transaction: an arbitrary row of the query decides, or the payment is inserted. */
    method ClaimPayment(p: Payment) returns (claim: Claim)
      modifies this`payments
      ensures ClaimMay(old(payments), p, claim)
      ensures payments == AfterClaim(old(payments), p, claim)
    {
      if exists row | row in payments :: Touches(row, p) {
        var existing :| existing in payments && Touches(existing, p);
        assert Answers(payments, p, existing);
        return if existing.request == p.request && existing.fingerprint == p.fingerprint then SameRequest else Conflict;
      }
      payments := payments + [p];
      return Claimed;
    }

    method CachedResponse(request: Text, fingerprint: Text) returns (found: CacheEntry<R>)
      ensures found == Cached(responses, request, fingerprint)
    {
      if request !in responses {
        return Missing;
      }
      if responses[request].fingerprint != fingerprint {
        return Mismatch;
      }
      return Hit(responses[request].response);
    }

    method SaveResponse(request: Text, fingerprint: Text, response: R)
      modifies this`responses
      ensures responses == SavedAfter(old(responses), request, fingerprint, response)
    {
      if request !in responses {
        responses := responses[request := Saved(fingerprint, response)];
      } else {
        var row := responses[request];
        var kept := if row.fingerprint == fingerprint then response else row.response;
        responses := responses[request := row.(response := kept)];
        assert row.fingerprint != fingerprint ==> responses == old(responses);
      }
    }
  }

  // ---------- use counters ----------

  /** How many of `n` attempts in a row succeed, starting from `used`. */
  function Granted(used: Option<int>, maximum: int, n: nat): nat
    decreases n
  {
    if n == 0 then 0
    else
      var (next, ok) := Consumed(used, maximum);
      (if ok then 1 else 0) + Granted(next, maximum, n - 1)
  }

  lemma {:induction false} GrantedFrom(used: int, maximum: int, n: nat)
    ensures Granted(Some(used), maximum, n)
            == if used >= maximum then 0 else if n < maximum - used then n else maximum - used
    decreases n
  {
    if n == 0 {
    } else {
      GrantedFrom(if used < maximum then used + 1 else used, maximum, n - 1);
    }
  }

  /** A grant is used at most `maximum` times, if `maximum` is at least one: the first use never looks at it. */
  lemma UsesBounded(maximum: int, n: nat)
    ensures var granted := Granted(None, maximum, n);
            && granted == (if n == 0 then 0 else if maximum < 1 then 1 else if n < maximum then n else maximum)
            && (n > 0 ==> (granted <= maximum <==> maximum >= 1))
  {
    if n > 0 {
      GrantedFrom(1, maximum, n - 1);
    }
  }

  // ---------- claims ----------

  ghost predicate RowsUnique(rows: seq<Payment>) {
    forall i, j | 0 <= i < j < |rows| :: rows[i].txn != rows[j].txn && rows[i].request != rows[j].request
  }

  ghost predicate HasRow(rows: seq<Payment>, request: Text, fingerprint: Text) {
    exists k | 0 <= k < |rows| :: rows[k].request == request && rows[k].fingerprint == fingerprint
  }

  /** Whatever row decides, the table stays one-to-one between transfers and requests, and a request that is let through
      has its own row. */
  lemma ClaimKeepsRows(rows: seq<Payment>, p: Payment, c: Claim)
    requires RowsUnique(rows) && ClaimMay(rows, p, c)
    ensures RowsUnique(AfterClaim(rows, p, c))
    ensures !c.Conflict? ==> HasRow(AfterClaim(rows, p, c), p.request, p.fingerprint)
    ensures rows <= AfterClaim(rows, p, c)
  {
    if c.Claimed? {
      forall i | 0 <= i < |rows|
        ensures rows[i].txn != p.txn && rows[i].request != p.request
      {
        assert !Answers(rows, p, rows[i]);
      }
      assert (rows + [p])[|rows|] == p;
    } else if c.SameRequest? {
      var row :| Answers(rows, p, row) && Binds(row, p);
    }
  }

  /** A retry that names another request's transfer may go either way; the outcome is certain exactly when all answering
      rows agree. */
  lemma ClaimCertain(rows: seq<Payment>, p: Payment)
    ensures ClaimMay(rows, p, SameRequest) <==> exists row :: Answers(rows, p, row) && Binds(row, p)
    ensures ClaimMay(rows, p, Conflict) <==> exists row :: Answers(rows, p, row) && !Binds(row, p)
    ensures ClaimMay(rows, p, Claimed) <==> forall row :: !Answers(rows, p, row)
  {
  }

  lemma ClaimAmbiguous(mine: Payment, other: Payment, p: Payment)
    requires mine.request == p.request && mine.fingerprint == p.fingerprint
    requires other.txn == p.txn && other.request != p.request
    ensures ClaimMay([mine, other], p, SameRequest) && ClaimMay([mine, other], p, Conflict)
  {
    assert Answers([mine, other], p, mine) && Answers([mine, other], p, other);
  }
}
