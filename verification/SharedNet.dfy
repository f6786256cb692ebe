/** What the Arena service takes from the room: the payment ledger and the replies to a canary. */
module SharedNet {
  import opened Texts
  import opened Sorting
  import opened JsonTokens
  import opened Json
  import opened Verification

  // ---------- addresses ----------

  predicate TaggedId(tag: Text, t: Text) {
    |t| == |tag| + 10 && tag <= t && forall u | u in t[|tag|..] :: IsAlnum(u)
  }

  predicate IsSeat(t: Text) {
    TaggedId(Lit("i_"), t)
  }

  predicate IsAddress(t: Text) {
    TaggedId(Lit("p_"), t) || TaggedId(Lit("a_"), t) || IsSeat(t)
  }

  predicate IsTxn(t: Text) {
    TaggedId(Lit("txn_"), t)
  }

  // ---------- payments ----------

  /** One ledger transfer; any field may be missing. */
  datatype LedgerItem = LedgerItem(id: Option<Text>, amount: Option<real>, memo: Option<Text>, room: Option<Text>,
                                   addressedTo: Option<Text>, byInstance: Option<Text>)

  /** The payment a request needs; a service name without a numeric price has no amount, and nothing equals it. */
  datatype Expected = Expected(txn: Text, payer: Text, payee: Text, amount: Option<nat>, room: Text, request: Text,
                               service: Text)

  predicate LedgerPaymentMatches(item: Option<LedgerItem>, e: Expected) {
    item.Some? &&
    (var i := item.value;
     && i.id == Some(e.txn)
     && e.amount.Some? && i.amount == Some(e.amount.value as real)
     && i.addressedTo == Some(e.payee)
     && i.room == Some(e.room)
     && i.byInstance == Some(e.payer)
     && (var memo := if i.memo.Some? then i.memo.value else []; Includes(memo, e.request) && Includes(memo, e.service)))
  }

  function Find(page: seq<LedgerItem>, txn: Text): Option<LedgerItem> {
    if page == [] then None
    else if page[0].id == Some(txn) then Some(page[0])
    else Find(page[1..], txn)
  }

  /** `page` is what the ledger returned: the first transfer with the id decides. */
  predicate VerifyPayment(page: seq<LedgerItem>, e: Expected) {
    IsTxn(e.txn) && IsSeat(e.payer) && IsAddress(e.payee) && LedgerPaymentMatches(Find(page, e.txn), e)
  }

  lemma {:induction false} FindFirst(page: seq<LedgerItem>, txn: Text)
    ensures Find(page, txn).Some? ==> Find(page, txn).value in page && Find(page, txn).value.id == Some(txn)
    ensures Find(page, txn).None? <==> forall i | i in page :: i.id != Some(txn)
  {
    if page == [] {
    } else {
      assert page == [page[0]] + page[1..];
      FindFirst(page[1..], txn);
    }
  }

  function Memo(service: Text, request: Text): Text {
    Lit("Counterparty ") + service + Lit(" ") + request
  }

  /** Paying as instructed satisfies the check. */
  lemma InstructedPaymentMatches(e: Expected)
    requires e.amount.Some?
    ensures LedgerPaymentMatches(Some(LedgerItem(Some(e.txn), Some(e.amount.value as real),
                                                 Some(Memo(e.service, e.request)),
                                                 Some(e.room), Some(e.payee), Some(e.payer))), e)
  {
    IncludesMiddle(Lit("Counterparty "), e.service, Lit(" ") + e.request);
    assert Lit("Counterparty ") + e.service + (Lit(" ") + e.request) == Memo(e.service, e.request);
    IncludesMiddle(Lit("Counterparty ") + e.service + Lit(" "), e.request, []);
    assert Lit("Counterparty ") + e.service + Lit(" ") + e.request + [] == Memo(e.service, e.request);
  }

  /** The memo is only searched: a transfer made for one request also matches another id exactly when its memo contains
      it. */
  lemma MemoMatchesInnerIds(e: Expected, inner: Text)
    requires e.amount.Some?
    ensures LedgerPaymentMatches(Some(LedgerItem(Some(e.txn), Some(e.amount.value as real),
                                                 Some(Memo(e.service, e.request)),
                                                 Some(e.room), Some(e.payee), Some(e.payer))), e.(request := inner))
            <==> Includes(Memo(e.service, e.request), inner)
  {
    InstructedPaymentMatches(e);
  }

  /** For instance request "r" is paid for by the transfer of request "r1". */
  lemma MemoAmbiguous(e: Expected)
    requires e.amount.Some? && e.request == Lit("r1")
    ensures LedgerPaymentMatches(Some(LedgerItem(Some(e.txn), Some(e.amount.value as real),
                                                 Some(Memo(e.service, e.request)),
                                                 Some(e.room), Some(e.payee), Some(e.payer))), e.(request := Lit("r")))
  {
    var front := Lit("Counterparty ") + e.service + Lit(" ");
    IncludesMiddle(front, Lit("r"), Lit("1"));
    assert front + Lit("r") + Lit("1") == Memo(e.service, e.request) by {
      assert Lit("r1") == Lit("r") + Lit("1");
    }
    MemoMatchesInnerIds(e, Lit("r"));
  }

  /** What one transfer cannot be stretched over: seat, payee, room and price. */
  lemma OneTransferOnePrice(item: LedgerItem, a: Expected, b: Expected)
    requires LedgerPaymentMatches(Some(item), a) && LedgerPaymentMatches(Some(item), b)
    ensures a.txn == b.txn && a.payer == b.payer && a.payee == b.payee && a.room == b.room && a.amount == b.amount
  {
    assert a.amount.value as real == b.amount.value as real;
  }

  // ---------- canary polling ----------

  datatype Message = Message(id: Text, sequence: int, sender: Option<Text>, content: Text)

  predicate SafeInteger(n: int) {
    -9007199254740991 <= n <= 9007199254740991
  }

  /** White space and line terminators of ECMAScript, which `trim` strips. */
  predicate Trimmable(u: Unit) {
    u in [9, 10, 11, 12, 13, 0x20, 0xA0, 0x1680, 0x2028, 0x2029, 0x202F, 0x205F, 0x3000, 0xFEFF]
    || 0x2000 <= u <= 0x200A
  }

  function TrimStart(t: Text): (r: Text)
    ensures |r| <= |t|
  {
    if t != [] && Trimmable(t[0]) then TrimStart(t[1..]) else t
  }

  function Trim(t: Text): Text
    decreases |t|
  {
    if t != [] && Trimmable(t[|t| - 1]) then Trim(t[..|t| - 1]) else TrimStart(t)
  }

  /** Empty text is null; text that is not JSON is skipped by the caller. */
  function ParseJson(t: Text): Option<Json> {
    if Trim(t) == [] then Some(Null) else Load(Trim(t), Js)
  }

  /** The exact acknowledgement, from exactly the target seat. */
  predicate Acknowledges(m: Message, target: Text, nonce: Text) {
    m.sender == Some(target) && ParseJson(m.content).Some? && CanaryConforms(ParseJson(m.content).value, nonce)
  }

  predicate Unread(m: Message, target: Text, after: int) {
    m.sender == Some(target) && m.sequence > after
  }

  predicate Earlier(a: Message, b: Message) {
    a.sequence < b.sequence
  }

  function Pending(log: seq<Message>, target: Text, after: int): seq<Message> {
    Filter((m: Message) => Unread(m, target, after), log)
  }

  /** `read --after <after> --from-instance <target> --order asc --limit 100`. */
  function Page(log: seq<Message>, target: Text, after: int): seq<Message> {
    var all := Pending(log, target, after);
    if |all| <= 100 then all else all[..100]
  }

  ghost predicate RoomLog(log: seq<Message>) {
    Ascending(Earlier, log) && forall m | m in log :: SafeInteger(m.sequence)
  }

  /** The room between two reads: messages are only appended. */
  ghost predicate Grows(room: nat -> seq<Message>, k: nat) {
    room(k) <= room(k + 1) && RoomLog(room(k)) && RoomLog(room(k + 1))
  }

  ghost predicate Sleeps(clock: nat -> int, k: nat) {
    clock(k + 1) >= clock(k) + 350
  }

  /** Nothing the target wrote with a sequence above `lo` and up to `hi` acknowledges. */
  ghost predicate Inspected(log: seq<Message>, target: Text, ack: Message -> bool, lo: int, hi: int) {
    forall m | m in log && m.sender == Some(target) && lo < m.sequence <= hi :: !ack(m)
  }

  ghost predicate CursorIn(log: seq<Message>, initial: int, after: int) {
    after == initial || exists m :: m in log && m.sequence == after
  }

  lemma InspectedGrows(before: seq<Message>, now: seq<Message>, target: Text, ack: Message -> bool, lo: int, hi: int)
    requires before <= now && RoomLog(now) && CursorIn(before, lo, hi) && Inspected(before, target, ack, lo, hi)
    ensures CursorIn(now, lo, hi) && Inspected(now, target, ack, lo, hi)
  {
    assert forall m | m in before :: m in now;
    forall m | m in now && m.sender == Some(target) && lo < m.sequence <= hi
      ensures !ack(m)
    {
      var last :| last in before && last.sequence == hi;
      var i :| 0 <= i < |before| && before[i] == last;
      var j :| 0 <= j < |now| && now[j] == m;
      assert j > i ==> Earlier(now[i], now[j]);
      assert before[j] == m;
    }
  }

  lemma PageOrder(log: seq<Message>, target: Text, after: int)
    requires RoomLog(log)
    ensures var page := Page(log, target, after);
            && Ascending(Earlier, page)
            && forall m | m in page :: m in log && Unread(m, target, after)
  {
    FilterAscending(Earlier, (m: Message) => Unread(m, target, after), log);
    var page := Page(log, target, after);
    assert forall m | m in page :: m in Pending(log, target, after);
  }

  /** An unread message below an entry of the page is on the page before it. */
  lemma PageComplete(log: seq<Message>, target: Text, after: int, i: nat, m: Message)
    requires RoomLog(log) && m in log && Unread(m, target, after)
    requires i <= |Page(log, target, after)|
    requires i < |Page(log, target, after)| ==> m.sequence < Page(log, target, after)[i].sequence
    requires i == |Page(log, target, after)| ==>
               (i > 0 && m.sequence <= Page(log, target, after)[i - 1].sequence) || |Pending(log, target, after)| <= 100
    ensures m in Page(log, target, after)[..i]
  {
    var all, page := Pending(log, target, after), Page(log, target, after);
    FilterAscending(Earlier, (m: Message) => Unread(m, target, after), log);
    assert m in all;
    var p :| 0 <= p < |all| && all[p] == m;
    if i < |page| {
      PlacedBelow(all, p, i);
    } else if |all| > 100 {
      PlacedBelow(all, p, i - 1);
    }
    assert page[..i][p] == m;
  }

  /** In an ascending log the sequence numbers tell the places. */
  lemma PlacedBelow(all: seq<Message>, p: nat, i: nat)
    requires Ascending(Earlier, all) && p < |all| && i < |all|
    ensures all[p].sequence < all[i].sequence ==> p < i
    ensures all[p].sequence <= all[i].sequence ==> p <= i
  {
    if i < p {
      assert Earlier(all[i], all[p]);
    }
  }

  datatype CanaryResult =
    | BadTarget | OwnSeat | NoNonce
    | Observed(message: Message, payload: Json)
    | TimedOut

  function Instruction(target: Text, nonce: Text): Text {
    Lit("Only SharedNet seat ") + target + Lit(" should answer this canary. Reply with JSON only: ")
    + [LBRACE] + Quote(PROBE_ID, Js) + [COLON] + Quote(nonce, Js) + [COMMA] + Quote(ACK, Js) + [COLON] + Lit("true")
    + [RBRACE]
  }

  function Outbound(payload: seq<Member>, target: Text, nonce: Text): Json {
    Obj(SetKey(SetKey(payload, Lit("target_seat"), Str(target)), Lit("instruction"), Str(Instruction(target, nonce))))
  }

  function NonceOf(payload: seq<Member>): Option<Text> {
    match Get(Obj(payload), PROBE_ID)
    case Some(Str(s)) => if |s| < 8 then None else Some(s)
    case _ => None
  }

  /** The words said to the room still carry the nonce. */
  lemma OutboundCarriesNonce(payload: seq<Member>, target: Text)
    requires NonceOf(payload).Some?
    ensures Get(Outbound(payload, target, NonceOf(payload).value), PROBE_ID) == Some(Str(NonceOf(payload).value))
    ensures Get(Outbound(payload, target, NonceOf(payload).value), Lit("target_seat")) == Some(Str(target))
  {
    var nonce := NonceOf(payload).value;
    var once := SetKey(payload, Lit("target_seat"), Str(target));
    var value := Str(Instruction(target, nonce));
    assert |Lit("target_seat")| == 11 && |Lit("instruction")| == 11 && |PROBE_ID| == 21;
    assert Lit("target_seat")[0] != Lit("instruction")[0];
    GetSet(once, Lit("instruction"), value, PROBE_ID);
    GetSet(once, Lit("instruction"), value, Lit("target_seat"));
    GetSet(payload, Lit("target_seat"), Str(target), PROBE_ID);
    GetSet(payload, Lit("target_seat"), Str(target), Lit("target_seat"));
  }

  lemma InspectedJoin(log: seq<Message>, target: Text, ack: Message -> bool, lo: int, mid: int, hi: int)
    requires Inspected(log, target, ack, lo, mid) && Inspected(log, target, ack, mid, hi)
    ensures Inspected(log, target, ack, lo, hi)
  {
  }

  lemma {:induction false} PendingShrinks(log: seq<Message>, target: Text, lo: int, hi: int)
    requires lo <= hi
    ensures |Pending(log, target, hi)| <= |Pending(log, target, lo)|
  {
    if log == [] {
    } else {
      PendingShrinks(log[1..], target, lo, hi);
    }
  }

  /** `m` is the first acknowledgement above `cursor`. */
  ghost predicate FoundFirst(log: seq<Message>, target: Text, ack: Message -> bool, cursor: int, m: Message) {
    m in log && ack(m) && m.sequence > cursor && Inspected(log, target, ack, cursor, m.sequence - 1)
  }

  /** The page above `cursor` held no acknowledgement; a page that was not full was all there is. */
  ghost predicate Missed(log: seq<Message>, target: Text, ack: Message -> bool, cursor: int, after: int) {
    && (after == cursor || exists m :: m in log && m.sequence == after)
    && Inspected(log, target, ack, cursor, after)
    && (|Pending(log, target, cursor)| <= 100 ==> forall m | m in log && Unread(m, target, cursor) :: !ack(m))
  }

  /** One page: stops at the first acknowledgement, and moves the cursor over what it passes. */
  method ScanPage(log: seq<Message>, target: Text, ack: Message -> bool, cursor: int)
    returns (found: Option<Message>, after: int)
    requires RoomLog(log)
    ensures cursor <= after
    ensures found.Some? ==> FoundFirst(log, target, ack, cursor, found.value) && found.value.sequence == after
    ensures found.None? ==> Missed(log, target, ack, cursor, after)
  {
    var page := Page(log, target, cursor);
    PageOrder(log, target, cursor);
    after := cursor;
    var i := 0;
    while i < |page|
      invariant 0 <= i <= |page|
      invariant after == if i == 0 then cursor else page[i - 1].sequence
      invariant cursor <= after
      invariant forall j | 0 <= j < i :: !ack(page[j])
    {
      var m := page[i];
      assert m in page;
      assert i > 0 ==> Earlier(page[i - 1], m);
      if SafeInteger(m.sequence) {
        after := if m.sequence > after then m.sequence else after;
      }
      if ack(m) {
        forall e | e in log && e.sender == Some(target) && cursor < e.sequence <= after - 1
          ensures !ack(e)
        {
          PageComplete(log, target, cursor, i, e);
        }
        return Some(m), after;
      }
      i := i + 1;
    }
    forall e | e in log && Unread(e, target, cursor) && (e.sequence <= after || |Pending(log, target, cursor)| <= 100)
      ensures !ack(e)
    {
      PageComplete(log, target, cursor, i, e);
    }
    found := None;
  }

  /** Time and room as they pass during one poll that begins at `start`. */
  ghost predicate Passes(clock: nat -> int, room: nat -> seq<Message>, start: int) {
    clock(0) >= start && (forall k: nat :: Sleeps(clock, k)) && (forall k: nat :: Grows(room, k))
  }

  lemma PassesAt(clock: nat -> int, room: nat -> seq<Message>, start: int, k: nat)
    requires Passes(clock, room, start)
    ensures room(k) <= room(k + 1) && RoomLog(room(k)) && RoomLog(room(k + 1)) && clock(k + 1) >= clock(k) + 350
  {
    assert Grows(room, k) && Sleeps(clock, k);
  }

  /** A target that wrote at most a page since the start wrote no acknowledgement. */
  ghost predicate Exhausted(log: seq<Message>, target: Text, ack: Message -> bool, initial: int) {
    |Pending(log, target, initial)| <= 100 ==> forall m | m in log && Unread(m, target, initial) :: !ack(m)
  }

  /** Where the loop stands after `k` pages without an acknowledgement. */
  ghost predicate Waiting(room: nat -> seq<Message>, target: Text, ack: Message -> bool, initial: int, after: int,
                          k: nat) {
    && initial <= after && CursorIn(room(k), initial, after) && Inspected(room(k), target, ack, initial, after)
    && (k > 0 ==> Exhausted(room(k - 1), target, ack, initial))
  }

  lemma StillWaiting(clock: nat -> int, room: nat -> seq<Message>, start: int, target: Text, ack: Message -> bool,
                     initial: int, cursor: int, after: int, k: nat)
    requires Passes(clock, room, start) && Waiting(room, target, ack, initial, cursor, k) && cursor <= after
    requires Missed(room(k), target, ack, cursor, after)
    ensures Waiting(room, target, ack, initial, after, k + 1)
  {
    PassesAt(clock, room, start, k);
    PendingShrinks(room(k), target, initial, cursor);
    InspectedJoin(room(k), target, ack, initial, cursor, after);
    InspectedGrows(room(k), room(k + 1), target, ack, initial, after);
  }

  lemma FirstOverall(log: seq<Message>, target: Text, ack: Message -> bool, initial: int, cursor: int, m: Message)
    requires initial <= cursor && Inspected(log, target, ack, initial, cursor)
             && FoundFirst(log, target, ack, cursor, m)
    ensures FoundFirst(log, target, ack, initial, m)
  {
    InspectedJoin(log, target, ack, initial, cursor, m.sequence - 1);
  }

  /** The polling loop. `clock(k)` is the time at the k-th test of the deadline, `room(k)` the room at the k-th read. */
  method Poll(target: Text, ack: Message -> bool, initial: int, start: int, deadline: int,
              clock: nat -> int, room: nat -> seq<Message>)
    returns (found: Option<Message>, after: int, pages: nat)
    requires Passes(clock, room, start) && deadline <= start + 8000
    ensures initial <= after && pages <= 23
    ensures found.Some? ==>
            pages > 0 && FoundFirst(room(pages - 1), target, ack, initial, found.value) && found.value.sequence == after
    ensures found.None? ==> Waiting(room, target, ack, initial, after, pages) && clock(pages) >= deadline
  {
    after, pages := initial, 0;
    while clock(pages) < deadline
      invariant Waiting(room, target, ack, initial, after, pages)
      invariant pages <= 23 && start + 350 * pages <= clock(pages)
      decreases deadline - clock(pages)
    {
      ghost var cursor := after;
      PassesAt(clock, room, start, pages);
      found, after := ScanPage(room(pages), target, ack, after);
      pages := pages + 1;
      if found.Some? {
        FirstOverall(room(pages - 1), target, ack, initial, cursor, found.value);
        return;
      }
      StillWaiting(clock, room, start, target, ack, initial, cursor, after, pages - 1);
    }
    found := None;
  }

  function Acknowledgement(target: Text, nonce: Text): Message -> bool {
    m => Acknowledges(m, target, nonce)
  }

  lemma FoundParses(log: seq<Message>, target: Text, nonce: Text, initial: int, m: Message)
    requires FoundFirst(log, target, Acknowledgement(target, nonce), initial, m)
    ensures ParseJson(m.content).Some?
  {
    assert Acknowledgement(target, nonce)(m);
  }

  /** `sendCanary`: says the canary once, then polls for at most eight seconds. */
  method SendCanary(seat: Text, target: Text, payload: seq<Member>, initial: int, timeoutMs: int, start: int,
                    clock: nat -> int, room: nat -> seq<Message>)
    returns (result: CanaryResult, said: Option<Json>, after: int, pages: nat)
    requires Passes(clock, room, start)
    ensures result == BadTarget <==> !IsSeat(target)
    ensures result == OwnSeat <==> IsSeat(target) && target == seat
    ensures result == NoNonce <==> IsSeat(target) && target != seat && NonceOf(payload).None?
    ensures said ==
            if result.Observed? || result.TimedOut? then Some(Outbound(payload, target, NonceOf(payload).value))
            else None
    ensures initial <= after && pages <= 23
    ensures result.Observed? ==>
            && pages > 0 && FoundFirst(room(pages - 1), target, Acknowledgement(target, NonceOf(payload).value),
                                       initial, result.message)
            && result.message.sequence == after && ParseJson(result.message.content) == Some(result.payload)
    ensures result.TimedOut? ==>
            Waiting(room, target, Acknowledgement(target, NonceOf(payload).value), initial, after, pages)
  {
    after, pages, said := initial, 0, None;
    if !IsSeat(target) {
      return BadTarget, said, after, pages;
    }
    if target == seat {
      return OwnSeat, said, after, pages;
    }
    if NonceOf(payload).None? {
      return NoNonce, said, after, pages;
    }
    var nonce := NonceOf(payload).value;
    said := Some(Outbound(payload, target, nonce));
    var deadline := start + if timeoutMs < 8000 then timeoutMs else 8000;
    var found;
    found, after, pages := Poll(target, Acknowledgement(target, nonce), initial, start, deadline, clock, room);
    if found.Some? {
      FoundParses(room(pages - 1), target, nonce, initial, found.value);
      return Observed(found.value, ParseJson(found.value.content).value), said, after, pages;
    }
    result := TimedOut;
  }
}
