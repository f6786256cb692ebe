/** The hash-chained audit log: appending, checking, and what an equal head hash proves. */
module AuditLog {
  import opened Texts
  import opened JsonTokens
  import opened Json

  type Hash = Text -> Text

  /** One `audit_events` row, in `seq` order; the payload is stored as text. */
  datatype AuditRow = AuditRow(number: int, id: Text, ts: int, eventType: Text, payloadJson: Text, previous: Text,
                               hash: Text)

  const ZERO_HASH: Text := DigitText(Zeros(64))

  function Fields(number: int, id: Text, ts: int, eventType: Text, payload: Json, previous: Text): seq<Member> {
    [Member(Lit("id"), Str(id)), Member(Lit("seq"), Num(Int(number))), Member(Lit("ts_ns"), Num(Int(ts))),
     Member(Lit("event_type"), Str(eventType)), Member(Lit("payload"), payload),
     Member(Lit("previous_hash"), Str(previous))]
  }

  /** The text that is hashed. */
  function Material(number: int, id: Text, ts: int, eventType: Text, payload: Json, previous: Text): Text {
    Canon(Obj(Fields(number, id, ts, eventType, payload, previous)), PyCompact)
  }

  function Payload(row: AuditRow): Option<Json> {
    Load(row.payloadJson, PySpaced)
  }

  function RowMaterial(row: AuditRow): Text
    requires Payload(row).Some?
  {
    Material(row.number, row.id, row.ts, row.eventType, Payload(row).value, row.previous)
  }

  predicate Linked(row: AuditRow, number: int, previous: Text) {
    row.number == number && row.previous == previous
  }

  predicate RowVerifies(hash: Hash, row: AuditRow, number: int, previous: Text) {
    Linked(row, number, previous) && Payload(row).Some? && hash(RowMaterial(row)) == row.hash
  }

  function HeadHash(rows: seq<AuditRow>): Text {
    if rows == [] then ZERO_HASH else rows[|rows| - 1].hash
  }

  /** Every row checks against the ones before it. */
  predicate Verifies(hash: Hash, rows: seq<AuditRow>) {
    rows == [] ||
    (var n := |rows| - 1;
     Verifies(hash, rows[..n]) && RowVerifies(hash, rows[n], n + 1, HeadHash(rows[..n])))
  }

  datatype Check = Intact | Broken | Raised

  /** `verify_audit`: the first row that does not check decides; a payload that is not JSON raises. */
  method VerifyAudit(hash: Hash, rows: seq<AuditRow>) returns (check: Check)
    ensures check == Intact <==> Verifies(hash, rows)
    ensures check != Intact ==> exists k | 0 <= k < |rows| ::
              && Verifies(hash, rows[..k])
              && !RowVerifies(hash, rows[k], k + 1, HeadHash(rows[..k]))
              && (check == Raised <==> Linked(rows[k], k + 1, HeadHash(rows[..k])) && Payload(rows[k]).None?)
  {
    var previous := ZERO_HASH;
    var expected := 1;
    var i := 0;
    while i < |rows|
      invariant 0 <= i <= |rows|
      invariant expected == i + 1 && previous == HeadHash(rows[..i])
      invariant Verifies(hash, rows[..i])
    {
      if !Linked(rows[i], expected, previous) {
        if Verifies(hash, rows) {
          RowOfIntact(hash, rows, i);
        }
        return Broken;
      }
      if Payload(rows[i]).None? {
        if Verifies(hash, rows) {
          RowOfIntact(hash, rows, i);
        }
        return Raised;
      }
      if hash(RowMaterial(rows[i])) != rows[i].hash {
        if Verifies(hash, rows) {
          RowOfIntact(hash, rows, i);
        }
        return Broken;
      }
      assert rows[..i + 1][..i] == rows[..i];
      previous := rows[i].hash;
      expected := expected + 1;
      i := i + 1;
    }
    assert rows[..i] == rows;
    return Intact;
  }

  /** Every prefix of an intact log is intact, so a cut shows only in the head hash. */
  lemma {:induction false} PrefixVerifies(hash: Hash, rows: seq<AuditRow>, k: nat)
    requires k <= |rows| && Verifies(hash, rows)
    ensures Verifies(hash, rows[..k])
    decreases |rows|
  {
    if k == |rows| {
      assert rows[..k] == rows;
    } else {
      PrefixVerifies(hash, rows[..|rows| - 1], k);
      assert rows[..|rows| - 1][..k] == rows[..k];
    }
  }

  lemma {:induction false} RowOfIntact(hash: Hash, rows: seq<AuditRow>, k: nat)
    requires k < |rows| && Verifies(hash, rows)
    ensures RowVerifies(hash, rows[k], k + 1, HeadHash(rows[..k]))
    decreases |rows|
  {
    var front := rows[..|rows| - 1];
    if k == |front| {
    } else {
      RowOfIntact(hash, front, k);
      assert front[..k] == rows[..k] && front[k] == rows[k];
    }
  }

  predicate Taken(rows: seq<AuditRow>, id: Text, h: Text) {
    exists i | 0 <= i < |rows| :: rows[i].id == id || rows[i].hash == h
  }

  /** `_append_audit_tx`; a repeated id or hash breaks a uniqueness constraint and nothing is written. */
  function Append(hash: Hash, rows: seq<AuditRow>, id: Text, ts: int, eventType: Text,
                  payload: Json): Option<AuditRow> {
    var number := if rows == [] then 1 else rows[|rows| - 1].number + 1;
    var previous := HeadHash(rows);
    var h := hash(Material(number, id, ts, eventType, payload, previous));
    if Taken(rows, id, h) then None
    else Some(AuditRow(number, id, ts, eventType, Canon(payload, PySpaced), previous, h))
  }

  lemma FieldsDistinct(number: int, id: Text, ts: int, eventType: Text, payload: Json, previous: Text)
    ensures DistinctKeys(Fields(number, id, ts, eventType, payload, previous))
  {
  }

  lemma FieldsValid(number: int, id: Text, ts: int, eventType: Text, payload: Json, previous: Text)
    requires Valid(payload, PyCompact)
    ensures Valid(Obj(Fields(number, id, ts, eventType, payload, previous)), PyCompact)
  {
    FieldsDistinct(number, id, ts, eventType, payload, previous);
  }

  lemma RecordText(a: seq<Member>, b: seq<Member>)
    requires Valid(Obj(a), PyCompact) && Valid(Obj(b), PyCompact)
    requires |a| == |b| == 6 && forall i | 0 <= i < 6 :: a[i].key == b[i].key
    ensures Canon(Obj(a), PyCompact) == Canon(Obj(b), PyCompact) <==>
            Same(a[0].value, b[0].value) && Same(a[1].value, b[1].value) && Same(a[2].value, b[2].value) &&
            Same(a[3].value, b[3].value) && Same(a[4].value, b[4].value) && Same(a[5].value, b[5].value)
  {
    CanonInjective(Obj(a), Obj(b), PyCompact);
    SixFieldsSame(a, b);
  }

  lemma ScalarsSame(s: Text, t: Text, m: int, n: int)
    ensures Same(Str(s), Str(t)) <==> s == t
    ensures Same(Num(Int(m)), Num(Int(n))) <==> m == n
  {
  }

  /** Equal hashed text means equal records, payloads up to key order. */
  lemma MaterialInjective(number: int, id: Text, ts: int, eventType: Text, payload: Json, previous: Text,
                          number': int, id': Text, ts': int, eventType': Text, payload': Json, previous': Text)
    requires Valid(payload, PyCompact) && Valid(payload', PyCompact)
    ensures Material(number, id, ts, eventType, payload, previous)
            == Material(number', id', ts', eventType', payload', previous')
            <==> number == number' && id == id' && ts == ts' && eventType == eventType' && Same(payload, payload')
                 && previous == previous'
  {
    FieldsValid(number, id, ts, eventType, payload, previous);
    FieldsValid(number', id', ts', eventType', payload', previous');
    RecordText(Fields(number, id, ts, eventType, payload, previous),
               Fields(number', id', ts', eventType', payload', previous'));
    ScalarsSame(id, id', number, number');
    ScalarsSame(eventType, eventType', ts, ts');
    ScalarsSame(previous, previous', ts, ts');
  }

  lemma SixFieldsSame(a: seq<Member>, b: seq<Member>)
    requires DistinctKeys(a) && |a| == |b| == 6 && forall i | 0 <= i < 6 :: a[i].key == b[i].key
    ensures Same(Obj(a), Obj(b)) <==>
            Same(a[0].value, b[0].value) && Same(a[1].value, b[1].value) && Same(a[2].value, b[2].value) &&
            Same(a[3].value, b[3].value) && Same(a[4].value, b[4].value) && Same(a[5].value, b[5].value)
  {
    RecordsSame(a, b);
  }

  /** Both Python styles hold the same values. */
  lemma {:induction false} PythonValid(v: Json)
    ensures Valid(v, PySpaced) <==> Valid(v, PyCompact)
  {
    match v
    case Arr(items) =>
      forall i | 0 <= i < |items|
        ensures Valid(items[i], PySpaced) <==> Valid(items[i], PyCompact)
      {
        PythonValid(items[i]);
      }
    case Obj(ms) =>
      forall i | 0 <= i < |ms|
        ensures Valid(ms[i].value, PySpaced) <==> Valid(ms[i].value, PyCompact)
      {
        PythonValid(ms[i].value);
      }
    case _ =>
  }

  lemma PayloadValid(row: AuditRow)
    requires Payload(row).Some?
    ensures Valid(Payload(row).value, PyCompact)
  {
    LoadValid(row.payloadJson, PySpaced);
    PythonValid(Payload(row).value);
  }

  /** An appended row checks against the log it was appended to, although its payload was reordered by dump and load. */
  lemma AppendVerifies(hash: Hash, rows: seq<AuditRow>, id: Text, ts: int, eventType: Text, payload: Json)
    requires Verifies(hash, rows) && Valid(payload, PyCompact)
    requires Append(hash, rows, id, ts, eventType, payload).Some?
    ensures var row := Append(hash, rows, id, ts, eventType, payload).value;
            Verifies(hash, rows + [row]) && Payload(row) == Some(Norm(payload))
  {
    var row := Append(hash, rows, id, ts, eventType, payload).value;
    var longer := rows + [row];
    PythonValid(payload);
    LoadCanon(payload, PySpaced);
    NormSame(payload, PyCompact);
    MaterialInjective(row.number, id, ts, eventType, Norm(payload), row.previous,
                      row.number, id, ts, eventType, payload, row.previous);
    assert longer[..|rows|] == rows && longer[|rows|] == row;
  }

  // ---------- tamper evidence ----------

  ghost predicate Collision(hash: Hash, x: Text, y: Text) {
    x != y && hash(x) == hash(y)
  }

  ghost predicate SameRecord(a: AuditRow, b: AuditRow) {
    && a.number == b.number && a.id == b.id && a.ts == b.ts && a.eventType == b.eventType
    && a.previous == b.previous && a.hash == b.hash
    && Payload(a).Some? && Payload(b).Some? && Same(Payload(a).value, Payload(b).value)
  }

  ghost predicate Collides(hash: Hash, a: seq<AuditRow>, b: seq<AuditRow>) {
    exists i, j | 0 <= i < |a| && 0 <= j < |b| ::
      Payload(a[i]).Some? && Payload(b[j]).Some? && Collision(hash, RowMaterial(a[i]), RowMaterial(b[j]))
  }

  lemma EqualMaterial(x: AuditRow, y: AuditRow)
    requires Payload(x).Some? && Payload(y).Some? && RowMaterial(x) == RowMaterial(y) && x.hash == y.hash
    ensures SameRecord(x, y)
  {
    PayloadValid(x);
    PayloadValid(y);
    MaterialInjective(x.number, x.id, x.ts, x.eventType, Payload(x).value, x.previous,
                      y.number, y.id, y.ts, y.eventType, Payload(y).value, y.previous);
  }

  lemma LastRow(hash: Hash, rows: seq<AuditRow>)
    requires Verifies(hash, rows) && rows != []
    ensures var n, last := |rows| - 1, rows[|rows| - 1];
            Verifies(hash, rows[..n]) && last.number == |rows| && last.previous == HeadHash(rows[..n])
            && Payload(last).Some? && hash(RowMaterial(last)) == last.hash == HeadHash(rows)
  {
  }

  ghost predicate SameLog(a: seq<AuditRow>, b: seq<AuditRow>) {
    |a| == |b| && forall i | 0 <= i < |a| :: SameRecord(a[i], b[i])
  }

  /** Two intact logs with one head hash are the same log, record by record, or they exhibit a hash collision. */
  lemma {:induction false} HeadDecidesLog(hash: Hash, a: seq<AuditRow>, b: seq<AuditRow>)
    requires Verifies(hash, a) && Verifies(hash, b) && a != [] && b != [] && HeadHash(a) == HeadHash(b)
    ensures Collides(hash, a, b) || SameLog(a, b)
    decreases |a|
  {
    var m, n := |a| - 1, |b| - 1;
    LastRow(hash, a);
    LastRow(hash, b);
    if RowMaterial(a[m]) != RowMaterial(b[n]) {
      assert Collision(hash, RowMaterial(a[m]), RowMaterial(b[n]));
    } else {
      EqualMaterial(a[m], b[n]);
      if m == 0 {
        assert SameLog(a[..m], b[..m]);
      } else {
        HeadDecidesLog(hash, a[..m], b[..m]);
      }
      LogsExtend(hash, a, b, m);
    }
  }

  lemma LogsExtend(hash: Hash, a: seq<AuditRow>, b: seq<AuditRow>, m: nat)
    requires |a| == |b| == m + 1 && SameRecord(a[m], b[m])
    requires Collides(hash, a[..m], b[..m]) || SameLog(a[..m], b[..m])
    ensures Collides(hash, a, b) || SameLog(a, b)
  {
    if Collides(hash, a[..m], b[..m]) {
      CollisionInPrefix(hash, a, b, m);
    } else {
      SameLogExtends(a, b, m);
    }
  }

  lemma SameLogExtends(a: seq<AuditRow>, b: seq<AuditRow>, m: nat)
    requires |a| == |b| == m + 1 && SameLog(a[..m], b[..m]) && SameRecord(a[m], b[m])
    ensures SameLog(a, b)
  {
    forall i | 0 <= i < |a|
      ensures SameRecord(a[i], b[i])
    {
      assert i < m ==> a[..m][i] == a[i] && b[..m][i] == b[i];
    }
  }

  lemma CollisionInPrefix(hash: Hash, a: seq<AuditRow>, b: seq<AuditRow>, m: nat)
    requires m <= |a| && m <= |b| && Collides(hash, a[..m], b[..m])
    ensures Collides(hash, a, b)
  {
    var i, j :| 0 <= i < m && 0 <= j < m && Payload(a[..m][i]).Some? && Payload(b[..m][j]).Some? &&
                Collision(hash, RowMaterial(a[..m][i]), RowMaterial(b[..m][j]));
    assert a[..m][i] == a[i] && b[..m][j] == b[j];
  }
}
