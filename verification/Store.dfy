/** The durable store (src/store.rs): message table, cursors, outbox, grant guard and rejection log. */
module Store {
  import opened Prelude
  import opened Wire
  import Text

  datatype Direction = In | Out

  datatype DeliveryState = Unset | Pending | Sent | Delivered | Read | Failed

  /** A row of the message table. */
  datatype Row = Row(
    seqNo: int, id: string, direction: Direction, sender: string, recipient: string, topic: string, ts: string,
    ctype: string, inReplyTo: Option<string>, body: string, kind: MsgKind, correlationId: Option<string>,
    supersedes: Option<string>, encrypted: bool, state: DeliveryState)

  datatype Outbound = Outbound(id: string, topic: string, payload: Bytes)

  datatype Rejection = Rejection(reason: RejectReason, claimedSender: Option<string>, topic: string, detail: string)

  datatype PresenceRow = PresenceRow(beacon: PresenceBeacon, lastSeen: string)

  /** The content of the database. `lastSeq` is the largest row number ever used (AUTOINCREMENT). */
  datatype Db = Db(
    rows: seq<Row>, lastSeq: nat, cursors: map<string, int>, outbox: seq<Outbound>, seenGrants: set<string>,
    rejections: seq<Rejection>, presence: map<string, PresenceRow>)

  const EMPTY := Db([], 0, map[], [], {}, [], map[])

  // ---------------------------------------------------------------- message table

  predicate HasId(rows: seq<Row>, id: string) {
    exists r :: r in rows && r.id == id
  }

  function RowOf(inner: Inner, direction: Direction, topic: string, seqNo: int): Row {
    Row(seqNo, inner.id, direction, inner.from, inner.to, topic, inner.ts, inner.ctype, inner.inReplyTo, inner.body,
        inner.kind, inner.correlationId, inner.supersedes, inner.enc.Some?, if direction == In then Unset else Pending)
  }

  /** The row holds what the message says, under its topic. */
  predicate Records(r: Row, inner: Inner, topic: string) {
    && r.id == inner.id && r.sender == inner.from && r.recipient == inner.to && r.topic == topic && r.ts == inner.ts
    && r.ctype == inner.ctype && r.inReplyTo == inner.inReplyTo && r.body == inner.body && r.kind == inner.kind
    && r.correlationId == inner.correlationId && r.supersedes == inner.supersedes
    && (r.encrypted <==> inner.enc.Some?)
  }

  /** INSERT OR IGNORE, keyed by message id, under some row number never used before. */
  function Insert(db: Db, inner: Inner, direction: Direction, topic: string, seqNo: int): Db
    requires seqNo > db.lastSeq
  {
    if HasId(db.rows, inner.id) then db
    else db.(rows := db.rows + [RowOf(inner, direction, topic, seqNo)], lastSeq := seqNo)
  }

  function MessageBySeq(rows: seq<Row>, seqNo: int): (r: Option<Row>)
    ensures r.Some? ==> r.value in rows && r.value.seqNo == seqNo
    ensures r.None? ==> forall x | x in rows :: x.seqNo != seqNo
  {
    if rows == [] then None
    else if rows[0].seqNo == seqNo then Some(rows[0])
    else MessageBySeq(rows[1..], seqNo)
  }

  ghost predicate Ascending(rows: seq<Row>) {
    forall i, j | 0 <= i < j < |rows| :: rows[i].seqNo < rows[j].seqNo
  }

  ghost predicate UniqueIds(rows: seq<Row>) {
    forall i, j | 0 <= i < j < |rows| :: rows[i].id != rows[j].id
  }

  ghost predicate Valid(db: Db) {
    && Ascending(db.rows) && UniqueIds(db.rows)
    && (forall r | r in db.rows :: 1 <= r.seqNo <= db.lastSeq)
    && (forall i, j | 0 <= i < j < |db.outbox| :: db.outbox[i].id != db.outbox[j].id)
  }

  // ---------------------------------------------------------------- delivery state

  datatype DeliveryEvent = HandOff | DeliveryReceipt | ReadReceipt | Failure

  /** The guarded UPDATE of each event. */
  function Advance(s: DeliveryState, ev: DeliveryEvent): DeliveryState {
    match ev
    case HandOff => if s == Pending || s == Unset then Sent else s
    case DeliveryReceipt => if s != DeliveryState.Read && s != Failed then DeliveryState.Delivered else s
    case ReadReceipt => if s != Failed then DeliveryState.Read else s
    case Failure => Failed
  }

  function Update(r: Row, id: string, ev: DeliveryEvent): Row {
    if r.id == id && r.direction == Out then r.(state := Advance(r.state, ev)) else r
  }

  function ApplyEvent(rows: seq<Row>, id: string, ev: DeliveryEvent): (u: seq<Row>)
    ensures |u| == |rows|
    ensures forall i | 0 <= i < |rows| :: u[i] == Update(rows[i], id, ev)
  {
    seq(|rows|, i requires 0 <= i < |rows| => Update(rows[i], id, ev))
  }

  function Rank(s: DeliveryState): int {
    match s
    case Unset => 0
    case Pending => 1
    case Sent => 2
    case Delivered => 3
    case Read => 4
    case Failed => 5
  }

  function Target(ev: DeliveryEvent): DeliveryState {
    match ev
    case HandOff => Sent
    case DeliveryReceipt => DeliveryState.Delivered
    case ReadReceipt => DeliveryState.Read
    case Failure => Failed
  }

  function AdvanceAll(s: DeliveryState, evs: seq<DeliveryEvent>): DeliveryState
    decreases |evs|
  {
    if evs == [] then s else AdvanceAll(Advance(s, evs[0]), evs[1..])
  }

  /** The final state is the highest of the start state and the states the events aim at. */
  lemma {:induction false} FinalStateIsMaximum(s: DeliveryState, evs: seq<DeliveryEvent>)
    ensures var final := AdvanceAll(s, evs);
            && Rank(final) >= Rank(s)
            && (forall ev | ev in evs :: Rank(final) >= Rank(Target(ev)))
            && (final == s || exists ev :: ev in evs && final == Target(ev))
    decreases |evs|
  {
    if evs != [] {
      var next := Advance(s, evs[0]);
      FinalStateIsMaximum(next, evs[1..]);
      assert evs == [evs[0]] + evs[1..];
      assert next == s || next == Target(evs[0]);
      assert evs[0] in evs;
    }
  }

  /** So order and repetition of the events do not matter. */
  lemma FinalStateOrderFree(s: DeliveryState, evs: seq<DeliveryEvent>, others: seq<DeliveryEvent>)
    requires forall ev :: ev in evs <==> ev in others
    ensures AdvanceAll(s, evs) == AdvanceAll(s, others)
  {
    FinalStateIsMaximum(s, evs);
    FinalStateIsMaximum(s, others);
  }

  // ---------------------------------------------------------------- cursors, outbox, presence

  function Cursor(cursors: map<string, int>, consumer: string): int {
    if consumer in cursors then cursors[consumer] else 0
  }

  /** The upsert of `ack`: a first ack sets any value, later ones only move forward. */
  function AckCursor(cursors: map<string, int>, consumer: string, seqNo: int): map<string, int> {
    if consumer in cursors && seqNo <= cursors[consumer] then cursors else cursors[consumer := seqNo]
  }

  function Unread(rows: seq<Row>, after: int): seq<Row> {
    if rows == [] then []
    else if rows[0].direction == In && rows[0].seqNo > after then [rows[0]] + Unread(rows[1..], after)
    else Unread(rows[1..], after)
  }

  /** LIMIT; a negative limit means none. */
  function Limited(rows: seq<Row>, limit: int): seq<Row> {
    if 0 <= limit < |rows| then rows[..limit] else rows
  }

  function Batch(rows: seq<Row>, after: int, limit: int): seq<Row> {
    Limited(Unread(rows, after), limit)
  }

  function EnqueueOutbound(outbox: seq<Outbound>, ob: Outbound): seq<Outbound> {
    if exists o :: o in outbox && o.id == ob.id then outbox else outbox + [ob]
  }

  function RemoveOutbound(outbox: seq<Outbound>, id: string): (r: seq<Outbound>)
    ensures forall o :: o in r <==> o in outbox && o.id != id
    ensures (forall i, j | 0 <= i < j < |outbox| :: outbox[i].id != outbox[j].id)
        ==> forall i, j | 0 <= i < j < |r| :: r[i].id != r[j].id
  {
    if outbox == [] then []
    else
      var rest := RemoveOutbound(outbox[1..], id);
      if outbox[0].id == id then rest else [outbox[0]] + rest
  }

  /** Only a beacon at least as recent as the stored one replaces it. */
  function UpsertPresence(presence: map<string, PresenceRow>, agent: string, row: PresenceRow)
    : map<string, PresenceRow>
  {
    if agent in presence && row.beacon.beat < presence[agent].beacon.beat then presence else presence[agent := row]
  }

  // ---------------------------------------------------------------- bounds

  /** Outbound rows still awaiting their receipt are kept. */
  predicate Evictable(r: Row) {
    !(r.direction == Out && (r.state == Pending || r.state == Sent))
  }

  function EvictableCount(rows: seq<Row>): nat {
    if rows == [] then 0 else (if Evictable(rows[0]) then 1 else 0) + EvictableCount(rows[1..])
  }

  /** DELETE of the `k` oldest evictable rows. */
  function DropOldest(rows: seq<Row>, k: nat): seq<Row> {
    if rows == [] || k == 0 then rows
    else if Evictable(rows[0]) then DropOldest(rows[1..], k - 1)
    else [rows[0]] + DropOldest(rows[1..], k)
  }

  /** SQLite's LENGTH of a TEXT value: characters before the first NUL. */
  function TextLength(s: string): nat {
    match Text.SplitFirst(s, '\0')
    case None => |s|
    case Some((head, _)) => |head|
  }

  function BodyBytes(rows: seq<Row>): nat {
    if rows == [] then 0 else TextLength(rows[0].body) + BodyBytes(rows[1..])
  }

  function Excess(rows: seq<Row>, maxMessages: nat): nat {
    if |rows| > maxMessages then |rows| - maxMessages else 0
  }

  const ROUND: nat := 64

  lemma {:induction false} DropOldestSize(rows: seq<Row>, k: nat)
    ensures |DropOldest(rows, k)| == |rows| - Min(k, EvictableCount(rows))
    ensures EvictableCount(DropOldest(rows, k)) == EvictableCount(rows) - Min(k, EvictableCount(rows))
    ensures EvictableCount(rows) <= |rows|
  {
    if rows != [] {
      if k > 0 {
        DropOldestSize(rows[1..], if Evictable(rows[0]) then k - 1 else k);
        if !Evictable(rows[0]) {
          var tail := DropOldest(rows[1..], k);
          assert ([rows[0]] + tail)[1..] == tail;
        }
      } else {
        DropOldestSize(rows[1..], 0);
      }
    }
  }

  lemma {:induction false} DropOldestTwice(rows: seq<Row>, j: nat, k: nat)
    ensures DropOldest(DropOldest(rows, j), k) == DropOldest(rows, j + k)
  {
    if rows != [] && j > 0 {
      if Evictable(rows[0]) {
        DropOldestTwice(rows[1..], j - 1, k);
      } else {
        DropOldestTwice(rows[1..], j, k);
        var mid := DropOldest(rows[1..], j);
        assert ([rows[0]] + mid)[1..] == mid;
      }
    }
  }

  /** The rows after the count phase and as many byte rounds as are needed or possible. */
  function TrimBytes(rows: seq<Row>, maxBytes: nat): seq<Row>
    decreases |rows|
  {
    DropOldestSize(rows, ROUND);
    if BodyBytes(rows) <= maxBytes || EvictableCount(rows) == 0 then rows
    else TrimBytes(DropOldest(rows, ROUND), maxBytes)
  }

  function Enforced(rows: seq<Row>, maxMessages: nat, maxBytes: nat): seq<Row> {
    TrimBytes(DropOldest(rows, Excess(rows, maxMessages)), maxBytes)
  }

  // ---------------------------------------------------------------- the store object

  class Store {
    var rows: seq<Row>
    var lastSeq: nat
    var cursors: map<string, int>
    var outbox: seq<Outbound>
    var seenGrants: set<string>
    var rejections: seq<Rejection>
    var presence: map<string, PresenceRow>

    ghost function State(): Db
      reads this
    {
      Db(rows, lastSeq, cursors, outbox, seenGrants, rejections, presence)
    }

    constructor ()
      ensures State() == EMPTY && Valid(State())
    {
      rows, lastSeq, cursors, outbox := [], 0, map[], [];
      seenGrants, rejections, presence := {}, [], map[];
    }

    /** `gap` is what AUTOINCREMENT may skip. */
    method InsertInbound(inner: Inner, topic: string, gap: nat) returns (seqNo: Option<int>)
      requires Valid(State())
      modifies this
      ensures State() == Insert(old(State()), inner, In, topic, old(lastSeq) + 1 + gap) && Valid(State())
      ensures seqNo == if HasId(old(rows), inner.id) then None else Some(old(lastSeq) + 1 + gap)
      ensures seqNo.Some? ==>
                |rows| == |old(rows)| + 1 && old(rows) <= rows
                && var r := rows[|old(rows)|];
                   Records(r, inner, topic) && r.seqNo == seqNo.value && r.direction == In && r.state == Unset
    {
      if HasId(rows, inner.id) {
        return None;
      }
      lastSeq := lastSeq + 1 + gap;
      rows := rows + [RowOf(inner, In, topic, lastSeq)];
      return Some(lastSeq);
    }

    method InsertOutboundLog(inner: Inner, topic: string, gap: nat)
      requires Valid(State())
      modifies this
      ensures State() == Insert(old(State()), inner, Out, topic, old(lastSeq) + 1 + gap) && Valid(State())
      ensures if HasId(old(rows), inner.id) then rows == old(rows)
              else |rows| == |old(rows)| + 1 && old(rows) <= rows
                   && var r := rows[|old(rows)|];
                      Records(r, inner, topic) && r.direction == Out && r.state == Pending && r.seqNo > old(lastSeq)
    {
      if !HasId(rows, inner.id) {
        lastSeq := lastSeq + 1 + gap;
        rows := rows + [RowOf(inner, Out, topic, lastSeq)];
      }
    }

    method ReadAfterCursor(consumer: string, limit: int) returns (msgs: seq<Row>)
      requires Valid(State())
      ensures msgs == Batch(rows, Cursor(cursors, consumer), limit)
      ensures var after := if consumer in cursors then cursors[consumer] else 0;
              && Ascending(msgs) && (forall m | m in msgs :: m in rows && m.direction == In && m.seqNo > after)
              && (limit >= 0 ==> |msgs| <= limit)
              && (limit < 0 || |msgs| < limit ==>
                    forall r | r in rows && r.direction == In && r.seqNo > after :: r in msgs)
              && (forall r, m | r in rows && r.direction == In && r.seqNo > after && m in msgs && r.seqNo < m.seqNo ::
                    r in msgs)
    {
      BatchIsPrefix(rows, Cursor(cursors, consumer), limit);
      var after := Cursor(cursors, consumer);
      msgs := Limited(Unread(rows, after), limit);
    }

    method Ack(consumer: string, seqNo: int)
      modifies this`cursors
      ensures cursors == AckCursor(old(cursors), consumer, seqNo)
      ensures Max(0, Cursor(cursors, consumer)) >= Max(0, Cursor(old(cursors), consumer))
      ensures Cursor(cursors, consumer) >= seqNo
      ensures forall c | c != consumer :: Cursor(cursors, c) == Cursor(old(cursors), c)
      ensures Valid(State()) == old(Valid(State()))
    {
      if consumer !in cursors || seqNo > cursors[consumer] {
        cursors := cursors[consumer := seqNo];
      }
    }

    method Enqueue(ob: Outbound)
      requires Valid(State())
      modifies this`outbox
      ensures outbox == EnqueueOutbound(old(outbox), ob) && Valid(State())
    {
      if !(exists o :: o in outbox && o.id == ob.id) {
        outbox := outbox + [ob];
      }
    }

    /** Two statements: the log row advances to `sent`, then the outbox entry goes. */
    method MarkDelivered(id: string)
      requires Valid(State())
      modifies this`rows, this`outbox
      ensures rows == ApplyEvent(old(rows), id, HandOff)
      ensures outbox == RemoveOutbound(old(outbox), id) && Valid(State())
    {
      rows := ApplyEvent(rows, id, HandOff);
      ApplyKeepsValid(old(State()), id, HandOff);
      outbox := RemoveOutbound(outbox, id);
    }

    method ApplyReceipt(refId: string, status: ReceiptStatus)
      requires Valid(State())
      modifies this`rows
      ensures rows == ApplyEvent(old(rows), refId, if status.Delivered? then DeliveryReceipt else ReadReceipt)
      ensures Valid(State())
    {
      match status {
        case Delivered => rows := ApplyEvent(rows, refId, DeliveryReceipt);
        case Read => rows := ApplyEvent(rows, refId, ReadReceipt);
      }
      ApplyKeepsValid(old(State()), refId, if status.Delivered? then DeliveryReceipt else ReadReceipt);
    }

    method RecordRejection(r: Rejection)
      modifies this`rejections
      ensures rejections == old(rejections) + [r]
      ensures Valid(State()) == old(Valid(State()))
    {
      rejections := rejections + [r];
    }

    method Beacon(agent: string, row: PresenceRow)
      modifies this`presence
      ensures presence == UpsertPresence(old(presence), agent, row)
      ensures Valid(State()) == old(Valid(State()))
    {
      if agent !in presence || row.beacon.beat >= presence[agent].beacon.beat {
        presence := presence[agent := row];
      }
    }

    /** True if the grant id had been recorded before; records it otherwise. */
    method SeenGrant(id: string) returns (already: bool)
      modifies this`seenGrants
      ensures already == (id in old(seenGrants)) && seenGrants == old(seenGrants) + {id}
      ensures Valid(State()) == old(Valid(State()))
    {
      already := id in seenGrants;
      seenGrants := seenGrants + {id};
    }

    /** Evicts the oldest evictable rows over the message cap, then rounds of at most 64 while over the byte budget. */
    method EnforceBounds(maxMessages: nat, maxBytes: nat) returns (evicted: nat)
      requires Valid(State())
      modifies this`rows
      ensures rows == Enforced(old(rows), maxMessages, maxBytes) && Valid(State())
      ensures rows == DropOldest(old(rows), evicted) && evicted == |old(rows)| - |rows|
      ensures forall r | r in old(rows) && AwaitsReceipt(r) :: r in rows
      ensures forall r | r in rows :: r in old(rows)
      ensures |rows| > maxMessages || BodyBytes(rows) > maxBytes ==> forall r | r in rows :: AwaitsReceipt(r)
    {
      hide DropOldest, EvictableCount, BodyBytes, TrimBytes, TextLength;
      evicted := 0;
      DropOldestZero(rows);
      if |rows| > maxMessages || BodyBytes(rows) > maxBytes {
        var over := if |rows| > maxMessages then |rows| - maxMessages else 0;
        if over > 0 {
          var before := |rows|;
          DropStep(rows, rows, 0, over);
          rows := DropOldest(rows, over);
          evicted := evicted + (before - |rows|);
        }
        ghost var start := rows;
        while true
          invariant rows == DropOldest(old(rows), evicted) && evicted == |old(rows)| - |rows|
          invariant TrimBytes(rows, maxBytes) == TrimBytes(start, maxBytes)
          decreases |rows|
        {
          if BodyBytes(rows) <= maxBytes {
            break;
          }
          var before := |rows|;
          TrimStep(rows, maxBytes);
          DropStep(old(rows), rows, evicted, ROUND);
          rows := DropOldest(rows, ROUND);
          if |rows| == before {
            break;
          }
          evicted := evicted + (before - |rows|);
        }
      }
      TrimDone(rows, maxBytes);
      DropKeepsValid(old(State()), evicted);
      EnforcedSubset(old(rows), maxMessages, maxBytes);
    }
  }

  // ---------------------------------------------------------------- members of updated and trimmed tables

  lemma AppliedMembers(rows: seq<Row>, id: string, ev: DeliveryEvent)
    ensures forall u | u in ApplyEvent(rows, id, ev) :: exists r :: r in rows && u == Update(r, id, ev)
  {
    var u := ApplyEvent(rows, id, ev);
    forall i | 0 <= i < |u|
      ensures exists r :: r in rows && u[i] == Update(r, id, ev)
    {
      assert rows[i] in rows;
    }
  }

  lemma InsertMembers(db: Db, inner: Inner, direction: Direction, topic: string, seqNo: int)
    requires seqNo > db.lastSeq
    ensures var next := Insert(db, inner, direction, topic, seqNo);
            forall r :: r in next.rows <==>
              r in db.rows || (!HasId(db.rows, inner.id) && r == RowOf(inner, direction, topic, seqNo))
    ensures var next := Insert(db, inner, direction, topic, seqNo);
            next == db.(rows := next.rows, lastSeq := next.lastSeq) && next.lastSeq >= db.lastSeq
            && next.rows
               == if HasId(db.rows, inner.id) then db.rows else db.rows + [RowOf(inner, direction, topic, seqNo)]
  {
  }

  lemma InsertIs(db: Db, inner: Inner, direction: Direction, topic: string, seqNo: int)
    requires seqNo > db.lastSeq
    ensures Insert(db, inner, direction, topic, seqNo)
         == if HasId(db.rows, inner.id) then db
            else db.(rows := db.rows + [RowOf(inner, direction, topic, seqNo)], lastSeq := seqNo)
  {
    hide HasId, RowOf;
  }

  lemma InsertKeepsValid(db: Db, inner: Inner, direction: Direction, topic: string, seqNo: int)
    requires Valid(db) && seqNo > db.lastSeq
    ensures Valid(Insert(db, inner, direction, topic, seqNo))
  {
    hide RowOf;
    InsertMembers(db, inner, direction, topic, seqNo);
    var row := RowOf(inner, direction, topic, seqNo);
    assert row.id == inner.id && row.seqNo == seqNo by {
      RowIdentity(inner, direction, topic, seqNo);
    }
    assert forall i | 0 <= i < |db.rows| :: db.rows[i] in db.rows;
  }

  lemma RowIdentity(inner: Inner, direction: Direction, topic: string, seqNo: int)
    ensures var row := RowOf(inner, direction, topic, seqNo);
            row.id == inner.id && row.seqNo == seqNo && row.direction == direction
  {
  }

  lemma ApplyKeepsValid(db: Db, id: string, ev: DeliveryEvent)
    requires Valid(db)
    ensures Valid(db.(rows := ApplyEvent(db.rows, id, ev)))
  {
    hide Advance;
    AppliedMembers(db.rows, id, ev);
  }

  lemma {:induction false} DropOldestCapped(rows: seq<Row>, k: nat)
    ensures DropOldest(rows, k) == DropOldest(rows, Min(k, EvictableCount(rows)))
  {
    DropOldestSize(rows, 0);
    if rows != [] && k > 0 {
      if Evictable(rows[0]) {
        DropOldestSize(rows[1..], 0);
        DropOldestCapped(rows[1..], k - 1);
      } else {
        DropOldestCapped(rows[1..], k);
        NothingToDrop(rows);
      }
    }
  }

  lemma {:induction false} NothingToDrop(rows: seq<Row>)
    ensures EvictableCount(rows) == 0 ==> forall k: nat :: DropOldest(rows, k) == rows
    ensures EvictableCount(rows) == 0 <==> forall r | r in rows :: !Evictable(r)
  {
    if rows != [] {
      NothingToDrop(rows[1..]);
      assert rows == [rows[0]] + rows[1..];
    }
  }

  lemma DropOldestZero(rows: seq<Row>)
    ensures DropOldest(rows, 0) == rows
  {
  }

  /** A byte round either changes nothing, and then nothing is left to evict, or leaves less to trim. */
  lemma TrimStep(rows: seq<Row>, maxBytes: nat)
    requires BodyBytes(rows) > maxBytes
    ensures var next := DropOldest(rows, ROUND);
            && |next| <= |rows| && TrimBytes(rows, maxBytes) == TrimBytes(next, maxBytes)
            && (|next| == |rows| ==> next == rows && EvictableCount(rows) == 0)
  {
    DropOldestSize(rows, ROUND);
    NothingToDrop(rows);
  }

  lemma TrimDone(rows: seq<Row>, maxBytes: nat)
    ensures BodyBytes(rows) <= maxBytes || EvictableCount(rows) == 0 ==> TrimBytes(rows, maxBytes) == rows
  {
  }

  /** One more deletion after `done` rows are gone amounts to one deletion of both counts. */
  lemma DropStep(rows: seq<Row>, current: seq<Row>, done: nat, k: nat)
    requires current == DropOldest(rows, done) && done == |rows| - |current|
    ensures var next := DropOldest(current, k);
            |next| <= |current| && next == DropOldest(rows, |rows| - |next|)
  {
    DropOldestSize(current, k);
    DropOldestCapped(current, k);
    DropOldestTwice(rows, done, Min(k, EvictableCount(current)));
  }

  lemma {:induction false} DroppedSubset(rows: seq<Row>, k: nat)
    ensures forall r | r in DropOldest(rows, k) :: r in rows
    ensures forall r | r in rows && r !in DropOldest(rows, k) :: Evictable(r)
  {
    if rows != [] && k > 0 {
      assert rows == [rows[0]] + rows[1..];
      DroppedSubset(rows[1..], if Evictable(rows[0]) then k - 1 else k);
    }
  }

  lemma HeadIsOldest(rows: seq<Row>, s: Row)
    requires rows != [] && Ascending(rows) && s in rows[1..]
    ensures rows[0].seqNo < s.seqNo
  {
    var i :| 0 <= i < |rows[1..]| && rows[1..][i] == s;
    assert rows[i + 1] == s;
  }

  lemma {:induction false} DroppedAscending(rows: seq<Row>, k: nat)
    requires Ascending(rows)
    ensures Ascending(DropOldest(rows, k))
  {
    hide Evictable;
    if rows != [] && k > 0 {
      var tail := rows[1..];
      assert forall i | 0 <= i < |tail| :: tail[i] == rows[i + 1];
      DroppedAscending(tail, if Evictable(rows[0]) then k - 1 else k);
      if !Evictable(rows[0]) {
        DroppedSubset(tail, k);
        forall s | s in DropOldest(tail, k)
          ensures rows[0].seqNo < s.seqNo
        {
          HeadIsOldest(rows, s);
        }
      }
    }
  }

  lemma {:induction false} DroppedUnique(rows: seq<Row>, k: nat)
    requires UniqueIds(rows)
    ensures UniqueIds(DropOldest(rows, k))
  {
    hide Evictable;
    if rows != [] && k > 0 {
      var tail := rows[1..];
      assert forall i | 0 <= i < |tail| :: tail[i] == rows[i + 1];
      DroppedUnique(tail, if Evictable(rows[0]) then k - 1 else k);
      if !Evictable(rows[0]) {
        DroppedSubset(tail, k);
        assert forall s | s in DropOldest(tail, k) :: s.id != rows[0].id;
      }
    }
  }

  /** The rows that go are older than every evictable row that stays. */
  lemma {:induction false} DroppedAreOldest(rows: seq<Row>, k: nat, r: Row, s: Row)
    requires Ascending(rows)
    requires r in rows && r !in DropOldest(rows, k) && s in DropOldest(rows, k) && Evictable(s)
    ensures r.seqNo < s.seqNo
  {
    hide Evictable;
    var tail := rows[1..];
    assert rows == [rows[0]] + tail;
    if Evictable(rows[0]) {
      if r == rows[0] {
        DroppedSubset(tail, k - 1);
        HeadIsOldest(rows, s);
      } else {
        DroppedAreOldest(tail, k - 1, r, s);
      }
    } else {
      DroppedAreOldest(tail, k, r, s);
    }
  }

  lemma DropKeepsValid(db: Db, k: nat)
    requires Valid(db)
    ensures Valid(db.(rows := DropOldest(db.rows, k)))
  {
    DroppedSubset(db.rows, k);
    DroppedAscending(db.rows, k);
    DroppedUnique(db.rows, k);
  }

  lemma {:induction false} TrimmedSubset(rows: seq<Row>, maxBytes: nat)
    ensures var out := TrimBytes(rows, maxBytes);
            && |out| <= |rows|
            && (forall r | r in out :: r in rows) && (forall r | r in rows && r !in out :: Evictable(r))
            && (BodyBytes(out) <= maxBytes || EvictableCount(out) == 0)
            && (EvictableCount(rows) == 0 ==> out == rows)
    decreases |rows|
  {
    hide Evictable, BodyBytes;
    DropOldestSize(rows, ROUND);
    if !(BodyBytes(rows) <= maxBytes || EvictableCount(rows) == 0) {
      DroppedSubset(rows, ROUND);
      TrimmedSubset(DropOldest(rows, ROUND), maxBytes);
    }
  }

  /** Outbound rows that wait for their receipt. */
  predicate AwaitsReceipt(r: Row) {
    r.direction == Out && (r.state == Pending || r.state == Sent)
  }

  /** Bounds only remove rows, never one that awaits its receipt, and leave no other where a cap is still exceeded. */
  lemma EnforcedSubset(rows: seq<Row>, maxMessages: nat, maxBytes: nat)
    ensures var out := Enforced(rows, maxMessages, maxBytes);
            && (forall r | r in out :: r in rows) && (forall r | r in rows && AwaitsReceipt(r) :: r in out)
            && (|out| > maxMessages || BodyBytes(out) > maxBytes ==> forall r | r in out :: AwaitsReceipt(r))
  {
    var over := Excess(rows, maxMessages);
    var capped := DropOldest(rows, over);
    DroppedSubset(rows, over);
    DropOldestSize(rows, over);
    TrimmedSubset(capped, maxBytes);
    hide DropOldest, TrimBytes, BodyBytes;
    NothingToDrop(Enforced(rows, maxMessages, maxBytes));
    assert forall r: Row :: Evictable(r) <==> !AwaitsReceipt(r);
  }

  lemma EnforcedLength(rows: seq<Row>, maxMessages: nat, maxBytes: nat)
    ensures |Enforced(rows, maxMessages, maxBytes)| <= |rows|
  {
    DropOldestSize(rows, Excess(rows, maxMessages));
    TrimmedSubset(DropOldest(rows, Excess(rows, maxMessages)), maxBytes);
  }

  // ---------------------------------------------------------------- batches

  lemma {:induction false} UnreadMembers(rows: seq<Row>, after: int)
    ensures forall m :: m in Unread(rows, after) <==> m in rows && m.direction == In && m.seqNo > after
  {
    if rows != [] {
      UnreadMembers(rows[1..], after);
      assert rows == [rows[0]] + rows[1..];
    }
  }

  lemma {:induction false} UnreadAscending(rows: seq<Row>, after: int)
    requires Ascending(rows)
    ensures Ascending(Unread(rows, after))
  {
    if rows != [] {
      var tail := rows[1..];
      assert forall i | 0 <= i < |tail| :: tail[i] == rows[i + 1];
      UnreadAscending(tail, after);
      UnreadMembers(tail, after);
      forall s | s in Unread(tail, after)
        ensures rows[0].seqNo < s.seqNo
      {
        HeadIsOldest(rows, s);
      }
    }
  }

  /**
    A batch is the oldest unread inbound rows, in order: as many as the limit allows, all of them if it allows more or
    is negative.
   */
  lemma BatchIsPrefix(rows: seq<Row>, after: int, limit: int)
    requires Ascending(rows)
    ensures var batch := Batch(rows, after, limit);
            && Ascending(batch) && (forall m | m in batch :: m in rows && m.direction == In && m.seqNo > after)
            && (limit >= 0 ==> |batch| <= limit)
            && (limit < 0 || |batch| < limit ==>
                  forall r | r in rows && r.direction == In && r.seqNo > after :: r in batch)
            && (forall r, m | r in rows && r.direction == In && r.seqNo > after && m in batch && r.seqNo < m.seqNo ::
                  r in batch)
  {
    var all, batch := Unread(rows, after), Batch(rows, after, limit);
    UnreadMembers(rows, after);
    UnreadAscending(rows, after);
    hide Unread, Ascending;
    assert batch == all[..|batch|];
    PrefixAscending(all, |batch|);
    forall r, m | r in all && m in batch && r.seqNo < m.seqNo
      ensures r in batch
    {
      PrefixCovers(all, |batch|, r, m);
    }
  }

  lemma PrefixAscending(all: seq<Row>, n: nat)
    requires Ascending(all) && n <= |all|
    ensures Ascending(all[..n])
  {
    var batch := all[..n];
    assert forall i | 0 <= i < n :: batch[i] == all[i];
  }

  lemma PrefixCovers(all: seq<Row>, n: nat, r: Row, m: Row)
    requires Ascending(all) && n <= |all| && r in all && m in all[..n] && r.seqNo < m.seqNo
    ensures r in all[..n]
  {
    var i :| 0 <= i < |all| && all[i] == r;
    var j :| 0 <= j < n && all[..n][j] == m;
    assert all[j] == m && i < j;
    assert all[..n][i] == r;
  }

  /** Entries go one by one: those that stay keep their order, the oldest first. */
  lemma {:induction false} RemoveInPlace(front: seq<Outbound>, back: seq<Outbound>, id: string)
    ensures RemoveOutbound(front + back, id) == RemoveOutbound(front, id) + RemoveOutbound(back, id)
    decreases |front|
  {
    if front == [] {
      assert front + back == back;
    } else {
      assert (front + back)[1..] == front[1..] + back;
      RemoveInPlace(front[1..], back, id);
    }
  }

  // ---------------------------------------------------------------- sizes

  /** The length counted is the number of characters before the first NUL, or of all of them. */
  lemma TextLengthIff(s: string, n: nat)
    ensures TextLength(s) == n <==> n <= |s| && '\0' !in s[..n] && (n < |s| ==> s[n] == '\0')
  {
    match Text.SplitFirst(s, '\0') {
      case None =>
        Text.SplitFirstNone(s, '\0');
        assert n < |s| ==> s[n] in s;
        assert s[..|s|] == s;
      case Some((head, tail)) =>
        Text.SplitFirstIff(s, '\0', head, tail);
        assert s[..|head|] == head && s[|head|] == '\0';
        if n > |head| && n <= |s| {
          assert s[..n][|head|] == '\0';
        }
        if n < |head| {
          assert s[n] == head[n] && head[n] in head;
        }
    }
  }

  /** The budget sums those lengths over all rows. */
  lemma {:induction false} BodyBytesAppend(rows: seq<Row>, more: seq<Row>)
    ensures BodyBytes(rows + more) == BodyBytes(rows) + BodyBytes(more)
    ensures BodyBytes([]) == 0 && forall r: Row :: BodyBytes([r]) == TextLength(r.body)
  {
    assert forall r: Row :: [r][1..] == [];
    if rows == [] {
      assert rows + more == more;
    } else {
      assert (rows + more)[1..] == rows[1..] + more;
      BodyBytesAppend(rows[1..], more);
    }
  }
}
