/**
  Reading and acknowledging (src/store.rs:303-351, src/daemon.rs:430-462, src/cli.rs:1463-1498): nothing is
  skipped by a reader that acks the batches it was given, and following with acks can skip.
 */
module Drain {
  import opened Wire
  import opened Store
  import Steps

  /** A store with its history: row numbers of all inbound rows ever inserted, of all rows evicted, and per consumer
      what reads returned, the last row number of each batch, and the cursor values of reads still under way. */
  datatype History = History(
    db: Db, inserted: set<int>, evicted: set<int>, returned: set<(string, int)>, ends: set<(string, int)>,
    open: set<(string, int)>)

  const START := History(EMPTY, {}, {}, {}, {}, {})

  /** A read locks the store twice, once for the cursor and once for the rows. */
  datatype Event =
    | Arrive(inner: Inner, topic: string, seqNo: int)
    | LogOutbound(inner: Inner, topic: string, seqNo: int)
    | Progress(id: string, ev: DeliveryEvent)
    | Evict(k: nat)
    | BeginRead(consumer: string)
    | EndRead(consumer: string, after: int, limit: int)
    | AckBatch(consumer: string, end: int)
    | StreamAck(consumer: string, streamed: int)

  predicate Enabled(h: History, e: Event) {
    match e
    case Arrive(inner, _, n) => n > h.db.lastSeq
    case LogOutbound(inner, _, n) => n > h.db.lastSeq
    case EndRead(c, after, _) => (c, after) in h.open
    case AckBatch(c, n) => (c, n) in h.ends
    case StreamAck(c, n) => n in h.inserted
    case _ => true
  }

  function Apply(h: History, e: Event): History
    requires Enabled(h, e)
  {
    match e
    case Arrive(inner, topic, n) =>
      h.(db := Insert(h.db, inner, In, topic, n),
         inserted := if HasId(h.db.rows, inner.id) then h.inserted else h.inserted + {n})
    case LogOutbound(inner, topic, n) => h.(db := Insert(h.db, inner, Out, topic, n))
    case Progress(id, ev) => h.(db := h.db.(rows := ApplyEvent(h.db.rows, id, ev)))
    case Evict(k) =>
      var kept := DropOldest(h.db.rows, k);
      h.(db := h.db.(rows := kept), evicted := h.evicted + set r | r in h.db.rows && r !in kept :: r.seqNo)
    case BeginRead(c) => h.(open := h.open + {(c, Cursor(h.db.cursors, c))})
    case EndRead(c, after, limit) =>
      var batch := Batch(h.db.rows, after, limit);
      h.(returned := h.returned + set m | m in batch :: (c, m.seqNo),
         ends := if batch == [] then h.ends else h.ends + {(c, batch[|batch| - 1].seqNo)})
    case AckBatch(c, n) => h.(db := h.db.(cursors := AckCursor(h.db.cursors, c, n)))
    case StreamAck(c, n) =>
      h.(db := h.db.(cursors := AckCursor(h.db.cursors, c, n)), returned := h.returned + {(c, n)})
  }

  ghost predicate Trace(h: History, evs: seq<Event>)
    decreases |evs|
  {
    evs == [] || (Enabled(h, evs[0]) && Trace(Apply(h, evs[0]), evs[1..]))
  }

  ghost function Run(h: History, evs: seq<Event>): History
    requires Trace(h, evs)
    decreases |evs|
  {
    if evs == [] then h else Run(Apply(h, evs[0]), evs[1..])
  }

  /** Every inbound row ever inserted up to `n` was returned to the consumer or evicted. */
  ghost predicate Covered(h: History, c: string, n: int) {
    forall q | q in h.inserted && q <= n :: (c, q) in h.returned || q in h.evicted
  }

  ghost predicate Present(rows: seq<Row>, q: int) {
    exists r :: r in rows && r.direction == In && r.seqNo == q
  }

  ghost predicate Recorded(h: History) {
    && Valid(h.db)
    && (forall q | q in h.inserted :: 1 <= q <= h.db.lastSeq && (q in h.evicted || Present(h.db.rows, q)))
    && (forall r | r in h.db.rows && r.direction == In :: r.seqNo in h.inserted && r.seqNo !in h.evicted)
    && (forall q | q in h.evicted :: q <= h.db.lastSeq)
  }

  ghost predicate Marks(h: History) {
    && (forall m | m in h.ends + h.open :: m.1 <= h.db.lastSeq && Covered(h, m.0, m.1))
    && (forall c :: Cursor(h.db.cursors, c) <= h.db.lastSeq && Covered(h, c, Cursor(h.db.cursors, c)))
  }

  // ---------------------------------------------------------------- every step keeps the books

  lemma EvictKeepsRecords(h: History, k: nat)
    requires Recorded(h)
    ensures Recorded(Apply(h, Evict(k)))
  {
    var kept := DropOldest(h.db.rows, k);
    DropKeepsValid(h.db, k);
    DroppedSubset(h.db.rows, k);
    var next := Apply(h, Evict(k));
    forall r | r in kept && r.direction == In
      ensures r.seqNo !in next.evicted
    {
      DistinctNumbers(h.db.rows);
    }
    forall q | q in h.inserted && q !in next.evicted
      ensures Present(kept, q)
    {
      var r :| r in h.db.rows && r.direction == In && r.seqNo == q;
      assert r in kept;
    }
  }

  lemma DistinctNumbers(rows: seq<Row>)
    requires Ascending(rows)
    ensures forall r, s | r in rows && s in rows && r.seqNo == s.seqNo :: r == s
  {
  }

  lemma PresentAfterProgress(rows: seq<Row>, id: string, ev: DeliveryEvent, q: int)
    requires Present(rows, q)
    ensures Present(ApplyEvent(rows, id, ev), q)
  {
    var next := ApplyEvent(rows, id, ev);
    var i :| 0 <= i < |rows| && rows[i].direction == In && rows[i].seqNo == q;
    assert next[i] in next;
  }

  lemma ProgressKeepsRecords(h: History, id: string, ev: DeliveryEvent)
    requires Recorded(h)
    ensures Recorded(Apply(h, Progress(id, ev)))
  {
    hide Advance, Valid;
    var rows, next := h.db.rows, ApplyEvent(h.db.rows, id, ev);
    ApplyKeepsValid(h.db, id, ev);
    AppliedMembers(rows, id, ev);
    forall q | q in h.inserted && q !in h.evicted
      ensures Present(next, q)
    {
      PresentAfterProgress(rows, id, ev, q);
    }
  }

  lemma InsertKeepsRecords(h: History, inner: Inner, direction: Direction, topic: string, n: int)
    requires Recorded(h) && n > h.db.lastSeq
    ensures Recorded(Apply(h, if direction == In then Arrive(inner, topic, n) else LogOutbound(inner, topic, n)))
  {
    hide Valid, RowOf;
    InsertKeepsValid(h.db, inner, direction, topic, n);
    InsertMembers(h.db, inner, direction, topic, n);
    RowIdentity(inner, direction, topic, n);
    var next := Insert(h.db, inner, direction, topic, n);
    forall q | Present(h.db.rows, q)
      ensures Present(next.rows, q)
    {
      var r :| r in h.db.rows && r.direction == In && r.seqNo == q;
      assert r in next.rows;
    }
    if direction == In && !HasId(h.db.rows, inner.id) {
      var row := RowOf(inner, direction, topic, n);
      assert row in next.rows && Present(next.rows, n);
    }
  }

  lemma StepKeepsRecords(h: History, e: Event)
    requires Recorded(h) && Enabled(h, e)
    ensures Recorded(Apply(h, e))
  {
    match e {
      case Arrive(inner, topic, n) => InsertKeepsRecords(h, inner, In, topic, n);
      case LogOutbound(inner, topic, n) => InsertKeepsRecords(h, inner, Out, topic, n);
      case Progress(id, ev) => ProgressKeepsRecords(h, id, ev);
      case Evict(k) => EvictKeepsRecords(h, k);
      case _ =>
    }
  }

  /** Coverage only grows: new rows get numbers above every mark. */
  lemma CoverageStays(h: History, e: Event, c: string, n: int)
    requires Recorded(h) && Enabled(h, e) && n <= h.db.lastSeq && Covered(h, c, n)
    ensures Covered(Apply(h, e), c, n)
  {
  }

  /** A read that began at a covered cursor covers everything up to its last row. */
  lemma ReadCovers(h: History, c: string, after: int, limit: int)
    requires Recorded(h) && Covered(h, c, after)
    requires Batch(h.db.rows, after, limit) != [] && (c, after) in h.open
    ensures var batch := Batch(h.db.rows, after, limit);
            var end := batch[|batch| - 1].seqNo;
            end <= h.db.lastSeq && Covered(Apply(h, EndRead(c, after, limit)), c, end)
  {
    var batch := Batch(h.db.rows, after, limit);
    var end := batch[|batch| - 1].seqNo;
    var next := Apply(h, EndRead(c, after, limit));
    BatchIsPrefix(h.db.rows, after, limit);
    hide Batch, Valid, Ascending, UniqueIds;
    assert batch[|batch| - 1] in batch;
    forall q | q in next.inserted && q <= end
      ensures (c, q) in next.returned || q in next.evicted
    {
      if q > after && q !in h.evicted {
        var r :| r in h.db.rows && r.direction == In && r.seqNo == q;
        assert r in batch;
      }
    }
  }

  /** Every cursor is covered. */
  ghost predicate CursorsCovered(h: History) {
    forall c :: Covered(h, c, Cursor(h.db.cursors, c))
  }

  /** No stored row between the cursor and the streamed row being acked is still unreturned. */
  ghost predicate Clean(h: History, e: Event) {
    e.StreamAck? ==>
      forall r | r in h.db.rows && r.direction == In && Cursor(h.db.cursors, e.consumer) < r.seqNo < e.streamed ::
        (e.consumer, r.seqNo) in h.returned
  }

  /** Acking a streamed row keeps everything covered exactly when no stored row between cursor and it is unreturned. */
  lemma FollowAckIff(h: History, consumer: string, n: int)
    requires Recorded(h) && Marks(h) && n in h.inserted
    ensures var next := Apply(h, StreamAck(consumer, n));
            Covered(next, consumer, Cursor(next.db.cursors, consumer)) <==> Clean(h, StreamAck(consumer, n))
  {
    var next := Apply(h, StreamAck(consumer, n));
    CoverageStays(h, StreamAck(consumer, n), consumer, Cursor(h.db.cursors, consumer));
    if Clean(h, StreamAck(consumer, n)) {
      forall q | q in next.inserted && q <= Cursor(next.db.cursors, consumer)
        ensures (consumer, q) in next.returned || q in next.evicted
      {
        if q !in h.evicted && q > Cursor(h.db.cursors, consumer) && q != n {
          var r :| r in h.db.rows && r.direction == In && r.seqNo == q;
        }
      }
    }
  }

  lemma StepKeepsMarks(h: History, e: Event)
    requires Recorded(h) && Marks(h) && Enabled(h, e) && Clean(h, e)
    ensures Marks(Apply(h, e))
  {
    var next := Apply(h, e);
    if e.EndRead? && Batch(h.db.rows, e.after, e.limit) != [] {
      ReadCovers(h, e.consumer, e.after, e.limit);
    }
    forall m | m in next.ends + next.open
      ensures m.1 <= next.db.lastSeq && Covered(next, m.0, m.1)
    {
      if m in h.ends + h.open {
        CoverageStays(h, e, m.0, m.1);
      }
    }
    forall c
      ensures Cursor(next.db.cursors, c) <= next.db.lastSeq && Covered(next, c, Cursor(next.db.cursors, c))
    {
      if e.AckBatch? && c == e.consumer {
        CoverageStays(h, e, c, e.end);
      }
      if e.StreamAck? && c == e.consumer {
        FollowAckIff(h, c, e.streamed);
      } else {
        CoverageStays(h, e, c, Cursor(h.db.cursors, c));
      }
    }
  }

  /** Every follow-ack of the trace is clean when it happens. */
  ghost predicate AllClean(h: History, evs: seq<Event>)
    requires Trace(h, evs)
    decreases |evs|
  {
    evs != [] ==> Clean(h, evs[0]) && AllClean(Apply(h, evs[0]), evs[1..])
  }

  /** At no point of the trace has a cursor passed a row that was neither returned to its consumer nor evicted. */
  ghost predicate AlwaysCovered(h: History, evs: seq<Event>)
    requires Trace(h, evs)
    decreases |evs|
  {
    CursorsCovered(h) && (evs != [] ==> AlwaysCovered(Apply(h, evs[0]), evs[1..]))
  }

  lemma {:induction false} CoveredIffClean(h: History, evs: seq<Event>)
    requires Recorded(h) && Marks(h) && Trace(h, evs)
    ensures AlwaysCovered(h, evs) <==> AllClean(h, evs)
    decreases |evs|
  {
    hide Recorded, Covered, Clean, Apply, Enabled;
    if evs != [] {
      var e, next := evs[0], Apply(h, evs[0]);
      if Clean(h, e) {
        StepKeepsRecords(h, e);
        StepKeepsMarks(h, e);
        CoveredIffClean(next, evs[1..]);
      } else {
        UncleanUncovers(h, e);
        assert !AlwaysCovered(next, evs[1..]);
      }
    }
  }

  lemma UncleanUncovers(h: History, e: Event)
    requires Recorded(h) && Marks(h) && Enabled(h, e) && !Clean(h, e)
    ensures !CursorsCovered(Apply(h, e))
  {
    hide Recorded, Marks, Covered;
    FollowAckIff(h, e.consumer, e.streamed);
  }

  lemma {:induction false} CoveredAtEnd(h: History, evs: seq<Event>)
    requires Trace(h, evs) && AlwaysCovered(h, evs)
    ensures CursorsCovered(Run(h, evs))
    decreases |evs|
  {
    hide Apply, Enabled, Covered;
    if evs != [] {
      CoveredAtEnd(Apply(h, evs[0]), evs[1..]);
    }
  }

  lemma {:induction false} NoFollowIsClean(h: History, evs: seq<Event>)
    requires Trace(h, evs) && forall e | e in evs :: !e.StreamAck?
    ensures AllClean(h, evs)
    decreases |evs|
  {
    hide Apply, Enabled;
    if evs != [] {
      NoFollowIsClean(Apply(h, evs[0]), evs[1..]);
    }
  }

  /**
    Over every interleaving of arrivals, outbound logging, state changes, evictions, reads, acks of batches and acks
    of streamed rows: no cursor ever passes a row that was neither returned to its consumer nor evicted if and only if
    no streamed row is acked while a stored row between cursor and it is unreturned.
   */
  lemma FollowingCoversIff(evs: seq<Event>)
    requires Trace(START, evs)
    ensures AlwaysCovered(START, evs) <==> AllClean(START, evs)
  {
    CoveredIffClean(START, evs);
  }

  /**
    In every interleaving of arrivals, outbound logging, state changes, evictions, reads and acks, where each ack
    carries the end of a batch some read returned for that consumer: no inbound row at or below the cursor was
    skipped, however many readers share the name.
   */
  lemma NothingSkipped(evs: seq<Event>, consumer: string)
    requires Trace(START, evs) && forall e | e in evs :: !e.StreamAck?
    ensures var h := Run(START, evs);
            Covered(h, consumer, Cursor(h.db.cursors, consumer))
  {
    NoFollowIsClean(START, evs);
    FollowingCoversIff(evs);
    CoveredAtEnd(START, evs);
  }

  // ---------------------------------------------------------------- the daemon's acts are these events

  predicate SameTable(a: Db, b: Db) {
    a.rows == b.rows && a.lastSeq == b.lastSeq && a.cursors == b.cursors
  }

  /** The event an act of the daemon amounts to here, if it touches table or cursors at all. */
  function EventOf(act: Steps.Act): seq<Event> {
    match act
    case Arrive(_, Receipted(Some(info))) => [Progress(info.refId, Steps.ReceiptEvent(info.status))]
    case InsertIn(c, seqNo, _) => [Event.Arrive(c.inner, c.topic, seqNo)]
    case InsertOut(inner, topic, seqNo) => [LogOutbound(inner, topic, seqNo)]
    case Drop(count, _) => [Event.Evict(count)]
    case HandedOff(id) => [Progress(id, HandOff)]
    case MoveCursor(c, seqNo) => [AckBatch(c, seqNo)]
    case _ => []
  }

  /** Every act of the daemon does to table and cursors what its event does here, if acks are of batches read. */
  lemma ActIsEvent(s: Steps.State, act: Steps.Act, h: History)
    requires Steps.Possible(s, act) && SameTable(h.db, s.db)
    requires act.MoveCursor? ==> (act.consumer, act.seqNo) in h.ends
    ensures Trace(h, EventOf(act)) && SameTable(Run(h, EventOf(act)).db, Steps.Do(s, act).db)
  {
    hide Insert, ApplyEvent, DropOldest, AckCursor, Trace, Run, UpsertPresence, EnqueueOutbound, RemoveOutbound;
    RunNone(h);
    if EventOf(act) != [] {
      var e := EventOf(act)[0];
      assert Enabled(h, e);
      RunNone(Apply(h, e));
      RunCons(h, e, []);
      assert EventOf(act) == [e] + [];
      TableFollows(s, act, h);
    }
  }

  lemma TableFollows(s: Steps.State, act: Steps.Act, h: History)
    requires Steps.Possible(s, act) && SameTable(h.db, s.db) && EventOf(act) != [] && Enabled(h, EventOf(act)[0])
    ensures SameTable(Apply(h, EventOf(act)[0]).db, Steps.Do(s, act).db)
  {
    hide ApplyEvent, DropOldest, AckCursor, RowOf, HasId;
  }

  // ---------------------------------------------------------------- a reader gets there

  lemma RunCons(h: History, e: Event, rest: seq<Event>)
    requires Enabled(h, e) && Trace(Apply(h, e), rest)
    ensures Trace(h, [e] + rest) && Run(h, [e] + rest) == Run(Apply(h, e), rest)
  {
    assert ([e] + rest)[1..] == rest;
  }

  /** With any limit but zero, a batch is empty only if nothing is unread; otherwise it is read and acked at once. */
  lemma ReadAndAck(h: History, c: string, limit: int)
    requires Recorded(h) && limit != 0
    ensures var after := Cursor(h.db.cursors, c);
            var batch := Batch(h.db.rows, after, limit);
            if batch == [] then forall r | r in h.db.rows && r.direction == In :: r.seqNo <= after
            else
              var last := batch[|batch| - 1].seqNo;
              var evs := [BeginRead(c)] + ([EndRead(c, after, limit)] + ([AckBatch(c, last)] + []));
              && Trace(h, evs)
              && var g := Run(h, evs);
                 && g.db == h.db.(cursors := h.db.cursors[c := last]) && g.inserted == h.inserted
                 && g.evicted == h.evicted && last > after && last in h.inserted
  {
    hide Trace, Run, Batch;
    var after := Cursor(h.db.cursors, c);
    var batch := Batch(h.db.rows, after, limit);
    BatchIsPrefix(h.db.rows, after, limit);
    if batch != [] {
      assert batch[|batch| - 1] in batch;
      var last := batch[|batch| - 1].seqNo;
      var h1 := Apply(h, BeginRead(c));
      var h2 := Apply(h1, EndRead(c, after, limit));
      var h3 := Apply(h2, AckBatch(c, last));
      assert Trace(h3, []) && Run(h3, []) == h3 by { RunNone(h3); }
      RunCons(h2, AckBatch(c, last), []);
      RunCons(h1, EndRead(c, after, limit), [AckBatch(c, last)] + []);
      RunCons(h, BeginRead(c), [EndRead(c, after, limit)] + ([AckBatch(c, last)] + []));
    }
  }

  lemma RunNone(h: History)
    ensures Trace(h, []) && Run(h, []) == h
  {
  }

  lemma {:induction false} RunOn(h: History, evs: seq<Event>, more: seq<Event>)
    requires Trace(h, evs) && Trace(Run(h, evs), more)
    ensures Trace(h, evs + more) && Run(h, evs + more) == Run(Run(h, evs), more)
    decreases |evs|
  {
    hide Enabled, Apply;
    if evs == [] {
      assert evs + more == more;
    } else {
      assert (evs + more)[1..] == evs[1..] + more;
      RunOn(Apply(h, evs[0]), evs[1..], more);
    }
  }

  /** So a reader with any limit but zero can always catch up: its cursor passes every inbound row there is. */
  lemma {:induction false} CatchesUp(h: History, c: string, limit: int) returns (evs: seq<Event>)
    requires Recorded(h) && limit != 0
    ensures Trace(h, evs) && forall e | e in evs :: e.BeginRead? || e.EndRead? || e.AckBatch?
    ensures Run(h, evs).db.rows == h.db.rows
    ensures forall r | r in h.db.rows && r.direction == In :: r.seqNo <= Cursor(Run(h, evs).db.cursors, c)
    decreases h.db.lastSeq - Cursor(h.db.cursors, c)
  {
    hide Trace, Run, Batch;
    var after := Cursor(h.db.cursors, c);
    var batch := Batch(h.db.rows, after, limit);
    ReadAndAck(h, c, limit);
    RunNone(h);
    if batch == [] {
      return [];
    }
    var last := batch[|batch| - 1].seqNo;
    var first := [BeginRead(c)] + ([EndRead(c, after, limit)] + ([AckBatch(c, last)] + []));
    var g := Run(h, first);
    var more := CatchesUp(g, c, limit);
    RunOn(h, first, more);
    evs := first + more;
  }

  // ---------------------------------------------------------------- following with acks

  /** A message arrives before the follower is registered, the next is streamed and acked: the first is lost. */
  lemma FollowSkips(a: Inner, b: Inner, topic: string, consumer: string)
    requires a.id != b.id
    ensures var evs := [Arrive(a, topic, 1), Arrive(b, topic, 2), StreamAck(consumer, 2)];
            && Trace(START, evs)
            && var h := Run(START, evs);
               && Cursor(h.db.cursors, consumer) == 2 && 1 in h.inserted
               && Present(h.db.rows, 1) && !Covered(h, consumer, 2)
  {
    var evs := [Arrive(a, topic, 1), Arrive(b, topic, 2), StreamAck(consumer, 2)];
    var h1 := Apply(START, evs[0]);
    var h2 := Apply(h1, evs[1]);
    var h3 := Apply(h2, evs[2]);
    RunCons(h2, evs[2], []);
    RunCons(h1, evs[1], [evs[2]]);
    RunCons(START, evs[0], [evs[1], evs[2]]);
    assert evs == [evs[0]] + [evs[1], evs[2]] && [evs[1], evs[2]] == [evs[1]] + [evs[2]] && [evs[2]] == [evs[2]] + [];
    hide Trace, Run;
    assert h3.db.rows == [RowOf(a, In, topic, 1), RowOf(b, In, topic, 2)];
    assert h3.db.rows[0] in h3.db.rows;
    assert (consumer, 1) !in h3.returned && 1 !in h3.evicted && 1 in h3.inserted;
  }
}
