/**
  The daemon's handlers as they are written (src/daemon.rs): statements over a store object and a pending map. Each is
  proved to take its agent through an uninterrupted run of the step system, so what holds over all runs holds of it.
 */
module Daemon {
  import opened Prelude
  import opened Wire
  import opened Env
  import opened Message
  import opened Paths
  import opened Receipts
  import opened Sending
  import opened Steps
  import Grant
  import MessageProofs
  import Network
  import Outbox
  import Store
  import Trust
  import Utf8

  /** The clock reading, the unused row numbers and the fresh draw one handler call gets. */
  datatype Inputs = Inputs(now: int, gap: nat, draw: Draw)

  /** The new inbound row if eviction spares it. */
  function Survivor(rows: seq<Store.Row>, c: Candidate, seqNo: int): Option<Store.Row> {
    var row := Store.RowOf(c.inner, Store.In, c.topic, seqNo);
    if row in Store.Enforced(rows + [row], c.cfg.maxMessages, c.cfg.maxBytes) then Some(row) else None
  }

  /** What subscribers are offered: the new inbound row, unless its grant is spent, its id known or it was evicted. */
  function Offered(db: Store.Db, c: Candidate, seqNo: int): Option<Store.Row> {
    if c.guard.Some? && c.guard.value in db.seenGrants then None
    else if Store.HasId(db.rows, c.inner.id) then None
    else Survivor(db.rows, c, seqNo)
  }

  /** Looking the new number up after eviction finds the new row or nothing. */
  lemma LookupNew(db: Store.Db, c: Candidate, seqNo: int)
    requires Store.Valid(db) && seqNo > db.lastSeq
    ensures var row := Store.RowOf(c.inner, Store.In, c.topic, seqNo);
            var kept := Store.Enforced(db.rows + [row], c.cfg.maxMessages, c.cfg.maxBytes);
            Store.MessageBySeq(kept, seqNo) == Survivor(db.rows, c, seqNo)
  {
    hide Store.Enforced, Store.RowOf;
    var row := Store.RowOf(c.inner, Store.In, c.topic, seqNo);
    Store.RowIdentity(c.inner, Store.In, c.topic, seqNo);
    Store.EnforcedSubset(db.rows + [row], c.cfg.maxMessages, c.cfg.maxBytes);
  }

  /** Which acknowledged row is answered. */
  lemma AnswerOf(me: Identity, db: Store.Db, seqNo: int, autoReceipts: bool)
    ensures var m := Store.MessageBySeq(db.rows, seqNo);
            AfterAck(me, db, seqNo, autoReceipts)
            == if autoReceipts && m.Some? && m.value.direction == Store.In && Direct(me, m.value.recipient)
               then Some(MakeReceipt(m.value.sender, ReceiptInfo(m.value.id, ReceiptStatus.Read), m.value.topic))
               else None
  {
    hide Store.MessageBySeq;
  }

  function Taken(obs: seq<Store.Outbound>, accepts: seq<bool>): seq<Store.Outbound>
    requires |obs| == |accepts|
  {
    if obs == [] then []
    else Taken(obs[..|obs| - 1], accepts[..|obs| - 1]) + if accepts[|obs| - 1] then [obs[|obs| - 1]] else []
  }

  lemma TakenNext(obs: seq<Store.Outbound>, accepts: seq<bool>, i: nat)
    requires i < |obs| == |accepts|
    ensures Taken(obs[..i + 1], accepts[..i + 1])
         == Taken(obs[..i], accepts[..i]) + if accepts[i] then [obs[i]] else []
  {
    assert obs[..i + 1][..i] == obs[..i] && accepts[..i + 1][..i] == accepts[..i];
  }

  lemma PairBroadcast(e: Env, me: Identity)
    ensures PairOpts(e, me) == DefaultOpts(BROADCAST, PairOpts(e, me).ctype, PairOpts(e, me).body)
  {
  }

  lemma PairDraft(e: Env, me: Identity, d: Draw)
    ensures BuildInner(e, me, PairOpts(e, me), d) == Ok(Draft(e, me, PairOpts(e, me), d))
  {
  }

  /** Messages built and payloads handed over are as before. */
  predicate SameSent(s: State, u: State) {
    u.log.built == s.log.built && u.log.handed == s.log.handed
  }

  class Daemon {
    const e: Env
    const me: Identity
    const store: Store.Store
    var trust: Trust.Trust
    var pending: map<string, PendingPair>
    ghost var s: State
    ghost var threads: map<nat, Task>

    ghost predicate Valid()
      reads this, store
    {
      Store.Valid(store.State()) && s.db == store.State() && s.trust == trust && s.pending == pending
    }

    ghost function View(): Agent
      reads this
    {
      Agent(me, s, threads)
    }

    constructor (e: Env, me: Identity, trust: Trust.Trust, clock: int)
      ensures Valid() && fresh(store) && Initial(View()) && View().me == me
    {
      this.e, this.me, this.trust, this.pending := e, me, trust, map[];
      var st := new Store.Store();
      store := st;
      s, threads := State(Store.EMPTY, trust, map[], clock, FRESH_LOG), map[];
    }

    /** One event of the run this handler goes through. */
    ghost method Take(ev: Event, a: Agent, path: seq<Event>) returns (evs: seq<Event>)
      requires Enabled(View(), ev) && Reaches(e, a, path, View())
      modifies this`s, this`threads
      ensures View() == Apply(e, old(View()), ev)
      ensures evs == path + [ev] && Reaches(e, a, evs, View())
    {
      hide Apply, Enabled, Reaches;
      Network.StepKeepsIdentity(e, View(), ev);
      ReachesNext(e, a, path, View(), ev);
      var b := Apply(e, View(), ev);
      s, threads := b.s, b.threads;
      evs := path + [ev];
    }

    /** The event a request handler starts with. */
    ghost method Start(req: Request) returns (evs: seq<Event>)
      requires ReqEnabled(View(), req) && threads == map[]
      modifies this`s, this`threads
      ensures s == Do(old(s), FirstAct(e, old(View()), req))
      ensures threads == Continue(map[], HANDLER, FirstTask(e, old(View()), req))
      ensures evs == [Begin(HANDLER, req)] && Reaches(e, old(View()), evs, View())
    {
      hide Apply, Enabled, Reaches, Do, FirstAct, FirstTask;
      RequestMoves(e, View(), req);
      ReachesStart(e, View());
      evs := Take(Begin(HANDLER, req), View(), []);
    }

    ghost method TakeRun(tid: nat, pick: Pick, u: State, next: Option<Task>, a: Agent, path: seq<Event>)
      returns (evs: seq<Event>)
      requires Moves(e, View(), tid, pick, u, next) && Reaches(e, a, path, View())
      modifies this`s, this`threads
      ensures s == u.(clock := pick.now) && threads == Continue(old(threads), tid, next)
      ensures Reaches(e, a, evs, View()) && Extends(path, evs, tid)
    {
      hide Apply, Enabled, Reaches;
      evs := Take(Run(tid, pick), a, path);
    }

    method LogRow(inner: Inner, ob: Store.Outbound, x: Inputs,
                  ghost after: After, ghost tid: nat, ghost a: Agent, ghost path: seq<Event>)
      returns (ghost evs: seq<Event>)
      requires Valid() && tid in threads && threads[tid] == LogOut(inner, ob, after)
      requires Reaches(e, a, path, View()) && s.clock <= x.now
      modifies this`s, this`threads, store
      ensures Valid() && s.clock <= x.now && threads == old(threads)[tid := Enqueue(ob, after)]
      ensures Reaches(e, a, evs, View()) && Extends(path, evs, tid)
      ensures store.cursors == old(store.cursors)
      ensures store.outbox == old(store.outbox) && SameSent(old(s), s)
    {
      hide Reaches, Store.Insert, Apply, Enabled, DoInsertOut, Store.Valid;
      ghost var pick := Pick(x.now, s.db.lastSeq + 1 + x.gap, x.draw, false, 0);
      LogMoves(e, View(), tid, pick, inner, ob, after);
      LogDb(s, inner, ob.topic, pick.seqNo);
      Store.InsertIs(s.db, inner, Store.Out, ob.topic, pick.seqNo);
      evs := Take(Run(tid, pick), a, path);
      store.InsertOutboundLog(inner, ob.topic, x.gap);
    }

    method QueueRow(ob: Store.Outbound, x: Inputs,
                    ghost after: After, ghost tid: nat, ghost a: Agent, ghost path: seq<Event>)
      returns (ghost evs: seq<Event>)
      requires Valid() && tid in threads && threads[tid] == Enqueue(ob, after)
      requires Reaches(e, a, path, View()) && s.clock <= x.now
      modifies this`s, this`threads, store
      ensures Valid() && s.clock <= x.now && s.db.rows == old(s.db.rows)
      ensures threads == Continue(old(threads), tid,
                                  if after == Stop then None else Some(Publish([ob], after == PublishAndMark)))
      ensures Reaches(e, a, evs, View()) && Extends(path, evs, tid)
      ensures store.cursors == old(store.cursors)
      ensures store.outbox == Store.EnqueueOutbound(old(store.outbox), ob) && SameSent(old(s), s)
    {
      hide Reaches, Apply, Enabled, Store.Valid, Store.EnqueueOutbound;
      ghost var pick := Pick(x.now, s.db.lastSeq + 1, x.draw, false, 0);
      QueueMoves(e, View(), tid, pick, ob, after);
      evs := Take(Run(tid, pick), a, path);
      store.Enqueue(ob);
    }

    /** Logs a built message and queues its payload. */
    method LogAndQueue(inner: Inner, ob: Store.Outbound, x: Inputs,
                       ghost after: After, ghost tid: nat, ghost a: Agent, ghost path: seq<Event>)
      returns (ghost evs: seq<Event>)
      requires Valid() && tid in threads && threads[tid] == LogOut(inner, ob, after)
      requires Reaches(e, a, path, View()) && s.clock <= x.now
      modifies this`s, this`threads, store
      ensures Valid() && s.clock <= x.now
      ensures threads == Continue(old(threads), tid,
                                  if after == Stop then None else Some(Publish([ob], after == PublishAndMark)))
      ensures Reaches(e, a, evs, View()) && Extends(path, evs, tid)
      ensures store.cursors == old(store.cursors)
      ensures store.outbox == Store.EnqueueOutbound(old(store.outbox), ob) && SameSent(old(s), s)
    {
      hide Reaches, Store.Valid, Extends;
      evs := LogRow(inner, ob, x, after, tid, a, path);
      ghost var mid := evs;
      evs := QueueRow(ob, x, after, tid, a, evs);
      ExtendsOn(path, mid, evs, tid);
    }

    /** `enqueue_receipt` */
    method EnqueueReceipt(to: string, info: ReceiptInfo, topic: string, x: Inputs,
                          ghost tid: nat, ghost a: Agent, ghost path: seq<Event>)
      returns (ghost evs: seq<Event>)
      requires Valid() && tid in threads && threads[tid] == MakeReceipt(to, info, topic)
      requires Reaches(e, a, path, View()) && s.clock <= x.now && x.draw.id !in s.log.built
      modifies this`s, this`threads, store
      ensures Valid() && threads == old(threads) - {tid}
      ensures Reaches(e, a, evs, View()) && Extends(path, evs, tid)
      ensures store.cursors == old(store.cursors)
      ensures forall o | o in store.outbox :: o in old(store.outbox) || o.id == x.draw.id
      ensures (forall o | o in old(store.outbox) :: o.id != x.draw.id) ==>
                && |store.outbox| == |old(store.outbox)| + 1 && old(store.outbox) <= store.outbox
                && var ob := store.outbox[|old(store.outbox)|];
                   ob.id == x.draw.id && ob.topic == topic && (Laws(e) ==> Informs(e, me, x.draw, to, info, ob.payload))
    {
      hide Reaches, Draft, Wrap, Apply, Enabled, Store.Valid, Extends, Laws, Informs;
      var built := Message.Build(e, me, ReceiptOpts(to, info), x.draw);
      var (inner, wrapper) := built.value;
      DraftId(e, me, ReceiptOpts(to, info), x.draw);
      ghost var pick := Pick(x.now, s.db.lastSeq + 1, x.draw, false, 0);
      BuildMoves(e, View(), tid, pick, to, info, topic);
      evs := Take(Run(tid, pick), a, path);
      ExtendsOne(path, Run(tid, pick), tid);
      ghost var mid := evs;
      evs := LogAndQueue(inner, Store.Outbound(inner.id, topic, e.wrapper.write(wrapper)), x, Stop, tid, a, evs);
      ExtendsOn(path, mid, evs, tid);
      if Laws(e) {
        ReceiptInforms(e, me, to, info, x.draw);
      }
    }

    /** The replay guard: a grant that still verifies must not have been seen. */
    method GuardGrant(inner: Inner, topic: string, t: Readings, x: Inputs,
                      ghost c: Candidate, ghost a: Agent, ghost path: seq<Event>)
      returns (replayed: bool, ghost evs: seq<Event>)
      requires Valid() && threads == map[LOOP := EntryTask(c)] && s.clock <= x.now
      requires c.inner == inner && c.topic == topic && c.guard == GuardId(e, inner, trust, t.guardAt)
      requires Reaches(e, a, path, View())
      modifies this`s, this`threads, store
      ensures Valid() && threads == if replayed then map[] else map[LOOP := StoreIn(c)]
      ensures s.clock <= x.now && s.log.built == old(s.log.built)
      ensures Reaches(e, a, evs, View()) && Extends(path, evs, LOOP)
      ensures replayed <==> c.guard.Some? && c.guard.value in old(store.seenGrants)
      ensures store.rows == old(store.rows) && store.lastSeq == old(store.lastSeq)
    {
      hide Reaches, Apply, Enabled, DoSpend, Store.Valid, Grant.Verify;
      evs := path;
      replayed := false;
      if inner.grant.Some? {
        var checked := Grant.Verify(e, inner.grant.value, trust, t.guardAt);
        if checked.Ok? {
          ghost var pick := Pick(x.now, s.db.lastSeq + 1, x.draw, false, 0);
          SpendMoves(e, View(), LOOP, pick, c, checked.value.id);
          SpendDb(s, c, checked.value.id);
          evs := Take(Run(LOOP, pick), a, evs);
          replayed := store.SeenGrant(checked.value.id);
          if replayed {
            store.RecordRejection(Store.Rejection(ReplayedGrant, Some(inner.from), topic, ""));
          }
        }
      }
    }

    /** The loop's insert, as an event of the run. */
    ghost method TakeInsert(c: Candidate, seqNo: int, x: Inputs, a: Agent, path: seq<Event>) returns (evs: seq<Event>)
      requires threads == map[LOOP := StoreIn(c)] && s.clock <= x.now && s.db.lastSeq < seqNo
      requires Reaches(e, a, path, View())
      modifies this`s, this`threads
      ensures s.db == Store.Insert(old(s.db), c.inner, Store.In, c.topic, seqNo)
      ensures s.trust == old(s.trust) && s.pending == old(s.pending) && s.clock == x.now
      ensures s.log.built == old(s.log.built)
      ensures threads == if Store.HasId(old(s.db.rows), c.inner.id) then map[] else map[LOOP := Evict(c)]
      ensures Reaches(e, a, evs, View()) && Extends(path, evs, LOOP)
    {
      hide Reaches, Moves, DoInsertIn, Store.Insert, Store.HasId, Extends, Store.RowOf;
      var pick := Pick(x.now, seqNo, x.draw, false, 0);
      StoreMoves(e, View(), LOOP, pick, c);
      StoreDb(s, c, pick.seqNo, pick.now);
      var next := if Store.HasId(s.db.rows, c.inner.id) then None else Some(Evict(c));
      evs := TakeRun(LOOP, pick, DoInsertIn(s, c, pick.seqNo, pick.now), next, a, path);
    }

    method InsertRow(inner: Inner, topic: string, x: Inputs, ghost c: Candidate, ghost a: Agent, ghost path: seq<Event>)
      returns (seqNo: Option<int>, ghost evs: seq<Event>)
      requires Valid() && threads == map[LOOP := StoreIn(c)] && s.clock <= x.now
      requires c.inner == inner && c.topic == topic && Reaches(e, a, path, View())
      modifies this`s, this`threads, store
      ensures Valid() && s.clock <= x.now && s.log.built == old(s.log.built)
      ensures seqNo.None? <==> Store.HasId(old(store.rows), inner.id)
      ensures threads == if seqNo.Some? then map[LOOP := Evict(c)] else map[]
      ensures Reaches(e, a, evs, View()) && Extends(path, evs, LOOP)
      ensures seqNo.Some? ==> seqNo.value == old(store.lastSeq) + 1 + x.gap
                              && store.rows == old(store.rows) + [Store.RowOf(inner, Store.In, topic, seqNo.value)]
    {
      hide Reaches, Store.Insert, Store.HasId, Store.Valid, Extends, Store.Records, Store.RowOf;
      Store.InsertIs(s.db, inner, Store.In, topic, s.db.lastSeq + 1 + x.gap);
      evs := TakeInsert(c, s.db.lastSeq + 1 + x.gap, x, a, path);
      seqNo := store.InsertInbound(inner, topic, x.gap);
    }

    /** The loop's eviction, as an event of the run. */
    ghost method TakeDrop(c: Candidate, x: Inputs, a: Agent, path: seq<Event>) returns (evs: seq<Event>)
      requires threads == map[LOOP := Evict(c)] && s.clock <= x.now && Reaches(e, a, path, View())
      modifies this`s, this`threads
      ensures s.db == old(s.db).(rows := Store.DropOldest(old(s.db.rows), DropCount(old(s.db.rows), c.cfg)))
      ensures s.trust == old(s.trust) && s.pending == old(s.pending) && s.clock == x.now
      ensures s.log.built == old(s.log.built)
      ensures threads == if c.cfg.autoReceipts && Direct(me, c.inner.to) then map[LOOP := DeliveryReceipt(c)] else map[]
      ensures Reaches(e, a, evs, View()) && Extends(path, evs, LOOP)
    {
      hide Reaches, Moves, DoDrop, Store.Enforced, Store.DropOldest, Extends, Direct;
      var pick := Pick(x.now, s.db.lastSeq + 1, x.draw, false, DropCount(s.db.rows, c.cfg));
      EvictMoves(e, View(), LOOP, pick, c);
      DropDb(s, pick.evict, pick.now);
      var next := if c.cfg.autoReceipts && Direct(me, c.inner.to) then Some(DeliveryReceipt(c)) else None;
      evs := TakeRun(LOOP, pick, DoDrop(s, pick.evict, pick.now), next, a, path);
    }

    method EvictRows(cfg: Config, x: Inputs, ghost c: Candidate, ghost a: Agent, ghost path: seq<Event>)
      returns (evicted: nat, ghost evs: seq<Event>)
      requires Valid() && threads == map[LOOP := Evict(c)] && s.clock <= x.now && c.cfg == cfg
      requires Reaches(e, a, path, View())
      modifies this`s, this`threads, store
      ensures Valid() && s.clock <= x.now && s.log.built == old(s.log.built)
      ensures threads == if cfg.autoReceipts && Direct(me, c.inner.to)
                         then map[LOOP := DeliveryReceipt(c)]
                         else map[]
      ensures Reaches(e, a, evs, View()) && Extends(path, evs, LOOP)
      ensures store.rows == Store.Enforced(old(store.rows), cfg.maxMessages, cfg.maxBytes)
    {
      hide Reaches, Store.Enforced, Store.Valid, Store.DropOldest, Extends, Store.AwaitsReceipt, Store.BodyBytes,
        Direct;
      evs := TakeDrop(c, x, a, path);
      evicted := store.EnforceBounds(cfg.maxMessages, cfg.maxBytes);
    }

    /**
      The handler's second half, for a message that passed verification and is neither beacon nor receipt. `pushed` is
      the row offered to subscribers, looked up after eviction.
     */
    method StoreMessage(inner: Inner, topic: string, cfg: Config, t: Readings, x: Inputs,
                        ghost c: Candidate, ghost a: Agent, ghost path: seq<Event>)
      returns (pushed: Option<Store.Row>, ghost evs: seq<Event>)
      requires Valid() && threads == map[LOOP := EntryTask(c)] && s.clock <= x.now && x.draw.id !in s.log.built
      requires c.inner == inner && c.topic == topic && c.cfg == cfg && c.guard == GuardId(e, inner, trust, t.guardAt)
      requires Reaches(e, a, path, View())
      modifies this`s, this`threads, store
      ensures Valid() && threads == map[]
      ensures Reaches(e, a, evs, View()) && Extends(path, evs, LOOP)
      ensures pushed == Offered(old(store.State()), c, old(store.lastSeq) + 1 + x.gap)
    {
      hide Reaches, Store.Valid, EntryTask, GuardId, Store.HasId, Extends, Survivor;
      pushed := None;
      var replayed;
      replayed, evs := GuardGrant(inner, topic, t, x, c, a, path);
      if replayed {
        return;
      }
      ghost var mid := evs;
      var inserted;
      inserted, pushed, evs := KeepMessage(inner, topic, cfg, x, c, a, evs);
      ExtendsOn(path, mid, evs, LOOP);
      if inserted && cfg.autoReceipts && inner.to == me.name && inner.to != BROADCAST {
        mid := evs;
        evs := EnqueueReceipt(inner.from, ReceiptInfo(inner.id, ReceiptStatus.Delivered), topic, x, LOOP, a, evs);
        ExtendsOn(path, mid, evs, LOOP);
      }
    }

    /** Insert, enforce the bounds, look the row up again. */
    method KeepMessage(inner: Inner, topic: string, cfg: Config, x: Inputs,
                       ghost c: Candidate, ghost a: Agent, ghost path: seq<Event>)
      returns (inserted: bool, pushed: Option<Store.Row>, ghost evs: seq<Event>)
      requires Valid() && threads == map[LOOP := StoreIn(c)] && s.clock <= x.now
      requires c.inner == inner && c.topic == topic && c.cfg == cfg && Reaches(e, a, path, View())
      modifies this`s, this`threads, store
      ensures Valid() && s.clock <= x.now && s.log.built == old(s.log.built)
      ensures inserted <==> !Store.HasId(old(store.rows), inner.id)
      ensures pushed == if inserted then Survivor(old(store.rows), c, old(store.lastSeq) + 1 + x.gap) else None
      ensures threads == if inserted && cfg.autoReceipts && Direct(me, inner.to) then map[LOOP := DeliveryReceipt(c)]
                         else map[]
      ensures Reaches(e, a, evs, View()) && Extends(path, evs, LOOP)
    {
      hide Reaches, Store.Valid, Store.HasId, Extends, Store.RowOf, Store.Enforced, Direct;
      pushed := None;
      var seqNo;
      seqNo, evs := InsertRow(inner, topic, x, c, a, path);
      inserted := seqNo.Some?;
      if inserted {
        var evicted;
        ghost var mid := evs;
        evicted, evs := EvictRows(cfg, x, c, a, evs);
        ExtendsOn(path, mid, evs, LOOP);
        pushed := Store.MessageBySeq(store.rows, seqNo.value);
        LookupNew(old(store.State()), c, seqNo.value);
      }
    }

    /** The message handler given to the broker session. */
    method OnMessage(raw: Bytes, topic: string, cfg: Config, t: Readings, x: Inputs)
      returns (pushed: Option<Store.Row>, ghost evs: seq<Event>)
      requires Valid() && threads == map[] && x.draw.id !in s.log.built
      requires s.clock <= t.freshAt <= t.grantAt <= t.guardAt <= x.now
      modifies this`pending, this`s, this`threads, store
      ensures Valid() && threads == map[]
      ensures Reaches(e, old(View()), evs, View()) && Extends([Deliver(raw, topic, cfg, t)], evs, LOOP)
      ensures var v := Judge(e, me, raw, topic, trust, cfg, t);
              pushed == if v.Accepted? then Offered(old(store.State()), v.cand, old(store.lastSeq) + 1 + x.gap)
                        else None
    {
      hide Reaches, Apply, Store.Valid, VerifyPair, JudgeHello, JudgeMessage, ArriveDb, ArrivePending, GuardId;
      ghost var a := View();
      ghost var ev := Deliver(raw, topic, cfg, t);
      ArriveMoves(e, a, ev);
      ReachesStart(e, a);
      evs := Take(ev, a, []);
      pushed := None;
      var parsed := e.wrapper.parse(raw);
      if parsed.Some? {
        if ClaimedSender(parsed.value) == Some(me.name) {
          Nothing(a.s.db, a.s.pending);
          return;
        }
        var peek := UnwrapInner(e, parsed.value);
        if peek.Some? && peek.value.ctype == CTYPE_PAIR {
          HelloIsNotAccepted(e, me, raw, peek.value, topic);
          OnPairHello(raw, peek.value, topic);
          return;
        }
      }
      pushed, evs := OnChecked(raw, topic, cfg, t, x, a, evs);
    }

    /** Everything that is neither an echo nor a hello. */
    method OnChecked(raw: Bytes, topic: string, cfg: Config, t: Readings, x: Inputs,
                     ghost a: Agent, ghost path: seq<Event>)
      returns (pushed: Option<Store.Row>, ghost evs: seq<Event>)
      requires Store.Valid(store.State()) && s.trust == trust && x.draw.id !in s.log.built && s.clock <= x.now
      requires var v := JudgeMessage(e, me, raw, topic, trust, cfg, t);
               s.db == ArriveDb(store.State(), v) && s.pending == ArrivePending(pending, v)
               && threads == if v.Accepted? then map[LOOP := EntryTask(v.cand)] else map[]
      requires Reaches(e, a, path, View())
      modifies this`s, this`threads, store
      ensures Valid() && threads == map[]
      ensures Reaches(e, a, evs, View()) && Extends(path, evs, LOOP)
      ensures var v := JudgeMessage(e, me, raw, topic, trust, cfg, t);
              pushed == if v.Accepted? then Offered(old(store.State()), v.cand, old(store.lastSeq) + 1 + x.gap)
                        else None
    {
      hide Reaches, Store.Valid, VerifyIncoming, Store.ApplyEvent, Store.UpsertPresence, GuardId, EntryTask;
      evs := path;
      pushed := None;
      var verified := VerifyIncoming(e, raw, me, trust, cfg, t);
      match verified {
        case Err(info) =>
          store.RecordRejection(Store.Rejection(info.reason, info.claimedSender, topic, ""));
        case Ok(inner) =>
          if inner.ctype == CTYPE_PRESENCE {
            var beacon := e.beacon.parse(inner.body);
            if beacon.Some? {
              store.Beacon(inner.from, Store.PresenceRow(beacon.value, inner.ts));
            }
          } else if inner.kind == Receipt || inner.ctype == CTYPE_RECEIPT {
            if inner.receipt.Some? {
              store.ApplyReceipt(inner.receipt.value.refId, inner.receipt.value.status);
            }
          } else {
            ghost var c := JudgeMessage(e, me, raw, topic, trust, cfg, t).cand;
            pushed, evs := StoreMessage(inner, topic, cfg, t, x, c, a, evs);
          }
      }
    }

    /** `mark_delivered`, two statements: the log row advances, then the outbox entry goes. */
    method MarkDelivered(ob: Store.Outbound, x: Inputs,
                         ghost rest: seq<Store.Outbound>, ghost tid: nat, ghost a: Agent, ghost path: seq<Event>)
      returns (ghost evs: seq<Event>)
      requires Valid() && tid in threads && threads[tid] == Task.MarkSent(ob, rest)
      requires Reaches(e, a, path, View()) && s.clock <= x.now
      modifies this`s, this`threads, store
      ensures Valid() && s.clock <= x.now && threads == Continue(old(threads), tid, PublishNext(rest))
      ensures s.log.handed == old(s.log.handed)
      ensures store.outbox == Store.RemoveOutbound(old(store.outbox), ob.id)
      ensures Reaches(e, a, evs, View()) && Extends(path, evs, tid)
      ensures s.log.built == old(s.log.built)
    {
      hide Reaches, Moves, Store.Valid, Store.ApplyEvent, Store.RemoveOutbound, PublishNext, Extends, Do;
      HandedOffIs(s, ob.id);
      UnqueueIs(Do(s, HandedOff(ob.id)).(clock := x.now), ob.id);
      ghost var pick := Pick(x.now, s.db.lastSeq + 1, x.draw, false, 0);
      MarkMoves(e, View(), tid, pick, ob, rest);
      evs := TakeRun(tid, pick, Do(s, HandedOff(ob.id)), Some(Dequeue(ob, rest)), a, path);
      ghost var mid := evs;
      UnqueueMoves(e, View(), tid, pick, ob, rest);
      evs := TakeRun(tid, pick, Do(s, Unqueue(ob.id)), PublishNext(rest), a, evs);
      ExtendsOn(path, mid, evs, tid);
      store.MarkDelivered(ob.id);
    }

    /** Publishes one queued payload and, if the client takes it, marks it delivered. */
    method PublishOne(ob: Store.Outbound, accepted: bool, x: Inputs,
                      ghost rest: seq<Store.Outbound>, ghost tid: nat, ghost a: Agent, ghost path: seq<Event>)
      returns (ghost evs: seq<Event>)
      requires Valid() && tid in threads && threads[tid] == Publish([ob] + rest, true)
      requires Reaches(e, a, path, View()) && s.clock <= x.now
      modifies this`s, this`threads, store
      ensures Valid() && s.clock <= x.now && threads == Continue(old(threads), tid, PublishNext(rest))
      ensures s.log.handed == old(s.log.handed) + if accepted then [ob] else []
      ensures store.outbox == if accepted then Store.RemoveOutbound(old(store.outbox), ob.id) else old(store.outbox)
      ensures Reaches(e, a, evs, View()) && Extends(path, evs, tid)
      ensures s.log.built == old(s.log.built)
    {
      hide Reaches, Apply, Enabled, Store.Valid, Store.RemoveOutbound, PublishNext, Extends;
      ghost var pick := Pick(x.now, s.db.lastSeq + 1, x.draw, accepted, 0);
      PublishMoves(e, View(), tid, pick, ob, rest);
      evs := Take(Run(tid, pick), a, path);
      ExtendsOne(path, Run(tid, pick), tid);
      if accepted {
        ghost var mid := evs;
        evs := MarkDelivered(ob, x, rest, tid, a, evs);
        ExtendsOn(path, mid, evs, tid);
      }
    }

    /**
      `send`: the first obstacle is reported before anything changes; otherwise log, queue, then publish if possible.
      The payload queued, or handed over if the client took it, carries a message that honours the request.
     */
    method Send(p: SendParams, topics: seq<string>, cfg: Config, accepted: bool, x: Inputs)
      returns (reply: SendReply, ghost evs: seq<Event>)
      requires Valid() && threads == map[] && s.clock <= x.now
      requires x.draw.id !in s.log.built && forall ob | ob in store.outbox :: ob.id != x.draw.id
      modifies this`s, this`threads, store
      ensures Valid() && threads == map[]
      ensures reply == Refusal(UnknownTopic) <==> p.topic.Some? && p.topic.value !in topics
      ensures reply == Refusal(NoTopic) <==> p.topic.None? && topics == []
      ensures reply == Refusal(BodyTooLarge) <==> TopicOk(p, topics) && |Utf8.Encode(p.body)| > cfg.maxPayload
      ensures reply == Refusal(BadGrantToken) <==> TopicOk(p, topics) && BodyOk(p, cfg) && !GrantOk(e, p)
      ensures reply == Refusal(NoRecipientKey)
         <==> TopicOk(p, topics) && BodyOk(p, cfg) && GrantOk(e, p)
              && p.encrypt && Trust.KemPublicKey(trust, p.to) == None
      ensures reply.Sent?
         <==> TopicOk(p, topics) && BodyOk(p, cfg) && GrantOk(e, p) && KeyOk(p, trust)
              && SealOk(e, p, trust, x.draw.kemSeed)
      ensures reply.Refusal? ==> View() == old(View())
      ensures reply.Sent? ==> reply.id == x.draw.id && reply.published == accepted && reply.id in s.log.built
      ensures reply.Sent? && Laws(e) ==>
                var inner := s.log.built[reply.id];
                && Honours(e, me, p, trust, inner)
                && exists ob :: ob in (if accepted then s.log.handed else store.outbox) && ob.id == reply.id
                                && TopicChosen(p.topic, topics, ob.topic) && Carries(e, me, p, ob.payload, inner)
      ensures match Prepared(e, p, topics, cfg, trust)
              case Err(f) => reply == Refusal(f)
              case Ok((topic, opts)) =>
                match BuildInner(e, me, opts, x.draw)
                case Err(reason) => reply == Refusal(BuildFailed(reason))
                case Ok(_) =>
                  && Reaches(e, old(View()), evs, View())
                  && Extends([Begin(HANDLER, SendReq(opts, topic, x.draw))], evs, HANDLER)
    {
      hide Reaches, Store.Valid, BuildInner, Wrap, Grant.DecodeToken, Trust.KemPublicKey, Extends, Apply, Enabled,
        Honours, Carries, TopicChosen, GrantOk, KeyOk, SealOk;
      PreparedIff(e, p, topics, cfg, trust);
      evs := [];
      var topic := ChooseTopic(p.topic, topics);
      if topic.Err? {
        return Refusal(topic.error), [];
      }
      if |Utf8.Encode(p.body)| > cfg.maxPayload {
        return Refusal(BodyTooLarge), [];
      }
      var grant := ResolveGrant(e, p.grant);
      if grant.Err? {
        return Refusal(grant.error), [];
      }
      var ek := ResolveKey(p, trust);
      if ek.Err? {
        return Refusal(ek.error), [];
      }
      assert Prepared(e, p, topics, cfg, trust) == Ok((topic.value, SendOpts(p, grant.value, ek.value)));
      PreparedSeals(e, me, p, topics, cfg, trust, x.draw);
      reply, evs := Dispatch(SendOpts(p, grant.value, ek.value), topic.value, accepted, x);
      if reply.Sent? && Laws(e) {
        PreparedHonours(e, me, p, topics, cfg, trust, x.draw);
        PayloadCarries(e, me, p, s.log.built[reply.id]);
      }
    }

    method Dispatch(opts: BuildOpts, topic: string, accepted: bool, x: Inputs)
      returns (reply: SendReply, ghost evs: seq<Event>)
      requires Valid() && threads == map[] && s.clock <= x.now && UserOpts(opts)
      requires x.draw.id !in s.log.built && forall ob | ob in store.outbox :: ob.id != x.draw.id
      modifies this`s, this`threads, store
      ensures Valid() && threads == map[]
      ensures match BuildInner(e, me, opts, x.draw)
              case Err(reason) => reply == Refusal(BuildFailed(reason)) && View() == old(View())
              case Ok(inner) =>
                && inner.id == x.draw.id && inner.from == me.name && reply == SendReply.Sent(x.draw.id, accepted)
                && inner.id in s.log.built && s.log.built[inner.id] == inner
                && OutboundOf(e, me, inner, topic, opts.unsigned) in (if accepted then s.log.handed else store.outbox)
                && Reaches(e, old(View()), evs, View())
                && Extends([Begin(HANDLER, SendReq(opts, topic, x.draw))], evs, HANDLER)
    {
      hide Reaches, Store.Valid, BuildInner, Wrap, Extends, Apply, Enabled;
      var built := Message.Build(e, me, opts, x.draw);
      if built.Err? {
        return Refusal(BuildFailed(built.error)), [];
      }
      var (inner, wrapper) := built.value;
      Outbox.BuiltId(e, me, opts, x.draw);
      var ob := Store.Outbound(inner.id, topic, e.wrapper.write(wrapper));
      ghost var req := SendReq(opts, topic, x.draw);
      evs := Start(req);
      evs := Post(inner, ob, accepted, x, old(View()), evs);
      return SendReply.Sent(inner.id, accepted), evs;
    }

    /** Log, queue, publish. */
    method Post(inner: Inner, ob: Store.Outbound, accepted: bool, x: Inputs, ghost a: Agent, ghost path: seq<Event>)
      returns (ghost evs: seq<Event>)
      requires Valid() && threads == map[HANDLER := LogOut(inner, ob, PublishAndMark)] && s.clock <= x.now
      requires Reaches(e, a, path, View()) && forall o | o in store.outbox :: o.id != ob.id
      modifies this`s, this`threads, store
      ensures Valid() && threads == map[] && s.log.built == old(s.log.built)
      ensures ob in (if accepted then s.log.handed else store.outbox)
      ensures Reaches(e, a, evs, View()) && Extends(path, evs, HANDLER)
    {
      hide Reaches, Store.Valid, Extends, Store.RemoveOutbound;
      evs := LogAndQueue(inner, ob, x, PublishAndMark, HANDLER, a, path);
      ghost var mid := evs;
      assert [ob] + [] == [ob];
      evs := PublishOne(ob, accepted, x, [], HANDLER, a, evs);
      ExtendsOn(path, mid, evs, HANDLER);
    }

    /** Queues a broadcast; with `publish` it is handed over at once too, but stays queued for the pump. */
    method Announce(opts: BuildOpts, topic: string, publish: bool, accepted: bool, x: Inputs)
      returns (ghost evs: seq<Event>)
      requires Valid() && threads == map[] && s.clock <= x.now
      requires x.draw.id !in s.log.built && forall o | o in store.outbox :: o.id != x.draw.id
      requires opts == DefaultOpts(BROADCAST, opts.ctype, opts.body)
      modifies this`s, this`threads, store
      ensures Valid() && threads == map[]
      ensures var ob := OutboundOf(e, me, Draft(e, me, opts, x.draw), topic, false);
              && store.outbox == old(store.outbox) + [ob] && store.rows == old(store.rows)
              && s.log.handed == old(s.log.handed) + if publish && accepted then [ob] else []
      ensures Reaches(e, old(View()), evs, View())
           && Extends([Begin(HANDLER, AnnounceReq(opts, topic, x.draw, publish))], evs, HANDLER)
    {
      hide Reaches, Store.Valid, Extends, Draft, Wrap;
      var built := Message.Build(e, me, opts, x.draw);
      var (inner, wrapper) := built.value;
      DraftId(e, me, opts, x.draw);
      var ob := Store.Outbound(inner.id, topic, e.wrapper.write(wrapper));
      evs := Start(AnnounceReq(opts, topic, x.draw, publish));
      evs := QueueAndPost(ob, publish, accepted, x, old(View()), evs);
    }

    method QueueAndPost(ob: Store.Outbound, publish: bool, accepted: bool, x: Inputs,
                        ghost a: Agent, ghost path: seq<Event>)
      returns (ghost evs: seq<Event>)
      requires Valid() && threads == map[HANDLER := Enqueue(ob, if publish then PublishOnly else Stop)]
      requires s.clock <= x.now && Reaches(e, a, path, View()) && forall o | o in store.outbox :: o.id != ob.id
      modifies this`s, this`threads, store
      ensures Valid() && threads == map[] && store.outbox == old(store.outbox) + [ob] && store.rows == old(store.rows)
      ensures s.log.handed == old(s.log.handed) + if publish && accepted then [ob] else []
      ensures Reaches(e, a, evs, View()) && Extends(path, evs, HANDLER)
    {
      hide Reaches, Store.Valid, Extends, Moves;
      evs := QueueRow(ob, x, if publish then PublishOnly else Stop, HANDLER, a, path);
      if publish {
        ghost var pick, mid := Pick(x.now, s.db.lastSeq + 1, x.draw, accepted, 0), evs;
        OnceMoves(e, View(), HANDLER, pick, ob);
        evs := TakeRun(HANDLER, pick, if accepted then Do(s, Hand(ob)) else s, None, a, evs);
        ExtendsOn(path, mid, evs, HANDLER);
      }
    }

    /** `pair_start`: a self-signed hello, from which anyone learns this agent's name and keys. */
    method PairStart(asked: Option<string>, topics: seq<string>, accepted: bool, x: Inputs)
      returns (failure: Option<SendFailure>, ghost evs: seq<Event>)
      requires Valid() && threads == map[] && s.clock <= x.now
      requires x.draw.id !in s.log.built && forall o | o in store.outbox :: o.id != x.draw.id
      modifies this`s, this`threads, store
      ensures Valid() && threads == map[]
      ensures failure == Some(UnknownTopic) <==> asked.Some? && asked.value !in topics
      ensures failure == Some(NoTopic) <==> asked.None? && topics == []
      ensures failure.Some? ==> View() == old(View()) && failure.value in {UnknownTopic, NoTopic}
      ensures failure.None? ==>
                && |store.outbox| == |old(store.outbox)| + 1 && old(store.outbox) <= store.outbox
                && var ob := store.outbox[|old(store.outbox)|];
                   && s.log.handed == old(s.log.handed) + (if accepted then [ob] else [])
                   && TopicChosen(asked, topics, ob.topic)
                   && (Laws(e) && '#' !in me.name ==>
                         VerifyPair(e, ob.payload) == Ok(PairHello(me.name, e.pkOf(me.sk), Some(e.ekOf(me.dk)))))
      ensures failure.None? ==> Reaches(e, old(View()), evs, View())
    {
      hide Reaches, Store.Valid, Extends, VerifyPair, PairOpts, Draft, MessageProofs.Payload, Laws;
      var topic := ChooseTopic(asked, topics);
      if topic.Err? {
        return Some(topic.error), [];
      }
      assert PairOpts(e, me) == DefaultOpts(BROADCAST, PairOpts(e, me).ctype, PairOpts(e, me).body)
        by { PairBroadcast(e, me); }
      evs := Announce(PairOpts(e, me), topic.value, true, accepted, x);
      failure := None;
      if Laws(e) && '#' !in me.name {
        MessageProofs.HelloRoundTrip(e, me, x.draw);
        PairDraft(e, me, x.draw);
      }
    }

    /** `enqueue_presence` */
    method EnqueuePresence(topic: string, beacon: PresenceBeacon, x: Inputs) returns (ghost evs: seq<Event>)
      requires Valid() && threads == map[] && s.clock <= x.now
      requires x.draw.id !in s.log.built && forall o | o in store.outbox :: o.id != x.draw.id
      modifies this`s, this`threads, store
      ensures Valid() && threads == map[] && s.log.handed == old(s.log.handed) && store.rows == old(store.rows)
      ensures |store.outbox| == |old(store.outbox)| + 1 && old(store.outbox) <= store.outbox
      ensures var ob := store.outbox[|old(store.outbox)|];
              ob.topic == topic && (Laws(e) ==> Beacons(e, me, ob.payload, beacon))
      ensures Reaches(e, old(View()), evs, View())
    {
      hide Reaches, Store.Valid, Extends, Draft, MessageProofs.Payload, Laws, Beacons;
      evs := Announce(PresenceOpts(e, beacon), topic, false, false, x);
      if Laws(e) {
        PresenceBeacons(e, me, beacon, x.draw);
      }
    }

    /** The pump's loop body. */
    method PumpStep(queue: seq<Store.Outbound>, i: nat, accepted: bool, x: Inputs,
                    ghost a: Agent, ghost first: seq<Event>, ghost path: seq<Event>)
      returns (ghost evs: seq<Event>)
      requires i < |queue| && Valid() && s.clock <= x.now
      requires threads == map[HANDLER := Publish(queue[i..], true)]
      requires Reaches(e, a, path, View()) && Extends(first, path, HANDLER)
      modifies this`s, this`threads, store
      ensures Valid() && s.clock <= x.now && threads == Continue(map[], HANDLER, PublishNext(queue[i + 1..]))
      ensures s.log.handed == old(s.log.handed) + if accepted then [queue[i]] else []
      ensures Reaches(e, a, evs, View()) && Extends(first, evs, HANDLER)
    {
      hide Reaches, Store.Valid, Extends, Store.RemoveOutbound;
      assert queue[i..] == [queue[i]] + queue[i + 1..];
      evs := PublishOne(queue[i], accepted, x, queue[i + 1..], HANDLER, a, path);
      ExtendsOn(first, path, evs, HANDLER);
    }

    /** One round of the outbox pump over a snapshot of the outbox. */
    method PumpOnce(accepts: seq<bool>, x: Inputs) returns (handed: seq<Store.Outbound>, ghost evs: seq<Event>)
      requires Valid() && threads == map[] && s.clock <= x.now && |accepts| == |store.outbox|
      modifies this`s, this`threads, store
      ensures Valid() && threads == map[]
      ensures handed == Taken(old(store.outbox), accepts) && s.log.handed == old(s.log.handed) + handed
      ensures Reaches(e, old(View()), evs, View()) && Extends([Begin(HANDLER, PumpReq)], evs, HANDLER)
    {
      hide Reaches, Store.Valid, Extends, Apply, Enabled, Store.RemoveOutbound;
      var queue := store.outbox;
      ghost var a := View();
      evs := Start(PumpReq);
      ghost var first := evs;
      assert Extends(first, first, HANDLER) by { ExtendsSelf(first, HANDLER); }
      handed := [];
      for i := 0 to |queue|
        invariant Valid() && s.clock <= x.now && threads == Continue(map[], HANDLER, PublishNext(queue[i..]))
        invariant handed == Taken(queue[..i], accepts[..i]) && s.log.handed == old(s.log.handed) + handed
        invariant Reaches(e, a, evs, View()) && Extends(first, evs, HANDLER)
      {
        evs := PumpStep(queue, i, accepts[i], x, a, first, evs);
        TakenNext(queue, accepts, i);
        if accepts[i] {
          handed := handed + [queue[i]];
        }
      }
      assert queue[..|queue|] == queue && accepts[..|queue|] == accepts;
    }

    /** `Ack`, which may answer the acknowledged row with a read receipt. */
    method Ack(consumer: string, seqNo: int, cfg: Config, x: Inputs) returns (ghost evs: seq<Event>)
      requires Valid() && threads == map[] && s.clock <= x.now && x.draw.id !in s.log.built
      modifies this`s, this`threads, store
      ensures Valid() && threads == map[]
      ensures store.cursors == Store.AckCursor(old(store.cursors), consumer, seqNo)
      ensures Reaches(e, old(View()), evs, View())
           && Extends([Begin(HANDLER, AckReq(consumer, seqNo, cfg.autoReceipts))], evs, HANDLER)
    {
      hide Reaches, Store.Valid, Extends, Store.AckCursor, Do;
      CursorIs(s, consumer, seqNo);
      ghost var a := View();
      evs := Start(AckReq(consumer, seqNo, cfg.autoReceipts));
      store.Ack(consumer, seqNo);
      evs := MaybeReadReceipt(seqNo, cfg, x, a, evs);
    }

    /** `maybe_read_receipt`: only the very row acknowledged, and only if it is a direct message. */
    method MaybeReadReceipt(seqNo: int, cfg: Config, x: Inputs, ghost a: Agent, ghost path: seq<Event>)
      returns (ghost evs: seq<Event>)
      requires Valid() && threads == map[HANDLER := AckedRow(seqNo, cfg.autoReceipts)]
      requires s.clock <= x.now && x.draw.id !in s.log.built && Reaches(e, a, path, View())
      modifies this`s, this`threads, store
      ensures Valid() && threads == map[] && store.cursors == old(store.cursors)
      ensures Reaches(e, a, evs, View()) && Extends(path, evs, HANDLER)
    {
      hide Reaches, Store.Valid, Extends, Moves, AfterAck;
      AnswerOf(me, s.db, seqNo, cfg.autoReceipts);
      ghost var pick := Pick(x.now, s.db.lastSeq + 1, x.draw, false, 0);
      AckedMoves(e, View(), HANDLER, pick, seqNo, cfg.autoReceipts);
      evs := TakeRun(HANDLER, pick, s, AfterAck(me, s.db, seqNo, cfg.autoReceipts), a, path);
      if cfg.autoReceipts {
        var m := Store.MessageBySeq(store.rows, seqNo);
        if m.Some? && m.value.direction == Store.In && m.value.recipient == me.name && m.value.recipient != BROADCAST {
          ghost var mid := evs;
          var info := ReceiptInfo(m.value.id, ReceiptStatus.Read);
          evs := EnqueueReceipt(m.value.sender, info, m.value.topic, x, HANDLER, a, evs);
          ExtendsOn(path, mid, evs, HANDLER);
        }
      }
    }

    /** `pair_confirm`: the pending entry goes into the trust file, then out of the map. */
    method PairConfirm(name: string, x: Inputs) returns (ok: bool, ghost evs: seq<Event>)
      requires Valid() && threads == map[] && s.clock <= x.now
      requires forall n | n in pending :: pending[n].name == n
      modifies this`trust, this`pending, this`s, this`threads
      ensures Valid() && threads == map[] && ok == (name in old(pending))
      ensures ok ==> Trust.PublicKey(trust, name) == Some(old(pending)[name].publicKey)
                     && Trust.KemPublicKey(trust, name) == old(pending)[name].kemPublicKey
      ensures pending == old(pending) - {name}
      ensures forall other | other != name :: Trust.PublicKey(trust, other) == Trust.PublicKey(old(trust), other)
      ensures Reaches(e, old(View()), evs, View()) && Extends([Begin(HANDLER, ConfirmReq(name))], evs, HANDLER)
    {
      hide Reaches, Store.Valid, Apply, Enabled, Trust.PublicKey, Trust.KemPublicKey, Extends;
      ghost var a := View();
      evs := Start(ConfirmReq(name));
      ExtendsSelf(evs, HANDLER);
      ok := name in pending;
      if ok {
        evs := WriteTrust(pending[name], x, a, evs);
      }
    }

    method WriteTrust(entry: PendingPair, x: Inputs, ghost a: Agent, ghost path: seq<Event>)
      returns (ghost evs: seq<Event>)
      requires Valid() && threads == map[HANDLER := AddTrust(entry)] && s.clock <= x.now
      requires Reaches(e, a, path, View())
      modifies this`trust, this`pending, this`s, this`threads
      ensures Valid() && threads == map[] && Trust.PublicKey(trust, entry.name) == Some(entry.publicKey)
      ensures Trust.KemPublicKey(trust, entry.name) == entry.kemPublicKey
      ensures forall other | other != entry.name :: Trust.PublicKey(trust, other) == Trust.PublicKey(old(trust), other)
      ensures pending == old(pending) - {entry.name}
      ensures Reaches(e, a, evs, View()) && Extends(path, evs, HANDLER)
    {
      hide Reaches, Store.Valid, Moves, Trust.PublicKey, Trust.KemPublicKey, Extends, Do;
      evs := SaveKey(entry, x, a, path);
      ForgetIs(s, entry.name);
      ghost var pick, mid := Pick(x.now, s.db.lastSeq + 1, x.draw, false, 0), evs;
      ForgetMoves(e, View(), HANDLER, pick, entry.name);
      evs := TakeRun(HANDLER, pick, Do(s, Forget(entry.name)), None, a, evs);
      ExtendsOn(path, mid, evs, HANDLER);
      pending := pending - {entry.name};
    }

    /** Load, add, save. */
    method SaveKey(entry: PendingPair, x: Inputs, ghost a: Agent, ghost path: seq<Event>)
      returns (ghost evs: seq<Event>)
      requires Valid() && threads == map[HANDLER := AddTrust(entry)] && s.clock <= x.now
      requires Reaches(e, a, path, View())
      modifies this`trust, this`s, this`threads
      ensures Valid() && threads == map[HANDLER := ForgetPair(entry.name)] && s.clock <= x.now
      ensures Trust.PublicKey(trust, entry.name) == Some(entry.publicKey)
      ensures Trust.KemPublicKey(trust, entry.name) == entry.kemPublicKey && pending == old(pending)
      ensures forall other | other != entry.name :: Trust.PublicKey(trust, other) == Trust.PublicKey(old(trust), other)
      ensures Reaches(e, a, evs, View()) && Extends(path, evs, HANDLER)
    {
      hide Reaches, Store.Valid, Moves, Trust.PublicKey, Trust.KemPublicKey, Trust.AddWithKem, Extends, Do;
      PairIs(s, entry);
      ghost var pick := Pick(x.now, s.db.lastSeq + 1, x.draw, false, 0);
      TrustMoves(e, View(), HANDLER, pick, entry);
      evs := TakeRun(HANDLER, pick, Do(s, Pair(entry)), Some(ForgetPair(entry.name)), a, path);
      var file := new Trust.TrustStore.Load(trust);
      file.AddKeys(entry.name, entry.publicKey, entry.kemPublicKey);
      trust := Trust.Trust(file.agents, file.authorities);
    }

    /** A pairing hello bypasses the trust store; the first one under a name waits for confirmation. */
    method OnPairHello(raw: Bytes, peek: Inner, topic: string)
      requires Store.Valid(store.State())
      modifies this`pending, store
      ensures Store.Valid(store.State())
      ensures var v := JudgeHello(e, me, raw, peek, topic);
              store.State() == ArriveDb(old(store.State()), v) && pending == ArrivePending(old(pending), v)
    {
      var checked := VerifyPair(e, raw);
      match checked {
        case Ok(hello) =>
          var entry := PendingPair(hello.name, hello.publicKey, hello.kemPublicKey,
                                   e.sas(e.pkOf(me.sk), hello.publicKey), peek.ts);
          if hello.name !in pending {
            pending := pending[hello.name := entry];
          }
        case Err(reason) =>
          store.RecordRejection(Store.Rejection(reason, Some(peek.from), topic, "pairing hello"));
      }
    }
  }
}
