/** Paths through the step system, and what each kind of event does, one by one. */
module Paths {
  import opened Prelude
  import opened Wire
  import opened Env
  import opened Message
  import opened Steps
  import Runs
  import Store
  import Trust

  /** `evs` leads from `a` to `b`, every event enabled when it happens. */
  ghost predicate Reaches(e: Env, a: Agent, evs: seq<Event>, b: Agent)
    decreases |evs|
  {
    if evs == [] then a == b
    else
      var last := |evs| - 1;
      exists mid :: Reaches(e, a, evs[..last], mid) && Enabled(mid, evs[last]) && b == Apply(e, mid, evs[last])
  }

  lemma ReachesNext(e: Env, a: Agent, evs: seq<Event>, mid: Agent, ev: Event)
    requires Reaches(e, a, evs, mid) && Enabled(mid, ev)
    ensures Reaches(e, a, evs + [ev], Apply(e, mid, ev))
  {
    hide Enabled, Apply;
    assert (evs + [ev])[..|evs|] == evs;
  }

  /** Handler after handler: their runs join up. */
  lemma {:induction false} ReachesJoin(e: Env, a: Agent, evs: seq<Event>, mid: Agent, more: seq<Event>, b: Agent)
    requires Reaches(e, a, evs, mid) && Reaches(e, mid, more, b)
    ensures Reaches(e, a, evs + more, b)
    decreases |more|
  {
    hide Enabled, Apply;
    if more == [] {
      assert evs + more == evs;
    } else {
      var last := |more| - 1;
      var prev :| Reaches(e, mid, more[..last], prev) && Enabled(prev, more[last]) && b == Apply(e, prev, more[last]);
      ReachesJoin(e, a, evs, mid, more[..last], prev);
      assert evs + more == evs + more[..last] + [more[last]];
      ReachesNext(e, a, evs + more[..last], prev, more[last]);
    }
  }

  /** What a daemon goes through from its start is a run, so all that is proved of runs holds of it. */
  lemma {:induction false} HandlersMakeARun(e: Env, a: Agent, evs: seq<Event>, b: Agent) returns (states: seq<Agent>)
    requires Initial(a) && Reaches(e, a, evs, b)
    ensures Runs.IsRun(e, states, evs) && states[|evs|] == b
    decreases |evs|
  {
    hide Enabled, Apply, Initial;
    if evs == [] {
      states := [a];
    } else {
      var last := |evs| - 1;
      var mid :| Reaches(e, a, evs[..last], mid) && Enabled(mid, evs[last]) && b == Apply(e, mid, evs[last]);
      var before := HandlersMakeARun(e, a, evs[..last], mid);
      states := before + [b];
      forall i | 0 <= i < |evs|
        ensures Enabled(states[i], evs[i]) && states[i + 1] == Apply(e, states[i], evs[i])
      {
        if i < last {
          assert evs[..last][i] == evs[i];
          assert Enabled(before[i], evs[..last][i]);
        }
      }
    }
  }

  /** What was added runs the one thread. */
  predicate Extends(path: seq<Event>, evs: seq<Event>, tid: nat) {
    path <= evs && forall i | |path| <= i < |evs| :: evs[i].Run? && evs[i].tid == tid
  }

  lemma ExtendsOn(path: seq<Event>, mid: seq<Event>, evs: seq<Event>, tid: nat)
    requires Extends(path, mid, tid) && Extends(mid, evs, tid)
    ensures Extends(path, evs, tid)
  {
  }

  lemma ExtendsSelf(path: seq<Event>, tid: nat)
    ensures Extends(path, path, tid)
  {
  }

  lemma ExtendsOne(path: seq<Event>, ev: Event, tid: nat)
    requires ev.Run? && ev.tid == tid
    ensures Extends(path, path + [ev], tid)
  {
  }

  lemma ReachesStart(e: Env, a: Agent)
    ensures Reaches(e, a, [], a)
  {
  }

  // ---------------------------------------------------------------- single events, spelled out

  /** A thread's next event, with the task it has then. */
  predicate Moves(e: Env, a: Agent, tid: nat, pick: Pick, u: State, next: Option<Task>) {
    && Enabled(a, Run(tid, pick))
    && Apply(e, a, Run(tid, pick)) == a.(s := u.(clock := pick.now), threads := Continue(a.threads, tid, next))
  }

  /** Nothing but the database and its part of the history has changed. */
  predicate SameRest(s: State, u: State) {
    u.trust == s.trust && u.pending == s.pending && u.log.built == s.log.built && u.log.stored == s.log.stored
    && u.log.handed == s.log.handed
  }

  /** The thread's next event, taken. */
  lemma MoveOn(e: Env, start: Agent, evs: seq<Event>, a: Agent, tid: nat, pick: Pick, u: State, next: Option<Task>)
    returns (b: Agent)
    requires Reaches(e, start, evs, a) && Moves(e, a, tid, pick, u, next)
    ensures b == a.(s := u.(clock := pick.now), threads := Continue(a.threads, tid, next))
    ensures Reaches(e, start, evs + [Run(tid, pick)], b)
  {
    hide Apply, Enabled, Reaches;
    b := Apply(e, a, Run(tid, pick));
    ReachesNext(e, start, evs, a, Run(tid, pick));
  }

  predicate Timely(a: Agent, tid: nat, task: Task, pick: Pick) {
    tid in a.threads && a.threads[tid] == task && a.s.clock <= pick.now && pick.seqNo > a.s.db.lastSeq
  }

  lemma BuildMoves(e: Env, a: Agent, tid: nat, pick: Pick, to: string, info: ReceiptInfo, topic: string)
    requires Timely(a, tid, MakeReceipt(to, info, topic), pick) && pick.draw.id !in a.s.log.built
    ensures var inner := Draft(e, a.me, ReceiptOpts(to, info), pick.draw);
            Moves(e, a, tid, pick, Do(a.s, Build(inner)),
                  Some(LogOut(inner, OutboundOf(e, a.me, inner, topic, false), Stop)))
  {
    hide Draft, OutboundOf;
  }

  lemma LogMoves(e: Env, a: Agent, tid: nat, pick: Pick, inner: Inner, ob: Store.Outbound, after: After)
    requires Timely(a, tid, LogOut(inner, ob, after), pick)
    ensures Moves(e, a, tid, pick, DoInsertOut(a.s, inner, ob.topic, pick.seqNo), Some(Enqueue(ob, after)))
  {
    hide DoInsertOut;
  }

  lemma QueueMoves(e: Env, a: Agent, tid: nat, pick: Pick, ob: Store.Outbound, after: After)
    requires Timely(a, tid, Enqueue(ob, after), pick)
    ensures Moves(e, a, tid, pick, Do(a.s, Queue(ob)),
                  if after == Stop then None else Some(Publish([ob], after == PublishAndMark)))
  {
    hide Do;
  }

  /** The database after a log insert, as the store object sees it. */
  lemma LogDb(s: State, inner: Inner, topic: string, seqNo: int)
    requires seqNo > s.db.lastSeq
    ensures var u := DoInsertOut(s, inner, topic, seqNo);
            u.db == Store.Insert(s.db, inner, Store.Out, topic, seqNo) && SameRest(s, u)
  {
  }

  /** What a delivered payload does at once. */
  lemma ArriveMoves(e: Env, a: Agent, ev: Event)
    requires ev.Deliver? && Enabled(a, ev) && a.threads == map[]
    ensures var v, b := JudgeFor(e, a, ev), Apply(e, a, ev);
            && b.s.db == ArriveDb(a.s.db, v) && b.s.pending == ArrivePending(a.s.pending, v) && b.s.trust == a.s.trust
            && b.s.clock == ev.t.guardAt && b.me == a.me
            && b.s.log.built == a.s.log.built && b.s.log.stored == a.s.log.stored
            && b.threads == if v.Accepted? then map[LOOP := EntryTask(v.cand)] else map[]
  {
    hide Judge, ArriveDb, ArrivePending;
  }

  lemma Nothing(db: Store.Db, pending: map<string, PendingPair>)
    ensures ArriveDb(db, OwnEcho) == db && ArrivePending(pending, OwnEcho) == pending
  {
  }

  lemma HelloIsNotAccepted(e: Env, me: Identity, raw: Bytes, peek: Inner, topic: string)
    ensures !JudgeHello(e, me, raw, peek, topic).Accepted?
  {
  }

  lemma SpendMoves(e: Env, a: Agent, tid: nat, pick: Pick, c: Candidate, grantId: string)
    requires Timely(a, tid, CheckGrant(c, grantId), pick)
    ensures Moves(e, a, tid, pick, DoSpend(a.s, c, grantId),
                  if grantId in a.s.db.seenGrants then None else Some(StoreIn(c)))
  {
    hide DoSpend;
  }

  lemma SpendDb(s: State, c: Candidate, grantId: string)
    ensures var u := DoSpend(s, c, grantId);
            u.db == (if grantId in s.db.seenGrants then s.db.(rejections := s.db.rejections + [ReplayRejection(c)])
                     else s.db.(seenGrants := s.db.seenGrants + {grantId}))
            && SameRest(s, u)
  {
  }

  /** How many rows the bounds take. */
  function DropCount(rows: seq<Store.Row>, cfg: Config): nat {
    Store.EnforcedLength(rows, cfg.maxMessages, cfg.maxBytes);
    |rows| - |Store.Enforced(rows, cfg.maxMessages, cfg.maxBytes)|
  }

  lemma StoreMoves(e: Env, a: Agent, tid: nat, pick: Pick, c: Candidate)
    requires Timely(a, tid, StoreIn(c), pick)
    ensures Moves(e, a, tid, pick, DoInsertIn(a.s, c, pick.seqNo, pick.now),
                  if Store.HasId(a.s.db.rows, c.inner.id) then None else Some(Evict(c)))
  {
    hide DoInsertIn, Store.HasId;
  }

  lemma StoreDb(s: State, c: Candidate, seqNo: int, at: int)
    requires seqNo > s.db.lastSeq
    ensures var u := DoInsertIn(s, c, seqNo, at);
            && u.db == Store.Insert(s.db, c.inner, Store.In, c.topic, seqNo)
            && u.trust == s.trust && u.pending == s.pending && u.log.built == s.log.built
            && u.log.stored
               == if Store.HasId(s.db.rows, c.inner.id) then s.log.stored else s.log.stored + [StoredMsg(c, seqNo, at)]
  {
  }

  /** The receipt owed for a stored message. */
  function DeliveryReceipt(c: Candidate): Task {
    MakeReceipt(c.inner.from, ReceiptInfo(c.inner.id, ReceiptStatus.Delivered), c.topic)
  }

  lemma EvictMoves(e: Env, a: Agent, tid: nat, pick: Pick, c: Candidate)
    requires Timely(a, tid, Evict(c), pick)
    requires pick.evict == |a.s.db.rows| - |Store.Enforced(a.s.db.rows, c.cfg.maxMessages, c.cfg.maxBytes)|
    ensures Moves(e, a, tid, pick, DoDrop(a.s, pick.evict, pick.now),
                  if c.cfg.autoReceipts && Direct(a.me, c.inner.to)
                  then Some(DeliveryReceipt(c)) else None)
  {
    hide DoDrop, Store.Enforced;
  }

  lemma DropDb(s: State, count: nat, at: int)
    ensures var u := DoDrop(s, count, at);
            u.db == s.db.(rows := Store.DropOldest(s.db.rows, count)) && SameRest(s, u)
  {
  }

  lemma PairIs(s: State, p: PendingPair)
    ensures Do(s, Pair(p)) == s.(trust := Trust.AddWithKem(s.trust, p.name, p.publicKey, p.kemPublicKey))
  {
    hide Trust.AddWithKem, Store.ApplyEvent, Store.RemoveOutbound, Store.AckCursor;
  }

  lemma ForgetIs(s: State, name: string)
    ensures Do(s, Forget(name)) == s.(pending := s.pending - {name})
  {
    hide Trust.AddWithKem, Store.ApplyEvent, Store.RemoveOutbound, Store.AckCursor;
  }

  lemma HandedOffIs(s: State, id: string)
    ensures Do(s, HandedOff(id)) == s.(db := s.db.(rows := Store.ApplyEvent(s.db.rows, id, Store.HandOff)))
  {
    hide Trust.AddWithKem, Store.ApplyEvent, Store.RemoveOutbound, Store.AckCursor;
  }

  lemma UnqueueIs(s: State, id: string)
    ensures Do(s, Unqueue(id)) == s.(db := s.db.(outbox := Store.RemoveOutbound(s.db.outbox, id)))
  {
    hide Trust.AddWithKem, Store.ApplyEvent, Store.RemoveOutbound, Store.AckCursor;
  }

  lemma CursorIs(s: State, consumer: string, seqNo: int)
    ensures Do(s, MoveCursor(consumer, seqNo))
         == s.(db := s.db.(cursors := Store.AckCursor(s.db.cursors, consumer, seqNo)))
  {
    hide Trust.AddWithKem, Store.ApplyEvent, Store.RemoveOutbound, Store.AckCursor;
  }

  lemma PublishMoves(e: Env, a: Agent, tid: nat, pick: Pick, ob: Store.Outbound, rest: seq<Store.Outbound>)
    requires Timely(a, tid, Publish([ob] + rest, true), pick)
    ensures Moves(e, a, tid, pick, if pick.published then Do(a.s, Hand(ob)) else a.s,
                  if pick.published then Some(MarkSent(ob, rest)) else PublishNext(rest))
  {
    assert ([ob] + rest)[1..] == rest;
  }

  /** A publish that is not to be marked ends its thread. */
  lemma OnceMoves(e: Env, a: Agent, tid: nat, pick: Pick, ob: Store.Outbound)
    requires Timely(a, tid, Publish([ob], false), pick)
    ensures Moves(e, a, tid, pick, if pick.published then Do(a.s, Hand(ob)) else a.s, None)
  {
  }

  lemma MarkMoves(e: Env, a: Agent, tid: nat, pick: Pick, ob: Store.Outbound, rest: seq<Store.Outbound>)
    requires Timely(a, tid, MarkSent(ob, rest), pick)
    ensures Moves(e, a, tid, pick, Do(a.s, HandedOff(ob.id)), Some(Dequeue(ob, rest)))
  {
    hide Do;
  }

  lemma UnqueueMoves(e: Env, a: Agent, tid: nat, pick: Pick, ob: Store.Outbound, rest: seq<Store.Outbound>)
    requires Timely(a, tid, Dequeue(ob, rest), pick)
    ensures Moves(e, a, tid, pick, Do(a.s, Unqueue(ob.id)), PublishNext(rest))
  {
    hide Do;
  }

  lemma AckedMoves(e: Env, a: Agent, tid: nat, pick: Pick, seqNo: int, autoReceipts: bool)
    requires Timely(a, tid, AckedRow(seqNo, autoReceipts), pick)
    ensures Moves(e, a, tid, pick, a.s, AfterAck(a.me, a.s.db, seqNo, autoReceipts))
  {
    hide AfterAck;
  }

  lemma TrustMoves(e: Env, a: Agent, tid: nat, pick: Pick, entry: PendingPair)
    requires Timely(a, tid, AddTrust(entry), pick)
    ensures Moves(e, a, tid, pick, Do(a.s, Pair(entry)), Some(ForgetPair(entry.name)))
  {
    hide Do;
  }

  lemma ForgetMoves(e: Env, a: Agent, tid: nat, pick: Pick, name: string)
    requires Timely(a, tid, ForgetPair(name), pick)
    ensures Moves(e, a, tid, pick, Do(a.s, Forget(name)), None)
  {
    hide Do;
  }

  /** The thread number a request handler of an otherwise idle daemon runs under. */
  const HANDLER: nat := 1

  lemma RequestMoves(e: Env, a: Agent, req: Request)
    requires ReqEnabled(a, req) && a.threads == map[]
    ensures Enabled(a, Begin(HANDLER, req))
    ensures Apply(e, a, Begin(HANDLER, req))
         == a.(s := Do(a.s, FirstAct(e, a, req)), threads := Continue(map[], HANDLER, FirstTask(e, a, req)))
  {
    hide Do, FirstAct, FirstTask, ReqEnabled;
  }
}
