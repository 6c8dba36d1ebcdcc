/** Hand-off: what every step keeps about built messages, the outbox and the outbound log rows. */
module Outbox {
  import opened Prelude
  import opened Wire
  import opened Env
  import opened Message
  import opened MessageProofs
  import opened Steps
  import Store

  // ---------------------------------------------------------------- the invariant

  ghost predicate Waiting(s: State, id: string) {
    exists ob :: ob in s.db.outbox && ob.id == id
  }

  ghost predicate Handed(s: State, id: string) {
    exists ob :: ob in s.log.handed && ob.id == id
  }

  /** Every log row of `id` has reached `sent` or gone further. */
  ghost predicate OutSent(rows: seq<Store.Row>, id: string) {
    forall r | r in rows && r.id == id && r.direction == Store.Out :: Store.Rank(r.state) >= Store.Rank(Store.Sent)
  }

  ghost predicate Logged(rows: seq<Store.Row>, id: string) {
    exists r :: r in rows && r.id == id && r.direction == Store.Out
  }

  /** The payload carries the message built under its id. */
  ghost predicate Own(e: Env, s: State, ob: Store.Outbound) {
    ob.id in s.log.built && Unwrap(e, ob.payload) == Some(s.log.built[ob.id])
  }

  ghost predicate Queued(e: Env, s: State, ob: Store.Outbound) {
    ob.id in s.log.queued && Own(e, s, ob)
  }

  ghost predicate QueueOk(e: Env, s: State) {
    && (forall id | id in s.log.queued :: id in s.log.built)
    && (forall id | id in s.log.queued :: Waiting(s, id) || (Handed(s, id) && OutSent(s.db.rows, id)))
    && (forall ob | ob in s.db.outbox :: Queued(e, s, ob))
    && (forall ob | ob in s.log.handed :: Queued(e, s, ob))
  }

  ghost predicate LogOk(s: State) {
    && (forall id | id in s.log.built :: s.log.built[id].id == id)
    && (forall id | id in s.log.logged :: id in s.log.built && (id in s.log.evictedIds || Logged(s.db.rows, id)))
    && (forall r | r in s.db.rows && r.direction == Store.Out ::
          r.id in s.log.logged && r.id in s.log.built
          && r.recipient == s.log.built[r.id].to && r.kind == s.log.built[r.id].kind)
  }

  ghost predicate StateOk(e: Env, s: State) {
    QueueOk(e, s) && LogOk(s)
  }

  /** Built under this id, not yet in the outbox. */
  ghost predicate Fresh(e: Env, s: State, ob: Store.Outbound) {
    Own(e, s, ob) && ob.id !in s.log.queued
  }

  ghost predicate TaskOk(e: Env, s: State, task: Task) {
    match task
    case LogOut(inner, ob, _) =>
      Fresh(e, s, ob) && ob.id == inner.id && s.log.built[ob.id] == inner && ob.id !in s.log.logged
    case Enqueue(ob, _) => Fresh(e, s, ob)
    case Publish(obs, _) => forall ob | ob in obs :: Queued(e, s, ob)
    case MarkSent(ob, rest) => Queued(e, s, ob) && Handed(s, ob.id) && forall o | o in rest :: Queued(e, s, o)
    case Dequeue(ob, rest) =>
      && Queued(e, s, ob) && Handed(s, ob.id) && OutSent(s.db.rows, ob.id)
      && forall o | o in rest :: Queued(e, s, o)
    case _ => true
  }

  /** The id a thread has yet to queue. */
  function PreId(task: Task): Option<string> {
    match task
    case LogOut(_, ob, _) => Some(ob.id)
    case Enqueue(ob, _) => Some(ob.id)
    case _ => None
  }

  ghost predicate ThreadsOk(e: Env, s: State, threads: map<nat, Task>) {
    && (forall t | t in threads :: TaskOk(e, s, threads[t]))
    && (forall t, u | t in threads && u in threads && t != u && PreId(threads[t]).Some? ::
          PreId(threads[t]) != PreId(threads[u]))
  }

  ghost predicate Inv(e: Env, a: Agent) {
    StateOk(e, a.s) && ThreadsOk(e, a.s, a.threads)
  }

  // ---------------------------------------------------------------- one act

  /** What an act may assume. */
  ghost predicate ActOk(e: Env, s: State, act: Act) {
    match act
    case Queue(ob) => Fresh(e, s, ob)
    case InsertOut(inner, _, _) =>
      inner.id in s.log.built && s.log.built[inner.id] == inner && inner.id !in s.log.queued
    case Build(inner) => inner.id !in s.log.built
    case Hand(ob) => Queued(e, s, ob)
    case Unqueue(id) => Handed(s, id) && OutSent(s.db.rows, id)
    case _ => true
  }

  /** The message table, as the invariant sees it, loses nothing but evicted rows and never moves a state back. */
  ghost predicate TableAdvances(s: State, u: State) {
    && (forall id | OutSent(s.db.rows, id) :: OutSent(u.db.rows, id))
    && (forall id | id in s.log.logged && Logged(s.db.rows, id) :: id in u.log.evictedIds || Logged(u.db.rows, id))
    && (forall r | r in u.db.rows && r.direction == Store.Out ::
          exists q :: q in s.db.rows && q.direction == Store.Out
                      && q.id == r.id && q.recipient == r.recipient && q.kind == r.kind)
    && s.log.evictedIds <= u.log.evictedIds && u.log.logged == s.log.logged
  }

  ghost predicate SameQueue(s: State, u: State) {
    u.db.outbox == s.db.outbox && u.log.queued == s.log.queued && u.log.handed == s.log.handed
    && u.log.built == s.log.built
  }

  lemma TableAdvancesKeeps(e: Env, s: State, u: State)
    requires StateOk(e, s) && TableAdvances(s, u) && SameQueue(s, u)
    ensures StateOk(e, u)
  {
    hide Logged, OutSent, Unwrap, Store.Rank;
    assert forall id :: Waiting(s, id) == Waiting(u, id) && Handed(s, id) == Handed(u, id);
    assert forall ob :: Queued(e, s, ob) == Queued(e, u, ob);
    assert QueueOk(e, u);
  }

  lemma EventAdvances(s: State, id: string, ev: Store.DeliveryEvent)
    ensures TableAdvances(s, s.(db := s.db.(rows := Store.ApplyEvent(s.db.rows, id, ev))))
  {
    var rows := s.db.rows;
    var u := Store.ApplyEvent(rows, id, ev);
    Store.AppliedMembers(rows, id, ev);
    forall k, i | OutSent(rows, k) && 0 <= i < |u| && u[i].id == k && u[i].direction == Store.Out
      ensures Store.Rank(u[i].state) >= Store.Rank(Store.Sent)
    {
      assert rows[i] in rows;
      Store.FinalStateIsMaximum(rows[i].state, [ev]);
      AdvanceOnce(rows[i].state, ev);
    }
    forall k | Logged(rows, k)
      ensures Logged(u, k)
    {
      var i :| 0 <= i < |rows| && rows[i].id == k && rows[i].direction == Store.Out;
      assert u[i] in u;
    }
  }

  lemma AdvanceOnce(s: Store.DeliveryState, ev: Store.DeliveryEvent)
    ensures Store.AdvanceAll(s, [ev]) == Store.Advance(s, ev)
  {
    assert [ev][1..] == [];
  }

  lemma DropAdvances(s: State, count: nat, at: int)
    ensures TableAdvances(s, DoDrop(s, count, at))
  {
    hide Store.Rank, Store.DropOldest;
    Store.DroppedSubset(s.db.rows, count);
    var u := DoDrop(s, count, at);
    forall id | id in s.log.logged && Logged(s.db.rows, id)
      ensures id in u.log.evictedIds || Logged(u.db.rows, id)
    {
      var r :| r in s.db.rows && r.id == id && r.direction == Store.Out;
      assert r in u.db.rows || r.id in DroppedIds(s.db.rows, u.db.rows);
    }
  }

  lemma InsertInAdvances(s: State, c: Candidate, seqNo: int, at: int)
    requires seqNo > s.db.lastSeq
    ensures TableAdvances(s, DoInsertIn(s, c, seqNo, at)) && SameQueue(s, DoInsertIn(s, c, seqNo, at))
  {
    hide Store.Rank, Store.Insert, Store.RowOf;
    Store.InsertMembers(s.db, c.inner, Store.In, c.topic, seqNo);
    Store.RowIdentity(c.inner, Store.In, c.topic, seqNo);
  }

  /** Inbound payloads, evictions, receipts and hand-offs only move the table forward. */
  lemma TableAct(s: State, act: Act)
    requires Possible(s, act)
    requires act.Arrive? || act.InsertIn? || act.Drop? || act.HandedOff? || act.Spend? || act.MoveCursor? || act.Pair?
          || act.Forget? || act.Idle?
    ensures TableAdvances(s, Do(s, act)) && SameQueue(s, Do(s, act))
  {
    hide OutSent, Logged, Store.ApplyEvent, Store.DropOldest, Store.HasId, Store.Insert, Store.UpsertPresence;
    match act {
      case InsertIn(c, seqNo, at) => InsertInAdvances(s, c, seqNo, at);
      case Drop(count, at) => DropAdvances(s, count, at);
      case HandedOff(id) => EventAdvances(s, id, Store.HandOff);
      case Arrive(raw, v) =>
        if v.Receipted? && v.receipt.Some? {
          EventAdvances(s, v.receipt.value.refId, ReceiptEvent(v.receipt.value.status));
        }
      case _ =>
    }
  }

  lemma QueueKeeps(e: Env, s: State, ob: Store.Outbound)
    requires StateOk(e, s) && Fresh(e, s, ob)
    ensures StateOk(e, Do(s, Queue(ob)))
  {
    hide Logged, OutSent, Unwrap;
    var u := Do(s, Queue(ob));
    assert u.db.outbox == s.db.outbox + [ob];
    assert forall id | Waiting(s, id) :: Waiting(u, id);
    assert ob in u.db.outbox;
    assert forall id :: Handed(s, id) == Handed(u, id);
    assert forall o | Queued(e, s, o) :: Queued(e, u, o);
  }

  lemma HandKeeps(e: Env, s: State, ob: Store.Outbound)
    requires StateOk(e, s) && Queued(e, s, ob)
    ensures StateOk(e, Do(s, Hand(ob)))
  {
    hide Logged, OutSent, Unwrap;
    var u := Do(s, Hand(ob));
    assert forall id | Handed(s, id) :: Handed(u, id);
    assert forall id :: Waiting(s, id) == Waiting(u, id);
    assert forall o :: Queued(e, s, o) == Queued(e, u, o);
  }

  lemma UnqueueKeeps(e: Env, s: State, id: string)
    requires StateOk(e, s) && Handed(s, id) && OutSent(s.db.rows, id)
    ensures StateOk(e, Do(s, Unqueue(id)))
  {
    hide Logged, OutSent, Unwrap, Store.RemoveOutbound;
    var u := Do(s, Unqueue(id));
    assert u.db.outbox == Store.RemoveOutbound(s.db.outbox, id);
    forall k | Waiting(s, k) && k != id
      ensures Waiting(u, k)
    {
      var ob :| ob in s.db.outbox && ob.id == k;
      assert ob in u.db.outbox;
    }
    assert forall k :: Handed(s, k) == Handed(u, k);
    assert forall o :: Queued(e, s, o) == Queued(e, u, o);
  }

  lemma BuildKeeps(e: Env, s: State, inner: Inner)
    requires StateOk(e, s) && inner.id !in s.log.built
    ensures StateOk(e, Do(s, Build(inner)))
  {
    hide Logged, OutSent, Unwrap;
    var u := Do(s, Build(inner));
    assert forall id :: Waiting(s, id) == Waiting(u, id) && Handed(s, id) == Handed(u, id);
    assert forall o :: Queued(e, s, o) ==> Queued(e, u, o);
  }

  lemma InsertOutKeeps(e: Env, s: State, inner: Inner, topic: string, seqNo: int)
    requires StateOk(e, s) && ActOk(e, s, InsertOut(inner, topic, seqNo)) && seqNo > s.db.lastSeq
    ensures StateOk(e, DoInsertOut(s, inner, topic, seqNo))
  {
    hide Unwrap, Store.Rank, Store.Insert;
    var u := DoInsertOut(s, inner, topic, seqNo);
    var row := Store.RowOf(inner, Store.Out, topic, seqNo);
    Store.InsertMembers(s.db, inner, Store.Out, topic, seqNo);
    assert forall id | Logged(s.db.rows, id) :: Logged(u.db.rows, id);
    assert !Store.HasId(s.db.rows, inner.id) ==> row in u.db.rows;
    assert LogOk(u);
    assert forall id :: Waiting(s, id) == Waiting(u, id) && Handed(s, id) == Handed(u, id);
    assert forall id | id != inner.id && OutSent(s.db.rows, id) :: OutSent(u.db.rows, id);
    assert forall o :: Queued(e, s, o) == Queued(e, u, o);
  }

  lemma ActKeeps(e: Env, s: State, act: Act)
    requires StateOk(e, s) && ActOk(e, s, act) && Possible(s, act)
    ensures StateOk(e, Do(s, act))
  {
    hide StateOk, TableAdvances, SameQueue, Do;
    match act {
      case Queue(ob) => QueueKeeps(e, s, ob);
      case Hand(ob) => HandKeeps(e, s, ob);
      case Unqueue(id) => UnqueueKeeps(e, s, id);
      case Build(inner) => BuildKeeps(e, s, inner);
      case InsertOut(inner, topic, seqNo) =>
        InsertOutKeeps(e, s, inner, topic, seqNo);
        InsertOutIs(s, inner, topic, seqNo);
      case _ =>
        TableAct(s, act);
        TableAdvancesKeeps(e, s, Do(s, act));
    }
  }

  lemma InsertOutIs(s: State, inner: Inner, topic: string, seqNo: int)
    requires seqNo > s.db.lastSeq
    ensures Do(s, InsertOut(inner, topic, seqNo)) == DoInsertOut(s, inner, topic, seqNo)
  {
  }

  // ---------------------------------------------------------------- what an act leaves to other threads

  /** The id an act queues or logs. */
  function ActId(act: Act): Option<string> {
    match act
    case Queue(ob) => Some(ob.id)
    case InsertOut(inner, _, _) => Some(inner.id)
    case _ => None
  }

  predicate KeepsBuilt(s: State, u: State) {
    forall id | id in s.log.built :: id in u.log.built && u.log.built[id] == s.log.built[id]
  }

  ghost predicate Forward(s: State, u: State, x: Option<string>) {
    && KeepsBuilt(s, u)
    && (forall id | id in s.log.queued :: id in u.log.queued)
    && (forall id | id in u.log.queued && Some(id) != x :: id in s.log.queued)
    && (forall id | id in u.log.logged && Some(id) != x :: id in s.log.logged)
    && (forall id | Handed(s, id) :: Handed(u, id))
    && (forall id | id in s.log.queued && OutSent(s.db.rows, id) :: OutSent(u.db.rows, id))
  }

  lemma ActForward(e: Env, s: State, act: Act)
    requires ActOk(e, s, act) && Possible(s, act)
    ensures Forward(s, Do(s, act), ActId(act))
  {
    hide Own, Store.Rank, TableAdvances, Store.EnqueueOutbound, Store.RemoveOutbound, Do, Fresh, Unwrap;
    match act {
      case Queue(ob) => assert Forward(s, QueueResult(s, ob), Some(ob.id)); QueueIs(s, ob);
      case Hand(ob) => HandForward(s, ob);
      case Unqueue(id) => UnqueueForward(s, id);
      case Build(inner) => BuildForward(s, inner);
      case InsertOut(inner, topic, seqNo) =>
        InsertOutForward(s, inner, topic, seqNo);
        InsertOutIs(s, inner, topic, seqNo);
      case _ =>
        TableAct(s, act);
        TableForward(s, Do(s, act));
    }
  }

  function QueueResult(s: State, ob: Store.Outbound): State {
    s.(log := s.log.(queued := s.log.queued + {ob.id}), db := s.db.(outbox := Store.EnqueueOutbound(s.db.outbox, ob)))
  }

  lemma QueueIs(s: State, ob: Store.Outbound)
    ensures Do(s, Queue(ob)) == QueueResult(s, ob)
  {
  }

  lemma TableForward(s: State, u: State)
    requires TableAdvances(s, u) && SameQueue(s, u)
    ensures Forward(s, u, None)
  {
    hide OutSent, Logged;
    assert forall id | Handed(s, id) :: Handed(u, id);
  }

  lemma HandForward(s: State, ob: Store.Outbound)
    ensures Forward(s, Do(s, Hand(ob)), None)
  {
    hide OutSent;
    assert forall id | Handed(s, id) :: Handed(Do(s, Hand(ob)), id);
  }

  lemma UnqueueForward(s: State, id: string)
    ensures Forward(s, Do(s, Unqueue(id)), None)
  {
    hide OutSent, Store.RemoveOutbound;
    assert forall k | Handed(s, k) :: Handed(Do(s, Unqueue(id)), k);
  }

  lemma BuildForward(s: State, inner: Inner)
    requires inner.id !in s.log.built
    ensures Forward(s, Do(s, Build(inner)), None)
  {
    hide OutSent;
    assert forall k | Handed(s, k) :: Handed(Do(s, Build(inner)), k);
  }

  lemma InsertOutForward(s: State, inner: Inner, topic: string, seqNo: int)
    requires seqNo > s.db.lastSeq && inner.id !in s.log.queued
    ensures Forward(s, DoInsertOut(s, inner, topic, seqNo), Some(inner.id))
  {
    hide Store.Rank, Store.Insert;
    var u := DoInsertOut(s, inner, topic, seqNo);
    Store.InsertMembers(s.db, inner, Store.Out, topic, seqNo);
    assert forall id | Handed(s, id) :: Handed(u, id);
    assert forall id | id != inner.id && OutSent(s.db.rows, id) :: OutSent(u.db.rows, id);
  }

  lemma TaskStable(e: Env, s: State, u: State, task: Task, x: Option<string>)
    requires TaskOk(e, s, task) && Forward(s, u, x) && (PreId(task).None? || PreId(task) != x)
    ensures TaskOk(e, u, task)
  {
    hide OutSent, Handed, Unwrap;
    assert forall ob | Own(e, s, ob) :: Own(e, u, ob);
    assert forall ob | Queued(e, s, ob) :: Queued(e, u, ob);
  }

  predicate SameState(s: State, u: State) {
    u.db == s.db && SameLog(s.log, u.log)
  }

  predicate SameLog(l: Log, m: Log) {
    m.queued == l.queued && m.handed == l.handed && m.built == l.built && m.logged == l.logged
    && m.evictedIds == l.evictedIds
  }

  lemma SameStateForward(s: State, u: State)
    requires SameState(s, u)
    ensures Forward(s, u, None) && TableAdvances(s, u) && SameQueue(s, u)
  {
    hide OutSent, Logged;
    assert forall id | Handed(s, id) :: Handed(u, id);
  }

  lemma SameStateKeeps(e: Env, s: State, u: State, threads: map<nat, Task>)
    requires StateOk(e, s) && ThreadsOk(e, s, threads) && SameState(s, u)
    ensures StateOk(e, u) && ThreadsOk(e, u, threads)
  {
    hide StateOk, TaskOk, SameState, Forward, TableAdvances, SameQueue;
    SameStateForward(s, u);
    TableAdvancesKeeps(e, s, u);
    forall t | t in threads
      ensures TaskOk(e, u, threads[t])
    {
      TaskStable(e, s, u, threads[t], None);
    }
  }

  // ---------------------------------------------------------------- one step

  lemma ActAllowed(e: Env, a: Agent, task: Task, pick: Pick)
    requires TaskOk(e, a.s, task) && PickEnabled(a, task, pick)
    ensures ActOk(e, a.s, ActOf(e, a, task, pick)) && Possible(a.s, ActOf(e, a, task, pick))
    ensures var x := ActId(ActOf(e, a, task, pick)); x.Some? ==> x == PreId(task)
  {
    hide Unwrap, OutSent, Handed, Store.Enforced;
    if task.Publish? && task.obs != [] {
      assert task.obs[0] in task.obs;
    }
  }

  lemma BuiltNow(e: Env, me: Identity, s: State, inner: Inner, topic: string, unsigned: bool)
    requires Laws(e) && StateOk(e, s) && inner.id !in s.log.built
    ensures var u, ob := Do(s, Build(inner)), OutboundOf(e, me, inner, topic, unsigned);
            Fresh(e, u, ob) && ob.id == inner.id && ob.id !in u.log.logged && u.log.built[ob.id] == inner
  {
    hide OutSent, Payload, Unwrap, Laws;
    UnwrapOfPayload(e, me, inner, unsigned);
  }

  lemma QueuedNow(e: Env, s: State, ob: Store.Outbound)
    requires Fresh(e, s, ob)
    ensures Queued(e, Do(s, Queue(ob)), ob)
  {
    hide Unwrap, Store.EnqueueOutbound;
  }

  lemma HandedNow(s: State, ob: Store.Outbound)
    ensures Handed(Do(s, Hand(ob)), ob.id)
  {
    assert ob in Do(s, Hand(ob)).log.handed;
  }

  lemma MarkedNow(s: State, id: string)
    ensures OutSent(Do(s, HandedOff(id)).db.rows, id)
  {
    var u := Do(s, HandedOff(id)).db.rows;
    forall i | 0 <= i < |u| && u[i].id == id && u[i].direction == Store.Out
      ensures Store.Rank(u[i].state) >= Store.Rank(Store.Sent)
    {
      assert u[i] == Store.Update(s.db.rows[i], id, Store.HandOff);
    }
  }

  lemma LoggedNow(e: Env, s: State, inner: Inner, ob: Store.Outbound, seqNo: int)
    requires Fresh(e, s, ob) && seqNo > s.db.lastSeq
    ensures Fresh(e, Do(s, InsertOut(inner, ob.topic, seqNo)), ob)
  {
    hide Unwrap, Store.Insert;
  }

  /** The thread that acted may go on: its next task is in order in the new state. */
  lemma NextAllowed(e: Env, a: Agent, task: Task, pick: Pick)
    requires Laws(e) && StateOk(e, a.s) && TaskOk(e, a.s, task) && PickEnabled(a, task, pick)
    ensures Possible(a.s, ActOf(e, a, task, pick))
    ensures var u, next := Do(a.s, ActOf(e, a, task, pick)), NextOf(e, a, task, pick);
            next.Some? ==>
              TaskOk(e, u, next.value)
              && (PreId(next.value).Some? ==>
                    PreId(next.value) == PreId(task) || PreId(next.value).value !in a.s.log.built)
  {
    hide StateOk, OutSent, Handed, Store.Enforced, Store.ApplyEvent, Unwrap, Do, Store.MessageBySeq, Payload, Forward,
      Own, ActOk, Laws;
    var act := ActOf(e, a, task, pick);
    var u, next := Do(a.s, act), NextOf(e, a, task, pick);
    ActAllowed(e, a, task, pick);
    match task {
      case MakeReceipt(to, info, topic) =>
        BuiltNow(e, a.me, a.s, Draft(e, a.me, ReceiptOpts(to, info), pick.draw), topic, false);
      case LogOut(inner, ob, after) => LoggedNow(e, a.s, inner, ob, pick.seqNo);
      case Enqueue(ob, after) => QueuedNow(e, a.s, ob);
      case Publish(obs, mark) =>
        ActForward(e, a.s, act);
        TaskStable(e, a.s, u, task, None);
        if obs != [] && pick.published {
          HandedNow(a.s, obs[0]);
        }
      case MarkSent(ob, rest) =>
        ActForward(e, a.s, act);
        TaskStable(e, a.s, u, task, None);
        MarkedNow(a.s, ob.id);
      case Dequeue(ob, rest) =>
        ActForward(e, a.s, act);
        TaskStable(e, a.s, u, task, None);
      case _ =>
    }
  }

  /** Every other thread keeps its footing. */
  lemma OthersKeep(e: Env, s: State, u: State, threads: map<nat, Task>, tid: nat, next: Option<Task>, x: Option<string>)
    requires ThreadsOk(e, s, threads - {tid}) && Forward(s, u, x)
    requires forall t | t in threads && t != tid :: PreId(threads[t]).None? || PreId(threads[t]) != x
    requires next.Some? ==> TaskOk(e, u, next.value)
    requires next.Some? && PreId(next.value).Some? ==>
               forall t | t in threads && t != tid :: PreId(threads[t]) != PreId(next.value)
    ensures ThreadsOk(e, u, Continue(threads, tid, next))
  {
    hide TaskOk, Forward;
    forall t | t in threads && t != tid
      ensures TaskOk(e, u, threads[t])
    {
      assert TaskOk(e, s, (threads - {tid})[t]);
      TaskStable(e, s, u, threads[t], x);
    }
    var after := Continue(threads, tid, next);
    forall t, v | t in after && v in after && t != v && PreId(after[t]).Some?
      ensures PreId(after[t]) != PreId(after[v])
    {
      if t != tid && v != tid {
        assert PreId((threads - {tid})[t]) != PreId((threads - {tid})[v]);
      }
    }
  }

  /** Ids yet to be queued have been built. */
  lemma PreIdBuilt(e: Env, s: State, task: Task)
    requires TaskOk(e, s, task) && PreId(task).Some?
    ensures PreId(task).value in s.log.built
  {
    hide OutSent, Handed;
  }

  lemma RunKeeps(e: Env, a: Agent, tid: nat, pick: Pick)
    requires Laws(e) && Inv(e, a) && Enabled(a, Run(tid, pick))
    ensures Inv(e, Apply(e, a, Run(tid, pick)))
  {
    hide StateOk, TaskOk, Do, ActOf, NextOf, PickEnabled, Forward, PreId, Laws, SameState;
    var task := a.threads[tid];
    var act, next := ActOf(e, a, task, pick), NextOf(e, a, task, pick);
    ActAllowed(e, a, task, pick);
    ActKeeps(e, a.s, act);
    ActForward(e, a.s, act);
    NextAllowed(e, a, task, pick);
    var u := Do(a.s, act);
    forall t | t in a.threads && PreId(a.threads[t]).Some?
      ensures PreId(a.threads[t]).value in a.s.log.built
    {
      PreIdBuilt(e, a.s, a.threads[t]);
    }
    OthersKeep(e, a.s, u, a.threads, tid, next, ActId(act));
    TimeOnly(u, pick.now);
    SameStateKeeps(e, u, u.(clock := pick.now), Continue(a.threads, tid, next));
  }

  lemma TimeOnly(s: State, now: int)
    ensures SameState(s, s.(clock := now))
  {
  }

  lemma FirstAllowed(e: Env, a: Agent, req: Request)
    requires Laws(e) && StateOk(e, a.s) && ReqEnabled(a, req)
    ensures var act, next := FirstAct(e, a, req), FirstTask(e, a, req);
            && Possible(a.s, act) && ActOk(e, a.s, act) && ActId(act) == None
            && (next.Some? ==>
                  TaskOk(e, Do(a.s, act), next.value)
                  && (PreId(next.value).Some? ==> PreId(next.value).value !in a.s.log.built))
  {
    hide OutSent, Unwrap, Payload, Laws, Store.AckCursor, BuildInner, Own, Handed, LogOk;
    match req {
      case SendReq(opts, topic, draw) =>
        var built := BuildInner(e, a.me, opts, draw);
        if built.Ok? {
          BuiltId(e, a.me, opts, draw);
          BuiltNow(e, a.me, a.s, built.value, topic, opts.unsigned);
        }
      case AnnounceReq(opts, topic, draw, publish) =>
        BuiltNow(e, a.me, a.s, Draft(e, a.me, opts, draw), topic, false);
      case _ =>
    }
  }

  lemma BuiltId(e: Env, me: Identity, opts: BuildOpts, d: Draw)
    requires BuildInner(e, me, opts, d).Ok?
    ensures var inner := BuildInner(e, me, opts, d).value;
            inner.id == d.id && inner.from == me.name && inner.to == opts.to && inner.kind == opts.kind
            && inner.receipt == opts.receipt
  {
  }

  lemma BeginKeeps(e: Env, a: Agent, tid: nat, req: Request)
    requires Laws(e) && Inv(e, a) && Enabled(a, Begin(tid, req))
    ensures Inv(e, Apply(e, a, Begin(tid, req)))
  {
    hide StateOk, TaskOk, Do, FirstAct, FirstTask, ReqEnabled, Forward, PreId, Laws, ActOk;
    var act, next := FirstAct(e, a, req), FirstTask(e, a, req);
    FirstAllowed(e, a, req);
    ActKeeps(e, a.s, act);
    ActForward(e, a.s, act);
    forall t | t in a.threads && PreId(a.threads[t]).Some?
      ensures PreId(a.threads[t]).value in a.s.log.built
    {
      PreIdBuilt(e, a.s, a.threads[t]);
    }
    OthersKeep(e, a.s, Do(a.s, act), a.threads, tid, next, None);
  }

  lemma DeliverKeeps(e: Env, a: Agent, ev: Event)
    requires Inv(e, a) && Enabled(a, ev) && ev.Deliver?
    ensures Inv(e, Apply(e, a, ev))
  {
    hide StateOk, TaskOk, Do, Judge, Forward, PreId, SameState;
    var v := JudgeFor(e, a, ev);
    var act := Arrive(ev.raw, v);
    var u := Do(a.s, act);
    ActKeeps(e, a.s, act);
    ActForward(e, a.s, act);
    assert forall t, p :: t in a.threads && p == PreId(a.threads[t]) ==> p.None? || p != None;
    var next := if v.Accepted? then Some(EntryTask(v.cand)) else None;
    if v.Accepted? {
      EntryAllowed(e, u, v.cand);
    }
    OthersKeep(e, a.s, u, a.threads, LOOP, next, None);
    TimeOnly(u, ev.t.guardAt);
    assert a.threads - {LOOP} == a.threads;
    SameStateKeeps(e, u, u.(clock := ev.t.guardAt), Continue(a.threads, LOOP, next));
  }

  lemma EntryAllowed(e: Env, s: State, c: Candidate)
    ensures TaskOk(e, s, EntryTask(c)) && PreId(EntryTask(c)) == None
  {
  }

  lemma StepKeeps(e: Env, a: Agent, ev: Event)
    requires Laws(e) && Inv(e, a) && Enabled(a, ev)
    ensures Inv(e, Apply(e, a, ev))
  {
    hide StateOk, TaskOk, Do, Laws, PreId, PickEnabled, ReqEnabled, JudgeFor, FirstAct, FirstTask, ActOf, NextOf;
    match ev {
      case Deliver(_, _, _, _) => DeliverKeeps(e, a, ev);
      case Begin(tid, req) => BeginKeeps(e, a, tid, req);
      case Run(tid, pick) => RunKeeps(e, a, tid, pick);
      case EditTrust(_) => SameStateKeeps(e, a.s, Apply(e, a, ev).s, a.threads);
      case Crash => SameStateKeeps(e, a.s, Apply(e, a, ev).s, a.threads);
    }
  }

  lemma InitialInv(e: Env, a: Agent)
    requires Initial(a)
    ensures Inv(e, a)
  {
  }
}
