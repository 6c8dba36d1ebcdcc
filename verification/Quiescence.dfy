/** Receipts die out: once users stop, the direct messages not yet stored bound all further receipts. */
module Quiescence {
  import opened Prelude
  import opened Wire
  import opened Env
  import opened Message
  import opened Steps
  import opened Network
  import Ingest
  import Outbox
  import Store

  /** Users neither send nor acknowledge, heartbeats are off, and no eviction removes a row. */
  predicate Calm(ev: Event) {
    && (ev.Begin? ==> ev.req.PumpReq? || ev.req.ConfirmReq?)
    && (ev.Run? ==> ev.pick.evict == 0)
  }

  /** Direct messages, with their addressees, that their addressees have no row for. */
  function Unstored(net: Net): set<(string, string)> {
    set a, id | a in net && id in net[a].s.log.built && Awaited(net, net[a].s.log.built[id])
      :: (id, net[a].s.log.built[id].to)
  }

  predicate Awaited(net: Net, inner: Inner) {
    inner.kind != Receipt && inner.to in net && inner.to != BROADCAST
    && !Store.HasId(net[inner.to].s.db.rows, inner.id)
  }

  /** The thread may go on to build a receipt for a message already stored or acknowledged. */
  predicate Owes(me: Identity, task: Task) {
    task.MakeReceipt? || task.AckedRow? || (task.Evict? && Direct(me, task.cand.inner.to))
  }

  /** Threads that owe a receipt, with their agents. */
  function Owing(net: Net): set<(string, nat)> {
    set b, t | b in net && t in net[b].threads && Owes(net[b].me, net[b].threads[t]) :: (b, t)
  }

  predicate IsNewReceipt(start: Net, net: Net, b: string, id: string) {
    b in net && b in start && id in net[b].s.log.built && id !in start[b].s.log.built
    && net[b].s.log.built[id].receipt.Some?
  }

  /** Receipts built since `start`, with their builders. */
  function NewReceipts(start: Net, net: Net): set<(string, string)> {
    set b, id | b in net && id in net[b].s.log.built && IsNewReceipt(start, net, b, id) :: (b, id)
  }

  /** Receipts built, messages that may still cause one, and threads about to build one. */
  function Measure(start: Net, net: Net): nat {
    |NewReceipts(start, net)| + |Unstored(net)| + |Owing(net)|
  }

  // ---------------------------------------------------------------- one step of one agent

  /** Without eviction no id leaves the table. */
  lemma IdsStay(e: Env, a: Agent, ev: Event, id: string)
    requires Enabled(a, ev) && Calm(ev) && Store.HasId(a.s.db.rows, id)
    ensures Store.HasId(Apply(e, a, ev).s.db.rows, id)
  {
    hide Store.HasId, NextOf, FirstTask, Judge, Do, FirstAct;
    match ev {
      case Deliver(raw, _, _, _) => ActKeepsIds(a.s, Arrive(raw, JudgeFor(e, a, ev)), id);
      case Begin(_, req) => CalmRequest(e, a, req);
      case Run(tid, pick) => ActKeepsIds(a.s, ActOf(e, a, a.threads[tid], pick), id);
      case _ =>
    }
  }

  lemma CalmRequest(e: Env, a: Agent, req: Request)
    requires req.PumpReq? || req.ConfirmReq?
    ensures FirstAct(e, a, req) == Idle && Do(a.s, Idle) == a.s
    ensures var next := FirstTask(e, a, req); next.Some? ==> !Owes(a.me, next.value)
  {
  }

  lemma ActKeepsIds(s: State, act: Act, id: string)
    requires Possible(s, act) && Store.HasId(s.db.rows, id) && (act.Drop? ==> act.count == 0)
    ensures Store.HasId(Do(s, act).db.rows, id)
  {
    hide Store.UpsertPresence, Store.RowOf, Store.HasId, Store.Insert, Store.ApplyEvent;
    match act {
      case HandedOff(x) => EventKeepsId(s.db.rows, x, Store.HandOff, id);
      case Arrive(_, Receipted(Some(info))) => EventKeepsId(s.db.rows, info.refId, ReceiptEvent(info.status), id);
      case InsertIn(c, seqNo, _) => InsertKeepsId(s.db, c.inner, Store.In, c.topic, seqNo, id);
      case InsertOut(inner, topic, seqNo) => InsertKeepsId(s.db, inner, Store.Out, topic, seqNo, id);
      case _ =>
    }
  }

  lemma InsertKeepsId(db: Store.Db, inner: Inner, direction: Store.Direction, topic: string, seqNo: int, id: string)
    requires seqNo > db.lastSeq && Store.HasId(db.rows, id)
    ensures Store.HasId(Store.Insert(db, inner, direction, topic, seqNo).rows, id)
  {
    hide Store.Insert, Store.RowOf;
    Store.InsertMembers(db, inner, direction, topic, seqNo);
  }

  lemma EventKeepsId(rows: seq<Store.Row>, x: string, ev: Store.DeliveryEvent, id: string)
    requires Store.HasId(rows, id)
    ensures Store.HasId(Store.ApplyEvent(rows, x, ev), id)
  {
    hide Store.Advance;
    var i :| 0 <= i < |rows| && rows[i].id == id;
    assert Store.ApplyEvent(rows, x, ev)[i].id == id;
  }

  /** What a calm step may do to the built messages: only a thread that owes a receipt adds one. */
  lemma BuiltIs(e: Env, a: Agent, ev: Event)
    requires Enabled(a, ev) && Calm(ev)
    ensures var b := Apply(e, a, ev);
            b.me == a.me &&
            if ev.Run? && a.threads[ev.tid].MakeReceipt? then
              var inner := Draft(e, a.me, ReceiptOpts(a.threads[ev.tid].to, a.threads[ev.tid].info), ev.pick.draw);
              b.s.log.built == a.s.log.built[inner.id := inner] && inner.id !in a.s.log.built
              && inner.id == ev.pick.draw.id && inner.receipt == Some(a.threads[ev.tid].info) && inner.kind == Receipt
            else b.s.log.built == a.s.log.built
  {
    hide Store.ApplyEvent, Store.DropOldest, Store.Insert, Store.HasId, Judge, BuildInner, OutboundOf, NextOf,
      Store.Enforced;
    if ev.Begin? {
      CalmRequest(e, a, ev.req);
    }
  }

  /** A thread comes to owe a receipt only by storing a message addressed here. */
  lemma OwesNext(e: Env, a: Agent, task: Task, pick: Pick)
    requires NextOf(e, a, task, pick).Some? && Owes(a.me, NextOf(e, a, task, pick).value)
    ensures !task.MakeReceipt?
    ensures Owes(a.me, task)
         || (task.StoreIn? && !Store.HasId(a.s.db.rows, task.cand.inner.id) && Direct(a.me, task.cand.inner.to))
  {
    hide Draft, OutboundOf, Store.HasId;
  }

  /** A message about to be stored, addressed here, is still awaited. */
  predicate OpenFor(open: set<(string, string)>, a: Agent, task: Task) {
    (task.StoreIn? && !Store.HasId(a.s.db.rows, task.cand.inner.id) && Direct(a.me, task.cand.inner.to))
    ==> (task.cand.inner.id, a.me.name) in open
  }

  /** A candidate stored here for the first time, addressed here, is one of the awaited messages. */
  lemma CandidateIsOpen(e: Env, net: Net, b: string, task: Task)
    requires Network.Inv(e, net) && b in net && task.StoreIn? && Ingest.TaskOk(e, net[b].me, net[b].s, task)
    requires Network.TaskOk(net, net[b], task)
    ensures OpenFor(Unstored(net), net[b], task)
  {
    hide Ingest.Inv, Outbox.Inv, AgentOk, Apart, VerifyIncoming, GuardId, Store.HasId;
    var c := task.cand;
    if Direct(net[b].me, c.inner.to) && !Store.HasId(net[b].s.db.rows, c.inner.id) {
      var owner :| owner in net && c.inner.id in net[owner].s.log.built
                   && SameEnvelope(c.inner, net[owner].s.log.built[c.inner.id]);
      assert Ingest.Vouched(e, net[b].me, c);
      assert Awaited(net, net[owner].s.log.built[c.inner.id]);
    }
  }

  lemma ThreadFacts(e: Env, net: Net, b: string, tid: nat)
    requires Network.Inv(e, net) && b in net && tid in net[b].threads && net[b].threads[tid].StoreIn?
    ensures Ingest.TaskOk(e, net[b].me, net[b].s, net[b].threads[tid])
    ensures Network.TaskOk(net, net[b], net[b].threads[tid])
  {
    hide Ingest.StateOk, Ingest.OutcomesOk, Outbox.Inv, Ingest.TaskOk, Network.TaskOk, RowsOk, BuiltOk, StoredOk;
    assert AgentOk(net, net[b]) && Ingest.Inv(e, net[b]);
    Ingest.OnlyLoop(e, net[b], tid);
  }

  lemma UnstoredShrinks(e: Env, net: Net, name: string, ev: Event)
    requires NetEnabled(e, net, name, ev) && Calm(ev)
    ensures Unstored(NetApply(e, net, name, ev)) <= Unstored(net)
  {
    hide Apply, OnTheWire, DrawnId, Enabled, Store.HasId, Draft;
    BuiltIs(e, net[name], ev);
    forall id | Store.HasId(net[name].s.db.rows, id)
      ensures Store.HasId(Apply(e, net[name], ev).s.db.rows, id)
    {
      IdsStay(e, net[name], ev, id);
    }
  }

  predicate OwnIds(net: Net) {
    forall a, id | a in net && id in net[a].s.log.built :: net[a].s.log.built[id].id == id
  }

  lemma OwnIdsHold(e: Env, net: Net)
    requires LocalOk(e, net)
    ensures OwnIds(net)
  {
    hide Ingest.Inv, Outbox.QueueOk, Outbox.ThreadsOk;
    forall a | a in net
      ensures Outbox.LogOk(net[a].s)
    {
      assert Outbox.Inv(e, net[a]);
    }
  }

  lemma NotUnstored(net: Net, p: (string, string))
    requires p.1 in net && Store.HasId(net[p.1].s.db.rows, p.0)
    requires OwnIds(net)
    ensures p !in Unstored(net)
  {
    hide Store.HasId;
  }

  // ---------------------------------------------------------------- the measure

  lemma {:induction false} SubsetSize<T>(xs: set<T>, ys: set<T>)
    requires xs <= ys
    ensures |xs| <= |ys|
  {
    assert ys == xs + (ys - xs);
  }

  lemma ReceiptsOf(start: Net, net: Net, p: (string, string))
    ensures p in NewReceipts(start, net) <==> IsNewReceipt(start, net, p.0, p.1)
  {
  }

  lemma OwingIs(net: Net, p: (string, nat))
    ensures p in Owing(net) <==> p.0 in net && p.1 in net[p.0].threads && Owes(net[p.0].me, net[p.0].threads[p.1])
  {
  }

  /** Only a thread that builds a receipt adds one. */
  lemma ReceiptsGrow(e: Env, start: Net, net: Net, name: string, ev: Event)
    requires NetEnabled(e, net, name, ev) && Calm(ev)
    ensures var next := NetApply(e, net, name, ev);
            if ev.Run? && net[name].threads[ev.tid].MakeReceipt?
            then NewReceipts(start, next) <= NewReceipts(start, net) + {(name, ev.pick.draw.id)}
            else NewReceipts(start, next) <= NewReceipts(start, net)
  {
    hide Apply, PickEnabled, ReqEnabled, OnTheWire, DrawnId, NewReceipts, Calm, Draft;
    var next := NetApply(e, net, name, ev);
    BuiltIs(e, net[name], ev);
    forall p | p in NewReceipts(start, next)
      ensures p in NewReceipts(start, net)
           || (ev.Run? && ev.tid in net[name].threads && net[name].threads[ev.tid].MakeReceipt?
               && p == (name, ev.pick.draw.id))
    {
      ReceiptsOf(start, next, p);
      ReceiptsOf(start, net, p);
    }
  }

  /** Who owes after a step of thread `tid`. */
  lemma RunOwing(e: Env, net: Net, name: string, tid: nat, pick: Pick)
    requires name in net && Enabled(net[name], Run(tid, pick))
    ensures var next, a := NetApply(e, net, name, Run(tid, pick)), net[name];
            var following := NextOf(e, a, a.threads[tid], pick);
            if following.Some? && Owes(a.me, following.value) then Owing(next) <= Owing(net) + {(name, tid)}
            else Owing(next) <= Owing(net) - {(name, tid)}
  {
    hide Owing, Owes, Do, NextOf, PickEnabled;
    var a, next := net[name], NetApply(e, net, name, Run(tid, pick));
    StepKeepsIdentity(e, a, Run(tid, pick));
    forall p | p in Owing(next)
      ensures p == (name, tid) || p in Owing(net)
    {
      OwingIs(next, p);
      OwingIs(net, p);
    }
    OwingIs(next, (name, tid));
  }

  lemma OtherOwing(e: Env, net: Net, name: string, ev: Event)
    requires name in net && Enabled(net[name], ev) && Calm(ev) && !ev.Run?
    ensures Owing(NetApply(e, net, name, ev)) <= Owing(net)
  {
    hide Owing, Do, Judge, FirstTask, FirstAct;
    var a, next := net[name], NetApply(e, net, name, ev);
    StepKeepsIdentity(e, a, ev);
    if ev.Begin? {
      CalmRequest(e, a, ev.req);
    }
    forall p | p in Owing(next)
      ensures p in Owing(net)
    {
      OwingIs(next, p);
      OwingIs(net, p);
    }
  }

  /** Storing a message addressed here uses it up. */
  lemma StoredIsUsedUp(e: Env, net: Net, name: string, tid: nat, pick: Pick)
    requires Laws(e) && Network.Inv(e, net) && NetEnabled(e, net, name, Run(tid, pick)) && Calm(Run(tid, pick))
    requires net[name].threads[tid].StoreIn?
    requires var c := net[name].threads[tid].cand;
             !Store.HasId(net[name].s.db.rows, c.inner.id) && Direct(net[name].me, c.inner.to)
    ensures var p := (net[name].threads[tid].cand.inner.id, name);
            p in Unstored(net) && p !in Unstored(NetApply(e, net, name, Run(tid, pick)))
  {
    hide OnTheWire, DrawnId, Ingest.Inv, Outbox.Inv, AgentOk, Apart, Unstored, Store.HasId, NetApply, PickEnabled, Laws;
    var a, next := net[name], NetApply(e, net, name, Run(tid, pick));
    ThreadFacts(e, net, name, tid);
    CandidateIsOpen(e, net, name, a.threads[tid]);
    StoredHasRow(e, net, name, tid, pick);
    StepKeepsLocal(e, net, name, Run(tid, pick));
    OwnIdsHold(e, next);
    NotUnstored(next, (a.threads[tid].cand.inner.id, name));
  }

  lemma StoredHasRow(e: Env, net: Net, name: string, tid: nat, pick: Pick)
    requires name in net && Enabled(net[name], Run(tid, pick)) && net[name].threads[tid].StoreIn?
    ensures var next := NetApply(e, net, name, Run(tid, pick));
            name in next && Store.HasId(next[name].s.db.rows, net[name].threads[tid].cand.inner.id)
  {
    hide Store.Enforced, Store.Insert;
    var a := net[name];
    var c := a.threads[tid].cand;
    Store.InsertMembers(a.s.db, c.inner, Store.In, c.topic, pick.seqNo);
    assert !Store.HasId(a.s.db.rows, c.inner.id) ==>
             Store.RowOf(c.inner, Store.In, c.topic, pick.seqNo)
             in Store.Insert(a.s.db, c.inner, Store.In, c.topic, pick.seqNo).rows;
  }

  /** No calm step raises the measure. */
  lemma MeasureFalls(e: Env, start: Net, net: Net, name: string, ev: Event)
    requires Laws(e) && Network.Inv(e, net) && NetEnabled(e, net, name, ev) && Calm(ev)
    ensures Measure(start, NetApply(e, net, name, ev)) <= Measure(start, net)
    ensures Unstored(NetApply(e, net, name, ev)) <= Unstored(net)
  {
    hide OnTheWire, DrawnId, Network.Inv, Unstored, Owing, NewReceipts, Apply, NextOf, Store.HasId, Calm, Direct, Laws;
    var next := NetApply(e, net, name, ev);
    UnstoredShrinks(e, net, name, ev);
    if ev.Run? {
      RunMeasure(e, start, net, name, ev.tid, ev.pick);
    } else {
      ReceiptsGrow(e, start, net, name, ev);
      OtherOwing(e, net, name, ev);
      SubsetSize(Unstored(next), Unstored(net));
      SubsetSize(Owing(next), Owing(net));
      SubsetSize(NewReceipts(start, next), NewReceipts(start, net));
    }
  }

  lemma RunMeasure(e: Env, start: Net, net: Net, name: string, tid: nat, pick: Pick)
    requires Laws(e) && Network.Inv(e, net) && NetEnabled(e, net, name, Run(tid, pick)) && Calm(Run(tid, pick))
    ensures Measure(start, NetApply(e, net, name, Run(tid, pick))) <= Measure(start, net)
  {
    hide OnTheWire, DrawnId, Network.Inv, Unstored, Owing, NewReceipts, NetApply, NextOf, Store.HasId, Direct,
      PickEnabled, Laws;
    var a, next := net[name], NetApply(e, net, name, Run(tid, pick));
    var task, following := a.threads[tid], NextOf(e, a, a.threads[tid], pick);
    ReceiptsGrow(e, start, net, name, Run(tid, pick));
    UnstoredShrinks(e, net, name, Run(tid, pick));
    SubsetSize(Unstored(next), Unstored(net));
    RunOwing(e, net, name, tid, pick);
    OwingIs(net, (name, tid));
    if following.Some? && Owes(a.me, following.value) {
      OwesNext(e, a, task, pick);
      SubsetSize(NewReceipts(start, next), NewReceipts(start, net));
      SubsetSize(Owing(next), Owing(net) + {(name, tid)});
      if !Owes(a.me, task) {
        StoredIsUsedUp(e, net, name, tid, pick);
        SubsetSize(Unstored(next), Unstored(net) - {(task.cand.inner.id, name)});
      } else {
        assert Owing(net) + {(name, tid)} == Owing(net);
      }
    } else {
      SubsetSize(Owing(next), Owing(net) - {(name, tid)});
      SubsetSize(NewReceipts(start, next), NewReceipts(start, net) + {(name, pick.draw.id)});
      if !task.MakeReceipt? {
        SubsetSize(NewReceipts(start, next), NewReceipts(start, net));
      }
    }
  }

  lemma {:induction false} MeasureHolds(e: Env, nets: seq<Net>, who: seq<string>, evs: seq<Event>, i: nat, j: nat)
    requires Laws(e) && IsNetRun(e, nets, who, evs) && i <= j < |nets|
    requires forall k | i <= k < j :: Calm(evs[k])
    ensures Measure(nets[i], nets[j]) <= |Unstored(nets[i])| + |Owing(nets[i])|
    ensures Unstored(nets[j]) <= Unstored(nets[i])
    decreases j
  {
    hide NetApply, NetEnabled, Measure, NetInitial, Network.Inv, Laws, Calm, Unstored, Owing;
    if i == j {
      NoneYet(nets[i]);
    } else {
      MeasureHolds(e, nets, who, evs, i, j - 1);
      Network.InvHolds(e, nets, who, evs, j - 1);
      assert NetEnabled(e, nets[j - 1], who[j - 1], evs[j - 1]) && Calm(evs[j - 1]);
      MeasureFalls(e, nets[i], nets[j - 1], who[j - 1], evs[j - 1]);
    }
  }

  lemma NoneYet(start: Net)
    ensures Measure(start, start) == |Unstored(start)| + |Owing(start)|
  {
    hide Unstored, Owing;
    assert NewReceipts(start, start) == {};
  }

  /**
    As long as users stay quiet and nothing is evicted, every receipt built by anyone uses up one direct message that
    was not yet stored, or settles one that a thread owed. With nothing owed at the start, the direct messages not yet
    stored bound all further receipts.
   */
  lemma ReceiptsDieOut(e: Env, nets: seq<Net>, who: seq<string>, evs: seq<Event>, i: nat, j: nat)
    requires Laws(e) && IsNetRun(e, nets, who, evs) && i <= j < |nets|
    requires forall k | i <= k < j :: Calm(evs[k])
    ensures Unstored(nets[j]) <= Unstored(nets[i])
    ensures |NewReceipts(nets[i], nets[j])| + |Unstored(nets[j])| + |Owing(nets[j])|
         <= |Unstored(nets[i])| + |Owing(nets[i])|
    ensures Owing(nets[i]) == {} ==> |NewReceipts(nets[i], nets[j])| <= |Unstored(nets[i])|
  {
    hide IsNetRun, Laws, Unstored, NewReceipts, Owing, Calm;
    MeasureHolds(e, nets, who, evs, i, j);
  }
}
