/**
  Any number of agents, all running the daemon, over a broker that may lose, delay, reorder and duplicate what it was
  handed (QoS 1, section 4.3.2 of MQTT 3.1.1), with crashes at any point.
 */
module Network {
  import opened Prelude
  import opened Wire
  import opened Env
  import opened Message
  import opened Steps
  import Ingest
  import MessageProofs
  import Outbox
  import Store

  type Net = map<string, Agent>

  /** The id a step makes up, if any. */
  function DrawnId(e: Env, a: Agent, ev: Event): Option<string> {
    match ev
    case Begin(_, SendReq(_, _, draw)) => Some(draw.id)
    case Begin(_, AnnounceReq(_, _, draw, _)) => Some(draw.id)
    case Run(tid, pick) => if tid in a.threads && a.threads[tid].MakeReceipt? then Some(pick.draw.id) else None
    case _ => None
  }

  /** The broker delivers only what some agent's client was handed, in any order and any number of times. */
  ghost predicate OnTheWire(net: Net, raw: Bytes) {
    exists name, ob :: name in net && ob in net[name].s.log.handed && ob.payload == raw
  }

  ghost predicate NetEnabled(e: Env, net: Net, name: string, ev: Event) {
    && name in net && Enabled(net[name], ev)
    && (ev.Deliver? ==> OnTheWire(net, ev.raw))
    && (forall other | other in net && DrawnId(e, net[name], ev).Some? ::
          DrawnId(e, net[name], ev).value !in net[other].s.log.built)
  }

  function NetApply(e: Env, net: Net, name: string, ev: Event): Net
    requires name in net && Enabled(net[name], ev)
  {
    net[name := Apply(e, net[name], ev)]
  }

  ghost predicate NetInitial(net: Net) {
    forall name | name in net :: Initial(net[name]) && net[name].me.name == name
  }

  ghost predicate IsNetRun(e: Env, nets: seq<Net>, who: seq<string>, evs: seq<Event>) {
    && |who| == |evs| && |nets| == |evs| + 1 && NetInitial(nets[0])
    && forall i | 0 <= i < |evs| ::
         NetEnabled(e, nets[i], who[i], evs[i]) && nets[i + 1] == NetApply(e, nets[i], who[i], evs[i])
  }

  // ---------------------------------------------------------------- the invariant

  ghost predicate CursorAt(db: Store.Db, seqNo: int) {
    exists consumer :: consumer in db.cursors && db.cursors[consumer] >= seqNo
  }

  /** The message differs from one that some agent built at most in what decryption replaces. */
  ghost predicate Sourced(net: Net, inner: Inner) {
    exists owner :: owner in net && inner.id in net[owner].s.log.built
                    && SameEnvelope(inner, net[owner].s.log.built[inner.id])
  }

  predicate SameEnvelope(got: Inner, sent: Inner) {
    got == sent.(body := got.body, ctype := got.ctype)
  }

  /** `b` stored the message the receipt is about, addressed to itself; for a read receipt some cursor passed it. */
  ghost predicate JustifiedBy(net: Net, info: ReceiptInfo, b: string, m: StoredMsg) {
    && b in net && m in net[b].s.log.stored
    && m.cand.inner.id == info.refId && m.cand.inner.to == b && b != BROADCAST && m.cand.inner.kind != Receipt
    && (info.status == ReceiptStatus.Read ==> CursorAt(net[b].s.db, m.seqNo))
  }

  ghost predicate Justified(net: Net, info: ReceiptInfo) {
    exists b, m :: JustifiedBy(net, info, b, m)
  }

  ghost predicate TaskOk(net: Net, a: Agent, task: Task) {
    match task
    case CheckGrant(c, _) => Sourced(net, c.inner)
    case StoreIn(c) => Sourced(net, c.inner)
    case Evict(c) => Sourced(net, c.inner) && exists m :: m in a.s.log.stored && m.cand == c
    case MakeReceipt(_, info, _) => Justified(net, info)
    case AckedRow(seqNo, _) => CursorAt(a.s.db, seqNo)
    case _ => true
  }

  /** The state of an outbound row never claims more than happened at the addressee. */
  ghost predicate RowOk(net: Net, r: Store.Row) {
    && r.state != Store.Failed
    && (r.state == Store.DeliveryState.Delivered ==> Justified(net, ReceiptInfo(r.id, ReceiptStatus.Delivered)))
    && (r.state == Store.DeliveryState.Read ==> Justified(net, ReceiptInfo(r.id, ReceiptStatus.Read)))
  }

  ghost predicate RowsOk(net: Net, rows: seq<Store.Row>) {
    forall r | r in rows && r.direction == Store.Out :: RowOk(net, r)
  }

  ghost predicate BuiltOk(net: Net, built: map<string, Inner>) {
    forall id | id in built && built[id].receipt.Some? ::
      built[id].kind == Receipt && Justified(net, built[id].receipt.value)
  }

  ghost predicate StoredOk(net: Net, stored: seq<StoredMsg>) {
    forall m | m in stored :: Sourced(net, m.cand.inner)
  }

  ghost predicate ThreadsOk(net: Net, a: Agent) {
    forall t | t in a.threads :: TaskOk(net, a, a.threads[t])
  }

  ghost predicate AgentOk(net: Net, a: Agent) {
    StoredOk(net, a.s.log.stored) && ThreadsOk(net, a) && BuiltOk(net, a.s.log.built) && RowsOk(net, a.s.db.rows)
  }

  ghost predicate Apart(net: Net) {
    forall a, b, id | a in net && b in net && id in net[a].s.log.built && id in net[b].s.log.built :: a == b
  }

  ghost predicate LocalOk(e: Env, net: Net) {
    forall name | name in net ::
      net[name].me.name == name && Ingest.Inv(e, net[name]) && Outbox.Inv(e, net[name])
  }

  ghost predicate Inv(e: Env, net: Net) {
    LocalOk(e, net) && Apart(net) && forall name | name in net :: AgentOk(net, net[name])
  }

  // ---------------------------------------------------------------- growth

  ghost predicate Grown(a: Agent, b: Agent) {
    && a.me == b.me
    && (forall m | m in a.s.log.stored :: m in b.s.log.stored)
    && Outbox.KeepsBuilt(a.s, b.s)
    && (forall n | CursorAt(a.s.db, n) :: CursorAt(b.s.db, n))
  }

  ghost predicate NetGrown(net: Net, next: Net) {
    forall name | name in net :: name in next && Grown(net[name], next[name])
  }

  lemma CursorsGrow(s: State, consumer: string, seqNo: int)
    ensures forall n | CursorAt(s.db, n) :: CursorAt(Do(s, MoveCursor(consumer, seqNo)).db, n)
    ensures CursorAt(Do(s, MoveCursor(consumer, seqNo)).db, seqNo)
  {
    var u := Do(s, MoveCursor(consumer, seqNo));
    assert consumer in u.db.cursors && u.db.cursors[consumer] >= seqNo;
    forall n | CursorAt(s.db, n)
      ensures CursorAt(u.db, n)
    {
      var c :| c in s.db.cursors && s.db.cursors[c] >= n;
      assert c in u.db.cursors && u.db.cursors[c] >= n;
    }
  }

  lemma ActGrows(s: State, act: Act)
    requires Possible(s, act) && (act.Build? ==> act.inner.id !in s.log.built)
    ensures var u := Do(s, act);
            && (forall m | m in s.log.stored :: m in u.log.stored)
            && Outbox.KeepsBuilt(s, u)
            && (forall n | CursorAt(s.db, n) :: CursorAt(u.db, n))
  {
    hide Store.ApplyEvent, Store.DropOldest, Store.HasId, Store.RowOf;
    if act.MoveCursor? {
      CursorsGrow(s, act.consumer, act.seqNo);
    } else {
      assert Do(s, act).db.cursors == s.db.cursors;
    }
  }

  lemma StepGrows(e: Env, a: Agent, ev: Event)
    requires Enabled(a, ev)
    ensures Grown(a, Apply(e, a, ev))
  {
    hide Do, CursorAt, Judge, NextOf, FirstTask, Store.Enforced;
    match ev {
      case Deliver(raw, _, _, _) => ActGrows(a.s, Arrive(raw, JudgeFor(e, a, ev)));
      case Begin(_, req) =>
        FreshRequest(e, a, req);
        ActGrows(a.s, FirstAct(e, a, req));
      case Run(tid, pick) => ActGrows(a.s, ActOf(e, a, a.threads[tid], pick));
      case _ => Unchanged(a.s);
    }
  }

  lemma Unchanged(s: State)
    ensures Outbox.KeepsBuilt(s, s) && forall t: State | t.log.built == s.log.built :: Outbox.KeepsBuilt(s, t)
  {
  }

  lemma FreshRequest(e: Env, a: Agent, req: Request)
    requires ReqEnabled(a, req)
    ensures var act := FirstAct(e, a, req);
            Possible(a.s, act) && (act.Build? ==> act.inner.id !in a.s.log.built && act.inner.receipt == None)
  {
    hide BuildInner;
    if req.SendReq? && BuildInner(e, a.me, req.opts, req.draw).Ok? {
      Outbox.BuiltId(e, a.me, req.opts, req.draw);
    }
  }

  lemma SourcedGrows(net: Net, next: Net, inner: Inner)
    requires NetGrown(net, next) && Sourced(net, inner)
    ensures Sourced(next, inner)
  {
    hide CursorAt, SameEnvelope;
    var owner :| owner in net && inner.id in net[owner].s.log.built
                 && SameEnvelope(inner, net[owner].s.log.built[inner.id]);
    assert Grown(net[owner], next[owner]);
  }

  lemma JustifiedGrows(net: Net, next: Net, info: ReceiptInfo)
    requires NetGrown(net, next) && Justified(net, info)
    ensures Justified(next, info)
  {
    hide CursorAt;
    var b, m :| JustifiedBy(net, info, b, m);
    assert Grown(net[b], next[b]);
    assert JustifiedBy(next, info, b, m);
  }

  lemma TaskGrows(net: Net, next: Net, a: Agent, b: Agent, task: Task)
    requires NetGrown(net, next) && Grown(a, b) && TaskOk(net, a, task)
    ensures TaskOk(next, b, task)
  {
    hide Sourced, Justified, NetGrown;
    match task {
      case CheckGrant(c, _) => SourcedGrows(net, next, c.inner);
      case StoreIn(c) => SourcedGrows(net, next, c.inner);
      case Evict(c) => SourcedGrows(net, next, c.inner);
      case MakeReceipt(_, info, _) => JustifiedGrows(net, next, info);
      case _ =>
    }
  }

  lemma GrownSelf(a: Agent)
    ensures Grown(a, a)
  {
  }

  lemma AgentGrows(net: Net, next: Net, a: Agent)
    requires NetGrown(net, next) && AgentOk(net, a)
    ensures AgentOk(next, a)
  {
    hide Sourced, Justified, NetGrown, TaskOk;
    forall m | m in a.s.log.stored
      ensures Sourced(next, m.cand.inner)
    {
      SourcedGrows(net, next, m.cand.inner);
    }
    forall info | Justified(net, info)
      ensures Justified(next, info)
    {
      JustifiedGrows(net, next, info);
    }
    GrownSelf(a);
    forall t | t in a.threads
      ensures TaskOk(next, a, a.threads[t])
    {
      TaskGrows(net, next, a, a, a.threads[t]);
    }
  }

  // ---------------------------------------------------------------- one act

  /** What an act must bring along from the rest of the network. */
  ghost predicate ActOk(net: Net, act: Act) {
    match act
    case Arrive(_, Receipted(Some(info))) => Justified(net, info)
    case InsertIn(c, _, _) => Sourced(net, c.inner)
    case Build(inner) => inner.receipt.Some? ==> inner.kind == Receipt && Justified(net, inner.receipt.value)
    case _ => true
  }

  lemma EventKeepsRows(net: Net, rows: seq<Store.Row>, id: string, ev: Store.DeliveryEvent)
    requires RowsOk(net, rows)
    requires ev == Store.DeliveryReceipt ==> Justified(net, ReceiptInfo(id, ReceiptStatus.Delivered))
    requires ev == Store.ReadReceipt ==> Justified(net, ReceiptInfo(id, ReceiptStatus.Read))
    requires ev != Store.Failure
    ensures RowsOk(net, Store.ApplyEvent(rows, id, ev))
  {
    hide Justified;
    Store.AppliedMembers(rows, id, ev);
  }

  lemma RowsKeep(net: Net, s: State, act: Act)
    requires RowsOk(net, s.db.rows) && ActOk(net, act) && Possible(s, act)
    ensures RowsOk(net, Do(s, act).db.rows)
  {
    hide Justified, Sourced, Store.ApplyEvent, Store.DropOldest, Store.Insert, Store.UpsertPresence;
    match act {
      case Arrive(_, Receipted(Some(info))) =>
        EventKeepsRows(net, s.db.rows, info.refId, ReceiptEvent(info.status));
        assert info == ReceiptInfo(info.refId, info.status);
      case HandedOff(id) => EventKeepsRows(net, s.db.rows, id, Store.HandOff);
      case InsertIn(c, seqNo, _) => Store.InsertMembers(s.db, c.inner, Store.In, c.topic, seqNo);
      case InsertOut(inner, topic, seqNo) => Store.InsertMembers(s.db, inner, Store.Out, topic, seqNo);
      case Drop(count, _) => Store.DroppedSubset(s.db.rows, count);
      case _ =>
    }
  }

  lemma BuiltAndStoredKeep(net: Net, s: State, act: Act)
    requires BuiltOk(net, s.log.built) && StoredOk(net, s.log.stored) && ActOk(net, act) && Possible(s, act)
    ensures BuiltOk(net, Do(s, act).log.built) && StoredOk(net, Do(s, act).log.stored)
  {
    hide Justified, Sourced, Store.ApplyEvent, Store.DropOldest, Store.Insert, Store.HasId;
  }

  // ---------------------------------------------------------------- one step of one agent

  /** What the network owes to the step of an agent. */
  ghost predicate StepOk(e: Env, net: Net, a: Agent, ev: Event) {
    ev.Deliver? ==>
      match JudgeFor(e, a, ev)
      case Accepted(c) => Sourced(net, c.inner)
      case Receipted(Some(info)) => Justified(net, info)
      case _ => true
  }

  /** The acknowledged row is a stored message, so a read receipt for it is justified. */
  lemma AckedIsStored(e: Env, net: Net, a: Agent, seqNo: int, autoReceipts: bool)
    requires Ingest.StateOk(e, a.me, a.s) && CursorAt(a.s.db, seqNo)
    requires a.me.name in net && Grown(a, net[a.me.name])
    ensures var next := AfterAck(a.me, a.s.db, seqNo, autoReceipts);
            next.Some? ==> next.value.MakeReceipt? && Justified(net, next.value.info)
  {
    hide CursorAt, Ingest.ReplayOk, Ingest.GrantOk, Store.Valid, VerifyIncoming, GuardId, Outbox.KeepsBuilt;
    var next := AfterAck(a.me, a.s.db, seqNo, autoReceipts);
    if next.Some? {
      var r := Store.MessageBySeq(a.s.db.rows, seqNo).value;
      assert Ingest.TableOk(a.s);
      var m :| m in a.s.log.stored && r == Ingest.RowFor(m);
      assert Ingest.Vouched(e, a.me, m.cand);
      assert JustifiedBy(net, next.value.info, a.me.name, m);
    }
  }

  /** A delivery receipt follows only a store of a message addressed here. */
  lemma EvictedIsStored(e: Env, net: Net, a: Agent, c: Candidate, m: StoredMsg)
    requires Ingest.StateOk(e, a.me, a.s) && m in a.s.log.stored && m.cand == c && Direct(a.me, c.inner.to)
    requires a.me.name in net && Grown(a, net[a.me.name])
    ensures Justified(net, ReceiptInfo(c.inner.id, ReceiptStatus.Delivered))
  {
    hide CursorAt, Ingest.ReplayOk, Ingest.GrantOk, Ingest.TableOk, Store.Valid, VerifyIncoming, GuardId,
      Outbox.KeepsBuilt;
    assert Ingest.Vouched(e, a.me, m.cand);
    assert JustifiedBy(net, ReceiptInfo(c.inner.id, ReceiptStatus.Delivered), a.me.name, m);
  }

  lemma NextOk(e: Env, net: Net, a: Agent, task: Task, pick: Pick)
    requires Ingest.StateOk(e, a.me, a.s) && TaskOk(net, a, task) && PickEnabled(a, task, pick)
    requires a.me.name in net && Grown(a, net[a.me.name])
    ensures Possible(a.s, ActOf(e, a, task, pick)) && ActOk(net, ActOf(e, a, task, pick))
    ensures var u, next := Do(a.s, ActOf(e, a, task, pick)), NextOf(e, a, task, pick);
            next.Some? ==> TaskOk(net, a.(s := u), next.value)
  {
    hide Justified, Sourced, Ingest.StateOk, Store.Enforced, Store.ApplyEvent, Store.DropOldest, Store.Insert, Grown,
      OutboundOf, CursorAt, AfterAck;
    match task {
      case StoreIn(c) =>
        if !Store.HasId(a.s.db.rows, c.inner.id) {
          StoredNow(a.s, c, pick.seqNo, pick.now);
        }
      case Evict(c) =>
        if Direct(a.me, c.inner.to) {
          var m :| m in a.s.log.stored && m.cand == c;
          EvictedIsStored(e, net, a, c, m);
        }
      case AckedRow(seqNo, autoReceipts) =>
        AckedIsStored(e, net, a, seqNo, autoReceipts);
      case _ =>
    }
  }

  lemma StoredNow(s: State, c: Candidate, seqNo: int, at: int)
    requires seqNo > s.db.lastSeq && !Store.HasId(s.db.rows, c.inner.id)
    ensures exists m :: m in DoInsertIn(s, c, seqNo, at).log.stored && m.cand == c
  {
    assert StoredMsg(c, seqNo, at) in DoInsertIn(s, c, seqNo, at).log.stored;
  }

  /** The acting thread moves on; the others stay where they are. */
  lemma ThreadsMove(net: Net, a: Agent, b: Agent, tid: nat, next: Option<Task>)
    requires ThreadsOk(net, a) && Grown(a, b) && b.threads == Continue(a.threads, tid, next)
    requires next.Some? ==> TaskOk(net, b, next.value)
    ensures ThreadsOk(net, b)
  {
    hide TaskOk, Grown;
    assert NetGrown(net, net) by { NetGrownSelf(net); }
    forall t | t in a.threads && t != tid
      ensures TaskOk(net, b, a.threads[t])
    {
      TaskGrows(net, net, a, b, a.threads[t]);
    }
  }

  lemma NetGrownSelf(net: Net)
    ensures NetGrown(net, net)
  {
    hide Grown;
    forall name | name in net
      ensures Grown(net[name], net[name])
    {
      GrownSelf(net[name]);
    }
  }

  /** Tasks look at the database and the stored messages only. */
  lemma ClockIrrelevant(net: Net, a: Agent, b: Agent, task: Task)
    requires a.s.db == b.s.db && a.s.log.stored == b.s.log.stored && TaskOk(net, a, task)
    ensures TaskOk(net, b, task)
  {
    hide CursorAt, Sourced, Justified;
  }

  lemma RunOk(e: Env, net: Net, a: Agent, tid: nat, pick: Pick)
    requires AgentOk(net, a) && Ingest.StateOk(e, a.me, a.s) && Enabled(a, Run(tid, pick))
    requires a.me.name in net && Grown(a, net[a.me.name])
    ensures AgentOk(net, Apply(e, a, Run(tid, pick)))
  {
    hide TaskOk, RowsOk, BuiltOk, StoredOk, ThreadsOk, Ingest.StateOk, Do, ActOf, NextOf, PickEnabled, Grown, ActOk;
    var b := Apply(e, a, Run(tid, pick));
    var task := a.threads[tid];
    assert TaskOk(net, a, task) by { TaskOfThread(net, a, tid); }
    NextOk(e, net, a, task, pick);
    var act, next := ActOf(e, a, task, pick), NextOf(e, a, task, pick);
    BuiltAndStoredKeep(net, a.s, act);
    RowsKeep(net, a.s, act);
    StepGrows(e, a, Run(tid, pick));
    if next.Some? {
      ClockIrrelevant(net, a.(s := Do(a.s, act)), b, next.value);
    }
    ThreadsMove(net, a, b, tid, next);
  }

  lemma TaskOfThread(net: Net, a: Agent, tid: nat)
    requires ThreadsOk(net, a) && tid in a.threads
    ensures TaskOk(net, a, a.threads[tid])
  {
    hide TaskOk;
  }

  lemma BeginOk(e: Env, net: Net, a: Agent, tid: nat, req: Request)
    requires AgentOk(net, a) && Enabled(a, Begin(tid, req))
    ensures AgentOk(net, Apply(e, a, Begin(tid, req)))
  {
    hide TaskOk, RowsOk, BuiltOk, StoredOk, ThreadsOk, Do, FirstAct, FirstTask, ReqEnabled, Grown;
    var b := Apply(e, a, Begin(tid, req));
    var act, next := FirstAct(e, a, req), FirstTask(e, a, req);
    FirstOk(e, net, a, req);
    BuiltAndStoredKeep(net, a.s, act);
    RowsKeep(net, a.s, act);
    StepGrows(e, a, Begin(tid, req));
    if next.Some? {
      ClockIrrelevant(net, a.(s := Do(a.s, act)), b, next.value);
    }
    ThreadsMove(net, a, b, tid, next);
  }

  lemma FirstOk(e: Env, net: Net, a: Agent, req: Request)
    requires ReqEnabled(a, req)
    ensures var act, next := FirstAct(e, a, req), FirstTask(e, a, req);
            Possible(a.s, act) && ActOk(net, act)
            && (next.Some? ==> TaskOk(net, a.(s := Do(a.s, act)), next.value))
  {
    hide CursorAt, Sourced, Justified, BuildInner, OutboundOf;
    FreshRequest(e, a, req);
    if req.AckReq? {
      CursorsGrow(a.s, req.consumer, req.seqNo);
    }
  }

  lemma DeliverOk(e: Env, net: Net, a: Agent, ev: Event)
    requires AgentOk(net, a) && Enabled(a, ev) && ev.Deliver? && StepOk(e, net, a, ev)
    ensures AgentOk(net, Apply(e, a, ev))
  {
    hide TaskOk, RowsOk, BuiltOk, StoredOk, ThreadsOk, Do, Judge, Grown, Sourced, Justified;
    var b := Apply(e, a, ev);
    var v := JudgeFor(e, a, ev);
    var act := Arrive(ev.raw, v);
    BuiltAndStoredKeep(net, a.s, act);
    RowsKeep(net, a.s, act);
    StepGrows(e, a, ev);
    var next := if v.Accepted? then Some(EntryTask(v.cand)) else None;
    if v.Accepted? {
      EntryOk(net, b, v.cand);
    }
    assert a.threads - {LOOP} == a.threads;
    ThreadsMove(net, a, b, LOOP, next);
  }

  lemma EntryOk(net: Net, a: Agent, c: Candidate)
    requires Sourced(net, c.inner)
    ensures TaskOk(net, a, EntryTask(c))
  {
    hide Sourced;
  }

  lemma ActorOk(e: Env, net: Net, a: Agent, ev: Event)
    requires AgentOk(net, a) && Ingest.StateOk(e, a.me, a.s) && Enabled(a, ev) && StepOk(e, net, a, ev)
    requires a.me.name in net && Grown(a, net[a.me.name])
    ensures AgentOk(net, Apply(e, a, ev))
  {
    hide AgentOk, Ingest.StateOk, StepOk, Apply, Grown;
    match ev {
      case Deliver(_, _, _, _) => DeliverOk(e, net, a, ev);
      case Begin(tid, req) => BeginOk(e, net, a, tid, req);
      case Run(tid, pick) => RunOk(e, net, a, tid, pick);
      case _ => RestOk(e, net, a, ev);
    }
  }

  lemma RestOk(e: Env, net: Net, a: Agent, ev: Event)
    requires AgentOk(net, a) && (ev.EditTrust? || ev.Crash?)
    ensures AgentOk(net, Apply(e, a, ev))
  {
    hide Sourced, Justified, CursorAt;
  }

  // ---------------------------------------------------------------- one step of the network

  /** A payload on the wire carries a message its sender built. */
  lemma WireIsBuilt(e: Env, net: Net, raw: Bytes) returns (owner: string, id: string)
    requires LocalOk(e, net) && OnTheWire(net, raw)
    ensures owner in net && id in net[owner].s.log.built && id == net[owner].s.log.built[id].id
    ensures Unwrap(e, raw) == Some(net[owner].s.log.built[id])
  {
    hide Unwrap, Ingest.Inv, Outbox.ThreadsOk, Outbox.OutSent;
    var name, ob :| name in net && ob in net[name].s.log.handed && ob.payload == raw;
    assert Outbox.Inv(e, net[name]);
    owner, id := name, ob.id;
    assert Outbox.Queued(e, net[name].s, ob);
  }

  lemma ArrivalOk(e: Env, net: Net, a: Agent, ev: Event)
    requires LocalOk(e, net) && (forall name | name in net :: AgentOk(net, net[name]))
    requires Enabled(a, ev) && ev.Deliver? && OnTheWire(net, ev.raw)
    ensures StepOk(e, net, a, ev)
  {
    hide Unwrap, Ingest.Inv, Outbox.Inv, ThreadsOk, RowsOk, StoredOk, Justified, VerifyIncoming, GuardId, Enabled;
    var owner, id := WireIsBuilt(e, net, ev.raw);
    var sent := net[owner].s.log.built[id];
    assert BuiltOk(net, net[owner].s.log.built) by { BuiltOfAgent(net, net[owner]); }
    var v := JudgeFor(e, a, ev);
    if v.Accepted? || v.Receipted? {
      JudgedMessage(e, a, ev);
      MessageProofs.VerifyKeepsEnvelope(e, ev.raw, a.me, a.s.trust, ev.cfg, ev.t);
      var got := VerifyIncoming(e, ev.raw, a.me, a.s.trust, ev.cfg, ev.t).value;
      assert SameEnvelope(got, sent);
      assert Sourced(net, got);
    }
  }

  lemma BuiltOfAgent(net: Net, a: Agent)
    requires AgentOk(net, a)
    ensures BuiltOk(net, a.s.log.built)
  {
  }

  lemma JudgedMessage(e: Env, a: Agent, ev: Event)
    requires ev.Deliver? && (JudgeFor(e, a, ev).Accepted? || JudgeFor(e, a, ev).Receipted?)
    ensures var got, v := VerifyIncoming(e, ev.raw, a.me, a.s.trust, ev.cfg, ev.t), JudgeFor(e, a, ev);
            got.Ok? && (v.Accepted? ==> v.cand.inner == got.value) && (v.Receipted? ==> v.receipt == got.value.receipt)
  {
    hide VerifyIncoming, GuardId, VerifyPair, UnwrapInner;
  }

  lemma BuiltBy(e: Env, a: Agent, ev: Event)
    requires Enabled(a, ev)
    ensures forall id | id in Apply(e, a, ev).s.log.built :: id in a.s.log.built || Some(id) == DrawnId(e, a, ev)
  {
    hide BuildInner, OutboundOf, Judge, NextOf, FirstTask, Store.Enforced, Store.ApplyEvent, Store.DropOldest,
      Store.Insert, Store.HasId;
    if ev.Begin? && ev.req.SendReq? && BuildInner(e, a.me, ev.req.opts, ev.req.draw).Ok? {
      Outbox.BuiltId(e, a.me, ev.req.opts, ev.req.draw);
    }
  }

  lemma ApartKeeps(e: Env, net: Net, name: string, ev: Event)
    requires Apart(net) && NetEnabled(e, net, name, ev)
    ensures Apart(NetApply(e, net, name, ev))
  {
    hide Enabled, Apply, OnTheWire, DrawnId;
    BuiltBy(e, net[name], ev);
  }

  lemma StepKeepsIdentity(e: Env, a: Agent, ev: Event)
    requires Enabled(a, ev)
    ensures Apply(e, a, ev).me == a.me
  {
    hide Do, Judge, NextOf, ActOf, FirstAct, FirstTask, PickEnabled, ReqEnabled;
  }

  lemma StepKeeps(e: Env, net: Net, name: string, ev: Event)
    requires Laws(e) && Inv(e, net) && NetEnabled(e, net, name, ev)
    ensures Inv(e, NetApply(e, net, name, ev)) && NetGrown(net, NetApply(e, net, name, ev))
  {
    hide Enabled, Apply, OnTheWire, DrawnId, AgentOk, Apart, Ingest.Inv, Outbox.Inv, Grown, StepOk, Laws;
    var a := net[name];
    var next := NetApply(e, net, name, ev);
    StepGrows(e, a, ev);
    forall other | other in net
      ensures Grown(net[other], next[other])
    {
      GrownSelf(net[other]);
    }
    StepKeepsLocal(e, net, name, ev);
    ApartKeeps(e, net, name, ev);
    forall other | other in net
      ensures AgentOk(next, net[other])
    {
      AgentGrows(net, next, net[other]);
    }
    ArrivalGrows(e, net, next, a, ev);
    StateOfInv(e, a);
    ActorOk(e, next, a, ev);
  }

  lemma StepKeepsLocal(e: Env, net: Net, name: string, ev: Event)
    requires Laws(e) && LocalOk(e, net) && NetEnabled(e, net, name, ev)
    ensures LocalOk(e, NetApply(e, net, name, ev))
  {
    hide Enabled, Apply, OnTheWire, DrawnId, Ingest.Inv, Outbox.Inv, Laws;
    Ingest.StepKeeps(e, net[name], ev);
    Outbox.StepKeeps(e, net[name], ev);
    StepKeepsIdentity(e, net[name], ev);
  }

  lemma StateOfInv(e: Env, a: Agent)
    requires Ingest.Inv(e, a)
    ensures Ingest.StateOk(e, a.me, a.s)
  {
  }

  lemma ArrivalGrows(e: Env, net: Net, next: Net, a: Agent, ev: Event)
    requires LocalOk(e, net) && (forall name | name in net :: AgentOk(net, net[name])) && NetGrown(net, next)
    requires Enabled(a, ev) && (ev.Deliver? ==> OnTheWire(net, ev.raw))
    ensures StepOk(e, next, a, ev)
  {
    hide Enabled, OnTheWire, AgentOk, LocalOk, NetGrown, Sourced, Justified, Judge;
    if ev.Deliver? {
      ArrivalOk(e, net, a, ev);
      match JudgeFor(e, a, ev) {
        case Accepted(c) => SourcedGrows(net, next, c.inner);
        case Receipted(Some(info)) => JustifiedGrows(net, next, info);
        case _ =>
      }
    }
  }

  lemma InitialInv(e: Env, net: Net)
    requires NetInitial(net)
    ensures Inv(e, net)
  {
    hide Ingest.Inv, Outbox.Inv, AgentOk;
    forall name | name in net
      ensures Ingest.Inv(e, net[name]) && Outbox.Inv(e, net[name]) && AgentOk(net, net[name])
    {
      Ingest.InitialInv(e, net[name]);
      Outbox.InitialInv(e, net[name]);
      InitialAgent(net, net[name]);
    }
  }

  lemma InitialAgent(net: Net, a: Agent)
    requires Initial(a)
    ensures AgentOk(net, a)
  {
  }

  lemma {:induction false} InvHolds(e: Env, nets: seq<Net>, who: seq<string>, evs: seq<Event>, i: nat)
    requires Laws(e) && IsNetRun(e, nets, who, evs) && i < |nets|
    ensures Inv(e, nets[i])
  {
    hide Inv, NetApply, NetEnabled, NetInitial, Laws;
    if i == 0 {
      InitialInv(e, nets[0]);
    } else {
      InvHolds(e, nets, who, evs, i - 1);
      assert NetEnabled(e, nets[i - 1], who[i - 1], evs[i - 1]);
      StepKeeps(e, nets[i - 1], who[i - 1], evs[i - 1]);
    }
  }

  // ---------------------------------------------------------------- what a delivery state means

  /** The addressee of row `r` has stored `m` under the row's id, with its recipient and kind. */
  ghost predicate StoredAtAddressee(net: Net, r: Store.Row, m: StoredMsg) {
    && r.recipient in net && r.recipient != BROADCAST
    && m in net[r.recipient].s.log.stored
    && m.cand.inner.id == r.id && m.cand.inner.to == r.recipient && m.cand.inner.kind == r.kind
  }

  /** Justification of a row's id is about that very row, because no other agent built a message under its id. */
  lemma JustifiedRow(e: Env, net: Net, a: string, r: Store.Row, info: ReceiptInfo) returns (m: StoredMsg)
    requires Inv(e, net) && a in net && r in net[a].s.db.rows && r.direction == Store.Out
    requires info.refId == r.id && Justified(net, info)
    ensures StoredAtAddressee(net, r, m) && r.kind != Receipt
    ensures info.status == ReceiptStatus.Read ==> CursorAt(net[r.recipient].s.db, m.seqNo)
    ensures r.id in net[a].s.log.built && SameEnvelope(m.cand.inner, net[a].s.log.built[r.id])
  {
    hide CursorAt, Ingest.Inv, Outbox.QueueOk, Outbox.ThreadsOk, BuiltOk, RowsOk, ThreadsOk, Outbox.Logged;
    var b, n :| JustifiedBy(net, info, b, n);
    m := n;
    assert Outbox.Inv(e, net[a]) && AgentOk(net, net[b]);
    assert Sourced(net, n.cand.inner);
    var owner :| owner in net && r.id in net[owner].s.log.built
                 && SameEnvelope(n.cand.inner, net[owner].s.log.built[r.id]);
    assert owner == a;
  }

  /** A row shown as delivered, or as read, has been stored by its addressee, or passed by a cursor there. */
  lemma DeliveryStateIsTrue(e: Env, nets: seq<Net>, who: seq<string>, evs: seq<Event>, i: nat, a: string, r: Store.Row)
    returns (m: StoredMsg)
    requires Laws(e) && IsNetRun(e, nets, who, evs) && i < |nets|
    requires a in nets[i] && r in nets[i][a].s.db.rows && r.direction == Store.Out
    requires r.state == Store.DeliveryState.Delivered || r.state == Store.DeliveryState.Read
    ensures StoredAtAddressee(nets[i], r, m)
    ensures r.id in nets[i][a].s.log.built && SameEnvelope(m.cand.inner, nets[i][a].s.log.built[r.id])
    ensures r.state == Store.DeliveryState.Read ==> CursorAt(nets[i][r.recipient].s.db, m.seqNo)
  {
    hide IsNetRun, CursorAt, Justified, StoredAtAddressee, LocalOk, Apart, StoredOk, ThreadsOk, BuiltOk, Laws;
    InvHolds(e, nets, who, evs, i);
    var net := nets[i];
    assert RowsOk(net, net[a].s.db.rows) by { assert AgentOk(net, net[a]); }
    assert RowOk(net, r);
    var status := if r.state == Store.DeliveryState.Read then ReceiptStatus.Read else ReceiptStatus.Delivered;
    m := JustifiedRow(e, net, a, r, ReceiptInfo(r.id, status));
  }

  // ---------------------------------------------------------------- receipts

  /** Every receipt ever built refers to a message some agent built that is not itself a receipt. */
  lemma ReceiptsAreAboutMessages(e: Env, nets: seq<Net>, who: seq<string>, evs: seq<Event>, i: nat,
                                 a: string, id: string)
    requires Laws(e) && IsNetRun(e, nets, who, evs) && i < |nets|
    requires a in nets[i] && id in nets[i][a].s.log.built && nets[i][a].s.log.built[id].receipt.Some?
    ensures nets[i][a].s.log.built[id].kind == Receipt
    ensures var ref := nets[i][a].s.log.built[id].receipt.value.refId;
            exists owner :: owner in nets[i] && ref in nets[i][owner].s.log.built
                            && nets[i][owner].s.log.built[ref].kind != Receipt
  {
    hide IsNetRun, CursorAt, LocalOk, Apart, ThreadsOk, RowsOk, Laws;
    InvHolds(e, nets, who, evs, i);
    var net := nets[i];
    assert BuiltOk(net, net[a].s.log.built) by { BuiltOfAgent(net, net[a]); }
    var info := net[a].s.log.built[id].receipt.value;
    var b, m :| JustifiedBy(net, info, b, m);
    assert AgentOk(net, net[b]);
    assert Sourced(net, m.cand.inner);
  }

  /** The log row of a receipt never passes `sent`. */
  lemma ReceiptRowsStaySent(e: Env, nets: seq<Net>, who: seq<string>, evs: seq<Event>, i: nat, a: string, r: Store.Row)
    requires Laws(e) && IsNetRun(e, nets, who, evs) && i < |nets|
    requires a in nets[i] && r in nets[i][a].s.db.rows && r.direction == Store.Out && r.kind == Receipt
    ensures Store.Rank(r.state) <= Store.Rank(Store.Sent)
  {
    hide IsNetRun, Justified, LocalOk, Apart, StoredOk, ThreadsOk, BuiltOk, StoredAtAddressee, Laws;
    InvHolds(e, nets, who, evs, i);
    var net := nets[i];
    assert RowsOk(net, net[a].s.db.rows) by { assert AgentOk(net, net[a]); }
    assert RowOk(net, r);
    if r.state == Store.DeliveryState.Delivered {
      var m := JustifiedRow(e, net, a, r, ReceiptInfo(r.id, ReceiptStatus.Delivered));
    } else if r.state == Store.DeliveryState.Read {
      var m := JustifiedRow(e, net, a, r, ReceiptInfo(r.id, ReceiptStatus.Read));
    }
  }
}
