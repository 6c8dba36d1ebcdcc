/** A direct message can always get through: whenever two daemons are idle, there is a way on to its receipt. */
module Delivery {
  import opened Prelude
  import opened Wire
  import opened Env
  import opened Message
  import opened MessageProofs
  import opened Steps
  import opened Paths
  import opened Network
  import opened Receipts
  import Grant
  import Ingest
  import Outbox
  import Store

  // ---------------------------------------------------------------- paths through the network

  datatype Move = Move(who: string, ev: Event)

  ghost predicate NetStep(e: Env, net: Net, m: Move, next: Net) {
    NetEnabled(e, net, m.who, m.ev) && next == NetApply(e, net, m.who, m.ev)
  }

  ghost predicate NetReaches(e: Env, net: Net, moves: seq<Move>, next: Net)
    decreases |moves|
  {
    if moves == [] then net == next
    else
      var last := |moves| - 1;
      exists mid :: NetReaches(e, net, moves[..last], mid) && NetStep(e, mid, moves[last], next)
  }

  lemma NetReachesNext(e: Env, net: Net, moves: seq<Move>, mid: Net, m: Move, next: Net)
    requires NetReaches(e, net, moves, mid) && NetStep(e, mid, m, next)
    ensures NetReaches(e, net, moves + [m], next)
  {
    hide NetStep;
    assert (moves + [m])[..|moves|] == moves;
  }

  /** A path of the network from its start is one of the runs `Network` speaks about. */
  lemma {:induction false} PathsMakeANetRun(e: Env, net: Net, moves: seq<Move>, next: Net)
    returns (nets: seq<Net>, who: seq<string>, evs: seq<Event>)
    requires NetInitial(net) && NetReaches(e, net, moves, next)
    ensures IsNetRun(e, nets, who, evs) && nets[|evs|] == next && |evs| == |moves|
    decreases |moves|
  {
    hide NetInitial, Enabled, Apply;
    if moves == [] {
      nets, who, evs := [net], [], [];
    } else {
      var last := |moves| - 1;
      var mid :| NetReaches(e, net, moves[..last], mid) && NetStep(e, mid, moves[last], next);
      nets, who, evs := PathsMakeANetRun(e, net, moves[..last], mid);
      nets, who, evs := nets + [next], who + [moves[last].who], evs + [moves[last].ev];
    }
  }

  /** What an agent does by itself with ids of one draw, apart from taking in what another has handed over. */
  ghost predicate Feasible(net: Net, name: string, id: string, ev: Event) {
    match ev
    case Deliver(raw, _, _, _) =>
      exists other, ob :: other in net && other != name && ob in net[other].s.log.handed && ob.payload == raw
    case Begin(_, SendReq(_, _, draw)) => draw.id == id
    case Begin(_, AnnounceReq(_, _, draw, _)) => draw.id == id
    case Run(_, pick) => pick.draw.id == id
    case _ => true
  }

  ghost predicate FreshElsewhere(net: Net, name: string, id: string) {
    forall other | other in net && other != name :: id !in net[other].s.log.built
  }

  lemma OneStep(e: Env, net: Net, name: string, id: string, ev: Event)
    requires name in net && Enabled(net[name], ev) && Feasible(net, name, id, ev) && FreshElsewhere(net, name, id)
    ensures NetStep(e, net, Move(name, ev), net[name := Apply(e, net[name], ev)])
  {
    hide Store.Enforced;
  }

  /** One agent's path is a path of the network, the others standing still. */
  lemma {:induction false} Lift(e: Env, start: Net, path: seq<Move>, net: Net, name: string, id: string,
                                evs: seq<Event>, b: Agent) returns (moves: seq<Move>)
    requires NetReaches(e, start, path, net) && name in net && Reaches(e, net[name], evs, b)
    requires FreshElsewhere(net, name, id) && forall ev | ev in evs :: Feasible(net, name, id, ev)
    ensures NetReaches(e, start, moves, net[name := b])
    decreases |evs|
  {
    hide Enabled, Apply, NetStep, Feasible, NetReaches;
    if evs == [] {
      assert net[name := b] == net;
      moves := path;
    } else {
      var last := |evs| - 1;
      var mid :| Reaches(e, net[name], evs[..last], mid) && Enabled(mid, evs[last]) && b == Apply(e, mid, evs[last]);
      moves := Lift(e, start, path, net, name, id, evs[..last], mid);
      var here := net[name := mid];
      FeasibleStays(net, name, mid, id, evs[last]);
      OneStep(e, here, name, id, evs[last]);
      assert here[name := b] == net[name := b];
      NetReachesNext(e, start, moves, here, Move(name, evs[last]), net[name := b]);
      moves := moves + [Move(name, evs[last])];
    }
  }

  lemma FeasibleStays(net: Net, name: string, mid: Agent, id: string, ev: Event)
    requires Feasible(net, name, id, ev) && FreshElsewhere(net, name, id)
    ensures Feasible(net[name := mid], name, id, ev) && FreshElsewhere(net[name := mid], name, id)
  {
    if ev.Deliver? {
      var other, ob :| other in net && other != name && ob in net[other].s.log.handed && ob.payload == ev.raw;
      assert other in net[name := mid] && ob in net[name := mid][other].s.log.handed;
    }
  }

  // ---------------------------------------------------------------- what an agent does by itself

  /** Steps of its own under one draw, and pump rounds. */
  predicate Uses(evs: seq<Event>, id: string) {
    forall ev | ev in evs ::
      (ev.Run? && ev.pick.draw.id == id) || (ev.Begin? && ev.req.PumpReq?)
      || (ev.Begin? && ev.req.SendReq? && ev.req.draw.id == id)
  }

  /** A stretch of one agent's path at time `now`, which keeps identity, trust and what is handed over. */
  ghost predicate Leads(e: Env, start: Agent, path: seq<Event>, a: Agent, id: string, now: int) {
    && Reaches(e, start, path, a) && Uses(path, id)
    && a.me == start.me && a.s.trust == start.s.trust && start.s.clock <= now && a.s.clock <= now
    && start.s.log.handed <= a.s.log.handed
  }

  lemma LeadsOn(e: Env, start: Agent, path: seq<Event>, a: Agent, tid: nat, pick: Pick, u: State, next: Option<Task>)
    returns (b: Agent)
    requires Leads(e, start, path, a, pick.draw.id, pick.now) && Moves(e, a, tid, pick, u, next)
    requires u.trust == a.s.trust && a.s.log.handed <= u.log.handed
    ensures b == a.(s := u.(clock := pick.now), threads := Continue(a.threads, tid, next))
    ensures Leads(e, start, path + [Run(tid, pick)], b, pick.draw.id, pick.now)
  {
    hide Reaches, Moves;
    b := MoveOn(e, start, path, a, tid, pick, u, next);
  }

  function At(a: Agent, d: Draw, now: int): Pick {
    Pick(now, a.s.db.lastSeq + 1, d, true, 0)
  }

  /** Log and queue, the second half of every message made here. */
  lemma LogsAndQueues(e: Env, start: Agent, path: seq<Event>, a: Agent, tid: nat,
                      inner: Inner, ob: Store.Outbound, after: After, d: Draw, now: int)
    returns (evs: seq<Event>, b: Agent)
    requires Leads(e, start, path, a, d.id, now) && tid in a.threads && a.threads[tid] == LogOut(inner, ob, after)
    ensures Leads(e, start, evs, b, d.id, now)
    ensures b.threads == Continue(a.threads, tid,
                                  if after == Stop then None else Some(Publish([ob], after == PublishAndMark)))
    ensures b.s.db.rows == if Store.HasId(a.s.db.rows, inner.id) then a.s.db.rows
                           else a.s.db.rows + [Store.RowOf(inner, Store.Out, ob.topic, a.s.db.lastSeq + 1)]
    ensures b.s.db.outbox == Store.EnqueueOutbound(a.s.db.outbox, ob)
    ensures b.s.log.built == a.s.log.built && b.s.log.stored == a.s.log.stored
  {
    hide Leads, Moves, Store.Insert, Store.HasId, Store.RowOf, Store.EnqueueOutbound, DoInsertOut;
    assert a.s.clock <= now by { LeadsBy(e, start, path, a, d.id, now); }
    var pick := At(a, d, now);
    LogMoves(e, a, tid, pick, inner, ob, after);
    LogDb(a.s, inner, ob.topic, pick.seqNo);
    Store.InsertIs(a.s.db, inner, Store.Out, ob.topic, pick.seqNo);
    b := LeadsOn(e, start, path, a, tid, pick, DoInsertOut(a.s, inner, ob.topic, pick.seqNo), Some(Enqueue(ob, after)));
    evs := path + [Run(tid, pick)];
    pick := At(b, d, now);
    QueueMoves(e, b, tid, pick, ob, after);
    b := LeadsOn(e, start, evs, b, tid, pick, Do(b.s, Queue(ob)),
                 if after == Stop then None else Some(Publish([ob], after == PublishAndMark)));
    evs := evs + [Run(tid, pick)];
  }

  lemma LeadsBy(e: Env, start: Agent, path: seq<Event>, a: Agent, id: string, now: int)
    requires Leads(e, start, path, a, id, now)
    ensures a.s.clock <= now && a.me == start.me && a.s.trust == start.s.trust
    ensures Reaches(e, start, path, a) && Uses(path, id)
    ensures start.s.log.handed <= a.s.log.handed
  {
    hide Reaches, Uses;
  }

  // ---------------------------------------------------------------- the sender

  /** An idle daemon can log, queue and hand over a message. */
  lemma Sends(e: Env, a: Agent, opts: BuildOpts, d: Draw, topic: string, now: int) returns (evs: seq<Event>, b: Agent)
    requires a.threads == map[] && a.s.clock <= now && UserOpts(opts) && d.id !in a.s.log.built
    requires BuildInner(e, a.me, opts, d).Ok? && !Store.HasId(a.s.db.rows, d.id)
    ensures Leads(e, a, evs, b, d.id, now) && b.threads == map[] && b.s.log.built.Keys <= a.s.log.built.Keys + {d.id}
    ensures var inner := BuildInner(e, a.me, opts, d).value;
            && OutboundOf(e, a.me, inner, topic, opts.unsigned) in b.s.log.handed
            && |b.s.db.rows| == |a.s.db.rows| + 1
            && var r := b.s.db.rows[|a.s.db.rows|];
               r.id == d.id && r.direction == Store.Out && r.state == Store.Sent
  {
    hide Leads, Moves, BuildInner, OutboundOf, Store.HasId, Store.RowOf, Store.RemoveOutbound, Store.EnqueueOutbound;
    var inner := BuildInner(e, a.me, opts, d).value;
    var ob := OutboundOf(e, a.me, inner, topic, opts.unsigned);
    Outbox.BuiltId(e, a.me, opts, d);
    evs, b := BegunSend(e, a, opts, d, topic, now);
    evs, b := LogsAndQueues(e, a, evs, b, HANDLER, inner, ob, PublishAndMark, d, now);
    evs, b := HandsOver(e, a, evs, b, HANDLER, ob, [], d, now);
    Store.RowIdentity(inner, Store.Out, topic, a.s.db.lastSeq + 1);
    assert ob.topic == topic && ob.id == d.id by { OutboundIs(e, a.me, inner, topic, opts.unsigned); }
    StartsPending(inner, topic, a.s.db.lastSeq + 1);
  }

  lemma OutboundIs(e: Env, me: Identity, inner: Inner, topic: string, unsigned: bool)
    ensures OutboundOf(e, me, inner, topic, unsigned)
         == Store.Outbound(inner.id, topic, Payload(e, me, inner, unsigned))
  {
  }

  lemma StartsPending(inner: Inner, topic: string, seqNo: int)
    ensures Store.RowOf(inner, Store.Out, topic, seqNo).state == Store.Pending
  {
  }

  lemma BegunSend(e: Env, a: Agent, opts: BuildOpts, d: Draw, topic: string, now: int)
    returns (evs: seq<Event>, b: Agent)
    requires a.threads == map[] && a.s.clock <= now && UserOpts(opts) && d.id !in a.s.log.built
    requires BuildInner(e, a.me, opts, d).Ok?
    ensures Leads(e, a, evs, b, d.id, now) && b.s.db == a.s.db && b.s.log.built.Keys <= a.s.log.built.Keys + {d.id}
    ensures var inner := BuildInner(e, a.me, opts, d).value;
            b.threads == map[HANDLER := LogOut(inner, OutboundOf(e, a.me, inner, topic, opts.unsigned), PublishAndMark)]
  {
    hide BuildInner, OutboundOf, Reaches;
    var ev := Begin(HANDLER, SendReq(opts, topic, d));
    Outbox.BuiltId(e, a.me, opts, d);
    RequestMoves(e, a, SendReq(opts, topic, d));
    ReachesStart(e, a);
    ReachesNext(e, a, [], a, ev);
    b, evs := Apply(e, a, ev), [] + [ev];
  }

  /** One payload is published, its row advances and its entry goes. */
  lemma HandsOver(e: Env, start: Agent, path: seq<Event>, a: Agent, tid: nat,
                  ob: Store.Outbound, rest: seq<Store.Outbound>, d: Draw, now: int)
    returns (evs: seq<Event>, b: Agent)
    requires Leads(e, start, path, a, d.id, now) && tid in a.threads && a.threads[tid] == Publish([ob] + rest, true)
    ensures Leads(e, start, evs, b, d.id, now) && b.threads == Continue(a.threads, tid, PublishNext(rest))
    ensures b.s.log.built == a.s.log.built
    ensures ob in b.s.log.handed && b.s.db.rows == Store.ApplyEvent(a.s.db.rows, ob.id, Store.HandOff)
  {
    hide Leads, Moves, Do, PublishNext, Store.ApplyEvent;
    LeadsBy(e, start, path, a, d.id, now);
    var pick := At(a, d, now);
    PublishMoves(e, a, tid, pick, ob, rest);
    assert Do(a.s, Hand(ob)) == a.s.(log := a.s.log.(handed := a.s.log.handed + [ob])) by { HandIs(a.s, ob); }
    b := LeadsOn(e, start, path, a, tid, pick, Do(a.s, Hand(ob)), Some(MarkSent(ob, rest)));
    evs := path + [Run(tid, pick)];
    evs, b := Marks(e, start, evs, b, tid, ob, rest, d, now);
  }

  lemma Marks(e: Env, start: Agent, path: seq<Event>, a: Agent, tid: nat,
              ob: Store.Outbound, rest: seq<Store.Outbound>, d: Draw, now: int)
    returns (evs: seq<Event>, b: Agent)
    requires Leads(e, start, path, a, d.id, now) && tid in a.threads && a.threads[tid] == MarkSent(ob, rest)
    ensures Leads(e, start, evs, b, d.id, now) && b.threads == Continue(a.threads, tid, PublishNext(rest))
    ensures b.s.log.built == a.s.log.built && b.s.log.handed == a.s.log.handed
    ensures b.s.db.rows == Store.ApplyEvent(a.s.db.rows, ob.id, Store.HandOff)
  {
    hide Leads, Moves, Do, PublishNext, Store.ApplyEvent;
    LeadsBy(e, start, path, a, d.id, now);
    var pick := At(a, d, now);
    MarkMoves(e, a, tid, pick, ob, rest);
    HandedOffIs(a.s, ob.id);
    b := LeadsOn(e, start, path, a, tid, pick, Do(a.s, HandedOff(ob.id)), Some(Dequeue(ob, rest)));
    evs := path + [Run(tid, pick)];
    pick := At(b, d, now);
    UnqueueMoves(e, b, tid, pick, ob, rest);
    UnqueueIs(b.s, ob.id);
    b := LeadsOn(e, start, evs, b, tid, pick, Do(b.s, Unqueue(ob.id)), PublishNext(rest));
    evs := evs + [Run(tid, pick)];
  }

  lemma HandIs(s: State, ob: Store.Outbound)
    ensures Do(s, Hand(ob)) == s.(log := s.log.(handed := s.log.handed + [ob]))
  {
  }

  // ---------------------------------------------------------------- the reader

  /** The grant guard lets the candidate through: it carries no grant still in force, or one not spent here. */
  predicate Unspent(a: Agent, c: Candidate) {
    c.guard.Some? ==> c.guard.value !in a.s.db.seenGrants
  }

  /** The loop stores a new candidate and goes on to the answer it owes. */
  lemma Stores(e: Env, start: Agent, path: seq<Event>, a: Agent, c: Candidate, r: Draw, now: int)
    returns (evs: seq<Event>, b: Agent)
    requires Leads(e, start, path, a, r.id, now) && a.threads == map[LOOP := EntryTask(c)]
    requires Unspent(a, c) && !Store.HasId(a.s.db.rows, c.inner.id)
    requires c.cfg.autoReceipts && Direct(a.me, c.inner.to)
    ensures Leads(e, start, evs, b, r.id, now) && b.threads == map[LOOP := DeliveryReceipt(c)]
    ensures b.s.log.built == a.s.log.built && b.s.db.outbox == a.s.db.outbox
    ensures exists m :: m in b.s.log.stored && m.cand == c
  {
    hide Leads, Store.HasId, EntryTask, Unspent, Direct;
    evs, b := Guarded(e, start, path, a, c, r, now);
    evs, b := Inserts(e, start, evs, b, c, r, now);
    var m :| m in b.s.log.stored && m.cand == c;
    evs, b := Evicts(e, start, evs, b, c, r, now);
    assert m in b.s.log.stored;
  }

  lemma Evicts(e: Env, start: Agent, path: seq<Event>, a: Agent, c: Candidate, r: Draw, now: int)
    returns (evs: seq<Event>, b: Agent)
    requires Leads(e, start, path, a, r.id, now) && a.threads == map[LOOP := Evict(c)]
    requires c.cfg.autoReceipts && Direct(a.me, c.inner.to)
    ensures Leads(e, start, evs, b, r.id, now) && b.threads == map[LOOP := DeliveryReceipt(c)]
    ensures b.s.log.built == a.s.log.built && b.s.db.outbox == a.s.db.outbox && b.s.log.stored == a.s.log.stored
  {
    hide Leads, Moves, DoDrop, Store.DropOldest, Store.Enforced, Direct;
    LeadsBy(e, start, path, a, r.id, now);
    var pick := At(a, r, now).(evict := DropCount(a.s.db.rows, c.cfg));
    EvictMoves(e, a, LOOP, pick, c);
    DropDb(a.s, pick.evict, now);
    b := LeadsOn(e, start, path, a, LOOP, pick, DoDrop(a.s, pick.evict, now), Some(DeliveryReceipt(c)));
    evs := path + [Run(LOOP, pick)];
  }

  lemma Inserts(e: Env, start: Agent, path: seq<Event>, a: Agent, c: Candidate, r: Draw, now: int)
    returns (evs: seq<Event>, b: Agent)
    requires Leads(e, start, path, a, r.id, now) && a.threads == map[LOOP := StoreIn(c)]
    requires !Store.HasId(a.s.db.rows, c.inner.id)
    ensures Leads(e, start, evs, b, r.id, now) && b.threads == map[LOOP := Evict(c)]
    ensures b.me == a.me && b.s.log.built == a.s.log.built && b.s.db.outbox == a.s.db.outbox
    ensures exists m :: m in b.s.log.stored && m.cand == c
  {
    hide Leads, Moves, DoInsertIn, Store.Insert, Store.HasId, Store.RowOf;
    LeadsBy(e, start, path, a, r.id, now);
    var pick := At(a, r, now);
    StoreMoves(e, a, LOOP, pick, c);
    StoreDb(a.s, c, pick.seqNo, now);
    Store.InsertIs(a.s.db, c.inner, Store.In, c.topic, pick.seqNo);
    HandedKept(a.s, c, pick.seqNo, now);
    b := LeadsOn(e, start, path, a, LOOP, pick, DoInsertIn(a.s, c, pick.seqNo, now), Some(Evict(c)));
    evs := path + [Run(LOOP, pick)];
    assert b.s.log.stored[|b.s.log.stored| - 1].cand == c;
  }

  lemma HandedKept(s: State, c: Candidate, seqNo: int, at: int)
    requires seqNo > s.db.lastSeq
    ensures DoInsertIn(s, c, seqNo, at).log.handed == s.log.handed
  {
    hide Store.HasId, Store.Insert;
  }

  lemma Guarded(e: Env, start: Agent, path: seq<Event>, a: Agent, c: Candidate, r: Draw, now: int)
    returns (evs: seq<Event>, b: Agent)
    requires Leads(e, start, path, a, r.id, now) && a.threads == map[LOOP := EntryTask(c)] && Unspent(a, c)
    ensures Leads(e, start, evs, b, r.id, now) && b.threads == map[LOOP := StoreIn(c)]
    ensures b.me == a.me && b.s.db.rows == a.s.db.rows && b.s.db.outbox == a.s.db.outbox
    ensures b.s.log.built == a.s.log.built
  {
    hide Leads, Moves, DoSpend;
    evs, b := path, a;
    if c.guard.Some? {
      LeadsBy(e, start, path, a, r.id, now);
      var pick := At(a, r, now);
      SpendMoves(e, a, LOOP, pick, c, c.guard.value);
      SpendDb(a.s, c, c.guard.value);
      b := LeadsOn(e, start, path, a, LOOP, pick, DoSpend(a.s, c, c.guard.value), Some(StoreIn(c)));
      evs := path + [Run(LOOP, pick)];
    }
  }

  /** The answer is built and queued, and a pump round hands it over. */
  lemma Answers(e: Env, start: Agent, path: seq<Event>, a: Agent, c: Candidate, r: Draw, now: int)
    returns (evs: seq<Event>, b: Agent)
    requires Leads(e, start, path, a, r.id, now) && a.threads == map[LOOP := DeliveryReceipt(c)]
    requires r.id !in a.s.log.built && forall o | o in a.s.db.outbox :: o.id != r.id
    ensures Leads(e, start, evs, b, r.id, now) && b.s.log.stored == a.s.log.stored
    ensures var inner := Draft(e, a.me, ReceiptOpts(c.inner.from, ReceiptInfo(c.inner.id, ReceiptStatus.Delivered)), r);
            OutboundOf(e, a.me, inner, c.topic, false) in b.s.log.handed
  {
    hide Leads, Moves, Draft, OutboundOf;
    LeadsBy(e, start, path, a, r.id, now);
    var info := ReceiptInfo(c.inner.id, ReceiptStatus.Delivered);
    var inner := Draft(e, a.me, ReceiptOpts(c.inner.from, info), r);
    var ob := OutboundOf(e, a.me, inner, c.topic, false);
    var pick := At(a, r, now);
    BuildMoves(e, a, LOOP, pick, c.inner.from, info, c.topic);
    b := LeadsOn(e, start, path, a, LOOP, pick, Do(a.s, Build(inner)), Some(LogOut(inner, ob, Stop)));
    evs := path + [Run(LOOP, pick)];
    evs, b := LogsAndQueues(e, start, evs, b, LOOP, inner, ob, Stop, r, now);
    assert inner.id == r.id by { DraftId(e, a.me, ReceiptOpts(c.inner.from, info), r); }
    assert ob.id == r.id by { OutboundIs(e, a.me, inner, c.topic, false); }
    assert b.s.db.outbox == a.s.db.outbox + [ob];
    evs, b := Pumps(e, start, evs, b, ob, r, now);
  }

  /** An idle daemon's pump can reach the last entry of the outbox, whatever the client refuses before it. */
  lemma Pumps(e: Env, start: Agent, path: seq<Event>, a: Agent, ob: Store.Outbound, r: Draw, now: int)
    returns (evs: seq<Event>, b: Agent)
    requires Leads(e, start, path, a, r.id, now) && a.threads == map[]
    requires a.s.db.outbox != [] && a.s.db.outbox[|a.s.db.outbox| - 1] == ob
    ensures Leads(e, start, evs, b, r.id, now) && ob in b.s.log.handed && b.s.log.stored == a.s.log.stored
  {
    hide Reaches;
    var ev := Begin(HANDLER, PumpReq);
    RequestMoves(e, a, PumpReq);
    ReachesNext(e, start, path, a, ev);
    b, evs := Apply(e, a, ev), path + [ev];
    evs, b := PumpsOn(e, start, evs, b, a.s.db.outbox, ob, r, now);
  }

  lemma {:induction false} PumpsOn(e: Env, start: Agent, path: seq<Event>, a: Agent, obs: seq<Store.Outbound>,
                                   ob: Store.Outbound, r: Draw, now: int)
    returns (evs: seq<Event>, b: Agent)
    requires Leads(e, start, path, a, r.id, now) && a.threads == map[HANDLER := Publish(obs, true)]
    requires obs != [] && obs[|obs| - 1] == ob
    ensures Leads(e, start, evs, b, r.id, now) && ob in b.s.log.handed && b.s.log.stored == a.s.log.stored
    decreases |obs|
  {
    hide Leads, Moves, Do;
    LeadsBy(e, start, path, a, r.id, now);
    var here, rest := obs[0], obs[1..];
    assert obs == [here] + rest;
    var pick := At(a, r, now).(published := rest == []);
    PublishMoves(e, a, HANDLER, pick, here, rest);
    var u := if rest == [] then Do(a.s, Hand(here)) else a.s;
    HandIs(a.s, here);
    b := LeadsOn(e, start, path, a, HANDLER, pick, u,
                 if rest == [] then Some(MarkSent(here, rest)) else PublishNext(rest));
    evs := path + [Run(HANDLER, pick)];
    if rest != [] {
      evs, b := PumpsOn(e, start, evs, b, rest, ob, r, now);
    }
  }

  // ---------------------------------------------------------------- there and back

  /**
    Alice's message to Bob can be made and read at time `now`, and so can Bob's receipt for it: each recognises the
    other, size, clock and grant allow it, ids are fresh, and the grant, if any, is not spent.
   */
  ghost predicate Deliverable(e: Env, alice: Agent, bob: Agent, opts: BuildOpts, d: Draw, r: Draw,
                              cfgA: Config, cfgB: Config, now: int) {
    && Ordinary(opts) && UserOpts(opts) && opts.to == bob.me.name && opts.to != BROADCAST
    && (opts.encryptTo.Some? ==> opts.encryptTo.value == e.ekOf(bob.me.dk)) && alice.me.name != bob.me.name
    && SenderRecognised(e, alice.me, opts.unsigned, bob.s.trust, cfgB)
    && SenderRecognised(e, bob.me, false, alice.s.trust, cfgA)
    && SizeAccepted(opts, cfgB) && ClockAccepted(e, d, cfgB, now) && ClockAccepted(e, r, cfgA, now)
    && GrantAccepted(e, alice.me, opts, bob.s.trust, now) && cfgB.autoReceipts
    && (opts.grant.Some? ==> Grant.Verify(e, opts.grant.value, bob.s.trust, now).value.id !in bob.s.db.seenGrants)
  }

  /** Both are idle and the ids new to them. */
  predicate Ready(alice: Agent, bob: Agent, d: Draw, r: Draw, now: int) {
    && alice.threads == map[] && bob.threads == map[] && alice.s.clock <= now && bob.s.clock <= now
    && d.id !in alice.s.log.built && !Store.HasId(alice.s.db.rows, d.id) && !Store.HasId(bob.s.db.rows, d.id)
    && r.id !in bob.s.log.built && (forall o | o in bob.s.db.outbox :: o.id != r.id) && d.id != r.id
  }

  /** Bob takes the message in as it was meant, and is free to store it. */
  lemma TakesIn(e: Env, alice: Agent, bob: Agent, opts: BuildOpts, d: Draw, r: Draw, topic: string,
                cfgA: Config, cfgB: Config, now: int) returns (ev: Event, c: Candidate)
    requires Laws(e) && Deliverable(e, alice, bob, opts, d, r, cfgA, cfgB, now)
    requires bob.threads == map[] && bob.s.clock <= now && BuildInner(e, alice.me, opts, d).Ok?
    ensures ev == Deliver(Payload(e, alice.me, BuildInner(e, alice.me, opts, d).value, opts.unsigned), topic, cfgB,
                          Readings(now, now, now))
    ensures Enabled(bob, ev) && Delivers(c.inner, alice.me, opts, d) && c.inner.id == d.id
    ensures c.cfg == cfgB && cfgB.autoReceipts && Direct(bob.me, c.inner.to) && Unspent(bob, c)
    ensures var a := Apply(e, bob, ev);
            && a.threads == map[LOOP := EntryTask(c)] && a.s.db == bob.s.db && a.s.log.built == bob.s.log.built
            && a.me == bob.me && a.s.clock == now
  {
    hide Judge, BuildInner, Payload, SenderRecognised, SizeAccepted, ClockAccepted, Grant.Verify, VerifyIncoming;
    var t := Readings(now, now, now);
    MessageIsAccepted(e, alice.me, bob.me, opts, d, topic, bob.s.trust, cfgB, t);
    ev := Deliver(Payload(e, alice.me, BuildInner(e, alice.me, opts, d).value, opts.unsigned), topic, cfgB, t);
    c := JudgeFor(e, bob, ev).cand;
    Ingest.JudgedAccepted(e, bob, ev);
    ArriveMoves(e, bob, ev);
  }

  /** He stores it and hands the receipt over. */
  lemma Reads(e: Env, a: Agent, c: Candidate, r: Draw, now: int) returns (evs: seq<Event>, b: Agent)
    requires a.threads == map[LOOP := EntryTask(c)] && a.s.clock <= now
    requires Unspent(a, c) && !Store.HasId(a.s.db.rows, c.inner.id)
    requires c.cfg.autoReceipts && Direct(a.me, c.inner.to)
    requires r.id !in a.s.log.built && forall o | o in a.s.db.outbox :: o.id != r.id
    ensures Leads(e, a, evs, b, r.id, now) && exists m :: m in b.s.log.stored && m.cand == c
    ensures var inner := Draft(e, a.me, ReceiptOpts(c.inner.from, ReceiptInfo(c.inner.id, ReceiptStatus.Delivered)), r);
            OutboundOf(e, a.me, inner, c.topic, false) in b.s.log.handed
  {
    hide Leads, Draft, OutboundOf, Store.HasId, Unspent, Direct, EntryTask;
    LeadsStart(e, a, r.id, now);
    evs, b := Stores(e, a, [], a, c, r, now);
    LeadsBy(e, a, evs, b, r.id, now);
    var m :| m in b.s.log.stored && m.cand == c;
    evs, b := Answers(e, a, evs, b, c, r, now);
    assert m in b.s.log.stored;
  }

  lemma LeadsStart(e: Env, a: Agent, id: string, now: int)
    requires a.s.clock <= now
    ensures Leads(e, a, [], a, id, now)
  {
    ReachesStart(e, a);
  }

  lemma DeliverStep(e: Env, net: Net, name: string, other: string, ob: Store.Outbound, ev: Event)
    requires name in net && ev.Deliver? && Enabled(net[name], ev)
    requires other in net && ob in net[other].s.log.handed && ob.payload == ev.raw
    ensures NetStep(e, net, Move(name, ev), net[name := Apply(e, net[name], ev)])
  {
    hide Apply, Enabled;
  }

  /** The receipt reaches Alice, and the row of her message is delivered. */
  lemma Reported(e: Env, a: Agent, bob: Identity, c: Candidate, r: Draw, topic: string, cfg: Config, now: int, i: nat)
    requires Laws(e) && a.threads == map[] && a.s.clock <= now && i < |a.s.db.rows|
    requires a.s.db.rows[i].id == c.inner.id && a.s.db.rows[i].direction == Store.Out
    requires a.s.db.rows[i].state == Store.Sent
    requires SenderRecognised(e, bob, false, a.s.trust, cfg) && bob.name != a.me.name && ClockAccepted(e, r, cfg, now)
    ensures var inner := Draft(e, bob, ReceiptOpts(c.inner.from, ReceiptInfo(c.inner.id, ReceiptStatus.Delivered)), r);
            var ev := Deliver(Payload(e, bob, inner, false), topic, cfg, Readings(now, now, now));
            && Enabled(a, ev) && |Apply(e, a, ev).s.db.rows| == |a.s.db.rows|
            && Apply(e, a, ev).s.db.rows[i] == a.s.db.rows[i].(state := Store.DeliveryState.Delivered)
  {
    hide Judge, Draft, Payload, SenderRecognised, ClockAccepted, Laws, Enabled, Apply;
    var info := ReceiptInfo(c.inner.id, ReceiptStatus.Delivered);
    var inner := Draft(e, bob, ReceiptOpts(c.inner.from, info), r);
    var t := Readings(now, now, now);
    var ev := Deliver(Payload(e, bob, inner, false), topic, cfg, t);
    ReceiptJudged(e, bob, a.me, c.inner.from, info, r, topic, a.s.trust, cfg, t);
    DeliverEnabled(a, ev.raw, topic, cfg, t);
    ReceiptTakesEffect(e, a, ev);
  }

  /**
    Whatever the network has been through: while both are idle, a direct message that is deliverable can be sent,
    stored as it was meant, and reported back, so that the sender's row of it ends up delivered.
   */
  lemma MessageGetsThrough(e: Env, net: Net, a: string, b: string, opts: BuildOpts, d: Draw, r: Draw, topic: string,
                           cfgA: Config, cfgB: Config, now: int)
    returns (moves: seq<Move>, next: Net)
    requires a in net && b in net && net[a].me.name == a && net[b].me.name == b
    requires Laws(e) && Deliverable(e, net[a], net[b], opts, d, r, cfgA, cfgB, now)
    requires Ready(net[a], net[b], d, r, now) && FreshElsewhere(net, a, d.id) && FreshElsewhere(net, b, r.id)
    ensures NetReaches(e, net, moves, next) && a in next && b in next
    ensures exists row :: row in next[a].s.db.rows && row.id == d.id && row.direction == Store.Out
                          && row.state == Store.DeliveryState.Delivered
    ensures exists m :: m in next[b].s.log.stored && Delivers(m.cand.inner, net[a].me, opts, d)
  {
    hide Leads, NetReaches, NetStep, Reaches, Deliverable, BuildInner, Payload, Draft, OutboundOf, Apply, Enabled,
      Delivers, Store.HasId;
    Builds(e, net[a], net[b], opts, d, r, topic, cfgA, cfgB, now);
    var wire := BuildInner(e, net[a].me, opts, d).value;
    var sent, a1 := Sends(e, net[a], opts, d, topic, now);
    LeadsBy(e, net[a], sent, a1, d.id, now);
    NetReachesStart(e, net);
    OwnSteps(net, a, d.id, sent);
    moves := Lift(e, net, [], net, a, d.id, sent, a1);
    var net1 := net[a := a1];
    var ev, c := TakesIn(e, net[a], net[b], opts, d, r, topic, cfgA, cfgB, now);
    var read, b1 := Reads(e, Apply(e, net[b], ev), c, r, now);
    OutboundIs(e, net[a].me, wire, topic, opts.unsigned);
    DeliverStep(e, net1, b, a, OutboundOf(e, net[a].me, wire, topic, opts.unsigned), ev);
    var net2 := net1[b := Apply(e, net[b], ev)];
    NetReachesNext(e, net, moves, net1, Move(b, ev), net2);
    moves := moves + [Move(b, ev)];
    LeadsBy(e, net2[b], read, b1, r.id, now);
    OwnSteps(net2, b, r.id, read);
    assert FreshElsewhere(net2, b, r.id);
    moves := Lift(e, net, moves, net2, b, r.id, read, b1);
    var net3 := net2[b := b1];
    moves, next := Comes(e, net, moves, net3, a, b, c, r, topic, cfgA, now, |net[a].s.db.rows|);
  }

  lemma Comes(e: Env, start: Net, path: seq<Move>, net: Net, a: string, b: string, c: Candidate, r: Draw,
              topic: string, cfg: Config, now: int, i: nat) returns (moves: seq<Move>, next: Net)
    requires NetReaches(e, start, path, net) && a in net && b in net && a != b
    requires net[a].me.name == a && net[b].me.name == b
    requires Laws(e) && net[a].threads == map[] && net[a].s.clock <= now && i < |net[a].s.db.rows|
    requires net[a].s.db.rows[i].id == c.inner.id && net[a].s.db.rows[i].direction == Store.Out
    requires net[a].s.db.rows[i].state == Store.Sent
    requires SenderRecognised(e, net[b].me, false, net[a].s.trust, cfg) && ClockAccepted(e, r, cfg, now)
    requires var info := ReceiptInfo(c.inner.id, ReceiptStatus.Delivered);
             OutboundOf(e, net[b].me, Draft(e, net[b].me, ReceiptOpts(c.inner.from, info), r), c.topic, false)
             in net[b].s.log.handed
    ensures NetReaches(e, start, moves, next) && next.Keys == net.Keys && next[b] == net[b]
    ensures exists row :: row in next[a].s.db.rows && row.id == c.inner.id && row.direction == Store.Out
                          && row.state == Store.DeliveryState.Delivered
  {
    hide NetReaches, NetStep, Draft, OutboundOf, Payload, SenderRecognised, ClockAccepted, Laws, Apply, Enabled;
    var inner := Draft(e, net[b].me, ReceiptOpts(c.inner.from, ReceiptInfo(c.inner.id, ReceiptStatus.Delivered)), r);
    Reported(e, net[a], net[b].me, c, r, topic, cfg, now, i);
    var ev := Deliver(Payload(e, net[b].me, inner, false), topic, cfg, Readings(now, now, now));
    OutboundIs(e, net[b].me, inner, c.topic, false);
    DeliverStep(e, net, a, b, OutboundOf(e, net[b].me, inner, c.topic, false), ev);
    next := net[a := Apply(e, net[a], ev)];
    NetReachesNext(e, start, path, net, Move(a, ev), next);
    moves := path + [Move(a, ev)];
    assert next[a].s.db.rows[i] in next[a].s.db.rows;
  }

  lemma NetReachesStart(e: Env, net: Net)
    ensures NetReaches(e, net, [], net)
  {
  }

  lemma OwnSteps(net: Net, name: string, id: string, evs: seq<Event>)
    requires Uses(evs, id)
    ensures forall ev | ev in evs :: Feasible(net, name, id, ev)
  {
  }

  lemma Builds(e: Env, alice: Agent, bob: Agent, opts: BuildOpts, d: Draw, r: Draw, topic: string,
               cfgA: Config, cfgB: Config, now: int)
    requires Laws(e) && Deliverable(e, alice, bob, opts, d, r, cfgA, cfgB, now)
    ensures BuildInner(e, alice.me, opts, d).Ok? && UserOpts(opts) && alice.me.name != bob.me.name
    ensures SenderRecognised(e, bob.me, false, alice.s.trust, cfgA) && ClockAccepted(e, r, cfgA, now)
  {
    hide SenderRecognised, SizeAccepted, ClockAccepted, Grant.Verify, BuildInner, Laws;
    MessageIsAccepted(e, alice.me, bob.me, opts, d, topic, bob.s.trust, cfgB, Readings(now, now, now));
  }
}
