/**
  The daemon as a step system (src/daemon.rs). Every store statement, publish and map update is one atomic act;
  the event loop and the request threads interleave freely between acts, and a crash may strike between any two.
 */
module Steps {
  import opened Prelude
  import opened Wire
  import opened Env
  import opened Message
  import opened MessageProofs
  import Grant
  import Store
  import Trust

  // ---------------------------------------------------------------- state

  datatype PendingPair = PendingPair(
    name: string, publicKey: Bytes, kemPublicKey: Option<Bytes>, sas: string, firstSeen: string)

  /** An accepted message on its way into the store, with the trust, configuration and clock it was judged by. */
  datatype Candidate = Candidate(
    raw: Bytes, inner: Inner, topic: string, cfg: Config, trust: Trust.Trust, t: Readings, guard: Option<string>)

  datatype After = Stop | PublishOnly | PublishAndMark

  /** What a thread does next. */
  datatype Task =
    | CheckGrant(cand: Candidate, grantId: string)
    | StoreIn(cand: Candidate)
    | Evict(cand: Candidate)
    | MakeReceipt(to: string, info: ReceiptInfo, topic: string)
    | LogOut(inner: Inner, ob: Store.Outbound, after: After)
    | Enqueue(ob: Store.Outbound, after: After)
    | Publish(obs: seq<Store.Outbound>, mark: bool)
    | MarkSent(ob: Store.Outbound, rest: seq<Store.Outbound>)
    | Dequeue(ob: Store.Outbound, rest: seq<Store.Outbound>)
    | AckedRow(seqNo: int, autoReceipts: bool)
    | AddTrust(entry: PendingPair)
    | ForgetPair(name: string)

  /** How one received payload ended. */
  datatype Ending = Echo | Pairing | Beacon | ReceiptSeen | Rejected | Duplicate | Stored | Lost

  datatype Outcome = Outcome(raw: Bytes, ending: Ending)

  datatype StoredMsg = StoredMsg(cand: Candidate, seqNo: int, at: int)

  /** What has happened so far; no step reads it. `evicted` gives the time at which a row number was first removed. */
  datatype Log = Log(
    received: seq<Bytes>, ended: seq<Outcome>, stored: seq<StoredMsg>, evicted: map<int, int>, evictedIds: set<string>,
    built: map<string, Inner>, logged: set<string>, queued: set<string>, handed: seq<Store.Outbound>)

  datatype State = State(
    db: Store.Db, trust: Trust.Trust, pending: map<string, PendingPair>, clock: int, log: Log)

  /** Thread 0 is the broker's event loop, the others serve requests, the pump and subscribers. */
  datatype Agent = Agent(me: Identity, s: State, threads: map<nat, Task>)

  const LOOP: nat := 0

  // ---------------------------------------------------------------- judging a payload

  datatype Verdict =
    | OwnEcho
    | Hello(entry: PendingPair)
    | Refused(rejection: Store.Rejection)
    | Presence(agent: string, row: Option<Store.PresenceRow>)
    | Receipted(receipt: Option<ReceiptInfo>)
    | Accepted(cand: Candidate)

  function GuardId(e: Env, inner: Inner, trust: Trust.Trust, now: int): Option<string> {
    if inner.grant.None? then None
    else
      match Grant.Verify(e, inner.grant.value, trust, now)
      case Ok(claims) => Some(claims.id)
      case Err(_) => None
  }

  function JudgeHello(e: Env, me: Identity, raw: Bytes, peek: Inner, topic: string): Verdict {
    match VerifyPair(e, raw)
    case Ok(hello) =>
      Hello(PendingPair(hello.name, hello.publicKey, hello.kemPublicKey, e.sas(e.pkOf(me.sk), hello.publicKey),
                        peek.ts))
    case Err(reason) => Refused(Store.Rejection(reason, Some(peek.from), topic, "pairing hello"))
  }

  function JudgeMessage(e: Env, me: Identity, raw: Bytes, topic: string, trust: Trust.Trust, cfg: Config, t: Readings)
    : Verdict
  {
    match VerifyIncoming(e, raw, me, trust, cfg, t)
    case Err(info) => Refused(Store.Rejection(info.reason, info.claimedSender, topic, ""))
    case Ok(inner) =>
      if inner.ctype == CTYPE_PRESENCE then
        match e.beacon.parse(inner.body)
        case Some(beacon) => Presence(inner.from, Some(Store.PresenceRow(beacon, inner.ts)))
        case None => Presence(inner.from, None)
      else if inner.kind == Receipt || inner.ctype == CTYPE_RECEIPT then Receipted(inner.receipt)
      else Accepted(Candidate(raw, inner, topic, cfg, trust, t, GuardId(e, inner, trust, t.guardAt)))
  }

  /** The ingest closure up to its first store statement. */
  function Judge(e: Env, me: Identity, raw: Bytes, topic: string, trust: Trust.Trust, cfg: Config, t: Readings)
    : Verdict
  {
    match e.wrapper.parse(raw)
    case None => JudgeMessage(e, me, raw, topic, trust, cfg, t)
    case Some(w) =>
      if ClaimedSender(w) == Some(me.name) then OwnEcho
      else
        match UnwrapInner(e, w)
        case None => JudgeMessage(e, me, raw, topic, trust, cfg, t)
        case Some(peek) =>
          if peek.ctype == CTYPE_PAIR then JudgeHello(e, me, raw, peek, topic)
          else JudgeMessage(e, me, raw, topic, trust, cfg, t)
  }

  // ---------------------------------------------------------------- acts

  datatype Act =
    | Idle
    | Arrive(raw: Bytes, verdict: Verdict)
    | Spend(cand: Candidate, grantId: string)
    | InsertIn(cand: Candidate, seqNo: int, at: int)
    | Drop(count: nat, at: int)
    | Build(inner: Inner)
    | InsertOut(inner: Inner, topic: string, seqNo: int)
    | Queue(ob: Store.Outbound)
    | Hand(ob: Store.Outbound)
    | HandedOff(id: string)
    | Unqueue(id: string)
    | MoveCursor(consumer: string, seqNo: int)
    | Pair(entry: PendingPair)
    | Forget(name: string)

  function EndingOf(v: Verdict): seq<Ending> {
    match v
    case OwnEcho => [Echo]
    case Hello(_) => [Pairing]
    case Refused(_) => [Rejected]
    case Presence(_, _) => [Beacon]
    case Receipted(_) => [ReceiptSeen]
    case Accepted(_) => []
  }

  function Ends(raw: Bytes, endings: seq<Ending>): seq<Outcome> {
    if endings == [] then [] else [Outcome(raw, endings[0])]
  }

  function ReceiptEvent(status: ReceiptStatus): Store.DeliveryEvent {
    if status.Delivered? then Store.DeliveryReceipt else Store.ReadReceipt
  }

  function ArriveDb(db: Store.Db, v: Verdict): Store.Db {
    match v
    case Refused(rejection) => db.(rejections := db.rejections + [rejection])
    case Presence(agent, Some(row)) => db.(presence := Store.UpsertPresence(db.presence, agent, row))
    case Receipted(Some(info)) => db.(rows := Store.ApplyEvent(db.rows, info.refId, ReceiptEvent(info.status)))
    case _ => db
  }

  function ArrivePending(pending: map<string, PendingPair>, v: Verdict): map<string, PendingPair> {
    if v.Hello? && v.entry.name !in pending then pending[v.entry.name := v.entry] else pending
  }

  function ReplayRejection(c: Candidate): Store.Rejection {
    Store.Rejection(ReplayedGrant, Some(c.inner.from), c.topic, "")
  }

  function DroppedSeqs(rows: seq<Store.Row>, kept: seq<Store.Row>): set<int> {
    set r | r in rows && r !in kept :: r.seqNo
  }

  function DroppedIds(rows: seq<Store.Row>, kept: seq<Store.Row>): set<string> {
    set r | r in rows && r !in kept :: r.id
  }

  predicate Possible(s: State, act: Act) {
    match act
    case InsertIn(_, seqNo, _) => seqNo > s.db.lastSeq
    case InsertOut(_, _, seqNo) => seqNo > s.db.lastSeq
    case _ => true
  }

  function DoSpend(s: State, c: Candidate, grantId: string): State {
    if grantId in s.db.seenGrants then
      s.(db := s.db.(rejections := s.db.rejections + [ReplayRejection(c)]),
         log := s.log.(ended := s.log.ended + [Outcome(c.raw, Rejected)]))
    else s.(db := s.db.(seenGrants := s.db.seenGrants + {grantId}))
  }

  function DoInsertIn(s: State, c: Candidate, seqNo: int, at: int): State
    requires seqNo > s.db.lastSeq
  {
    if Store.HasId(s.db.rows, c.inner.id) then
      s.(log := s.log.(ended := s.log.ended + [Outcome(c.raw, Duplicate)]))
    else
      s.(db := Store.Insert(s.db, c.inner, Store.In, c.topic, seqNo),
         log := s.log.(ended := s.log.ended + [Outcome(c.raw, Stored)],
                       stored := s.log.stored + [StoredMsg(c, seqNo, at)]))
  }

  function DoDrop(s: State, count: nat, at: int): State {
    var kept := Store.DropOldest(s.db.rows, count);
    s.(db := s.db.(rows := kept),
       log := s.log.(evicted := (map n | n in DroppedSeqs(s.db.rows, kept) :: at) + s.log.evicted,
                     evictedIds := s.log.evictedIds + DroppedIds(s.db.rows, kept)))
  }

  function DoInsertOut(s: State, inner: Inner, topic: string, seqNo: int): State
    requires seqNo > s.db.lastSeq
  {
    if Store.HasId(s.db.rows, inner.id) then s
    else
      s.(db := Store.Insert(s.db, inner, Store.Out, topic, seqNo), log := s.log.(logged := s.log.logged + {inner.id}))
  }

  function Do(s: State, act: Act): State
    requires Possible(s, act)
  {
    match act
    case Idle => s
    case Arrive(raw, v) =>
      s.(db := ArriveDb(s.db, v), pending := ArrivePending(s.pending, v),
         log := s.log.(received := s.log.received + [raw], ended := s.log.ended + Ends(raw, EndingOf(v))))
    case Spend(c, grantId) => DoSpend(s, c, grantId)
    case InsertIn(c, seqNo, at) => DoInsertIn(s, c, seqNo, at)
    case Drop(count, at) => DoDrop(s, count, at)
    case Build(inner) => s.(log := s.log.(built := s.log.built[inner.id := inner]))
    case InsertOut(inner, topic, seqNo) => DoInsertOut(s, inner, topic, seqNo)
    case Queue(ob) =>
      s.(db := s.db.(outbox := Store.EnqueueOutbound(s.db.outbox, ob)),
         log := s.log.(queued := s.log.queued + {ob.id}))
    case Hand(ob) => s.(log := s.log.(handed := s.log.handed + [ob]))
    case HandedOff(id) => s.(db := s.db.(rows := Store.ApplyEvent(s.db.rows, id, Store.HandOff)))
    case Unqueue(id) => s.(db := s.db.(outbox := Store.RemoveOutbound(s.db.outbox, id)))
    case MoveCursor(consumer, seqNo) =>
      s.(db := s.db.(cursors := Store.AckCursor(s.db.cursors, consumer, seqNo)))
    case Pair(p) => s.(trust := Trust.AddWithKem(s.trust, p.name, p.publicKey, p.kemPublicKey))
    case Forget(name) => s.(pending := s.pending - {name})
  }

  // ---------------------------------------------------------------- the program of each thread

  /** What the scheduler, the clock, the client and the random generator contribute to one act. */
  datatype Pick = Pick(now: int, seqNo: int, draw: Draw, published: bool, evict: nat)

  function ReceiptOpts(to: string, info: ReceiptInfo): BuildOpts {
    DefaultOpts(to, CTYPE_RECEIPT, "").(kind := Receipt, receipt := Some(info))
  }

  function OutboundOf(e: Env, me: Identity, inner: Inner, topic: string, unsigned: bool): Store.Outbound {
    Store.Outbound(inner.id, topic, Payload(e, me, inner, unsigned))
  }

  predicate Direct(me: Identity, to: string) {
    to == me.name && to != BROADCAST
  }

  function EntryTask(c: Candidate): Task {
    if c.guard.Some? then CheckGrant(c, c.guard.value) else StoreIn(c)
  }

  function PublishNext(obs: seq<Store.Outbound>): Option<Task> {
    if obs == [] then None else Some(Publish(obs, true))
  }

  function AfterPublish(ob: Store.Outbound, rest: seq<Store.Outbound>, mark: bool, published: bool): Option<Task> {
    if !mark then None
    else if published then Some(MarkSent(ob, rest))
    else PublishNext(rest)
  }

  function AfterAck(me: Identity, db: Store.Db, seqNo: int, autoReceipts: bool): Option<Task> {
    match Store.MessageBySeq(db.rows, seqNo)
    case None => None
    case Some(m) =>
      if autoReceipts && m.direction == Store.In && Direct(me, m.recipient)
      then Some(MakeReceipt(m.sender, ReceiptInfo(m.id, ReceiptStatus.Read), m.topic)) else None
  }

  function ActOf(e: Env, a: Agent, task: Task, pick: Pick): Act {
    match task
    case CheckGrant(c, grantId) => Spend(c, grantId)
    case StoreIn(c) => InsertIn(c, pick.seqNo, pick.now)
    case Evict(c) => Drop(pick.evict, pick.now)
    case MakeReceipt(to, info, topic) => Build(Draft(e, a.me, ReceiptOpts(to, info), pick.draw))
    case LogOut(inner, ob, after) => InsertOut(inner, ob.topic, pick.seqNo)
    case Enqueue(ob, after) => Queue(ob)
    case Publish(obs, mark) => if obs != [] && pick.published then Hand(obs[0]) else Idle
    case MarkSent(ob, rest) => HandedOff(ob.id)
    case Dequeue(ob, rest) => Unqueue(ob.id)
    case AckedRow(seqNo, autoReceipts) => Idle
    case AddTrust(entry) => Pair(entry)
    case ForgetPair(name) => Forget(name)
  }

  function NextOf(e: Env, a: Agent, task: Task, pick: Pick): Option<Task> {
    match task
    case CheckGrant(c, grantId) => if grantId in a.s.db.seenGrants then None else Some(StoreIn(c))
    case StoreIn(c) => if Store.HasId(a.s.db.rows, c.inner.id) then None else Some(Evict(c))
    case Evict(c) =>
      if c.cfg.autoReceipts && Direct(a.me, c.inner.to)
      then Some(MakeReceipt(c.inner.from, ReceiptInfo(c.inner.id, ReceiptStatus.Delivered), c.topic)) else None
    case MakeReceipt(to, info, topic) =>
      var inner := Draft(e, a.me, ReceiptOpts(to, info), pick.draw);
      Some(LogOut(inner, OutboundOf(e, a.me, inner, topic, false), Stop))
    case LogOut(inner, ob, after) => Some(Enqueue(ob, after))
    case Enqueue(ob, after) => if after == Stop then None else Some(Publish([ob], after == PublishAndMark))
    case Publish(obs, mark) => if obs == [] then None else AfterPublish(obs[0], obs[1..], mark, pick.published)
    case MarkSent(ob, rest) => Some(Dequeue(ob, rest))
    case Dequeue(ob, rest) => PublishNext(rest)
    case AckedRow(seqNo, autoReceipts) => AfterAck(a.me, a.s.db, seqNo, autoReceipts)
    case AddTrust(entry) => Some(ForgetPair(entry.name))
    case ForgetPair(name) => None
  }

  datatype Request =
    | SendReq(opts: BuildOpts, topic: string, draw: Draw)
    | AnnounceReq(opts: BuildOpts, topic: string, draw: Draw, publish: bool)
    | PumpReq
    | AckReq(consumer: string, seqNo: int, autoReceipts: bool)
    | ConfirmReq(name: string)

  function FirstAct(e: Env, a: Agent, req: Request): Act {
    match req
    case SendReq(opts, topic, draw) =>
      (match BuildInner(e, a.me, opts, draw)
       case Ok(inner) => Build(inner)
       case Err(_) => Idle)
    case AnnounceReq(opts, topic, draw, publish) => Build(Draft(e, a.me, opts, draw))
    case PumpReq => Idle
    case AckReq(consumer, seqNo, autoReceipts) => MoveCursor(consumer, seqNo)
    case ConfirmReq(name) => Idle
  }

  function FirstTask(e: Env, a: Agent, req: Request): Option<Task> {
    match req
    case SendReq(opts, topic, draw) =>
      (match BuildInner(e, a.me, opts, draw)
       case Ok(inner) => Some(LogOut(inner, OutboundOf(e, a.me, inner, topic, opts.unsigned), PublishAndMark))
       case Err(_) => None)
    case AnnounceReq(opts, topic, draw, publish) =>
      var inner := Draft(e, a.me, opts, draw);
      Some(Enqueue(OutboundOf(e, a.me, inner, topic, false), if publish then PublishOnly else Stop))
    case PumpReq => PublishNext(a.s.db.outbox)
    case AckReq(consumer, seqNo, autoReceipts) => Some(AckedRow(seqNo, autoReceipts))
    case ConfirmReq(name) => if name in a.s.pending then Some(AddTrust(a.s.pending[name])) else None
  }

  // ---------------------------------------------------------------- events

  datatype Event =
    | Deliver(raw: Bytes, topic: string, cfg: Config, t: Readings)
    | Begin(tid: nat, req: Request)
    | Run(tid: nat, pick: Pick)
    | EditTrust(trust: Trust.Trust)
    | Crash

  predicate UserOpts(opts: BuildOpts) {
    opts.receipt == None
  }

  /** Ids are globally fresh and only receipts the daemon makes itself carry receipt data. */
  predicate ReqEnabled(a: Agent, req: Request) {
    match req
    case SendReq(opts, _, draw) => UserOpts(opts) && draw.id !in a.s.log.built
    case AnnounceReq(opts, _, draw, _) =>
      UserOpts(opts) && opts.to == BROADCAST && opts.kind == Message && draw.id !in a.s.log.built
    case _ => true
  }

  /** Row numbers are unused, ids fresh, the clock does not run back; a crash may cut an eviction short. */
  predicate PickEnabled(a: Agent, task: Task, pick: Pick) {
    && pick.now >= a.s.clock && pick.seqNo > a.s.db.lastSeq
    && (task.MakeReceipt? ==> pick.draw.id !in a.s.log.built)
    && (task.Evict? ==>
          pick.evict
          <= |a.s.db.rows| - |Store.Enforced(a.s.db.rows, task.cand.cfg.maxMessages, task.cand.cfg.maxBytes)|)
  }

  predicate Enabled(a: Agent, ev: Event) {
    match ev
    case Deliver(_, _, _, t) => LOOP !in a.threads && a.s.clock <= t.freshAt <= t.grantAt <= t.guardAt
    case Begin(tid, req) => tid != LOOP && tid !in a.threads && ReqEnabled(a, req)
    case Run(tid, pick) => tid in a.threads && PickEnabled(a, a.threads[tid], pick)
    case EditTrust(_) => true
    case Crash => true
  }

  function Continue(threads: map<nat, Task>, tid: nat, next: Option<Task>): map<nat, Task> {
    if next.Some? then threads[tid := next.value] else threads - {tid}
  }

  /** The payload the event loop holds and has not yet disposed of. */
  function InFlight(threads: map<nat, Task>): seq<Bytes> {
    if LOOP in threads && (threads[LOOP].CheckGrant? || threads[LOOP].StoreIn?) then [threads[LOOP].cand.raw] else []
  }

  function LostOf(raws: seq<Bytes>): seq<Outcome> {
    if raws == [] then [] else [Outcome(raws[0], Lost)]
  }

  /** Memory goes, the database and the trust file stay. */
  function Crashed(a: Agent): Agent {
    a.(threads := map[],
       s := a.s.(pending := map[],
                 log := a.s.log.(ended := a.s.log.ended + LostOf(InFlight(a.threads)))))
  }

  function JudgeFor(e: Env, a: Agent, ev: Event): Verdict
    requires ev.Deliver?
  {
    Judge(e, a.me, ev.raw, ev.topic, a.s.trust, ev.cfg, ev.t)
  }

  function Apply(e: Env, a: Agent, ev: Event): Agent
    requires Enabled(a, ev)
  {
    match ev
    case Deliver(raw, topic, cfg, t) =>
      var v := JudgeFor(e, a, ev);
      a.(s := Do(a.s, Arrive(raw, v)).(clock := t.guardAt),
         threads := if v.Accepted? then a.threads[LOOP := EntryTask(v.cand)] else a.threads)
    case Begin(tid, req) =>
      a.(s := Do(a.s, FirstAct(e, a, req)), threads := Continue(a.threads, tid, FirstTask(e, a, req)))
    case Run(tid, pick) =>
      a.(s := Do(a.s, ActOf(e, a, a.threads[tid], pick)).(clock := pick.now),
         threads := Continue(a.threads, tid, NextOf(e, a, a.threads[tid], pick)))
    case EditTrust(trust) => a.(s := a.s.(trust := trust))
    case Crash => Crashed(a)
  }

  const FRESH_LOG := Log([], [], [], map[], {}, map[], {}, {}, [])

  predicate Initial(a: Agent) {
    a.s.db == Store.EMPTY && a.s.pending == map[] && a.s.log == FRESH_LOG && a.threads == map[]
  }
}
