/** What every step of one agent keeps about received payloads, whoever sent them. */
module Ingest {
  import opened Prelude
  import opened Wire
  import opened Env
  import opened Message
  import opened Steps
  import Store

  // ---------------------------------------------------------------- the invariant

  /** The candidate is what verification made of its payload, and is neither beacon nor receipt. */
  ghost predicate Vouched(e: Env, me: Identity, c: Candidate) {
    && VerifyIncoming(e, c.raw, me, c.trust, c.cfg, c.t) == Ok(c.inner)
    && c.inner.kind != Receipt && c.inner.ctype != CTYPE_RECEIPT && c.inner.ctype != CTYPE_PRESENCE
    && c.guard == GuardId(e, c.inner, c.trust, c.t.guardAt)
    && c.t.freshAt <= c.t.grantAt <= c.t.guardAt
  }

  function RowFor(m: StoredMsg): Store.Row {
    Store.RowOf(m.cand.inner, Store.In, m.cand.topic, m.seqNo)
  }

  ghost predicate StoredOk(e: Env, me: Identity, s: State) {
    && (forall m | m in s.log.stored ::
          Vouched(e, me, m.cand) && m.cand.t.guardAt <= m.at <= s.clock && m.seqNo <= s.db.lastSeq)
    && (forall i, j | 0 <= i < j < |s.log.stored| :: s.log.stored[i].seqNo < s.log.stored[j].seqNo)
  }

  /** A stored message is in the table until its row number is evicted, which is never before it was stored. */
  ghost predicate Held(s: State, m: StoredMsg) {
    if m.seqNo in s.log.evicted then m.at <= s.log.evicted[m.seqNo] else RowFor(m) in s.db.rows
  }

  ghost predicate TableOk(s: State) {
    && (forall m | m in s.log.stored :: Held(s, m))
    && (forall r | r in s.db.rows && r.direction == Store.In :: exists m :: m in s.log.stored && r == RowFor(m))
    && (forall n | n in s.log.evicted :: n <= s.db.lastSeq && s.log.evicted[n] <= s.clock)
  }

  /** A message stored again had been evicted in between. */
  ghost predicate EvictedBetween(s: State, first: StoredMsg, again: StoredMsg) {
    first.seqNo in s.log.evicted && first.at <= s.log.evicted[first.seqNo] <= again.cand.t.freshAt
  }

  ghost predicate ReplayOk(s: State) {
    forall i, j | 0 <= i < j < |s.log.stored| && s.log.stored[i].cand.inner.id == s.log.stored[j].cand.inner.id ::
      EvictedBetween(s, s.log.stored[i], s.log.stored[j])
  }

  ghost predicate GrantOk(s: State) {
    && (forall m | m in s.log.stored && m.cand.guard.Some? :: m.cand.guard.value in s.db.seenGrants)
    && (forall i, j | 0 <= i < j < |s.log.stored| && s.log.stored[i].cand.guard.Some? ::
          s.log.stored[i].cand.guard != s.log.stored[j].cand.guard)
  }

  ghost predicate StateOk(e: Env, me: Identity, s: State) {
    Store.Valid(s.db) && StoredOk(e, me, s) && TableOk(s) && ReplayOk(s) && GrantOk(s)
  }

  /** The candidate was judged after every eviction so far. */
  ghost predicate Current(e: Env, me: Identity, s: State, c: Candidate) {
    Vouched(e, me, c) && c.t.guardAt <= s.clock && forall n | n in s.log.evicted :: s.log.evicted[n] <= c.t.freshAt
  }

  /** Its grant id is spent, and no other stored message has it. */
  ghost predicate Guarded(s: State, c: Candidate) {
    c.guard.Some? ==>
      c.guard.value in s.db.seenGrants && forall m | m in s.log.stored :: m.cand.guard != c.guard
  }

  predicate LoopTask(task: Task) {
    task.CheckGrant? || task.StoreIn? || task.Evict?
  }

  ghost predicate TaskOk(e: Env, me: Identity, s: State, task: Task) {
    match task
    case CheckGrant(c, grantId) => Current(e, me, s, c) && c.guard == Some(grantId)
    case StoreIn(c) => Current(e, me, s, c) && Guarded(s, c)
    case _ => true
  }

  ghost predicate LoopOk(e: Env, a: Agent) {
    && (forall tid | tid in a.threads && LoopTask(a.threads[tid]) :: tid == LOOP)
    && (LOOP in a.threads ==> TaskOk(e, a.me, a.s, a.threads[LOOP]))
  }

  function Raws(ended: seq<Outcome>): seq<Bytes> {
    if ended == [] then [] else Raws(ended[..|ended| - 1]) + [ended[|ended| - 1].raw]
  }

  function Kept(ended: seq<Outcome>): seq<Bytes> {
    if ended == [] then []
    else Kept(ended[..|ended| - 1]) + (var o := ended[|ended| - 1]; if o.ending == Stored then [o.raw] else [])
  }

  function StoredRaws(stored: seq<StoredMsg>): seq<Bytes> {
    if stored == [] then [] else StoredRaws(stored[..|stored| - 1]) + [stored[|stored| - 1].cand.raw]
  }

  /** Payloads end one by one, in order of receipt; those that ended stored are the messages stored. */
  ghost predicate OutcomesOk(a: Agent) {
    && a.s.log.received == Raws(a.s.log.ended) + InFlight(a.threads)
    && Kept(a.s.log.ended) == StoredRaws(a.s.log.stored)
  }

  ghost predicate Inv(e: Env, a: Agent) {
    StateOk(e, a.me, a.s) && LoopOk(e, a) && OutcomesOk(a)
  }

  // ---------------------------------------------------------------- one act

  predicate SameTable(s: State, u: State) {
    && u.db.rows == s.db.rows && u.db.lastSeq == s.db.lastSeq && u.db.seenGrants == s.db.seenGrants
    && u.log.stored == s.log.stored && u.log.evicted == s.log.evicted && u.clock >= s.clock
  }

  lemma SameTableKeeps(e: Env, me: Identity, s: State, u: State)
    requires StateOk(e, me, s) && SameTable(s, u) && Store.Valid(u.db)
    ensures StateOk(e, me, u)
  {
    hide Vouched, RowFor;
    assert forall m | m in s.log.stored :: Held(u, m) == Held(s, m);
    assert forall m, n :: EvictedBetween(u, m, n) == EvictedBetween(s, m, n);
  }

  lemma OutboxKeepsValid(db: Store.Db, outbox: seq<Store.Outbound>)
    requires Store.Valid(db) && forall i, j | 0 <= i < j < |outbox| :: outbox[i].id != outbox[j].id
    ensures Store.Valid(db.(outbox := outbox))
  {
  }

  lemma QuietActKeeps(e: Env, me: Identity, s: State, act: Act)
    requires StateOk(e, me, s)
    requires act.Idle? || act.Build? || act.Queue? || act.Hand? || act.Unqueue? || act.MoveCursor? || act.Pair?
          || act.Forget?
    ensures StateOk(e, me, Do(s, act)) && SameTable(s, Do(s, act))
    ensures Do(s, act).log.received == s.log.received && Do(s, act).log.ended == s.log.ended
  {
    hide StoredOk, TableOk, ReplayOk, GrantOk;
    assert Store.Valid(Do(s, act).db) by {
      if act.Queue? {
        OutboxKeepsValid(s.db, Store.EnqueueOutbound(s.db.outbox, act.ob));
      } else if act.Unqueue? {
        OutboxKeepsValid(s.db, Store.RemoveOutbound(s.db.outbox, act.id));
      }
    }
    SameTableKeeps(e, me, s, Do(s, act));
  }

  /** A delivery event changes outbound rows only. */
  lemma EventKeepsInbound(rows: seq<Store.Row>, id: string, ev: Store.DeliveryEvent, r: Store.Row)
    requires r.direction == Store.In
    ensures r in Store.ApplyEvent(rows, id, ev) <==> r in rows
  {
    var u := Store.ApplyEvent(rows, id, ev);
    if r in rows {
      var i :| 0 <= i < |rows| && rows[i] == r;
      assert u[i] == r;
    }
    if r in u {
      var i :| 0 <= i < |u| && u[i] == r;
      assert u[i] == Store.Update(rows[i], id, ev);
    }
  }

  lemma EventKeeps(e: Env, me: Identity, s: State, id: string, ev: Store.DeliveryEvent)
    requires StateOk(e, me, s)
    ensures StateOk(e, me, s.(db := s.db.(rows := Store.ApplyEvent(s.db.rows, id, ev))))
  {
    hide Vouched, Store.Update, Store.Valid;
    var u := s.(db := s.db.(rows := Store.ApplyEvent(s.db.rows, id, ev)));
    Store.ApplyKeepsValid(s.db, id, ev);
    forall r: Store.Row | r.direction == Store.In
      ensures r in u.db.rows <==> r in s.db.rows
    {
      EventKeepsInbound(s.db.rows, id, ev, r);
    }
    assert forall m | m in s.log.stored :: Held(u, m) == Held(s, m);
    assert forall m, n :: EvictedBetween(u, m, n) == EvictedBetween(s, m, n);
  }

  lemma ArriveKeeps(e: Env, me: Identity, s: State, raw: Bytes, v: Verdict)
    requires StateOk(e, me, s)
    ensures StateOk(e, me, Do(s, Arrive(raw, v)))
  {
    hide StateOk, Store.ApplyEvent, Store.UpsertPresence;
    var u := Do(s, Arrive(raw, v));
    if v.Receipted? && v.receipt.Some? {
      var id, ev := v.receipt.value.refId, ReceiptEvent(v.receipt.value.status);
      var mid := s.(db := s.db.(rows := Store.ApplyEvent(s.db.rows, id, ev)));
      EventKeeps(e, me, s, id, ev);
      SameTableHolds(e, me, mid, u);
    } else {
      SameTableHolds(e, me, s, u);
    }
  }

  lemma SameTableHolds(e: Env, me: Identity, s: State, u: State)
    requires StateOk(e, me, s) && SameTable(s, u) && u.db.outbox == s.db.outbox
    ensures StateOk(e, me, u)
  {
    hide StoredOk, TableOk, ReplayOk, GrantOk;
    SameTableKeeps(e, me, s, u);
  }

  lemma ClockKeeps(e: Env, me: Identity, s: State, clock: int)
    requires StateOk(e, me, s) && s.clock <= clock
    ensures StateOk(e, me, s.(clock := clock))
  {
    hide StateOk;
    SameTableHolds(e, me, s, s.(clock := clock)) by {
      assert SameTable(s, s.(clock := clock));
    }
  }

  lemma SpendKeeps(e: Env, me: Identity, s: State, c: Candidate, grantId: string)
    requires StateOk(e, me, s)
    ensures StateOk(e, me, DoSpend(s, c, grantId))
  {
    hide Vouched, RowFor;
    var u := DoSpend(s, c, grantId);
    assert forall m | m in s.log.stored :: Held(u, m) == Held(s, m);
    assert forall m, n :: EvictedBetween(u, m, n) == EvictedBetween(s, m, n);
  }

  lemma InsertOutKeeps(e: Env, me: Identity, s: State, inner: Inner, topic: string, seqNo: int)
    requires StateOk(e, me, s) && seqNo > s.db.lastSeq
    ensures StateOk(e, me, DoInsertOut(s, inner, topic, seqNo))
  {
    hide Vouched, Store.RowOf, Store.Valid;
    var u := DoInsertOut(s, inner, topic, seqNo);
    Store.InsertKeepsValid(s.db, inner, Store.Out, topic, seqNo);
    Store.InsertMembers(s.db, inner, Store.Out, topic, seqNo);
    Store.RowIdentity(inner, Store.Out, topic, seqNo);
    assert forall m | m in s.log.stored :: Held(s, m) ==> Held(u, m);
    assert forall m, n :: EvictedBetween(u, m, n) == EvictedBetween(s, m, n);
  }

  /** Removal records the time of every row it takes. */
  lemma DropKeeps(e: Env, me: Identity, s: State, count: nat, at: int)
    requires StateOk(e, me, s) && s.clock <= at
    ensures StateOk(e, me, DoDrop(s, count, at).(clock := at))
  {
    hide Vouched, Store.RowOf, Store.Valid, Store.DropOldest;
    var u := DoDrop(s, count, at).(clock := at);
    Store.DropKeepsValid(s.db, count);
    Store.DroppedSubset(s.db.rows, count);
    var dropped := DroppedSeqs(s.db.rows, u.db.rows);
    assert forall n :: n in u.log.evicted <==> n in dropped || n in s.log.evicted;
    assert forall n | n in s.log.evicted :: u.log.evicted[n] == s.log.evicted[n];
    DroppedWereNumbered(s, u.db.rows);
    forall m | m in s.log.stored
      ensures Held(u, m)
    {
      assert Held(s, m);
      if m.seqNo !in u.log.evicted {
        Store.RowIdentity(m.cand.inner, Store.In, m.cand.topic, m.seqNo);
        assert RowFor(m) in s.db.rows;
      }
    }
    assert forall m, n :: EvictedBetween(s, m, n) ==> EvictedBetween(u, m, n);
  }

  lemma DroppedWereNumbered(s: State, kept: seq<Store.Row>)
    requires Store.Valid(s.db)
    ensures forall n | n in DroppedSeqs(s.db.rows, kept) :: n <= s.db.lastSeq
  {
  }

  /** A current candidate may be stored: what shared its id has been evicted, what shared its grant never was stored. */
  lemma InsertInKeeps(e: Env, me: Identity, s: State, c: Candidate, seqNo: int, at: int)
    requires StateOk(e, me, s) && Current(e, me, s, c) && Guarded(s, c)
    requires seqNo > s.db.lastSeq && s.clock <= at
    ensures StateOk(e, me, DoInsertIn(s, c, seqNo, at).(clock := at))
  {
    hide Vouched, Store.RowOf, Store.Valid;
    var u := DoInsertIn(s, c, seqNo, at).(clock := at);
    if Store.HasId(s.db.rows, c.inner.id) {
      SameTableKeeps(e, me, s, u);
    } else {
      var added := StoredMsg(c, seqNo, at);
      Store.InsertKeepsValid(s.db, c.inner, Store.In, c.topic, seqNo);
      Store.InsertMembers(s.db, c.inner, Store.In, c.topic, seqNo);
      assert u.log.stored == s.log.stored + [added];
      assert StoredOk(e, me, u);
      InsertedTable(e, me, s, c, seqNo, at);
      forall m | m in s.log.stored && m.cand.inner.id == c.inner.id
        ensures EvictedBetween(u, m, added)
      {
        assert Held(s, m);
        Store.RowIdentity(m.cand.inner, Store.In, m.cand.topic, m.seqNo);
      }
      assert forall m, n :: EvictedBetween(s, m, n) ==> EvictedBetween(u, m, n);
      assert ReplayOk(u);
    }
  }

  lemma InsertedTable(e: Env, me: Identity, s: State, c: Candidate, seqNo: int, at: int)
    requires StateOk(e, me, s)
    requires seqNo > s.db.lastSeq && s.clock <= at && !Store.HasId(s.db.rows, c.inner.id)
    ensures TableOk(DoInsertIn(s, c, seqNo, at).(clock := at))
  {
    hide Vouched, Store.RowOf, Store.Valid, ReplayOk, GrantOk;
    var u := DoInsertIn(s, c, seqNo, at).(clock := at);
    var added := StoredMsg(c, seqNo, at);
    Store.InsertMembers(s.db, c.inner, Store.In, c.topic, seqNo);
    assert forall m | m in s.log.stored :: Held(s, m) ==> Held(u, m);
    assert seqNo !in s.log.evicted;
    assert Held(u, added);
    assert added in u.log.stored;
    forall r | r in u.db.rows && r.direction == Store.In
      ensures exists m :: m in u.log.stored && r == RowFor(m)
    {
      if r in s.db.rows {
        var m :| m in s.log.stored && r == RowFor(m);
        assert m in u.log.stored;
      } else {
        assert r == RowFor(added);
      }
    }
  }

  // ---------------------------------------------------------------- one step

  lemma ActKeeps(e: Env, a: Agent, task: Task, pick: Pick)
    requires StateOk(e, a.me, a.s) && PickEnabled(a, task, pick) && TaskOk(e, a.me, a.s, task)
    ensures StateOk(e, a.me, Do(a.s, ActOf(e, a, task, pick)).(clock := pick.now))
  {
    hide StateOk, Store.ApplyEvent, Store.Enforced, Draft, DoSpend, DoInsertIn, DoInsertOut, DoDrop, Current, Guarded;
    var u := Do(a.s, ActOf(e, a, task, pick));
    match task {
      case StoreIn(c) =>
        InsertInKeeps(e, a.me, a.s, c, pick.seqNo, pick.now);
      case Evict(c) =>
        DropKeeps(e, a.me, a.s, pick.evict, pick.now);
      case CheckGrant(c, grantId) =>
        SpendKeeps(e, a.me, a.s, c, grantId);
        ClockIsLater(a.s, c, grantId);
        ClockKeeps(e, a.me, u, pick.now);
      case LogOut(inner, ob, after) =>
        InsertOutKeeps(e, a.me, a.s, inner, ob.topic, pick.seqNo);
        assert u.clock == a.s.clock by { UnfoldInsertOut(a.s, inner, ob.topic, pick.seqNo); }
        ClockKeeps(e, a.me, u, pick.now);
      case MarkSent(ob, rest) =>
        EventKeeps(e, a.me, a.s, ob.id, Store.HandOff);
        ClockKeeps(e, a.me, u, pick.now);
      case _ =>
        QuietActKeeps(e, a.me, a.s, ActOf(e, a, task, pick));
        ClockKeeps(e, a.me, u, pick.now);
    }
  }

  lemma ClockIsLater(s: State, c: Candidate, grantId: string)
    ensures DoSpend(s, c, grantId).clock == s.clock
  {
  }

  lemma UnfoldInsertOut(s: State, inner: Inner, topic: string, seqNo: int)
    requires seqNo > s.db.lastSeq
    ensures var u := DoInsertOut(s, inner, topic, seqNo);
            && u.clock == s.clock && u.log == s.log.(logged := u.log.logged) && u.db.seenGrants == s.db.seenGrants
  {
  }

  /** What an act of another thread leaves to the event loop. */
  lemma ElsewhereLeaves(e: Env, a: Agent, task: Task, pick: Pick)
    requires PickEnabled(a, task, pick) && !LoopTask(task)
    ensures var u := Do(a.s, ActOf(e, a, task, pick));
            && u.log.stored == a.s.log.stored && u.log.evicted == a.s.log.evicted
            && u.db.seenGrants == a.s.db.seenGrants
            && u.log.received == a.s.log.received && u.log.ended == a.s.log.ended
    ensures NextOf(e, a, task, pick).Some? ==> !LoopTask(NextOf(e, a, task, pick).value)
  {
    hide Store.ApplyEvent, Store.Enforced, Draft, OutboundOf, Store.MessageBySeq;
  }

  lemma RunElsewhere(e: Env, a: Agent, tid: nat, pick: Pick)
    requires Inv(e, a) && Enabled(a, Run(tid, pick)) && !LoopTask(a.threads[tid])
    ensures Inv(e, Apply(e, a, Run(tid, pick)))
  {
    hide Vouched, Store.Enforced, NextOf, ActOf, Do, StateOk;
    var task := a.threads[tid];
    ActKeeps(e, a, task, pick);
    ElsewhereLeaves(e, a, task, pick);
  }

  lemma RawsAppend(ended: seq<Outcome>, o: Outcome)
    ensures Raws(ended + [o]) == Raws(ended) + [o.raw]
    ensures Kept(ended + [o]) == Kept(ended) + if o.ending == Stored then [o.raw] else []
  {
    assert (ended + [o])[..|ended|] == ended;
  }

  lemma StoredRawsAppend(stored: seq<StoredMsg>, m: StoredMsg)
    ensures StoredRaws(stored + [m]) == StoredRaws(stored) + [m.cand.raw]
  {
    assert (stored + [m])[..|stored|] == stored;
  }

  lemma RunCheckGrant(e: Env, a: Agent, pick: Pick)
    requires Inv(e, a) && Enabled(a, Run(LOOP, pick)) && a.threads[LOOP].CheckGrant?
    ensures Inv(e, Apply(e, a, Run(LOOP, pick)))
  {
    hide Vouched, Store.Enforced, StateOk, Raws, Kept, StoredRaws;
    var task := a.threads[LOOP];
    ActKeeps(e, a, task, pick);
    RawsAppend(a.s.log.ended, Outcome(task.cand.raw, Rejected));
    GrantIdsSpent(e, a.me, a.s);
  }

  lemma GrantIdsSpent(e: Env, me: Identity, s: State)
    requires StateOk(e, me, s)
    ensures forall m | m in s.log.stored && m.cand.guard.Some? :: m.cand.guard.value in s.db.seenGrants
  {
  }

  lemma RunStoreIn(e: Env, a: Agent, pick: Pick)
    requires Inv(e, a) && Enabled(a, Run(LOOP, pick)) && a.threads[LOOP].StoreIn?
    ensures Inv(e, Apply(e, a, Run(LOOP, pick)))
  {
    hide Vouched, Store.Enforced, StateOk, Raws, Kept, StoredRaws, Store.Insert;
    var task := a.threads[LOOP];
    ActKeeps(e, a, task, pick);
    RawsAppend(a.s.log.ended, Outcome(task.cand.raw, Duplicate));
    RawsAppend(a.s.log.ended, Outcome(task.cand.raw, Stored));
    StoredRawsAppend(a.s.log.stored, StoredMsg(task.cand, pick.seqNo, pick.now));
  }

  lemma RunEvict(e: Env, a: Agent, pick: Pick)
    requires Inv(e, a) && Enabled(a, Run(LOOP, pick)) && a.threads[LOOP].Evict?
    ensures Inv(e, Apply(e, a, Run(LOOP, pick)))
  {
    hide Vouched, Store.Enforced, StateOk, Raws, Kept, StoredRaws, Store.DropOldest;
    ActKeeps(e, a, a.threads[LOOP], pick);
  }

  lemma DeliverKeeps(e: Env, a: Agent, ev: Event)
    requires Inv(e, a) && Enabled(a, ev) && ev.Deliver?
    ensures Inv(e, Apply(e, a, ev))
  {
    hide Vouched, StateOk, Raws, Kept, StoredRaws, Judge, ArriveDb, ArrivePending;
    var v := JudgeFor(e, a, ev);
    var arrived := Do(a.s, Arrive(ev.raw, v));
    ArriveKeeps(e, a.me, a.s, ev.raw, v);
    ClockKeeps(e, a.me, arrived, ev.t.guardAt);
    if v.Accepted? {
      JudgedAccepted(e, a, ev);
      assert arrived.log.ended == a.s.log.ended;
      assert InFlight(a.threads) == [] && InFlight(Apply(e, a, ev).threads) == [ev.raw];
      EvictionsPast(e, a.me, a.s);
      ArriveLeaves(a.s, ev.raw, v);
    } else {
      RawsAppend(a.s.log.ended, Outcome(ev.raw, EndingOf(v)[0]));
    }
  }

  lemma EvictionsPast(e: Env, me: Identity, s: State)
    requires StateOk(e, me, s)
    ensures forall n | n in s.log.evicted :: s.log.evicted[n] <= s.clock
  {
  }

  lemma ArriveLeaves(s: State, raw: Bytes, v: Verdict)
    ensures var u := Do(s, Arrive(raw, v));
            u.log.stored == s.log.stored && u.log.evicted == s.log.evicted && u.db.seenGrants == s.db.seenGrants
  {
  }

  lemma JudgedAccepted(e: Env, a: Agent, ev: Event)
    requires ev.Deliver? && JudgeFor(e, a, ev).Accepted? && Enabled(a, ev)
    ensures var c := JudgeFor(e, a, ev).cand;
            Vouched(e, a.me, c) && c.raw == ev.raw && c.topic == ev.topic && c.cfg == ev.cfg && c.t == ev.t
            && c.trust == a.s.trust
  {
    hide VerifyIncoming, GuardId, VerifyPair;
  }

  lemma BeginKeeps(e: Env, a: Agent, tid: nat, req: Request)
    requires Inv(e, a) && Enabled(a, Begin(tid, req))
    ensures Inv(e, Apply(e, a, Begin(tid, req)))
  {
    hide Vouched, StateOk, Raws, Kept, StoredRaws, BuildInner, Draft, OutboundOf, Do;
    QuietActKeeps(e, a.me, a.s, FirstAct(e, a, req));
  }

  lemma RestKeeps(e: Env, a: Agent, ev: Event)
    requires Inv(e, a) && (ev.EditTrust? || ev.Crash?)
    ensures Inv(e, Apply(e, a, ev))
  {
    hide Vouched, StoredOk, TableOk, ReplayOk, GrantOk, Store.Valid, Raws, Kept, StoredRaws;
    var u := Apply(e, a, ev);
    SameTableKeeps(e, a.me, a.s, u.s);
    if ev.Crash? && InFlight(a.threads) != [] {
      RawsAppend(a.s.log.ended, Outcome(InFlight(a.threads)[0], Lost));
    } else {
      assert u.s.log.ended == a.s.log.ended;
    }
  }

  lemma StepKeeps(e: Env, a: Agent, ev: Event)
    requires Inv(e, a) && Enabled(a, ev)
    ensures Inv(e, Apply(e, a, ev))
  {
    hide Inv, Apply;
    match ev {
      case Deliver(_, _, _, _) => DeliverKeeps(e, a, ev);
      case Begin(tid, req) => BeginKeeps(e, a, tid, req);
      case Run(tid, pick) =>
        if !LoopTask(a.threads[tid]) {
          RunElsewhere(e, a, tid, pick);
        } else {
          OnlyLoop(e, a, tid);
          match a.threads[LOOP] {
            case CheckGrant(_, _) => RunCheckGrant(e, a, pick);
            case StoreIn(_) => RunStoreIn(e, a, pick);
            case Evict(_) => RunEvict(e, a, pick);
          }
        }
      case EditTrust(_) => RestKeeps(e, a, ev);
      case Crash => RestKeeps(e, a, ev);
    }
  }

  lemma OnlyLoop(e: Env, a: Agent, tid: nat)
    requires Inv(e, a) && tid in a.threads && LoopTask(a.threads[tid])
    ensures tid == LOOP
  {
  }

  lemma InitialInv(e: Env, a: Agent)
    requires Initial(a)
    ensures Inv(e, a)
  {
  }
}
