/** What holds over whole runs of one agent: any payloads, any interleaving, crashes at any point. */
module Runs {
  import opened Prelude
  import opened Wire
  import opened Env
  import opened Message
  import opened Steps
  import Grant
  import Ingest
  import MessageProofs
  import Outbox
  import Store

  ghost predicate IsRun(e: Env, states: seq<Agent>, evs: seq<Event>) {
    && |states| == |evs| + 1 && Initial(states[0])
    && forall i | 0 <= i < |evs| :: Enabled(states[i], evs[i]) && states[i + 1] == Apply(e, states[i], evs[i])
  }

  lemma {:induction false} InvHolds(e: Env, states: seq<Agent>, evs: seq<Event>, i: nat)
    requires IsRun(e, states, evs) && i < |states|
    ensures Ingest.Inv(e, states[i])
  {
    hide Ingest.Inv, Apply, Enabled, Initial;
    if i == 0 {
      Ingest.InitialInv(e, states[0]);
    } else {
      InvHolds(e, states, evs, i - 1);
      assert Enabled(states[i - 1], evs[i - 1]);
      Ingest.StepKeeps(e, states[i - 1], evs[i - 1]);
    }
  }

  // ---------------------------------------------------------------- provenance

  /** The candidate is what event `k` of the run made of the payload it delivered. */
  ghost predicate JudgedAt(e: Env, states: seq<Agent>, evs: seq<Event>, c: Candidate, k: nat)
    requires IsRun(e, states, evs)
  {
    k < |evs| && evs[k].Deliver? && JudgeFor(e, states[k], evs[k]) == Accepted(c)
  }

  ghost predicate Holds(a: Agent, c: Candidate) {
    || (exists m :: m in a.s.log.stored && m.cand == c)
    || (LOOP in a.threads && (a.threads[LOOP].CheckGrant? || a.threads[LOOP].StoreIn?) && a.threads[LOOP].cand == c)
  }

  lemma NewInLoop(e: Env, a: Agent, pick: Pick, c: Candidate)
    requires Enabled(a, Run(LOOP, pick)) && Ingest.LoopTask(a.threads[LOOP]) && Holds(Apply(e, a, Run(LOOP, pick)), c)
    ensures Holds(a, c)
  {
    hide Store.DropOldest, Store.Enforced, Store.Insert, Store.HasId;
  }

  lemma NewElsewhere(e: Env, a: Agent, tid: nat, pick: Pick, c: Candidate)
    requires Enabled(a, Run(tid, pick)) && !Ingest.LoopTask(a.threads[tid]) && Holds(Apply(e, a, Run(tid, pick)), c)
    ensures Holds(a, c)
  {
    hide Do, NextOf, ActOf, PickEnabled;
    Ingest.ElsewhereLeaves(e, a, a.threads[tid], pick);
  }

  lemma NewByRequest(e: Env, a: Agent, tid: nat, req: Request, c: Candidate)
    requires Enabled(a, Begin(tid, req)) && Holds(Apply(e, a, Begin(tid, req)), c)
    ensures Holds(a, c)
  {
    hide BuildInner, Draft, OutboundOf;
  }

  /** A step brings in no candidate but the one it judges. */
  lemma NewCandidate(e: Env, a: Agent, ev: Event, c: Candidate)
    requires Ingest.Inv(e, a) && Enabled(a, ev) && Holds(Apply(e, a, ev), c)
    ensures Holds(a, c) || (ev.Deliver? && JudgeFor(e, a, ev) == Accepted(c))
  {
    match ev {
      case Deliver(raw, _, _, _) =>
        hide Judge, ArriveDb, Ingest.StateOk;
      case Begin(tid, req) =>
        NewByRequest(e, a, tid, req, c);
      case Run(tid, pick) =>
        if Ingest.LoopTask(a.threads[tid]) {
          Ingest.OnlyLoop(e, a, tid);
          NewInLoop(e, a, pick, c);
        } else {
          NewElsewhere(e, a, tid, pick, c);
        }
      case _ =>
    }
  }

  lemma {:induction false} Provenance(e: Env, states: seq<Agent>, evs: seq<Event>, i: nat, c: Candidate)
    returns (k: nat)
    requires IsRun(e, states, evs) && i < |states| && Holds(states[i], c)
    ensures k < i && JudgedAt(e, states, evs, c, k)
  {
    hide Ingest.Inv, Apply, Enabled, Holds, JudgeFor;
    if i == 0 {
      NothingHeld(states[0], c);
      assert false;
    } else {
      InvHolds(e, states, evs, i - 1);
      assert Enabled(states[i - 1], evs[i - 1]);
      NewCandidate(e, states[i - 1], evs[i - 1], c);
      if Holds(states[i - 1], c) {
        k := Provenance(e, states, evs, i - 1, c);
      } else {
        k := i - 1;
      }
    }
  }

  lemma NothingHeld(a: Agent, c: Candidate)
    requires Initial(a)
    ensures !Holds(a, c)
  {
  }

  // ---------------------------------------------------------------- authenticity

  /**
    Event `k` of the run delivered the payload this row was stored from. Under the trust and configuration of that
    moment, either the key trusted under the row's sender had signed exactly the transmitted inner bytes, with a key
    id naming both, or unsigned mode was on and no usable key was trusted for that sender.
   */
  ghost predicate AuthenticAt(e: Env, states: seq<Agent>, evs: seq<Event>, r: Store.Row, k: nat)
    requires IsRun(e, states, evs)
  {
    && k < |evs| && evs[k].Deliver?
    && var raw, trust, cfg := evs[k].raw, states[k].s.trust, evs[k].cfg;
       && Unwrap(e, raw).Some?
       && var w, sent := e.wrapper.parse(raw).value, Unwrap(e, raw).value;
          && r.id == sent.id && r.sender == sent.from && r.recipient == sent.to && r.ts == sent.ts
          && r.kind == sent.kind
          && (sent.enc.None? ==> r.body == sent.body && r.ctype == sent.ctype)
          && MessageProofs.VersionAccepted(w, cfg)
          && (MessageProofs.SignedByTrusted(e, w, trust, sent) || MessageProofs.UnsignedAllowed(e, w, trust, cfg, sent))
  }

  /** Every row ever stored inbound is authentic, over every run. */
  lemma RowsAreAuthentic(e: Env, states: seq<Agent>, evs: seq<Event>, i: nat, r: Store.Row)
    requires IsRun(e, states, evs) && i < |states| && r in states[i].s.db.rows && r.direction == Store.In
    ensures exists k: nat :: k < i && AuthenticAt(e, states, evs, r, k)
  {
    var m := StoredFrom(e, states, evs, i, r);
    var k := Provenance(e, states, evs, i, m.cand);
    CandidateIsAuthentic(e, states, evs, m, k);
  }

  lemma StoredFrom(e: Env, states: seq<Agent>, evs: seq<Event>, i: nat, r: Store.Row) returns (m: StoredMsg)
    requires IsRun(e, states, evs) && i < |states| && r in states[i].s.db.rows && r.direction == Store.In
    ensures m in states[i].s.log.stored && r == Ingest.RowFor(m) && Holds(states[i], m.cand)
  {
    hide Ingest.Vouched, Ingest.ReplayOk, Ingest.GrantOk, Ingest.LoopOk, Ingest.OutcomesOk, IsRun;
    InvHolds(e, states, evs, i);
    assert Ingest.TableOk(states[i].s);
    m :| m in states[i].s.log.stored && r == Ingest.RowFor(m);
  }

  lemma CandidateIsAuthentic(e: Env, states: seq<Agent>, evs: seq<Event>, m: StoredMsg, k: nat)
    requires IsRun(e, states, evs) && JudgedAt(e, states, evs, m.cand, k)
    ensures AuthenticAt(e, states, evs, Ingest.RowFor(m), k)
  {
    hide VerifyIncoming, GuardId, Judge, MessageProofs.SignedByTrusted, MessageProofs.UnsignedAllowed, Apply,
      MessageProofs.VersionAccepted, Unwrap;
    var c, a := m.cand, states[k];
    assert Enabled(a, evs[k]);
    Ingest.JudgedAccepted(e, a, evs[k]);
    MessageProofs.AcceptedIsAuthentic(e, c.raw, a.me, c.trust, c.cfg, c.t);
    MessageProofs.VerifyKeepsEnvelope(e, c.raw, a.me, c.trust, c.cfg, c.t);
  }

  // ---------------------------------------------------------------- one ending for every payload

  function Payloads(evs: seq<Event>): seq<Bytes> {
    if evs == [] then []
    else Payloads(evs[..|evs| - 1]) + (var ev := evs[|evs| - 1]; if ev.Deliver? then [ev.raw] else [])
  }

  lemma ReceivedGrows(e: Env, a: Agent, ev: Event)
    requires Enabled(a, ev)
    ensures Apply(e, a, ev).s.log.received == a.s.log.received + if ev.Deliver? then [ev.raw] else []
  {
    hide Judge, ArriveDb, ArrivePending, Store.ApplyEvent, Store.DropOldest, Store.Enforced, BuildInner, Draft,
      OutboundOf, Store.MessageBySeq, Store.Insert, FirstTask, NextOf;
  }

  lemma {:induction false} ReceivedAre(e: Env, states: seq<Agent>, evs: seq<Event>, i: nat)
    requires IsRun(e, states, evs) && i < |states|
    ensures states[i].s.log.received == Payloads(evs[..i])
  {
    hide Apply, Enabled;
    if i > 0 {
      ReceivedAre(e, states, evs, i - 1);
      assert Enabled(states[i - 1], evs[i - 1]);
      ReceivedGrows(e, states[i - 1], evs[i - 1]);
      assert evs[..i][..i - 1] == evs[..i - 1];
    }
  }

  /**
    The payloads delivered, in order, are those that have ended, each with its one ending, and the one still in the
    event loop. Those that ended stored are the messages stored, in order.
   */
  lemma OneEndingEach(e: Env, states: seq<Agent>, evs: seq<Event>, i: nat)
    requires IsRun(e, states, evs) && i < |states|
    ensures var a := states[i];
            && Payloads(evs[..i]) == Ingest.Raws(a.s.log.ended) + InFlight(a.threads)
            && Ingest.Kept(a.s.log.ended) == Ingest.StoredRaws(a.s.log.stored)
  {
    hide Ingest.StateOk, Ingest.LoopOk, IsRun;
    InvHolds(e, states, evs, i);
    ReceivedAre(e, states, evs, i);
  }

  /** The payload's own sender is this agent, or it wraps a pairing hello, or it is a message like any other. */
  predicate IsEcho(e: Env, me: Identity, raw: Bytes) {
    && e.wrapper.parse(raw).Some? && e.wrapper.parse(raw).value.kid.Some?
    && SplitKid(e.wrapper.parse(raw).value.kid.value).Some?
    && SplitKid(e.wrapper.parse(raw).value.kid.value).value.0 == me.name
  }

  predicate IsHello(e: Env, raw: Bytes) {
    Unwrap(e, raw).Some? && Unwrap(e, raw).value.ctype == "application/agentmsg-pair"
  }

  /** How a delivered payload ends at once, each way with its exact cause; otherwise it goes on to be stored. */
  lemma EndingIff(e: Env, a: Agent, ev: Event)
    requires Enabled(a, ev) && ev.Deliver?
    ensures var b := Apply(e, a, ev);
            var echo, hello := IsEcho(e, a.me, ev.raw), IsHello(e, ev.raw);
            var checked := VerifyIncoming(e, ev.raw, a.me, a.s.trust, ev.cfg, ev.t);
            var plain := !echo && !hello && checked.Ok?;
            var beacon := plain && checked.value.ctype == "application/agentmsg-presence";
            var receipt := plain && !beacon
                           && (checked.value.kind == Receipt || checked.value.ctype == "application/agentmsg-receipt");
            && (EndsAs(a, b, ev.raw, Echo) <==> echo)
            && (EndsAs(a, b, ev.raw, Pairing) <==> !echo && hello && VerifyPair(e, ev.raw).Ok?)
            && (EndsAs(a, b, ev.raw, Beacon) <==> beacon)
            && (EndsAs(a, b, ev.raw, ReceiptSeen) <==> receipt)
            && (EndsAs(a, b, ev.raw, Rejected)
                <==> !echo && if hello then VerifyPair(e, ev.raw).Err? else checked.Err?)
            && (b.s.log.ended == a.s.log.ended <==> plain && !beacon && !receipt)
            && (plain && !beacon && !receipt ==> InFlight(b.threads) == [ev.raw])
  {
    hide VerifyIncoming, VerifyPair, ArriveDb, ArrivePending, GuardId;
    var b, n := Apply(e, a, ev), |a.s.log.ended|;
    var v := JudgeFor(e, a, ev);
    assert b.s.log.ended == a.s.log.ended + Ends(ev.raw, EndingOf(v));
    assert EndingOf(v) != [] ==> b.s.log.ended[n] == Outcome(ev.raw, EndingOf(v)[0]);
  }

  /** The step ends exactly this payload, in this way. */
  predicate EndsAs(a: Agent, b: Agent, raw: Bytes, ending: Ending) {
    b.s.log.ended == a.s.log.ended + [Outcome(raw, ending)]
  }

  function Count(ended: seq<Outcome>, kind: Ending): nat {
    if ended == [] then 0
    else Count(ended[..|ended| - 1], kind) + if ended[|ended| - 1].ending == kind then 1 else 0
  }

  lemma CountMore(ended: seq<Outcome>, more: seq<Outcome>, kind: Ending)
    requires |more| <= 1
    ensures Count(ended + more, kind) == Count(ended, kind) + if more != [] && more[0].ending == kind then 1 else 0
  {
    if more == [] {
      assert ended + more == ended;
    } else {
      assert (ended + more)[..|ended|] == ended;
    }
  }

  /** An act ends at most one payload, and records a rejection exactly if that payload ends rejected. */
  lemma ActRejects(s: State, act: Act)
    requires Possible(s, act)
    ensures var u := Do(s, act);
            && s.log.ended <= u.log.ended && |u.log.ended| <= |s.log.ended| + 1
            && |u.db.rejections|
               == |s.db.rejections| + if RejectedLast(u.log.ended[|s.log.ended|..]) then 1 else 0
  {
    hide Store.ApplyEvent, Store.DropOldest, Store.HasId, Store.UpsertPresence, Store.EnqueueOutbound,
      Store.RemoveOutbound, Store.AckCursor;
    var n := |s.log.ended|;
    match act {
      case Arrive(raw, v) => assert Do(s, act).log.ended[n..] == Ends(raw, EndingOf(v));
      case Spend(c, grantId) =>
        if grantId in s.db.seenGrants {
          assert Do(s, act).log.ended[n..] == [Outcome(c.raw, Rejected)];
        }
      case InsertIn(c, _, _) =>
        if Store.HasId(s.db.rows, c.inner.id) {
          assert Do(s, act).log.ended[n..] == [Outcome(c.raw, Duplicate)];
        } else {
          assert Do(s, act).log.ended[n..] == [Outcome(c.raw, Stored)];
        }
      case _ =>
    }
  }

  predicate RejectedLast(more: seq<Outcome>) {
    more != [] && more[0].ending == Rejected
  }

  lemma StepRejects(e: Env, a: Agent, ev: Event)
    requires Enabled(a, ev) && Count(a.s.log.ended, Rejected) == |a.s.db.rejections|
    ensures var b := Apply(e, a, ev); Count(b.s.log.ended, Rejected) == |b.s.db.rejections|
  {
    hide Do, Judge, NextOf, FirstTask, Count, Store.Enforced;
    var b := Apply(e, a, ev);
    match ev {
      case Crash => CountMore(a.s.log.ended, LostOf(InFlight(a.threads)), Rejected);
      case EditTrust(_) =>
      case Deliver(raw, _, _, _) => ActCounts(a.s, Arrive(raw, JudgeFor(e, a, ev)));
      case Begin(_, req) => ActCounts(a.s, FirstAct(e, a, req));
      case Run(tid, pick) => ActCounts(a.s, ActOf(e, a, a.threads[tid], pick));
    }
  }

  lemma ActCounts(s: State, act: Act)
    requires Possible(s, act) && Count(s.log.ended, Rejected) == |s.db.rejections|
    ensures Count(Do(s, act).log.ended, Rejected) == |Do(s, act).db.rejections|
  {
    hide Do, Count;
    ActRejects(s, act);
    var more := Do(s, act).log.ended[|s.log.ended|..];
    assert Do(s, act).log.ended == s.log.ended + more;
    CountMore(s.log.ended, more, Rejected);
  }

  /** Every payload that ends rejected leaves exactly one rejection record, and nothing else leaves one. */
  lemma {:induction false} RejectionsAreRecorded(e: Env, states: seq<Agent>, evs: seq<Event>, i: nat)
    requires IsRun(e, states, evs) && i < |states|
    ensures Count(states[i].s.log.ended, Rejected) == |states[i].s.db.rejections|
  {
    hide Apply, Enabled;
    if i > 0 {
      RejectionsAreRecorded(e, states, evs, i - 1);
      assert Enabled(states[i - 1], evs[i - 1]);
      StepRejects(e, states[i - 1], evs[i - 1]);
    }
  }

  // ---------------------------------------------------------------- grants

  /** The grant a stored message carries, if it still verified at the daemon's own check. */
  function GuardedGrant(e: Env, m: StoredMsg): Option<GrantClaims> {
    if m.cand.inner.grant.None? then None
    else
      match Grant.Verify(e, m.cand.inner.grant.value, m.cand.trust, m.cand.t.guardAt)
      case Ok(claims) => Some(claims)
      case Err(_) => None
  }

  /** No two stored messages carry the same verified grant id, and the one that does is from the grant's subject. */
  lemma GrantsAreSpentOnce(e: Env, states: seq<Agent>, evs: seq<Event>, i: nat, j: nat, k: nat)
    requires IsRun(e, states, evs) && i < |states|
    requires j < |states[i].s.log.stored| && k < |states[i].s.log.stored|
    requires var a, b := GuardedGrant(e, states[i].s.log.stored[j]), GuardedGrant(e, states[i].s.log.stored[k]);
             a.Some? && b.Some? && a.value.id == b.value.id
    ensures j == k
    ensures var m := states[i].s.log.stored[j];
            var claims := GuardedGrant(e, m).value;
            && claims.subject == m.cand.inner.from
            && Grant.SignedBy(e, m.cand.inner.grant.value, m.cand.trust, claims)
            && Grant.InForce(e, claims, m.cand.t.guardAt)
  {
    hide Ingest.TableOk, Ingest.ReplayOk, Ingest.LoopOk, Ingest.OutcomesOk, IsRun, VerifyIncoming, Grant.Verify,
      Grant.SignedBy, Grant.InForce;
    InvHolds(e, states, evs, i);
    var s := states[i].s;
    var m, n := s.log.stored[j], s.log.stored[k];
    assert m in s.log.stored && n in s.log.stored;
    assert Ingest.GrantOk(s) && Ingest.StoredOk(e, states[i].me, s);
    StoredGrant(e, states[i].me, m.cand);
    Grant.VerifyIff(e, m.cand.inner.grant.value, m.cand.trust, m.cand.t.guardAt, GuardedGrant(e, m).value);
  }

  /** A stored message's grant verified at ingest for its sender; the daemon's check differs only by expiry. */
  lemma StoredGrant(e: Env, me: Identity, c: Candidate)
    requires Ingest.Vouched(e, me, c) && c.inner.grant.Some?
    ensures var checked := Grant.Verify(e, c.inner.grant.value, c.trust, c.t.grantAt);
            && checked.Ok? && checked.value.subject == c.inner.from
            && Grant.SignedBy(e, c.inner.grant.value, c.trust, checked.value)
            && Grant.InForce(e, checked.value, c.t.grantAt)
            && (c.guard == None <==> Grant.IsExpired(e, checked.value.expiry, c.t.guardAt))
            && (c.guard == None <==> !Grant.InForce(e, checked.value, c.t.guardAt))
            && (c.guard.Some? ==> c.guard == Some(checked.value.id))
            && (Grant.Verify(e, c.inner.grant.value, c.trust, c.t.guardAt).Ok?
                ==> Grant.Verify(e, c.inner.grant.value, c.trust, c.t.guardAt) == checked)
  {
    hide VerifyIncoming, Grant.Verify, FreshEnough, MessageProofs.SignedByTrusted, MessageProofs.UnsignedAllowed,
      Grant.SignedBy, MessageProofs.GrantHolds;
    MessageProofs.AcceptedIsAuthentic(e, c.raw, me, c.trust, c.cfg, c.t);
    Grant.VerifyAtOtherTime(e, c.inner.grant.value, c.trust, c.t.grantAt, c.t.guardAt);
  }

  /** The grant a message was accepted with. */
  function AcceptedGrant(e: Env, m: StoredMsg): Result<GrantClaims, RejectReason>
    requires m.cand.inner.grant.Some?
  {
    Grant.Verify(e, m.cand.inner.grant.value, m.cand.trust, m.cand.t.grantAt)
  }

  /** Two stored messages that were accepted with one grant id: for one of them it had expired at the second reading. */
  lemma SharedGrantHasExpired(e: Env, states: seq<Agent>, evs: seq<Event>, i: nat, j: nat, k: nat)
    requires IsRun(e, states, evs) && i < |states| && j < k < |states[i].s.log.stored|
    requires states[i].s.log.stored[j].cand.inner.grant.Some? && states[i].s.log.stored[k].cand.inner.grant.Some?
    ensures var m, n := states[i].s.log.stored[j], states[i].s.log.stored[k];
            var a, b := AcceptedGrant(e, m), AcceptedGrant(e, n);
            && a.Ok? && b.Ok? && a.value.subject == m.cand.inner.from && b.value.subject == n.cand.inner.from
            && Grant.SignedBy(e, m.cand.inner.grant.value, m.cand.trust, a.value)
            && Grant.SignedBy(e, n.cand.inner.grant.value, n.cand.trust, b.value)
            && (a.value.id == b.value.id ==>
                  !Grant.InForce(e, a.value, m.cand.t.guardAt) || !Grant.InForce(e, b.value, n.cand.t.guardAt))
  {
    hide Ingest.TableOk, Ingest.ReplayOk, Ingest.LoopOk, Ingest.OutcomesOk, IsRun, VerifyIncoming, Grant.Verify,
      Grant.IsExpired, Grant.InForce, Grant.SignedBy;
    InvHolds(e, states, evs, i);
    var s := states[i].s;
    var m, n := s.log.stored[j], s.log.stored[k];
    assert m in s.log.stored && n in s.log.stored;
    assert Ingest.StoredOk(e, states[i].me, s) && Ingest.GrantOk(s);
    StoredGrant(e, states[i].me, m.cand);
    StoredGrant(e, states[i].me, n.cand);
  }

  // ---------------------------------------------------------------- replay

  /**
    With freshness on, the same payload is stored a second time only if the first copy's row was evicted less than
    the two freshness windows after it was stored, each widened by the truncated second.
   */
  lemma ReplayWindow(e: Env, states: seq<Agent>, evs: seq<Event>, i: nat, j: nat, k: nat)
    requires IsRun(e, states, evs) && i < |states| && j < k < |states[i].s.log.stored|
    requires var first, again := states[i].s.log.stored[j], states[i].s.log.stored[k];
             first.cand.raw == again.cand.raw && first.cand.cfg.freshnessSecs > 0 && again.cand.cfg.freshnessSecs > 0
    ensures var s := states[i].s;
            var first, again := s.log.stored[j], s.log.stored[k];
            && first.seqNo in s.log.evicted
            && 0 <= s.log.evicted[first.seqNo] - first.at
                 < (first.cand.cfg.freshnessSecs + 1) * NANOS + (again.cand.cfg.freshnessSecs + 1) * NANOS
  {
    hide Ingest.TableOk, Ingest.GrantOk, Ingest.LoopOk, Ingest.OutcomesOk, IsRun, FreshEnough, Ingest.Vouched;
    InvHolds(e, states, evs, i);
    var s := states[i].s;
    var first, again := s.log.stored[j], s.log.stored[k];
    assert first in s.log.stored && again in s.log.stored;
    assert Ingest.StoredOk(e, states[i].me, s) && Ingest.ReplayOk(s);
    SamePayloadSameMessage(e, states[i].me, first.cand, again.cand);
    assert Ingest.EvictedBetween(s, first, again);
    AcceptedFresh(e, states[i].me, first.cand);
    AcceptedFresh(e, states[i].me, again.cand);
  }

  lemma SamePayloadSameMessage(e: Env, me: Identity, c: Candidate, d: Candidate)
    requires Ingest.Vouched(e, me, c) && Ingest.Vouched(e, me, d) && c.raw == d.raw
    ensures c.inner.id == d.inner.id && c.inner.ts == d.inner.ts
  {
    hide VerifyIncoming, GuardId, Unwrap;
    MessageProofs.VerifyKeepsEnvelope(e, c.raw, me, c.trust, c.cfg, c.t);
    MessageProofs.VerifyKeepsEnvelope(e, d.raw, me, d.trust, d.cfg, d.t);
  }

  lemma AcceptedFresh(e: Env, me: Identity, c: Candidate)
    requires Ingest.Vouched(e, me, c) && c.cfg.freshnessSecs > 0
    ensures e.parseTime(c.inner.ts).Some?
         && Abs(c.t.freshAt - e.parseTime(c.inner.ts).value) < (c.cfg.freshnessSecs + 1) * NANOS
         && c.t.freshAt <= c.t.guardAt
  {
    hide VerifyIncoming, GuardId, MessageProofs.SignedByTrusted, MessageProofs.UnsignedAllowed;
    MessageProofs.AcceptedIsAuthentic(e, c.raw, me, c.trust, c.cfg, c.t);
    FreshIff(e, c.inner.ts, c.cfg.freshnessSecs, c.t.freshAt);
  }

  // ---------------------------------------------------------------- hand-off

  lemma {:induction false} OutboxHolds(e: Env, states: seq<Agent>, evs: seq<Event>, i: nat)
    requires Laws(e) && IsRun(e, states, evs) && i < |states|
    ensures Outbox.Inv(e, states[i])
  {
    hide Outbox.Inv, Apply, Enabled, Initial, Laws;
    if i == 0 {
      Outbox.InitialInv(e, states[0]);
    } else {
      OutboxHolds(e, states, evs, i - 1);
      assert Enabled(states[i - 1], evs[i - 1]);
      Outbox.StepKeeps(e, states[i - 1], evs[i - 1]);
    }
  }

  /**
    Whatever the interleaving of senders, pump and event loop, and wherever a crash strikes: a queued message is still
    in the outbox or was handed to the client; what was handed over is the message built under that id; and once an id
    has left the outbox its log row, if one was written, has reached `sent` or gone through eviction.
   */
  lemma NothingQueuedIsLost(e: Env, states: seq<Agent>, evs: seq<Event>, i: nat, id: string)
    requires Laws(e) && IsRun(e, states, evs) && i < |states| && id in states[i].s.log.queued
    ensures var s := states[i].s;
            && (Outbox.Waiting(s, id) || Outbox.Handed(s, id))
            && (forall ob | ob in s.db.outbox + s.log.handed && ob.id == id ::
                  id in s.log.built && Unwrap(e, ob.payload) == Some(s.log.built[id]))
            && (!Outbox.Waiting(s, id) ==>
                  && Outbox.OutSent(s.db.rows, id)
                  && (id in s.log.logged ==> id in s.log.evictedIds || Outbox.Logged(s.db.rows, id)))
  {
    hide IsRun, Outbox.OutSent, Outbox.Logged, Unwrap, Laws, Outbox.ThreadsOk;
    OutboxHolds(e, states, evs, i);
  }
}
