/** What a message and its receipt bring about, from one daemon to the other and back. */
module Receipts {
  import opened Prelude
  import opened Wire
  import opened Env
  import opened Message
  import opened MessageProofs
  import opened Steps
  import Ingest
  import Store
  import Trust

  // ---------------------------------------------------------------- the message arrives

  /** Neither a beacon nor a receipt nor a pairing hello. */
  predicate Ordinary(opts: BuildOpts) {
    && opts.kind != Receipt && opts.ctype != "application/agentmsg-receipt"
    && opts.ctype != "application/agentmsg-presence" && opts.ctype != "application/agentmsg-pair"
  }

  lemma SenderShown(e: Env, me: Identity, inner: Inner, unsigned: bool)
    requires Laws(e) && (unsigned || '#' !in me.name)
    ensures var w := e.wrapper.parse(Payload(e, me, inner, unsigned));
            && w == Some(Wrap(e, me, inner, unsigned)) && UnwrapInner(e, w.value) == Some(inner)
            && ClaimedSender(w.value) == if unsigned then None else Some(me.name)
  {
    UnwrapOfPayload(e, me, inner, unsigned);
    KidRoundTrip(me.name, e.fingerprint(e.pkOf(me.sk)));
  }

  /**
    An ordinary message of a recognised sender is accepted by the reader it was built for, with the text, kind and
    correlation its sender gave it, exactly if size, clock and grant allow it.
   */
  lemma MessageIsAccepted(e: Env, alice: Identity, bob: Identity, opts: BuildOpts, d: Draw,
                          topic: string, trust: Trust.Trust, cfg: Config, t: Readings)
    requires Laws(e) && SenderRecognised(e, alice, opts.unsigned, trust, cfg) && alice.name != bob.name
    requires Ordinary(opts)
    requires opts.encryptTo.None? || (opts.encryptTo == Some(e.ekOf(bob.dk)) && opts.to != BROADCAST)
    ensures BuildInner(e, alice, opts, d).Ok?
    ensures var raw := Payload(e, alice, BuildInner(e, alice, opts, d).value, opts.unsigned);
            var v := Judge(e, bob, raw, topic, trust, cfg, t);
            && (v.Accepted? <==> SizeAccepted(opts, cfg) && ClockAccepted(e, d, cfg, t.freshAt)
                                 && GrantAccepted(e, alice, opts, trust, t.grantAt))
            && (v.Accepted? ==> v.cand.raw == raw && v.cand.topic == topic && Delivers(v.cand.inner, alice, opts, d))
            && (!v.Accepted? ==> v.Refused?)
  {
    hide VerifyIncoming, SizeAccepted, ClockAccepted, GrantAccepted, VerifyPair, GuardId, SenderRecognised, Draft,
      Sealed, Expected, Payload;
    BuildThenVerify(e, alice, bob, opts, d, trust, cfg, t);
    var wire := BuildInner(e, alice, opts, d).value;
    WireCtype(e, alice, opts, d);
    Recognised(e, alice, opts.unsigned, trust, cfg);
    SenderShown(e, alice, wire, opts.unsigned);
  }

  lemma Recognised(e: Env, me: Identity, unsigned: bool, trust: Trust.Trust, cfg: Config)
    requires SenderRecognised(e, me, unsigned, trust, cfg)
    ensures unsigned || '#' !in me.name
  {
  }

  lemma WireCtype(e: Env, me: Identity, opts: BuildOpts, d: Draw)
    requires BuildInner(e, me, opts, d).Ok? && opts.ctype != CTYPE_PAIR
    ensures BuildInner(e, me, opts, d).value.ctype != CTYPE_PAIR
  {
  }

  /** Storing an accepted, new message adds its row and nothing else. */
  lemma AcceptedIsStored(e: Env, b: Agent, pick: Pick)
    requires Enabled(b, Run(LOOP, pick)) && b.threads[LOOP].StoreIn?
    requires !Store.HasId(b.s.db.rows, b.threads[LOOP].cand.inner.id)
    ensures var c, next := b.threads[LOOP].cand, Apply(e, b, Run(LOOP, pick));
            && next.threads == b.threads[LOOP := Evict(c)]
            && |next.s.db.rows| == |b.s.db.rows| + 1 && b.s.db.rows <= next.s.db.rows
            && var r := next.s.db.rows[|b.s.db.rows|];
               Store.Records(r, c.inner, c.topic) && r.direction == Store.In && r.seqNo == pick.seqNo
  {
    hide Store.Enforced, Store.HasId;
  }

  // ---------------------------------------------------------------- the receipt goes back

  /** A receipt is owed to the sender of a stored message, for that message. */
  lemma ReceiptGoesToSender(e: Env, b: Agent, tid: nat, pick: Pick)
    requires Ingest.StateOk(e, b.me, b.s) && Enabled(b, Run(tid, pick))
    requires NextOf(e, b, b.threads[tid], pick).Some? && NextOf(e, b, b.threads[tid], pick).value.MakeReceipt?
    ensures var task, owed := b.threads[tid], NextOf(e, b, b.threads[tid], pick).value;
            && (task.Evict? || task.AckedRow?)
            && (task.Evict? ==>
                  && owed.to == task.cand.inner.from && owed.topic == task.cand.topic
                  && owed.info == ReceiptInfo(task.cand.inner.id, ReceiptStatus.Delivered))
            && (task.AckedRow? ==>
                  && owed.info.status == ReceiptStatus.Read
                  && exists m :: m in b.s.log.stored && m.seqNo == task.seqNo && owed.to == m.cand.inner.from
                                 && owed.topic == m.cand.topic && owed.info.refId == m.cand.inner.id)
  {
    hide Ingest.StoredOk, Ingest.ReplayOk, Ingest.GrantOk, Store.Valid, Draft, OutboundOf, Store.HasId, Store.Enforced;
    assert Ingest.TableOk(b.s);
    var task := b.threads[tid];
    if task.AckedRow? {
      var r := Store.MessageBySeq(b.s.db.rows, task.seqNo).value;
      var m :| m in b.s.log.stored && r == Ingest.RowFor(m);
    }
  }

  lemma ReceiptBuilt(e: Env, b: Agent, tid: nat, pick: Pick)
    requires Enabled(b, Run(tid, pick)) && b.threads[tid].MakeReceipt?
    ensures var owed, next := b.threads[tid], Apply(e, b, Run(tid, pick));
            var inner := Draft(e, b.me, ReceiptOpts(owed.to, owed.info), pick.draw);
            tid in next.threads
            && next.threads[tid] == LogOut(inner, OutboundOf(e, b.me, inner, owed.topic, false), Stop)
  {
    hide Draft, OutboundOf, Store.Enforced;
  }

  lemma ReceiptJudged(e: Env, bob: Identity, alice: Identity, to: string, info: ReceiptInfo, d: Draw,
                      topic: string, trust: Trust.Trust, cfg: Config, t: Readings)
    requires Laws(e) && SenderRecognised(e, bob, false, trust, cfg) && bob.name != alice.name
    requires ClockAccepted(e, d, cfg, t.freshAt)
    ensures var inner := Draft(e, bob, ReceiptOpts(to, info), d);
            && Judge(e, alice, Payload(e, bob, inner, false), topic, trust, cfg, t) == Receipted(Some(info))
            && inner.to == to && inner.id == d.id && inner.receipt == Some(info)
  {
    hide VerifyIncoming, ClockAccepted, VerifyPair, GuardId, SenderRecognised, Payload, Draft;
    var opts := ReceiptOpts(to, info);
    var inner := Draft(e, bob, opts, d);
    ReceiptDraft(e, bob, to, info, d);
    BuildThenVerify(e, bob, alice, opts, d, trust, cfg, t);
    Recognised(e, bob, false, trust, cfg);
    SenderShown(e, bob, inner, false);
  }

  lemma DraftId(e: Env, me: Identity, opts: BuildOpts, d: Draw)
    ensures Draft(e, me, opts, d).id == d.id
  {
  }

  lemma ReceiptDraft(e: Env, bob: Identity, to: string, info: ReceiptInfo, d: Draw)
    ensures var opts := ReceiptOpts(to, info);
            var inner := Draft(e, bob, opts, d);
            && BuildInner(e, bob, opts, d) == Ok(inner)
            && !opts.unsigned && opts.encryptTo == None && opts.grant == None
            && inner.to == to && inner.id == d.id && inner.receipt == Some(info) && inner.enc == None
            && inner.ctype == CTYPE_RECEIPT && inner.kind == Receipt
            && forall cfg: Config :: SizeAccepted(opts, cfg)
  {
  }

  /**
    Any receipt the daemon makes reaches its addressee as a receipt: whoever recognises this daemon, at a time the
    clock allows, judges its payload to report exactly that status of exactly that message.
   */
  lemma ReceiptArrives(e: Env, b: Agent, tid: nat, pick: Pick,
                       alice: Identity, topic: string, trust: Trust.Trust, cfg: Config, t: Readings)
    requires Laws(e) && Enabled(b, Run(tid, pick)) && b.threads[tid].MakeReceipt?
    requires SenderRecognised(e, b.me, false, trust, cfg) && b.me.name != alice.name
    requires ClockAccepted(e, pick.draw, cfg, t.freshAt)
    ensures var owed, next := b.threads[tid], Apply(e, b, Run(tid, pick));
            && tid in next.threads && next.threads[tid].LogOut?
            && var task := next.threads[tid];
               && task.inner.to == owed.to && task.inner.id == task.ob.id == pick.draw.id && task.ob.topic == owed.topic
               && Judge(e, alice, task.ob.payload, topic, trust, cfg, t) == Receipted(Some(owed.info))
  {
    hide PickEnabled, Apply, Judge, Draft, ClockAccepted, SenderRecognised, Payload;
    ReceiptBuilt(e, b, tid, pick);
    ReceiptJudged(e, b.me, alice, b.threads[tid].to, b.threads[tid].info, pick.draw, topic, trust, cfg, t);
  }

  /**
    The payload is for `to`, and whoever recognises Bob, at a time the clock allows, judges it to report exactly this
    status of exactly this message.
   */
  ghost predicate Informs(e: Env, bob: Identity, d: Draw, to: string, info: ReceiptInfo, payload: Bytes) {
    && Unwrap(e, payload).Some? && Unwrap(e, payload).value.to == to && Unwrap(e, payload).value.id == d.id
    && forall alice: Identity, topic: string, trust: Trust.Trust, cfg: Config, t: Readings
         | SenderRecognised(e, bob, false, trust, cfg) && bob.name != alice.name
           && ClockAccepted(e, d, cfg, t.freshAt) ::
         Judge(e, alice, payload, topic, trust, cfg, t) == Receipted(Some(info))
  }

  lemma ReceiptInforms(e: Env, bob: Identity, to: string, info: ReceiptInfo, d: Draw)
    requires Laws(e)
    ensures Informs(e, bob, d, to, info, Payload(e, bob, Draft(e, bob, ReceiptOpts(to, info), d), false))
  {
    hide Judge, SenderRecognised, ClockAccepted, Payload, Draft, Laws, Unwrap;
    var inner := Draft(e, bob, ReceiptOpts(to, info), d);
    UnwrapOfPayload(e, bob, inner, false);
    ReceiptDraft(e, bob, to, info, d);
    forall alice: Identity, topic: string, trust: Trust.Trust, cfg: Config, t: Readings
      | SenderRecognised(e, bob, false, trust, cfg) && bob.name != alice.name && ClockAccepted(e, d, cfg, t.freshAt)
      ensures Judge(e, alice, Payload(e, bob, inner, false), topic, trust, cfg, t) == Receipted(Some(info))
    {
      ReceiptJudged(e, bob, alice, to, info, d, topic, trust, cfg, t);
    }
  }

  /** The delivery state a receipt leaves. */
  predicate Reports(before: Store.DeliveryState, status: ReceiptStatus, after: Store.DeliveryState) {
    match before
    case Failed => after == Store.Failed
    case Read => after == Store.DeliveryState.Read
    case _ => if status.Delivered? then after == Store.DeliveryState.Delivered else after == Store.DeliveryState.Read
  }

  /** Its arrival moves exactly the outbound rows of the message it names, and nothing else in the table. */
  lemma ReceiptTakesEffect(e: Env, a: Agent, ev: Event)
    requires Enabled(a, ev) && ev.Deliver? && JudgeFor(e, a, ev).Receipted? && JudgeFor(e, a, ev).receipt.Some?
    ensures var info, rows, after := JudgeFor(e, a, ev).receipt.value, a.s.db.rows, Apply(e, a, ev).s.db.rows;
            && |after| == |rows|
            && forall i | 0 <= i < |rows| ::
                 if rows[i].id == info.refId && rows[i].direction == Store.Out
                 then after[i] == rows[i].(state := after[i].state)
                      && Reports(rows[i].state, info.status, after[i].state)
                 else after[i] == rows[i]
  {
    hide Judge;
  }

  /**
    The whole way back: when Bob's loop has stored a direct message and is to answer it, Alice's log row of that
    message, pending or sent, becomes delivered once the receipt Bob then builds reaches her.
   */
  lemma DirectMessageIsAcknowledged(e: Env, bob: Agent, c: Candidate, p1: Pick, p2: Pick, alice: Agent, i: nat,
                                    topic: string, cfg: Config, t: Readings) returns (receipt: Store.Outbound)
    requires Laws(e) && LOOP in bob.threads && bob.threads[LOOP] == Evict(c) && Enabled(bob, Run(LOOP, p1))
    requires c.cfg.autoReceipts && c.inner.to == bob.me.name && c.inner.to != BROADCAST
    requires Enabled(Apply(e, bob, Run(LOOP, p1)), Run(LOOP, p2))
    requires bob.me.name != alice.me.name && SenderRecognised(e, bob.me, false, alice.s.trust, cfg)
    requires ClockAccepted(e, p2.draw, cfg, t.freshAt)
    requires LOOP !in alice.threads && alice.s.clock <= t.freshAt <= t.grantAt <= t.guardAt
    requires i < |alice.s.db.rows| && alice.s.db.rows[i].id == c.inner.id && alice.s.db.rows[i].direction == Store.Out
    requires alice.s.db.rows[i].state == Store.Pending || alice.s.db.rows[i].state == Store.Sent
    ensures var answering := Apply(e, Apply(e, bob, Run(LOOP, p1)), Run(LOOP, p2));
            && LOOP in answering.threads && answering.threads[LOOP].LogOut?
            && answering.threads[LOOP].ob == receipt && answering.threads[LOOP].inner.to == c.inner.from
    ensures var after := Apply(e, alice, Deliver(receipt.payload, topic, cfg, t)).s.db.rows;
            |after| == |alice.s.db.rows| && after[i] == alice.s.db.rows[i].(state := Store.DeliveryState.Delivered)
  {
    hide Judge, Draft, ClockAccepted, SenderRecognised, Payload, Laws, Apply, Enabled;
    AnswerOwed(e, bob, c, p1);
    var owing := Apply(e, bob, Run(LOOP, p1));
    ReceiptArrives(e, owing, LOOP, p2, alice.me, topic, alice.s.trust, cfg, t);
    receipt := Apply(e, owing, Run(LOOP, p2)).threads[LOOP].ob;
    DeliverEnabled(alice, receipt.payload, topic, cfg, t);
    ReceiptTakesEffect(e, alice, Deliver(receipt.payload, topic, cfg, t));
  }

  lemma DeliverEnabled(a: Agent, raw: Bytes, topic: string, cfg: Config, t: Readings)
    requires LOOP !in a.threads && a.s.clock <= t.freshAt <= t.grantAt <= t.guardAt
    ensures Enabled(a, Deliver(raw, topic, cfg, t))
  {
  }

  lemma AnswerOwed(e: Env, bob: Agent, c: Candidate, pick: Pick)
    requires LOOP in bob.threads && bob.threads[LOOP] == Evict(c) && Enabled(bob, Run(LOOP, pick))
    requires c.cfg.autoReceipts && c.inner.to == bob.me.name && c.inner.to != BROADCAST
    ensures var owing := Apply(e, bob, Run(LOOP, pick));
            && owing.me == bob.me && LOOP in owing.threads
            && owing.threads[LOOP]
               == MakeReceipt(c.inner.from, ReceiptInfo(c.inner.id, ReceiptStatus.Delivered), c.topic)
  {
    hide Store.Enforced, Store.DropOldest;
  }
}
