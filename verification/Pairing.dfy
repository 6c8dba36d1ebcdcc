/** Pairing over whole runs: what was shown is what gets trusted. */
module Pairing {
  import opened Prelude
  import opened Wire
  import opened Env
  import opened Message
  import opened Steps
  import opened Runs
  import MessageProofs
  import Receipts
  import Store
  import Trust

  datatype PairView = PairView(name: string, fingerprint: string, sas: string, kem: bool)

  /** `pair_list` */
  function PairList(e: Env, pending: map<string, PendingPair>): map<string, PairView> {
    map name | name in pending ::
      PairView(pending[name].name, e.fingerprint(pending[name].publicKey), pending[name].sas,
               pending[name].kemPublicKey.Some?)
  }

  /** Some payload received was a hello that verified to this entry, and the code compares both keys. */
  ghost predicate FromHello(e: Env, me: Identity, received: seq<Bytes>, entry: PendingPair) {
    && entry.sas == e.sas(e.pkOf(me.sk), entry.publicKey)
    && (exists raw :: raw in received
                      && VerifyPair(e, raw) == Ok(PairHello(entry.name, entry.publicKey, entry.kemPublicKey)))
  }

  ghost predicate Inv(e: Env, a: Agent) {
    && (forall name | name in a.s.pending ::
          a.s.pending[name].name == name && FromHello(e, a.me, a.s.log.received, a.s.pending[name]))
    && (forall tid | tid in a.threads && a.threads[tid].AddTrust? ::
          FromHello(e, a.me, a.s.log.received, a.threads[tid].entry))
  }

  lemma JudgedHello(e: Env, a: Agent, ev: Event)
    requires ev.Deliver? && JudgeFor(e, a, ev).Hello?
    ensures FromHello(e, a.me, [ev.raw], JudgeFor(e, a, ev).entry)
  {
    hide VerifyPair, VerifyIncoming, UnwrapInner;
    assert ev.raw in [ev.raw];
  }

  lemma FromHelloGrows(e: Env, me: Identity, received: seq<Bytes>, more: seq<Bytes>, entry: PendingPair)
    requires FromHello(e, me, received, entry) && forall raw | raw in received :: raw in more
    ensures FromHello(e, me, more, entry)
  {
  }

  lemma ActLeavesPending(s: State, act: Act)
    requires Possible(s, act) && !act.Arrive?
    ensures var u := Do(s, act);
            && u.log.received == s.log.received
            && forall name | name in u.pending :: name in s.pending && u.pending[name] == s.pending[name]
  {
    hide Store.ApplyEvent, Store.DropOldest, Store.HasId, Store.Insert;
  }

  lemma OnlyConfirmTrusts(e: Env, a: Agent, task: Task, pick: Pick)
    requires PickEnabled(a, task, pick)
    ensures NextOf(e, a, task, pick).Some? ==> !NextOf(e, a, task, pick).value.AddTrust?
    ensures Possible(a.s, ActOf(e, a, task, pick)) && !ActOf(e, a, task, pick).Arrive?
  {
    hide Store.Enforced, Draft, OutboundOf, Store.MessageBySeq, Store.HasId;
  }

  lemma ConfirmTakesPending(e: Env, a: Agent, req: Request)
    ensures var next := FirstTask(e, a, req);
            next.Some? && next.value.AddTrust? ==>
              exists name :: req == ConfirmReq(name) && name in a.s.pending && a.s.pending[name] == next.value.entry
    ensures Possible(a.s, FirstAct(e, a, req)) && !FirstAct(e, a, req).Arrive?
  {
    hide Draft, OutboundOf, BuildInner;
  }

  lemma NoNewPending(e: Env, a: Agent, ev: Event)
    requires Enabled(a, ev) && !ev.Deliver?
    ensures var b := Apply(e, a, ev);
            && b.s.log.received == a.s.log.received && b.me == a.me
            && (forall name | name in b.s.pending :: name in a.s.pending && b.s.pending[name] == a.s.pending[name])
            && (forall tid | tid in b.threads && b.threads[tid].AddTrust? ::
                  || (tid in a.threads && a.threads[tid] == b.threads[tid])
                  || (exists name :: ev == Begin(tid, ConfirmReq(name))
                                     && name in a.s.pending && a.s.pending[name] == b.threads[tid].entry))
  {
    hide Do, FirstTask, NextOf, FirstAct, ActOf;
    match ev {
      case Run(tid, pick) =>
        OnlyConfirmTrusts(e, a, a.threads[tid], pick);
        ActLeavesPending(a.s, ActOf(e, a, a.threads[tid], pick));
      case Begin(tid, req) =>
        ConfirmTakesPending(e, a, req);
        ActLeavesPending(a.s, FirstAct(e, a, req));
      case _ =>
    }
  }

  lemma StepKeeps(e: Env, a: Agent, ev: Event)
    requires Inv(e, a) && Enabled(a, ev)
    ensures Inv(e, Apply(e, a, ev))
  {
    hide FromHello, Judge, Enabled;
    var b := Apply(e, a, ev);
    if ev.Deliver? {
      hide ArriveDb;
      var v := JudgeFor(e, a, ev);
      assert b.s.log.received == a.s.log.received + [ev.raw];
      forall entry | FromHello(e, a.me, a.s.log.received, entry)
        ensures FromHello(e, a.me, b.s.log.received, entry)
      {
        FromHelloGrows(e, a.me, a.s.log.received, b.s.log.received, entry);
      }
      if v.Hello? {
        JudgedHello(e, a, ev);
        FromHelloGrows(e, a.me, [ev.raw], b.s.log.received, v.entry);
      }
    } else {
      hide Apply;
      NoNewPending(e, a, ev);
    }
  }

  lemma {:induction false} InvHolds(e: Env, states: seq<Agent>, evs: seq<Event>, i: nat)
    requires IsRun(e, states, evs) && i < |states|
    ensures Inv(e, states[i])
  {
    hide Apply, Enabled, FromHello;
    if i > 0 {
      InvHolds(e, states, evs, i - 1);
      assert Enabled(states[i - 1], evs[i - 1]);
      StepKeeps(e, states[i - 1], evs[i - 1]);
    }
  }

  /**
    A pairing hello that its sender built becomes pending under the sender's name, with the sender's own two keys and
    the code that compares both signing keys, unless an entry waits under that name already.
   */
  lemma HelloBecomesPending(e: Env, carol: Identity, d: Draw, a: Agent, topic: string, cfg: Config, t: Readings)
    requires Laws(e) && '#' !in carol.name && carol.name != a.me.name
    requires LOOP !in a.threads && a.s.clock <= t.freshAt <= t.grantAt <= t.guardAt
    ensures BuildInner(e, carol, PairOpts(e, carol), d).Ok?
    ensures var hello := BuildInner(e, carol, PairOpts(e, carol), d).value;
            var raw := MessageProofs.Payload(e, carol, hello, false);
            var before, after := a.s.pending, Apply(e, a, Deliver(raw, topic, cfg, t)).s.pending;
            && after.Keys == before.Keys + {carol.name}
            && (forall name | name in before :: after[name] == before[name])
            && (carol.name !in before ==>
                  after[carol.name] == PendingPair(carol.name, e.pkOf(carol.sk), Some(e.ekOf(carol.dk)),
                                                   e.sas(e.pkOf(a.me.sk), e.pkOf(carol.sk)), hello.ts))
  {
    hide VerifyPair, VerifyIncoming, ArriveDb, MessageProofs.Payload, PairOpts, BuildInner;
    MessageProofs.HelloRoundTrip(e, carol, d);
    var hello := BuildInner(e, carol, PairOpts(e, carol), d).value;
    Receipts.SenderShown(e, carol, hello, false);
  }

  // ---------------------------------------------------------------- immutability

  /** Event `k` may take the entry out: a restart, or a confirm that reaches its end. */
  predicate Forgets(states: seq<Agent>, evs: seq<Event>, k: nat, name: string)
    requires k < |evs| && k < |states|
  {
    || evs[k].Crash?
    || (evs[k].Run? && evs[k].tid in states[k].threads && states[k].threads[evs[k].tid] == ForgetPair(name))
  }

  lemma PendingStays(e: Env, a: Agent, ev: Event, name: string)
    requires Enabled(a, ev) && name in a.s.pending
    requires !ev.Crash? && !(ev.Run? && a.threads[ev.tid] == ForgetPair(name))
    ensures var b := Apply(e, a, ev); name in b.s.pending && b.s.pending[name] == a.s.pending[name]
  {
    hide Judge, ArriveDb, Store.ApplyEvent, Store.DropOldest, Store.Enforced, BuildInner, Draft, OutboundOf,
      Store.MessageBySeq, Store.Insert, Store.HasId, NextOf, FirstTask;
  }

  /** No later hello, from whomever, can replace a pending entry. */
  lemma {:induction false} PendingIsImmutable(e: Env, states: seq<Agent>, evs: seq<Event>, i: nat, j: nat, name: string)
    requires IsRun(e, states, evs) && i <= j < |states| && name in states[i].s.pending
    requires forall k: nat | i <= k < j :: !Forgets(states, evs, k, name)
    ensures name in states[j].s.pending && states[j].s.pending[name] == states[i].s.pending[name]
    decreases j
  {
    hide Apply, Enabled;
    if i < j {
      PendingIsImmutable(e, states, evs, i, j - 1, name);
      assert Enabled(states[j - 1], evs[j - 1]);
      assert !Forgets(states, evs, j - 1, name);
      if evs[j - 1].Run? {
        RunsExisting(states[j - 1], evs[j - 1]);
      }
      PendingStays(e, states[j - 1], evs[j - 1], name);
    }
  }

  lemma RunsExisting(a: Agent, ev: Event)
    requires Enabled(a, ev) && ev.Run?
    ensures ev.tid in a.threads
  {
    hide PickEnabled;
  }

  // ---------------------------------------------------------------- confirming

  /** The lookup that started this confirmation. */
  lemma {:induction false} ConfirmStarted(e: Env, states: seq<Agent>, evs: seq<Event>, j: nat, tid: nat)
    returns (k: nat)
    requires IsRun(e, states, evs) && j < |states| && tid in states[j].threads && states[j].threads[tid].AddTrust?
    ensures var entry := states[j].threads[tid].entry;
            && k < j && evs[k] == Begin(tid, ConfirmReq(entry.name))
            && entry.name in states[k].s.pending && states[k].s.pending[entry.name] == entry
  {
    hide Apply, Enabled, FromHello;
    if j == 0 {
      assert false;
    } else {
      var a, ev := states[j - 1], evs[j - 1];
      assert Enabled(a, ev);
      InvHolds(e, states, evs, j - 1);
      if tid in a.threads && a.threads[tid] == states[j].threads[tid] {
        k := ConfirmStarted(e, states, evs, j - 1, tid);
      } else {
        if ev.Deliver? {
          LoopOnly(e, a, ev, tid);
          assert false;
        } else {
          NoNewPending(e, a, ev);
          k := j - 1;
        }
      }
    }
  }

  lemma LoopOnly(e: Env, a: Agent, ev: Event, tid: nat)
    requires Enabled(a, ev) && ev.Deliver? && tid in Apply(e, a, ev).threads && Apply(e, a, ev).threads[tid].AddTrust?
    ensures tid in a.threads && a.threads[tid] == Apply(e, a, ev).threads[tid]
  {
    hide Judge, Do;
  }

  /**
    When a confirm writes the trust store, the key it trusts is the one whose code and fingerprint every `pair_list`
    showed from any earlier moment at which the name was pending up to the confirm's own lookup, with nothing removing
    it in between; and the holder of that key signed the hello.
   */
  lemma ConfirmTrustsWhatWasShown(e: Env, states: seq<Agent>, evs: seq<Event>, j: nat) returns (k: nat)
    requires IsRun(e, states, evs) && j < |evs| && evs[j].Run?
    requires evs[j].tid in states[j].threads && states[j].threads[evs[j].tid].AddTrust?
    ensures var entry, me := states[j].threads[evs[j].tid].entry, states[j].me;
            var trust := states[j + 1].s.trust;
            && Trust.PublicKey(trust, entry.name) == Some(entry.publicKey)
            && Trust.KemPublicKey(trust, entry.name) == entry.kemPublicKey
            && k < j && evs[k] == Begin(evs[j].tid, ConfirmReq(entry.name))
            && (forall h: nat | h <= k && entry.name in states[h].s.pending
                                && (forall x: nat | h <= x < k :: !Forgets(states, evs, x, entry.name)) ::
                  PairList(e, states[h].s.pending)[entry.name]
                  == PairView(entry.name, e.fingerprint(entry.publicKey), e.sas(e.pkOf(me.sk), entry.publicKey),
                              entry.kemPublicKey.Some?))
            && var hello := PairHello(entry.name, entry.publicKey, entry.kemPublicKey);
               exists raw :: raw in Payloads(evs[..j]) && MessageProofs.SelfSigned(e, raw, hello)
  {
    hide Enabled, MessageProofs.SelfSigned, VerifyPair, Payloads, Trust.PublicKey, Trust.KemPublicKey, Trust.AddWithKem;
    var tid := evs[j].tid;
    var entry := states[j].threads[tid].entry;
    k := ConfirmStarted(e, states, evs, j, tid);
    Trust.AddedKeys(states[j].s.trust, entry.name, entry.publicKey, entry.kemPublicKey, entry.name);
    TrustWritten(e, states, evs, j);
    hide Apply;
    InvHolds(e, states, evs, j);
    ReceivedAre(e, states, evs, j);
    forall h: nat | h <= k && entry.name in states[h].s.pending
                    && (forall x: nat | h <= x < k :: !Forgets(states, evs, x, entry.name))
      ensures states[h].s.pending[entry.name] == entry
    {
      PendingIsImmutable(e, states, evs, h, k, entry.name);
    }
    var raw :| raw in states[j].s.log.received
               && VerifyPair(e, raw) == Ok(PairHello(entry.name, entry.publicKey, entry.kemPublicKey));
    MessageProofs.HelloIsSelfSigned(e, raw, PairHello(entry.name, entry.publicKey, entry.kemPublicKey));
  }

  lemma TrustWritten(e: Env, states: seq<Agent>, evs: seq<Event>, j: nat)
    requires IsRun(e, states, evs) && j < |evs| && evs[j].Run?
    requires evs[j].tid in states[j].threads && states[j].threads[evs[j].tid].AddTrust?
    ensures var entry := states[j].threads[evs[j].tid].entry;
            states[j + 1].s.trust
            == Trust.AddWithKem(states[j].s.trust, entry.name, entry.publicKey, entry.kemPublicKey)
  {
    hide PickEnabled, Trust.AddWithKem;
    assert Enabled(states[j], evs[j]);
  }
}
