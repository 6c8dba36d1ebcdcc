/** No thread is ever stuck: whatever the state, each can go on, and left to itself it comes to its end. */
module Liveness {
  import opened Prelude
  import opened Env
  import opened Message
  import opened Steps
  import opened Paths
  import Store
  import Trust

  /** Bounds the steps a thread has before it. */
  function StepsLeft(task: Task): nat {
    match task
    case CheckGrant(_, _) => 10
    case StoreIn(_) => 9
    case Evict(_) => 8
    case AckedRow(_, _) => 8
    case MakeReceipt(_, _, _) => 7
    case LogOut(_, _, _) => 6
    case Enqueue(_, _) => 5
    case Publish(obs, _) => 3 * |obs| + 1
    case MarkSent(_, rest) => 3 * |rest| + 3
    case Dequeue(_, rest) => 3 * |rest| + 2
    case AddTrust(_) => 2
    case ForgetPair(_) => 1
  }

  lemma StepsFall(e: Env, a: Agent, task: Task, pick: Pick)
    ensures StepsLeft(task) > 0
    ensures NextOf(e, a, task, pick).Some? ==> StepsLeft(NextOf(e, a, task, pick).value) < StepsLeft(task)
  {
    hide Draft, OutboundOf, Store.HasId;
  }

  /** There is always an id no message of this agent has. */
  lemma FreshId(ids: set<string>) returns (id: string)
    ensures id !in ids
  {
    var rest, longest: nat := ids, 0;
    while rest != {}
      invariant forall x | x in ids - rest :: |x| <= longest
      decreases rest
    {
      var x :| x in rest;
      rest, longest := rest - {x}, Max(longest, |x|);
    }
    id := seq(longest + 1, i => 'x');
    assert id in ids ==> id in ids - rest;
  }

  /** A thread can always take its next step. */
  lemma CanStep(a: Agent, tid: nat) returns (pick: Pick)
    requires tid in a.threads
    ensures Enabled(a, Run(tid, pick))
  {
    hide Store.Enforced;
    var id := FreshId(a.s.log.built.Keys);
    pick := Pick(a.s.clock, a.s.db.lastSeq + 1, Draw(id, a.s.clock, [], [], seq(12, i => 0)), false, 0);
    if a.threads[tid].Evict? {
      Store.EnforcedLength(a.s.db.rows, a.threads[tid].cand.cfg.maxMessages, a.threads[tid].cand.cfg.maxBytes);
    }
  }

  lemma StepMoves(e: Env, a: Agent, tid: nat, pick: Pick)
    requires tid in a.threads && Enabled(a, Run(tid, pick))
    ensures var b := Apply(e, a, Run(tid, pick));
            b.me == a.me && b.threads == Continue(a.threads, tid, NextOf(e, a, a.threads[tid], pick))
  {
    hide Do, ActOf, NextOf;
  }

  /** Run alone, a thread ends within the steps left to it, and no other thread is touched. */
  lemma {:induction false} ThreadEnds(e: Env, a: Agent, tid: nat) returns (evs: seq<Event>, b: Agent)
    requires tid in a.threads
    ensures Reaches(e, a, evs, b) && Extends([], evs, tid) && |evs| <= StepsLeft(a.threads[tid])
    ensures b.threads == a.threads - {tid}
    decreases StepsLeft(a.threads[tid])
  {
    hide Enabled, Apply, NextOf, StepsLeft, Reaches;
    var pick := CanStep(a, tid);
    var ev := Run(tid, pick);
    var next := NextOf(e, a, a.threads[tid], pick);
    StepMoves(e, a, tid, pick);
    StepsFall(e, a, a.threads[tid], pick);
    ReachesStart(e, a);
    ReachesNext(e, a, [], a, ev);
    b, evs := Apply(e, a, ev), [ev];
    assert [] + [ev] == evs;
    if next.Some? {
      var more;
      more, b := ThreadEnds(e, b, tid);
      ReachesJoin(e, a, evs, Apply(e, a, ev), more, b);
      evs := evs + more;
    }
  }

  /** So from any state the daemon can come to rest without a crash. */
  lemma {:induction false} CanRest(e: Env, a: Agent) returns (evs: seq<Event>, b: Agent)
    ensures Reaches(e, a, evs, b) && b.threads == map[] && forall ev | ev in evs :: ev.Run?
    decreases |a.threads|
  {
    hide Reaches;
    if a.threads == map[] {
      ReachesStart(e, a);
      return [], a;
    }
    var tid :| tid in a.threads;
    evs, b := ThreadEnds(e, a, tid);
    var mid := b;
    assert |b.threads| < |a.threads| by {
      assert a.threads.Keys == b.threads.Keys + {tid};
    }
    var more;
    more, b := CanRest(e, mid);
    ReachesJoin(e, a, evs, mid, more, b);
    evs := evs + more;
  }

  /** A crash may strike in any state, and leaves the database, the trust file and what was handed over. */
  lemma CrashAnytime(e: Env, a: Agent)
    ensures Enabled(a, Crash)
    ensures var b := Apply(e, a, Crash);
            && b.threads == map[] && b.s.pending == map[] && b.s.db == a.s.db && b.s.trust == a.s.trust
            && b.s.log.built == a.s.log.built && b.s.log.handed == a.s.log.handed && b.s.log.stored == a.s.log.stored
            && b.s.log.ended == a.s.log.ended + (if |InFlight(a.threads)| > 0
                                                 then [Outcome(InFlight(a.threads)[0], Lost)] else [])
  {
  }

  /** The trust file may be edited in any state: the next payload is judged by the new one, and nothing else changes. */
  lemma TrustAnytime(e: Env, a: Agent, trust: Trust.Trust, ev: Event)
    requires ev.Deliver?
    ensures Enabled(a, EditTrust(trust))
    ensures var b := Apply(e, a, EditTrust(trust));
            && JudgeFor(e, b, ev) == Judge(e, a.me, ev.raw, ev.topic, trust, ev.cfg, ev.t)
            && b.threads == a.threads && b.s == a.s.(trust := trust)
  {
    hide Judge;
  }
}
