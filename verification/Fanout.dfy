/** Live subscribers and their lag notices (src/daemon.rs:40-55, 430-462, 999-1025). */
module Fanout {
  import opened Prelude
  import opened Store

  datatype Frame = Message(row: Row) | Lagged(dropped: nat)

  /** A bounded channel with its sender's running count of drops. */
  datatype Subscriber = Subscriber(id: nat, queue: seq<Frame>, connected: bool, dropped: nat)

  const CAPACITY := 256

  datatype SendResult = Sent | Full | Disconnected

  function TrySend(s: Subscriber, f: Frame): (Subscriber, SendResult) {
    if !s.connected then (s, Disconnected)
    else if |s.queue| >= CAPACITY then (s, Full)
    else (s.(queue := s.queue + [f]), SendResult.Sent)
  }

  /** The first half of a push: the outstanding lag notice, if any. `None` drops the subscriber. */
  function FlushLag(s: Subscriber): Option<Subscriber> {
    if s.dropped == 0 then Some(s)
    else
      var (t, r) := TrySend(s, Lagged(s.dropped));
      match r
      case Sent => Some(t.(dropped := 0))
      case Full => Some(t)
      case Disconnected => None
  }

  /** The second half: the message itself, counted when it does not fit. */
  function SendMessage(s: Subscriber, row: Row): Option<Subscriber> {
    var (t, r) := TrySend(s, Message(row));
    match r
    case Sent => Some(t)
    case Full => Some(t.(dropped := t.dropped + 1))
    case Disconnected => None
  }

  function Receive(s: Subscriber, n: nat): Subscriber {
    s.(queue := s.queue[Min(n, |s.queue|)..])
  }

  /** A whole push, the receiver taking `taken` frames between the two halves. */
  function Push(s: Subscriber, row: Row, taken: nat): Option<Subscriber> {
    match FlushLag(s)
    case None => None
    case Some(t) => SendMessage(Receive(t, taken), row)
  }

  function PushAll(subs: seq<Subscriber>, row: Row, taken: seq<nat>): seq<Subscriber>
    requires |taken| == |subs|
  {
    if subs == [] then []
    else
      var last := |subs| - 1;
      var kept := PushAll(subs[..last], row, taken[..last]);
      match Push(subs[last], row, taken[last])
      case None => kept
      case Some(s) => kept + [s]
  }

  /** A pass keeps exactly the subscribers it did not find hung up, each as its own push left it. */
  lemma {:induction false} PushAllKeeps(subs: seq<Subscriber>, row: Row, taken: seq<nat>, s: Subscriber)
    requires |taken| == |subs|
    ensures |PushAll(subs, row, taken)| <= |subs|
    ensures s in PushAll(subs, row, taken) <==> exists i :: 0 <= i < |subs| && Push(subs[i], row, taken[i]) == Some(s)
  {
    hide Push;
    if subs != [] {
      var last := |subs| - 1;
      var front, rest := subs[..last], taken[..last];
      PushAllKeeps(front, row, rest, s);
      if i :| 0 <= i < last && Push(subs[i], row, taken[i]) == Some(s) {
        assert Push(front[i], row, rest[i]) == Some(s);
      }
      if i :| 0 <= i < last && Push(front[i], row, rest[i]) == Some(s) {
        assert Push(subs[i], row, taken[i]) == Some(s);
      }
    }
  }

  /** While all are connected, none is dropped and the order stays. */
  lemma {:induction false} PushAllInOrder(subs: seq<Subscriber>, row: Row, taken: seq<nat>)
    requires |taken| == |subs| && forall s | s in subs :: s.connected
    ensures |PushAll(subs, row, taken)| == |subs|
    ensures forall i | 0 <= i < |subs| :: Push(subs[i], row, taken[i]) == Some(PushAll(subs, row, taken)[i])
  {
    hide Push;
    if subs != [] {
      var last := |subs| - 1;
      var front, rest := subs[..last], taken[..last];
      PushAllInOrder(front, row, rest);
      PushOutcome(subs[last], row, taken[last]);
      assert forall i | 0 <= i < last :: front[i] == subs[i] && rest[i] == taken[i];
    }
  }

  /** A subscriber stays exactly if it is connected; then message or drop count grows by one. */
  lemma PushOutcome(s: Subscriber, row: Row, taken: nat)
    ensures Push(s, row, taken).Some? <==> s.connected
    ensures s.connected ==>
              var t := Push(s, row, taken).value;
              && t.id == s.id && t.connected
              && (if |s.queue| < 255 || (|s.queue| == 255 && s.dropped == 0)
                  then t.dropped == 0 && t.queue[|t.queue| - 1..] == [Message(row)]
                  else t.dropped > 0 || Message(row) in t.queue)
  {
  }

  class Registry {
    var subs: seq<Subscriber>

    constructor ()
      ensures subs == []
    {
      subs := [];
    }

    /** `push_to_subscribers`: one pass over the registry, keeping the subscribers still there. */
    method PushToSubscribers(row: Row, taken: seq<nat>)
      requires |taken| == |subs|
      modifies this
      ensures subs == PushAll(old(subs), row, taken)
    {
      var kept: seq<Subscriber> := [];
      for i := 0 to |subs|
        invariant subs == old(subs)
        invariant kept == PushAll(subs[..i], row, taken[..i])
      {
        var s := subs[i];
        var retain := true;
        if s.dropped > 0 {
          var (t, r) := TrySend(s, Lagged(s.dropped));
          match r {
            case Sent => s := t.(dropped := 0);
            case Full => s := t;
            case Disconnected => retain := false;
          }
        }
        if retain {
          s := Receive(s, taken[i]);
          var (t, r) := TrySend(s, Message(row));
          match r {
            case Sent => s := t;
            case Full => s := t.(dropped := t.dropped + 1);
            case Disconnected => retain := false;
          }
        }
        assert subs[..i + 1][..i] == subs[..i] && taken[..i + 1][..i] == taken[..i];
        if retain {
          kept := kept + [s];
        }
      }
      assert subs[..|subs|] == subs && taken[..|subs|] == taken;
      subs := kept;
    }
  }

  // ---------------------------------------------------------------- one subscriber's whole life

  /** A subscriber with its history: messages offered, frames enqueued, frames received, and for each enqueued frame
      the number of messages offered before it. `pushing` is a push between its two halves. */
  datatype Feed = Feed(
    sub: Subscriber, offered: seq<Row>, frames: seq<Frame>, origin: seq<nat>, received: seq<Frame>,
    pushing: Option<Row>, live: bool)

  datatype Event = BeginPush(row: Row) | EndPush | Take | HangUp

  function Start(id: nat): Feed {
    Feed(Subscriber(id, [], true, 0), [], [], [], [], None, true)
  }

  predicate Enabled(f: Feed, e: Event) {
    match e
    case BeginPush(_) => f.live && f.pushing.None?
    case EndPush => f.live && f.pushing.Some?
    case Take => f.sub.queue != []
    case HangUp => true
  }

  /** Records what a push half appended to the queue. */
  function Enqueued(f: Feed, t: Subscriber): Feed {
    if |t.queue| > |f.sub.queue| then
      f.(sub := t, frames := f.frames + [t.queue[|t.queue| - 1]], origin := f.origin + [|f.offered|])
    else f.(sub := t)
  }

  function Apply(f: Feed, e: Event): Feed
    requires Enabled(f, e)
  {
    match e
    case BeginPush(row) =>
      (match FlushLag(f.sub)
       case None => f.(live := false)
       case Some(t) => Enqueued(f, t).(pushing := Some(row)))
    case EndPush =>
      (match SendMessage(f.sub, f.pushing.value)
       case None => f.(live := false)
       case Some(t) => Enqueued(f, t).(offered := f.offered + [f.pushing.value], pushing := None))
    case Take => f.(sub := Receive(f.sub, 1), received := f.received + [f.sub.queue[0]])
    case HangUp => f.(sub := f.sub.(connected := false))
  }

  /** A receiver may hang up at any time; the next push finds out, enqueues nothing and ends the feed. */
  lemma HangUpEnds(f: Feed, row: Row)
    requires f.live && f.pushing.None?
    ensures Enabled(f, HangUp) && Enabled(Apply(f, HangUp), BeginPush(row))
    ensures var g := Apply(Apply(f, HangUp), BeginPush(row));
            && g.frames == f.frames && g.offered == f.offered
            && if f.sub.dropped > 0 then !g.live
               else Enabled(g, EndPush) && !Apply(g, EndPush).live && Apply(g, EndPush).frames == f.frames
  {
  }

  ghost predicate Trace(f: Feed, evs: seq<Event>)
    decreases |evs|
  {
    evs == [] || (Enabled(f, evs[0]) && Trace(Apply(f, evs[0]), evs[1..]))
  }

  ghost function Run(f: Feed, evs: seq<Event>): Feed
    requires Trace(f, evs)
    decreases |evs|
  {
    if evs == [] then f else Run(Apply(f, evs[0]), evs[1..])
  }

  function Weight(f: Frame): nat {
    match f
    case Message(_) => 1
    case Lagged(d) => d
  }

  /** Where a reader of the frames believes the offered sequence stands. */
  function Replay(frames: seq<Frame>): nat {
    if frames == [] then 0 else Replay(frames[..|frames| - 1]) + Weight(frames[|frames| - 1])
  }

  lemma ReplayAppend(frames: seq<Frame>, f: Frame)
    ensures Replay(frames + [f]) == Replay(frames) + Weight(f)
  {
    assert (frames + [f])[..|frames|] == frames;
  }

  /** Nothing offered goes unaccounted, and the receiver sees the enqueued frames in order. */
  ghost predicate Accounts(f: Feed) {
    && |f.offered| == Replay(f.frames) + f.sub.dropped
    && f.received + f.sub.queue == f.frames && |f.origin| == |f.frames|
    && |f.sub.queue| <= CAPACITY
  }

  /** Each message frame carries the message offered at its origin, at or past where a replay puts it. */
  ghost predicate Placed(f: Feed) {
    && |f.origin| == |f.frames|
    && forall k | 0 <= k < |f.frames| && f.frames[k].Message? ::
         f.origin[k] < |f.offered| && f.offered[f.origin[k]] == f.frames[k].row
         && Replay(f.frames[..k]) <= f.origin[k]
  }

  lemma BeginKeepsAccounts(f: Feed, row: Row)
    requires Accounts(f) && Enabled(f, BeginPush(row))
    ensures Accounts(Apply(f, BeginPush(row)))
  {
    hide Replay;
    ReplayAppend(f.frames, Lagged(f.sub.dropped));
  }

  lemma EndKeepsAccounts(f: Feed)
    requires Accounts(f) && Enabled(f, EndPush)
    ensures Accounts(Apply(f, EndPush))
  {
    hide Replay;
    ReplayAppend(f.frames, Message(f.pushing.value));
  }

  lemma StepKeepsAccounts(f: Feed, e: Event)
    requires Accounts(f) && Enabled(f, e)
    ensures Accounts(Apply(f, e))
  {
    hide Replay;
    match e {
      case BeginPush(row) => BeginKeepsAccounts(f, row);
      case EndPush => EndKeepsAccounts(f);
      case Take => assert f.received + f.sub.queue == (f.received + [f.sub.queue[0]]) + f.sub.queue[1..];
      case HangUp =>
    }
  }

  lemma StepKeepsPlaces(f: Feed, e: Event)
    requires Accounts(f) && Placed(f) && Enabled(f, e)
    ensures Placed(Apply(f, e))
  {
    var next := Apply(f, e);
    forall k | 0 <= k < |next.frames| && next.frames[k].Message?
      ensures next.origin[k] < |next.offered| && next.offered[next.origin[k]] == next.frames[k].row
              && Replay(next.frames[..k]) <= next.origin[k]
    {
      if k < |f.frames| {
        assert next.frames[k] == f.frames[k] && next.frames[..k] == f.frames[..k];
      } else {
        assert next.frames[..k] == f.frames;
      }
    }
  }

  lemma {:induction false} RunKeepsAccounts(f: Feed, evs: seq<Event>)
    requires Accounts(f) && Placed(f) && Trace(f, evs)
    ensures Accounts(Run(f, evs)) && Placed(Run(f, evs))
    decreases |evs|
  {
    if evs != [] {
      StepKeepsAccounts(f, evs[0]);
      StepKeepsPlaces(f, evs[0]);
      RunKeepsAccounts(Apply(f, evs[0]), evs[1..]);
    }
  }

  /**
    In every interleaving of push halves, receives and hang-ups: messages offered are the messages enqueued plus
    the announced drops plus the drops still counted, and the frames received are a prefix of those enqueued.
   */
  lemma NothingUnaccounted(id: nat, evs: seq<Event>)
    requires Trace(Start(id), evs)
    ensures var f := Run(Start(id), evs);
            && |f.offered| == Replay(f.frames) + f.sub.dropped
            && f.received <= f.frames
  {
    RunKeepsAccounts(Start(id), evs);
    var f := Run(Start(id), evs);
    assert f.received + f.sub.queue == f.frames;
  }

  /** Replaying the frames before a message gives its exact position among the messages offered. */
  ghost predicate Exact(f: Feed) {
    && |f.origin| == |f.frames|
    && forall k | 0 <= k < |f.frames| && f.frames[k].Message? :: Replay(f.frames[..k]) == f.origin[k]
  }

  /** The second half of a push finds room although drops are still unannounced. */
  predicate Slips(f: Feed, e: Event) {
    e.EndPush? && f.sub.connected && |f.sub.queue| < CAPACITY && f.sub.dropped > 0
  }

  ghost predicate NoSlip(f: Feed, evs: seq<Event>)
    requires Trace(f, evs)
    decreases |evs|
  {
    evs != [] ==> !Slips(f, evs[0]) && NoSlip(Apply(f, evs[0]), evs[1..])
  }

  /** A message that finds room is off by exactly the drops unannounced when it is enqueued. */
  lemma OffByOutstanding(f: Feed)
    requires Accounts(f) && Enabled(f, EndPush) && f.sub.connected && |f.sub.queue| < CAPACITY
    ensures var next := Apply(f, EndPush);
            var k := |next.frames| - 1;
            && next.frames == f.frames + [Message(f.pushing.value)] && next.origin[k] == |f.offered|
            && next.origin[k] - Replay(next.frames[..k]) == f.sub.dropped
  {
    var next := Apply(f, EndPush);
    assert next.frames[..|next.frames| - 1] == f.frames;
  }

  /** Frames and origins already there stay. */
  lemma FramesStay(f: Feed, e: Event)
    requires Enabled(f, e) && |f.origin| == |f.frames|
    ensures f.frames <= Apply(f, e).frames && f.origin <= Apply(f, e).origin
    ensures |Apply(f, e).origin| == |Apply(f, e).frames| <= |f.frames| + 1
    ensures |Apply(f, e).frames| > |f.frames| && Apply(f, e).frames[|f.frames|].Message? ==>
              e.EndPush? && f.sub.connected && |f.sub.queue| < CAPACITY
  {
  }

  lemma InexactStays(f: Feed, e: Event)
    requires Enabled(f, e) && |f.origin| == |f.frames| && !Exact(f)
    ensures !Exact(Apply(f, e))
  {
    hide Replay, Apply;
    FramesStay(f, e);
    var next := Apply(f, e);
    var k :| 0 <= k < |f.frames| && f.frames[k].Message? && Replay(f.frames[..k]) != f.origin[k];
    assert next.frames[k] == f.frames[k] && next.frames[..k] == f.frames[..k] && next.origin[k] == f.origin[k];
  }

  /** A step keeps every position exact unless it slips. */
  lemma StepExactIff(f: Feed, e: Event)
    requires Accounts(f) && Exact(f) && Enabled(f, e)
    ensures Exact(Apply(f, e)) <==> !Slips(f, e)
  {
    FramesStay(f, e);
    var next, n := Apply(f, e), |f.frames|;
    if e.EndPush? && f.sub.connected && |f.sub.queue| < CAPACITY {
      OffByOutstanding(f);
      assert next.frames[n].Message?;
    }
    hide Replay, Apply, Accounts;
    forall k | 0 <= k < |next.frames| && next.frames[k].Message? && !Slips(f, e)
      ensures Replay(next.frames[..k]) == next.origin[k]
    {
      if k < n {
        assert next.frames[k] == f.frames[k] && next.frames[..k] == f.frames[..k] && next.origin[k] == f.origin[k];
      }
    }
  }

  lemma {:induction false} InexactRuns(f: Feed, evs: seq<Event>)
    requires Accounts(f) && Trace(f, evs) && !Exact(f)
    ensures !Exact(Run(f, evs))
    decreases |evs|
  {
    hide Exact, Apply, Replay;
    if evs != [] {
      StepKeepsAccounts(f, evs[0]);
      InexactStays(f, evs[0]);
      InexactRuns(Apply(f, evs[0]), evs[1..]);
    }
  }

  lemma {:induction false} RunExactIff(f: Feed, evs: seq<Event>)
    requires Accounts(f) && Exact(f) && Trace(f, evs)
    ensures Exact(Run(f, evs)) <==> NoSlip(f, evs)
    decreases |evs|
  {
    hide Accounts, Exact, Apply, Slips;
    if evs != [] {
      StepKeepsAccounts(f, evs[0]);
      StepExactIff(f, evs[0]);
      if Slips(f, evs[0]) {
        InexactRuns(Apply(f, evs[0]), evs[1..]);
      } else {
        RunExactIff(Apply(f, evs[0]), evs[1..]);
      }
    }
  }

  /**
    Over every interleaving: replaying the frames gives the exact position of every message if and only if no message
    was ever enqueued while drops were still unannounced.
   */
  lemma ExactIffNoneOutstanding(id: nat, evs: seq<Event>)
    requires Trace(Start(id), evs)
    ensures Exact(Run(Start(id), evs)) <==> NoSlip(Start(id), evs)
  {
    RunExactIff(Start(id), evs);
  }

  // ---------------------------------------------------------------- when there are no slips

  /** No receive falls between the two halves of a push. */
  predicate Unbroken(evs: seq<Event>) {
    forall i | 0 <= i < |evs| - 1 && evs[i].BeginPush? :: !evs[i + 1].Take?
  }

  /** Between the halves, drops can be outstanding only in front of a full queue. */
  ghost predicate FullWhenLagging(f: Feed) {
    f.live && f.sub.connected && f.pushing.Some? && f.sub.dropped > 0 ==> |f.sub.queue| == CAPACITY
  }

  lemma StepKeepsFull(f: Feed, e: Event)
    requires Accounts(f) && FullWhenLagging(f) && Enabled(f, e)
    requires f.pushing.Some? && f.sub.connected ==> !e.Take?
    ensures FullWhenLagging(Apply(f, e)) && !Slips(f, e)
  {
    hide Replay;
  }

  lemma {:induction false} UnbrokenHasNoSlip(f: Feed, evs: seq<Event>)
    requires Accounts(f) && FullWhenLagging(f) && Trace(f, evs) && Unbroken(evs)
    requires evs != [] && f.pushing.Some? && f.sub.connected ==> !evs[0].Take?
    ensures NoSlip(f, evs)
    decreases |evs|
  {
    hide Accounts;
    if evs != [] {
      StepKeepsAccounts(f, evs[0]);
      StepKeepsFull(f, evs[0]);
      UnbrokenHasNoSlip(Apply(f, evs[0]), evs[1..]);
    }
  }

  /** When no receive falls between the halves of a push, replaying the frames locates every message exactly. */
  lemma ReplayIsExact(id: nat, evs: seq<Event>, k: nat)
    requires Trace(Start(id), evs) && Unbroken(evs)
    requires k < |Run(Start(id), evs).frames| && Run(Start(id), evs).frames[k].Message?
    ensures var f := Run(Start(id), evs);
            var at := Replay(f.frames[..k]);
            at < |f.offered| && f.offered[at] == f.frames[k].row
  {
    UnbrokenHasNoSlip(Start(id), evs);
    ExactIffNoneOutstanding(id, evs);
    RunKeepsAccounts(Start(id), evs);
  }

  // ---------------------------------------------------------------- a run that slips

  lemma {:induction false} RunAppend(f: Feed, evs: seq<Event>, more: seq<Event>)
    requires Trace(f, evs) && Trace(Run(f, evs), more)
    ensures Trace(f, evs + more) && Run(f, evs + more) == Run(Run(f, evs), more)
    decreases |evs|
  {
    hide Apply, Enabled;
    if evs == [] {
      assert evs + more == more;
    } else {
      assert (evs + more)[1..] == evs[1..] + more;
      RunAppend(Apply(f, evs[0]), evs[1..], more);
    }
  }

  lemma RunCons(f: Feed, e: Event, rest: seq<Event>)
    requires Enabled(f, e) && Trace(Apply(f, e), rest)
    ensures Trace(f, [e] + rest) && Run(f, [e] + rest) == Run(Apply(f, e), rest)
  {
    assert ([e] + rest)[1..] == rest;
  }

  /** Between pushes, connected, `n` frames waiting and nothing dropped. */
  predicate Idle(f: Feed, n: nat) {
    f.live && f.pushing.None? && f.sub.connected && |f.sub.queue| == n && f.sub.dropped == 0
  }

  /** `n` whole pushes and no receive. */
  function Fill(row: Row, n: nat): seq<Event> {
    if n == 0 then [] else Fill(row, n - 1) + [BeginPush(row), EndPush]
  }

  lemma PushFits(f: Feed, row: Row, n: nat)
    requires Idle(f, n) && n < CAPACITY
    ensures Trace(f, [BeginPush(row), EndPush]) && Idle(Run(f, [BeginPush(row), EndPush]), n + 1)
  {
    var mid := Apply(f, BeginPush(row));
    var next := Apply(mid, EndPush);
    assert Idle(next, n + 1);
    RunCons(mid, EndPush, []);
    RunCons(f, BeginPush(row), [EndPush]);
    assert [EndPush] + [] == [EndPush] && [BeginPush(row)] + [EndPush] == [BeginPush(row), EndPush];
  }

  lemma {:induction false} FillRuns(id: nat, row: Row, n: nat)
    requires n <= CAPACITY
    ensures Trace(Start(id), Fill(row, n)) && Idle(Run(Start(id), Fill(row, n)), n)
  {
    hide Apply, Enabled;
    if n > 0 {
      FillRuns(id, row, n - 1);
      PushFits(Run(Start(id), Fill(row, n - 1)), row, n - 1);
      RunAppend(Start(id), Fill(row, n - 1), [BeginPush(row), EndPush]);
    }
  }

  /** The queue fills, one message drops, and a receive falls between the halves of the next push. */
  function SlipEvents(a: Row, b: Row): seq<Event> {
    [BeginPush(a), EndPush, BeginPush(b), Take, EndPush]
  }

  lemma FullQueueSlips(f: Feed, a: Row, b: Row)
    requires Accounts(f) && Idle(f, CAPACITY)
    ensures Trace(f, SlipEvents(a, b)) && !NoSlip(f, SlipEvents(a, b))
  {
    hide Replay;
    var evs := SlipEvents(a, b);
    var f1 := Apply(f, evs[0]);
    var f2 := Apply(f1, evs[1]);
    var f3 := Apply(f2, evs[2]);
    var f4 := Apply(f3, evs[3]);
    assert Idle(f2.(sub := f2.sub.(dropped := 0)), CAPACITY) && f2.sub.dropped == 1;
    assert f3.sub.dropped == 1 && |f3.sub.queue| == CAPACITY && f3.pushing == Some(b);
    assert Slips(f4, EndPush) && Enabled(f4, EndPush);
    hide Apply, Slips;
    assert evs[1..] == [EndPush, BeginPush(b), Take, EndPush] && evs[1..][1..] == [BeginPush(b), Take, EndPush];
    assert evs[1..][1..][1..] == [Take, EndPush] && evs[1..][1..][1..][1..] == [EndPush];
    assert [EndPush][1..] == [];
    assert Trace(f4, [EndPush]) && !NoSlip(f4, [EndPush]);
    assert Trace(f3, [Take, EndPush]) && !NoSlip(f3, [Take, EndPush]);
    assert Trace(f2, evs[1..][1..]) && !NoSlip(f2, evs[1..][1..]);
    assert Trace(f1, evs[1..]) && !NoSlip(f1, evs[1..]);
  }

  /** So in some run a receive between the halves puts a message in the wrong place. */
  lemma ReceiveBetweenHalvesSlips(id: nat, a: Row, b: Row)
    ensures var evs := Fill(a, 256) + SlipEvents(a, b);
            Trace(Start(id), evs) && !Exact(Run(Start(id), evs))
  {
    hide Apply, Enabled, Slips, SlipEvents, Replay, Exact, Fill;
    FillRuns(id, a, CAPACITY);
    var full := Run(Start(id), Fill(a, CAPACITY));
    StartAccounts(id);
    RunKeepsAccounts(Start(id), Fill(a, CAPACITY));
    FullQueueSlips(full, a, b);
    RunAppend(Start(id), Fill(a, CAPACITY), SlipEvents(a, b));
    SlipsAreInexact(full, SlipEvents(a, b));
  }

  lemma StartAccounts(id: nat)
    ensures Accounts(Start(id)) && Placed(Start(id)) && Exact(Start(id))
  {
  }

  lemma SlipsAreInexact(f: Feed, evs: seq<Event>)
    requires Accounts(f) && Trace(f, evs) && !NoSlip(f, evs)
    ensures !Exact(Run(f, evs))
  {
    hide Accounts, Trace, Run, NoSlip, Exact;
    if Exact(f) {
      RunExactIff(f, evs);
    } else {
      InexactRuns(f, evs);
    }
  }

  /** The registry's pass performs exactly the two halves on each subscriber. */
  lemma {:induction false} PushIsTwoHalves(f: Feed, row: Row, taken: nat)
    requires f.live && f.pushing.None?
    requires FlushLag(f.sub).Some? ==> taken <= |FlushLag(f.sub).value.queue|
    ensures var mid := Apply(f, BeginPush(row));
            if Push(f.sub, row, taken).None? then !mid.live || !Apply(TakeAll(mid, taken), EndPush).live
            else mid.live && Apply(TakeAll(mid, taken), EndPush).sub == Push(f.sub, row, taken).value
  {
    var mid := Apply(f, BeginPush(row));
    if mid.live {
      TakeAllIsReceive(mid, taken);
    }
  }

  function TakeAll(f: Feed, n: nat): (g: Feed)
    ensures g.live == f.live && g.pushing == f.pushing
    decreases n
  {
    if n == 0 || f.sub.queue == [] then f else TakeAll(Apply(f, Take), n - 1)
  }

  lemma {:induction false} TakeAllIsReceive(f: Feed, n: nat)
    requires n <= |f.sub.queue|
    ensures TakeAll(f, n).sub == Receive(f.sub, n)
    decreases n
  {
    if n > 0 {
      TakeAllIsReceive(Apply(f, Take), n - 1);
      assert f.sub.queue[1..][n - 1..] == f.sub.queue[n..];
    }
  }
}
