/**
  Where grant single use stops: the daemon checks a grant a second time with a later clock reading and skips the
  replay guard when that check fails, so a message judged just before expiry is stored although its grant is spent.
 */
module Expiry {
  import opened Prelude
  import opened Wire
  import opened Env
  import opened Message
  import opened MessageProofs
  import opened Paths
  import opened Steps
  import Base64
  import Grant
  import Ideal
  import Ingest
  import Runs
  import Store
  import Trust
  import Utf8

  // ---------------------------------------------------------------- one delivery

  /**
    A message whose grant id is already spent, verified at ingest, is refused exactly if the grant has still not
    expired at the second reading; otherwise it is stored, being new.
   */
  lemma SpentGrantRefusedIff(e: Env, a: Agent, ev: Event, pick: Pick)
    requires Enabled(a, ev) && ev.Deliver? && JudgeFor(e, a, ev).Accepted?
    requires JudgeFor(e, a, ev).cand.inner.grant.Some?
    requires Enabled(Apply(e, a, ev), Run(LOOP, pick))
    requires !Store.HasId(a.s.db.rows, JudgeFor(e, a, ev).cand.inner.id)
    ensures var c := JudgeFor(e, a, ev).cand;
            var checked := Grant.Verify(e, c.inner.grant.value, c.trust, c.t.grantAt);
            checked.Ok? && Grant.SignedBy(e, c.inner.grant.value, c.trust, checked.value) &&
            (checked.value.id in a.s.db.seenGrants ==>
               var stored := Apply(e, Apply(e, a, ev), Run(LOOP, pick)).s.log.stored;
               stored == if Grant.InForce(e, checked.value, ev.t.guardAt) then a.s.log.stored
                         else a.s.log.stored + [StoredMsg(c, pick.seqNo, pick.now)])
  {
    hide Judge, Grant.Verify, Grant.IsExpired, Grant.InForce, VerifyIncoming, Store.Enforced, Store.HasId, ArriveDb,
      ArrivePending;
    var c := JudgeFor(e, a, ev).cand;
    Ingest.JudgedAccepted(e, a, ev);
    Runs.StoredGrant(e, a.me, c);
    AcceptedDb(a.s.db, c);
  }

  lemma AcceptedDb(db: Store.Db, c: Candidate)
    ensures ArriveDb(db, Accepted(c)) == db
  {
  }

  // ---------------------------------------------------------------- the scene

  /** Alice writes twice to Bob under one grant of an authority Bob trusts; `reply` is what Bob's receipt draws. */
  datatype Scene = Scene(
    alice: Identity, bob: Identity, authority: Grant.Authority, claims: GrantClaims, expiry: int,
    trust: Trust.Trust, cfg: Config, first: Draw, second: Draw, reply: Draw)

  /** Both letters are fresh at the moment the grant expires. Configuration is otherwise free. */
  ghost predicate Plausible(e: Env, x: Scene) {
    && Laws(e)
    && '#' !in x.alice.name && '#' !in x.authority.name && x.alice.name != x.bob.name
    && Trust.PublicKey(x.trust, x.alice.name) == Some(e.pkOf(x.alice.sk))
    && Trust.AuthorityKey(x.trust, x.authority.name) == Some(e.pkOf(x.authority.sk))
    && x.claims.subject == x.alice.name && e.parseTime(x.claims.expiry) == Some(x.expiry)
    && ClockAccepted(e, x.first, x.cfg, x.expiry) && ClockAccepted(e, x.second, x.cfg, x.expiry)
    && x.first.id != x.second.id && x.reply.id != x.second.id
  }

  function Opts(e: Env, x: Scene): BuildOpts {
    DefaultOpts(x.bob.name, "text/plain", "").(grant := Some(Grant.Mint(e, x.authority, x.claims)))
  }

  function Letter(e: Env, x: Scene, d: Draw): Inner {
    Draft(e, x.alice, Opts(e, x), d)
  }

  function Raw(e: Env, x: Scene, d: Draw): Bytes {
    Payload(e, x.alice, Letter(e, x, d), false)
  }

  function Cand(e: Env, x: Scene, d: Draw, guardAt: int): Candidate {
    Candidate(Raw(e, x, d), Letter(e, x, d), "t", x.cfg, x.trust, Readings(x.expiry, x.expiry, guardAt),
              if guardAt > x.expiry then None else Some(x.claims.id))
  }

  /** Bob accepts either letter at the moment of expiry, but guards it only while the clock has not moved on. */
  lemma LetterAccepted(e: Env, x: Scene, d: Draw, guardAt: int)
    requires Plausible(e, x) && guardAt >= x.expiry && (d == x.first || d == x.second)
    ensures Judge(e, x.bob, Raw(e, x, d), "t", x.trust, x.cfg, Readings(x.expiry, x.expiry, guardAt))
         == Accepted(Cand(e, x, d, guardAt))
  {
    hide VerifyIncoming, Grant.Verify, Grant.Mint, Draft, Wrap, VerifyPair, Expected, FreshEnough, Timestamp;
    var t := Readings(x.expiry, x.expiry, guardAt);
    var letter := Letter(e, x, d);
    LetterIs(e, x, d);
    Grant.MintVerifies(e, x.authority, x.claims, x.trust, x.expiry);
    Grant.MintVerifies(e, x.authority, x.claims, x.trust, guardAt);
    assert Utf8.Encode("") == [];
    BuildThenVerify(e, x.alice, x.bob, Opts(e, x), d, x.trust, x.cfg, t);
    LetterVerified(e, x, d, t);
    NotAnEcho(e, x, d);
  }

  lemma LetterIs(e: Env, x: Scene, d: Draw)
    ensures var letter := Letter(e, x, d);
            && letter.enc == None && letter.ctype == "text/plain" && letter.kind == Message
            && letter.grant == Some(Grant.Mint(e, x.authority, x.claims))
            && BuildInner(e, x.alice, Opts(e, x), d) == Ok(letter)
            && letter.id == d.id && letter.to == x.bob.name
  {
    hide Grant.Mint;
  }

  lemma LetterVerified(e: Env, x: Scene, d: Draw, t: Readings)
    requires VerifyIncoming(e, Raw(e, x, d), x.bob, x.trust, x.cfg, t)
          == Ok(Expected(e, x.alice, Opts(e, x), d, Letter(e, x, d)))
    ensures VerifyIncoming(e, Raw(e, x, d), x.bob, x.trust, x.cfg, t) == Ok(Letter(e, x, d))
  {
    hide VerifyIncoming;
  }

  lemma NotAnEcho(e: Env, x: Scene, d: Draw)
    requires Plausible(e, x)
    ensures var w := e.wrapper.parse(Raw(e, x, d));
            w.Some? && ClaimedSender(w.value) == Some(x.alice.name) && UnwrapInner(e, w.value) == Some(Letter(e, x, d))
  {
    hide Letter, Trust.PublicKey, Trust.AuthorityKey, ClockAccepted;
    UnwrapOfPayload(e, x.alice, Letter(e, x, d), false);
    KidRoundTrip(x.alice.name, e.fingerprint(e.pkOf(x.alice.sk)));
  }

  // ---------------------------------------------------------------- the run

  function Start(x: Scene): Agent {
    Agent(x.bob, State(Store.EMPTY, x.trust, map[], x.expiry, FRESH_LOG), map[])
  }

  function Arrival(e: Env, x: Scene, d: Draw, guardAt: int): Event {
    Deliver(Raw(e, x, d), "t", x.cfg, Readings(x.expiry, x.expiry, guardAt))
  }

  function Tick(x: Scene, a: Agent, now: int, evict: nat): Pick {
    Pick(now, a.s.db.lastSeq + 1, x.reply, false, evict)
  }

  predicate OnlyIds(rows: seq<Store.Row>, ids: set<string>) {
    forall r | r in rows :: r.id in ids
  }

  /** Bob at the moment of expiry, with these messages stored and no others in his table. */
  predicate At(x: Scene, a: Agent, stored: seq<StoredMsg>, threads: map<nat, Task>) {
    && a.me == x.bob && a.s.trust == x.trust && a.s.clock == x.expiry && a.threads == threads
    && a.s.log.stored == stored && OnlyIds(a.s.db.rows, {x.first.id, x.reply.id})
  }

  predicate NoCrash(evs: seq<Event>) {
    forall ev | ev in evs :: ev.Deliver? || ev.Run?
  }

  lemma FirstArrives(e: Env, x: Scene) returns (a: Agent, evs: seq<Event>)
    requires Plausible(e, x)
    ensures Reaches(e, Start(x), evs, a) && NoCrash(evs)
    ensures At(x, a, [], map[LOOP := CheckGrant(Cand(e, x, x.first, x.expiry), x.claims.id)])
    ensures a.s.db == Store.EMPTY && a.s.log.built == map[]
  {
    hide Judge, Raw, Letter, Reaches, Plausible;
    var ev := Arrival(e, x, x.first, x.expiry);
    var c := Cand(e, x, x.first, x.expiry);
    LetterAccepted(e, x, x.first, x.expiry);
    assert JudgeFor(e, Start(x), ev) == Accepted(c);
    ArriveMoves(e, Start(x), ev);
    AcceptedDb(Store.EMPTY, c);
    ReachesStart(e, Start(x));
    ReachesNext(e, Start(x), [], Start(x), ev);
    a, evs := Apply(e, Start(x), ev), [] + [ev];
  }

  /** The first letter spends its grant and is stored. */
  lemma FirstIsStored(e: Env, x: Scene) returns (a: Agent, evs: seq<Event>)
    requires Plausible(e, x)
    ensures Reaches(e, Start(x), evs, a) && NoCrash(evs) && a.s.log.built == map[]
    ensures var c := Cand(e, x, x.first, x.expiry);
            At(x, a, [StoredMsg(c, 1, x.expiry)], map[LOOP := Evict(c)])
  {
    hide Reaches, Plausible, Moves, DoSpend, DoInsertIn, Letter, Raw;
    var c := Cand(e, x, x.first, x.expiry);
    LetterIs(e, x, x.first);
    a, evs := FirstArrives(e, x);
    var pick := Tick(x, a, x.expiry, 0);
    SpendMoves(e, a, LOOP, pick, c, x.claims.id);
    SpendDb(a.s, c, x.claims.id);
    a := MoveOn(e, Start(x), evs, a, LOOP, pick, DoSpend(a.s, c, x.claims.id), Some(StoreIn(c)));
    evs := evs + [Run(LOOP, pick)];
    StoreMoves(e, a, LOOP, pick, c);
    StoreDb(a.s, c, 1, x.expiry);
    a := MoveOn(e, Start(x), evs, a, LOOP, pick, DoInsertIn(a.s, c, 1, x.expiry), Some(Evict(c)));
    evs := evs + [Run(LOOP, pick)];
  }

  lemma DropKeepsIds(rows: seq<Store.Row>, count: nat, ids: set<string>)
    requires OnlyIds(rows, ids)
    ensures OnlyIds(Store.DropOldest(rows, count), ids)
  {
    Store.DroppedSubset(rows, count);
  }

  /** The bounds are enforced, and if a receipt is due it is built, logged and queued. */
  lemma LoopGoesIdle(e: Env, x: Scene) returns (a: Agent, evs: seq<Event>)
    requires Plausible(e, x)
    ensures Reaches(e, Start(x), evs, a) && NoCrash(evs)
    ensures At(x, a, [StoredMsg(Cand(e, x, x.first, x.expiry), 1, x.expiry)], map[])
  {
    hide Reaches, Plausible, Moves, DoDrop, Letter, Raw, Store.DropOldest, Store.Enforced, OnlyIds;
    var c := Cand(e, x, x.first, x.expiry);
    a, evs := FirstIsStored(e, x);
    var pick := Tick(x, a, x.expiry, DropCount(a.s.db.rows, x.cfg));
    EvictMoves(e, a, LOOP, pick, c);
    DropDb(a.s, pick.evict, x.expiry);
    DropKeepsIds(a.s.db.rows, pick.evict, {x.first.id, x.reply.id});
    var due := x.cfg.autoReceipts && Direct(x.bob, c.inner.to);
    a := MoveOn(e, Start(x), evs, a, LOOP, pick, DoDrop(a.s, pick.evict, x.expiry),
                if due then Some(DeliveryReceipt(c)) else None);
    evs := evs + [Run(LOOP, pick)];
    if due {
      a, evs := FirstIsAnswered(e, x, a, evs);
    }
  }

  lemma FirstIsAnswered(e: Env, x: Scene, before: Agent, path: seq<Event>) returns (a: Agent, evs: seq<Event>)
    requires Reaches(e, Start(x), path, before) && NoCrash(path) && before.s.log.built == map[]
    requires var c := Cand(e, x, x.first, x.expiry);
             At(x, before, [StoredMsg(c, 1, x.expiry)], map[LOOP := DeliveryReceipt(c)])
    ensures Reaches(e, Start(x), evs, a) && NoCrash(evs)
    ensures At(x, a, before.s.log.stored, map[])
  {
    hide Reaches, Moves, Draft, OutboundOf, DoInsertOut, Letter, Raw, Store.Insert, Store.EnqueueOutbound;
    a, evs := before, path;
    var c := Cand(e, x, x.first, x.expiry);
    var info := ReceiptInfo(c.inner.id, ReceiptStatus.Delivered);
    var pick := Tick(x, a, x.expiry, 0);
    var inner := Draft(e, x.bob, ReceiptOpts(c.inner.from, info), x.reply);
    var ob := OutboundOf(e, x.bob, inner, c.topic, false);
    assert inner.id == x.reply.id by { ReceiptId(e, x, c.inner.from, info); }
    BuildMoves(e, a, LOOP, pick, c.inner.from, info, c.topic);
    a := MoveOn(e, Start(x), evs, a, LOOP, pick, Do(a.s, Build(inner)), Some(LogOut(inner, ob, Stop)));
    evs := evs + [Run(LOOP, pick)];
    LogMoves(e, a, LOOP, pick, inner, ob, Stop);
    LogDb(a.s, inner, ob.topic, pick.seqNo);
    Store.InsertMembers(a.s.db, inner, Store.Out, ob.topic, pick.seqNo);
    Store.RowIdentity(inner, Store.Out, ob.topic, pick.seqNo);
    a := MoveOn(e, Start(x), evs, a, LOOP, pick, DoInsertOut(a.s, inner, ob.topic, pick.seqNo),
                Some(Enqueue(ob, Stop)));
    evs := evs + [Run(LOOP, pick)];
    pick := Tick(x, a, x.expiry, 0);
    QueueMoves(e, a, LOOP, pick, ob, Stop);
    a := MoveOn(e, Start(x), evs, a, LOOP, pick, Do(a.s, Queue(ob)), None);
    evs := evs + [Run(LOOP, pick)];
  }

  lemma ReceiptId(e: Env, x: Scene, to: string, info: ReceiptInfo)
    ensures Draft(e, x.bob, ReceiptOpts(to, info), x.reply).id == x.reply.id
  {
  }

  /** The second letter arrives at the same moment, but the clock moves on before its grant is checked again. */
  lemma SecondIsStored(e: Env, x: Scene) returns (a: Agent, evs: seq<Event>, seqNo: int)
    requires Plausible(e, x)
    ensures Reaches(e, Start(x), evs, a) && NoCrash(evs)
    ensures a.s.log.stored == [StoredMsg(Cand(e, x, x.first, x.expiry), 1, x.expiry),
                               StoredMsg(Cand(e, x, x.second, x.expiry + 1), seqNo, x.expiry + 1)]
  {
    hide Judge, Raw, Letter, Reaches, Moves, DoInsertIn;
    var c := Cand(e, x, x.second, x.expiry + 1);
    a, evs := LoopGoesIdle(e, x);
    var ev := Arrival(e, x, x.second, x.expiry + 1);
    LetterAccepted(e, x, x.second, x.expiry + 1);
    LetterIs(e, x, x.second);
    assert x.first.id != x.second.id && x.reply.id != x.second.id;
    hide Plausible;
    assert JudgeFor(e, a, ev) == Accepted(c);
    ArriveMoves(e, a, ev);
    AcceptedDb(a.s.db, c);
    ReachesNext(e, Start(x), evs, a, ev);
    a, evs := Apply(e, a, ev), evs + [ev];
    var pick := Tick(x, a, x.expiry + 1, 0);
    seqNo := pick.seqNo;
    StoreMoves(e, a, LOOP, pick, c);
    StoreDb(a.s, c, seqNo, x.expiry + 1);
    assert !Store.HasId(a.s.db.rows, c.inner.id);
    a := MoveOn(e, Start(x), evs, a, LOOP, pick, DoInsertIn(a.s, c, seqNo, x.expiry + 1), Some(Evict(c)));
    evs := evs + [Run(LOOP, pick)];
  }

  /**
    For any laws and any such scene there is a run, without a crash, in which two messages with different ids are
    stored inbound under one grant, although each was accepted with that grant verified for its sender.
   */
  lemma SpentGrantIsStoredAgain(e: Env, x: Scene) returns (states: seq<Agent>, evs: seq<Event>)
    requires Plausible(e, x)
    ensures Runs.IsRun(e, states, evs) && NoCrash(evs)
    ensures var stored := states[|evs|].s.log.stored;
            && |stored| == 2 && stored[0].cand.inner.id != stored[1].cand.inner.id
            && forall i | 0 <= i < 2 ::
                 stored[i].cand.inner.grant.Some?
                 && Grant.Verify(e, stored[i].cand.inner.grant.value, x.trust, stored[i].cand.t.grantAt) == Ok(x.claims)
  {
    hide Letter, Raw, Reaches, Runs.IsRun, Grant.Verify, Grant.Mint;
    LetterIs(e, x, x.first);
    LetterIs(e, x, x.second);
    Grant.MintVerifies(e, x.authority, x.claims, x.trust, x.expiry);
    var a, seqNo;
    a, evs, seqNo := SecondIsStored(e, x);
    states := HandlersMakeARun(e, Start(x), evs, a);
  }

  // ---------------------------------------------------------------- a scene in full

  /** Freshness and automatic receipts are on. */
  function Example(): Scene {
    var alice, bob, authority := Identity("alice", [1], [2]), Identity("bob", [3], [4]), Grant.Authority("root", [5]);
    var trust := Trust.Trust(map["alice" := Trust.MakeRecord([1], None)], map["root" := Trust.MakeRecord([5], None)]);
    var nonce := [0, 0, 0, 0, 0, 0, 0, 0, 0, 0, 0, 0];
    Scene(alice, bob, authority, GrantClaims("g", "deploy", "all", "alice", Ideal.IntText(7), "n"), 7, trust,
          Config(300, 1000, false, false, true, 100, 100000),
          Draw("first", 7, [], [], nonce), Draw("second", 7, [], [], nonce), Draw("third", 7, [], [], nonce))
  }

  lemma ExampleIsPlausible()
    ensures Plausible(Ideal.Instance(), Example())
  {
    hide Laws, Base64.Encode, Base64.Decode;
    var e, x := Ideal.Instance(), Example();
    Ideal.InstanceIsLawful();
    Base64.RoundTrip([1]);
    Base64.RoundTrip([5]);
    Ideal.IntRoundTrip(7);
    assert e.parseTime(x.claims.expiry) == Some(7) && Timestamp(e, 7) == Ideal.IntText(7);
    assert x.first.id[0] != x.second.id[0] && x.reply.id[0] != x.second.id[0];
    assert x.alice.name[0] != x.bob.name[0];
  }

  /** Over the ideal instance: one grant id, two stored messages. */
  lemma ExampleRun() returns (states: seq<Agent>, evs: seq<Event>)
    ensures Runs.IsRun(Ideal.Instance(), states, evs) && NoCrash(evs)
    ensures var stored := states[|evs|].s.log.stored;
            |stored| == 2 && stored[0].cand.inner.id != stored[1].cand.inner.id
  {
    hide Runs.IsRun, Plausible;
    ExampleIsPlausible();
    states, evs := SpentGrantIsStoredAgain(Ideal.Instance(), Example());
  }
}
