/** What `enforce_bounds` guarantees (src/store.rs:707-774). */
module Bounds {
  import opened Prelude
  import opened Store

  /** The rows no eviction may touch, in order. */
  function Awaiting(rows: seq<Row>): seq<Row> {
    if rows == [] then []
    else if AwaitsReceipt(rows[0]) then [rows[0]] + Awaiting(rows[1..])
    else Awaiting(rows[1..])
  }

  /** They are exactly the outbound rows that are pending or sent, each as often as it occurs. */
  lemma {:induction false} AwaitingIff(rows: seq<Row>, r: Row)
    ensures r in Awaiting(rows) <==> r in rows && r.direction == Out && (r.state == Pending || r.state == Sent)
    ensures multiset(Awaiting(rows))[r]
         == if r.direction == Out && (r.state == Pending || r.state == Sent) then multiset(rows)[r] else 0
  {
    if rows != [] {
      AwaitingIff(rows[1..], r);
      assert rows == [rows[0]] + rows[1..];
    }
  }

  lemma {:induction false} DropAll(rows: seq<Row>, k: nat)
    requires k >= EvictableCount(rows)
    ensures DropOldest(rows, k) == Awaiting(rows)
  {
    if rows != [] {
      if Evictable(rows[0]) {
        DropAll(rows[1..], k - 1);
      } else {
        DropAll(rows[1..], k);
        if k == 0 {
          NothingToDrop(rows[1..]);
          assert rows == [rows[0]] + rows[1..];
        }
      }
    }
  }

  lemma {:induction false} DropLightens(rows: seq<Row>, k: nat)
    ensures BodyBytes(Awaiting(rows)) <= BodyBytes(DropOldest(rows, k)) <= BodyBytes(rows)
    ensures |Awaiting(rows)| == |rows| - EvictableCount(rows)
  {
    if rows != [] {
      DropLightens(rows[1..], if Evictable(rows[0]) && k > 0 then k - 1 else k);
      if !Evictable(rows[0]) {
        ConsBytes(rows[0], Awaiting(rows[1..]));
        ConsBytes(rows[0], DropOldest(rows[1..], k));
        assert rows == [rows[0]] + rows[1..];
      }
    }
  }

  lemma ConsBytes(r: Row, rows: seq<Row>)
    ensures BodyBytes([r] + rows) == BodyBytes([r]) + BodyBytes(rows)
  {
    assert ([r] + rows)[1..] == rows;
  }

  /** How far the byte rounds went: stopped as soon as possible, and never a round too many. */
  lemma {:induction false} TrimOutcome(rows: seq<Row>, maxBytes: nat)
    ensures var out := TrimBytes(rows, maxBytes);
            && |out| <= |rows| && out == DropOldest(rows, |rows| - |out|)
            && (BodyBytes(out) <= maxBytes || EvictableCount(out) == 0)
            && (out != rows ==> exists k: nat :: LastRound(rows, out, maxBytes, k))
    decreases |rows|
  {
    DropOldestSize(rows, ROUND);
    DropStep(rows, rows, 0, 0);
    if BodyBytes(rows) > maxBytes && EvictableCount(rows) > 0 {
      var next := DropOldest(rows, ROUND);
      TrimOutcome(next, maxBytes);
      var out := TrimBytes(rows, maxBytes);
      DropStep(rows, rows, 0, ROUND);
      var first := |rows| - |next|;
      if out == next {
        assert LastRound(rows, out, maxBytes, 0);
      } else {
        var k: nat :| LastRound(next, out, maxBytes, k);
        DropOldestTwice(rows, first, k);
        assert LastRound(rows, out, maxBytes, first + k);
      }
      DropOldestTwice(rows, first, |next| - |out|);
    }
  }

  /** With the last round (all after the first `k` evictions, at most 64 rows) restored, the budget is exceeded. */
  ghost predicate LastRound(rows: seq<Row>, out: seq<Row>, maxBytes: nat, k: nat) {
    k < |rows| - |out| <= k + 64 && BodyBytes(DropOldest(rows, k)) > maxBytes
  }

  /** The message cap is met exactly when the rows awaiting a receipt alone meet it. */
  lemma CountCapIff(rows: seq<Row>, maxMessages: nat, maxBytes: nat)
    ensures |Enforced(rows, maxMessages, maxBytes)| <= maxMessages <==> |Awaiting(rows)| <= maxMessages
    ensures forall r ::
              r in Awaiting(rows) <==> r in rows && r.direction == Out && (r.state == Pending || r.state == Sent)
  {
    forall r { AwaitingIff(rows, r); }
    var capped := DropOldest(rows, Excess(rows, maxMessages));
    DropOldestSize(rows, Excess(rows, maxMessages));
    DropLightens(rows, 0);
    DropLightens(capped, 0);
    TrimOutcome(capped, maxBytes);
    DropOldestSize(capped, |capped| - |TrimBytes(capped, maxBytes)|);
  }

  /** The byte budget is met exactly when the rows awaiting a receipt alone meet it. */
  lemma ByteCapIff(rows: seq<Row>, maxMessages: nat, maxBytes: nat)
    ensures BodyBytes(Enforced(rows, maxMessages, maxBytes)) <= maxBytes <==> BodyBytes(Awaiting(rows)) <= maxBytes
    ensures forall r ::
              r in Awaiting(rows) <==> r in rows && r.direction == Out && (r.state == Pending || r.state == Sent)
  {
    forall r { AwaitingIff(rows, r); }
    var out := Enforced(rows, maxMessages, maxBytes);
    var gone := EnforcedIsPrefix(rows, maxMessages, maxBytes);
    DropLightens(rows, gone);
    if BodyBytes(out) > maxBytes {
      DropOldestSize(rows, gone);
      DropAll(rows, gone);
    }
  }

  /** Eviction as a whole is one deletion of oldest rows, and it ends with each cap met or nothing left to evict. */
  lemma EnforcedIsPrefix(rows: seq<Row>, maxMessages: nat, maxBytes: nat) returns (gone: nat)
    ensures var out := Enforced(rows, maxMessages, maxBytes);
            && gone == |rows| - |out| && out == DropOldest(rows, gone) && gone <= EvictableCount(rows)
            && (|out| <= maxMessages || EvictableCount(out) == 0)
            && (BodyBytes(out) <= maxBytes || EvictableCount(out) == 0)
            && (|out| > maxMessages || BodyBytes(out) > maxBytes ==>
                  forall r | r in out :: r.direction == Out && (r.state == Pending || r.state == Sent))
  {
    EnforcedSubset(rows, maxMessages, maxBytes);
    hide EvictableCount, BodyBytes, TrimBytes;
    var over := Excess(rows, maxMessages);
    var capped := DropOldest(rows, over);
    var out := Enforced(rows, maxMessages, maxBytes);
    DropOldestSize(rows, over);
    DropStep(rows, rows, 0, over);
    TrimOutcome(capped, maxBytes);
    gone := |rows| - |out|;
    DropStep(rows, capped, |rows| - |capped|, |capped| - |out|);
    DropOldestSize(rows, gone);
    DropOldestSize(capped, |capped| - |out|);
  }

  /** The count phase takes exactly min(excess, evictable) rows; anything more was forced by the byte budget. */
  lemma EvictionIsMinimal(rows: seq<Row>, maxMessages: nat, maxBytes: nat)
    ensures var out := Enforced(rows, maxMessages, maxBytes);
            var excess := if |rows| > maxMessages then |rows| - maxMessages else 0;
            var counted := Min(excess, |rows| - |Awaiting(rows)|);
            && |rows| - |out| >= counted
            && (|rows| - |out| > counted ==>
                  exists k: nat :: counted <= k && LastRound(rows, out, maxBytes, k))
  {
    var out := Enforced(rows, maxMessages, maxBytes);
    var counted := Min(Excess(rows, maxMessages), EvictableCount(rows));
    DropLightens(rows, 0);
    var capped := DropOldest(rows, Excess(rows, maxMessages));
    DropOldestSize(rows, Excess(rows, maxMessages));
    DropOldestCapped(rows, Excess(rows, maxMessages));
    TrimOutcome(capped, maxBytes);
    if out != capped {
      var k: nat :| LastRound(capped, out, maxBytes, k);
      DropOldestTwice(rows, counted, k);
      assert LastRound(rows, out, maxBytes, counted + k);
    }
  }

  /** Still over the byte budget, with something left to evict. */
  predicate Excessive(rows: seq<Row>, maxBytes: nat) {
    && BodyBytes(rows) > maxBytes
    && exists r :: r in rows && (r.direction == In || (r.state != Pending && r.state != Sent))
  }

  lemma {:induction false} TrimRounds(rows: seq<Row>, maxBytes: nat) returns (rounds: nat)
    ensures TrimBytes(rows, maxBytes) == DropOldest(rows, 64 * rounds)
    ensures !Excessive(DropOldest(rows, 64 * rounds), maxBytes)
    ensures forall k: nat | k < rounds :: Excessive(DropOldest(rows, 64 * k), maxBytes)
    decreases |rows|
  {
    hide BodyBytes, EvictableCount;
    NothingToDrop(rows);
    DropOldestSize(rows, ROUND);
    DropOldestZero(rows);
    if BodyBytes(rows) <= maxBytes || EvictableCount(rows) == 0 {
      rounds := 0;
    } else {
      var next := DropOldest(rows, 64);
      var more := TrimRounds(next, maxBytes);
      rounds := more + 1;
      DropOldestTwice(rows, 64, 64 * more);
      forall k: nat | k < rounds
        ensures Excessive(DropOldest(rows, 64 * k), maxBytes)
      {
        if k > 0 {
          DropOldestTwice(rows, 64, 64 * (k - 1));
        }
      }
    }
  }

  /**
    Exactly what goes: the rows over the message cap, then as many rounds of 64 as it takes, and no more, to meet the
    byte budget or run out; always the oldest rows that await no receipt.
   */
  lemma EvictionIsExact(rows: seq<Row>, maxMessages: nat, maxBytes: nat) returns (rounds: nat)
    ensures var excess := if |rows| > maxMessages then |rows| - maxMessages else 0;
            && Enforced(rows, maxMessages, maxBytes) == DropOldest(rows, excess + 64 * rounds)
            && !Excessive(DropOldest(rows, excess + 64 * rounds), maxBytes)
            && forall k: nat | k < rounds :: Excessive(DropOldest(rows, excess + 64 * k), maxBytes)
  {
    hide Excessive, DropOldest, TrimBytes;
    var excess := Excess(rows, maxMessages);
    rounds := TrimRounds(DropOldest(rows, excess), maxBytes);
    forall k: nat
      ensures DropOldest(DropOldest(rows, excess), 64 * k) == DropOldest(rows, excess + 64 * k)
    {
      DropOldestTwice(rows, excess, 64 * k);
    }
    forall k: nat | k < rounds
      ensures Excessive(DropOldest(rows, excess + 64 * k), maxBytes)
    {
      assert Excessive(DropOldest(DropOldest(rows, excess), 64 * k), maxBytes);
    }
  }

  /** Pending and sent outbound rows survive, and every row that goes is older than any evictable row that stays. */
  lemma EvictionTakesOldest(rows: seq<Row>, maxMessages: nat, maxBytes: nat, r: Row)
    requires Ascending(rows) && r in rows && r !in Enforced(rows, maxMessages, maxBytes)
    ensures r.direction == In || (r.state != Pending && r.state != Sent)
    ensures forall s | s in Enforced(rows, maxMessages, maxBytes) :: s in rows
    ensures forall s | s in Enforced(rows, maxMessages, maxBytes)
                       && (s.direction == In || (s.state != Pending && s.state != Sent)) :: r.seqNo < s.seqNo
  {
    var gone := EnforcedIsPrefix(rows, maxMessages, maxBytes);
    DroppedSubset(rows, gone);
    EnforcedSubset(rows, maxMessages, maxBytes);
    forall s | s in Enforced(rows, maxMessages, maxBytes)
               && (s.direction == In || (s.state != Pending && s.state != Sent))
      ensures r.seqNo < s.seqNo
    {
      DroppedAreOldest(rows, gone, r, s);
    }
  }
}
