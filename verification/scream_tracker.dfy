/** The RTP sequence tracker of probe_rtp_info: a 16-bit highest sequence number, a shifting 16-bit
    acknowledgement vector and an 8-bit loss counter, compared with the unbounded arrival history. */
module ScreamTracker {
  import opened WireBytes
  import opened WordBits

  const SEQ_MODULUS := 65536
  const REORDER_WINDOW := 20000

  datatype Tracker = Tracker(highestSeq: uint16, ackVec: uint16, nLoss: uint8)

  /** The state of a zero-initialised ScreamRx. */
  const FRESH := Tracker(0, 0, 0)

  /** The test for the initial condition; a run can meet it again. */
  predicate AtSentinel(t: Tracker)
  {
    t.highestSeq == 0 && t.ackVec == 0
  }

  /** The vector's bit for the sequence number `distance` below the highest one. */
  predicate Acknowledged(ackVec: uint16, distance: nat)
    requires 1 <= distance <= 15
  {
    Bit(ackVec, 16 - distance)
  }

  /** `ackVec | (1 << (16 - diff))` in a 16-bit word. */
  function Acknowledge(ackVec: uint16, diff: nat): uint16
    requires 1 <= diff < 16
  {
    WidthOf16();
    SetFits(ackVec, 16 - diff, 16);
    SetBit(ackVec, 16 - diff)
  }

  /** The vector after the highest sequence number moved up by diff. */
  function Advance(ackVec: uint16, diff: nat): uint16
  {
    if diff == 0 then ackVec
    else if diff >= 16 then 0
    else
      ShiftFits(ackVec, diff);
      Acknowledge(ShiftRight(ackVec, diff), diff)
  }

  lemma AcknowledgeBits(ackVec: uint16, diff: nat, d: nat)
    requires 1 <= diff < 16 && 1 <= d <= 15
    ensures Acknowledged(Acknowledge(ackVec, diff), d) <==> d == diff || Acknowledged(ackVec, d)
  {
    BitOfSet(ackVec, 16 - diff, 16 - d);
  }

  lemma AdvanceBits(ackVec: uint16, diff: nat, d: nat)
    requires 1 <= diff && 1 <= d <= 15
    ensures Acknowledged(Advance(ackVec, diff), d)
       <==> diff < 16 && (d == diff || (d > diff && Acknowledged(ackVec, d - diff)))
  {
    if diff < 16 {
      ShiftFits(ackVec, diff);
      AcknowledgeBits(ShiftRight(ackVec, diff), diff, d);
      ShiftedBit(ackVec, diff, d);
    } else {
      NoHighBit(0, 0, 16 - d);
    }
  }

  /** `tmp_seq - tmp_highest_seq` after the wraparound guesses. */
  function Distance(highest: uint16, rtpSeq: uint16): int
  {
    if rtpSeq < highest && highest - rtpSeq > REORDER_WINDOW then rtpSeq + SEQ_MODULUS - highest
    else if rtpSeq > highest && rtpSeq - highest > REORDER_WINDOW then rtpSeq - (highest + SEQ_MODULUS)
    else rtpSeq - highest
  }

  /** The guessed distance of the next packet; the sentinel takes it for the first one. */
  function NextDistance(t: Tracker, rtpSeq: uint16): int
  {
    if AtSentinel(t) then 0 else Distance(t.highestSeq, rtpSeq)
  }

  function CountLoss(t: Tracker): Tracker
  {
    if Bit(t.ackVec, 16 - 5) then t else t.(nLoss := (t.nLoss + 1) % 256)
  }

  /** One received packet with 16-bit sequence number rtpSeq. */
  function Receive(t: Tracker, rtpSeq: uint16): Tracker
  {
    var distance := NextDistance(t, rtpSeq);
    CountLoss(
      if distance >= 0 then t.(highestSeq := rtpSeq, ackVec := Advance(t.ackVec, distance))
      else if -distance < 16 then t.(ackVec := Acknowledge(t.ackVec, -distance))
      else t)
  }

  lemma WidthOf16()
    ensures Pow2(16) == 65536
  {
    assert Pow2(8) == 256;
    assert Pow2(12) == 4096;
  }

  lemma ShiftedBit(v: uint16, n: nat, d: nat)
    requires n <= 15 && 1 <= d <= 15
    ensures Bit(ShiftRight(v, n), 16 - d) == (d > n && Bit(v, 16 - (d - n)))
  {
    WidthOf16();
    BitOfShift(v, n, 16 - d);
    if d <= n { NoHighBit(v, 16, n + 16 - d); }
  }

  lemma DistanceOnWire(m: int, n: int)
    requires -REORDER_WINDOW <= n - m <= REORDER_WINDOW
    ensures Distance(OnWire(m), OnWire(n)) == n - m
  {
  }

  lemma ZeroHasNoBits()
    ensures forall d :: 1 <= d <= 15 ==> !Acknowledged(0, d)
  {
    forall d | 1 <= d <= 15 { NoHighBit(0, 0, 16 - d); }
  }

  // ----- The unbounded history -----

  /** Packets are named by their true index; the wire carries the index modulo 65536. */
  function OnWire(index: int): uint16
  {
    index % SEQ_MODULUS
  }

  function Run(start: Tracker, arrivals: seq<int>): Tracker
  {
    if arrivals == [] then start
    else Receive(Run(start, arrivals[..|arrivals| - 1]), OnWire(arrivals[|arrivals| - 1]))
  }

  function Max(arrivals: seq<int>): (m: int)
    requires arrivals != []
    ensures m in arrivals
    ensures forall n :: n in arrivals ==> n <= m
  {
    var last := arrivals[|arrivals| - 1];
    if |arrivals| == 1 then last
    else
      var earlier := arrivals[..|arrivals| - 1];
      assert arrivals == earlier + [last];
      var m := Max(earlier);
      if last > m then last else m
  }

  /** What the tracker promises about a history: the maximum modulo 65536 and, for the fifteen
      indices below it, exactly which ones have arrived. */
  ghost predicate Exact(t: Tracker, arrivals: seq<int>)
    requires arrivals != []
  {
    var m := Max(arrivals);
    && t.highestSeq == OnWire(m)
    && forall d :: 1 <= d <= 15 ==> (Acknowledged(t.ackVec, d) <==> m - d in arrivals)
  }

  /** Every arrival stays within 20000 of the maximum of those before it. */
  ghost predicate WithinWindow(arrivals: seq<int>)
  {
    |arrivals| <= 1 ||
    var earlier, n := arrivals[..|arrivals| - 1], arrivals[|arrivals| - 1];
    WithinWindow(earlier) && -REORDER_WINDOW <= n - Max(earlier) <= REORDER_WINDOW
  }

  /** The arrivals n that the re-entered initial test misreads after this history: the maximum is a
      multiple of 65536, none of the fifteen indices below it has arrived, and n is neither the
      maximum itself nor at least sixteen above it. */
  ghost predicate Collides(arrivals: seq<int>, n: int)
    requires arrivals != []
  {
    SentinelHistory(arrivals) && n != Max(arrivals) && n < Max(arrivals) + 16
  }

  ghost predicate SentinelHistory(arrivals: seq<int>)
    requires arrivals != []
  {
    var m := Max(arrivals);
    OnWire(m) == 0 && forall k :: m - 15 <= k < m ==> k !in arrivals
  }

  /** No arrival collides with the history before it. */
  ghost predicate NoCollision(arrivals: seq<int>)
  {
    |arrivals| <= 1 ||
    var earlier, n := arrivals[..|arrivals| - 1], arrivals[|arrivals| - 1];
    NoCollision(earlier) && !Collides(earlier, n)
  }

  /** The tracker is exact after every nonempty prefix of the run. */
  ghost predicate AlwaysExact(start: Tracker, arrivals: seq<int>)
  {
    arrivals == [] ||
    (AlwaysExact(start, arrivals[..|arrivals| - 1]) && Exact(Run(start, arrivals), arrivals))
  }

  /** Bit 0 never stands alone, so the vector is zero exactly when bits 15..1 are clear. */
  ghost predicate BitZeroAccompanied(t: Tracker)
  {
    t.ackVec == 0 <==> forall d :: 1 <= d <= 15 ==> !Acknowledged(t.ackVec, d)
  }

  lemma BitZeroStaysAccompanied(t: Tracker, rtpSeq: uint16)
    requires BitZeroAccompanied(t)
    ensures BitZeroAccompanied(Receive(t, rtpSeq))
  {
    ZeroHasNoBits();
    var r := Receive(t, rtpSeq);
    var distance := NextDistance(t, rtpSeq);
    if 1 <= distance < 16 {
      AdvanceBits(t.ackVec, distance, distance);
      assert Acknowledged(r.ackVec, distance);
    } else if -16 < distance < 0 {
      AcknowledgeBits(t.ackVec, -distance, -distance);
      assert Acknowledged(r.ackVec, -distance);
    }
  }

  lemma MaxOfAppend(arrivals: seq<int>, n: int)
    requires arrivals != []
    ensures Max(arrivals + [n]) == if n > Max(arrivals) then n else Max(arrivals)
  {
    assert (arrivals + [n])[..|arrivals|] == arrivals;
  }

  /** The tracker is at the sentinel exactly when the history says so. */
  lemma SentinelMatchesHistory(t: Tracker, arrivals: seq<int>)
    requires arrivals != [] && Exact(t, arrivals) && BitZeroAccompanied(t)
    ensures AtSentinel(t) <==> SentinelHistory(arrivals)
  {
    var m := Max(arrivals);
    if t.ackVec == 0 {
      forall k | m - 15 <= k < m ensures k !in arrivals {
        assert !Acknowledged(t.ackVec, m - k) && k == m - (m - k);
      }
    }
  }

  /** One bit after one step, with no bit arithmetic left in the statement. */
  lemma ReceivedBit(t: Tracker, rtpSeq: uint16, d: nat)
    requires 1 <= d <= 15
    ensures var distance := NextDistance(t, rtpSeq);
            Acknowledged(Receive(t, rtpSeq).ackVec, d) ==
            if distance <= 0 then d == -distance || Acknowledged(t.ackVec, d)
            else d == distance || (d > distance && Acknowledged(t.ackVec, d - distance))
  {
    hide Advance, Acknowledge, Bit, Distance;
    var distance := NextDistance(t, rtpSeq);
    if distance > 0 {
      AdvanceBits(t.ackVec, distance, d);
    } else if -16 < distance < 0 {
      AcknowledgeBits(t.ackVec, -distance, d);
    } else if distance == 0 {
      AdvanceByZero(t.ackVec);
    }
  }

  lemma AdvanceByZero(ackVec: uint16)
    ensures Advance(ackVec, 0) == ackVec
  {
  }

  lemma BitAfterReceive(t: Tracker, arrivals: seq<int>, n: int, d: nat)
    requires arrivals != [] && Exact(t, arrivals) && 1 <= d <= 15
    requires -REORDER_WINDOW <= n - Max(arrivals) <= REORDER_WINDOW
    requires AtSentinel(t) ==> n == Max(arrivals) || n >= Max(arrivals) + 16
    requires AtSentinel(t) ==> forall k :: Max(arrivals) - 15 <= k < Max(arrivals) ==> k !in arrivals
    ensures Acknowledged(Receive(t, OnWire(n)).ackVec, d)
       <==> (if n > Max(arrivals) then n else Max(arrivals)) - d in arrivals + [n]
  {
    hide Receive, Acknowledged, Distance;
    var m := Max(arrivals);
    DistanceOnWire(m, n);
    ReceivedBit(t, OnWire(n), d);
    var top := if n > m then n else m;
    assert top - d in arrivals + [n] <==> top - d in arrivals || top - d == n;
    if n > m && d > n - m {
      assert n - d == m - (d - (n - m));
      assert Acknowledged(t.ackVec, d - (n - m)) <==> m - (d - (n - m)) in arrivals;
    }
  }

  lemma ReceiveExact(t: Tracker, arrivals: seq<int>, n: int)
    requires arrivals != [] && Exact(t, arrivals) && BitZeroAccompanied(t)
    requires -REORDER_WINDOW <= n - Max(arrivals) <= REORDER_WINDOW && !Collides(arrivals, n)
    ensures Exact(Receive(t, OnWire(n)), arrivals + [n])
  {
    hide Acknowledged, Distance, Advance, Acknowledge, Bit;
    MaxOfAppend(arrivals, n);
    SentinelMatchesHistory(t, arrivals);
    DistanceOnWire(Max(arrivals), n);
    var r := Receive(t, OnWire(n));
    forall d | 1 <= d <= 15
      ensures Acknowledged(r.ackVec, d) <==> Max(arrivals + [n]) - d in arrivals + [n]
    {
      BitAfterReceive(t, arrivals, n, d);
    }
  }

  lemma ReceiveCollision(t: Tracker, arrivals: seq<int>, n: int)
    requires arrivals != [] && Exact(t, arrivals) && BitZeroAccompanied(t)
    requires Max(arrivals) - REORDER_WINDOW <= n && Collides(arrivals, n)
    ensures !Exact(Receive(t, OnWire(n)), arrivals + [n])
  {
    hide Acknowledged, Distance, Advance, Acknowledge, Bit;
    MaxOfAppend(arrivals, n);
    ZeroHasNoBits();
    SentinelMatchesHistory(t, arrivals);
    var d := n - Max(arrivals);
    if d > 0 {
      ReceivedBit(t, OnWire(n), d);
      assert n - d in arrivals + [n] && !Acknowledged(Receive(t, OnWire(n)).ackVec, d);
    }
  }

  lemma FirstArrival(start: Tracker, n: int)
    requires AtSentinel(start)
    ensures Exact(Run(start, [n]), [n]) && BitZeroAccompanied(Run(start, [n]))
  {
    ZeroHasNoBits();
    assert [n][..0] == [];
    assert Run(start, [n]) == Receive(start, OnWire(n));
  }

  /** While no collision occurs the tracker is exact, and bit 0 accompanied, after the whole run. */
  lemma {:induction false} ExactWithoutCollision(start: Tracker, arrivals: seq<int>)
    requires AtSentinel(start) && arrivals != []
    requires WithinWindow(arrivals) && NoCollision(arrivals)
    ensures Exact(Run(start, arrivals), arrivals) && BitZeroAccompanied(Run(start, arrivals))
  {
    var earlier, n := arrivals[..|arrivals| - 1], arrivals[|arrivals| - 1];
    assert arrivals == earlier + [n];
    if earlier == [] {
      FirstArrival(start, n);
    } else {
      ExactWithoutCollision(start, earlier);
      var t := Run(start, earlier);
      BitZeroStaysAccompanied(t, OnWire(n));
      ReceiveExact(t, earlier, n);
    }
  }

  /** Refinement of the unbounded history, in both directions: a run inside the window is tracked
      exactly after every arrival if and only if no arrival collides with the re-entered initial
      test. */
  lemma {:induction false} TrackerRefinesHistory(start: Tracker, arrivals: seq<int>)
    requires AtSentinel(start) && WithinWindow(arrivals)
    ensures AlwaysExact(start, arrivals) <==> NoCollision(arrivals)
  {
    if arrivals != [] {
      var earlier, n := arrivals[..|arrivals| - 1], arrivals[|arrivals| - 1];
      assert arrivals == earlier + [n];
      TrackerRefinesHistory(start, earlier);
      if NoCollision(arrivals) {
        ExactWithoutCollision(start, arrivals);
      } else if NoCollision(earlier) {
        ExactWithoutCollision(start, earlier);
        ReceiveCollision(Run(start, earlier), earlier, n);
      }
    }
  }

  /** The window of 20000 cannot be widened, in either direction: after any first packet off the sentinel,
      one that is 20001 away is tracked exactly if and only if the 16-bit numbers wrap between the two. */
  lemma WindowIsTight(start: Tracker, first: int)
    requires AtSentinel(start) && OnWire(first) != 0
    ensures NoCollision([first, first + 20001]) && NoCollision([first, first - 20001])
    ensures AlwaysExact(start, [first, first + 20001]) <==> OnWire(first) + 20001 >= SEQ_MODULUS
    ensures AlwaysExact(start, [first, first - 20001]) <==> OnWire(first) < 20001
  {
    FarArrival(start, first, first + 20001);
    FarArrival(start, first, first - 20001);
    hide Run, AlwaysExact, NoCollision;
    var wire: int := OnWire(first);
    assert OnWire(first + 20001) == if wire + 20001 < SEQ_MODULUS then wire + 20001 else wire + 20001 - SEQ_MODULUS;
    assert OnWire(first - 20001) == if wire < 20001 then wire - 20001 + SEQ_MODULUS else wire - 20001;
    hide OnWire;
  }

  /** Such a packet is tracked exactly if and only if its distance is guessed right. */
  lemma FarArrival(start: Tracker, first: int, n: int)
    requires AtSentinel(start) && OnWire(first) != 0 && (n == first + 20001 || n == first - 20001)
    ensures NoCollision([first, n])
    ensures AlwaysExact(start, [first, n]) <==> Distance(OnWire(first), OnWire(n)) == n - first
  {
    FirstArrival(start, first);
    SecondArrival(start, first, n);
    var t, wire := Run(start, [first]), OnWire(first);
    assert Max([first]) == first && t.highestSeq == wire && !AtSentinel(t);
    FarDistance(first, n);
    assert OnWire(n) != wire;
    hide Run, AlwaysExact, NoCollision, Bit, OnWire;
    ZeroHasNoBits();
    var r := Receive(t, OnWire(n));
    if Distance(wire, OnWire(n)) == n - first {
      forall d | 1 <= d <= 15 ensures Acknowledged(r.ackVec, d) <==> Max([first, n]) - d in [first, n] {
        assert !Acknowledged(t.ackVec, d);
      }
    }
  }

  lemma FarDistance(first: int, n: int)
    requires n == first + 20001 || n == first - 20001
    ensures OnWire(n) != OnWire(first)
    ensures var guess := Distance(OnWire(first), OnWire(n));
      guess == n - first || (guess < -15 && n > first) || (guess > 15 && n < first)
  {
  }

  lemma SecondArrival(start: Tracker, first: int, n: int)
    requires AtSentinel(start) && OnWire(first) != 0
    ensures Run(start, [first, n]) == Receive(Run(start, [first]), OnWire(n))
    ensures Max([first, n]) == if n > first then n else first
    ensures NoCollision([first, n])
    ensures AlwaysExact(start, [first, n]) <==> Exact(Run(start, [first, n]), [first, n])
  {
    hide Exact, Receive;
    assert [first] + [n] == [first, n] && ([first] + [n])[..1] == [first] && [first][..0] == [];
    FirstArrival(start, first);
    MaxOfAppend([first], n);
    assert AlwaysExact(start, [first]);
  }

  // ----- The loss counter -----

  /** How often, on arrival, the packet five below the maximum was still missing. */
  ghost function MissingFiveBelow(arrivals: seq<int>): nat
  {
    if arrivals == [] then 0
    else MissingFiveBelow(arrivals[..|arrivals| - 1]) + (if Max(arrivals) - 5 in arrivals then 0 else 1)
  }

  lemma LossOfOneStep(t: Tracker, rtpSeq: uint16)
    ensures var r := Receive(t, rtpSeq);
            r.nLoss == if Acknowledged(r.ackVec, 5) then t.nLoss else (t.nLoss + 1) % 256
  {
  }

  lemma SuccModulo256(a: nat)
    ensures (a % 256 + 1) % 256 == (a + 1) % 256
  {
  }

  /** For any order of arrival the counter is that number modulo 256. */
  lemma {:induction false} LossCounterRefinesHistory(start: Tracker, arrivals: seq<int>)
    requires AtSentinel(start) && WithinWindow(arrivals) && NoCollision(arrivals)
    ensures Run(start, arrivals).nLoss == (start.nLoss + MissingFiveBelow(arrivals)) % 256
  {
    if arrivals != [] {
      var earlier, n := arrivals[..|arrivals| - 1], arrivals[|arrivals| - 1];
      var before, after := Run(start, earlier), Run(start, arrivals);
      LossCounterRefinesHistory(start, earlier);
      LossOfOneStep(before, OnWire(n));
      assert Acknowledged(after.ackVec, 5) <==> Max(arrivals) - 5 in arrivals by {
        ExactWithoutCollision(start, arrivals);
      }
      assert after == Receive(before, OnWire(n));
      assert MissingFiveBelow(arrivals) == MissingFiveBelow(earlier) + (if Acknowledged(after.ackVec, 5) then 0 else 1);
      SuccModulo256(start.nLoss + MissingFiveBelow(earlier));
    }
  }

  ghost predicate Increasing(arrivals: seq<int>)
  {
    forall i, j :: 0 <= i < j < |arrivals| ==> arrivals[i] < arrivals[j]
  }

  /** The number of received packets r whose r - 5 is never received in the run. */
  ghost function NeverReceivedFiveBelow(received: seq<int>, run: seq<int>): nat
  {
    if received == [] then 0
    else
      NeverReceivedFiveBelow(received[..|received| - 1], run)
      + (if received[|received| - 1] - 5 in run then 0 else 1)
  }

  lemma {:induction false} IncreasingCounts(run: seq<int>, k: nat)
    requires Increasing(run) && k <= |run|
    ensures MissingFiveBelow(run[..k]) == NeverReceivedFiveBelow(run[..k], run)
  {
    if k > 0 {
      IncreasingCounts(run, k - 1);
      assert run[..k][..k - 1] == run[..k - 1];
      var last := run[k - 1];
      assert Max(run[..k]) == last;
      assert last - 5 in run <==> last - 5 in run[..k];
    }
  }

  /** With strictly increasing arrivals the counter equals, modulo 256, the number of received
      packets r for which r - 5 was never received. */
  lemma LossCounterExact(start: Tracker, arrivals: seq<int>)
    requires AtSentinel(start) && WithinWindow(arrivals) && NoCollision(arrivals) && Increasing(arrivals)
    ensures Run(start, arrivals).nLoss
         == (start.nLoss + NeverReceivedFiveBelow(arrivals, arrivals)) % 256
  {
    LossCounterRefinesHistory(start, arrivals);
    IncreasingCounts(arrivals, |arrivals|);
    assert arrivals[..|arrivals|] == arrivals;
  }

  ghost function Consecutive(first: int, n: nat): seq<int>
  {
    seq(n, i => first + i)
  }

  lemma ConsecutiveMax(first: int, n: nat)
    requires n > 0
    ensures Max(Consecutive(first, n)) == first + n - 1
  {
    assert first + n - 1 == Consecutive(first, n)[n - 1];
  }

  lemma {:induction false} ConsecutiveMeetsHypotheses(first: int, n: nat)
    requires OnWire(first) != 0
    ensures WithinWindow(Consecutive(first, n)) && NoCollision(Consecutive(first, n))
  {
    if n > 1 {
      var earlier := Consecutive(first, n - 1);
      ConsecutiveMeetsHypotheses(first, n - 1);
      assert Consecutive(first, n)[..n - 1] == earlier;
      ConsecutiveMax(first, n - 1);
      assert !SentinelHistory(earlier) by {
        if n > 2 { assert earlier[n - 3] == Max(earlier) - 1 && Max(earlier) - 1 in earlier; }
      }
    }
  }

  lemma {:induction false} ConsecutiveMisses(first: int, n: nat)
    ensures MissingFiveBelow(Consecutive(first, n)) == if n < 5 then n else 5
  {
    if n > 0 {
      ConsecutiveMisses(first, n - 1);
      var run := Consecutive(first, n);
      assert run[..n - 1] == Consecutive(first, n - 1);
      ConsecutiveMax(first, n);
      if n > 5 { assert run[n - 6] == first + n - 1 - 5; }
    }
  }

  /** A gap-free run of any length, also across the 16-bit wraparound, counts min(n, 5) losses if it
      starts at a nonzero sequence number and min(n, 6) if it starts at zero. */
  lemma GapFreeRun(first: int, n: nat)
    ensures OnWire(first) != 0 ==> Run(FRESH, Consecutive(first, n)).nLoss == if n < 5 then n else 5
    ensures OnWire(first) == 0 ==> Run(FRESH, Consecutive(first, n)).nLoss == if n < 6 then n else 6
  {
    hide Run, Consecutive, AtSentinel, OnWire;
    FreshRun(FRESH, first);
    if OnWire(first) != 0 {
      GapFreeFrom(FRESH, first, n);
    } else if n > 0 {
      StartingAtZero(first, n);
    }
  }

  lemma FreshRun(start: Tracker, first: int)
    requires start.highestSeq == 0 && start.ackVec == 0
    ensures AtSentinel(start) && Run(start, Consecutive(first, 0)) == start
  {
  }

  lemma FirstPacketIsCounted(rtpSeq: uint16)
    ensures Receive(FRESH, rtpSeq) == Tracker(rtpSeq, 0, 1)
  {
    ZeroHasNoBits();
    assert !Acknowledged(0, 5);
  }

  /** A first packet with sequence number zero leaves the sentinel, so the second one is first again. */
  lemma StartingAtZero(first: int, n: nat)
    requires OnWire(first) == 0 && n > 0
    ensures Run(FRESH, Consecutive(first, n)).nLoss == if n < 6 then n else 6
  {
    hide Receive;
    var afterFirst := Tracker(0, 0, 1);
    var rest := Consecutive(first + 1, n - 1);
    FirstPacketIsCounted(0);
    assert Run(FRESH, Consecutive(first, n)) == Run(afterFirst, rest) by {
      RunFromSecond(FRESH, first, rest);
      assert Consecutive(first, n) == [first] + rest;
    }
    GapFreeFrom(afterFirst, first + 1, n - 1);
  }

  lemma GapFreeFrom(start: Tracker, first: int, n: nat)
    requires AtSentinel(start) && OnWire(first) != 0
    ensures Run(start, Consecutive(first, n)).nLoss == (start.nLoss + (if n < 5 then n else 5)) % 256
  {
    ConsecutiveMeetsHypotheses(first, n);
    LossCounterRefinesHistory(start, Consecutive(first, n));
    ConsecutiveMisses(first, n);
  }

  lemma {:induction false} RunFromSecond(start: Tracker, first: int, rest: seq<int>)
    ensures Run(start, [first] + rest) == Run(Receive(start, OnWire(first)), rest)
  {
    var all := [first] + rest;
    if rest == [] {
      assert all == [first] && all[..0] == [];
    } else {
      RunFromSecond(start, first, rest[..|rest| - 1]);
      assert all[..|all| - 1] == [first] + rest[..|rest| - 1];
    }
  }
}
