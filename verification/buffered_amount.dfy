/** The buffered amount of a data channel: bytes the application has sent, less bytes the SCTP encoder
    has transmitted, less the bytes of the handshake, all in unsigned arithmetic. */
module BufferedAmount {
  const MAX_CHUNK_SIZE := 65535
  const MAX_UINT := 0xFFFF_FFFF
  const WRAP := 0x1_0000_0000_0000_0000

  function Unsigned64(n: int): (r: nat)
    ensures 0 <= n < WRAP ==> r == n
  {
    n % WRAP
  }

  datatype Chunk = Chunk(length: nat, control: bool)

  /** `tasks` are the lengths of the sends scheduled on the main loop, `queue` the chunks pushed to the
      encoder and not fully transmitted. `accepted`, `freed` and `left` only observe: the bytes accepted
      from the application, those thrown away for want of a callback, and all that left the encoder. */
  datatype Channel = Channel(bytesSent: nat, installed: bool, ctrlBytesSent: nat, tasks: seq<nat>,
    queue: seq<Chunk>, transmitted: nat, accepted: nat, freed: nat, left: nat)

  datatype Event =
    | Send(length: nat)
    | Install(ctrl: nat)
    | RunTask
    | Transmit(count: nat)

  const START := Channel(0, false, 0, [], [], 0, 0, 0, 0)

  predicate Enabled(c: Channel, e: Event)
  {
    match e
    case Send(length) => true
    case Install(ctrl) => !c.installed && ctrl <= MAX_UINT
    case RunTask => c.tasks != []
    case Transmit(count) => c.queue != [] && 0 < count <= c.queue[0].length
  }

  function Step(c: Channel, e: Event): Channel
    requires Enabled(c, e)
  {
    match e
    case Send(length) =>
      if length > MAX_CHUNK_SIZE then c
      else c.(bytesSent := Unsigned64(c.bytesSent + length), tasks := c.tasks + [length], accepted := c.accepted + length)
    case Install(ctrl) =>
      var pushed := if ctrl == 0 then c.queue else c.queue + [Chunk(ctrl, true)];
      c.(installed := true, ctrlBytesSent := ctrl, queue := pushed)
    case RunTask =>
      var length, rest := c.tasks[0], c.tasks[1..];
      if !c.installed then c.(tasks := rest, freed := c.freed + length)
      else if length == 0 then c.(tasks := rest)
      else c.(tasks := rest, queue := c.queue + [Chunk(length, false)])
    case Transmit(count) =>
      var head := c.queue[0];
      var rest := if count == head.length then c.queue[1..] else c.queue[0 := head.(length := head.length - count)];
      c.(queue := rest, transmitted := Unsigned64(c.transmitted + count), left := c.left + count)
  }

  /** on_datachannel_request_bytes_sent: guint64 subtraction. */
  function RequestBytesSent(c: Channel): nat
  {
    Unsigned64(c.transmitted - c.ctrlBytesSent)
  }

  /** get_buffered_amount */
  function Report(c: Channel): nat
  {
    var bytesSent := if c.installed then RequestBytesSent(c) else 0;
    var amount := if c.bytesSent < bytesSent then 0 else c.bytesSent - bytesSent;
    if amount > MAX_UINT then MAX_UINT else amount
  }

  function Sum(tasks: seq<nat>): nat
  {
    if tasks == [] then 0 else tasks[0] + Sum(tasks[1..])
  }

  function Bytes(queue: seq<Chunk>, control: bool): nat
  {
    if queue == [] then 0 else (if queue[0].control == control then queue[0].length else 0) + Bytes(queue[1..], control)
  }

  /** The application's bytes that are still on this side. */
  function Buffered(c: Channel): nat
  {
    Sum(c.tasks) + Bytes(c.queue, false)
  }

  function ControlInFlight(c: Channel): nat
  {
    Bytes(c.queue, true)
  }

  function Capped(amount: nat): nat
  {
    if amount > MAX_UINT then MAX_UINT else amount
  }

  ghost predicate IsRun(states: seq<Channel>, events: seq<Event>)
  {
    && |states| == |events| + 1 && states[0] == START
    && forall i :: 0 <= i < |events| ==> Enabled(states[i], events[i]) && states[i + 1] == Step(states[i], events[i])
  }

  // ----- What every run keeps -----

  /** Control bytes are at the head of the queue, and nothing is created or lost. */
  ghost predicate Invariant(c: Channel)
  {
    && c.bytesSent == Unsigned64(c.accepted) && c.transmitted == Unsigned64(c.left)
    && c.ctrlBytesSent <= MAX_UINT
    && (!c.installed ==> c.queue == [] && c.left == 0 && c.ctrlBytesSent == 0)
    && c.accepted + c.ctrlBytesSent == Buffered(c) + c.freed + c.left + ControlInFlight(c)
    && (forall i :: 0 <= i < |c.queue| ==> c.queue[i].length > 0 && (c.queue[i].control ==> i == 0))
    && (ControlInFlight(c) > 0 ==> c.left + ControlInFlight(c) == c.ctrlBytesSent)
    && (ControlInFlight(c) == 0 ==> c.left >= c.ctrlBytesSent)
  }

  lemma {:induction false} SumAppend(tasks: seq<nat>, length: nat)
    ensures Sum(tasks + [length]) == Sum(tasks) + length
  {
    if tasks != [] {
      assert (tasks + [length])[1..] == tasks[1..] + [length];
      SumAppend(tasks[1..], length);
    }
  }

  lemma {:induction false} BytesAppend(queue: seq<Chunk>, chunk: Chunk, control: bool)
    ensures Bytes(queue + [chunk], control) == Bytes(queue, control) + (if chunk.control == control then chunk.length else 0)
  {
    if queue != [] {
      assert (queue + [chunk])[1..] == queue[1..] + [chunk];
      BytesAppend(queue[1..], chunk, control);
    }
  }

  lemma {:induction false} NoControl(queue: seq<Chunk>)
    requires forall i :: 0 <= i < |queue| ==> !queue[i].control
    ensures Bytes(queue, true) == 0
  {
    if queue != [] { NoControl(queue[1..]); }
  }

  lemma Wraps(total: nat, extra: nat)
    ensures Unsigned64(Unsigned64(total) + extra) == Unsigned64(total + extra)
  {
  }

  lemma TransmitKeepsInvariant(c: Channel, count: nat)
    requires Invariant(c) && Enabled(c, Transmit(count))
    ensures Invariant(Step(c, Transmit(count)))
  {
    hide Unsigned64;
    var head, rest := c.queue[0], c.queue[1..];
    Wraps(c.left, count);
    NoControl(rest);
    var shorter := c.queue[0 := head.(length := head.length - count)];
    assert shorter[1..] == rest;
  }

  lemma StepKeepsInvariant(c: Channel, e: Event)
    requires Invariant(c) && Enabled(c, e)
    ensures Invariant(Step(c, e))
  {
    hide Unsigned64;
    match e
    case Send(length) =>
      Wraps(c.accepted, length);
      SumAppend(c.tasks, length);
    case Install(ctrl) =>
      BytesAppend([], Chunk(ctrl, true), true);
      BytesAppend([], Chunk(ctrl, true), false);
      assert c.queue == [] && [] + [Chunk(ctrl, true)] == [Chunk(ctrl, true)];
    case RunTask =>
      BytesAppend(c.queue, Chunk(c.tasks[0], false), true);
      BytesAppend(c.queue, Chunk(c.tasks[0], false), false);
    case Transmit(count) => TransmitKeepsInvariant(c, count);
  }

  lemma {:induction false} RunsKeepInvariant(states: seq<Channel>, events: seq<Event>, i: nat)
    requires IsRun(states, events) && i < |states|
    ensures Invariant(states[i])
  {
    hide Invariant, Enabled, Step;
    if i == 0 {
      StartInvariant(states[0]);
    } else {
      RunsKeepInvariant(states, events, i - 1);
      StepKeepsInvariant(states[i - 1], events[i - 1]);
    }
  }

  lemma StartInvariant(c: Channel)
    requires c.bytesSent == c.accepted && c.transmitted == c.left && c.accepted == c.freed && c.left == 0 && c.freed == 0
    requires !c.installed && c.ctrlBytesSent == 0 && c.tasks == [] && c.queue == []
    ensures Invariant(c)
  {
    assert Unsigned64(c.accepted) == c.accepted && Unsigned64(c.left) == c.left;
    hide Unsigned64;
  }

  // ----- What the counters count -----

  /** What the events come to: the lengths accepted, how many of their tasks have run, the bytes of those that ran
      without callbacks, the bytes transmitted, and the handshake once there is one. */
  datatype Tally = Tally(lengths: seq<nat>, ran: nat, freed: nat, transmitted: nat, handshake: seq<nat>)

  function TallyStep(t: Tally, e: Event): Tally
  {
    match e
    case Send(length) => if length <= 65535 then t.(lengths := t.lengths + [length]) else t
    case Install(ctrl) => t.(handshake := [ctrl])
    case RunTask =>
      var ran := t.(ran := t.ran + 1);
      if t.handshake == [] && t.ran < |t.lengths| then ran.(freed := t.freed + t.lengths[t.ran]) else ran
    case Transmit(count) => t.(transmitted := t.transmitted + count)
  }

  function Tallied(events: seq<Event>): Tally
  {
    if events == [] then Tally([], 0, 0, 0, []) else TallyStep(Tallied(events[..|events| - 1]), events[|events| - 1])
  }

  ghost predicate Counts(c: Channel, t: Tally)
  {
    && t.ran <= |t.lengths| && c.tasks == t.lengths[t.ran..] && c.accepted == Sum(t.lengths) && c.freed == t.freed
    && c.left == t.transmitted && t.handshake == (if c.installed then [c.ctrlBytesSent] else [])
  }

  lemma StepCounts(c: Channel, e: Event, t: Tally)
    requires Counts(c, t) && Enabled(c, e)
    ensures Counts(Step(c, e), TallyStep(t, e))
  {
    hide Unsigned64, Sum;
    if e.Send? { SumAppend(t.lengths, e.length); }
  }

  /** In every run: a send is accepted exactly up to 65535 bytes, the tasks are the accepted lengths not yet run, in
      order, and the counters are the sums they are taken for. */
  lemma {:induction false} CountersAreRight(states: seq<Channel>, events: seq<Event>, i: nat)
    requires IsRun(states, events) && i < |states|
    ensures var c, t := states[i], Tallied(events[..i]);
      && t.ran <= |t.lengths| && c.tasks == t.lengths[t.ran..] && c.accepted == Sum(t.lengths) && c.freed == t.freed
      && c.left == t.transmitted && t.handshake == (if c.installed then [c.ctrlBytesSent] else [])
  {
    if i > 0 {
      hide Enabled, Step, TallyStep;
      CountersAreRight(states, events, i - 1);
      StepCounts(states[i - 1], events[i - 1], Tallied(events[..i - 1]));
      assert events[..i][..i - 1] == events[..i - 1];
    }
  }

  // ----- What is reported -----

  /** While the 64-bit counters do not wrap: zero as long as a handshake byte is in flight, and then the
      bytes still buffered plus those freed without having been sent, capped. */
  lemma ReportIs(states: seq<Channel>, events: seq<Event>, i: nat)
    requires IsRun(states, events) && i < |states|
    requires states[i].accepted + states[i].ctrlBytesSent < WRAP
    ensures Report(states[i]) == if ControlInFlight(states[i]) > 0 then 0 else Capped(Buffered(states[i]) + states[i].freed)
  {
    hide Unsigned64, Bytes, Sum, IsRun;
    RunsKeepInvariant(states, events, i);
    var c := states[i];
    if ControlInFlight(c) > 0 {
      Underflow(c.left - c.ctrlBytesSent);
    } else {
      assert 0 <= c.left - c.ctrlBytesSent < WRAP;
    }
  }

  lemma Underflow(difference: int)
    requires -WRAP <= difference < 0
    ensures Unsigned64(difference) == difference + WRAP
  {
  }

  /** If nothing was sent before the callbacks were installed the report never exceeds the truth, and it
      is the truth, capped, exactly when the handshake has left or nothing is buffered. */
  lemma ReportIsExact(states: seq<Channel>, events: seq<Event>, i: nat)
    requires IsRun(states, events) && i < |states|
    requires states[i].accepted + states[i].ctrlBytesSent < WRAP
    requires states[i].freed == 0
    ensures Report(states[i]) <= Buffered(states[i])
    ensures Report(states[i]) == Capped(Buffered(states[i])) <==> ControlInFlight(states[i]) == 0 || Buffered(states[i]) == 0
  {
    ReportIs(states, events, i);
  }

  /** Bytes freed for want of a callback are reported for ever after: then the report is right exactly
      when it is capped anyway. */
  lemma FreedBytesStay(states: seq<Channel>, events: seq<Event>, i: nat)
    requires IsRun(states, events) && i < |states|
    requires states[i].accepted + states[i].ctrlBytesSent < WRAP
    requires ControlInFlight(states[i]) == 0
    ensures Report(states[i]) == Capped(Buffered(states[i]))
       <==> states[i].freed == 0 || Buffered(states[i]) >= MAX_UINT
  {
    ReportIs(states, events, i);
  }

  lemma SameMultiple(x: nat, y: nat)
    requires y <= x < y + WRAP
    ensures x / WRAP == y / WRAP <==> Unsigned64(x) >= Unsigned64(y)
    ensures x / WRAP == y / WRAP ==> Unsigned64(x) - Unsigned64(y) == x - y
  {
    assert x == (x / WRAP) * WRAP + x % WRAP && y == (y / WRAP) * WRAP + y % WRAP;
  }

  lemma WrappedDifference(left: nat, ctrl: nat)
    requires ctrl <= left
    ensures Unsigned64(Unsigned64(left) - ctrl) == Unsigned64(left - ctrl)
  {
    assert left - ctrl == (left % WRAP - ctrl) + (left / WRAP) * WRAP;
    ModOfSum(left % WRAP - ctrl, left / WRAP);
  }

  lemma ModOfSum(x: int, k: nat)
    ensures (x + k * WRAP) % WRAP == x % WRAP
    decreases k
  {
    if k > 0 {
      ModOfSum(x, k - 1);
      assert x + k * WRAP == (x + (k - 1) * WRAP) + WRAP;
    }
  }

  /** When the counters may wrap, after a handshake that has left and with nothing freed, the report is
      right exactly when both counters have wrapped as often, or nothing is buffered. */
  lemma ReportAcrossWrap(states: seq<Channel>, events: seq<Event>, i: nat)
    requires IsRun(states, events) && i < |states|
    requires states[i].freed == 0 && ControlInFlight(states[i]) == 0 && Buffered(states[i]) < WRAP
    ensures Report(states[i]) == Capped(Buffered(states[i]))
       <==> states[i].accepted / WRAP == (states[i].left - states[i].ctrlBytesSent) / WRAP || Buffered(states[i]) == 0
  {
    RunsKeepInvariant(states, events, i);
    var c := states[i];
    if c.installed { WrappedDifference(c.left, c.ctrlBytesSent); }
    SameMultiple(c.accepted, c.left - c.ctrlBytesSent);
  }

  /** Once everything accepted has been run and transmitted, nothing is reported. */
  lemma DrainedReportsNothing(states: seq<Channel>, events: seq<Event>, i: nat)
    requires IsRun(states, events) && i < |states|
    requires states[i].freed == 0 && states[i].tasks == [] && states[i].queue == []
    ensures Report(states[i]) == 0
  {
    RunsKeepInvariant(states, events, i);
    var c := states[i];
    if c.installed { WrappedDifference(c.left, c.ctrlBytesSent); }
  }

  // ----- The objects -----

  /** The agent's record of the channel and its encoder. */
  class DataChannelInfo {
    var ctrlBytesSent: nat
    var queue: seq<Chunk>
    var transmitted: nat
    ghost var left: nat

    constructor ()
      ensures ctrlBytesSent == 0 && queue == [] && transmitted == 0 && left == 0
    {
      ctrlBytesSent, queue, transmitted, left := 0, [], 0, 0;
    }

    method PushBuffer(chunk: Chunk)
      modifies this`queue
      ensures queue == old(queue) + [chunk]
    {
      queue := queue + [chunk];
    }

    method OnDatachannelRequestBytesSent() returns (bytesSent: nat)
      ensures bytesSent == Unsigned64(transmitted - ctrlBytesSent)
    {
      bytesSent := Unsigned64(transmitted - ctrlBytesSent);
    }
  }

  class OwrDataChannel {
    var bytesSent: nat
    var tasks: seq<nat>
    var installed: bool
    ghost var accepted: nat
    ghost var freed: nat
    const info: DataChannelInfo

    ghost function View(): Channel
      reads this, info
    {
      Channel(bytesSent, installed, info.ctrlBytesSent, tasks, info.queue, info.transmitted, accepted, freed, info.left)
    }

    constructor ()
      ensures View() == START && fresh(info)
    {
      bytesSent, tasks, installed, accepted, freed := 0, [], false, 0, 0;
      info := new DataChannelInfo();
    }

    method Send(length: nat)
      modifies this
      ensures View() == Step(old(View()), Event.Send(length))
    {
      if length > MAX_CHUNK_SIZE {
        return;
      }
      bytesSent := Unsigned64(bytesSent + length);
      tasks := tasks + [length];
      accepted := accepted + length;
    }

    /** The end of on_new_datachannel: callbacks, and `ctrl` bytes of OPEN or ACK, if any. */
    method OnNewDatachannel(ctrl: nat)
      requires Enabled(View(), Install(ctrl))
      modifies this, info
      ensures View() == Step(old(View()), Install(ctrl))
    {
      installed := true;
      info.ctrlBytesSent := ctrl;
      if ctrl > 0 {
        info.PushBuffer(Chunk(ctrl, true));
      }
    }

    method DataChannelSend()
      requires tasks != []
      modifies this, info
      ensures View() == Step(old(View()), RunTask)
    {
      var length := tasks[0];
      tasks := tasks[1..];
      if installed {
        if length > 0 {
          info.PushBuffer(Chunk(length, false));
        }
      } else {
        freed := freed + length;
      }
    }

    method GetBufferedAmount() returns (amount: nat)
      ensures amount == Report(View())
    {
      var sent := 0;
      if installed {
        sent := info.OnDatachannelRequestBytesSent();
      }
      if bytesSent < sent {
        amount := 0;
      } else {
        amount := bytesSent - sent;
      }
      if amount > MAX_UINT {
        amount := MAX_UINT;
      }
    }
  }
}
