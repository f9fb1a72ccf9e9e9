/** Closing data channels: the local close with the pad removal nested inside "reset-stream", and the
    removal of a pad by the remote end. A record is named by a number that is never used again, so
    its sink and its source are, too. */
module DataChannelTeardown {
  import Slot = DataChannelSlot
  import Agreement = DataChannelAgreement

  type Id = Slot.Id

  datatype Stage = Connecting | Open | Closing

  datatype Info = Info(name: nat, state: Stage, hasSink: bool, hasSource: bool, negotiated: bool)

  /** What happens, in order: state changes of a record, ready states announced to the application,
      elements detached, the record stolen from the table and freed. */
  datatype Entry =
    | Became(name: nat, state: Stage)
    | Ready(name: nat, closed: bool)
    | SinkDetached(name: nat)
    | SourceDetached(name: nat)
    | Removed(name: nat)

  /** `sessionIds` are the ids with an application channel, `callbacks` those of them whose channel has been
      given its callbacks, `pads` the streams with a decoder pad. */
  datatype Table = Table(isClient: bool, records: map<Id, Info>, sessionIds: set<Id>, callbacks: set<Id>, pads: set<Id>,
    next: nat, log: seq<Entry>)

  datatype Event =
    | Bind(id: Id)
    | Create(id: Id, negotiated: bool)
    | AddSource(id: Id)
    | PadAdded(id: Id)
    | Opened(id: Id)
    | Close(id: Id)
    | PadRemoved(id: Id)
    | Use(id: Id)

  /** Abort: an assertion fails, or a NULL record is used. */
  datatype Outcome = Done(table: Table) | Abort

  function Log(t: Table, e: Entry): Table
  {
    t.(log := t.log + [e])
  }

  function SetState(t: Table, id: Id, state: Stage): Table
    requires id in t.records
  {
    var rec := t.records[id];
    Log(t.(records := t.records[id := rec.(state := state)]), Became(rec.name, state))
  }

  function DetachSink(t: Table, id: Id): Table
    requires id in t.records
  {
    var rec := t.records[id];
    Log(t.(records := t.records[id := rec.(hasSink := false)]), SinkDetached(rec.name))
  }

  function DetachSource(t: Table, id: Id): Table
    requires id in t.records
  {
    var rec := t.records[id];
    Log(t.(records := t.records[id := rec.(hasSource := false)]), SourceDetached(rec.name))
  }

  function MaybeClose(t: Table, id: Id): Table
    requires id in t.records
  {
    var rec := t.records[id];
    if rec.hasSink || rec.hasSource then t
    else Log(Log(t, Ready(rec.name, true)).(records := t.records - {id}), Removed(rec.name))
  }

  /** The elements of an added channel that is not closing are attached. */
  predicate Attached(t: Table, id: Id)
  {
    id in t.records && id in t.sessionIds && t.records[id].state != Closing ==> t.records[id].hasSink && t.records[id].hasSource
  }

  /** sctpdec_pad_removed, asserting that there is a record and, unless it is closing, a channel. */
  function OnPadRemoved(t: Table, id: Id): Outcome
    requires Attached(t, id)
  {
    if id !in t.records then Abort
    else if t.records[id].state == Closing then Done(t)
    else if id !in t.sessionIds then Abort
    else
      var marked := Log(SetState(t, id, Closing), Ready(t.records[id].name, false));
      Done(MaybeClose(DetachSource(DetachSink(marked, id), id), id))
  }

  /** on_datachannel_close; resetting the stream removes its pad. */
  function OnClose(t: Table, id: Id): Outcome
    requires id in t.records ==> t.records[id].hasSink && t.records[id].hasSource
  {
    if id !in t.records then Abort
    else
      var marked := SetState(Log(t, Ready(t.records[id].name, false)), id, Closing);
      var noSink := DetachSink(marked, id);
      match OnPadRemoved(noSink.(pads := noSink.pads - {id}), id)
      case Abort => Abort
      case Done(reset) =>
        if id in reset.records then Done(MaybeClose(DetachSource(reset, id), id)) else Abort
  }

  function NewRecord(t: Table, id: Id, hasSink: bool, hasSource: bool, negotiated: bool): Table
  {
    Log(t.(records := t.records[id := Info(t.next, Connecting, hasSink, hasSource, negotiated)], next := t.next + 1),
      Became(t.next, Connecting))
  }

  /** sctpdec_pad_added. A refused pad loses the record and resets the stream, which removes the pad. */
  function OnPadAdded(t: Table, id: Id): Outcome
  {
    var remotelyInitiated := id !in t.records;
    var made := if remotelyInitiated then NewRecord(t, id, false, false, false) else t;
    if !made.records[id].negotiated && !Slot.ValidStreamId(t.isClient, id, remotelyInitiated) then
      OnPadRemoved(made.(records := made.records - {id}, pads := made.pads - {id}), id)
    else
      Done(made.(records := made.records[id := made.records[id].(hasSink := true)], pads := made.pads + {id}))
  }

  /** Which callbacks can come. A source is made only for a channel of the session, which then can be used and
      closed; a close, and the removal of an added channel's pad, need both elements attached. */
  predicate Enabled(t: Table, e: Event)
  {
    match e
    case Bind(id) => true
    case Create(id, negotiated) => id in t.sessionIds && id !in t.records && (negotiated || Agreement.Owns(t.isClient, id))
    case AddSource(id) => id in t.sessionIds && id in t.records && !t.records[id].hasSource
    case PadAdded(id) => id !in t.pads
    case Opened(id) => id in t.records
    case Close(id) => id in t.callbacks && (id in t.records ==> t.records[id].hasSink && t.records[id].hasSource)
    case PadRemoved(id) => id in t.pads && Attached(t, id)
    case Use(id) => id in t.callbacks
  }

  function Step(t: Table, e: Event): Outcome
    requires Enabled(t, e)
  {
    match e
    case Bind(id) => Done(t.(sessionIds := t.sessionIds + {id}))
    case Create(id, negotiated) => Done(NewRecord(t, id, false, true, negotiated).(callbacks := t.callbacks + {id}))
    case AddSource(id) =>
      Done(t.(records := t.records[id := t.records[id].(hasSource := true)], callbacks := t.callbacks + {id}))
    case PadAdded(id) => OnPadAdded(t, id)
    case Opened(id) => Done(SetState(t, id, Open))
    case Close(id) => OnClose(t, id)
    case PadRemoved(id) => OnPadRemoved(t.(pads := t.pads - {id}), id)
    case Use(id) => if id in t.records then Done(t) else Abort
  }

  function Start(isClient: bool): Table
  {
    Table(isClient, map[], {}, {}, {}, 0, [])
  }

  ghost predicate IsRun(tables: seq<Table>, events: seq<Event>)
  {
    && |tables| == |events| + 1 && tables[0] == Start(tables[0].isClient)
    && forall i :: 0 <= i < |events| ==> Enabled(tables[i], events[i]) && Step(tables[i], events[i]) == Done(tables[i + 1])
  }

  // ----- The history of one record -----

  /** The entries about one record, in order. */
  function Of(log: seq<Entry>, name: nat): seq<Entry>
  {
    if log == [] then []
    else
      var earlier, last := Of(log[..|log| - 1], name), log[|log| - 1];
      if last.name == name then earlier + [last] else earlier
  }

  lemma OfAppend(log: seq<Entry>, e: Entry, name: nat)
    ensures Of(log + [e], name) == if e.name == name then Of(log, name) + [e] else Of(log, name)
  {
    assert (log + [e])[..|log|] == log;
  }

  /** A record that is being set up or open: connecting first, nothing but open afterwards. */
  ghost predicate Living(history: seq<Entry>, name: nat)
  {
    && history != [] && history[0] == Became(name, Connecting)
    && forall i :: 1 <= i < |history| ==> history[i] == Became(name, Open)
  }

  /** A local close announces before it marks the record, a remote reset the other way round. */
  function Teardown(name: nat, local: bool): seq<Entry>
  {
    (if local then [Ready(name, false), Became(name, Closing)] else [Became(name, Closing), Ready(name, false)])
    + [SinkDetached(name), SourceDetached(name), Ready(name, true), Removed(name)]
  }

  ghost predicate Ended(history: seq<Entry>, name: nat)
  {
    && |history| >= 6 && Living(history[..|history| - 6], name)
    && (history[|history| - 6..] == Teardown(name, true) || history[|history| - 6..] == Teardown(name, false))
  }

  ghost predicate Live(t: Table, name: nat)
  {
    exists id :: id in t.records && t.records[id].name == name
  }

  /** A live record has only lived; one that is gone lived and was then torn down, once; a number not
      used yet has no history. */
  ghost predicate History(t: Table, name: nat)
  {
    if name >= t.next then Of(t.log, name) == []
    else if Live(t, name) then Living(Of(t.log, name), name)
    else Ended(Of(t.log, name), name)
  }

  ghost predicate Tidy(t: Table)
  {
    && (forall id :: id in t.records ==> t.records[id].name < t.next && t.records[id].state != Closing)
    && (forall id, other :: id in t.records && other in t.records && id != other ==>
          t.records[id].name != t.records[other].name)
    && (forall id :: id in t.pads <==> id in t.records && t.records[id].hasSink)
    && (forall id :: id in t.records && !t.records[id].hasSink ==> t.records[id].negotiated || Agreement.Owns(t.isClient, id))
  }

  ghost predicate Invariant(t: Table)
  {
    Tidy(t) && forall name :: History(t, name)
  }

  /** The whole teardown of a record. */
  function TornDown(t: Table, id: Id, local: bool): Table
    requires id in t.records
  {
    t.(records := t.records - {id}, pads := t.pads - {id}, log := t.log + Teardown(t.records[id].name, local))
  }

  lemma CloseTearsDown(t: Table, id: Id)
    requires id in t.records && t.records[id].hasSink && t.records[id].hasSource
    ensures OnClose(t, id) == Done(TornDown(t, id, true))
  {
    var name := t.records[id].name;
    var marked := SetState(Log(t, Ready(name, false)), id, Closing);
    var noSink := DetachSink(marked, id);
    var reset := noSink.(pads := noSink.pads - {id});
    assert OnPadRemoved(reset, id) == Done(reset);
    var gone := MaybeClose(DetachSource(reset, id), id);
    assert gone.records == t.records - {id};
    assert gone.log == t.log + Teardown(name, true);
  }

  lemma RemovalTearsDown(t: Table, id: Id)
    requires id in t.records && t.records[id].hasSink && t.records[id].hasSource
    requires t.records[id].state != Closing && id in t.sessionIds
    ensures OnPadRemoved(t.(pads := t.pads - {id}), id) == Done(TornDown(t, id, false))
  {
    var start := t.(pads := t.pads - {id});
    var name := t.records[id].name;
    var marked := Log(SetState(start, id, Closing), Ready(name, false));
    var gone := MaybeClose(DetachSource(DetachSink(marked, id), id), id);
    assert gone.records == t.records - {id};
    assert gone.log == t.log + Teardown(name, false);
  }

  lemma OfTail(log: seq<Entry>, tail: seq<Entry>, name: nat, other: nat)
    requires |tail| == 3 && forall k :: 0 <= k < 3 ==> tail[k].name == name
    ensures Of(log + tail, other) == if other == name then Of(log, other) + tail else Of(log, other)
  {
    hide Of;
    OfAppend(log, tail[0], other);
    OfAppend(log + [tail[0]], tail[1], other);
    OfAppend(log + [tail[0]] + [tail[1]], tail[2], other);
    assert log + tail == log + [tail[0]] + [tail[1]] + [tail[2]];
    assert tail == [tail[0]] + [tail[1]] + [tail[2]];
  }

  lemma OfTeardown(log: seq<Entry>, name: nat, local: bool, other: nat)
    ensures Of(log + Teardown(name, local), other)
         == if other == name then Of(log, other) + Teardown(name, local) else Of(log, other)
  {
    hide Of;
    var t := Teardown(name, local);
    OfTail(log, t[..3], name, other);
    OfTail(log + t[..3], t[3..], name, other);
    assert log + t[..3] + t[3..] == log + t && t[..3] + t[3..] == t;
  }

  lemma SameNames(t: Table, t': Table, name: nat)
    requires forall id :: id in t.records && t.records[id].name == name <==> id in t'.records && t'.records[id].name == name
    ensures Live(t, name) <==> Live(t', name)
  {
    if Live(t, name) {
      var k :| k in t.records && t.records[k].name == name;
      assert t'.records[k].name == name;
    }
    if Live(t', name) {
      var k :| k in t'.records && t'.records[k].name == name;
      assert t.records[k].name == name;
    }
  }

  lemma TearingDown(t: Table, id: Id, local: bool, name: nat)
    requires Invariant(t) && id in t.records
    ensures History(TornDown(t, id, local), name)
  {
    hide Of, Living;
    var torn, t' := t.records[id].name, TornDown(t, id, local);
    assert History(t, name) && Live(t, torn);
    OfTeardown(t.log, torn, local, name);
    if name == torn {
      assert Of(t'.log, name)[..|Of(t'.log, name)| - 6] == Of(t.log, name);
      assert Ended(Of(t'.log, name), name);
    } else {
      hide Ended;
      SameNames(t, t', name);
    }
  }

  lemma TearingDownKeepsInvariant(t: Table, id: Id, local: bool)
    requires Invariant(t) && id in t.records
    ensures Invariant(TornDown(t, id, local))
  {
    hide History, Teardown;
    forall name ensures History(TornDown(t, id, local), name) { TearingDown(t, id, local, name); }
  }

  lemma Creating(t: Table, id: Id, hasSink: bool, negotiated: bool, name: nat)
    requires Invariant(t) && id !in t.records
    ensures History(NewRecord(t, id, hasSink, !hasSink, negotiated), name)
  {
    hide Of, Ended;
    var t' := NewRecord(t, id, hasSink, !hasSink, negotiated);
    assert History(t, name) && t'.records[id].name == t.next;
    OfAppend(t.log, Became(t.next, Connecting), name);
    if name < t.next { SameNames(t, t', name); }
  }

  lemma HistoryOfRecords(t: Table, t': Table, name: nat)
    requires t.log == t'.log && t.next == t'.next && History(t, name)
    requires t'.records.Keys == t.records.Keys && forall k :: k in t.records ==> t'.records[k].name == t.records[k].name
    ensures History(t', name)
  {
    SameNames(t, t', name);
  }

  lemma CreatingKeepsInvariant(t: Table, id: Id, hasSink: bool, negotiated: bool)
    requires Invariant(t) && id !in t.records && (hasSink || negotiated || Agreement.Owns(t.isClient, id))
    ensures Invariant(NewRecord(if hasSink then t.(pads := t.pads + {id}) else t, id, hasSink, !hasSink, negotiated))
  {
    var t' := NewRecord(if hasSink then t.(pads := t.pads + {id}) else t, id, hasSink, !hasSink, negotiated);
    forall name ensures History(t', name) {
      hide History;
      Creating(t, id, hasSink, negotiated, name);
      HistoryOfRecords(NewRecord(t, id, hasSink, !hasSink, negotiated), t', name);
    }
  }

  lemma Opening(t: Table, id: Id, name: nat)
    requires Invariant(t) && id in t.records
    ensures History(SetState(t, id, Open), name)
  {
    hide Of, Ended;
    var t' := SetState(t, id, Open);
    assert History(t, name) && Live(t, t.records[id].name);
    OfAppend(t.log, Became(t.records[id].name, Open), name);
    SameNames(t, t', name);
  }

  lemma OpeningKeepsInvariant(t: Table, id: Id)
    requires Invariant(t) && id in t.records
    ensures Invariant(SetState(t, id, Open))
  {
    forall name ensures History(SetState(t, id, Open), name) { hide History; Opening(t, id, name); }
  }

  lemma AttachingKeepsInvariant(t: Table, id: Id, rec: Info)
    requires Invariant(t) && id in t.records
    requires rec == t.records[id].(hasSource := true) || (id !in t.pads && rec == t.records[id].(hasSink := true))
    ensures Invariant(t.(records := t.records[id := rec], pads := if rec.hasSink then t.pads + {id} else t.pads))
  {
    var t' := t.(records := t.records[id := rec], pads := if rec.hasSink then t.pads + {id} else t.pads);
    AttachingStaysTidy(t, id, rec);
    hide History, Tidy;
    forall name ensures History(t', name) { HistoryOfRecords(t, t', name); }
  }

  lemma AttachingStaysTidy(t: Table, id: Id, rec: Info)
    requires Tidy(t) && id in t.records
    requires rec == t.records[id].(hasSource := true) || (id !in t.pads && rec == t.records[id].(hasSink := true))
    ensures Tidy(t.(records := t.records[id := rec], pads := if rec.hasSink then t.pads + {id} else t.pads))
  {
  }

  lemma BindingKeepsInvariant(t: Table, sessionIds: set<Id>, callbacks: set<Id>)
    requires Invariant(t)
    ensures Invariant(t.(sessionIds := sessionIds, callbacks := callbacks))
  {
    hide History;
    var t' := t.(sessionIds := sessionIds, callbacks := callbacks);
    forall name ensures History(t', name) { HistoryOfRecords(t, t', name); }
  }

  lemma StepKeepsInvariant(t: Table, e: Event)
    requires Invariant(t) && Enabled(t, e) && Step(t, e).Done?
    ensures Invariant(Step(t, e).table)
  {
    hide History, TornDown, OnClose, OnPadAdded;
    match e
    case Bind(id) => BindingKeepsInvariant(t, t.sessionIds + {id}, t.callbacks);
    case Create(id, negotiated) =>
      hide Invariant;
      CreatingKeepsInvariant(t, id, false, negotiated);
      BindingKeepsInvariant(NewRecord(t, id, false, true, negotiated), t.sessionIds, t.callbacks + {id});
    case AddSource(id) =>
      var t' := t.(records := t.records[id := t.records[id].(hasSource := true)]);
      AttachingKeepsInvariant(t, id, t.records[id].(hasSource := true));
      assert id in t.pads ==> t.pads + {id} == t.pads;
      BindingKeepsInvariant(t', t.sessionIds, t.callbacks + {id});
    case PadAdded(id) =>
      PadAddedIs(t, id);
      if id in t.records {
        AttachingKeepsInvariant(t, id, t.records[id].(hasSink := true));
      } else {
        hide Invariant;
        CreatingKeepsInvariant(t, id, true, false);
      }
    case Opened(id) => OpeningKeepsInvariant(t, id);
    case Close(id) => ClosingKeepsInvariant(t, id);
    case PadRemoved(id) =>
      hide OnPadRemoved;
      RemovalKeepsInvariant(t, id);
    case Use(_) =>
  }

  /** A pad is refused exactly if there is no record and the agent owns the id. */
  lemma PadAddedIs(t: Table, id: Id)
    requires Tidy(t) && id !in t.pads
    ensures OnPadAdded(t, id) ==
      if id in t.records then Done(t.(records := t.records[id := t.records[id].(hasSink := true)], pads := t.pads + {id}))
      else if Agreement.Owns(t.isClient, id) then Abort
      else Done(NewRecord(t.(pads := t.pads + {id}), id, true, false, false))
  {
    if id !in t.records {
      var made := NewRecord(t, id, false, false, false);
      assert made.records[id := made.records[id].(hasSink := true)] == t.records[id := Info(t.next, Connecting, true, false, false)];
    }
  }

  lemma ClosingKeepsInvariant(t: Table, id: Id)
    requires Invariant(t) && Enabled(t, Close(id)) && OnClose(t, id).Done?
    ensures Invariant(OnClose(t, id).table)
  {
    hide Invariant;
    CloseTearsDown(t, id);
    TearingDownKeepsInvariant(t, id, true);
  }

  lemma RemovalKeepsInvariant(t: Table, id: Id)
    requires Invariant(t) && Enabled(t, PadRemoved(id)) && OnPadRemoved(t.(pads := t.pads - {id}), id).Done?
    ensures Invariant(OnPadRemoved(t.(pads := t.pads - {id}), id).table)
  {
    hide History;
    RemovalTearsDown(t, id);
    TearingDownKeepsInvariant(t, id, false);
  }

  lemma {:induction false} RunsKeepInvariant(tables: seq<Table>, events: seq<Event>, i: nat)
    requires IsRun(tables, events) && i < |tables|
    ensures Invariant(tables[i])
  {
    hide Invariant;
    if i == 0 {
      StartInvariant(tables[0].isClient);
    } else {
      hide Enabled, Step;
      RunsKeepInvariant(tables, events, i - 1);
      assert Step(tables[i - 1], events[i - 1]) == Done(tables[i]);
      StepKeepsInvariant(tables[i - 1], events[i - 1]);
    }
  }

  lemma StartInvariant(isClient: bool)
    ensures Invariant(Start(isClient))
  {
  }

  function Times(log: seq<Entry>, e: Entry): nat
  {
    multiset(log)[e]
  }

  lemma {:induction false} TimesInHistory(log: seq<Entry>, e: Entry)
    ensures Times(log, e) == Times(Of(log, e.name), e)
  {
    if log != [] {
      TimesInHistory(log[..|log| - 1], e);
      assert log == log[..|log| - 1] + [log[|log| - 1]];
    }
  }

  predicate Final(e: Entry)
  {
    !e.Became? || e.state == Closing
  }

  lemma NoneLiving(history: seq<Entry>, name: nat, e: Entry)
    requires Living(history, name) && Final(e)
    ensures Times(history, e) == 0
  {
    assert e !in history;
  }

  lemma OnceEnded(history: seq<Entry>, name: nat, e: Entry)
    requires Ended(history, name) && Final(e) && e.name == name
    ensures Times(history, e) == 1
  {
    hide Living;
    var lived, end := history[..|history| - 6], history[|history| - 6..];
    assert history == lived + end;
    NoneLiving(lived, name, e);
    assert multiset(history) == multiset(lived) + multiset(end);
  }

  /** Over every run of local closes, remote resets and the removals nested in a close: each record only
      connects and opens while it is there, one that is gone went on through exactly one teardown, and
      so its sink and its source were each detached once, and closing and closed announced once. */
  lemma TeardownHappensOnce(tables: seq<Table>, events: seq<Event>, i: nat, name: nat, e: Entry)
    requires IsRun(tables, events) && i < |tables|
    requires Final(e) && e.name == name
    ensures History(tables[i], name)
    ensures Times(tables[i].log, e) == if name < tables[i].next && !Live(tables[i], name) then 1 else 0
  {
    hide IsRun, Of, Ended, Living;
    RunsKeepInvariant(tables, events, i);
    var history := Of(tables[i].log, name);
    assert History(tables[i], name);
    TimesInHistory(tables[i].log, e);
    if Ended(history, name) { OnceEnded(history, name, e); }
    if Living(history, name) { NoneLiving(history, name, e); }
  }

  /** The agent fails exactly when a channel is closed or used that has no record any more, when the remote end
      resets a stream whose channel the application never added, or when it opens a stream without a record
      whose id the agent owns. */
  lemma AbortsExactly(tables: seq<Table>, events: seq<Event>, i: nat, e: Event)
    requires IsRun(tables, events) && i < |tables| && Enabled(tables[i], e)
    ensures Step(tables[i], e).Abort? <==>
      || ((e.Close? || e.Use?) && e.id !in tables[i].records)
      || (e.PadRemoved? && e.id !in tables[i].sessionIds)
      || (e.PadAdded? && e.id !in tables[i].records && Agreement.Owns(tables[i].isClient, e.id))
  {
    hide History, IsRun, OnPadAdded;
    RunsKeepInvariant(tables, events, i);
    var t := tables[i];
    match e
    case Close(id) => if id in t.records { CloseTearsDown(t, id); }
    case PadRemoved(id) => if id in t.sessionIds { RemovalTearsDown(t, id); }
    case PadAdded(id) => PadAddedIs(t, id);
    case _ =>
  }

  /** A channel that can be used has no record only after its close or the remote end's reset. */
  lemma {:induction false} UsableUntilTornDown(tables: seq<Table>, events: seq<Event>, i: nat, id: Id)
    requires IsRun(tables, events) && i < |tables| && id in tables[i].callbacks && id !in tables[i].records
    ensures exists j :: 0 <= j < i && (events[j] == Close(id) || events[j] == PadRemoved(id))
  {
    if i > 0 {
      hide IsRun, OnPadAdded, OnClose, OnPadRemoved;
      var t, e := tables[i - 1], events[i - 1];
      RunStep(tables, events, i - 1);
      if id in t.records {
        StepKeepsRecord(tables, events, i - 1, id);
      } else {
        StepKeepsCallbacks(tables, events, i - 1, id);
        if e != Close(id) && e != PadRemoved(id) { UsableUntilTornDown(tables, events, i - 1, id); }
      }
    }
  }

  lemma RunStep(tables: seq<Table>, events: seq<Event>, i: nat)
    requires IsRun(tables, events) && i < |events|
    ensures Enabled(tables[i], events[i]) && Step(tables[i], events[i]) == Done(tables[i + 1])
  {
  }

  /** Only a close or a reset takes a record out of the table. */
  lemma StepKeepsRecord(tables: seq<Table>, events: seq<Event>, i: nat, id: Id)
    requires IsRun(tables, events) && i < |events| && id in tables[i].records
    ensures events[i] == Close(id) || events[i] == PadRemoved(id) || id in tables[i + 1].records
  {
    hide History, OnPadAdded;
    RunsKeepInvariant(tables, events, i);
    RunStep(tables, events, i);
    var t := tables[i];
    match events[i]
    case PadAdded(k) => PadAddedIs(t, k);
    case Close(k) => CloseTearsDown(t, k);
    case PadRemoved(k) => RemovalTearsDown(t, k);
    case _ =>
  }

  /** Callbacks come with a record, and from nowhere else. */
  lemma StepKeepsCallbacks(tables: seq<Table>, events: seq<Event>, i: nat, id: Id)
    requires IsRun(tables, events) && i < |events| && id !in tables[i].records
    ensures id in tables[i + 1].callbacks ==> id in tables[i].callbacks || id in tables[i + 1].records
  {
    hide History, OnPadAdded;
    RunsKeepInvariant(tables, events, i);
    RunStep(tables, events, i);
    var t := tables[i];
    match events[i]
    case PadAdded(k) => PadAddedIs(t, k);
    case Close(k) => CloseTearsDown(t, k);
    case PadRemoved(k) => RemovalTearsDown(t, k);
    case _ =>
  }

  // ----- A simpler table -----

  datatype Row = Row(state: Stage, hasSink: bool, hasSource: bool, negotiated: bool)

  /** What is left when a teardown is one step. */
  datatype Spec = Spec(rows: map<Id, Row>, sessionIds: set<Id>, callbacks: set<Id>, pads: set<Id>)

  function SpecStep(s: Spec, e: Event): Spec
  {
    match e
    case Bind(id) => s.(sessionIds := s.sessionIds + {id})
    case Create(id, negotiated) =>
      s.(rows := s.rows[id := Row(Connecting, false, true, negotiated)], callbacks := s.callbacks + {id})
    case AddSource(id) =>
      if id in s.rows then s.(rows := s.rows[id := s.rows[id].(hasSource := true)], callbacks := s.callbacks + {id}) else s
    case PadAdded(id) =>
      var row := if id in s.rows then s.rows[id].(hasSink := true) else Row(Connecting, true, false, false);
      s.(rows := s.rows[id := row], pads := s.pads + {id})
    case Opened(id) => if id in s.rows then s.(rows := s.rows[id := s.rows[id].(state := Open)]) else s
    case Close(id) => s.(rows := s.rows - {id}, pads := s.pads - {id})
    case PadRemoved(id) => s.(rows := s.rows - {id}, pads := s.pads - {id})
    case Use(_) => s
  }

  function After(events: seq<Event>): Spec
  {
    if events == [] then Spec(map[], {}, {}, {}) else SpecStep(After(events[..|events| - 1]), events[|events| - 1])
  }

  function RowOf(info: Info): Row
  {
    Row(info.state, info.hasSink, info.hasSource, info.negotiated)
  }

  predicate Follows(t: Table, s: Spec)
  {
    && t.sessionIds == s.sessionIds && t.callbacks == s.callbacks && t.pads == s.pads && t.records.Keys == s.rows.Keys
    && forall id :: id in t.records ==> RowOf(t.records[id]) == s.rows[id]
  }

  lemma TornDownFollows(t: Table, s: Spec, id: Id, local: bool)
    requires Follows(t, s) && id in t.records
    ensures Follows(TornDown(t, id, local), SpecStep(s, Close(id))) && Follows(TornDown(t, id, local), SpecStep(s, PadRemoved(id)))
  {
    hide Teardown;
  }

  lemma RemovalHappens(t: Table, id: Id)
    requires Invariant(t) && Enabled(t, PadRemoved(id)) && Step(t, PadRemoved(id)).Done?
    ensures id in t.records && Step(t, PadRemoved(id)) == Done(TornDown(t, id, false))
  {
    hide History;
    RemovalTearsDown(t, id);
  }

  lemma CloseHappens(t: Table, id: Id)
    requires Enabled(t, Close(id)) && Step(t, Close(id)).Done?
    ensures id in t.records && Step(t, Close(id)) == Done(TornDown(t, id, true))
  {
    if id in t.records { CloseTearsDown(t, id); }
  }

  lemma StepFollows(t: Table, s: Spec, e: Event)
    requires Invariant(t) && Enabled(t, e) && Step(t, e).Done? && Follows(t, s)
    ensures Follows(Step(t, e).table, SpecStep(s, e))
  {
    if e.Close? {
      hide Invariant, Step, SpecStep, Follows;
      CloseHappens(t, e.id);
      TornDownFollows(t, s, e.id, true);
    } else if e.PadRemoved? {
      hide Invariant, Step, SpecStep, Follows;
      RemovalHappens(t, e.id);
      TornDownFollows(t, s, e.id, false);
    } else if e.PadAdded? {
      hide Invariant, SpecStep, Follows;
      PadAddedFollows(t, s, e.id);
    } else {
      hide Invariant, OnPadAdded, OnClose, OnPadRemoved;
    }
  }

  lemma PadAddedFollows(t: Table, s: Spec, id: Id)
    requires Invariant(t) && id !in t.pads && OnPadAdded(t, id).Done? && Follows(t, s)
    ensures Follows(OnPadAdded(t, id).table, SpecStep(s, PadAdded(id)))
  {
    hide History, OnPadAdded;
    PadAddedIs(t, id);
  }

  /** In every run the callbacks, nested as they are, do to the table what the simpler one says, where closing and
      resetting take the record out in one step. */
  lemma {:induction false} TeardownIsAtomic(tables: seq<Table>, events: seq<Event>, i: nat)
    requires IsRun(tables, events) && i < |tables|
    ensures Follows(tables[i], After(events[..i]))
  {
    if i > 0 {
      hide Invariant, Enabled, Step, SpecStep, Follows;
      TeardownIsAtomic(tables, events, i - 1);
      RunsKeepInvariant(tables, events, i - 1);
      assert Step(tables[i - 1], events[i - 1]) == Done(tables[i]);
      StepFollows(tables[i - 1], After(events[..i - 1]), events[i - 1]);
      assert events[..i][..i - 1] == events[..i - 1];
    }
  }

  // ----- The failures happen -----

  /** A stream that the remote end opens and resets before the application adds it. */
  lemma NeverAddedAborts(isClient: bool, id: Id) returns (tables: seq<Table>, events: seq<Event>)
    requires !Agreement.Owns(isClient, id)
    ensures events == [PadAdded(id)] && IsRun(tables, events) && tables[0].isClient == isClient
    ensures Enabled(tables[1], PadRemoved(id)) && Step(tables[1], PadRemoved(id)).Abort?
  {
    PadAddedIs(Start(isClient), id);
    hide OnPadAdded;
    tables, events := [Start(isClient), Step(Start(isClient), PadAdded(id)).table], [PadAdded(id)];
  }

  /** A stream that the remote end opens on an id of the agent, at once. */
  lemma OwnedPadAborts(isClient: bool, id: Id)
    requires Agreement.Owns(isClient, id)
    ensures Enabled(Start(isClient), PadAdded(id)) && Step(Start(isClient), PadAdded(id)).Abort?
  {
    PadAddedIs(Start(isClient), id);
  }

  /** A channel opened in the ordinary way and closed: closing it again fails, and so do using it and, on an
      id of the agent, data that the remote end had under way. */
  lemma ClosedAborts(isClient: bool, id: Id) returns (tables: seq<Table>, events: seq<Event>)
    ensures events == [Bind(id), Create(id, !Agreement.Owns(isClient, id)), PadAdded(id), Opened(id), Close(id)]
    ensures IsRun(tables, events) && tables[5].isClient == isClient
    ensures Enabled(tables[5], Close(id)) && Step(tables[5], Close(id)).Abort?
    ensures Enabled(tables[5], Use(id)) && Step(tables[5], Use(id)).Abort?
    ensures Enabled(tables[5], PadAdded(id)) && (Step(tables[5], PadAdded(id)).Abort? <==> Agreement.Owns(isClient, id))
  {
    hide OnClose, OnPadAdded;
    tables, events := OpenedInTheOrdinaryWay(isClient, id);
    hide IsRun;
    var alive := tables[4];
    CloseTearsDown(alive, id);
    var closed := TornDown(alive, id, true);
    assert closed.records == map[] && closed.pads == {};
    NoRecordAborts(closed, id);
    PadAddedIs(closed, id);
    Extend(tables, events, Close(id), closed);
    tables, events := tables + [closed], events + [Close(id)];
  }

  lemma Extend(tables: seq<Table>, events: seq<Event>, e: Event, t: Table)
    requires IsRun(tables, events) && Enabled(tables[|events|], e) && Step(tables[|events|], e) == Done(t)
    ensures IsRun(tables + [t], events + [e])
  {
    hide Enabled, Step;
    assert forall i :: 0 <= i < |events| ==> (tables + [t])[i] == tables[i] && (events + [e])[i] == events[i];
  }

  lemma OpenedInTheOrdinaryWay(isClient: bool, id: Id) returns (tables: seq<Table>, events: seq<Event>)
    ensures events == [Bind(id), Create(id, !Agreement.Owns(isClient, id)), PadAdded(id), Opened(id)]
    ensures IsRun(tables, events) && |tables| == 5 && tables[4].isClient == isClient
    ensures tables[4].records == map[id := Info(0, Open, true, true, !Agreement.Owns(isClient, id))]
    ensures tables[4].pads == {id} && tables[4].callbacks == {id} && tables[4].sessionIds == {id}
  {
    hide OnPadAdded;
    var negotiated := !Agreement.Owns(isClient, id);
    var t0 := Start(isClient);
    var t1 := Step(t0, Bind(id)).table;
    var t2 := Step(t1, Create(id, negotiated)).table;
    assert t2.records == map[id := Info(0, Connecting, false, true, negotiated)];
    PadAddedIs(t2, id);
    var t3 := OnPadAdded(t2, id).table;
    assert t3.records == map[id := Info(0, Connecting, true, true, negotiated)] && t3.pads == {id};
    var t4 := SetState(t3, id, Open);
    tables, events := [t0, t1, t2, t3, t4], [Bind(id), Create(id, negotiated), PadAdded(id), Opened(id)];
  }

  lemma NoRecordAborts(t: Table, id: Id)
    requires id !in t.records
    ensures OnClose(t, id) == Abort
  {
  }

  // ----- The agent's callbacks -----

  class TransportAgent {
    const isClient: bool
    var dataChannels: map<Id, Info>
    var sessionIds: set<Id>
    var callbacks: set<Id>
    var pads: set<Id>
    var next: nat
    ghost var log: seq<Entry>

    ghost function View(): Table
      reads this
    {
      Table(isClient, dataChannels, sessionIds, callbacks, pads, next, log)
    }

    method SetReadyState(id: Id, closed: bool)
      requires id in dataChannels
      modifies this`log
      ensures View() == Log(old(View()), Ready(dataChannels[id].name, closed))
    {
      log := log + [Ready(dataChannels[id].name, closed)];
    }

    method MarkClosing(id: Id)
      requires id in dataChannels
      modifies this`dataChannels, this`log
      ensures View() == SetState(old(View()), id, Closing)
    {
      log := log + [Became(dataChannels[id].name, Closing)];
      dataChannels := dataChannels[id := dataChannels[id].(state := Closing)];
    }

    method RemoveSink(id: Id)
      requires id in dataChannels && dataChannels[id].hasSink
      modifies this`dataChannels, this`log
      ensures View() == DetachSink(old(View()), id)
    {
      log := log + [SinkDetached(dataChannels[id].name)];
      dataChannels := dataChannels[id := dataChannels[id].(hasSink := false)];
    }

    method RemoveSource(id: Id)
      requires id in dataChannels && dataChannels[id].hasSource
      modifies this`dataChannels, this`log
      ensures View() == DetachSource(old(View()), id)
    {
      log := log + [SourceDetached(dataChannels[id].name)];
      dataChannels := dataChannels[id := dataChannels[id].(hasSource := false)];
    }

    method MaybeCloseDataChannel(id: Id)
      requires id in dataChannels
      modifies this`dataChannels, this`log
      ensures View() == MaybeClose(old(View()), id)
      ensures id in dataChannels <==> old(dataChannels[id].hasSink || dataChannels[id].hasSource)
    {
      var info := dataChannels[id];
      if !info.hasSink && !info.hasSource {
        SetReadyState(id, true);
        dataChannels := dataChannels - {id};
        log := log + [Removed(info.name)];
      }
    }

    method MakeRecord(id: Id)
      modifies this`dataChannels, this`next, this`log
      ensures View() == NewRecord(old(View()), id, false, false, false)
    {
      dataChannels := dataChannels[id := Info(next, Connecting, false, false, false)];
      log := log + [Became(next, Connecting)];
      next := next + 1;
    }

    /** `ok` is false where the source's assertions abort, here and below. */
    method SctpdecPadAdded(id: Id) returns (ok: bool)
      modifies this
      ensures ok == OnPadAdded(old(View()), id).Done?
      ensures ok ==> View() == OnPadAdded(old(View()), id).table
    {
      var remotelyInitiated := id !in dataChannels;
      if remotelyInitiated {
        MakeRecord(id);
      }
      if !dataChannels[id].negotiated && !Slot.ValidStreamId(isClient, id, remotelyInitiated) {
        pads := pads + {id};
        dataChannels := dataChannels - {id};
        ok := ResetStream(id);
        return;
      }
      dataChannels := dataChannels[id := dataChannels[id].(hasSink := true)];
      pads := pads + {id};
      return true;
    }

    method SctpdecPadRemoved(id: Id) returns (ok: bool)
      requires Attached(View(), id)
      modifies this
      ensures ok == OnPadRemoved(old(View()), id).Done?
      ensures ok ==> View() == OnPadRemoved(old(View()), id).table
    {
      if id !in dataChannels {
        return false;
      }
      var alreadyClosing := dataChannels[id].state == Closing;
      if !alreadyClosing {
        MarkClosing(id);
        if id !in sessionIds {
          return false;
        }
      }
      if alreadyClosing {
        return true;
      }
      SetReadyState(id, false);
      RemoveSink(id);
      RemoveSource(id);
      MaybeCloseDataChannel(id);
      return true;
    }

    /** The decoder drops the stream's pad, which calls back before this returns. */
    method ResetStream(id: Id) returns (ok: bool)
      requires Attached(View(), id)
      modifies this
      ensures var start := old(View()).(pads := old(View()).pads - {id});
        ok == OnPadRemoved(start, id).Done? && (ok ==> View() == OnPadRemoved(start, id).table)
    {
      pads := pads - {id};
      ok := SctpdecPadRemoved(id);
    }

    /** A close detaches each element once although the removal it causes comes back in the middle. */
    method OnDatachannelClose(id: Id) returns (ok: bool)
      requires id in dataChannels ==> dataChannels[id].hasSink && dataChannels[id].hasSource
      modifies this
      ensures ok == (id in old(dataChannels))
      ensures ok ==> View() == TornDown(old(View()), id, true)
    {
      if id !in dataChannels {
        return false;
      }
      CloseTearsDown(View(), id);
      SetReadyState(id, false);
      MarkClosing(id);
      RemoveSink(id);
      ok := ResetStream(id);
      RemoveSource(id);
      MaybeCloseDataChannel(id);
    }
  }
}
