/** Helper servers and candidate gathering: servers are looked up by name, sessions get streams, each
    stream gets the relays found so far, and no stream gathers while a lookup is outstanding. */
module Gathering {
  import opened Collections

  datatype Kind = Stun | TurnUdp | TurnTcp | TurnTls

  datatype Server = Server(kind: Kind, port: nat, username: Option<string>, password: Option<string>)

  /** A server whose name has been resolved. */
  datatype Info = Info(server: Server, address: string)

  /** What the ICE agent knows of a stream: its relays for RTP and, unless RTCP is multiplexed, for RTCP. */
  datatype Stream = Stream(rtcpMux: bool, rtp: seq<Info>, rtcp: seq<Info>)

  /** A start of gathering: the stream, how many servers were resolved, and the relays of the stream then. */
  datatype Gather = Gather(stream: nat, resolved: nat, known: Stream)

  datatype StunServer = StunServer(address: string, port: nat)

  /** `lookups` are the lookups under way. `sessions` maps stream ids to sessions; `gathers` observes. */
  datatype Agent = Agent(lookups: seq<Server>, deferred: nat, infos: seq<Info>, sessions: map<nat, nat>,
    streams: map<nat, Stream>, stun: Option<StunServer>, gathers: seq<Gather>)

  datatype Event =
    | AddHelper(server: Server)
    | Resolved(lookup: nat, address: Option<string>, order: seq<nat>)
    | AddSession(session: nat, rtcpMux: bool, stream: nat)

  const START := Agent([], 0, [], map[], map[], None, [])

  /** The relays among the servers, in order. */
  function Relays(infos: seq<Info>): seq<Info>
  {
    if infos == [] then []
    else
      var earlier, last := Relays(infos[..|infos| - 1]), infos[|infos| - 1];
      if last.server.kind.Stun? then earlier else earlier + [last]
  }

  /** The last STUN server, if any. */
  function LastStun(infos: seq<Info>): Option<StunServer>
  {
    if infos == [] then None
    else
      var last := infos[|infos| - 1];
      if last.server.kind.Stun? then Some(StunServer(last.address, last.server.port)) else LastStun(infos[..|infos| - 1])
  }

  function Informed(rtcpMux: bool, infos: seq<Info>): (stream: Stream)
    ensures stream.rtcpMux == rtcpMux
  {
    Stream(rtcpMux, Relays(infos), if rtcpMux then [] else Relays(infos))
  }

  ghost predicate Lists(order: seq<nat>, sessions: map<nat, nat>)
  {
    Distinct(order) && forall id :: id in order <==> id in sessions
  }

  // ----- The callbacks -----

  /** nice_agent_gather_candidates for the streams in order, unless lookups are outstanding. */
  function GatherAll(a: Agent, order: seq<nat>): Agent
    requires forall id :: id in order ==> id in a.streams
  {
    if a.deferred > 0 then a else a.(gathers := a.gathers + Starts(a, order))
  }

  function Starts(a: Agent, order: seq<nat>): (starts: seq<Gather>)
    requires forall id :: id in order ==> id in a.streams
    ensures |starts| == |order|
    ensures forall i :: 0 <= i < |order| ==> starts[i] == Gather(order[i], |a.infos|, a.streams[order[i]])
  {
    if order == [] then []
    else Starts(a, order[..|order| - 1]) + [Gather(order[|order| - 1], |a.infos|, a.streams[order[|order| - 1]])]
  }

  /** update_helper_servers for all streams. */
  function UpdateAll(a: Agent): Agent
  {
    a.(streams := map id | id in a.streams :: Informed(a.streams[id].rtcpMux, a.infos),
      stun := if a.streams != map[] && LastStun(a.infos).Some? then LastStun(a.infos) else a.stun)
  }

  /** The end of a lookup, before anything gathers. */
  function LookedUp(a: Agent, lookup: nat, address: Option<string>): Agent
    requires lookup < |a.lookups| && a.deferred > 0
  {
    var done := a.(lookups := a.lookups[..lookup] + a.lookups[lookup + 1..], deferred := a.deferred - 1);
    if address.None? then done else UpdateAll(done.(infos := done.infos + [Info(a.lookups[lookup], address.value)]))
  }

  /** add_helper_server_info; `order` is that of the session table. */
  function OnResolved(a: Agent, lookup: nat, address: Option<string>, order: seq<nat>): Agent
    requires lookup < |a.lookups| && a.deferred > 0 && forall id :: id in order ==> id in a.streams
  {
    GatherAll(LookedUp(a, lookup, address), order)
  }

  function Joined(a: Agent, session: nat, rtcpMux: bool, stream: nat): Agent
  {
    a.(sessions := a.sessions[stream := session], streams := a.streams[stream := Informed(rtcpMux, a.infos)],
      stun := if LastStun(a.infos).Some? then LastStun(a.infos) else a.stun)
  }

  /** The part of add_session about streams; stream 0 is the ICE agent's failure. */
  function OnAddSession(a: Agent, session: nat, rtcpMux: bool, stream: nat): Agent
  {
    if session in a.sessions.Values || stream == 0 then a
    else GatherAll(Joined(a, session, rtcpMux, stream), [stream])
  }

  /** The ICE agent gives out stream ids that are not in use. */
  ghost predicate Enabled(a: Agent, e: Event)
  {
    match e
    case AddHelper(_) => true
    case Resolved(lookup, _, order) =>
      lookup < |a.lookups| && a.deferred > 0 && a.sessions.Keys == a.streams.Keys && Lists(order, a.sessions)
    case AddSession(_, _, stream) => stream !in a.streams
  }

  ghost function Step(a: Agent, e: Event): Agent
    requires Enabled(a, e)
  {
    match e
    case AddHelper(server) => a.(deferred := a.deferred + 1, lookups := a.lookups + [server])
    case Resolved(lookup, address, order) => OnResolved(a, lookup, address, order)
    case AddSession(session, rtcpMux, stream) => OnAddSession(a, session, rtcpMux, stream)
  }

  ghost predicate IsRun(agents: seq<Agent>, events: seq<Event>)
  {
    && |agents| == |events| + 1 && agents[0] == START
    && forall i :: 0 <= i < |events| ==> Enabled(agents[i], events[i]) && agents[i + 1] == Step(agents[i], events[i])
  }

  // ----- What every run keeps -----

  predicate HasGathered(gathers: seq<Gather>, id: nat)
  {
    exists i :: 0 <= i < |gathers| && gathers[i].stream == id
  }

  /** A stream started gathering with exactly the relays known at that time. */
  predicate GatherOk(a: Agent, g: Gather)
  {
    && g.stream in a.streams && g.resolved <= |a.infos|
    && g.known == Informed(a.streams[g.stream].rtcpMux, a.infos[..g.resolved])
  }

  ghost predicate Invariant(a: Agent)
  {
    && a.deferred == |a.lookups| && a.sessions.Keys == a.streams.Keys
    && (forall id :: id in a.streams ==> a.streams[id] == Informed(a.streams[id].rtcpMux, a.infos))
    && (a.streams != map[] ==> a.stun == LastStun(a.infos)) && (a.streams == map[] ==> a.stun == None)
    && (a.deferred == 0 ==> forall id :: id in a.streams ==> HasGathered(a.gathers, id))
    && (forall i :: 0 <= i < |a.gathers| ==> GatherOk(a, a.gathers[i]))
  }

  lemma StunGrows(infos: seq<Info>, info: Info)
    ensures LastStun(infos + [info]).None? ==> LastStun(infos).None?
  {
    assert (infos + [info])[..|infos|] == infos;
  }

  lemma GatheringKeeps(a: Agent, order: seq<nat>)
    requires a.deferred == |a.lookups| && a.sessions.Keys == a.streams.Keys
    requires forall id :: id in a.streams ==> a.streams[id] == Informed(a.streams[id].rtcpMux, a.infos)
    requires (a.streams != map[] ==> a.stun == LastStun(a.infos)) && (a.streams == map[] ==> a.stun == None)
    requires forall id :: id in order ==> id in a.streams
    requires forall id :: id in a.streams && a.deferred == 0 ==> id in order || HasGathered(a.gathers, id)
    requires forall i :: 0 <= i < |a.gathers| ==> GatherOk(a, a.gathers[i])
    ensures Invariant(GatherAll(a, order))
  {
    hide Relays, LastStun, Informed;
    var a' := GatherAll(a, order);
    if a.deferred == 0 {
      assert a.infos[..|a.infos|] == a.infos;
      forall id | id in a'.streams ensures HasGathered(a'.gathers, id) {
        if HasGathered(a.gathers, id) {
          var i :| 0 <= i < |a.gathers| && a.gathers[i].stream == id;
          assert a'.gathers[i].stream == id;
        } else {
          var i :| 0 <= i < |order| && order[i] == id;
          assert a'.gathers[|a.gathers| + i].stream == id;
        }
      }
    }
  }

  lemma ResolvedKeepsInvariant(a: Agent, lookup: nat, address: Option<string>, order: seq<nat>)
    requires Invariant(a) && Enabled(a, Resolved(lookup, address, order))
    ensures Invariant(OnResolved(a, lookup, address, order))
  {
    hide Relays, LastStun, Informed, HasGathered;
    var done := a.(lookups := a.lookups[..lookup] + a.lookups[lookup + 1..], deferred := a.deferred - 1);
    if address.None? {
      assert forall g :: GatherOk(a, g) ==> GatherOk(done, g);
      GatheringKeeps(done, order);
    } else {
      var infos := a.infos + [Info(a.lookups[lookup], address.value)];
      var updated := UpdateAll(done.(infos := infos));
      StunGrows(a.infos, Info(a.lookups[lookup], address.value));
      forall g | GatherOk(a, g) ensures GatherOk(updated, g) { assert infos[..g.resolved] == a.infos[..g.resolved]; }
      assert updated.streams.Keys == a.streams.Keys;
      assert updated.streams == map[] <==> updated.streams.Keys == {};
      assert a.streams == map[] <==> a.streams.Keys == {};
      assert LastStun(infos).None? && a.streams != map[] ==> a.stun == None;
      GatheringKeeps(updated, order);
    }
  }

  lemma AddSessionKeepsInvariant(a: Agent, session: nat, rtcpMux: bool, stream: nat)
    requires Invariant(a) && Enabled(a, AddSession(session, rtcpMux, stream))
    ensures Invariant(OnAddSession(a, session, rtcpMux, stream))
  {
    hide Relays, LastStun, Informed, HasGathered;
    if session !in a.sessions.Values && stream != 0 {
      var informed := Joined(a, session, rtcpMux, stream);
      forall g | GatherOk(a, g) ensures GatherOk(informed, g) { }
      assert stream in informed.streams;
      GatheringKeeps(informed, [stream]);
    }
  }

  lemma StepKeepsInvariant(a: Agent, e: Event)
    requires Invariant(a) && Enabled(a, e)
    ensures Invariant(Step(a, e))
  {
    hide OnResolved, OnAddSession, Informed, LastStun;
    match e
    case AddHelper(server) => assert forall g :: GatherOk(a, g) ==> GatherOk(Step(a, e), g);
    case Resolved(lookup, address, order) => ResolvedKeepsInvariant(a, lookup, address, order);
    case AddSession(session, rtcpMux, stream) => AddSessionKeepsInvariant(a, session, rtcpMux, stream);
  }

  lemma {:induction false} RunsKeepInvariant(agents: seq<Agent>, events: seq<Event>, i: nat)
    requires IsRun(agents, events) && i < |agents|
    ensures Invariant(agents[i])
  {
    hide Invariant, Enabled, Step;
    if i == 0 {
      StartInvariant();
    } else {
      RunsKeepInvariant(agents, events, i - 1);
      StepKeepsInvariant(agents[i - 1], events[i - 1]);
    }
  }

  lemma StartInvariant()
    ensures Invariant(START)
  {
  }

  // ----- What it amounts to -----

  datatype Start = Start(stream: nat, resolved: nat)

  /** What the events ask for: the servers still being looked up, those found, with their addresses, the
      sessions and their multiplexing by stream, and when which stream ought to start gathering. */
  datatype Spec = Spec(pending: seq<Server>, found: seq<Info>, sessions: map<nat, nat>, muxed: map<nat, bool>, starts: seq<Start>)

  function StartsOf(order: seq<nat>, resolved: nat): seq<Start>
  {
    seq(|order|, i requires 0 <= i < |order| => Start(order[i], resolved))
  }

  function SpecStep(s: Spec, e: Event): Spec
  {
    match e
    case AddHelper(server) => s.(pending := s.pending + [server])
    case Resolved(lookup, address, order) =>
      if lookup >= |s.pending| then s
      else
        var found := if address.Some? then s.found + [Info(s.pending[lookup], address.value)] else s.found;
        s.(pending := s.pending[..lookup] + s.pending[lookup + 1..], found := found,
          starts := s.starts + if |s.pending| == 1 then StartsOf(order, |found|) else [])
    case AddSession(session, rtcpMux, stream) =>
      if session in s.sessions.Values || stream == 0 then s
      else
        s.(sessions := s.sessions[stream := session], muxed := s.muxed[stream := rtcpMux],
          starts := s.starts + if s.pending == [] then [Start(stream, |s.found|)] else [])
  }

  function After(events: seq<Event>): Spec
  {
    if events == [] then Spec([], [], map[], map[], []) else SpecStep(After(events[..|events| - 1]), events[|events| - 1])
  }

  ghost predicate Follows(a: Agent, s: Spec)
  {
    && a.lookups == s.pending && a.infos == s.found && a.sessions == s.sessions && a.streams.Keys == s.muxed.Keys
    && (forall id :: id in a.streams ==> a.streams[id].rtcpMux == s.muxed[id])
    && StartsAre(a.gathers) == s.starts
  }

  function StartsAre(gathers: seq<Gather>): (starts: seq<Start>)
  {
    seq(|gathers|, i requires 0 <= i < |gathers| => Start(gathers[i].stream, gathers[i].resolved))
  }

  lemma GatherAllStarts(a: Agent, order: seq<nat>)
    requires forall id :: id in order ==> id in a.streams
    ensures StartsAre(GatherAll(a, order).gathers)
         == StartsAre(a.gathers) + if a.deferred == 0 then StartsOf(order, |a.infos|) else []
  {
  }

  lemma StepFollows(a: Agent, s: Spec, e: Event)
    requires Invariant(a) && Enabled(a, e) && Follows(a, s)
    ensures Follows(Step(a, e), SpecStep(s, e))
  {
    match e
    case AddHelper(_) => hide Invariant, StartsAre;
    case Resolved(lookup, address, order) =>
      hide Invariant, Follows, SpecStep;
      ResolvedFollows(a, s, lookup, address, order);
    case AddSession(session, rtcpMux, stream) =>
      hide Relays, LastStun, HasGathered, GatherOk, StartsAre, StartsOf, GatherAll;
      if session !in a.sessions.Values && stream != 0 { JoinedFollows(a, s, session, rtcpMux, stream); }
  }

  lemma ResolvedFollows(a: Agent, s: Spec, lookup: nat, address: Option<string>, order: seq<nat>)
    requires Invariant(a) && Enabled(a, Resolved(lookup, address, order)) && Follows(a, s)
    ensures Follows(OnResolved(a, lookup, address, order), SpecStep(s, Resolved(lookup, address, order)))
  {
    hide Relays, LastStun, HasGathered, GatherOk, StartsAre, StartsOf, GatherAll;
    var updated := LookedUp(a, lookup, address);
    GatherAllStarts(updated, order);
    GatherAllKeeps(updated, order);
  }

  lemma JoinedFollows(a: Agent, s: Spec, session: nat, rtcpMux: bool, stream: nat)
    requires Invariant(a) && Enabled(a, AddSession(session, rtcpMux, stream)) && Follows(a, s)
    requires session !in a.sessions.Values && stream != 0
    ensures Follows(Step(a, AddSession(session, rtcpMux, stream)), SpecStep(s, AddSession(session, rtcpMux, stream)))
  {
    hide Relays, LastStun, HasGathered, GatherOk, StartsAre, StartsOf, GatherAll;
    var informed := Joined(a, session, rtcpMux, stream);
    GatherAllStarts(informed, [stream]);
    GatherAllKeeps(informed, [stream]);
    OneStart(stream, |a.infos|);
  }

  lemma OneStart(stream: nat, resolved: nat)
    ensures StartsOf([stream], resolved) == [Start(stream, resolved)]
  {
  }

  lemma GatherAllKeeps(a: Agent, order: seq<nat>)
    requires forall id :: id in order ==> id in a.streams
    ensures GatherAll(a, order) == a.(gathers := GatherAll(a, order).gathers)
  {
  }

  lemma {:induction false} RunsFollow(agents: seq<Agent>, events: seq<Event>, i: nat)
    requires IsRun(agents, events) && i < |agents|
    ensures Follows(agents[i], After(events[..i]))
  {
    hide Invariant, Enabled, Step, SpecStep, Follows;
    if i == 0 {
      assert Follows(START, After([])) by { StartFollows(); }
    } else {
      RunsFollow(agents, events, i - 1);
      RunsKeepInvariant(agents, events, i - 1);
      StepFollows(agents[i - 1], After(events[..i - 1]), events[i - 1]);
      assert events[..i][..i - 1] == events[..i - 1];
    }
  }

  lemma StartFollows()
    ensures Follows(START, After([]))
  {
  }

  /** Whatever the events and their interleaving: every server whose lookup succeeded is known, in order, with its
      address; every session has its stream; each stream has exactly the relays found, in order, for each of its
      components; the STUN server is the last one found; and the counter is the number of lookups under way. */
  lemma GatheringIsRight(agents: seq<Agent>, events: seq<Event>, i: nat)
    requires IsRun(agents, events) && i < |agents|
    ensures var a, s := agents[i], After(events[..i]);
      && a.lookups == s.pending && a.deferred == |s.pending| && a.infos == s.found && a.sessions == s.sessions
      && a.streams == (map id | id in s.muxed :: StreamWith(s.muxed[id], Relays(s.found)))
      && a.stun == if s.muxed == map[] then None else LastStun(s.found)
  {
    var a, s := agents[i], After(events[..i]);
    hide IsRun, Relays, LastStun, After, GatherOk, HasGathered, StartsAre;
    RunsKeepInvariant(agents, events, i);
    RunsFollow(agents, events, i);
    assert a.streams == map[] <==> a.streams.Keys == {};
    assert s.muxed == map[] <==> s.muxed.Keys == {};
  }

  /** A stream with its relays; without a component for RTCP there is nothing to give them to. */
  function StreamWith(rtcpMux: bool, relays: seq<Info>): Stream
  {
    Stream(rtcpMux, relays, if rtcpMux then [] else relays)
  }

  /** The k-th start to gather is of the stream and at the time that it ought to be: all streams when the last
      lookup ends, and a new one at once when none is under way. The stream then had the relays found by then. */
  lemma StartsAreRight(agents: seq<Agent>, events: seq<Event>, i: nat, k: nat)
    requires IsRun(agents, events) && i < |agents|
    ensures var a, s := agents[i], After(events[..i]);
      && |a.gathers| == |s.starts|
      && (k < |s.starts| ==>
            && s.starts[k].stream in s.muxed && s.starts[k].resolved <= |s.found|
            && a.gathers[k] == Gather(s.starts[k].stream, s.starts[k].resolved,
                 StreamWith(s.muxed[s.starts[k].stream], Relays(s.found[..s.starts[k].resolved]))))
  {
    var a, s := agents[i], After(events[..i]);
    hide IsRun, Relays, LastStun, After, HasGathered;
    RunsKeepInvariant(agents, events, i);
    RunsFollow(agents, events, i);
    if k < |s.starts| {
      assert s.starts[k] == Start(a.gathers[k].stream, a.gathers[k].resolved);
      assert GatherOk(a, a.gathers[k]);
    }
  }

  /** When no lookup is under way every session's stream has started to gather. */
  lemma AllHaveGathered(agents: seq<Agent>, events: seq<Event>, i: nat, id: nat)
    requires IsRun(agents, events) && i < |agents| && After(events[..i]).pending == [] && id in After(events[..i]).sessions
    ensures exists k :: 0 <= k < |agents[i].gathers| && agents[i].gathers[k].stream == id
  {
    hide IsRun, Relays, LastStun, After, GatherOk, StartsAre, Informed;
    RunsKeepInvariant(agents, events, i);
    RunsFollow(agents, events, i);
    assert HasGathered(agents[i].gathers, id);
  }

  lemma {:induction false} RelaysConcat(infos: seq<Info>, more: seq<Info>)
    ensures Relays(infos + more) == Relays(infos) + Relays(more)
  {
    if more == [] {
      assert infos + more == infos;
    } else {
      var front := more[..|more| - 1];
      RelaysConcat(infos, front);
      assert (infos + more)[..|infos + more| - 1] == infos + front;
    }
  }

  function RelayOf(info: Info): seq<Info>
  {
    var kind := info.server.kind;
    if kind == TurnUdp || kind == TurnTcp || kind == TurnTls then [info] else []
  }

  lemma OneRelay(info: Info)
    ensures Relays([info]) == RelayOf(info) && Relays([]) == []
  {
    assert [info][..0] == [];
  }

  /** The relays are the TURN servers of all three kinds, in order. */
  lemma RelaysAt(infos: seq<Info>, at: nat)
    requires at < |infos|
    ensures Relays([]) == []
    ensures Relays(infos) == Relays(infos[..at]) + RelayOf(infos[at]) + Relays(infos[at + 1..])
  {
    hide Relays, RelayOf;
    SplitAt(infos, at);
    RelaysOfSplit(infos[..at], infos[at], infos[at + 1..]);
  }

  lemma SplitAt(infos: seq<Info>, at: nat)
    requires at < |infos|
    ensures infos == infos[..at] + [infos[at]] + infos[at + 1..]
  {
  }

  lemma RelaysOfSplit(before: seq<Info>, info: Info, behind: seq<Info>)
    ensures Relays(before + [info] + behind) == Relays(before) + RelayOf(info) + Relays(behind)
    ensures Relays([]) == []
  {
    hide Relays, RelayOf;
    RelaysConcat(before + [info], behind);
    RelaysConcat(before, [info]);
    OneRelay(info);
  }

  /** The STUN server is the one found last, if any was found. */
  lemma {:induction false} LastStunIs(infos: seq<Info>)
    ensures LastStun(infos).Some? <==> exists i :: 0 <= i < |infos| && infos[i].server.kind == Stun
    ensures forall i ::
      (0 <= i < |infos| && infos[i].server.kind == Stun && forall j :: i < j < |infos| ==> infos[j].server.kind != Stun)
      ==> LastStun(infos) == Some(StunServer(infos[i].address, infos[i].server.port))
  {
    if infos != [] {
      var front := infos[..|infos| - 1];
      LastStunIs(front);
      assert forall i :: 0 <= i < |front| ==> infos[i] == front[i];
    }
  }

  // ----- The object -----

  class TransportAgent {
    var deferred: nat
    var lookups: seq<Server>
    var infos: seq<Info>
    var sessions: map<nat, nat>
    var streams: map<nat, Stream>
    var stun: Option<StunServer>
    ghost var gathers: seq<Gather>

    ghost function View(): Agent
      reads this
    {
      Agent(lookups, deferred, infos, sessions, streams, stun, gathers)
    }

    method AddHelperServer(server: Server)
      modifies this
      ensures View() == Step(old(View()), AddHelper(server))
    {
      deferred := deferred + 1;
      lookups := lookups + [server];
    }

    method ForgetRelays(id: nat)
      requires id in streams
      modifies this`streams
      ensures streams == old(streams)[id := Stream(old(streams)[id].rtcpMux, [], [])]
    {
      streams := streams[id := streams[id].(rtp := [], rtcp := [])];
    }

    /** nice_agent_set_relay_info for both components; the one for RTCP fails if there is no such component. */
    method SetRelayInfo(id: nat, info: Info)
      requires id in streams
      modifies this`streams
      ensures var stream := old(streams)[id];
        streams == old(streams)[id := stream.(rtp := stream.rtp + [info],
                                              rtcp := if stream.rtcpMux then stream.rtcp else stream.rtcp + [info])]
    {
      streams := streams[id := streams[id].(rtp := streams[id].rtp + [info])];
      if !streams[id].rtcpMux {
        streams := streams[id := streams[id].(rtcp := streams[id].rtcp + [info])];
      }
    }

    method UpdateHelperServers(id: nat)
      requires id in streams
      modifies this`streams, this`stun
      ensures streams == old(streams)[id := Informed(old(streams)[id].rtcpMux, infos)]
      ensures stun == if LastStun(infos).Some? then LastStun(infos) else old(stun)
    {
      ForgetRelays(id);
      var i := 0;
      while i < |infos|
        invariant 0 <= i <= |infos|
        invariant streams == old(streams)[id := Informed(old(streams)[id].rtcpMux, infos[..i])]
        invariant stun == if LastStun(infos[..i]).Some? then LastStun(infos[..i]) else old(stun)
      {
        var info := infos[i];
        assert infos[..i + 1][..i] == infos[..i];
        if info.server.kind.Stun? {
          stun := Some(StunServer(info.address, info.server.port));
        } else {
          SetRelayInfo(id, info);
        }
        i := i + 1;
      }
      assert infos[..i] == infos;
    }

    method GatherCandidates(id: nat)
      requires id in streams
      modifies this`gathers
      ensures gathers == old(gathers) + [Gather(id, |infos|, streams[id])]
    {
      gathers := gathers + [Gather(id, |infos|, streams[id])];
    }

    method AddSession(session: nat, rtcpMux: bool, stream: nat)
      requires Enabled(View(), Event.AddSession(session, rtcpMux, stream))
      modifies this
      ensures View() == Step(old(View()), Event.AddSession(session, rtcpMux, stream))
    {
      if session in sessions.Values || stream == 0 {
        return;
      }
      sessions := sessions[stream := session];
      streams := streams[stream := Stream(rtcpMux, [], [])];
      UpdateHelperServers(stream);
      if deferred == 0 {
        GatherCandidates(stream);
      }
    }

    /** One turn of the loop over the streams. */
    method ServeStream(update: bool, id: nat)
      requires id in streams
      modifies this`streams, this`stun, this`gathers
      ensures View() == ServeOne(old(View()), update, id) && streams.Keys == old(streams).Keys
    {
      hide Informed, LastStun;
      if update {
        UpdateHelperServers(id);
      }
      if deferred == 0 {
        GatherCandidates(id);
      }
    }

    /** In the loop, after the turns for the first `done` streams. */
    ghost predicate Serving(before: Agent, update: bool, order: seq<nat>, done: nat)
      reads this
    {
      && done <= |order| && (forall id :: id in order ==> id in before.streams)
      && View() == ServeAll(before, update, order[..done])
    }

    method ServeNext(ghost before: Agent, update: bool, ghost order: seq<nat>, ghost done: nat, id: nat)
      requires Serving(before, update, order, done) && done < |order| && order[done] == id
      modifies this`streams, this`stun, this`gathers
      ensures Serving(before, update, order, done + 1)
    {
      ServeAllNext(before, update, order, done);
      hide ServeOne, ServeAll;
      ServeStream(update, id);
    }

    method ServeStreams(update: bool, order: seq<nat>)
      requires forall id :: id in order ==> id in streams
      modifies this`streams, this`stun, this`gathers
      ensures View() == ServeAll(old(View()), update, order)
    {
      ghost var before := View();
      var done := 0;
      assert Serving(before, update, order, 0);
      while done < |order|
        invariant 0 <= done <= |order|
        invariant Serving(before, update, order, done)
      {
        hide Serving;
        ServeNext(before, update, order, done, order[done]);
        done := done + 1;
      }
      hide ServeAll;
      assert order[..done] == order;
    }

    method AddHelperServerInfo(lookup: nat, address: Option<string>, order: seq<nat>)
      requires Enabled(View(), Resolved(lookup, address, order))
      modifies this
      ensures View() == Step(old(View()), Resolved(lookup, address, order))
    {
      var server := lookups[lookup];
      lookups := lookups[..lookup] + lookups[lookup + 1..];
      deferred := deferred - 1;
      if address.Some? {
        infos := infos + [Info(server, address.value)];
      }
      ghost var before := View();
      ServeStreams(address.Some?, order);
      AllServed(before, address.Some?, order);
    }
  }

  /** The body of the loop over the streams, and the whole loop. */
  function ServeOne(a: Agent, update: bool, id: nat): (served: Agent)
    requires id in a.streams
    ensures served.streams.Keys == a.streams.Keys
  {
    var updated := if !update then a else
      a.(streams := a.streams[id := Informed(a.streams[id].rtcpMux, a.infos)],
        stun := if LastStun(a.infos).Some? then LastStun(a.infos) else a.stun);
    if a.deferred > 0 then updated
    else updated.(gathers := updated.gathers + [Gather(id, |a.infos|, updated.streams[id])])
  }

  function ServeAll(a: Agent, update: bool, order: seq<nat>): (served: Agent)
    requires forall id :: id in order ==> id in a.streams
    ensures served.streams.Keys == a.streams.Keys
  {
    if order == [] then a
    else ServeOne(ServeAll(a, update, order[..|order| - 1]), update, order[|order| - 1])
  }

  lemma ServeAllNext(a: Agent, update: bool, order: seq<nat>, done: nat)
    requires done < |order| && forall id :: id in order ==> id in a.streams
    ensures ServeAll(a, update, order[..done + 1]) == ServeOne(ServeAll(a, update, order[..done]), update, order[done])
  {
    assert order[..done + 1][..done] == order[..done];
  }

  function Updated(a: Agent, update: bool): (updated: Agent)
    ensures updated.streams.Keys == a.streams.Keys
  {
    if update then UpdateAll(a) else a
  }

  /** After the turns for some streams, `updated` being the agent with all streams updated. */
  ghost predicate ServedSo(a: Agent, updated: Agent, update: bool, order: seq<nat>, served: Agent)
    requires updated.streams.Keys == a.streams.Keys && forall id :: id in order ==> id in a.streams
  {
    && served == a.(streams := served.streams, stun := served.stun, gathers := served.gathers)
    && served.streams.Keys == a.streams.Keys
    && served.stun == (if update && order != [] && LastStun(a.infos).Some? then LastStun(a.infos) else a.stun)
    && (forall id :: id in a.streams ==> served.streams[id] == if id in order then updated.streams[id] else a.streams[id])
    && served.gathers == if a.deferred > 0 then a.gathers else a.gathers + Starts(updated, order)
  }

  lemma OneTurn(a: Agent, update: bool, served: Agent, id: nat)
    requires id in a.streams && served.streams.Keys == a.streams.Keys
    requires served == a.(streams := served.streams, stun := served.stun, gathers := served.gathers)
    requires served.streams[id] == a.streams[id] || served.streams[id] == Updated(a, update).streams[id]
    ensures var next := ServeOne(served, update, id);
      && next == a.(streams := next.streams, stun := next.stun, gathers := next.gathers)
      && next.stun == (if update && LastStun(a.infos).Some? then LastStun(a.infos) else served.stun)
      && next.streams == served.streams[id := Updated(a, update).streams[id]]
      && next.gathers == (if a.deferred > 0 then served.gathers
                          else served.gathers + [Gather(id, |a.infos|, Updated(a, update).streams[id])])
  {
    hide Relays, LastStun;
  }

  lemma NextStarts(a: Agent, update: bool, front: seq<nat>, id: nat)
    requires (forall id :: id in front ==> id in a.streams) && id in a.streams
    ensures var updated := Updated(a, update);
      Starts(updated, front + [id]) == Starts(updated, front) + [Gather(id, |a.infos|, updated.streams[id])]
  {
    assert (front + [id])[..|front|] == front;
  }

  lemma ServedNext(a: Agent, update: bool, front: seq<nat>, id: nat, served: Agent)
    requires (forall id :: id in front ==> id in a.streams) && id in a.streams
    requires ServedSo(a, Updated(a, update), update, front, served)
    ensures ServedSo(a, Updated(a, update), update, front + [id], ServeOne(served, update, id))
  {
    hide Relays, LastStun, ServeOne, Starts, Updated;
    NextStarts(a, update, front, id);
    OneTurn(a, update, served, id);
  }

  lemma {:induction false} ServeAllIs(a: Agent, update: bool, order: seq<nat>)
    requires forall id :: id in order ==> id in a.streams
    ensures ServedSo(a, Updated(a, update), update, order, ServeAll(a, update, order))
  {
    if order != [] {
      hide ServedSo, ServeOne, Updated;
      var front, id := order[..|order| - 1], order[|order| - 1];
      assert order == front + [id];
      ServeAllIs(a, update, front);
      ServedNext(a, update, front, id, ServeAll(a, update, front));
    }
  }

  /** The loop, whatever the order of the table, updates all streams and starts them all. */
  lemma AllServed(a: Agent, update: bool, order: seq<nat>)
    requires forall id :: id in order <==> id in a.streams
    ensures ServeAll(a, update, order) == GatherAll(Updated(a, update), order)
  {
    hide Informed, LastStun, ServeAll;
    ServeAllIs(a, update, order);
    var served, expected := ServeAll(a, update, order), GatherAll(Updated(a, update), order);
    assert served.streams == expected.streams;
    assert a.streams == map[] <==> order == [] by {
      if order != [] { assert order[0] in a.streams; }
      if a.streams != map[] { var id :| id in a.streams; assert id in order; }
    }
    assert served.gathers == expected.gathers;
  }
}
