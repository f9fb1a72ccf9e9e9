/** Windows and renderers: a registry of tags, each with a window handle, a renderer or both, and the
    renderers, which get a sink when their tag has a handle and a branch of their source when they have
    a sink and a source. */
module WindowRegistry {
  import opened Collections

  type Tag = string
  type Handle = h: nat | h > 0 witness 1

  // ----- One renderer -----

  datatype Sink = OwnWindow | Window(handle: Handle)

  /** `requests` counts the branches requested from sources, numbered from 0, and `released` the branches
      given back, in order; both only observe. */
  datatype Renderer = Renderer(tag: Option<Tag>, sink: Option<Sink>, source: Option<nat>, src: Option<nat>,
    requests: nat, released: seq<nat>, alive: bool)

  function MaybeStart(r: Renderer): Renderer
  {
    if r.sink.None? || r.source.None? then r else r.(src := Some(r.requests), requests := r.requests + 1)
  }

  /** _owr_media_source_release_source, which refuses a NULL branch, and the reset of the field. */
  function ReleaseBranch(r: Renderer): Renderer
  {
    if r.src.None? then r else r.(released := r.released + [r.src.value], src := None)
  }

  /** set_source */
  function OnSetSource(r: Renderer, source: Option<nat>): Renderer
  {
    if source == r.source then r
    else
      var free := if r.source.Some? then ReleaseBranch(r).(source := None) else r;
      if source.None? then free else MaybeStart(free.(source := source))
  }

  /** _owr_media_renderer_set_sink */
  function OnSetSink(r: Renderer, sink: Option<Sink>): Renderer
  {
    if sink.None? then ReleaseBranch(r.(sink := None)) else MaybeStart(r.(sink := sink))
  }

  /** _owr_video_renderer_notify_tag_changed */
  function OnTagChanged(r: Renderer, handle: Option<Handle>): Renderer
  {
    var bare := OnSetSink(r, None);
    if handle.Some? then OnSetSink(bare, Some(Window(handle.value))) else bare
  }

  function OnFinalize(r: Renderer): Renderer
  {
    var free := if r.source.Some? then ReleaseBranch(r.(sink := None)).(source := None) else r.(sink := None);
    free.(alive := false)
  }

  function Range(n: nat): seq<nat>
  {
    seq(n, i => i)
  }

  /** There is a branch exactly if there are a sink and a source, and all earlier ones were released, each
      once and in order. */
  predicate Balanced(r: Renderer)
  {
    && (r.src.Some? <==> r.sink.Some? && r.source.Some?)
    && (if r.src.Some? then r.requests == r.src.value + 1 && r.released == Range(r.src.value) else r.released == Range(r.requests))
  }

  lemma ReleaseBalances(r: Renderer)
    requires if r.src.Some? then r.requests == r.src.value + 1 && r.released == Range(r.src.value) else r.released == Range(r.requests)
    ensures ReleaseBranch(r).src.None? && ReleaseBranch(r).released == Range(r.requests)
  {
  }

  lemma KeepsBalance(r: Renderer, source: Option<nat>, handle: Option<Handle>)
    requires Balanced(r)
    ensures Balanced(OnSetSource(r, source)) && Balanced(OnTagChanged(r, handle)) && Balanced(OnFinalize(r))
    ensures OnFinalize(r).src.None?
  {
    ReleaseBalances(r);
    ReleaseBalances(r.(sink := None));
  }

  /** Setting a sink keeps the balance exactly if it is none or there is no branch yet: over a sink with a
      branch, a second branch is requested and the first is never released. */
  lemma SetSinkBalances(r: Renderer, sink: Option<Sink>)
    requires Balanced(r)
    ensures Balanced(OnSetSink(r, sink)) <==> sink.None? || r.src.None?
  {
    ReleaseBalances(r.(sink := None));
    if sink.Some? && r.src.Some? { assert |r.released| == r.src.value; }
  }

  // ----- The registry -----

  datatype Entry = Entry(handle: Option<Handle>, renderer: Option<nat>)

  datatype World = World(table: map<Tag, Entry>, renderers: seq<Renderer>)

  datatype Event =
    | Register(tag: Tag, handle: Handle)
    | Unregister(tag: Tag)
    | NewRenderer(wanted: Option<Tag>)
    | SetSource(renderer: nat, source: Option<nat>)
    | Finalize(renderer: nat)

  const START := World(map[], [])

  predicate Enabled(w: World, e: Event)
  {
    match e
    case SetSource(r, _) => r < |w.renderers| && w.renderers[r].alive
    case Finalize(r) => r < |w.renderers| && w.renderers[r].alive
    case _ => true
  }

  function Notified(w: World, entry: Entry): World
  {
    if entry.renderer.Some? && entry.renderer.value < |w.renderers| then
      var r := entry.renderer.value;
      w.(renderers := w.renderers[r := OnTagChanged(w.renderers[r], entry.handle)])
    else w
  }

  /** do_register */
  function OnRegister(w: World, tag: Tag, handle: Handle): World
  {
    if tag in w.table then
      if w.table[tag].handle.Some? then w
      else
        var entry := w.table[tag].(handle := Some(handle));
        Notified(w.(table := w.table[tag := entry]), entry)
    else w.(table := w.table[tag := Entry(Some(handle), None)])
  }

  /** do_unregister */
  function OnUnregister(w: World, tag: Tag): World
  {
    if tag !in w.table then w
    else if w.table[tag].renderer.Some? then
      var entry := w.table[tag].(handle := None);
      Notified(w.(table := w.table[tag := entry]), entry)
    else w.(table := w.table - {tag})
  }

  /** _owr_window_registry_register_renderer */
  function OnRegisterRenderer(w: World, tag: Tag, r: nat): World
  {
    if tag in w.table then
      if w.table[tag].renderer.Some? then w
      else
        var entry := w.table[tag].(renderer := Some(r));
        var entered := w.(table := w.table[tag := entry]);
        if entry.handle.Some? then Notified(entered, entry) else entered
    else w.(table := w.table[tag := Entry(None, Some(r))])
  }

  /** _owr_window_registry_unregister_renderer */
  function OnUnregisterRenderer(w: World, tag: Tag, r: nat): World
  {
    if tag !in w.table || w.table[tag].renderer != Some(r) then w
    else if w.table[tag].handle.None? then w.(table := w.table - {tag})
    else w.(table := w.table[tag := w.table[tag].(renderer := None)])
  }

  /** The constructor of a video renderer: with a tag it registers, without one it gets a sink at once. */
  function OnNewRenderer(w: World, tag: Option<Tag>): World
  {
    match tag
    case None => w.(renderers := w.renderers + [OnSetSink(Blank(tag), Some(OwnWindow))])
    case Some(t) => OnRegisterRenderer(w.(renderers := w.renderers + [Blank(tag)]), t, |w.renderers|)
  }

  function Blank(tag: Option<Tag>): Renderer
  {
    Renderer(tag, None, None, None, 0, [], true)
  }

  function Step(w: World, e: Event): World
    requires Enabled(w, e)
  {
    match e
    case Register(tag, handle) => OnRegister(w, tag, handle)
    case Unregister(tag) => OnUnregister(w, tag)
    case NewRenderer(tag) => OnNewRenderer(w, tag)
    case SetSource(r, source) => w.(renderers := w.renderers[r := OnSetSource(w.renderers[r], source)])
    case Finalize(r) =>
      var free := if w.renderers[r].tag.Some? then OnUnregisterRenderer(w, w.renderers[r].tag.value, r) else w;
      free.(renderers := free.renderers[r := OnFinalize(free.renderers[r])])
  }

  ghost predicate IsRun(worlds: seq<World>, events: seq<Event>)
  {
    && |worlds| == |events| + 1 && worlds[0] == START
    && forall i :: 0 <= i < |events| ==> Enabled(worlds[i], events[i]) && worlds[i + 1] == Step(worlds[i], events[i])
  }

  // ----- What it amounts to: two independent tables, and what each renderer was told last -----

  datatype Wish = Wish(tag: Option<Tag>, source: Option<nat>, alive: bool)

  datatype Spec = Spec(handles: map<Tag, Handle>, owners: map<Tag, nat>, wishes: seq<Wish>)

  /** The first registration of a handle, and the first renderer, keep a tag until they are gone. */
  function SpecStep(s: Spec, e: Event): Spec
  {
    match e
    case Register(tag, handle) => if tag in s.handles then s else s.(handles := s.handles[tag := handle])
    case Unregister(tag) => s.(handles := s.handles - {tag})
    case NewRenderer(tag) =>
      var more := s.(wishes := s.wishes + [Wish(tag, None, true)]);
      if tag.Some? && tag.value !in s.owners then more.(owners := s.owners[tag.value := |s.wishes|]) else more
    case SetSource(r, source) =>
      if r < |s.wishes| then s.(wishes := s.wishes[r := s.wishes[r].(source := source)]) else s
    case Finalize(r) =>
      var fewer := s.(owners := map tag | tag in s.owners && s.owners[tag] != r :: s.owners[tag]);
      if r < |s.wishes| then fewer.(wishes := s.wishes[r := Wish(s.wishes[r].tag, None, false)]) else fewer
  }

  function After(events: seq<Event>): Spec
  {
    if events == [] then Spec(map[], map[], []) else SpecStep(After(events[..|events| - 1]), events[|events| - 1])
  }

  function Lookup<K, V>(m: map<K, V>, k: K): Option<V>
  {
    if k in m then Some(m[k]) else None
  }

  ghost predicate EntryOk(w: World, s: Spec, tag: Tag)
  {
    && (tag in w.table <==> tag in s.handles || tag in s.owners)
    && (tag in w.table ==> w.table[tag] == Entry(Lookup(s.handles, tag), Lookup(s.owners, tag)))
    && (tag in s.owners ==> OwnerOk(w, s.owners[tag], tag))
  }

  predicate OwnerOk(w: World, r: nat, tag: Tag)
  {
    r < |w.renderers| && w.renderers[r].alive && w.renderers[r].tag == Some(tag)
  }

  /** The owner of a tag shows in the tag's window; who has a tag but does not own it has no sink. */
  ghost predicate RendererOk(w: World, s: Spec, r: nat)
  {
    r < |w.renderers| ==>
      var renderer := w.renderers[r];
      && Balanced(renderer) && r < |s.wishes| && Wish(renderer.tag, renderer.source, renderer.alive) == s.wishes[r]
      && renderer.sink == RightSink(s, r)
  }

  function RightSink(s: Spec, r: nat): Option<Sink>
    requires r < |s.wishes|
  {
    if !s.wishes[r].alive then None
    else
      match s.wishes[r].tag
      case None => Some(OwnWindow)
      case Some(t) => if t in s.owners && s.owners[t] == r && t in s.handles then Some(Window(s.handles[t])) else None
  }

  ghost predicate Coherent(w: World, s: Spec)
  {
    && |s.wishes| == |w.renderers| && (forall tag :: EntryOk(w, s, tag)) && (forall r :: RendererOk(w, s, r))
  }

  /** What a notification, a new source and the end do to a renderer. */
  lemma TagChangedFacts()
    ensures forall r: Renderer, handle :: var r' := OnTagChanged(r, handle);
      && r'.tag == r.tag && r'.alive == r.alive && r'.source == r.source
      && r'.sink == (if handle.Some? then Some(Window(handle.value)) else None) && (Balanced(r) ==> Balanced(r'))
  {
    forall r: Renderer, handle: Option<Handle> ensures Balanced(r) ==> Balanced(OnTagChanged(r, handle)) {
      if Balanced(r) { KeepsBalance(r, None, handle); }
    }
  }

  lemma SetSourceFacts()
    ensures forall r: Renderer, source :: var r' := OnSetSource(r, source);
      r'.tag == r.tag && r'.alive == r.alive && r'.sink == r.sink && r'.source == source && (Balanced(r) ==> Balanced(r'))
  {
    forall r: Renderer, source: Option<nat> ensures Balanced(r) ==> Balanced(OnSetSource(r, source)) {
      if Balanced(r) { KeepsBalance(r, source, None); }
    }
  }

  lemma FinalizeFacts()
    ensures forall r: Renderer :: var r' := OnFinalize(r);
      r'.tag == r.tag && !r'.alive && r'.sink == None && r'.source == None && (Balanced(r) ==> Balanced(r'))
  {
    forall r: Renderer ensures Balanced(r) ==> Balanced(OnFinalize(r)) {
      if Balanced(r) { KeepsBalance(r, None, None); }
    }
  }

  lemma BlankFacts()
    ensures forall tag :: Balanced(Blank(tag))
    ensures Balanced(OnSetSink(Blank(None), Some(OwnWindow)))
  {
    assert Range(0) == [];
  }

  lemma EntryStep(w: World, s: Spec, e: Event, tag: Tag)
    requires Coherent(w, s) && Enabled(w, e)
    ensures EntryOk(Step(w, e), SpecStep(s, e), tag)
  {
    TagChangedFacts();
    SetSourceFacts();
    hide RendererOk, OnTagChanged, OnSetSource, OnSetSink, OnFinalize, Balanced;
    assert EntryOk(w, s, tag);
    match e
    case Register(t, _) => assert EntryOk(w, s, t);
    case Unregister(t) => assert EntryOk(w, s, t);
    case NewRenderer(t) => if t.Some? { assert EntryOk(w, s, t.value); }
    case SetSource(_, _) =>
    case Finalize(r) => if w.renderers[r].tag.Some? { assert EntryOk(w, s, w.renderers[r].tag.value); }
  }

  lemma RendererComesOrGoes(w: World, s: Spec, e: Event, r: nat)
    requires Coherent(w, s) && Enabled(w, e) && (e.NewRenderer? || e.Finalize?)
    ensures RendererOk(Step(w, e), SpecStep(s, e), r)
  {
    TagChangedFacts();
    FinalizeFacts();
    BlankFacts();
    hide OnTagChanged, OnFinalize, Balanced;
    assert RendererOk(w, s, r);
    if e.NewRenderer? {
      if e.wanted.Some? { assert EntryOk(w, s, e.wanted.value); }
    } else if w.renderers[e.renderer].tag.Some? {
      assert EntryOk(w, s, w.renderers[e.renderer].tag.value);
    }
  }

  lemma RendererStep(w: World, s: Spec, e: Event, r: nat)
    requires Coherent(w, s) && Enabled(w, e)
    ensures RendererOk(Step(w, e), SpecStep(s, e), r)
  {
    if e.NewRenderer? || e.Finalize? {
      RendererComesOrGoes(w, s, e, r);
    } else {
      TagChangedFacts();
      SetSourceFacts();
      hide OnTagChanged, OnSetSource, Balanced, OnNewRenderer, OnFinalize;
      assert RendererOk(w, s, r);
      if !e.SetSource? { assert EntryOk(w, s, e.tag); }
    }
  }

  lemma StepKeepsCoherent(w: World, s: Spec, e: Event)
    requires Coherent(w, s) && Enabled(w, e)
    ensures Coherent(Step(w, e), SpecStep(s, e))
  {
    hide EntryOk, RendererOk, OnTagChanged, OnSetSource, OnSetSink, OnFinalize;
    forall tag ensures EntryOk(Step(w, e), SpecStep(s, e), tag) { hide Step, SpecStep; EntryStep(w, s, e, tag); }
    forall r ensures RendererOk(Step(w, e), SpecStep(s, e), r) { hide Step, SpecStep; RendererStep(w, s, e, r); }
  }

  lemma {:induction false} RunsStayCoherent(worlds: seq<World>, events: seq<Event>, i: nat)
    requires IsRun(worlds, events) && i < |worlds|
    ensures Coherent(worlds[i], After(events[..i]))
  {
    hide Coherent, Enabled, Step, SpecStep;
    if i == 0 {
      StartCoherent();
    } else {
      RunsStayCoherent(worlds, events, i - 1);
      StepKeepsCoherent(worlds[i - 1], After(events[..i - 1]), events[i - 1]);
      assert events[..i][..i - 1] == events[..i - 1];
    }
  }

  lemma StartCoherent()
    ensures Coherent(START, After([]))
  {
  }

  /** After every sequence of operations: the table holds a tag exactly if it has a handle or a renderer, and
      then just these, each what an independent table of first come handles and of first come renderers says. */
  lemma RegistryRefinesTables(worlds: seq<World>, events: seq<Event>, i: nat, tag: Tag)
    requires IsRun(worlds, events) && i < |worlds|
    ensures var s := After(events[..i]);
      && (tag in worlds[i].table <==> tag in s.handles || tag in s.owners)
      && (tag in worlds[i].table ==> worlds[i].table[tag] == Entry(Lookup(s.handles, tag), Lookup(s.owners, tag)))
  {
    var s := After(events[..i]);
    hide IsRun, After, RendererOk;
    RunsStayCoherent(worlds, events, i);
    assert EntryOk(worlds[i], s, tag);
  }

  /** After every sequence of operations: a renderer has the source it was given last; it shows in the window of
      its tag exactly if it owns the tag and the tag has a handle, or in its own window if it has no tag; it has a
      branch exactly if it has a sink and a source, and every branch before that has been released, once. */
  lemma RenderersAreRight(worlds: seq<World>, events: seq<Event>, i: nat, r: nat)
    requires IsRun(worlds, events) && i < |worlds|
    ensures |After(events[..i]).wishes| == |worlds[i].renderers|
    ensures r < |worlds[i].renderers| ==>
      var s, renderer := After(events[..i]), worlds[i].renderers[r];
      && Balanced(renderer)
      && renderer.tag == s.wishes[r].tag && renderer.alive == s.wishes[r].alive
      && renderer.source == s.wishes[r].source && renderer.sink == RightSink(s, r)
      && (renderer.src.Some? <==> s.wishes[r].source.Some? && RightSink(s, r).Some?)
  {
    var s := After(events[..i]);
    hide IsRun, After, EntryOk, RightSink;
    RunsStayCoherent(worlds, events, i);
    assert RendererOk(worlds[i], s, r);
  }

  predicate SameConnection(r: Renderer, other: Renderer)
  {
    r.sink == other.sink && r.source == other.source
  }

  lemma ConnectionFacts(r: Renderer, source: Option<nat>, handle: Option<Handle>)
    requires Balanced(r)
    ensures var r' := OnSetSource(r, source); NewBranchFor(r, r')
    ensures r.sink.None? || handle.None? ==> NewBranchFor(r, OnTagChanged(r, handle))
    ensures NewBranchFor(r, OnFinalize(r))
  {
  }

  /** A branch is requested exactly for a change to a sink and a source, and without a change nothing happens. */
  predicate NewBranchFor(before: Renderer, after: Renderer)
  {
    && after.requests == before.requests + (if SameConnection(before, after) || after.sink.None? || after.source.None? then 0 else 1)
    && (SameConnection(before, after) ==> after.(alive := before.alive) == before)
  }

  lemma BranchPerChangeStep(w: World, s: Spec, e: Event, r: nat)
    requires Coherent(w, s) && Enabled(w, e) && r < |w.renderers|
    ensures r < |Step(w, e).renderers| && NewBranchFor(w.renderers[r], Step(w, e).renderers[r])
  {
    assert RendererOk(w, s, r);
    var before := w.renderers[r];
    NothingNew(before);
    match e
    case Register(tag, handle) =>
      hide OnTagChanged, NewBranchFor;
      assert EntryOk(w, s, tag);
      if tag in w.table && w.table[tag].renderer == Some(r) && w.table[tag].handle.None? {
        ConnectionFacts(before, None, Some(handle));
      }
    case Unregister(_) =>
      hide OnTagChanged, NewBranchFor;
      ConnectionFacts(before, None, None);
    case NewRenderer(_) =>
      hide OnTagChanged, NewBranchFor;
    case SetSource(_, source) =>
      hide OnSetSource, NewBranchFor;
      ConnectionFacts(before, source, None);
    case Finalize(_) =>
      hide OnFinalize, NewBranchFor;
      ConnectionFacts(before, None, None);
  }

  lemma NothingNew(r: Renderer)
    ensures NewBranchFor(r, r)
  {
  }

  /** In every run a renderer requests one branch for each change of its sink or source that leaves it with
      both, and none otherwise. */
  lemma BranchPerChange(worlds: seq<World>, events: seq<Event>, i: nat, r: nat)
    requires IsRun(worlds, events) && i < |events|
    ensures |worlds[i].renderers| <= |worlds[i + 1].renderers|
    ensures r < |worlds[i].renderers| ==> NewBranchFor(worlds[i].renderers[r], worlds[i + 1].renderers[r])
    ensures |worlds[i].renderers| <= r < |worlds[i + 1].renderers| ==> worlds[i + 1].renderers[r].requests == 0
  {
    hide Coherent, NewBranchFor;
    RunsStayCoherent(worlds, events, i);
    if r < |worlds[i].renderers| { BranchPerChangeStep(worlds[i], After(events[..i]), events[i], r); }
  }

  /** A renderer with a tag that the table does not give it. */
  predicate Outsider(w: World, r: nat)
  {
    r < |w.renderers| && w.renderers[r].tag.Some?
    && (w.renderers[r].tag.value in w.table ==> w.table[w.renderers[r].tag.value].renderer != Some(r))
  }

  /** A second renderer for a tag is refused: neither its making nor anything it does afterwards, its end
      included, touches the table or another renderer. */
  lemma RejectedDisturbsNothing(w: World, e: Event, r: nat)
    requires Enabled(w, e)
    requires match e
      case NewRenderer(tag) => r == |w.renderers| && tag.Some? && tag.value in w.table && w.table[tag.value].renderer.Some?
        && w.table[tag.value].renderer.value != r
      case SetSource(q, _) => q == r && Outsider(w, r)
      case Finalize(q) => q == r && Outsider(w, r)
      case _ => false
    ensures Step(w, e).table == w.table
    ensures forall q: nat :: q < |w.renderers| && q != r ==> Step(w, e).renderers[q] == w.renderers[q]
    ensures Outsider(Step(w, e), r) && (e.NewRenderer? ==> Step(w, e).renderers[r] == Blank(e.wanted))
  {
  }

  /** Whatever else happens, the end of the first renderer included, an outsider stays one. */
  lemma OutsiderStays(w: World, e: Event, r: nat)
    requires Enabled(w, e) && Outsider(w, r)
    ensures Outsider(Step(w, e), r)
  {
    TagChangedFacts();
    SetSourceFacts();
    FinalizeFacts();
    hide OnTagChanged, OnSetSource, OnFinalize, OnSetSink, Balanced;
  }

  // ----- The objects -----

  class OwrVideoRenderer {
    const number: nat
    const tag: Option<Tag>
    var sink: Option<Sink>
    var source: Option<nat>
    var src: Option<nat>
    var alive: bool
    var nextBranch: nat
    ghost var released: seq<nat>

    ghost function View(): Renderer
      reads this
    {
      Renderer(tag, sink, source, src, nextBranch, released, alive)
    }

    constructor (number: nat, tag: Option<Tag>)
      ensures this.number == number && View() == if tag.None? then OnSetSink(Blank(tag), Some(OwnWindow)) else Blank(tag)
    {
      this.number, this.tag := number, tag;
      sink, source, src, alive, nextBranch, released := None, None, None, true, 0, [];
      new;
      if tag.None? {
        SetSink(Some(OwnWindow));
      }
    }

    method MaybeStartRenderer()
      modifies this
      ensures View() == MaybeStart(old(View()))
    {
      if sink.None? || source.None? {
        return;
      }
      src := Some(nextBranch);
      nextBranch := nextBranch + 1;
    }

    method ReleaseSource()
      modifies this
      ensures View() == ReleaseBranch(old(View()))
    {
      if src.Some? {
        released := released + [src.value];
      }
      src := None;
    }

    method SetSource(newSource: Option<nat>)
      modifies this
      ensures View() == OnSetSource(old(View()), newSource)
    {
      if newSource == source {
        return;
      }
      if source.Some? {
        ReleaseSource();
        source := None;
      }
      if newSource.None? {
        return;
      }
      source := newSource;
      MaybeStartRenderer();
    }

    method SetSink(newSink: Option<Sink>)
      modifies this
      ensures View() == OnSetSink(old(View()), newSink)
    {
      sink := None;
      if newSink.None? {
        ReleaseSource();
        return;
      }
      sink := newSink;
      MaybeStartRenderer();
    }

    /** owr_media_renderer_finalize */
    method Finalize()
      modifies this
      ensures View() == OnFinalize(old(View()))
    {
      sink := None;
      if source.Some? {
        ReleaseSource();
        source := None;
      }
      alive := false;
    }

    method NotifyTagChanged(handle: Option<Handle>)
      modifies this
      ensures View() == OnTagChanged(old(View()), handle)
    {
      SetSink(None);
      if handle.Some? {
        SetSink(Some(Window(handle.value)));
      }
    }
  }

  /** The registry, with the table of records that it updates in place. */
  class OwrWindowRegistry {
    var table: map<Tag, Entry>
    var renderers: seq<OwrVideoRenderer>

    ghost predicate Valid()
      reads this, renderers
    {
      forall i, j :: 0 <= i < j < |renderers| ==> renderers[i] != renderers[j]
    }

    ghost function View(): World
      reads this, renderers
    {
      World(table, Views(renderers))
    }

    method Notify(entry: Entry)
      requires Valid()
      modifies renderers
      ensures Valid() && View() == Notified(old(View()), entry)
    {
      if entry.renderer.Some? && entry.renderer.value < |renderers| {
        renderers[entry.renderer.value].NotifyTagChanged(entry.handle);
      }
      assert View().renderers == Notified(old(View()), entry).renderers;
    }

    method DoRegister(tag: Tag, handle: Handle)
      requires Valid()
      modifies this`table, renderers
      ensures Valid() && View() == Step(old(View()), Register(tag, handle))
    {
      if tag in table {
        if table[tag].handle.Some? {
          return;
        }
        var entry := table[tag].(handle := Some(handle));
        table := table[tag := entry];
        Notify(entry);
      } else {
        table := table[tag := Entry(Some(handle), None)];
      }
    }

    method DoUnregister(tag: Tag)
      requires Valid()
      modifies this`table, renderers
      ensures Valid() && View() == Step(old(View()), Unregister(tag))
    {
      if tag !in table {
        return;
      }
      if table[tag].renderer.Some? {
        var entry := table[tag].(handle := None);
        table := table[tag := entry];
        Notify(entry);
      } else {
        table := table - {tag};
      }
    }

    method RegisterRenderer(tag: Tag, r: nat)
      requires Valid()
      modifies this`table, renderers
      ensures Valid() && View() == OnRegisterRenderer(old(View()), tag, r)
    {
      hide OnTagChanged;
      if tag in table {
        if table[tag].renderer.Some? {
          return;
        }
        var entry := table[tag].(renderer := Some(r));
        table := table[tag := entry];
        if entry.handle.Some? {
          Notify(entry);
        }
      } else {
        table := table[tag := Entry(None, Some(r))];
      }
    }

    method UnregisterRenderer(tag: Tag, r: nat)
      requires Valid()
      modifies this`table
      ensures Valid() && View() == OnUnregisterRenderer(old(View()), tag, r)
    {
      if tag !in table || table[tag].renderer != Some(r) {
        return;
      }
      if table[tag].handle.None? {
        table := table - {tag};
      } else {
        table := table[tag := table[tag].(renderer := None)];
      }
    }
  }

  /** owr_video_renderer_new */
  method NewVideoRenderer(registry: OwrWindowRegistry, tag: Option<Tag>) returns (renderer: OwrVideoRenderer)
    requires registry.Valid()
    modifies registry, registry.renderers
    ensures fresh(renderer) && registry.Valid() && registry.View() == Step(old(registry.View()), NewRenderer(tag))
  {
    hide OnTagChanged;
    var r := |registry.renderers|;
    ghost var views := registry.View().renderers;
    renderer := new OwrVideoRenderer(r, tag);
    registry.renderers := registry.renderers + [renderer];
    assert Views(registry.renderers) == views + [renderer.View()];
    if tag.Some? {
      registry.RegisterRenderer(tag.value, r);
    }
  }

  /** owr_video_renderer_finalize, and the finalizer of a media renderer after it. */
  method FinalizeVideoRenderer(registry: OwrWindowRegistry, renderer: OwrVideoRenderer)
    requires registry.Valid() && renderer.number < |registry.renderers| && registry.renderers[renderer.number] == renderer
    requires renderer.alive
    modifies registry, renderer
    ensures registry.Valid() && registry.View() == Step(old(registry.View()), Finalize(renderer.number))
  {
    if renderer.tag.Some? {
      registry.UnregisterRenderer(renderer.tag.value, renderer.number);
    }
    renderer.Finalize();
    assert registry.View().renderers == Step(old(registry.View()), Finalize(renderer.number)).renderers;
  }

  ghost function Views(renderers: seq<OwrVideoRenderer>): (views: seq<Renderer>)
    reads renderers
    ensures |views| == |renderers| && forall i :: 0 <= i < |views| ==> views[i] == renderers[i].View()
  {
    if renderers == [] then [] else Views(renderers[..|renderers| - 1]) + [renderers[|renderers| - 1].View()]
  }
}
