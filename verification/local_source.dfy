/** The life of a shared local source: the first request builds its pipeline, every request adds a branch
    to the tee, a release unlinks the branch later, when its pad is idle, and a deferred task tears the
    pipeline down if nobody wants it any more. Branches are found again by their names. */
module LocalSource {
  import opened Collections

  const UINT_RANGE := 0x1_0000_0000

  // ----- Names -----

  function Digit(d: nat): char
    requires d < 10
  {
    '0' + d as char
  }

  predicate IsDigit(c: char)
  {
    '0' <= c <= '9'
  }

  function DigitValue(c: char): nat
    requires IsDigit(c)
  {
    (c - '0') as nat
  }

  /** "%u" for printing. */
  function Decimal(n: nat): (s: string)
    ensures s != []
  {
    if n < 10 then [Digit(n)] else Decimal(n / 10) + [Digit(n % 10)]
  }

  function LeadingDigits(s: string): (digits: string)
    ensures forall i :: 0 <= i < |digits| ==> IsDigit(digits[i])
  {
    if s == [] || !IsDigit(s[0]) then [] else [s[0]] + LeadingDigits(s[1..])
  }

  function ValueOf(digits: string): nat
    requires forall i :: 0 <= i < |digits| ==> IsDigit(digits[i])
  {
    if digits == [] then 0 else ValueOf(digits[..|digits| - 1]) * 10 + DigitValue(digits[|digits| - 1])
  }

  const SOURCE_BIN := "source-bin-"
  const SINK_BIN := "source-sink-bin-"

  function SourceName(id: nat): string { SOURCE_BIN + Decimal(id) }
  function SinkName(id: nat): string { SINK_BIN + Decimal(id) }

  /** sscanf(name, "source-bin-%u", ...) for values that fit. */
  function ScanSourceName(name: string): Option<nat>
  {
    if SOURCE_BIN <= name && LeadingDigits(name[|SOURCE_BIN|..]) != [] then
      Some(ValueOf(LeadingDigits(name[|SOURCE_BIN|..])))
    else None
  }

  lemma {:induction false} DecimalDigits(n: nat)
    ensures forall i :: 0 <= i < |Decimal(n)| ==> IsDigit(Decimal(n)[i])
    ensures ValueOf(Decimal(n)) == n
  {
    if n >= 10 {
      DecimalDigits(n / 10);
      assert Decimal(n)[..|Decimal(n)| - 1] == Decimal(n / 10);
    } else {
      assert Decimal(n)[..0] == [];
    }
  }

  lemma {:induction false} NoLeadingZero(n: nat)
    ensures Decimal(n)[0] == '0' ==> n == 0 && |Decimal(n)| == 1
  {
    if n >= 10 { NoLeadingZero(n / 10); }
  }

  lemma {:induction false} AllLeading(s: string)
    requires forall i :: 0 <= i < |s| ==> IsDigit(s[i])
    ensures LeadingDigits(s) == s
  {
    if s != [] { AllLeading(s[1..]); }
  }

  /** A release reads back the number that its request printed. */
  lemma NameRoundTrip(id: nat)
    ensures ScanSourceName(SourceName(id)) == Some(id)
  {
    assert SourceName(id)[|SOURCE_BIN|..] == Decimal(id);
    DecimalDigits(id);
    AllLeading(Decimal(id));
  }

  lemma NamesDiffer(id: nat, other: nat)
    ensures SinkName(id) == SinkName(other) <==> id == other
  {
    DecimalDigits(id);
    DecimalDigits(other);
    assert SinkName(id)[|SINK_BIN|..] == Decimal(id) && SinkName(other)[|SINK_BIN|..] == Decimal(other);
  }

  // ----- The source -----

  datatype Post = Started | Stopped

  /** `bin` maps the names of the branches attached to the tee to the requests that made them, and is None
      when there is no pipeline; `issued` counts the numbers taken from the global counter, by any source;
      `handles` are the names given out, by request; `unlinking` the branches with an idle probe; `tasks`
      the scheduled shutdowns. `unlinked` and `posts` observe. */
  datatype Source = Source(bin: Option<map<string, nat>>, issued: nat, handles: seq<string>, unlinking: set<string>,
    tasks: nat, unlinked: set<nat>, posts: seq<Post>)

  datatype Event =
    | Request
    | OtherRequest
    | Release(request: nat)
    | Unlink(branch: string)
    | Shutdown

  const START := Source(None, 0, [], {}, 0, {}, [])

  function NextId(s: Source): nat
  {
    s.issued % UINT_RANGE
  }

  /** owr_local_media_source_request_source and the default implementation after it. A bin refuses a
      second element of the same name. */
  function OnRequest(s: Source): Source
  {
    var started := if s.bin.Some? then s else s.(bin := Some(map[]), posts := s.posts + [Started]);
    var name := SinkName(NextId(s));
    var bin := started.bin.value;
    started.(bin := Some(if name in bin then bin else bin[name := |s.handles|]), issued := s.issued + 1,
      handles := s.handles + [SourceName(NextId(s))])
  }

  /** The branch that the release of a source bin finds. */
  function FindBranch(s: Source, name: string): Option<string>
  {
    if s.bin.None? || ScanSourceName(name).None? then None
    else
      var branch := SinkName(ScanSourceName(name).value);
      if branch in s.bin.value then Some(branch) else None
  }

  function OnRelease(s: Source, name: string): Source
  {
    match FindBranch(s, name)
    case None => s
    case Some(branch) => s.(unlinking := s.unlinking + {branch})
  }

  /** tee_idle_probe_cb, with tee_pad_removed_cb inside. */
  function OnUnlink(s: Source, branch: string): Source
    requires s.bin.Some? && branch in s.bin.value
  {
    var left := s.bin.value - {branch};
    s.(bin := Some(left), unlinking := s.unlinking - {branch}, unlinked := s.unlinked + {s.bin.value[branch]},
      tasks := if left == map[] then s.tasks + 1 else s.tasks)
  }

  function OnShutdown(s: Source): Source
    requires s.tasks > 0
  {
    var done := s.(tasks := s.tasks - 1);
    if s.bin.None? || s.bin.value != map[] then done else done.(bin := None, posts := s.posts + [Stopped])
  }

  /** A branch is not released again before it has been unlinked. */
  predicate Enabled(s: Source, e: Event)
  {
    match e
    case Request => true
    case OtherRequest => true
    case Release(r) => r < |s.handles| && (FindBranch(s, s.handles[r]).Some? ==> FindBranch(s, s.handles[r]).value !in s.unlinking)
    case Unlink(branch) => branch in s.unlinking && s.bin.Some? && branch in s.bin.value
    case Shutdown => s.tasks > 0
  }

  function Step(s: Source, e: Event): Source
    requires Enabled(s, e)
  {
    match e
    case Request => OnRequest(s)
    case OtherRequest => s.(issued := s.issued + 1)
    case Release(r) => OnRelease(s, s.handles[r])
    case Unlink(branch) => OnUnlink(s, branch)
    case Shutdown => OnShutdown(s)
  }

  /** A request gets a number that no attached branch of this source has. */
  predicate Fresh(s: Source, e: Event)
  {
    e.Request? && s.bin.Some? ==> SinkName(NextId(s)) !in s.bin.value
  }

  ghost predicate IsRun(states: seq<Source>, events: seq<Event>)
  {
    && |states| == |events| + 1 && states[0] == START
    && forall i :: 0 <= i < |events| ==> Enabled(states[i], events[i]) && states[i + 1] == Step(states[i], events[i])
  }

  ghost predicate NoClash(states: seq<Source>, events: seq<Event>)
    requires |events| < |states|
  {
    forall i :: 0 <= i < |events| ==> Fresh(states[i], events[i])
  }

  // ----- What every run keeps -----

  /** Started and stopped alternate, and the last says whether there is a pipeline. */
  predicate Alternate(posts: seq<Post>, running: bool)
  {
    && (forall i :: 0 <= i < |posts| ==> posts[i] == if i % 2 == 0 then Started else Stopped)
    && (running <==> |posts| % 2 == 1)
  }

  function Branches(s: Source): map<string, nat>
  {
    if s.bin.Some? then s.bin.value else map[]
  }

  /** The branches are those of the requests not yet unlinked, each under the name that releasing it finds. */
  ghost predicate Matched(s: Source)
  {
    && (forall branch :: branch in Branches(s) ==> BranchOk(s, branch))
    && (forall r: nat :: r < |s.handles| && r !in s.unlinked ==> RequestOk(s, r))
    && (forall r :: r in s.unlinked ==> r < |s.handles|)
    && (forall branch :: branch in s.unlinking ==> branch in Branches(s))
  }

  ghost predicate BranchOk(s: Source, branch: string)
    requires branch in Branches(s)
  {
    var r := Branches(s)[branch];
    r < |s.handles| && r !in s.unlinked && FindBranch(s, s.handles[r]) == Some(branch)
  }

  ghost predicate RequestOk(s: Source, r: nat)
    requires r < |s.handles|
  {
    FindBranch(s, s.handles[r]).Some? && Branches(s)[FindBranch(s, s.handles[r]).value] == r
  }

  lemma FindStays(s: Source, s': Source, name: string)
    requires FindBranch(s, name).Some? && FindBranch(s, name).value in Branches(s') && s'.bin.Some?
    ensures FindBranch(s', name) == FindBranch(s, name)
  {
  }

  lemma FoundIsThere(s: Source, name: string)
    requires FindBranch(s, name).Some?
    ensures FindBranch(s, name).value in Branches(s)
  {
  }

  lemma RequestKeepsMatched(s: Source)
    requires Matched(s) && Fresh(s, Request)
    ensures Matched(OnRequest(s))
  {
    var s', id := OnRequest(s), NextId(s);
    NameRoundTrip(id);
    assert s'.bin.value == Branches(s)[SinkName(id) := |s.handles|];
    assert FindBranch(s', s'.handles[|s.handles|]) == Some(SinkName(id));
    hide FindBranch, SourceName, SinkName, ScanSourceName;
    forall branch | branch in Branches(s') ensures BranchOk(s', branch) {
      if branch != SinkName(id) {
        assert BranchOk(s, branch);
        FindStays(s, s', s.handles[Branches(s)[branch]]);
      }
    }
    forall r: nat | r < |s'.handles| && r !in s'.unlinked ensures RequestOk(s', r) {
      if r < |s.handles| {
        assert RequestOk(s, r);
        FoundIsThere(s, s.handles[r]);
        FindStays(s, s', s.handles[r]);
      }
    }
  }

  lemma UnlinkKeepsMatched(s: Source, branch: string)
    requires Matched(s) && Enabled(s, Unlink(branch))
    ensures Matched(OnUnlink(s, branch))
  {
    var s' := OnUnlink(s, branch);
    hide FindBranch;
    assert BranchOk(s, branch);
    forall other | other in Branches(s') ensures BranchOk(s', other) {
      assert BranchOk(s, other);
      FindStays(s, s', s.handles[Branches(s)[other]]);
    }
    forall r: nat | r < |s'.handles| && r !in s'.unlinked ensures RequestOk(s', r) {
      assert RequestOk(s, r);
      FoundIsThere(s, s.handles[r]);
      FindStays(s, s', s.handles[r]);
    }
  }

  lemma StepKeepsMatched(s: Source, e: Event)
    requires Matched(s) && Enabled(s, e) && Fresh(s, e)
    ensures Matched(Step(s, e))
  {
    hide SourceName, SinkName, ScanSourceName;
    match e
    case Request => RequestKeepsMatched(s);
    case OtherRequest => SameMatched(s, Step(s, e));
    case Release(r) =>
      if FindBranch(s, s.handles[r]).Some? { FoundIsThere(s, s.handles[r]); }
      SameMatched(s, Step(s, e));
    case Unlink(branch) => UnlinkKeepsMatched(s, branch);
    case Shutdown => SameMatched(s, Step(s, e));
  }

  lemma SameMatched(s: Source, s': Source)
    requires Matched(s) && s'.handles == s.handles && s'.unlinked == s.unlinked && Branches(s') == Branches(s)
    requires forall branch :: branch in s'.unlinking ==> branch in Branches(s)
    ensures Matched(s')
  {
    hide SourceName, SinkName, ScanSourceName;
    forall branch | branch in Branches(s') ensures BranchOk(s', branch) { assert BranchOk(s, branch); }
    forall r: nat | r < |s'.handles| && r !in s'.unlinked ensures RequestOk(s', r) { assert RequestOk(s, r); }
  }

  lemma {:induction false} RunsKeepMatched(states: seq<Source>, events: seq<Event>, i: nat)
    requires IsRun(states, events) && NoClash(states, events) && i < |states|
    ensures Matched(states[i])
  {
    hide Matched, Enabled, Step, Fresh;
    if i == 0 {
      StartMatched();
    } else {
      RunsKeepMatched(states, events, i - 1);
      StepKeepsMatched(states[i - 1], events[i - 1]);
    }
  }

  lemma StartMatched()
    ensures Matched(START)
  {
  }

  /** In every interleaving of requests, releases, unlinks and deferred shutdowns without a clash: no pipeline
      is torn down under a branch - whoever has not been unlinked is attached, and nobody else. */
  lemma LifetimeHolds(states: seq<Source>, events: seq<Event>, i: nat, r: nat)
    requires IsRun(states, events) && NoClash(states, events) && i < |states|
    ensures r < |states[i].handles| && r !in states[i].unlinked <==> r in Branches(states[i]).Values
  {
    hide IsRun, NoClash;
    RunsKeepMatched(states, events, i);
    hide FindBranch;
  }

  /** What does not depend on the numbers. */
  ghost predicate Lively(s: Source)
  {
    && Alternate(s.posts, s.bin.Some?) && (s.bin == Some(map[]) ==> s.tasks > 0)
    && (forall branch :: branch in s.unlinking ==> branch in Branches(s))
  }

  lemma StepKeepsLively(s: Source, e: Event)
    requires Lively(s) && Enabled(s, e)
    ensures Lively(Step(s, e))
  {
    hide SourceName, SinkName, ScanSourceName;
    match e
    case Request => assert SinkName(NextId(s)) in OnRequest(s).bin.value;
    case Release(r) => if FindBranch(s, s.handles[r]).Some? { FoundIsThere(s, s.handles[r]); }
    case _ =>
  }

  /** In every interleaving, clash or not: started and stopped alternate, and with no shutdown or unlink
      pending there is a pipeline exactly if there is a branch. */
  lemma {:induction false} PipelineFollowsDemand(states: seq<Source>, events: seq<Event>, i: nat)
    requires IsRun(states, events) && i < |states|
    ensures Lively(states[i])
    ensures Alternate(states[i].posts, states[i].bin.Some?)
    ensures states[i].tasks == 0 && states[i].unlinking == {} ==> (states[i].bin.Some? <==> Branches(states[i]) != map[])
  {
    hide Enabled, Step, Alternate;
    if i == 0 {
      StartLively();
    } else {
      PipelineFollowsDemand(states, events, i - 1);
      StepKeepsLively(states[i - 1], events[i - 1]);
    }
  }

  lemma StartLively()
    ensures Lively(START)
  {
  }

  /** A request that has not been unlinked finds its own branch. */
  lemma ReleaseFindsItsOwn(states: seq<Source>, events: seq<Event>, i: nat, r: nat)
    requires IsRun(states, events) && NoClash(states, events) && i < |states| && r < |states[i].handles|
    ensures r !in states[i].unlinked ==>
      var branch := FindBranch(states[i], states[i].handles[r]);
      branch.Some? && branch.value in Branches(states[i]) && Branches(states[i])[branch.value] == r
    ensures FindBranch(states[i], states[i].handles[r]).None? ==> r in states[i].unlinked
  {
    hide IsRun, NoClash;
    RunsKeepMatched(states, events, i);
  }

  // ----- What is unlinked, from the events -----

  /** A release that finds the branch. */
  predicate Releases(s: Source, e: Event, branch: string)
  {
    e.Release? && e.request < |s.handles| && FindBranch(s, s.handles[e.request]) == Some(branch)
  }

  /** The pad of the branch of a request comes to rest. */
  predicate Unlinks(s: Source, e: Event, r: nat)
  {
    e.Unlink? && e.branch in Branches(s) && Branches(s)[e.branch] == r
  }

  lemma UnlinkingStep(s: Source, e: Event, branch: string)
    requires Enabled(s, e)
    ensures branch in Step(s, e).unlinking <==> Releases(s, e, branch) || (branch in s.unlinking && e != Unlink(branch))
    ensures forall r :: r in Step(s, e).unlinked <==> r in s.unlinked || Unlinks(s, e, r)
  {
    hide SourceName, SinkName, ScanSourceName, FindBranch;
  }

  /** A branch waits to be unlinked exactly if a release has found it and it has not been unlinked since. */
  lemma {:induction false} UnlinkingIff(states: seq<Source>, events: seq<Event>, i: nat, branch: string)
    requires IsRun(states, events) && i < |states|
    ensures branch in states[i].unlinking <==>
      exists t :: 0 <= t < i && Releases(states[t], events[t], branch) && forall u :: t < u < i ==> events[u] != Unlink(branch)
  {
    if i > 0 {
      hide Step, Enabled, Releases, Unlinks;
      UnlinkingIff(states, events, i - 1, branch);
      UnlinkingStep(states[i - 1], events[i - 1], branch);
    }
  }

  /** A request counts as unlinked exactly if the branch that was its own has been. */
  lemma {:induction false} UnlinkedIff(states: seq<Source>, events: seq<Event>, i: nat, r: nat)
    requires IsRun(states, events) && i < |states|
    ensures r in states[i].unlinked <==> exists t :: 0 <= t < i && Unlinks(states[t], events[t], r)
  {
    if i > 0 {
      hide Step, Enabled, Releases, Unlinks;
      UnlinkedIff(states, events, i - 1, r);
      UnlinkingStep(states[i - 1], events[i - 1], "");
    }
  }

  /** A branch is there exactly if it was or a request has just got its name, and it has not just been unlinked; the
      request itself is answered with a name of the same number; a shutdown is scheduled exactly when the last branch
      goes. */
  lemma BranchesStep(s: Source, e: Event, branch: string)
    requires Enabled(s, e)
    ensures branch in Branches(Step(s, e)) <==>
      (branch in Branches(s) || (e.Request? && branch == "source-sink-bin-" + Decimal(s.issued % 0x1_0000_0000)))
      && e != Unlink(branch)
    ensures Step(s, e).handles
         == s.handles + if e.Request? then ["source-bin-" + Decimal(s.issued % 0x1_0000_0000)] else []
    ensures Step(s, e).tasks == s.tasks
      + (if e.Unlink? && Branches(Step(s, e)) == map[] then 1 else 0) - (if e.Shutdown? then 1 else 0)
  {
    hide ScanSourceName, FindBranch, Decimal;
  }

  // ----- The global counter -----

  ghost predicate Numbered(s: Source)
  {
    forall branch :: branch in Branches(s) ==> exists k: nat :: k < s.issued && branch == SinkName(k % UINT_RANGE)
  }

  lemma {:induction false} RunsAreNumbered(states: seq<Source>, events: seq<Event>, i: nat)
    requires IsRun(states, events) && i < |states|
    ensures Numbered(states[i])
  {
    hide SinkName;
    if i > 0 {
      RunsAreNumbered(states, events, i - 1);
      StepIsNumbered(states[i - 1], events[i - 1]);
    }
  }

  lemma StepIsNumbered(s: Source, e: Event)
    requires Numbered(s) && Enabled(s, e)
    ensures Numbered(Step(s, e)) && s.issued <= Step(s, e).issued
    ensures e.Request? ==> Step(s, e).issued == s.issued + 1
  {
    hide SinkName;
    forall branch | branch in Branches(Step(s, e))
      ensures exists k: nat :: k < Step(s, e).issued && branch == SinkName(k % UINT_RANGE) {
      if branch in Branches(s) {
        var k: nat :| k < s.issued && branch == SinkName(k % UINT_RANGE);
        assert k < Step(s, e).issued;
      } else {
        assert branch == SinkName(s.issued % UINT_RANGE);
      }
    }
  }

  /** The numbers cannot clash before the 32-bit counter wraps. */
  lemma {:induction false} NoClashBeforeWrap(states: seq<Source>, events: seq<Event>)
    requires IsRun(states, events) && states[|events|].issued <= UINT_RANGE
    ensures NoClash(states, events)
  {
    hide SinkName;
    forall i | 0 <= i < |events| ensures Fresh(states[i], events[i]) {
      RunsAreNumbered(states, events, i);
      StepIsNumbered(states[i], events[i]);
      IssuedGrows(states, events, i + 1, |events|);
      if events[i].Request? && states[i].bin.Some? && SinkName(NextId(states[i])) in states[i].bin.value {
        var branch := SinkName(NextId(states[i]));
        assert branch in Branches(states[i]);
        var k: nat :| k < states[i].issued && branch == SinkName(k % UINT_RANGE);
        NamesDiffer(NextId(states[i]), k % UINT_RANGE);
        assert false;
      }
    }
  }

  lemma {:induction false} IssuedGrows(states: seq<Source>, events: seq<Event>, i: nat, j: nat)
    requires IsRun(states, events) && i <= j < |states|
    ensures states[i].issued <= states[j].issued
  {
    if i < j { IssuedGrows(states, events, i, j - 1); }
  }

  // ----- Releases, stale ones included -----

  /** Every name given out is that of a number taken. */
  ghost predicate HandlesNumbered(s: Source)
  {
    forall r: nat :: r < |s.handles| ==> IsNumbered(s.handles[r], s.issued)
  }

  ghost predicate IsNumbered(name: string, issued: nat)
  {
    exists k: nat :: k < issued && name == SourceName(k % UINT_RANGE)
  }

  lemma {:induction false} HandlesAreNumbered(states: seq<Source>, events: seq<Event>, i: nat)
    requires IsRun(states, events) && i < |states|
    ensures HandlesNumbered(states[i])
  {
    hide SourceName;
    if i > 0 {
      HandlesAreNumbered(states, events, i - 1);
      StepNumbersHandles(states[i - 1], events[i - 1]);
    }
  }

  lemma StepNumbersHandles(s: Source, e: Event)
    requires HandlesNumbered(s) && Enabled(s, e)
    ensures HandlesNumbered(Step(s, e))
  {
    hide SourceName, SinkName, ScanSourceName;
    var s' := Step(s, e);
    forall r: nat | r < |s'.handles| ensures IsNumbered(s'.handles[r], s'.issued) {
      if r < |s.handles| {
        assert IsNumbered(s.handles[r], s.issued);
        var k: nat :| k < s.issued && s.handles[r] == SourceName(k % UINT_RANGE);
        assert k < s'.issued;
      } else {
        assert s'.handles[r] == SourceName(s.issued % UINT_RANGE);
      }
    }
  }

  /** Two handles that find the same branch are the same name. */
  lemma SameBranchSameName(s: Source, r: nat, q: nat)
    requires HandlesNumbered(s) && r < |s.handles| && q < |s.handles|
    requires FindBranch(s, s.handles[r]).Some? && FindBranch(s, s.handles[r]) == FindBranch(s, s.handles[q])
    ensures s.handles[r] == s.handles[q]
  {
    assert IsNumbered(s.handles[r], s.issued) && IsNumbered(s.handles[q], s.issued);
    var k: nat :| k < s.issued && s.handles[r] == SourceName(k % UINT_RANGE);
    var l: nat :| l < s.issued && s.handles[q] == SourceName(l % UINT_RANGE);
    NameRoundTrip(k % UINT_RANGE);
    NameRoundTrip(l % UINT_RANGE);
    hide SourceName, SinkName, ScanSourceName;
    NamesDiffer(k % UINT_RANGE, l % UINT_RANGE);
  }

  /** In a run without a clash a release, stale or not, finds the branch of another request exactly if that
      request is attached and was given the same name. */
  lemma FindsAnotherIff(states: seq<Source>, events: seq<Event>, i: nat, r: nat, q: nat)
    requires IsRun(states, events) && NoClash(states, events) && i < |states| && r < |states[i].handles|
    ensures var s := states[i];
      (FindBranch(s, s.handles[r]).Some? && Branches(s)[FindBranch(s, s.handles[r]).value] == q)
      <==> q in Branches(s).Values && q < |s.handles| && s.handles[q] == s.handles[r]
  {
    RunsKeepMatched(states, events, i);
    HandlesAreNumbered(states, events, i);
    hide IsRun, NoClash, HandlesNumbered;
    var s := states[i];
    if FindBranch(s, s.handles[r]).Some? {
      FoundIsThere(s, s.handles[r]);
      var branch := FindBranch(s, s.handles[r]).value;
      assert BranchOk(s, branch);
      if Branches(s)[branch] == q { SameBranchSameName(s, r, q); }
    }
    if q in Branches(s).Values && q < |s.handles| && s.handles[q] == s.handles[r] {
      var branch :| branch in Branches(s) && Branches(s)[branch] == q;
      assert BranchOk(s, branch);
    }
  }

  /** Before the counter wraps no name is given out twice. */
  lemma {:induction false} HandlesDiffer(states: seq<Source>, events: seq<Event>, i: nat, r: nat, q: nat)
    requires IsRun(states, events) && i < |states| && states[i].issued <= UINT_RANGE && r < q < |states[i].handles|
    ensures states[i].handles[r] != states[i].handles[q]
  {
    if i > 0 {
      hide SourceName, Step, Enabled, NextId, HandlesNumbered;
      var s := states[i - 1];
      StepIssues(s, events[i - 1]);
      if q < |s.handles| {
        HandlesDiffer(states, events, i - 1, r, q);
      } else {
        HandlesAreNumbered(states, events, i - 1);
        FreshName(s, r);
      }
    }
  }

  lemma FreshName(s: Source, r: nat)
    requires HandlesNumbered(s) && r < |s.handles| && s.issued < UINT_RANGE
    ensures s.handles[r] != SourceName(NextId(s))
  {
    hide SourceName, ScanSourceName;
    assert IsNumbered(s.handles[r], s.issued);
    var k: nat :| k < s.issued && s.handles[r] == SourceName(k % UINT_RANGE);
    NameRoundTrip(k);
    NameRoundTrip(s.issued);
  }

  lemma StepIssues(s: Source, e: Event)
    requires Enabled(s, e)
    ensures s.issued <= Step(s, e).issued && (e.Request? ==> Step(s, e).issued == s.issued + 1)
    ensures Step(s, e).handles == if e.Request? then s.handles + [SourceName(NextId(s))] else s.handles
  {
    hide SourceName, SinkName, ScanSourceName;
  }

  /** Before the counter wraps every release, stale ones included, finds the branch of its own request while
      that is attached, and none afterwards. */
  lemma ReleaseFindsOwnOrNone(states: seq<Source>, events: seq<Event>, i: nat, r: nat)
    requires IsRun(states, events) && states[|events|].issued <= UINT_RANGE && i < |states| && r < |states[i].handles|
    ensures var s := states[i];
      match FindBranch(s, s.handles[r])
      case Some(branch) => branch in Branches(s) && Branches(s)[branch] == r && r !in s.unlinked
      case None => r in s.unlinked
  {
    NoClashBeforeWrap(states, events);
    IssuedGrows(states, events, i, |events|);
    RunsKeepMatched(states, events, i);
    var s := states[i];
    var found := FindBranch(s, s.handles[r]);
    if found.Some? {
      FoundIsThere(s, s.handles[r]);
      assert BranchOk(s, found.value);
      var q := Branches(s)[found.value];
      FindsAnotherIff(states, events, i, r, q);
      if r < q { HandlesDiffer(states, events, i, r, q); }
      if q < r { HandlesDiffer(states, events, i, q, r); }
    }
  }

  /** After the wrap it can: a run without a clash whose first request was unlinked and, released again, finds
      the branch of the second, which got the same number. */
  lemma StaleReleaseFindsAnother() returns (states: seq<Source>, events: seq<Event>)
    ensures IsRun(states, events) && NoClash(states, events)
    ensures var s := states[|events|];
      && |s.handles| == 2 && 0 in s.unlinked && Enabled(s, Release(0))
      && FindBranch(s, s.handles[0]).Some? && Branches(s)[FindBranch(s, s.handles[0]).value] == 1
  {
    NameRoundTrip(0);
    hide ScanSourceName;
    var name := SinkName(0);
    var first := OnRequest(START);
    assert first.bin == Some(map[name := 0]) && first.handles == [SourceName(0)] && first.issued == 1;
    var released := OnRelease(first, SourceName(0));
    assert released == first.(unlinking := {name});
    var gone := OnUnlink(released, name);
    assert gone.bin == Some(map[]) && gone.unlinking == {} && gone.unlinked == {0};
    var last := gone.(issued := UINT_RANGE);
    var end := OnRequest(last);
    assert NextId(last) == 0 && end.bin == Some(map[name := 1]) && end.handles == [SourceName(0), SourceName(0)];
    hide SinkName, SourceName, ScanSourceName, OnRequest, OnUnlink, OnRelease;
    states := [START, first, released] + seq(UINT_RANGE, (i: nat) => gone.(issued := i + 1)) + [end];
    events := [Request, Release(0), Unlink(name)] + seq(UINT_RANGE - 1, i => OtherRequest) + [Request];
    assert gone.(issued := 1) == gone by { assert gone.issued == 1; }
    forall i | 0 <= i < |events|
      ensures Enabled(states[i], events[i]) && states[i + 1] == Step(states[i], events[i]) && Fresh(states[i], events[i]) {
      if i == 0 { assert states[1] == first; }
      else if i == 1 { assert states[2] == released; }
      else if i == 2 { assert states[3] == gone; }
      else if i < UINT_RANGE + 2 { assert states[i] == gone.(issued := i - 2) && states[i + 1] == gone.(issued := i - 1); }
      else { assert states[i] == last && states[i + 1] == end; }
    }
    assert states[|events|] == end;
  }

  // ----- The exact condition -----

  /** Whoever requested and was not unlinked is attached, and nobody else. */
  ghost predicate AllAttached(s: Source)
  {
    forall r: nat :: r < |s.handles| && r !in s.unlinked <==> r in Branches(s).Values
  }

  /** Only requests already made can be attached or unlinked. */
  ghost predicate Bounded(s: Source)
  {
    (forall r :: r in s.unlinked ==> r < |s.handles|) && (forall r :: r in Branches(s).Values ==> r < |s.handles|)
  }

  lemma StepIsBounded(s: Source, e: Event)
    requires Bounded(s) && Enabled(s, e)
    ensures Bounded(Step(s, e))
  {
    hide SourceName, SinkName, ScanSourceName, FindBranch;
    var s' := Step(s, e);
    if e.Unlink? { assert s.bin.value[e.branch] in Branches(s).Values; }
    forall r | r in Branches(s').Values ensures r < |s'.handles| {
      var branch :| branch in Branches(s') && Branches(s')[branch] == r;
      if branch in Branches(s) { assert Branches(s)[branch] in Branches(s).Values; }
    }
  }

  lemma {:induction false} RunsAreBounded(states: seq<Source>, events: seq<Event>, i: nat)
    requires IsRun(states, events) && i < |states|
    ensures Bounded(states[i])
  {
    hide Bounded, Enabled, Step;
    if i == 0 {
      assert Bounded(START) by { StartBounded(); }
    } else {
      RunsAreBounded(states, events, i - 1);
      StepIsBounded(states[i - 1], events[i - 1]);
    }
  }

  lemma StartBounded()
    ensures Bounded(START)
  {
  }

  /** A request whose number an attached branch has gets no branch of its own: it is not attached, and
      releasing it finds the branch of another, earlier request. */
  lemma ClashFindsAnother(s: Source)
    requires Bounded(s) && !Fresh(s, Request)
    ensures !AllAttached(OnRequest(s)) && OnRequest(s).bin == s.bin
    ensures FindBranch(OnRequest(s), OnRequest(s).handles[|s.handles|]) == Some(SinkName(NextId(s)))
    ensures s.bin.value[SinkName(NextId(s))] < |s.handles|
  {
    NameRoundTrip(NextId(s));
    assert s.bin.value[SinkName(NextId(s))] in Branches(s).Values;
    assert |s.handles| !in s.unlinked && |s.handles| !in Branches(OnRequest(s)).Values;
  }

  /** Over a whole run, branches and requests match exactly if no request ever gets the number of a branch
      attached at that moment. */
  lemma AttachedIffNoClash(states: seq<Source>, events: seq<Event>)
    requires IsRun(states, events)
    ensures NoClash(states, events) <==> forall i: nat :: i < |states| ==> AllAttached(states[i])
  {
    hide Fresh, AllAttached;
    if NoClash(states, events) {
      forall i: nat | i < |states| ensures AllAttached(states[i]) { AllAttachedWithoutClash(states, events, i); }
    } else {
      var i: nat :| i < |events| && !Fresh(states[i], events[i]);
      RunsAreBounded(states, events, i);
      assert events[i] == Request by { OnlyRequestsClash(states[i], events[i]); }
      ClashFindsAnother(states[i]);
      assert !AllAttached(states[i + 1]);
    }
  }

  lemma OnlyRequestsClash(s: Source, e: Event)
    requires !Fresh(s, e)
    ensures e == Request
  {
  }

  lemma AllAttachedWithoutClash(states: seq<Source>, events: seq<Event>, i: nat)
    requires IsRun(states, events) && NoClash(states, events) && i < |states|
    ensures AllAttached(states[i])
  {
    hide IsRun, NoClash;
    forall r: nat ensures r < |states[i].handles| && r !in states[i].unlinked <==> r in Branches(states[i]).Values {
      LifetimeHolds(states, events, i, r);
    }
  }

  /** A clash does happen: a branch outlives 2^32 numbers taken by other sources. */
  lemma WrapClashes() returns (states: seq<Source>, events: seq<Event>)
    ensures IsRun(states, events) && !NoClash(states, events)
  {
    var first := OnRequest(START);
    var last := first.(issued := UINT_RANGE);
    states := [START] + seq(UINT_RANGE, (i: nat) => first.(issued := i + 1)) + [OnRequest(last)];
    events := [Request] + seq(UINT_RANGE - 1, i => OtherRequest) + [Request];
    assert states[UINT_RANGE] == last && SinkName(0) in last.bin.value && NextId(last) == 0;
    assert !Fresh(states[UINT_RANGE], events[UINT_RANGE]);
    hide OnRequest, SinkName;
    forall i | 0 <= i < |events| ensures Enabled(states[i], events[i]) && states[i + 1] == Step(states[i], events[i]) {
      if i == 0 {
        assert states[1] == first.(issued := 1) == first by { FirstIssued(); }
      } else if i < UINT_RANGE {
        assert states[i] == first.(issued := i) && states[i + 1] == first.(issued := i + 1);
      } else {
        assert states[i] == last;
      }
    }
  }

  lemma FirstIssued()
    ensures OnRequest(START).issued == 1
  {
  }

  // ----- The object -----

  class LocalMediaSource {
    var sourceBin: Option<map<string, nat>>
    var uniqueBinId: nat
    var unlinking: set<string>
    var tasks: nat
    ghost var issued: nat
    var handles: seq<string>
    ghost var unlinked: set<nat>
    ghost var posts: seq<Post>

    ghost predicate Valid()
      reads this
    {
      uniqueBinId == issued % UINT_RANGE
    }

    ghost function View(): Source
      reads this
    {
      Source(sourceBin, issued, handles, unlinking, tasks, unlinked, posts)
    }

    /** g_atomic_int_add on the global counter, also for other sources. */
    method NextUniqueId() returns (id: nat)
      requires Valid()
      modifies this`uniqueBinId, this`issued
      ensures Valid() && id == old(NextId(View())) && View() == Step(old(View()), OtherRequest)
    {
      id := uniqueBinId;
      uniqueBinId := (uniqueBinId + 1) % UINT_RANGE;
      issued := issued + 1;
    }

    method RequestSource() returns (name: string)
      requires Valid()
      modifies this
      ensures Valid() && View() == Step(old(View()), Request) && name == SourceName(old(NextId(View())))
    {
      if sourceBin.None? {
        sourceBin := Some(map[]);
        posts := posts + [Started];
      }
      var id := NextUniqueId();
      name := SourceName(id);
      if SinkName(id) !in sourceBin.value {
        sourceBin := Some(sourceBin.value[SinkName(id) := |handles|]);
      }
      handles := handles + [name];
    }

    method ReleaseSource(name: string)
      requires Valid()
      modifies this`unlinking
      ensures Valid() && View() == OnRelease(old(View()), name)
    {
      if sourceBin.None? {
        return;
      }
      var id := ScanSourceName(name);
      if id.None? || SinkName(id.value) !in sourceBin.value {
        return;
      }
      unlinking := unlinking + {SinkName(id.value)};
    }

    method TeeIdleProbe(branch: string)
      requires Valid() && Enabled(View(), Unlink(branch))
      modifies this
      ensures Valid() && View() == Step(old(View()), Unlink(branch))
    {
      unlinked := unlinked + {sourceBin.value[branch]};
      sourceBin := Some(sourceBin.value - {branch});
      unlinking := unlinking - {branch};
      TeePadRemoved();
    }

    method TeePadRemoved()
      requires sourceBin.Some?
      modifies this`tasks
      ensures tasks == old(tasks) + (if sourceBin == Some(map[]) then 1 else 0)
    {
      if sourceBin.value == map[] {
        tasks := tasks + 1;
      }
    }

    method ShutdownMediaSource()
      requires Valid() && tasks > 0
      modifies this
      ensures Valid() && View() == Step(old(View()), Shutdown)
    {
      tasks := tasks - 1;
      if sourceBin.None? || sourceBin.value != map[] {
        return;
      }
      sourceBin := None;
      posts := posts + [Stopped];
    }
  }
}
