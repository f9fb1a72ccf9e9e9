/** Closures that merge lists: a reference-counted barrier that calls its target, once, when the last
    reference goes. A target may be another merger. Every thread or scheduled callback is an actor, a
    sequence of operations still to do, and the operations of all actors interleave freely. */
module ListMerger {
  import opened Collections

  type Item = nat

  /** `from` observes the merger whose end made the call. */
  datatype Op =
    | Ref(closure: nat)
    | Unref(closure: nat)
    | Invoke(closure: nat, items: seq<Item>, from: Option<nat>)
    | Drop(items: seq<Item>)
    | Spawn(program: seq<Op>)

  /** The closure numbered 0 is the final callback; every other one is a merger. */
  datatype Closure = Closure(refCount: int, target: nat, list: seq<Item>)

  datatype Call = Call(closure: nat, items: seq<Item>, from: Option<nat>)

  /** `refs` counts the references to items, `calls` observes all invocations in order, `misused` is set
      when a closure is used after its end. */
  datatype World = World(closures: seq<Closure>, actors: seq<seq<Op>>, refs: multiset<Item>, calls: seq<Call>, misused: bool)

  // ----- The steps -----

  predicate Usable(w: World, c: nat)
  {
    c < |w.closures| && w.closures[c].refCount > 0
  }

  function Go(w: World, k: nat, program: seq<Op>): World
    requires k < |w.actors|
  {
    w.(actors := w.actors[k := program])
  }

  /** _owr_utils_call_closure_with_list without its unref: the final callback or callback_merger. */
  function OnInvoke(w: World, c: nat, items: seq<Item>, from: Option<nat>): World
    requires Usable(w, c)
  {
    var called := w.(calls := w.calls + [Call(c, items, from)]);
    if c == 0 then called
    else
      var merger := w.closures[c];
      called.(closures := w.closures[c := merger.(list := merger.list + items)], refs := w.refs + multiset(items))
  }

  /** callback_merger_on_destroy_data: what is to be done first when a merger loses its last reference. */
  function EndThen(merger: Closure, c: nat, rest: seq<Op>): seq<Op>
  {
    if c == 0 then rest
    else [Invoke(merger.target, merger.list, Some(c))] + ([Unref(merger.target)] + ([Drop(merger.list)] + rest))
  }

  function SetCount(w: World, c: nat, refCount: int): World
    requires c < |w.closures|
  {
    w.(closures := w.closures[c := w.closures[c].(refCount := refCount)])
  }

  function OnUnref(w: World, k: nat, c: nat, rest: seq<Op>): World
    requires Usable(w, c) && k < |w.actors|
  {
    var left := w.closures[c].refCount - 1;
    SetCount(Go(w, k, if left == 0 then EndThen(w.closures[c], c, rest) else rest), c, left)
  }

  predicate Enabled(w: World, k: nat)
  {
    k < |w.actors| && w.actors[k] != []
  }

  function Step(w: World, k: nat): World
    requires Enabled(w, k)
  {
    var op, rest := w.actors[k][0], w.actors[k][1..];
    match op
    case Ref(c) =>
      if Usable(w, c) then SetCount(Go(w, k, rest), c, w.closures[c].refCount + 1) else w.(misused := true)
    case Unref(c) =>
      if Usable(w, c) then OnUnref(w, k, c, rest) else w.(misused := true)
    case Invoke(c, items, from) =>
      if Usable(w, c) then OnInvoke(Go(w, k, rest), c, items, from) else w.(misused := true)
    case Drop(items) => Go(w, k, rest).(refs := w.refs - multiset(items))
    case Spawn(program) => w.(actors := w.actors[k := rest] + [program])
  }

  ghost predicate IsRun(worlds: seq<World>, steps: seq<nat>)
  {
    && |worlds| == |steps| + 1
    && forall i :: 0 <= i < |steps| ==> Enabled(worlds[i], steps[i]) && worlds[i + 1] == Step(worlds[i], steps[i])
  }

  // ----- What a program still owes -----

  /** References to a closure that a program gives up, less those it takes. */
  function Net(program: seq<Op>, c: nat): int
  {
    if program == [] then 0 else OpNet(program[0], c) + Net(program[1..], c)
  }

  function OpNet(op: Op, c: nat): int
  {
    match op
    case Ref(d) => if c == d then -1 else 0
    case Unref(d) => if c == d then 1 else 0
    case Spawn(other) => Net(other, c)
    case _ => 0
  }

  /** Calls of a closure still to be made. */
  function Calls(program: seq<Op>, c: nat): nat
  {
    if program == [] then 0 else OpCalls(program[0], c) + Calls(program[1..], c)
  }

  function OpCalls(op: Op, c: nat): nat
  {
    match op
    case Invoke(d, _, _) => if c == d then 1 else 0
    case Spawn(other) => Calls(other, c)
    case _ => 0
  }

  function Times(items: seq<Item>, x: Item): nat
  {
    multiset(items)[x]
  }

  /** How often calls still carry an item. */
  function Carried(program: seq<Op>, x: Item): nat
  {
    if program == [] then 0 else OpCarried(program[0], x) + Carried(program[1..], x)
  }

  function OpCarried(op: Op, x: Item): nat
  {
    match op
    case Invoke(_, items, _) => Times(items, x)
    case Spawn(other) => Carried(other, x)
    case _ => 0
  }

  /** References to an item still to be dropped. */
  function Owned(program: seq<Op>, x: Item): nat
  {
    if program == [] then 0 else OpOwned(program[0], x) + Owned(program[1..], x)
  }

  function OpOwned(op: Op, x: Item): nat
  {
    match op
    case Drop(items) => Times(items, x)
    case Spawn(other) => Owned(other, x)
    case _ => 0
  }

  function Size(program: seq<Op>): nat
  {
    if program == [] then 0 else OpSize(program[0]) + Size(program[1..])
  }

  function OpSize(op: Op): nat
  {
    match op
    case Spawn(other) => Size(other) + 1
    case _ => 1
  }

  /** A program uses a closure only while it owes a reference to it, also on behalf of what it spawns, and
      keeps the items of its calls until after them. */
  ghost predicate Proper(program: seq<Op>, n: nat)
  {
    && (forall c: nat :: Net(program, c) >= 0) && (forall x :: Carried(program, x) <= Owned(program, x))
    && (program == [] ||
        (&& Proper(program[1..], n)
         && match program[0]
            case Ref(c) => c < n && Net(program, c) > 0
            case Unref(c) => c < n
            case Invoke(c, _, _) => c < n && Net(program, c) > 0
            case Drop(_) => true
            case Spawn(other) => Proper(other, n)))
  }

  /** A call made by a merger's end carries that merger's list to its target; only such a call may go to
      the final callback. */
  predicate Honest(closures: seq<Closure>, closure: nat, items: seq<Item>, from: Option<nat>)
  {
    match from
    case None => closure != 0
    case Some(m) => 0 < m < |closures| && closures[m].refCount == 0 && closures[m].list == items && closures[m].target == closure
  }

  predicate AllHonest(program: seq<Op>, closures: seq<Closure>)
  {
    program == [] ||
    (&& AllHonest(program[1..], closures)
     && match program[0]
        case Invoke(c, items, from) => Honest(closures, c, items, from)
        case Spawn(other) => AllHonest(other, closures)
        case _ => true)
  }

  // ----- Sums over actors and mergers -----

  function SumInt(actors: seq<seq<Op>>, f: seq<Op> -> int): int
  {
    if actors == [] then 0 else SumInt(actors[..|actors| - 1], f) + f(actors[|actors| - 1])
  }

  function NetOf(c: nat): seq<Op> -> int { program => Net(program, c) }
  function CallsOf(c: nat): seq<Op> -> int { program => Calls(program, c) }
  function CarriedOf(x: Item): seq<Op> -> int { program => Carried(program, x) }
  function OwnedOf(x: Item): seq<Op> -> int { program => Owned(program, x) }
  function SizeOf(): seq<Op> -> int { program => Size(program) }

  lemma {:induction false} SumIntUpdate(actors: seq<seq<Op>>, k: nat, program: seq<Op>, f: seq<Op> -> int)
    requires k < |actors|
    ensures SumInt(actors[k := program], f) == SumInt(actors, f) - f(actors[k]) + f(program)
  {
    var last := |actors| - 1;
    if k < last {
      SumIntUpdate(actors[..last], k, program, f);
      assert actors[k := program][..last] == actors[..last][k := program];
    } else {
      assert actors[k := program][..last] == actors[..last];
    }
  }

  lemma {:induction false} SumIntAtLeast(actors: seq<seq<Op>>, k: nat, f: seq<Op> -> int)
    requires k < |actors| && forall j :: 0 <= j < |actors| ==> f(actors[j]) >= 0
    ensures SumInt(actors, f) >= f(actors[k])
    ensures SumInt(actors[..|actors| - 1], f) >= 0
  {
    var last := |actors| - 1;
    if last > 0 {
      SumIntAtLeast(actors[..last], if k < last then k else 0, f);
    }
  }

  lemma SumIntAppend(actors: seq<seq<Op>>, program: seq<Op>, f: seq<Op> -> int)
    ensures SumInt(actors + [program], f) == SumInt(actors, f) + f(program)
  {
    assert (actors + [program])[..|actors|] == actors;
  }

  /** The live mergers that will call a closure. */
  function Callers(closures: seq<Closure>, c: nat): nat
  {
    if |closures| <= 1 then 0
    else
      var last := closures[|closures| - 1];
      Callers(closures[..|closures| - 1], c) + if last.refCount > 0 && last.target == c then 1 else 0
  }

  /** How often an item is in the lists of the live mergers. */
  function Listed(closures: seq<Closure>, x: Item): nat
  {
    if |closures| <= 1 then 0
    else
      var last := closures[|closures| - 1];
      Listed(closures[..|closures| - 1], x) + if last.refCount > 0 then Times(last.list, x) else 0
  }

  /** What has been contributed to a merger, in the order of the calls. */
  function Contributed(calls: seq<Call>, c: nat): seq<Item>
  {
    if calls == [] then []
    else
      var earlier, last := Contributed(calls[..|calls| - 1], c), calls[|calls| - 1];
      if last.closure == c then earlier + last.items else earlier
  }

  function CallCount(calls: seq<Call>, c: nat): nat
  {
    if calls == [] then 0
    else CallCount(calls[..|calls| - 1], c) + if calls[|calls| - 1].closure == c then 1 else 0
  }

  // ----- What every step keeps -----

  ghost predicate CountOk(w: World, c: nat)
  {
    c < |w.closures| ==>
      w.closures[c].refCount >= 0 && w.closures[c].refCount == SumInt(w.actors, NetOf(c)) + Callers(w.closures, c)
  }

  ghost predicate ClosureOk(w: World, c: nat)
  {
    0 < c < |w.closures| ==> w.closures[c].target < c && w.closures[c].list == Contributed(w.calls, c)
  }

  ghost predicate ItemOk(w: World, x: Item)
  {
    w.refs[x] == SumInt(w.actors, OwnedOf(x)) + Listed(w.closures, x)
  }

  /** An item is on its way in a call, in the list of a merger, or delivered, as often as at the start. */
  function Whereabouts(w: World, x: Item): int
  {
    SumInt(w.actors, CarriedOf(x)) + Listed(w.closures, x) + Times(Contributed(w.calls, 0), x)
  }

  function FinalCalls(w: World): int
  {
    SumInt(w.actors, CallsOf(0)) + Callers(w.closures, 0) + CallCount(w.calls, 0)
  }

  ghost predicate Structure(w: World)
  {
    && |w.closures| > 0 && !w.misused
    && (forall k :: 0 <= k < |w.actors| ==> Proper(w.actors[k], |w.closures|) && AllHonest(w.actors[k], w.closures))
    && (forall i :: 0 <= i < |w.calls| ==>
          w.calls[i].closure < |w.closures| && Honest(w.closures, w.calls[i].closure, w.calls[i].items, w.calls[i].from))
  }

  ghost predicate Invariant(w: World)
  {
    && Structure(w) && (forall c :: CountOk(w, c)) && (forall c :: ClosureOk(w, c)) && (forall x :: ItemOk(w, x))
  }

  lemma {:induction false} CallersUpdate(closures: seq<Closure>, c: nat, closure: Closure, t: nat)
    requires 0 < c < |closures| && closure.target == closures[c].target
    ensures Callers(closures[c := closure], t) == Callers(closures, t)
      + (if closure.refCount > 0 && closure.target == t then 1 else 0)
      - (if closures[c].refCount > 0 && closure.target == t then 1 else 0)
  {
    var last := |closures| - 1;
    if c < last {
      CallersUpdate(closures[..last], c, closure, t);
      assert closures[c := closure][..last] == closures[..last][c := closure];
    } else {
      assert closures[c := closure][..last] == closures[..last];
    }
  }

  lemma {:induction false} ListedUpdate(closures: seq<Closure>, c: nat, closure: Closure, x: Item)
    requires 0 < c < |closures|
    ensures Listed(closures[c := closure], x) == Listed(closures, x)
      + (if closure.refCount > 0 then Times(closure.list, x) else 0)
      - (if closures[c].refCount > 0 then Times(closures[c].list, x) else 0)
  {
    var last := |closures| - 1;
    if c < last {
      ListedUpdate(closures[..last], c, closure, x);
      assert closures[c := closure][..last] == closures[..last][c := closure];
    } else {
      assert closures[c := closure][..last] == closures[..last];
    }
  }

  lemma {:induction false} FinalUpdate(closures: seq<Closure>, closure: Closure, t: nat, x: Item)
    requires |closures| > 0
    ensures Callers(closures[0 := closure], t) == Callers(closures, t)
    ensures Listed(closures[0 := closure], x) == Listed(closures, x)
  {
    var last := |closures| - 1;
    if last > 0 {
      FinalUpdate(closures[..last], closure, t, x);
      assert closures[0 := closure][..last] == closures[..last][0 := closure];
    }
  }

  /** A closure that an actor is about to use is alive. */
  lemma OwedIsUsable(w: World, k: nat, c: nat)
    requires Structure(w) && CountOk(w, c) && k < |w.actors| && c < |w.closures| && Net(w.actors[k], c) > 0
    ensures Usable(w, c)
  {
    forall j | 0 <= j < |w.actors| ensures NetOf(c)(w.actors[j]) >= 0 {
      assert Proper(w.actors[j], |w.closures|);
    }
    SumIntAtLeast(w.actors, k, NetOf(c));
  }

  lemma NeverMisused(w: World, k: nat)
    requires Invariant(w) && Enabled(w, k)
    ensures match w.actors[k][0]
      case Ref(c) => Usable(w, c)
      case Unref(c) => Usable(w, c)
      case Invoke(c, _, _) => Usable(w, c)
      case _ => true
    ensures !Step(w, k).misused
  {
    hide CountOk, ClosureOk, ItemOk, AllHonest, Usable;
    assert Proper(w.actors[k], |w.closures|);
    match w.actors[k][0]
    case Ref(c) => assert CountOk(w, c); OwedIsUsable(w, k, c);
    case Unref(c) => assert CountOk(w, c); assert Net(w.actors[k][1..], c) >= 0; OwedIsUsable(w, k, c);
    case Invoke(c, _, _) => assert CountOk(w, c); OwedIsUsable(w, k, c);
    case _ =>
  }

  /** What one operation adds to what a program owes. */
  lemma Owes(op: Op, rest: seq<Op>, d: nat, x: Item)
    ensures Net([op] + rest, d) == Net(rest, d) + OpNet(op, d)
    ensures Calls([op] + rest, d) == Calls(rest, d) + OpCalls(op, d)
    ensures Carried([op] + rest, x) == Carried(rest, x) + OpCarried(op, x)
    ensures Owned([op] + rest, x) == Owned(rest, x) + OpOwned(op, x)
    ensures Size([op] + rest) == Size(rest) + OpSize(op)
  {
    assert ([op] + rest)[1..] == rest;
  }

  lemma NextOwes(w: World, k: nat, d: nat, x: Item)
    requires Enabled(w, k)
    ensures var op, rest := w.actors[k][0], w.actors[k][1..];
      && Net(w.actors[k], d) == Net(rest, d) + OpNet(op, d) && Calls(w.actors[k], d) == Calls(rest, d) + OpCalls(op, d)
      && Carried(w.actors[k], x) == Carried(rest, x) + OpCarried(op, x)
      && Owned(w.actors[k], x) == Owned(rest, x) + OpOwned(op, x) && Size(w.actors[k]) == Size(rest) + OpSize(op)
  {
    assert w.actors[k] == [w.actors[k][0]] + w.actors[k][1..];
    Owes(w.actors[k][0], w.actors[k][1..], d, x);
  }

  lemma EndOwes(merger: Closure, c: nat, rest: seq<Op>, d: nat, x: Item)
    ensures Net(EndThen(merger, c, rest), d) == Net(rest, d) + if c != 0 && merger.target == d then 1 else 0
    ensures Calls(EndThen(merger, c, rest), d) == Calls(rest, d) + if c != 0 && merger.target == d then 1 else 0
    ensures Carried(EndThen(merger, c, rest), x) == Carried(rest, x) + if c != 0 then Times(merger.list, x) else 0
    ensures Owned(EndThen(merger, c, rest), x) == Owned(rest, x) + if c != 0 then Times(merger.list, x) else 0
    ensures Size(EndThen(merger, c, rest)) == Size(rest) + if c != 0 then 3 else 0
  {
    hide Net, Calls, Carried, Owned, Size;
    var drop := [Drop(merger.list)] + rest;
    var unref := [Unref(merger.target)] + drop;
    Owes(Drop(merger.list), rest, d, x);
    Owes(Unref(merger.target), drop, d, x);
    Owes(Invoke(merger.target, merger.list, Some(c)), unref, d, x);
  }

  lemma ProperBalance(program: seq<Op>, n: nat, c: nat, x: Item)
    requires Proper(program, n)
    ensures Net(program, c) >= 0 && Carried(program, x) <= Owned(program, x)
  {
  }

  lemma EndProper(merger: Closure, c: nat, rest: seq<Op>, n: nat)
    requires Proper(rest, n) && (c != 0 ==> merger.target < n)
    ensures Proper(EndThen(merger, c, rest), n)
  {
    hide Proper, Net, Carried, Owned;
    if c != 0 {
      var drop := [Drop(merger.list)] + rest;
      var unref := [Unref(merger.target)] + drop;
      ProperCons(Drop(merger.list), rest, n);
      ProperCons(Unref(merger.target), drop, n);
      forall x ensures Carried(unref, x) + Times(merger.list, x) <= Owned(unref, x) && Net(unref, merger.target) > 0 {
        ProperBalance(rest, n, merger.target, x);
        Owes(Drop(merger.list), rest, merger.target, x);
        Owes(Unref(merger.target), drop, merger.target, x);
      }
      assert Carried(unref, 0) + Times(merger.list, 0) <= Owned(unref, 0);
      ProperCons(Invoke(merger.target, merger.list, Some(c)), unref, n);
    }
  }

  lemma EndHonest(merger: Closure, c: nat, rest: seq<Op>, closures: seq<Closure>)
    requires AllHonest(rest, closures) && (c != 0 ==> Honest(closures, merger.target, merger.list, Some(c)))
    ensures AllHonest(EndThen(merger, c, rest), closures)
  {
    var drop := [Drop(merger.list)] + rest;
    var unref := [Unref(merger.target)] + drop;
    var call := [Invoke(merger.target, merger.list, Some(c))] + unref;
    assert drop[1..] == rest && unref[1..] == drop && call[1..] == unref;
  }

  /** The actors of the next world, for a sum over them. */
  lemma ActorsStep(w: World, k: nat, f: seq<Op> -> int)
    requires Enabled(w, k) && !Step(w, k).misused && !w.misused
    ensures var op, rest := w.actors[k][0], w.actors[k][1..];
      SumInt(Step(w, k).actors, f) == SumInt(w.actors, f) - f(w.actors[k]) +
        match op
        case Unref(c) => if w.closures[c].refCount == 1 then f(EndThen(w.closures[c], c, rest)) else f(rest)
        case Spawn(program) => f(rest) + f(program)
        case _ => f(rest)
  {
    hide EndThen, SumInt;
    var op, rest := w.actors[k][0], w.actors[k][1..];
    match op
    case Unref(c) =>
      SumIntUpdate(w.actors, k, if w.closures[c].refCount == 1 then EndThen(w.closures[c], c, rest) else rest, f);
    case Spawn(program) =>
      SumIntUpdate(w.actors, k, rest, f);
      SumIntAppend(w.actors[k := rest], program, f);
    case _ =>
      SumIntUpdate(w.actors, k, rest, f);
  }

  /** The mergers of the next world, for what is summed over them. */
  lemma ClosuresStep(w: World, k: nat, d: nat, x: Item)
    requires Enabled(w, k) && !Step(w, k).misused && !w.misused && |w.closures| > 0
    ensures var op := w.actors[k][0];
      && Callers(Step(w, k).closures, d) == Callers(w.closures, d)
        - (if op.Unref? && op.closure != 0 && w.closures[op.closure].refCount == 1 && w.closures[op.closure].target == d then 1 else 0)
      && Listed(Step(w, k).closures, x) == Listed(w.closures, x)
        + (if op.Invoke? && op.closure != 0 then Times(op.items, x) else 0)
        - (if op.Unref? && op.closure != 0 && w.closures[op.closure].refCount == 1 then Times(w.closures[op.closure].list, x) else 0)
  {
    hide EndThen, Callers, Listed;
    var op, w' := w.actors[k][0], Step(w, k);
    if op.Ref? || op.Unref? || op.Invoke? {
      var c := op.closure;
      if c == 0 {
        FinalUpdate(w.closures, w'.closures[0], d, x);
        assert w'.closures == w.closures[0 := w'.closures[0]];
      } else {
        CallersUpdate(w.closures, c, w'.closures[c], d);
        ListedUpdate(w.closures, c, w'.closures[c], x);
        assert w'.closures == w.closures[c := w'.closures[c]];
      }
    }
  }

  lemma CountStep(w: World, k: nat, d: nat)
    requires Invariant(w) && Enabled(w, k)
    ensures CountOk(Step(w, k), d)
  {
    hide EndThen, Callers, Listed, SumInt, ItemOk, ClosureOk, Proper, AllHonest, Honest;
    NeverMisused(w, k);
    assert CountOk(w, d);
    ActorsStep(w, k, NetOf(d));
    ClosuresStep(w, k, d, 0);
    var op := w.actors[k][0];
    NextOwes(w, k, d, 0);
    if op.Unref? { EndOwes(w.closures[op.closure], op.closure, w.actors[k][1..], d, 0); }
  }

  lemma ItemStep(w: World, k: nat, x: Item)
    requires Invariant(w) && Enabled(w, k)
    ensures ItemOk(Step(w, k), x)
  {
    hide EndThen, Callers, Listed, SumInt, CountOk, ClosureOk, Proper, AllHonest, Honest;
    NeverMisused(w, k);
    assert ItemOk(w, x);
    ActorsStep(w, k, OwnedOf(x));
    ClosuresStep(w, k, 0, x);
    OwnedNow(w, k, x);
    var op := w.actors[k][0];
    NextOwes(w, k, 0, x);
    if op.Unref? { EndOwes(w.closures[op.closure], op.closure, w.actors[k][1..], 0, x); }
  }

  lemma OwnedNow(w: World, k: nat, x: Item)
    requires Enabled(w, k)
    ensures SumInt(w.actors, OwnedOf(x)) >= Owned(w.actors[k], x)
  {
    SumIntAtLeast(w.actors, k, OwnedOf(x));
  }

  lemma ContributedAppend(calls: seq<Call>, call: Call, c: nat)
    ensures Contributed(calls + [call], c) == if call.closure == c then Contributed(calls, c) + call.items else Contributed(calls, c)
    ensures CallCount(calls + [call], c) == CallCount(calls, c) + if call.closure == c then 1 else 0
  {
    assert (calls + [call])[..|calls|] == calls;
  }

  lemma ItemsStayAndFinalCalls(w: World, k: nat, x: Item)
    requires Invariant(w) && Enabled(w, k)
    ensures Whereabouts(Step(w, k), x) == Whereabouts(w, x)
    ensures FinalCalls(Step(w, k)) == FinalCalls(w)
  {
    hide EndThen, Callers, Listed, SumInt, CountOk, ClosureOk, ItemOk, Proper, AllHonest, Honest, Contributed, CallCount;
    NeverMisused(w, k);
    ActorsStep(w, k, CarriedOf(x));
    ActorsStep(w, k, CallsOf(0));
    ClosuresStep(w, k, 0, x);
    var op := w.actors[k][0];
    NextOwes(w, k, 0, x);
    if op.Unref? { EndOwes(w.closures[op.closure], op.closure, w.actors[k][1..], 0, x); }
    if op.Invoke? { ContributedAppend(w.calls, Call(op.closure, op.items, op.from), 0); }
  }

  lemma ClosureStep(w: World, k: nat, d: nat)
    requires Invariant(w) && Enabled(w, k)
    ensures ClosureOk(Step(w, k), d)
  {
    hide EndThen, CountOk, ItemOk, Proper, AllHonest, Honest, Contributed;
    NeverMisused(w, k);
    assert ClosureOk(w, d);
    var op := w.actors[k][0];
    if op.Invoke? { ContributedAppend(w.calls, Call(op.closure, op.items, op.from), d); }
  }

  /** Mergers that have ended do not change. */
  predicate EndedStay(closures: seq<Closure>, others: seq<Closure>)
  {
    |closures| == |others| && forall m :: 0 < m < |closures| && closures[m].refCount == 0 ==> others[m] == closures[m]
  }

  lemma AllHonestStays(program: seq<Op>, closures: seq<Closure>, others: seq<Closure>)
    requires AllHonest(program, closures) && EndedStay(closures, others)
    ensures AllHonest(program, others)
    decreases program
  {
    if program != [] {
      AllHonestStays(program[1..], closures, others);
      if program[0].Spawn? { AllHonestStays(program[0].program, closures, others); }
    }
  }

  lemma EndedStayStep(w: World, k: nat)
    requires Invariant(w) && Enabled(w, k)
    ensures EndedStay(w.closures, Step(w, k).closures)
  {
    hide EndThen, CountOk, ItemOk, ClosureOk, Structure;
    NeverMisused(w, k);
  }

  lemma ActorOk(w: World, k: nat, j: nat)
    requires Invariant(w) && Enabled(w, k) && j < |Step(w, k).actors|
    ensures Proper(Step(w, k).actors[j], |w.closures|) && AllHonest(Step(w, k).actors[j], Step(w, k).closures)
  {
    hide EndThen, CountOk, ItemOk;
    NeverMisused(w, k);
    EndedStayStep(w, k);
    var op, rest, w' := w.actors[k][0], w.actors[k][1..], Step(w, k);
    if j != k && j < |w.actors| {
      AllHonestStays(w.actors[j], w.closures, w'.closures);
    } else {
      assert Proper(w.actors[k], |w.closures|) && AllHonest(w.actors[k], w.closures);
      if op.Spawn? && j == |w.actors| {
        AllHonestStays(op.program, w.closures, w'.closures);
      } else {
        AllHonestStays(rest, w.closures, w'.closures);
        if op.Unref? && w.closures[op.closure].refCount == 1 {
          assert ClosureOk(w, op.closure);
          EndProper(w.closures[op.closure], op.closure, rest, |w.closures|);
          EndHonest(w.closures[op.closure], op.closure, rest, w'.closures);
        }
      }
    }
  }

  lemma StructureStep(w: World, k: nat)
    requires Invariant(w) && Enabled(w, k)
    ensures Structure(Step(w, k))
  {
    hide EndThen, CountOk, ItemOk, ClosureOk, Proper;
    NeverMisused(w, k);
    EndedStayStep(w, k);
    var w' := Step(w, k);
    forall j | 0 <= j < |w'.actors| ensures Proper(w'.actors[j], |w'.closures|) && AllHonest(w'.actors[j], w'.closures) {
      ActorOk(w, k, j);
    }
    assert AllHonest(w.actors[k], w.closures);
  }

  lemma StepKeepsInvariant(w: World, k: nat)
    requires Invariant(w) && Enabled(w, k)
    ensures Invariant(Step(w, k))
  {
    hide CountOk, ClosureOk, ItemOk, Structure, Step;
    StructureStep(w, k);
    forall c ensures CountOk(Step(w, k), c) && ClosureOk(Step(w, k), c) { CountStep(w, k, c); ClosureStep(w, k, c); }
    forall x ensures ItemOk(Step(w, k), x) { ItemStep(w, k, x); }
  }

  // ----- Over every interleaving -----

  /** A start: the mergers are empty, closures and items are referenced by what the programs owe, nobody
      calls the final callback, and one merger will. */
  ghost predicate Start(w: World)
  {
    && Structure(w) && w.calls == [] && (forall c :: CountOk(w, c))
    && (forall c :: 0 < c < |w.closures| ==> w.closures[c].target < c && w.closures[c].list == [])
    && (forall x :: w.refs[x] == SumInt(w.actors, OwnedOf(x)))
    && SumInt(w.actors, CallsOf(0)) == 0 && Callers(w.closures, 0) == 1
  }

  lemma {:induction false} NothingListed(closures: seq<Closure>, x: Item)
    requires forall c :: 0 < c < |closures| ==> closures[c].list == []
    ensures Listed(closures, x) == 0
  {
    if |closures| > 1 { NothingListed(closures[..|closures| - 1], x); }
  }

  lemma StartInvariant(w: World)
    requires Start(w)
    ensures Invariant(w) && FinalCalls(w) == 1
  {
    hide Structure, CountOk, SumInt;
    forall x ensures ItemOk(w, x) { NothingListed(w.closures, x); }
  }

  lemma {:induction false} RunsKeepInvariant(worlds: seq<World>, steps: seq<nat>, i: nat, x: Item)
    requires IsRun(worlds, steps) && Start(worlds[0]) && i < |worlds|
    ensures Invariant(worlds[i]) && FinalCalls(worlds[i]) == 1
    ensures Whereabouts(worlds[i], x) == SumInt(worlds[0].actors, CarriedOf(x))
  {
    hide Invariant, Start, Step, FinalCalls, Enabled;
    if i == 0 {
      StartInvariant(worlds[0]);
      StartWhereabouts(worlds[0], x);
    } else {
      hide Whereabouts;
      RunsKeepInvariant(worlds, steps, i - 1, x);
      StepKeepsInvariant(worlds[i - 1], steps[i - 1]);
      ItemsStayAndFinalCalls(worlds[i - 1], steps[i - 1], x);
    }
  }

  lemma StartWhereabouts(w: World, x: Item)
    requires Start(w)
    ensures Whereabouts(w, x) == SumInt(w.actors, CarriedOf(x))
  {
    hide Structure, CountOk, SumInt;
    NothingListed(w.closures, x);
  }

  // ----- No use after free -----

  /** No interleaving uses a closure after its last reference went, nor passes on an item nobody owns. */
  lemma NothingUsedAfterFree(worlds: seq<World>, steps: seq<nat>, i: nat, k: nat, x: Item)
    requires IsRun(worlds, steps) && Start(worlds[0]) && i < |worlds|
    ensures !worlds[i].misused
    ensures Enabled(worlds[i], k) && worlds[i].actors[k][0].Invoke? ==>
      worlds[i].refs[x] >= Times(worlds[i].actors[k][0].items, x)
  {
    hide Start, IsRun, SumInt, Listed, CountOk, ClosureOk, AllHonest;
    RunsKeepInvariant(worlds, steps, i, x);
    var w := worlds[i];
    if Enabled(w, k) {
      assert Proper(w.actors[k], |w.closures|) && ItemOk(w, x);
      OwnedNow(w, k, x);
      NextOwes(w, k, 0, x);
    }
  }

  // ----- The final callback -----

  lemma {:induction false} UsesOwe(program: seq<Op>, n: nat, c: nat)
    requires Proper(program, n) && Calls(program, c) > 0
    ensures Net(program, c) > 0
    decreases program
  {
    var op, rest := program[0], program[1..];
    if op.Spawn? {
      if Calls(op.program, c) > 0 { UsesOwe(op.program, n, c); } else { UsesOwe(rest, n, c); }
      assert Net(op.program, c) >= 0 && Net(rest, c) >= 0;
    } else if Calls(rest, c) > 0 {
      UsesOwe(rest, n, c);
    }
  }

  lemma {:induction false} CallerOf(closures: seq<Closure>, m: nat)
    requires 0 < m < |closures| && closures[m].refCount > 0
    ensures Callers(closures, closures[m].target) > 0
  {
    if m < |closures| - 1 { CallerOf(closures[..|closures| - 1], m); }
  }

  lemma {:induction false} NoCallers(closures: seq<Closure>, c: nat)
    requires forall m :: 0 < m < |closures| && closures[m].target == c ==> closures[m].refCount <= 0
    ensures Callers(closures, c) == 0
  {
    if |closures| > 1 { NoCallers(closures[..|closures| - 1], c); }
  }

  lemma NetIsNotNegative(w: World, c: nat)
    requires Structure(w)
    ensures SumInt(w.actors, NetOf(c)) >= 0
    ensures forall k: nat :: k < |w.actors| ==> SumInt(w.actors, NetOf(c)) >= Net(w.actors[k], c)
  {
    forall j | 0 <= j < |w.actors| ensures NetOf(c)(w.actors[j]) >= 0 { assert Proper(w.actors[j], |w.closures|); }
    forall k: nat | k < |w.actors| ensures SumInt(w.actors, NetOf(c)) >= Net(w.actors[k], c) {
      SumIntAtLeast(w.actors, k, NetOf(c));
    }
    if |w.actors| > 0 { SumIntAtLeast(w.actors, 0, NetOf(c)); assert NetOf(c)(w.actors[0]) >= 0; }
  }

  /** Each live merger has a live chain of targets up to one that will call the final callback. */
  lemma {:induction false} LiveReachesFinal(w: World, m: nat)
    requires Invariant(w) && 0 < m < |w.closures| && w.closures[m].refCount > 0
    ensures Callers(w.closures, 0) > 0
    decreases m
  {
    hide Structure, ItemOk, Callers;
    assert ClosureOk(w, m);
    var target := w.closures[m].target;
    CallerOf(w.closures, m);
    if target > 0 {
      assert CountOk(w, target);
      NetIsNotNegative(w, target);
      LiveReachesFinal(w, target);
    }
  }

  lemma {:induction false} NothingCarried(program: seq<Op>, x: Item)
    requires forall c :: Calls(program, c) == 0
    ensures Carried(program, x) == 0
    decreases program
  {
    if program != [] {
      var op, rest := program[0], program[1..];
      forall c ensures Calls(rest, c) == 0 { assert Calls(program, c) == 0; }
      NothingCarried(rest, x);
      match op
      case Spawn(other) =>
        forall c ensures Calls(other, c) == 0 { assert Calls(program, c) == 0 && OpCalls(op, c) == 0; }
        NothingCarried(other, x);
      case Invoke(c, _, _) => assert Calls(program, c) == 0 && OpCalls(op, c) == 0;
      case _ =>
    }
  }

  lemma {:induction false} SumZero(actors: seq<seq<Op>>, f: seq<Op> -> int)
    requires forall k :: 0 <= k < |actors| ==> f(actors[k]) == 0
    ensures SumInt(actors, f) == 0
  {
    if actors != [] { SumZero(actors[..|actors| - 1], f); }
  }

  /** Once the final callback has been called, all mergers are gone and no call is left to any closure. */
  lemma AllReported(w: World, k: nat, c: nat)
    requires Invariant(w) && FinalCalls(w) == 1 && CallCount(w.calls, 0) > 0 && k < |w.actors|
    ensures Calls(w.actors[k], c) == 0
  {
    hide ItemOk, Callers, SumInt, CallCount, AllHonest, Honest;
    CallsCount(w, k);
    assert Proper(w.actors[k], |w.closures|);
    if Calls(w.actors[k], c) > 0 && c > 0 {
      UsesOwe(w.actors[k], |w.closures|, c);
      CalledExists(w.actors[k], |w.closures|, c);
      NetIsNotNegative(w, c);
      assert CountOk(w, c);
      LiveReachesFinal(w, c);
    }
  }

  lemma CallsCount(w: World, k: nat)
    requires k < |w.actors|
    ensures SumInt(w.actors, CallsOf(0)) >= Calls(w.actors[k], 0)
  {
    SumIntAtLeast(w.actors, k, CallsOf(0));
  }

  lemma {:induction false} CalledExists(program: seq<Op>, n: nat, c: nat)
    requires Proper(program, n) && Calls(program, c) > 0
    ensures c < n
    decreases program
  {
    if Calls(program[1..], c) > 0 {
      CalledExists(program[1..], n, c);
    } else if program[0].Spawn? {
      CalledExists(program[0].program, n, c);
    }
  }

  lemma {:induction false} CountsCalls(calls: seq<Call>, i: nat, c: nat)
    requires i < |calls| && calls[i].closure == c
    ensures CallCount(calls, c) > 0
  {
    if i < |calls| - 1 { CountsCalls(calls[..|calls| - 1], i, c); }
  }

  lemma {:induction false} OnlyCall(calls: seq<Call>, i: nat, c: nat)
    requires i < |calls| && calls[i].closure == c && CallCount(calls, c) == 1
    ensures Contributed(calls, c) == calls[i].items
  {
    var front := calls[..|calls| - 1];
    if i < |calls| - 1 {
      CountsCalls(front, i, c);
      OnlyCall(front, i, c);
    } else {
      NoCalls(front, c);
    }
  }

  lemma {:induction false} NoCalls(calls: seq<Call>, c: nat)
    requires CallCount(calls, c) == 0
    ensures Contributed(calls, c) == []
  {
    if calls != [] { NoCalls(calls[..|calls| - 1], c); }
  }

  /** In every interleaving the final callback is called at most once, and then with the contributions to
      its merger in the order they were made, and with exactly the items that the programs set out with. */
  lemma FinalCallIsComplete(worlds: seq<World>, steps: seq<nat>, i: nat, at: nat, x: Item)
    requires IsRun(worlds, steps) && Start(worlds[0]) && i < |worlds|
    requires at < |worlds[i].calls| && worlds[i].calls[at].closure == 0
    ensures CallCount(worlds[i].calls, 0) == 1
    ensures var call := worlds[i].calls[at];
      && call.from.Some? && 0 < call.from.value < |worlds[i].closures| && worlds[i].closures[call.from.value].target == 0
      && call.items == Contributed(worlds[i].calls, call.from.value)
      && Times(call.items, x) == SumInt(worlds[0].actors, CarriedOf(x))
  {
    hide Start, IsRun, SumInt, Contributed, CountOk, Callers, CallCount, AllHonest, Proper, ItemOk;
    RunsKeepInvariant(worlds, steps, i, x);
    var w := worlds[i];
    var call := w.calls[at];
    CountsCalls(w.calls, at, 0);
    NonNegativeCalls(w);
    assert Honest(w.closures, call.closure, call.items, call.from) && ClosureOk(w, call.from.value);
    OnlyCall(w.calls, at, 0);
    NothingOnItsWay(w, x);
  }

  lemma NonNegativeCalls(w: World)
    ensures SumInt(w.actors, CallsOf(0)) >= 0
  {
    if |w.actors| > 0 { SumIntAtLeast(w.actors, 0, CallsOf(0)); }
  }

  lemma NothingOnItsWay(w: World, x: Item)
    requires Invariant(w) && FinalCalls(w) == 1 && CallCount(w.calls, 0) > 0
    ensures SumInt(w.actors, CarriedOf(x)) == 0 && Listed(w.closures, x) == 0
  {
    hide CountOk, ItemOk, ClosureOk, Structure, Callers, CallCount;
    forall k | 0 <= k < |w.actors| ensures CarriedOf(x)(w.actors[k]) == 0 {
      forall c ensures Calls(w.actors[k], c) == 0 { AllReported(w, k, c); }
      NothingCarried(w.actors[k], x);
    }
    SumZero(w.actors, CarriedOf(x));
    NonNegativeCalls(w);
    forall m | 0 < m < |w.closures| ensures w.closures[m].refCount <= 0 {
      if w.closures[m].refCount > 0 { LiveReachesFinal(w, m); }
    }
    NoneListed(w.closures, x);
  }

  lemma {:induction false} NoneListed(closures: seq<Closure>, x: Item)
    requires forall m :: 0 < m < |closures| ==> closures[m].refCount <= 0
    ensures Listed(closures, x) == 0
  {
    if |closures| > 1 { NoneListed(closures[..|closures| - 1], x); }
  }

  // ----- The end -----

  function LiveMergers(closures: seq<Closure>): nat
  {
    if |closures| <= 1 then 0
    else LiveMergers(closures[..|closures| - 1]) + if closures[|closures| - 1].refCount > 0 then 1 else 0
  }

  function Measure(w: World): int
  {
    SumInt(w.actors, SizeOf()) + 4 * LiveMergers(w.closures)
  }

  lemma {:induction false} LiveUpdate(closures: seq<Closure>, c: nat, closure: Closure)
    requires c < |closures|
    ensures LiveMergers(closures[c := closure]) == LiveMergers(closures)
      + if c == 0 then 0 else (if closure.refCount > 0 then 1 else 0) - (if closures[c].refCount > 0 then 1 else 0)
  {
    var last := |closures| - 1;
    if c < last {
      LiveUpdate(closures[..last], c, closure);
      assert closures[c := closure][..last] == closures[..last][c := closure];
    } else if c > 0 {
      assert closures[c := closure][..last] == closures[..last];
    }
  }

  /** Every step takes something off. */
  lemma MeasureFalls(w: World, k: nat)
    requires Invariant(w) && Enabled(w, k)
    ensures Measure(Step(w, k)) < Measure(w)
  {
    hide EndThen, SumInt, LiveMergers, CountOk, ClosureOk, ItemOk, Proper, AllHonest, Honest;
    NeverMisused(w, k);
    ActorsStep(w, k, SizeOf());
    var op, w' := w.actors[k][0], Step(w, k);
    if op.Ref? || op.Unref? || op.Invoke? {
      LiveUpdate(w.closures, op.closure, w'.closures[op.closure]);
      assert w'.closures == w.closures[op.closure := w'.closures[op.closure]];
    }
    NextOwes(w, k, 0, 0);
    if op.Unref? { EndOwes(w.closures[op.closure], op.closure, w.actors[k][1..], 0, 0); }
  }

  lemma {:induction false} RunsEnd(worlds: seq<World>, steps: seq<nat>, i: nat)
    requires IsRun(worlds, steps) && Start(worlds[0]) && i < |worlds|
    ensures Measure(worlds[i]) + i <= Measure(worlds[0])
  {
    hide Start, Measure, Step, Enabled, Invariant;
    if i > 0 {
      RunsEnd(worlds, steps, i - 1);
      RunsKeepInvariant(worlds, steps, i - 1, 0);
      MeasureFalls(worlds[i - 1], steps[i - 1]);
    }
  }

  ghost predicate Over(w: World)
  {
    forall k: nat :: !Enabled(w, k)
  }

  lemma {:induction false} AllGone(w: World, c: nat)
    requires Invariant(w) && Over(w) && c < |w.closures|
    ensures Callers(w.closures, c) == 0 && (c > 0 ==> w.closures[c].refCount == 0)
    decreases |w.closures| - c
  {
    hide Structure, Callers, ItemOk, SumInt;
    forall m | 0 < m < |w.closures| && w.closures[m].target == c ensures w.closures[m].refCount <= 0 {
      assert ClosureOk(w, m);
      AllGone(w, m);
    }
    NoCallers(w.closures, c);
    forall k: nat | k < |w.actors| ensures NetOf(c)(w.actors[k]) == 0 { assert !Enabled(w, k); }
    SumZero(w.actors, NetOf(c));
    assert CountOk(w, c);
  }

  /** When nothing is left to do - and no run goes on for ever - the final callback has been called exactly
      once and every reference to an item that was taken has been dropped. */
  lemma CalledOnceAtTheEnd(worlds: seq<World>, steps: seq<nat>, i: nat, x: Item)
    requires IsRun(worlds, steps) && Start(worlds[0]) && i < |worlds| && Over(worlds[i])
    ensures CallCount(worlds[i].calls, 0) == 1
    ensures worlds[i].refs[x] == 0
  {
    hide Start, IsRun, SumInt, CountOk, Callers, CallCount, Structure, Listed, ClosureOk;
    RunsKeepInvariant(worlds, steps, i, x);
    var w := worlds[i];
    assert |w.closures| > 0 by { HasClosures(w); }
    AllGone(w, 0);
    forall k: nat | k < |w.actors| ensures w.actors[k] == [] { assert !Enabled(w, k); }
    SumZero(w.actors, CallsOf(0));
    SumZero(w.actors, OwnedOf(x));
    forall m | 0 < m < |w.closures| ensures w.closures[m].refCount <= 0 { AllGone(w, m); }
    NoneListed(w.closures, x);
    assert ItemOk(w, x);
  }

  lemma HasClosures(w: World)
    requires Structure(w)
    ensures |w.closures| > 0
  {
  }

  // ----- The users -----

  /** An enumerator's report, and the drop of its own references. */
  function Report(c: nat, items: seq<Item>): seq<Op>
  {
    [Invoke(c, items, None)] + ([Unref(c)] + [Drop(items)])
  }

  function Enumerate(c: nat, items: Option<seq<Item>>, rest: seq<Op>): seq<Op>
  {
    match items
    case None => rest
    case Some(list) => [Ref(c)] + ([Spawn(Report(c, list))] + rest)
  }

  /** _owr_get_capture_devices after making its merger `c`: an enumerator runs later for each type wanted. */
  function GetCaptureDevices(c: nat, video: Option<seq<Item>>, audio: Option<seq<Item>>, rest: seq<Op>): seq<Op>
  {
    Enumerate(c, video, Enumerate(c, audio, [Unref(c)] + rest))
  }

  /** The test sources go straight to the outer merger. */
  function AddTests(items: seq<Item>): seq<Op>
  {
    [Ref(1)] + ([Invoke(1, items, None)] + ([Unref(1)] + ([Drop(items)] + ([Unref(1)] + []))))
  }

  function Bag(items: Option<seq<Item>>): multiset<Item>
  {
    match items case None => multiset{} case Some(list) => multiset(list)
  }

  /** owr_get_capture_sources. With test sources the outer merger 1 has been referenced for the inner
      merger 2, which has just been made; nothing else can have happened yet. */
  function GetCaptureSources(tests: Option<seq<Item>>, video: Option<seq<Item>>, audio: Option<seq<Item>>): World
  {
    var refs := Bag(tests) + Bag(video) + Bag(audio);
    match tests
    case None =>
      World([Closure(1, 0, []), Closure(1, 0, [])], [GetCaptureDevices(1, video, audio, [])], refs, [], false)
    case Some(list) =>
      World([Closure(1, 0, []), Closure(2, 0, []), Closure(1, 1, [])],
        [GetCaptureDevices(2, video, audio, AddTests(list))], refs, [], false)
  }

  lemma EmptyOwes(d: nat, x: Item)
    ensures Net([], d) == 0 && Calls([], d) == 0 && Carried([], x) == 0 && Owned([], x) == 0
  {
  }

  lemma ReportOwes(c: nat, items: seq<Item>, d: nat, x: Item)
    ensures Net(Report(c, items), d) == if c == d then 1 else 0
    ensures Calls(Report(c, items), d) == if c == d then 1 else 0
    ensures Carried(Report(c, items), x) == Times(items, x) && Owned(Report(c, items), x) == Times(items, x)
  {
    hide Net, Calls, Carried, Owned;
    EmptyOwes(d, x);
    assert [Drop(items)] == [Drop(items)] + [];
    Owes(Drop(items), [], d, x);
    Owes(Unref(c), [Drop(items)], d, x);
    Owes(Invoke(c, items, None), [Unref(c)] + [Drop(items)], d, x);
  }

  lemma EnumerateOwes(c: nat, items: Option<seq<Item>>, rest: seq<Op>, d: nat, x: Item)
    ensures Net(Enumerate(c, items, rest), d) == Net(rest, d)
    ensures c != d ==> Calls(Enumerate(c, items, rest), d) == Calls(rest, d)
    ensures Carried(Enumerate(c, items, rest), x) == Carried(rest, x) + Bag(items)[x]
    ensures Owned(Enumerate(c, items, rest), x) == Owned(rest, x) + Bag(items)[x]
  {
    hide Net, Calls, Carried, Owned, Report;
    if items.Some? {
      ReportOwes(c, items.value, d, x);
      Owes(Spawn(Report(c, items.value)), rest, d, x);
      Owes(Ref(c), [Spawn(Report(c, items.value))] + rest, d, x);
    }
  }

  /** Prefixing an operation keeps a program proper. */
  lemma ProperCons(op: Op, rest: seq<Op>, n: nat)
    requires Proper(rest, n)
    requires op.Ref? ==> op.closure < n && Net(rest, op.closure) > 1
    requires op.Unref? ==> op.closure < n
    requires op.Invoke? ==> op.closure < n && Net(rest, op.closure) > 0
    requires op.Invoke? ==> forall x :: Carried(rest, x) + Times(op.items, x) <= Owned(rest, x)
    requires op.Spawn? ==> Proper(op.program, n)
    ensures Proper([op] + rest, n)
  {
    var program := [op] + rest;
    assert program[1..] == rest;
    forall d: nat ensures Net(program, d) >= 0 { Owes(op, rest, d, 0); assert Net(rest, d) >= 0; }
    forall x ensures Carried(program, x) <= Owned(program, x) { Owes(op, rest, 0, x); }
    if op.Ref? || op.Invoke? { Owes(op, rest, op.closure, 0); }
  }

  lemma ReportProper(c: nat, items: seq<Item>, n: nat)
    requires c < n
    ensures Proper(Report(c, items), n)
  {
    hide Proper, Net, Carried, Owned;
    EmptyProper(n);
    assert [Drop(items)] == [Drop(items)] + [];
    ProperCons(Drop(items), [], n);
    ProperCons(Unref(c), [Drop(items)], n);
    forall x ensures Carried([Unref(c)] + [Drop(items)], x) == 0 && Owned([Unref(c)] + [Drop(items)], x) == Times(items, x) {
      EmptyOwes(c, x);
      Owes(Drop(items), [], c, x);
      Owes(Unref(c), [Drop(items)], c, x);
    }
    EmptyOwes(c, 0);
    Owes(Drop(items), [], c, 0);
    Owes(Unref(c), [Drop(items)], c, 0);
    ProperCons(Invoke(c, items, None), [Unref(c)] + [Drop(items)], n);
  }

  lemma EmptyProper(n: nat)
    ensures Proper([], n)
  {
  }

  lemma EnumerateProper(c: nat, items: Option<seq<Item>>, rest: seq<Op>, n: nat)
    requires Proper(rest, n) && c < n && Net(rest, c) > 0
    ensures Proper(Enumerate(c, items, rest), n)
  {
    hide Proper, Net, Carried, Owned, Report;
    if items.Some? {
      ReportProper(c, items.value, n);
      ReportOwes(c, items.value, c, 0);
      ProperCons(Spawn(Report(c, items.value)), rest, n);
      Owes(Spawn(Report(c, items.value)), rest, c, 0);
      ProperCons(Ref(c), [Spawn(Report(c, items.value))] + rest, n);
    }
  }

  lemma AddTestsOwes(items: seq<Item>, d: nat, x: Item)
    ensures Net(AddTests(items), d) == if d == 1 then 1 else 0
    ensures Calls(AddTests(items), 0) == 0
    ensures Carried(AddTests(items), x) == Times(items, x) && Owned(AddTests(items), x) == Times(items, x)
  {
    hide Net, Calls, Carried, Owned;
    EmptyOwes(d, x);
    EmptyOwes(0, x);
    var p1 := [Unref(1)] + [];
    var p2 := [Drop(items)] + p1;
    var p3 := [Unref(1)] + p2;
    var p4 := [Invoke(1, items, None)] + p3;
    forall e | e == d || e == 0 ensures Net(AddTests(items), e) == (if e == 1 then 1 else 0) && (e == 0 ==> Calls(AddTests(items), e) == 0)
      && Carried(AddTests(items), x) == Times(items, x) && Owned(AddTests(items), x) == Times(items, x) {
      Owes(Unref(1), [], e, x);
      Owes(Drop(items), p1, e, x);
      Owes(Unref(1), p2, e, x);
      Owes(Invoke(1, items, None), p3, e, x);
      Owes(Ref(1), p4, e, x);
    }
  }

  lemma AddTestsProper(items: seq<Item>, n: nat)
    requires n > 1
    ensures Proper(AddTests(items), n)
  {
    hide Proper, Net, Carried, Owned;
    var p1 := [Unref(1)] + [];
    var p2 := [Drop(items)] + p1;
    var p3 := [Unref(1)] + p2;
    EmptyProper(n);
    ProperCons(Unref(1), [], n);
    ProperCons(Drop(items), p1, n);
    ProperCons(Unref(1), p2, n);
    forall x ensures Carried(p3, x) == 0 && Owned(p3, x) == Times(items, x) {
      EmptyOwes(1, x);
      Owes(Unref(1), [], 1, x);
      Owes(Drop(items), p1, 1, x);
      Owes(Unref(1), p2, 1, x);
    }
    EmptyOwes(1, 0);
    Owes(Unref(1), [], 1, 0);
    Owes(Drop(items), p1, 1, 0);
    Owes(Unref(1), p2, 1, 0);
    ProperCons(Invoke(1, items, None), p3, n);
    Owes(Invoke(1, items, None), p3, 1, 0);
    ProperCons(Ref(1), [Invoke(1, items, None)] + p3, n);
  }

  lemma HonestCons(op: Op, rest: seq<Op>, closures: seq<Closure>)
    requires AllHonest(rest, closures) && (op.Invoke? ==> Honest(closures, op.closure, op.items, op.from))
    requires op.Spawn? ==> AllHonest(op.program, closures)
    ensures AllHonest([op] + rest, closures)
  {
    assert ([op] + rest)[1..] == rest;
  }

  lemma EnumerateHonest(c: nat, items: Option<seq<Item>>, rest: seq<Op>, closures: seq<Closure>)
    requires AllHonest(rest, closures) && c != 0
    ensures AllHonest(Enumerate(c, items, rest), closures)
  {
    hide AllHonest;
    if items.Some? {
      var drop := [Drop(items.value)];
      EmptyHonest(closures);
      assert drop == drop + [];
      HonestCons(Drop(items.value), [], closures);
      HonestCons(Unref(c), drop, closures);
      HonestCons(Invoke(c, items.value, None), [Unref(c)] + drop, closures);
      HonestCons(Spawn(Report(c, items.value)), rest, closures);
      HonestCons(Ref(c), [Spawn(Report(c, items.value))] + rest, closures);
    }
  }

  lemma EmptyHonest(closures: seq<Closure>)
    ensures AllHonest([], closures)
  {
  }

  lemma AddTestsHonest(items: seq<Item>, closures: seq<Closure>)
    ensures AllHonest(AddTests(items), closures)
  {
    hide AllHonest;
    var p1 := [Unref(1)] + [];
    var p2 := [Drop(items)] + p1;
    var p3 := [Unref(1)] + p2;
    EmptyHonest(closures);
    HonestCons(Unref(1), [], closures);
    HonestCons(Drop(items), p1, closures);
    HonestCons(Unref(1), p2, closures);
    HonestCons(Invoke(1, items, None), p3, closures);
    HonestCons(Ref(1), [Invoke(1, items, None)] + p3, closures);
  }

  lemma DevicesOwe(c: nat, video: Option<seq<Item>>, audio: Option<seq<Item>>, rest: seq<Op>, d: nat, x: Item)
    ensures var program := GetCaptureDevices(c, video, audio, rest);
      && Net(program, d) == Net(rest, d) + (if c == d then 1 else 0)
      && (c != 0 ==> Calls(program, 0) == Calls(rest, 0))
      && Carried(program, x) == Carried(rest, x) + Bag(video)[x] + Bag(audio)[x]
      && Owned(program, x) == Owned(rest, x) + Bag(video)[x] + Bag(audio)[x]
  {
    hide Net, Calls, Carried, Owned, Enumerate;
    var last := [Unref(c)] + rest;
    Owes(Unref(c), rest, d, x);
    Owes(Unref(c), rest, 0, x);
    EnumerateOwes(c, audio, last, d, x);
    EnumerateOwes(c, audio, last, 0, x);
    EnumerateOwes(c, video, Enumerate(c, audio, last), d, x);
    EnumerateOwes(c, video, Enumerate(c, audio, last), 0, x);
  }

  lemma DevicesOk(c: nat, video: Option<seq<Item>>, audio: Option<seq<Item>>, rest: seq<Op>, closures: seq<Closure>)
    requires Proper(rest, |closures|) && AllHonest(rest, closures) && 0 < c < |closures| && Net(rest, c) >= 0
    ensures Proper(GetCaptureDevices(c, video, audio, rest), |closures|)
    ensures AllHonest(GetCaptureDevices(c, video, audio, rest), closures)
  {
    hide Proper, AllHonest, Net, Enumerate;
    var last := [Unref(c)] + rest;
    ProperCons(Unref(c), rest, |closures|);
    HonestCons(Unref(c), rest, closures);
    Owes(Unref(c), rest, c, 0);
    EnumerateOwes(c, audio, last, c, 0);
    EnumerateProper(c, audio, last, |closures|);
    EnumerateHonest(c, audio, last, closures);
    EnumerateProper(c, video, Enumerate(c, audio, last), |closures|);
    EnumerateHonest(c, video, Enumerate(c, audio, last), closures);
  }

  lemma SumOne(program: seq<Op>, f: seq<Op> -> int)
    ensures SumInt([program], f) == f(program)
  {
    assert [program][..0] == [];
  }

  /** One more closure adds one caller of its target at most. */
  lemma CallersAppend(closures: seq<Closure>, closure: Closure, c: nat)
    requires |closures| > 0
    ensures Callers(closures + [closure], c) ==
      Callers(closures, c) + if closure.refCount > 0 && closure.target == c then 1 else 0
  {
    assert (closures + [closure])[..|closures|] == closures;
  }

  /** The final callback is called by one merger, and so is the inner merger when there is one. */
  lemma CallersAtStart(c: nat)
    ensures Callers([Closure(1, 0, []), Closure(1, 0, [])], c) == if c == 0 then 1 else 0
    ensures Callers([Closure(1, 0, []), Closure(2, 0, []), Closure(1, 1, [])], c) == if c <= 1 then 1 else 0
  {
    var final := [Closure(1, 0, [])];
    assert Callers(final, c) == 0;
    hide Callers;
    CallersAppend(final, Closure(1, 0, []), c);
    CallersAppend(final, Closure(2, 0, []), c);
    CallersAppend(final + [Closure(2, 0, [])], Closure(1, 1, []), c);
    assert final + [Closure(1, 0, [])] == [Closure(1, 0, []), Closure(1, 0, [])];
    assert final + [Closure(2, 0, [])] + [Closure(1, 1, [])] == [Closure(1, 0, []), Closure(2, 0, []), Closure(1, 1, [])];
  }

  lemma PlainStarts(video: Option<seq<Item>>, audio: Option<seq<Item>>)
    ensures Start(GetCaptureSources(None, video, audio))
  {
    hide Proper, AllHonest, Net, Calls, Carried, Owned, GetCaptureDevices, SumInt, Callers;
    var w := GetCaptureSources(None, video, audio);
    var program := w.actors[0];
    EmptyProper(2);
    EmptyHonest(w.closures);
    EmptyOwes(1, 0);
    DevicesOk(1, video, audio, [], w.closures);
    forall c ensures CountOk(w, c) {
      EmptyOwes(c, 0);
      DevicesOwe(1, video, audio, [], c, 0);
      SumOne(program, NetOf(c));
      CallersAtStart(c);
    }
    forall x ensures w.refs[x] == SumInt(w.actors, OwnedOf(x)) {
      EmptyOwes(0, x);
      DevicesOwe(1, video, audio, [], 0, x);
      SumOne(program, OwnedOf(x));
    }
    EmptyOwes(0, 0);
    DevicesOwe(1, video, audio, [], 0, 0);
    SumOne(program, CallsOf(0));
    CallersAtStart(0);
  }

  lemma TestsStart(tests: seq<Item>, video: Option<seq<Item>>, audio: Option<seq<Item>>)
    ensures Start(GetCaptureSources(Some(tests), video, audio))
  {
    hide Proper, AllHonest, Net, Calls, Carried, Owned, GetCaptureDevices, SumInt, AddTests, Callers;
    var w := GetCaptureSources(Some(tests), video, audio);
    var rest := AddTests(tests);
    var program := w.actors[0];
    AddTestsProper(tests, 3);
    AddTestsHonest(tests, w.closures);
    AddTestsOwes(tests, 2, 0);
    DevicesOk(2, video, audio, rest, w.closures);
    forall c ensures CountOk(w, c) {
      CallersAtStart(c);
      AddTestsOwes(tests, c, 0);
      DevicesOwe(2, video, audio, rest, c, 0);
      SumOne(program, NetOf(c));
    }
    forall x ensures w.refs[x] == SumInt(w.actors, OwnedOf(x)) {
      AddTestsOwes(tests, 0, x);
      DevicesOwe(2, video, audio, rest, 0, x);
      SumOne(program, OwnedOf(x));
    }
    AddTestsOwes(tests, 0, 0);
    DevicesOwe(2, video, audio, rest, 0, 0);
    SumOne(program, CallsOf(0));
    CallersAtStart(0);
  }

  lemma SourcesCarry(tests: Option<seq<Item>>, video: Option<seq<Item>>, audio: Option<seq<Item>>, x: Item)
    ensures Start(GetCaptureSources(tests, video, audio))
    ensures SumInt(GetCaptureSources(tests, video, audio).actors, CarriedOf(x)) == (Bag(tests) + Bag(video) + Bag(audio))[x]
  {
    hide Start, SumInt, Carried, GetCaptureDevices, AddTests;
    SumOne(GetCaptureSources(tests, video, audio).actors[0], CarriedOf(x));
    match tests
    case None =>
      PlainStarts(video, audio);
      EmptyOwes(0, x);
      DevicesOwe(1, video, audio, [], 0, x);
    case Some(list) =>
      TestsStart(list, video, audio);
      AddTestsOwes(list, 0, x);
      DevicesOwe(2, video, audio, AddTests(list), 0, x);
  }

  /** owr_get_capture_sources, with test sources (two mergers deep) or without, for any wanted types and any
      lists the enumerators find: in every interleaving the callback is called at most once, with everything
      that was found, and once everybody is done it has been called and all item references are dropped. */
  lemma CaptureSourcesDelivered(tests: Option<seq<Item>>, video: Option<seq<Item>>, audio: Option<seq<Item>>,
      worlds: seq<World>, steps: seq<nat>, i: nat, x: Item)
    requires IsRun(worlds, steps) && worlds[0] == GetCaptureSources(tests, video, audio) && i < |worlds|
    ensures !worlds[i].misused
    ensures forall at :: 0 <= at < |worlds[i].calls| && worlds[i].calls[at].closure == 0 ==>
      CallCount(worlds[i].calls, 0) == 1
      && Times(worlds[i].calls[at].items, x) == (Bag(tests) + Bag(video) + Bag(audio))[x]
      && worlds[i].calls[at].items == Contributed(worlds[i].calls, 1)
    ensures Over(worlds[i]) ==> CallCount(worlds[i].calls, 0) == 1 && worlds[i].refs[x] == 0
  {
    hide Start, IsRun, GetCaptureSources, CallCount, Contributed, SumInt, Over;
    SourcesCarry(tests, video, audio, x);
    NothingUsedAfterFree(worlds, steps, i, 0, x);
    forall at | 0 <= at < |worlds[i].calls| && worlds[i].calls[at].closure == 0
      ensures CallCount(worlds[i].calls, 0) == 1
        && Times(worlds[i].calls[at].items, x) == (Bag(tests) + Bag(video) + Bag(audio))[x]
        && worlds[i].calls[at].items == Contributed(worlds[i].calls, 1) {
      FinalCallIsComplete(worlds, steps, i, at, x);
      TargetsStay(worlds, steps, i);
      OneTargetsFinal(tests, video, audio, worlds[i].calls[at].from.value);
    }
    if Over(worlds[i]) { CalledOnceAtTheEnd(worlds, steps, i, x); }
  }

  lemma OneTargetsFinal(tests: Option<seq<Item>>, video: Option<seq<Item>>, audio: Option<seq<Item>>, m: nat)
    requires var w := GetCaptureSources(tests, video, audio); 0 < m < |w.closures| && w.closures[m].target == 0
    ensures m == 1
  {
  }

  lemma {:induction false} TargetsStay(worlds: seq<World>, steps: seq<nat>, i: nat)
    requires IsRun(worlds, steps) && i < |worlds|
    ensures |worlds[i].closures| == |worlds[0].closures|
    ensures forall m :: 0 <= m < |worlds[0].closures| ==> worlds[i].closures[m].target == worlds[0].closures[m].target
  {
    if i > 0 {
      TargetsStay(worlds, steps, i - 1);
      TargetsStep(worlds[i - 1], steps[i - 1]);
    }
  }

  lemma TargetsStep(w: World, k: nat)
    requires Enabled(w, k)
    ensures |Step(w, k).closures| == |w.closures|
    ensures forall m :: 0 <= m < |w.closures| ==> Step(w, k).closures[m].target == w.closures[m].target
  {
  }
}
