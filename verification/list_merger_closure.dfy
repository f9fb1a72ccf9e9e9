/** The closure objects of the list merger: calling one that holds the last reference to a whole chain of
    mergers ends them all, one inside the other. */
module ListMergerClosure {
  type Item = nat

  /** `calls` observes what the final callback has been called with. */
  datatype Snapshot = Snapshot(refCount: nat, list: seq<Item>, calls: seq<seq<Item>>)

  /** The call alone: the final callback runs, a merger keeps the list. */
  function Called(chain: seq<Snapshot>, items: seq<Item>): (result: seq<Snapshot>)
    requires chain != []
    ensures |result| == |chain|
  {
    var head := chain[0];
    [if |chain| == 1 then head.(calls := head.calls + [items]) else head.(list := head.list + items)] + chain[1..]
  }

  /** The unref alone: a merger that loses its last reference calls and unrefs its target with its list. */
  function Unreferenced(chain: seq<Snapshot>): (result: seq<Snapshot>)
    requires chain != []
    ensures |result| == |chain|
    decreases |chain|, 0
  {
    var head := chain[0];
    var left := if head.refCount == 0 then 0 else head.refCount - 1;
    if |chain| == 1 || left > 0 then [head.(refCount := left)] + chain[1..]
    else [Snapshot(0, [], head.calls)] + CallAndUnref(chain[1..], head.list)
  }

  /** A call with a list and the unref that goes with it, along a chain from a closure to its final
      callback. */
  function CallAndUnref(chain: seq<Snapshot>, items: seq<Item>): (result: seq<Snapshot>)
    requires chain != []
    ensures |result| == |chain|
    decreases |chain|, 1
  {
    Unreferenced(Called(chain, items))
  }

  /** What the final callback gets when all mergers of the chain end. */
  function Merged(chain: seq<Snapshot>, items: seq<Item>): seq<Item>
    requires chain != []
  {
    if |chain| == 1 then items else Merged(chain[1..], chain[0].list + items)
  }

  predicate LastReferences(chain: seq<Snapshot>)
    requires chain != []
  {
    forall i :: 0 <= i < |chain| - 1 ==> chain[i].refCount <= 1
  }

  /** The final callback is called exactly if every merger on the way holds its last reference. */
  lemma {:induction false} FinalCalledIff(chain: seq<Snapshot>, items: seq<Item>)
    requires chain != []
    ensures var before, after := chain[|chain| - 1], CallAndUnref(chain, items)[|chain| - 1];
      after.calls == before.calls + (if LastReferences(chain) then [Merged(chain, items)] else [])
  {
    if |chain| > 1 {
      var rest := chain[1..];
      FinalCalledIff(rest, chain[0].list + items);
      assert LastReferences(chain) <==> chain[0].refCount <= 1 && LastReferences(rest) by {
        assert forall i :: 0 <= i < |rest| - 1 ==> rest[i] == chain[i + 1];
      }
    }
  }

  /** What reaches the k-th closure of a chain when all before it end. */
  function Gathered(chain: seq<Snapshot>, items: seq<Item>, k: nat): seq<Item>
    requires k < |chain|
  {
    if k == 0 then items else chain[k - 1].list + Gathered(chain, items, k - 1)
  }

  lemma {:induction false} GatheredTail(chain: seq<Snapshot>, items: seq<Item>, k: nat)
    requires 0 < k < |chain|
    ensures Gathered(chain, items, k) == Gathered(chain[1..], chain[0].list + items, k - 1)
  {
    if k > 1 { GatheredTail(chain, items, k - 1); }
  }

  /** The first k closures have ended; the k-th has lost one reference, kept its list and got what was gathered on
      the way; those behind it are as before. */
  predicate Stopped(chain: seq<Snapshot>, after: seq<Snapshot>, got: seq<Item>, k: nat)
    requires k < |chain| == |after|
  {
    && (forall i :: 0 <= i < k ==> after[i] == Snapshot(0, [], chain[i].calls))
    && after[k].refCount == (if chain[k].refCount == 0 then 0 else chain[k].refCount - 1)
    && after[k].list == (if k == |chain| - 1 then chain[k].list else chain[k].list + got)
    && after[k].calls == (if k == |chain| - 1 then chain[k].calls + [got] else chain[k].calls)
    && (forall i :: k < i < |chain| ==> after[i] == chain[i])
  }

  /** The call ends the mergers that hold their last references, empties them, and stops at the first closure that
      does not end, the final callback at the latest. */
  lemma {:induction false} CallReaches(chain: seq<Snapshot>, items: seq<Item>, k: nat)
    requires k < |chain| && (forall i :: 0 <= i < k ==> chain[i].refCount <= 1)
    requires k == |chain| - 1 || chain[k].refCount > 1
    ensures Stopped(chain, CallAndUnref(chain, items), Gathered(chain, items, k), k)
  {
    if k > 0 {
      hide CallAndUnref, Gathered, Stopped;
      CallReaches(chain[1..], chain[0].list + items, k - 1);
      GatheredTail(chain, items, k);
      HeadEnds(chain, items);
      StoppedBehind(chain, CallAndUnref(chain[1..], chain[0].list + items), Gathered(chain, items, k), k);
    }
  }

  lemma StoppedBehind(chain: seq<Snapshot>, behind: seq<Snapshot>, got: seq<Item>, k: nat)
    requires 0 < k < |chain| == |behind| + 1 && Stopped(chain[1..], behind, got, k - 1)
    ensures Stopped(chain, [Snapshot(0, [], chain[0].calls)] + behind, got, k)
  {
    var after, rest := [Snapshot(0, [], chain[0].calls)] + behind, chain[1..];
    assert forall i :: 0 < i < |chain| ==> after[i] == behind[i - 1] && chain[i] == rest[i - 1];
  }

  lemma HeadEnds(chain: seq<Snapshot>, items: seq<Item>)
    requires |chain| > 1 && chain[0].refCount <= 1
    ensures CallAndUnref(chain, items) == [Snapshot(0, [], chain[0].calls)] + CallAndUnref(chain[1..], chain[0].list + items)
  {
    var called := Called(chain, items);
    assert called[1..] == chain[1..];
  }

  class GClosure {
    const target: GClosure?
    /** How far it is to the final callback, and the closures on the way there. */
    ghost const depth: nat
    ghost const below: set<GClosure>
    var refCount: nat
    var list: seq<Item>
    ghost var calls: seq<seq<Item>>

    ghost predicate Valid()
      decreases depth
    {
      if target == null then below == {}
      else target.depth < depth && below == {target} + target.below && this !in below && target.Valid()
    }

    /** This closure, its target, and so on to the final callback. */
    ghost function View(): (chain: seq<Snapshot>)
      requires Valid()
      reads this, below
      ensures chain != []
      decreases depth
    {
      [Snapshot(refCount, list, calls)] + BelowView()
    }

    ghost function BelowView(): seq<Snapshot>
      requires Valid()
      reads below
      decreases depth, 0
    {
      if target == null then [] else target.View()
    }

    ghost predicate Held()
      reads this, below
    {
      refCount > 0 && forall closure :: closure in below ==> closure.refCount > 0
    }

    /** _owr_utils_list_closure_merger_new takes over the caller's reference to the final callback. */
    constructor (finalCallback: GClosure?)
      requires finalCallback != null ==> finalCallback.Valid() && forall closure :: closure in finalCallback.below ==> allocated(closure)
      ensures Valid() && target == finalCallback && refCount == 1 && list == [] && calls == []
    {
      target := finalCallback;
      depth := if finalCallback == null then 0 else finalCallback.depth + 1;
      below := if finalCallback == null then {} else {finalCallback} + finalCallback.below;
      refCount, list, calls := 1, [], [];
    }

    /** The call alone: the final callback runs, and callback_merger keeps the list. */
    method Invoke(items: seq<Item>)
      requires Valid()
      modifies this
      ensures View() == Called(old(View()), items) && refCount == old(refCount)
    {
      if target == null {
        calls := calls + [items];
      } else {
        list := list + items;
      }
    }

    /** g_closure_unref, with callback_merger_on_destroy_data when it was the last reference of a merger. */
    method Unref()
      requires Valid() && Held()
      modifies this, below
      ensures View() == Unreferenced(old(View()))
      decreases depth, 0
    {
      refCount := refCount - 1;
      if target != null && refCount == 0 {
        hide Unreferenced, Called, CallAndUnref;
        target.CallWithList(list);
        list := [];
      }
      hide CallAndUnref;
    }

    /** _owr_utils_call_closure_with_list */
    method CallWithList(items: seq<Item>)
      requires Valid() && Held()
      modifies this, below
      ensures View() == CallAndUnref(old(View()), items)
      decreases depth, 1
    {
      hide Valid, View, Unreferenced, Called;
      Invoke(items);
      Unref();
    }
  }
}
