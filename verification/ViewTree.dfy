/** All views over one base view, as objects: the heap that `OverlayWorld` is a picture of.
    Every call through any of the views is one step of that world, so what is proved there of
    every run holds of the objects. */
module ViewTree {
  import opened ApiObjects
  import opened OverlaySpec
  import opened OverlayContents
  import opened OverlayListing
  import opened OverlayWorld
  import OverlayFlat
  import OverlayRuns
  import opened ResourceStore
  import opened Views

  class Tree {
    const counter: VersionCounter
    var views: seq<View>
    /** Which view each sandbox was opened over. */
    ghost var over: seq<nat>

    /** The views and their stores. */
    ghost var Repr: set<object>

    /** View `i` was opened over the older view `over[i]`. */
    ghost predicate HangsRight(i: nat)
      requires |over| == |views| && 0 < i < |views|
      reads this
    {
      over[i] < i && views[i].delegate == views[over[i]]
    }

    /** Base view first, every sandbox after its delegate, one counter, a store for each. */
    ghost predicate Shaped()
      reads this
    {
      && views != [] && |over| == |views| && this !in Repr
      && (forall i :: 0 <= i < |views| ==> views[i] in Repr && views[i].store in Repr)
      && (forall i :: 0 <= i < |views| ==> views[i].Linked() && views[i].store.counter == counter)
      && views[0].delegate == null
      && (forall i: nat :: 0 < i < |views| ==> HangsRight(i))
      && (forall i, j :: 0 <= i < j < |views| ==> views[i] != views[j] && views[i].store != views[j].store)
    }

    ghost function NodeAt(i: nat): ViewNode
      requires Shaped() && i < |views|
      reads this, Repr
    {
      ViewNode(if i == 0 then None else Some(over[i]), views[i].store.cache, views[i].changeCount)
    }

    ghost function NodesUpTo(n: nat): (nodes: seq<ViewNode>)
      requires Shaped() && n <= |views|
      reads this, Repr
      ensures |nodes| == n && forall i :: 0 <= i < n ==> nodes[i] == NodeAt(i)
    {
      if n == 0 then [] else NodesUpTo(n - 1) + [NodeAt(n - 1)]
    }

    ghost function Abs(): World
      requires Shaped()
      reads this, Repr, counter
    {
      World(counter.value, NodesUpTo(|views|))
    }

    ghost predicate Valid()
      reads this, Repr, counter
    {
      && Shaped() && WorldKeyed(Abs())
      && forall i :: 0 <= i < |views| ==> VersionsUpTo(views[i].store.cache, counter.value)
    }

    lemma AbsIsLinked()
      requires Shaped()
      ensures OverlayWorld.Linked(Abs().views)
    {
      forall i: nat | 0 < i < |views| ensures NodeAt(i).delegate == Some(over[i]) && over[i] < i {
        assert HangsRight(i);
      }
    }

    /** A view is read through the chain that the world has for it. */
    lemma {:induction false} CachesAreChain(i: nat)
      requires Shaped() && i < |views|
      ensures OverlayWorld.Linked(Abs().views) && views[i].Caches() == Chain(Abs().views, i)
      ensures views[i].Below() == Below(Abs().views, i) && views[i].Own() == LocalOf(Abs(), i)
      decreases i
    {
      AbsIsLinked();
      if i > 0 {
        assert HangsRight(i);
        CachesAreChain(over[i]);
      }
    }

    lemma {:induction false} ViewIsValid(i: nat)
      requires Valid() && i < |views|
      ensures views[i].Valid()
      decreases i
    {
      var v := views[i];
      assert Keyed(NodeAt(i).cache) by {
        assert Abs().views[i] == NodeAt(i);
      }
      if i > 0 {
        assert HangsRight(i);
        ViewIsValid(over[i]);
        assert forall n :: 0 < n < |v.Caches()| ==> v.Caches()[n] == v.delegate.Caches()[n - 1];
      }
    }

    constructor ()
      ensures Valid() && Abs() == World(0, [ViewNode(None, map[], 0)])
      ensures fresh(Repr) && fresh(counter)
    {
      var base := new View.Base();
      views := [base];
      over := [0];
      Repr := {base, base.store};
      counter := base.store.counter;
    }

    /** One call changed view `i` and nothing else of the tree. */
    twostate lemma OneViewChanged(i: nat)
      requires old(Valid()) && i < |views| && unchanged(this)
      requires forall j :: 0 <= j < |views| && j != i ==> unchanged(views[j]) && unchanged(views[j].store)
      requires views[i].Valid() && old(counter.value) <= counter.value
      ensures Valid() && Abs() == WithLocal(old(Abs()), i, views[i].Own())
    {
      var w, w' := old(Abs()), Abs();
      assert Keyed(views[i].Caches()[0]) && VersionsUpTo(views[i].Caches()[0], counter.value);
      assert forall j :: 0 <= j < |views| && j != i ==> w'.views[j] == w.views[j];
      assert w'.views == WithLocal(w, i, views[i].Own()).views;
    }

    method Call(v: View, a: Action) returns (out: Outcome)
      requires v.Valid()
      modifies v, v.store, v.store.counter
      ensures (v.Own(), out) == Apply(old(v.Own()), old(v.Below()), a)
      ensures v.Valid() && old(v.store.counter.value) <= v.store.counter.value
    {
      v.ValidIsSound();
      OverlayRuns.ActionKeepsSound(v.Own(), v.Below(), Flat(v.Below()), a);
      match a
      case CreateObject(o, suffix) => out := v.CreateObject(o, suffix);
      case UpdateObject(o) => out := v.UpdateObject(o);
      case DeleteObject(k) => out := v.DeleteObject(k);
      case DeleteObjects(keys) =>
        v.DeleteEach(keys);
        out := Done;
      case BindPod(k, node) => out := v.UpdatePodNodeBinding(k, node);
      case PatchObjectStatus(k, patch) => out := v.PatchObjectStatus(k, patch);
    }

    method ActThrough(i: nat, a: Action) returns (out: Outcome)
      requires Valid() && i < |views|
      modifies this, Repr, counter
      ensures Valid() && Repr == old(Repr)
      ensures OverlayWorld.Linked(old(Abs()).views) && (Abs(), out) == Step(old(Abs()), Act(i, a))
    {
      CachesAreChain(i);
      ViewIsValid(i);
      out := Call(views[i], a);
      OneViewChanged(i);
    }

    method ResetAt(i: nat)
      requires Valid() && i < |views|
      modifies this, Repr, counter
      ensures Valid() && Repr == old(Repr)
      ensures OverlayWorld.Linked(old(Abs()).views) && (Abs(), Done) == Step(old(Abs()), ResetView(i))
    {
      CachesAreChain(i);
      ViewIsValid(i);
      views[i].Reset();
      OneViewChanged(i);
    }

    /** Any call through any view is one step of the world. */
    method Do(op: Op) returns (out: Outcome)
      requires Valid() && Legal(Abs(), op)
      modifies this, Repr, counter
      ensures Valid() && fresh(Repr - old(Repr))
      ensures OverlayWorld.Linked(old(Abs()).views) && (Abs(), out) == Step(old(Abs()), op)
    {
      AbsIsLinked();
      out := Done;
      match op
      case Act(i, a) => out := ActThrough(i, a);
      case ResetView(i) => ResetAt(i);
      case OpenSandbox(d) => var _ := OpenStep(d);
    }

    /** Any sequence of calls is a run of the world: what `OverlayTheorems` proves of runs holds
        of these objects. */
    method DoAll(ops: seq<Op>) returns (outs: seq<Outcome>)
      requires Valid() && OverlayWorld.Linked(Abs().views) && LegalRun(Abs(), ops)
      modifies this, Repr, counter
      ensures Valid() && fresh(Repr - old(Repr))
      ensures (Abs(), outs) == Run(old(Abs()), ops)
      decreases |ops|
    {
      if ops == [] {
        return [];
      }
      StepKeepsLinked(Abs(), ops[0]);
      var out := Do(ops[0]);
      var rest := DoAll(ops[1..]);
      outs := [out] + rest;
    }

    method OpenOver(d: nat) returns (v: View)
      requires Valid() && d < |views|
      modifies this
      ensures fresh(Repr - old(Repr)) && views == old(views) + [v]
      ensures Valid() && Abs() == World(old(counter.value), old(Abs()).views + [ViewNode(Some(d), map[], 0)])
    {
      ViewIsValid(d);
      v := new View.Sandbox(views[d]);
      assert v.store.cache == v.Caches()[0] == map[];
      views := views + [v];
      over := over + [d];
      Repr := Repr + {v, v.store};
      OneViewAdded(d, v);
    }

    method OpenStep(d: nat) returns (v: View)
      requires Valid() && d < |views|
      modifies this
      ensures fresh(Repr - old(Repr)) && views == old(views) + [v] && Valid()
      ensures OverlayWorld.Linked(old(Abs()).views) && Abs() == Step(old(Abs()), OpenSandbox(d)).0
    {
      AbsIsLinked();
      v := OpenOver(d);
    }

    /** A new sandbox joined the tree, which is otherwise as it was. */
    twostate lemma OneViewAdded(d: nat, new v: View)
      requires old(Valid()) && d < old(|views|) && views == old(views) + [v] && over == old(over) + [d]
      requires Repr == old(Repr) + {v, v.store} && (forall o :: o in old(Repr) ==> unchanged(o))
      requires fresh(v) && fresh(v.store) && unchanged(counter)
      requires v.Linked() && v.delegate == old(views)[d] && v.store.counter == counter
      requires v.store.cache == map[] && v.changeCount == 0
      ensures Valid() && Abs() == World(old(counter.value), old(Abs()).views + [ViewNode(Some(d), map[], 0)])
    {
      var n, w := old(|views|), old(Abs());
      assert forall i :: 0 <= i < n ==> views[i] == old(views)[i] && over[i] == old(over)[i];
      forall i: nat | 0 < i <= n ensures HangsRight(i) {
        assert i < n ==> old(HangsRight(i));
      }
      assert Shaped();
      forall i: nat | i < n ensures NodeAt(i) == w.views[i] {
        assert w.views[i] == old(NodeAt(i));
      }
      assert Abs().views == w.views + [NodeAt(n)];
      assert forall i :: 0 <= i < n ==> views[i].store.cache == old(views[i].store.cache);
    }

    method CallDelete(v: View, c: Criteria) returns (ghost keys: seq<Key>)
      requires v.Valid()
      modifies v, v.store, v.store.counter
      ensures v.Own() == DeleteAll(old(v.Own()), old(v.Below()), keys)
      ensures OverlayFlat.KeySet(keys) == Listed(old(v.Caches()), c).Keys
      ensures v.Valid() && old(v.store.counter.value) <= v.store.counter.value
    {
      v.ValidIsSound();
      ghost var l, below := v.Own(), v.Below();
      keys := v.DeleteObjects(c);
      OverlayFlat.DeleteAllKeepsSound(l, below, Flat(below), keys);
    }

    /** A bulk delete by criteria is the step that deletes what its listing gave. */
    method DeleteMatching(i: nat, c: Criteria) returns (ghost keys: seq<Key>)
      requires Valid() && i < |views|
      modifies this, Repr, counter
      ensures Valid() && OverlayWorld.Linked(old(Abs()).views)
      ensures Abs() == Step(old(Abs()), Act(i, DeleteObjects(keys))).0
      ensures OverlayFlat.KeySet(keys) == Listed(Chain(old(Abs()).views, i), c).Keys
    {
      CachesAreChain(i);
      ViewIsValid(i);
      keys := CallDelete(views[i], c);
      OneViewChanged(i);
    }

    /** The version a listing reports is at least that of every item and was handed out. */
    method List(i: nat, c: Criteria) returns (items: seq<Obj>, maxVersion: nat)
      requires Valid() && i < |views|
      ensures OverlayWorld.Linked(old(Abs()).views) && Enumerates(items, Listed(Chain(old(Abs()).views, i), c))
      ensures forall j :: 0 <= j < |items| ==> items[j].version <= maxVersion
      ensures maxVersion <= old(Abs()).counter
    {
      CachesAreChain(i);
      ViewIsValid(i);
      items, maxVersion := views[i].ListMetaObjects(c);
    }
  }

  /** Each name has a place of its own among the views, which is not that of the base view. */
  ghost predicate Placed(place: map<string, nat>, views: nat) {
    && (forall n :: n in place ==> 0 < place[n] < views)
    && (forall m, n :: m in place && n in place && place[m] == place[n] ==> m == n)
  }

  /** Hands out views by name: a name stands for one view of the tree for good, and the delegate of
      that view is the one given when the name was first asked for. */
  class ViewAccess {
    const tree: Tree
    /** The place in the tree of the view of each name. */
    var sandboxViews: map<string, nat>

    ghost predicate Valid()
      reads this, tree, tree.Repr, tree.counter
    {
      tree.Valid() && this !in tree.Repr && Placed(sandboxViews, |tree.views|)
    }

    constructor ()
      ensures Valid() && sandboxViews == map[] && fresh(tree) && fresh(tree.Repr)
      ensures tree.Abs() == World(0, [ViewNode(None, map[], 0)])
    {
      tree := new Tree();
      sandboxViews := map[];
    }

    /** `over` is the place of the delegate, `i` that of the view. */
    method GetSandboxViewOverDelegate(name: string, over: nat) returns (i: nat)
      requires Valid() && over < |tree.views|
      modifies this, tree
      ensures Valid() && name in sandboxViews && i == sandboxViews[name]
      ensures OverlayWorld.Linked(old(tree.Abs()).views)
      ensures name in old(sandboxViews) ==> tree.Abs() == old(tree.Abs()) && sandboxViews == old(sandboxViews)
      ensures name !in old(sandboxViews) ==>
        && tree.Abs() == Step(old(tree.Abs()), OpenSandbox(over)).0
        && sandboxViews == old(sandboxViews)[name := |old(tree.Abs()).views|]
    {
      tree.AbsIsLinked();
      if name in sandboxViews {
        return sandboxViews[name];
      }
      i := |tree.views|;
      sandboxViews := sandboxViews[name := i];
      var _ := tree.OpenStep(over);
    }
  }
}
