/**
 * The single-parent chain used by `matches`. The engine compares each
 * truthy `parent` with the requested name and then continues from the state
 * that parent names; a parent naming an undefined state is compared and then
 * ends the walk. Nothing bounds the walk in the code, so the model walks at
 * most `|states|` steps and proves that this loses nothing.
 */
module Hierarchy {
  import opened Wrappers
  import opened Definition

  /** The next name on the chain: the truthy parent of a defined state. */
  function ParentOf<C, P>(states: map<string, StateConfig<C, P>>, n: string): Option<string> {
    if n in states && Truthy(states[n].parent) then states[n].parent else None
  }

  /** The name reached after `k` parent steps from `n`, if the chain is that long. */
  function Reach<C, P>(states: map<string, StateConfig<C, P>>, n: string, k: nat): Option<string>
    decreases k
  {
    if k == 0 then Some(n)
    else match ParentOf(states, n)
      case None => None
      case Some(p) => Reach(states, p, k - 1)
  }

  /** `name` is compared by an unbounded walk that starts at `from`. */
  ghost predicate OnChain<C, P>(states: map<string, StateConfig<C, P>>, from: string, name: string) {
    exists k: nat :: 1 <= k && Reach(states, from, k) == Some(name)
  }

  /** `name` is compared within the first `fuel` steps of a walk from `from`. */
  ghost predicate ComparedWithin<C, P>(states: map<string, StateConfig<C, P>>, from: string, name: string, fuel: nat) {
    exists k: nat :: 1 <= k <= fuel && Reach(states, from, k) == Some(name)
  }

  /** No state reaches itself by following parents. */
  ghost predicate Acyclic<C, P>(states: map<string, StateConfig<C, P>>) {
    forall n: string, k: nat :: 1 <= k ==> Reach(states, n, k) != Some(n)
  }

  /** The name at position `i` of the chain, or "" past its end. */
  function NodeAt<C, P>(states: map<string, StateConfig<C, P>>, from: string, i: nat): string {
    match Reach(states, from, i)
    case None => ""
    case Some(x) => x
  }

  /** The loop of `matches`: at most `fuel` parent comparisons, starting from `at`. */
  function WalkFrom<C, P>(states: map<string, StateConfig<C, P>>, at: string, name: string, fuel: nat): (r: bool)
    ensures r <==> ComparedWithin(states, at, name, fuel)
    decreases fuel
  {
    if fuel == 0 then false
    else match ParentOf(states, at)
      case None =>
        assert forall k: nat :: 1 <= k ==> Reach(states, at, k) == None;
        false
      case Some(p) =>
        WalkStep(states, at, p, name, fuel);
        p == name || WalkFrom(states, p, name, fuel - 1)
  }

  /** One parent step splits a bounded walk into a comparison and a shorter walk. */
  lemma WalkStep<C, P>(states: map<string, StateConfig<C, P>>, at: string, p: string, name: string, fuel: nat)
    requires fuel >= 1 && ParentOf(states, at) == Some(p)
    ensures ComparedWithin(states, at, name, fuel) <==> (p == name || ComparedWithin(states, p, name, fuel - 1))
  {
    if ComparedWithin(states, at, name, fuel) {
      var k: nat :| 1 <= k <= fuel && Reach(states, at, k) == Some(name);
      assert Reach(states, at, k) == Reach(states, p, k - 1);
      if k == 1 {
        assert Reach(states, p, 0) == Some(p);
      }
    }
    if p == name {
      assert Reach(states, at, 1) == Some(name);
    } else if ComparedWithin(states, p, name, fuel - 1) {
      var k: nat :| 1 <= k <= fuel - 1 && Reach(states, p, k) == Some(name);
      assert Reach(states, at, k + 1) == Some(name);
    }
  }

  /** Walking `i` steps and then `j` more is walking `i + j` steps. */
  lemma {:induction false} ReachAdd<C, P>(states: map<string, StateConfig<C, P>>, n: string, i: nat, j: nat)
    ensures Reach(states, n, i + j) ==
              match Reach(states, n, i)
              case None => None
              case Some(x) => Reach(states, x, j)
    decreases i
  {
    if i > 0 {
      match ParentOf(states, n)
      case None =>
      case Some(p) => ReachAdd(states, p, i - 1, j);
    }
  }

  /** Every name before the end of a chain of length `k` is a defined state. */
  lemma ChainPrefixDefined<C, P>(states: map<string, StateConfig<C, P>>, from: string, k: nat, i: nat)
    requires Reach(states, from, k).Some?
    requires i < k
    ensures Reach(states, from, i) == Some(NodeAt(states, from, i))
    ensures NodeAt(states, from, i) in states
  {
    ReachAdd(states, from, i, k - i);
  }

  /** A sequence drawn from a set larger than the set repeats an element. */
  lemma {:induction false} Pigeonhole(s: seq<string>, keys: set<string>)
    requires forall i :: 0 <= i < |s| ==> s[i] in keys
    requires |s| > |keys|
    ensures exists i, j :: 0 <= i < j < |s| && s[i] == s[j]
  {
    if s[0] in s[1..] {
      var j :| 0 <= j < |s[1..]| && s[1..][j] == s[0];
      assert s[0] == s[j + 1];
    } else {
      var rest := keys - {s[0]};
      forall i | 0 <= i < |s[1..]|
        ensures s[1..][i] in rest
      {
        assert s[1..][i] == s[i + 1];
      }
      Pigeonhole(s[1..], rest);
      var i, j :| 0 <= i < j < |s[1..]| && s[1..][i] == s[1..][j];
      assert s[i + 1] == s[j + 1];
    }
  }

  /** A chain longer than `|states|` revisits a defined state. */
  lemma RepeatedNode<C, P>(states: map<string, StateConfig<C, P>>, from: string, k: nat)
    requires Reach(states, from, k).Some?
    requires k > |states|
    ensures exists i, j :: 0 <= i < j < k && Reach(states, from, i) == Reach(states, from, j)
  {
    var nodes := seq(k, i requires 0 <= i < k => NodeAt(states, from, i));
    forall i | 0 <= i < k
      ensures nodes[i] in states.Keys
    {
      ChainPrefixDefined(states, from, k, i);
    }
    Pigeonhole(nodes, states.Keys);
    var i, j :| 0 <= i < j < |nodes| && nodes[i] == nodes[j];
    ChainPrefixDefined(states, from, k, i);
    ChainPrefixDefined(states, from, k, j);
  }

  /** Any name the unbounded walk compares is already compared within `|states|` steps. */
  lemma {:induction false} ShortenChain<C, P>(states: map<string, StateConfig<C, P>>, from: string, name: string, k: nat)
    requires 1 <= k && Reach(states, from, k) == Some(name)
    ensures ComparedWithin(states, from, name, |states|)
    decreases k
  {
    if k > |states| {
      RepeatedNode(states, from, k);
      var i, j :| 0 <= i < j < k && Reach(states, from, i) == Reach(states, from, j);
      ReachAdd(states, from, i, k - j);
      ReachAdd(states, from, j, k - j);
      ShortenChain(states, from, name, i + (k - j));
    }
  }

  /** Bounding the walk by the number of states changes no answer it gives. */
  lemma OnChainBounded<C, P>(states: map<string, StateConfig<C, P>>, from: string, name: string)
    ensures OnChain(states, from, name) <==> ComparedWithin(states, from, name, |states|)
  {
    if OnChain(states, from, name) {
      var k: nat :| 1 <= k && Reach(states, from, k) == Some(name);
      ShortenChain(states, from, name, k);
    }
  }

  /** Without cycles the unbounded loop of `matches` stops within `|states|` steps. */
  lemma AcyclicWalkEnds<C, P>(states: map<string, StateConfig<C, P>>, from: string)
    requires Acyclic(states)
    ensures Reach(states, from, |states| + 1) == None
  {
    if Reach(states, from, |states| + 1).Some? {
      RepeatedNode(states, from, |states| + 1);
      var i, j :| 0 <= i < j < |states| + 1 && Reach(states, from, i) == Reach(states, from, j);
      ChainPrefixDefined(states, from, |states| + 1, i);
      ReachAdd(states, from, i, j - i);
      assert false;
    }
  }
}
