/**
Call graphs as the evidence gate sees them: the list of function definitions in the source, each
with the functions it calls and whether some call site of each lies inside a loop block.
A function may have several definitions; its calls are those of all of them.
*/
module CallGraph {
  type Name = string

  /** One mention of a permanent history map in a body: where it is, its loop tag and its flattened statement. */
  datatype Access = Access(history: string, at: nat, inLoop: bool, statement: string)

  datatype Span = Span(name: Name, calls: map<Name, bool>, accesses: seq<Access>)

  type Graph = seq<Span>

  predicate Defined(g: Graph, v: Name) {
    exists k :: 0 <= k < |g| && g[k].name == v
  }

  /** Some definition of `u` calls `v`, and `v` is defined. */
  ghost predicate Edge(g: Graph, u: Name, v: Name) {
    Defined(g, v) && exists k :: 0 <= k < |g| && g[k].name == u && v in g[k].calls
  }

  /** Some definition of `u` calls `v` from inside a loop block. */
  ghost predicate LoopEdge(g: Graph, u: Name, v: Name) {
    Defined(g, v) && exists k :: 0 <= k < |g| && g[k].name == u && v in g[k].calls && g[k].calls[v]
  }

  ghost predicate Walk(g: Graph, p: seq<Name>) {
    p != [] && forall i :: 0 <= i < |p| - 1 ==> Edge(g, p[i], p[i + 1])
  }

  ghost predicate WalkBetween(g: Graph, u: Name, v: Name, p: seq<Name>) {
    Walk(g, p) && p[0] == u && p[|p| - 1] == v
  }

  ghost predicate Reachable(g: Graph, u: Name, v: Name) {
    exists p :: WalkBetween(g, u, v, p)
  }

  ghost predicate CrossesLoop(g: Graph, p: seq<Name>) {
    exists i :: 0 <= i < |p| - 1 && LoopEdge(g, p[i], p[i + 1])
  }

  /** Some call path from `u` to `v` crosses a call made inside a loop. */
  ghost predicate LoopReachable(g: Graph, u: Name, v: Name) {
    exists p :: WalkBetween(g, u, v, p) && CrossesLoop(g, p)
  }

  /** `v` can call itself, directly or through others. */
  ghost predicate OnCycle(g: Graph, v: Name) {
    exists p :: |p| >= 2 && WalkBetween(g, v, v, p)
  }

  ghost predicate ShortestPath(g: Graph, u: Name, v: Name, p: seq<Name>) {
    WalkBetween(g, u, v, p) && forall q :: WalkBetween(g, u, v, q) ==> |p| <= |q|
  }

  lemma ExtendWalk(g: Graph, u: Name, v: Name, w: Name, p: seq<Name>)
    requires WalkBetween(g, u, v, p) && Edge(g, v, w)
    ensures WalkBetween(g, u, w, p + [w])
    ensures CrossesLoop(g, p) || LoopEdge(g, v, w) ==> CrossesLoop(g, p + [w])
  {
    var q := p + [w];
    forall i | 0 <= i < |q| - 1 ensures Edge(g, q[i], q[i + 1]) {
      assert i < |p| - 1 ==> q[i] == p[i] && q[i + 1] == p[i + 1];
    }
    if CrossesLoop(g, p) {
      var i :| 0 <= i < |p| - 1 && LoopEdge(g, p[i], p[i + 1]);
      assert LoopEdge(g, q[i], q[i + 1]);
    } else if LoopEdge(g, v, w) {
      assert LoopEdge(g, q[|p| - 1], q[|p| - 1 + 1]);
    }
  }

  lemma DropLast(g: Graph, u: Name, v: Name, p: seq<Name>)
    requires WalkBetween(g, u, v, p) && |p| >= 2
    ensures WalkBetween(g, u, p[|p| - 2], p[..|p| - 1])
    ensures Edge(g, p[|p| - 2], v)
    ensures CrossesLoop(g, p) ==> CrossesLoop(g, p[..|p| - 1]) || LoopEdge(g, p[|p| - 2], v)
  {
    var q := p[..|p| - 1];
    forall i | 0 <= i < |q| - 1 ensures Edge(g, q[i], q[i + 1]) {
      assert Edge(g, p[i], p[i + 1]);
    }
    assert Edge(g, p[|p| - 2], p[|p| - 2 + 1]);
    if CrossesLoop(g, p) {
      var i :| 0 <= i < |p| - 1 && LoopEdge(g, p[i], p[i + 1]);
      if i < |q| - 1 {
        assert LoopEdge(g, q[i], q[i + 1]);
      }
    }
  }

  ghost predicate NoDuplicates<T>(s: seq<T>) {
    forall i, j :: 0 <= i < j < |s| ==> s[i] != s[j]
  }

  /** Distinct elements drawn from a set are at most as many as the set has. */
  lemma {:induction false} DistinctFit<T>(s: seq<T>, u: set<T>)
    requires NoDuplicates(s) && forall x :: x in s ==> x in u
    ensures |s| <= |u|
  {
    if s != [] {
      var last := s[|s| - 1];
      DistinctFit(s[..|s| - 1], u - {last});
    }
  }
}
