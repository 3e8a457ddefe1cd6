/**
How often a reported point read can happen. The gate promises that nothing on its call path
multiplies it; a recursive caller does, and the gate does not look for one. This module gives such
a program, and the exact condition under which a point read is reached along boundedly many steps.
*/
module GateMultiplier {
  import opened CallGraph
  import opened GateSearch
  import opened GateReport
  import opened BraceScanner
  import opened BodyScan
  import opened GateSource

  /** The call paths from `u` to `v` have a common bound on their length. */
  ghost predicate BoundedWalks(g: Graph, u: Name, v: Name) {
    exists n: nat :: WalksWithin(g, u, v, n)
  }

  ghost predicate WalksWithin(g: Graph, u: Name, v: Name, n: nat) {
    forall p :: WalkBetween(g, u, v, p) ==> |p| <= n
  }

  /** Some call path from `u` to `v` passes through a function that can call itself. */
  ghost predicate PassesCycle(g: Graph, u: Name, v: Name) {
    exists p, i :: WalkBetween(g, u, v, p) && 0 <= i < |p| && OnCycle(g, p[i])
  }

  lemma JoinWalks(g: Graph, u: Name, v: Name, w: Name, p: seq<Name>, q: seq<Name>)
    requires WalkBetween(g, u, v, p) && WalkBetween(g, v, w, q)
    ensures WalkBetween(g, u, w, p + q[1..])
  {
    var r := p + q[1..];
    forall i | 0 <= i < |r| - 1 ensures Edge(g, r[i], r[i + 1]) {
      if i < |p| - 1 {
        assert Edge(g, p[i], p[i + 1]);
      } else {
        assert r[i] == q[i - |p| + 1] && r[i + 1] == q[i - |p| + 2];
        assert Edge(g, q[i - |p| + 1], q[i - |p| + 1 + 1]);
      }
    }
  }

  lemma CutWalk(g: Graph, u: Name, v: Name, p: seq<Name>, i: nat, j: nat)
    requires WalkBetween(g, u, v, p) && i <= j < |p|
    ensures WalkBetween(g, p[i], p[j], p[i..j + 1])
  {
    var q := p[i..j + 1];
    forall k | 0 <= k < |q| - 1 ensures Edge(g, q[k], q[k + 1]) {
      assert Edge(g, p[i + k], p[i + k + 1]);
    }
  }

  /** Going round a cycle `n` times gives a closed walk of more than `n` steps. */
  lemma {:induction false} RoundTrips(g: Graph, v: Name, c: seq<Name>, n: nat) returns (r: seq<Name>)
    requires WalkBetween(g, v, v, c) && |c| >= 2
    ensures WalkBetween(g, v, v, r) && |r| > n
  {
    if n == 0 {
      r := c;
    } else {
      var shorter := RoundTrips(g, v, c, n - 1);
      JoinWalks(g, v, v, v, shorter, c);
      r := shorter + c[1..];
    }
  }

  /** A path through a cycle can be made longer than any bound. */
  lemma CyclesPump(g: Graph, u: Name, v: Name, n: nat) returns (r: seq<Name>)
    requires PassesCycle(g, u, v)
    ensures WalkBetween(g, u, v, r) && |r| > n
  {
    var p, i :| WalkBetween(g, u, v, p) && 0 <= i < |p| && OnCycle(g, p[i]);
    var c :| |c| >= 2 && WalkBetween(g, p[i], p[i], c);
    CutWalk(g, u, v, p, 0, i);
    CutWalk(g, u, v, p, i, |p| - 1);
    var loops := RoundTrips(g, p[i], c, n);
    JoinWalks(g, u, p[i], p[i], p[0..i + 1], loops);
    JoinWalks(g, u, p[i], v, p[0..i + 1] + loops[1..], p[i..|p| - 1 + 1]);
    r := p[0..i + 1] + loops[1..] + p[i..|p| - 1 + 1][1..];
  }

  /** A path that meets no cycle repeats no function, so it is no longer than the program has names. */
  lemma AcyclicIsShort(g: Graph, u: Name, v: Name, p: seq<Name>)
    requires WalkBetween(g, u, v, p) && !PassesCycle(g, u, v)
    ensures |p| <= |Universe(g, u)|
  {
    forall i, j | 0 <= i < j < |p| ensures p[i] != p[j] {
      assert !OnCycle(g, p[i]);
      CutWalk(g, u, v, p, i, j);
      assert WalkBetween(g, p[i], p[j], p[i..j + 1]) && |p[i..j + 1]| >= 2;
    }
    forall x | x in p ensures x in Universe(g, u) {
      var i :| 0 <= i < |p| && p[i] == x;
      if i > 0 {
        assert Edge(g, p[i - 1], p[i - 1 + 1]);
      }
    }
    DistinctFit(p, Universe(g, u));
  }

  /** The call paths to a function are bounded exactly when none of them passes through a call cycle. */
  lemma BoundedExactly(g: Graph, u: Name, v: Name)
    ensures BoundedWalks(g, u, v) <==> !PassesCycle(g, u, v)
  {
    if BoundedWalks(g, u, v) && PassesCycle(g, u, v) {
      var n: nat :| WalksWithin(g, u, v, n);
      var r := CyclesPump(g, u, v, n);
      assert false;
    }
    if !PassesCycle(g, u, v) {
      forall p | WalkBetween(g, u, v, p) ensures |p| <= |Universe(g, u)| {
        AcyclicIsShort(g, u, v, p);
      }
      assert WalksWithin(g, u, v, |Universe(g, u)|);
    }
  }

  // ---------- a program the gate passes ----------

  /** `entry` calls `walk`, `walk` calls itself and `read`, and `read` looks up the history once. */
  const ESCAPING: Graph := [
    Span("entry", map["walk" := false], []),
    Span("walk", map["walk" := false, "read" := false], []),
    Span("read", map[], [Access("HISTORY", 0, false, "HISTORY")])]

  /** The read is tagged a point read although its calling function is recursive: its call paths have no bound. */
  lemma RecursiveCallerEscapes()
    ensures ContextOf(ESCAPING, "entry", "read", ESCAPING[2].accesses[0]) == PointRead
    ensures Reachable(ESCAPING, "entry", "read") && !BoundedWalks(ESCAPING, "entry", "read")
  {
    hide Edge, LoopEdge, BoundedWalks;
    var g := ESCAPING;
    EscapingCalls(g);
    var p := ["entry", "walk", "read"];
    assert WalkBetween(g, "entry", "read", p);
    assert WalkBetween(g, "walk", "walk", ["walk", "walk"]);
    assert OnCycle(g, p[1]);
    BoundedExactly(g, "entry", "read");
    NothingLoops(g);
    ReadCallsNothing(g);
  }

  lemma EscapingCalls(g: Graph)
    requires g == ESCAPING
    ensures Edge(g, "entry", "walk") && Edge(g, "walk", "walk") && Edge(g, "walk", "read")
  {
    assert g[0].name == "entry" && g[1].name == "walk" && g[2].name == "read";
    assert Defined(g, "walk") && Defined(g, "read");
  }

  lemma NothingLoops(g: Graph)
    requires g == ESCAPING
    ensures forall u, v :: !LoopEdge(g, u, v)
  {
  }

  lemma ReadCallsNothing(g: Graph)
    requires g == ESCAPING
    ensures !OnCycle(g, "read")
  {
    forall p | |p| >= 2 ensures !WalkBetween(g, "read", "read", p) {
      if p[0] == "read" {
        assert !Edge(g, p[0], p[0 + 1]);
      }
    }
  }

  // ---------- the condition, on source text ----------

  ghost predicate TextBounded(lx: Lexis, src: Source, u: Name, v: Name) {
    exists n: nat :: TextPathsWithin(lx, src, u, v, n)
  }

  ghost predicate TextPathsWithin(lx: Lexis, src: Source, u: Name, v: Name, n: nat) {
    forall p :: TextPath(lx, src, u, v, p) ==> |p| <= n
  }

  ghost predicate TextPassesCycle(lx: Lexis, src: Source, u: Name, v: Name) {
    exists p, i :: TextPath(lx, src, u, v, p) && 0 <= i < |p| && TextOnCycle(lx, src, p[i])
  }

  /**
  When a reported point read really is one: no call site in a loop block is on any path to it, and
  the paths to it are bounded if and only if no function on any of them is on a call cycle.
  */
  lemma PointReadUnmultiplied(lx: Lexis, src: Source, histories: seq<string>, entry: Name, h: HistoryAccess)
    requires Named(src, histories) && SomeSite(lx, src, histories, entry, h) && h.context == PointRead
    ensures forall p :: TextPath(lx, src, entry, h.inFunction, p) ==> !TextCrossesLoop(lx, src, p)
    ensures TextBounded(lx, src, entry, h.inFunction) <==> !TextPassesCycle(lx, src, entry, h.inFunction)
  {
    hide TextPath, TextOnCycle, WalkBetween, GraphOf, InsideLoop, AccessSites, StatementOf, OnCycle;
    var k, at :| 0 <= k < |src| && ReportsSite(lx, src, histories, entry, h, src[k], at);
    var g, f := GraphOf(lx, src, histories), h.inFunction;
    BoundedExactly(g, entry, f);
    forall p ensures WalkBetween(g, entry, f, p) <==> TextPath(lx, src, entry, f, p) {
      WalksMeanPaths(lx, src, histories, entry, f, p);
    }
    forall v ensures OnCycle(g, v) <==> TextOnCycle(lx, src, v) {
      ContextsAgree(lx, src, histories, entry, v);
    }
    SameBounds(lx, src, histories, entry, f);
    assert PassesCycle(g, entry, f) <==> TextPassesCycle(lx, src, entry, f);
  }

  lemma SameBounds(lx: Lexis, src: Source, histories: seq<string>, u: Name, v: Name)
    requires Named(src, histories)
    requires forall p :: WalkBetween(GraphOf(lx, src, histories), u, v, p) <==> TextPath(lx, src, u, v, p)
    ensures BoundedWalks(GraphOf(lx, src, histories), u, v) <==> TextBounded(lx, src, u, v)
  {
    hide TextPath, WalkBetween, GraphOf;
    forall n: nat
      ensures WalksWithin(GraphOf(lx, src, histories), u, v, n) <==> TextPathsWithin(lx, src, u, v, n)
    {
    }
  }
}
