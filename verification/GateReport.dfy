/**
The rest of the evidence gate: which reachable functions can call themselves, and the tag each
access to a permanent history map is reported with.
*/
module GateReport {
  import opened CallGraph
  import opened GateSearch

  // ---------- cycle check ----------

  ghost predicate ClosedUnderCalls(g: Graph, seen: seq<Name>) {
    forall u, v :: u in seen && Edge(g, u, v) ==> v in seen
  }

  ghost predicate CycleInv(g: Graph, seen: seq<Name>, start: Name, q: seq<Name>, visited: seq<Name>) {
    && NoDuplicates(visited)
    && (forall v :: v in visited ==> v in seen && v != start && Reachable(g, start, v))
    && (forall v :: v in q ==> v == start || v in visited)
  }

  /** Calls of `u` lead to visited functions and not back to the start. */
  ghost predicate LeadsAway(g: Graph, start: Name, visited: seq<Name>, u: Name) {
    forall v :: Edge(g, u, v) ==> v != start && v in visited
  }

  ghost predicate AllLeadAway(g: Graph, start: Name, q: seq<Name>, visited: seq<Name>, busy: set<Name>) {
    forall u :: (u == start || u in visited) && u !in q && u !in busy ==> LeadsAway(g, start, visited, u)
  }

  lemma {:induction false} NeverBack(g: Graph, start: Name, visited: seq<Name>, v: Name, p: seq<Name>)
    requires AllLeadAway(g, start, [], visited, {})
    requires WalkBetween(g, start, v, p) && |p| >= 2
    ensures v in visited && v != start
    decreases |p|
  {
    var u := p[|p| - 2];
    DropLast(g, start, v, p);
    if |p| > 2 {
      NeverBack(g, start, visited, u, p[..|p| - 1]);
    }
    assert LeadsAway(g, start, visited, u);
  }

  /** The calls of definition `k` to the first `n` listed functions are all accounted for. */
  ghost predicate CheckedTo(g: Graph, start: Name, visited: seq<Name>, k: nat, n: nat)
    requires k < |g| && n <= |g|
  {
    forall j :: 0 <= j < n && g[j].name in g[k].calls ==> g[j].name != start && g[j].name in visited
  }

  method CheckSpan(g: Graph, seen: seq<Name>, start: Name, cur: Name, k: nat, q0: seq<Name>, visited0: seq<Name>)
    returns (found: bool, q: seq<Name>, visited: seq<Name>)
    requires ClosedUnderCalls(g, seen) && cur in seen && Reachable(g, start, cur)
    requires k < |g| && g[k].name == cur
    requires CycleInv(g, seen, start, q0, visited0) && AllLeadAway(g, start, q0, visited0, {cur})
    ensures found ==> OnCycle(g, start)
    ensures CycleInv(g, seen, start, q, visited) && q0 <= q && visited0 <= visited
    ensures |visited| == |visited0| ==> q == q0
    ensures !found ==> AllLeadAway(g, start, q, visited, {cur}) && CheckedTo(g, start, visited, k, |g|)
  {
    q, visited, found := q0, visited0, false;
    var j := 0;
    while j < |g|
      invariant 0 <= j <= |g|
      invariant CycleInv(g, seen, start, q, visited) && q0 <= q && visited0 <= visited
      invariant |visited| == |visited0| ==> q == q0
      invariant AllLeadAway(g, start, q, visited, {cur}) && CheckedTo(g, start, visited, k, j)
    {
      var callee := g[j].name;
      if callee in g[k].calls {
        assert Defined(g, callee) && Edge(g, cur, callee);
        ghost var p :| WalkBetween(g, start, cur, p);
        ExtendWalk(g, start, cur, callee, p);
        if callee == start {
          assert |p + [callee]| >= 2;
          return true, q, visited;
        }
        if callee !in visited && callee in seen {
          visited := visited + [callee];
          q := q + [callee];
        }
      }
      j := j + 1;
    }
  }

  method CheckCalls(g: Graph, seen: seq<Name>, start: Name, cur: Name, q0: seq<Name>, visited0: seq<Name>)
    returns (found: bool, q: seq<Name>, visited: seq<Name>)
    requires ClosedUnderCalls(g, seen) && cur in seen && Reachable(g, start, cur)
    requires CycleInv(g, seen, start, q0, visited0) && AllLeadAway(g, start, q0, visited0, {cur})
    ensures found ==> OnCycle(g, start)
    ensures CycleInv(g, seen, start, q, visited) && q0 <= q && visited0 <= visited
    ensures |visited| == |visited0| ==> q == q0
    ensures !found ==> AllLeadAway(g, start, q, visited, {})
  {
    hide CycleInv, AllLeadAway;
    q, visited, found := q0, visited0, false;
    var k := 0;
    while k < |g|
      invariant 0 <= k <= |g|
      invariant CycleInv(g, seen, start, q, visited) && q0 <= q && visited0 <= visited
      invariant |visited| == |visited0| ==> q == q0
      invariant AllLeadAway(g, start, q, visited, {cur})
      invariant forall m :: 0 <= m < k && g[m].name == cur ==> CheckedTo(g, start, visited, m, |g|)
    {
      if g[k].name == cur {
        ghost var before := visited;
        found, q, visited := CheckSpan(g, seen, start, cur, k, q, visited);
        if found {
          return;
        }
        assert forall v :: v in before ==> v in visited;
      }
      k := k + 1;
    }
    CheckedAll(g, start, cur, q, visited);
  }

  lemma CheckedAll(g: Graph, start: Name, cur: Name, q: seq<Name>, visited: seq<Name>)
    requires AllLeadAway(g, start, q, visited, {cur})
    requires forall m :: 0 <= m < |g| && g[m].name == cur ==> CheckedTo(g, start, visited, m, |g|)
    ensures AllLeadAway(g, start, q, visited, {})
  {
    forall v | Edge(g, cur, v) ensures v != start && v in visited {
      var j :| 0 <= j < |g| && g[j].name == v;
      var m :| 0 <= m < |g| && g[m].name == cur && v in g[m].calls;
      assert CheckedTo(g, start, visited, m, |g|);
    }
    assert LeadsAway(g, start, visited, cur);
  }

  /** The recursion flag holds exactly on call cycles. */
  method ReachesSelf(g: Graph, seen: seq<Name>, start: Name) returns (recursive: bool)
    requires ClosedUnderCalls(g, seen) && start in seen && NoDuplicates(seen)
    ensures recursive <==> OnCycle(g, start)
  {
    var q, visited := [start], [];
    assert WalkBetween(g, start, start, [start]);
    VisitedBounded(seen, visited);
    while q != []
      invariant CycleInv(g, seen, start, q, visited) && AllLeadAway(g, start, q, visited, {})
      invariant |visited| <= |seen|
      decreases |seen| - |visited|, |q|
    {
      var cur := q[|q| - 1];
      q := q[..|q| - 1];
      assert cur == start || cur in visited;
      var found: bool;
      found, q, visited := CheckCalls(g, seen, start, cur, q, visited);
      if found {
        return true;
      }
      VisitedBounded(seen, visited);
    }
    forall p | |p| >= 2 && WalkBetween(g, start, start, p) ensures false {
      NeverBack(g, start, visited, start, p);
    }
    recursive := false;
  }

  lemma VisitedBounded(seen: seq<Name>, visited: seq<Name>)
    requires NoDuplicates(seen) && NoDuplicates(visited) && forall v :: v in visited ==> v in seen
    ensures |visited| <= |seen|
  {
    var all := set v | v in seen;
    DistinctFit(visited, all);
    SetOfSeqSize(seen);
  }

  lemma {:induction false} SetOfSeqSize(s: seq<Name>)
    ensures |set v | v in s| <= |s|
  {
    if s != [] {
      var init, last := s[..|s| - 1], s[|s| - 1];
      SetOfSeqSize(init);
      assert (set v | v in s) == (set v | v in init) + {last};
    }
  }

  // ---------- the report ----------

  datatype HistoryAccessContext = PointRead | InLoop | InLoopViaCaller | InRecursiveCycle

  datatype HistoryAccess = HistoryAccess(
    inFunction: Name, history: string, context: HistoryAccessContext, statement: string, path: seq<Name>)

  /** The tag an access deserves, stated on call paths alone. */
  ghost function ContextOf(g: Graph, entry: Name, f: Name, a: Access): HistoryAccessContext {
    if OnCycle(g, f) then InRecursiveCycle
    else if a.inLoop then InLoop
    else if LoopReachable(g, entry, f) then InLoopViaCaller
    else PointRead
  }

  ghost predicate Justified(g: Graph, entry: Name, h: HistoryAccess) {
    exists k, i :: 0 <= k < |g| && 0 <= i < |g[k].accesses| && Reports(g, entry, h, k, i)
  }

  /** Entry `h` of the report is access `i` of definition `k`, correctly tagged, with a shortest path to it. */
  ghost predicate Reports(g: Graph, entry: Name, h: HistoryAccess, k: nat, i: nat)
    requires k < |g| && i < |g[k].accesses|
  {
    && h.inFunction == g[k].name && h.history == g[k].accesses[i].history
    && h.statement == g[k].accesses[i].statement
    && h.context == ContextOf(g, entry, g[k].name, g[k].accesses[i])
    && ShortestPath(g, entry, g[k].name, h.path)
  }

  ghost predicate Covered(g: Graph, entry: Name, out: seq<HistoryAccess>, k: nat)
    requires k < |g|
  {
    forall i :: 0 <= i < |g[k].accesses| ==> Reported(g, entry, out, k, i)
  }

  ghost predicate Reported(g: Graph, entry: Name, out: seq<HistoryAccess>, k: nat, i: nat)
    requires k < |g| && i < |g[k].accesses|
  {
    exists h :: h in out && Reports(g, entry, h, k, i)
  }

  ghost predicate AllJustified(g: Graph, entry: Name, out: seq<HistoryAccess>) {
    forall h :: h in out ==> Justified(g, entry, h)
  }

  lemma ReportAdded(g: Graph, entry: Name, out: seq<HistoryAccess>, h: HistoryAccess, k: nat, i: nat)
    requires k < |g| && i < |g[k].accesses| && Reports(g, entry, h, k, i)
    requires AllJustified(g, entry, out)
    requires forall m :: 0 <= m < i ==> Reported(g, entry, out, k, m)
    ensures AllJustified(g, entry, out + [h])
    ensures forall m :: 0 <= m <= i ==> Reported(g, entry, out + [h], k, m)
  {
    assert h in out + [h];
    forall m | 0 <= m < i ensures Reported(g, entry, out + [h], k, m) {
      assert Reported(g, entry, out, k, m);
      var o :| o in out && Reports(g, entry, o, k, m);
      assert o in out + [h];
    }
  }

  method ReportSpan(g: Graph, entry: Name, st: Search, recursive: bool, k: nat, out0: seq<HistoryAccess>)
    returns (out: seq<HistoryAccess>)
    requires k < |g| && Exact(g, entry, st) && g[k].name in st.seen
    requires recursive <==> OnCycle(g, g[k].name)
    requires AllJustified(g, entry, out0)
    ensures out0 <= out && AllJustified(g, entry, out) && Covered(g, entry, out, k)
  {
    hide AllJustified, Reported;
    var f := g[k].name;
    out := out0;
    var i := 0;
    while i < |g[k].accesses|
      invariant 0 <= i <= |g[k].accesses|
      invariant out0 <= out && AllJustified(g, entry, out)
      invariant forall m :: 0 <= m < i ==> Reported(g, entry, out, k, m)
    {
      var a := g[k].accesses[i];
      var context :=
        if recursive then InRecursiveCycle
        else if a.inLoop then InLoop
        else if f in st.tainted then InLoopViaCaller
        else PointRead;
      var h := HistoryAccess(f, a.history, context, a.statement, st.paths[f]);
      assert Reports(g, entry, h, k, i);
      ReportAdded(g, entry, out, h, k, i);
      out := out + [h];
      i := i + 1;
    }
  }

  lemma StillCovered(g: Graph, entry: Name, out: seq<HistoryAccess>, out': seq<HistoryAccess>, k: nat)
    requires k < |g| && out <= out' && Covered(g, entry, out, k)
    ensures Covered(g, entry, out', k)
  {
    forall i | 0 <= i < |g[k].accesses| ensures Reported(g, entry, out', k, i) {
      assert Reported(g, entry, out, k, i);
      var h :| h in out && Reports(g, entry, h, k, i);
      assert h in out';
    }
  }

  method ReportFunction(g: Graph, entry: Name, st: Search, f: Name, out0: seq<HistoryAccess>) returns (out: seq<HistoryAccess>)
    requires Exact(g, entry, st) && f in st.seen && AllJustified(g, entry, out0)
    ensures out0 <= out && AllJustified(g, entry, out)
    ensures forall k :: 0 <= k < |g| && g[k].name == f ==> Covered(g, entry, out, k)
  {
    SeenClosed(g, entry, st);
    var recursive := ReachesSelf(g, st.seen, f);
    out := out0;
    var k := 0;
    while k < |g|
      invariant 0 <= k <= |g|
      invariant out0 <= out && AllJustified(g, entry, out)
      invariant forall m :: 0 <= m < k && g[m].name == f ==> Covered(g, entry, out, m)
    {
      if g[k].name == f {
        ghost var before := out;
        out := ReportSpan(g, entry, st, recursive, k, out);
        forall m | 0 <= m < k && g[m].name == f ensures Covered(g, entry, out, m) {
          StillCovered(g, entry, before, out, m);
        }
      }
      k := k + 1;
    }
  }

  lemma SeenClosed(g: Graph, entry: Name, st: Search)
    requires Exact(g, entry, st)
    ensures ClosedUnderCalls(g, st.seen)
  {
    forall u, v | u in st.seen && Edge(g, u, v) ensures v in st.seen {
      ExtendWalk(g, entry, u, v, st.paths[u]);
      assert WalkBetween(g, entry, v, st.paths[u] + [v]);
    }
  }

  /**
  The gate's report: every access in every definition of every reachable function is reported, only
  such accesses are, and each carries its exact context and a shortest call path.
  */
  method ReachableHistoryAccesses(g: Graph, entry: Name) returns (out: seq<HistoryAccess>)
    ensures AllJustified(g, entry, out)
    ensures forall k :: 0 <= k < |g| && Reachable(g, entry, g[k].name) ==> Covered(g, entry, out, k)
  {
    var st := Explore(g, entry);
    out := [];
    var n := 0;
    while n < |st.seen|
      invariant 0 <= n <= |st.seen|
      invariant AllJustified(g, entry, out)
      invariant forall m, k :: 0 <= m < n && 0 <= k < |g| && g[k].name == st.seen[m] ==> Covered(g, entry, out, k)
    {
      ghost var before := out;
      out := ReportFunction(g, entry, st, st.seen[n], out);
      forall m, k | 0 <= m < n && 0 <= k < |g| && g[k].name == st.seen[m] ensures Covered(g, entry, out, k) {
        StillCovered(g, entry, before, out, k);
      }
      n := n + 1;
    }
  }
}
