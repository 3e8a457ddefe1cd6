/**
The evidence gate's reachability search: a work list that also propagates loop taint and
re-queues a function when its taint arrives late, and the cycle check run on its result.
*/
module GateSearch {
  import opened CallGraph

  /** The four lists the search keeps; `paths` has one entry per function seen. */
  datatype Search = Search(queue: seq<Name>, seen: seq<Name>, tainted: seq<Name>, paths: map<Name, seq<Name>>)

  function Enqueue(queue: seq<Name>, v: Name): seq<Name> {
    if v in queue then queue else queue + [v]
  }

  /** What one call edge contributes: taint first, discovery second. */
  function Note(st: Search, path: seq<Name>, callee: Name, calledInLoop: bool): Search {
    var st1 :=
      if calledInLoop && callee !in st.tainted
      then st.(tainted := st.tainted + [callee], queue := Enqueue(st.queue, callee)) else st;
    if callee in st1.seen then st1
    else st1.(seen := st1.seen + [callee], paths := st1.paths[callee := path + [callee]], queue := Enqueue(st1.queue, callee))
  }

  // ---------- the search invariant ----------

  /** Seen, but its calls have not been followed yet. */
  ghost predicate Pending(st: Search, visited: set<Name>, busy: set<Name>, v: Name) {
    v in st.seen && v !in visited && v !in busy
  }

  ghost predicate Shape(g: Graph, entry: Name, st: Search, visited: set<Name>, busy: set<Name>) {
    && NoDuplicates(st.queue) && NoDuplicates(st.seen) && NoDuplicates(st.tainted)
    && entry in st.seen
    && (forall v :: v in st.paths <==> v in st.seen)
    && (forall v :: v in st.seen ==> v == entry || Defined(g, v))
    && (forall v :: v in st.queue ==> v in st.seen)
    && (forall v :: v in st.tainted ==> v in st.seen)
    && (forall v :: v in visited || v in busy ==> v in st.seen)
    && (forall v :: Pending(st, visited, busy, v) ==> v in st.queue)
  }

  ghost predicate Sound(g: Graph, entry: Name, st: Search)
    requires forall v :: v in st.seen ==> v in st.paths
  {
    && (forall v :: v in st.seen ==> WalkBetween(g, entry, v, st.paths[v]))
    && (forall v :: v in st.tainted ==> LoopReachable(g, entry, v))
  }

  /** Breadth-first order of first visits: what is pending sits in the queue by path length. */
  ghost predicate Ordered(st: Search, visited: set<Name>, busy: set<Name>)
    requires forall v :: v in st.seen ==> v in st.paths
    requires forall v :: v in st.queue ==> v in st.seen
  {
    && (forall i, j :: 0 <= i < j < |st.queue| && Pending(st, visited, busy, st.queue[i]) && Pending(st, visited, busy, st.queue[j]) ==>
          |st.paths[st.queue[i]]| <= |st.paths[st.queue[j]]|)
    && (forall v, w :: v in st.seen && Pending(st, visited, busy, w) ==> |st.paths[v]| <= |st.paths[w]| + 1)
  }

  /** Calls of a visited function lead to functions already seen, one step further at most. */
  ghost predicate Followed(g: Graph, st: Search, visited: set<Name>)
    requires forall v :: v in st.seen <==> v in st.paths
  {
    forall u, v :: u in visited && u in st.seen && Edge(g, u, v) ==>
      v in st.seen && |st.paths[v]| <= |st.paths[u]| + 1
  }

  /** Taint has passed through every function that is not waiting to be looked at again. */
  ghost predicate Propagated(g: Graph, st: Search, busy: set<Name>) {
    forall u, v :: u in st.seen && u !in st.queue && u !in busy && Edge(g, u, v) && (LoopEdge(g, u, v) || u in st.tainted) ==>
      v in st.tainted
  }

  ghost predicate SearchInv(g: Graph, entry: Name, st: Search, visited: set<Name>, busy: set<Name>) {
    && Shape(g, entry, st, visited, busy)
    && Sound(g, entry, st)
    && Ordered(st, visited, busy)
    && Followed(g, st, visited)
    && Propagated(g, st, busy)
  }

  /** While `cur` is being looked at for the first time, nothing pending is nearer than it. */
  ghost predicate Nearest(st: Search, visited: set<Name>, cur: Name)
    requires forall v :: v in st.seen ==> v in st.paths
  {
    cur in st.seen && (cur !in visited ==>
      && (forall v :: v in st.seen ==> |st.paths[v]| <= |st.paths[cur]| + 1)
      && (forall w :: Pending(st, visited, {cur}, w) ==> |st.paths[cur]| <= |st.paths[w]|))
  }

  /** A later search state of the same visit. */
  ghost predicate Grows(st: Search, st': Search) {
    && st.queue <= st'.queue && st.seen <= st'.seen && st.tainted <= st'.tainted
    && (forall v :: v in st.paths ==> v in st'.paths && st'.paths[v] == st.paths[v])
    && (|st'.seen| == |st.seen| && |st'.tainted| == |st.tainted| ==> st'.queue == st.queue)
    && (forall v :: v in st'.tainted && v !in st.tainted ==> v in st'.queue)
  }

  /** The search state while the calls of `cur` are followed. */
  ghost predicate Visiting(g: Graph, entry: Name, st: Search, visited: set<Name>, cur: Name) {
    && SearchInv(g, entry, st, visited, {cur})
    && Nearest(st, visited, cur)
  }

  /** What following one call of `cur` has to achieve. */
  ghost predicate CallNoted(st: Search, cur: Name, callee: Name, calledInLoop: bool) {
    && callee in st.seen && callee in st.paths && cur in st.paths
    && |st.paths[callee]| <= |st.paths[cur]| + 1
    && (calledInLoop ==> callee in st.tainted)
  }

  lemma NoteShape(g: Graph, entry: Name, st: Search, visited: set<Name>, cur: Name, callee: Name, calledInLoop: bool)
    requires Shape(g, entry, st, visited, {cur}) && Defined(g, callee) && cur in st.seen
    ensures
      var st' := Note(st, st.paths[cur], callee, calledInLoop);
      Shape(g, entry, st', visited, {cur}) && Grows(st, st')
  {
    if callee in st.seen {
      NoteShapeKnown(g, entry, st, visited, cur, callee, calledInLoop);
    } else {
      NoteShapeNew(g, entry, st, visited, cur, callee, calledInLoop);
    }
  }

  lemma NoteShapeKnown(g: Graph, entry: Name, st: Search, visited: set<Name>, cur: Name, callee: Name, calledInLoop: bool)
    requires Shape(g, entry, st, visited, {cur}) && cur in st.seen && callee in st.seen
    ensures
      var st' := Note(st, st.paths[cur], callee, calledInLoop);
      Shape(g, entry, st', visited, {cur}) && Grows(st, st')
  {
    if calledInLoop && callee !in st.tainted {
      if callee !in st.queue {
        NoDuplicatesAppend(st.queue, callee);
      }
      NoDuplicatesAppend(st.tainted, callee);
    }
  }

  lemma NoteShapeNew(g: Graph, entry: Name, st: Search, visited: set<Name>, cur: Name, callee: Name, calledInLoop: bool)
    requires Shape(g, entry, st, visited, {cur}) && cur in st.seen
    requires Defined(g, callee) && callee !in st.seen
    ensures
      var st' := Note(st, st.paths[cur], callee, calledInLoop);
      Shape(g, entry, st', visited, {cur}) && Grows(st, st')
  {
    NoDuplicatesAppend(st.queue, callee);
    NoDuplicatesAppend(st.seen, callee);
    NoDuplicatesAppend(st.tainted, callee);
  }

  lemma NoDuplicatesAppend(s: seq<Name>, v: Name)
    requires NoDuplicates(s) && v !in s
    ensures NoDuplicates(s + [v])
  {
  }

  lemma NoteKeeps(g: Graph, entry: Name, st: Search, visited: set<Name>, cur: Name, callee: Name, calledInLoop: bool)
    requires Visiting(g, entry, st, visited, cur)
    requires Edge(g, cur, callee)
    requires calledInLoop ==> cur in st.tainted || LoopEdge(g, cur, callee)
    ensures
      var st' := Note(st, st.paths[cur], callee, calledInLoop);
      && Visiting(g, entry, st', visited, cur) && Grows(st, st')
      && CallNoted(st', cur, callee, calledInLoop)
  {
    NoteShape(g, entry, st, visited, cur, callee, calledInLoop);
    NoteSound(g, entry, st, cur, callee, calledInLoop);
    NoteOrdered(g, entry, st, visited, cur, callee, calledInLoop);
    NotePropagated(g, entry, st, visited, cur, callee, calledInLoop);
  }

  lemma NoteSound(g: Graph, entry: Name, st: Search, cur: Name, callee: Name, calledInLoop: bool)
    requires (forall v :: v in st.paths <==> v in st.seen) && cur in st.seen
    requires Sound(g, entry, st) && Edge(g, cur, callee)
    requires calledInLoop ==> cur in st.tainted || LoopEdge(g, cur, callee)
    ensures Sound(g, entry, Note(st, st.paths[cur], callee, calledInLoop))
  {
    ExtendWalk(g, entry, cur, callee, st.paths[cur]);
    if calledInLoop {
      if LoopEdge(g, cur, callee) {
        assert WalkBetween(g, entry, callee, st.paths[cur] + [callee]);
      } else {
        var p :| WalkBetween(g, entry, cur, p) && CrossesLoop(g, p);
        ExtendWalk(g, entry, cur, callee, p);
        assert WalkBetween(g, entry, callee, p + [callee]);
      }
      assert LoopReachable(g, entry, callee);
    }
  }

  lemma NoteOrdered(g: Graph, entry: Name, st: Search, visited: set<Name>, cur: Name, callee: Name, calledInLoop: bool)
    requires Shape(g, entry, st, visited, {cur}) && Ordered(st, visited, {cur}) && Followed(g, st, visited)
    requires Nearest(st, visited, cur) && Edge(g, cur, callee)
    ensures
      var st' := Note(st, st.paths[cur], callee, calledInLoop);
      && Shape(g, entry, st', visited, {cur}) && Ordered(st', visited, {cur}) && Followed(g, st', visited)
      && Nearest(st', visited, cur) && CallNoted(st', cur, callee, calledInLoop)
  {
    NoteShape(g, entry, st, visited, cur, callee, calledInLoop);
    var st' := Note(st, st.paths[cur], callee, calledInLoop);
    if callee in st.seen {
      NoteKnown(st, st', visited, cur);
    } else {
      assert cur !in visited;
      NoteNew(st, st', visited, cur, callee);
    }
  }

  /** A call to a function already seen can only put it in the queue again; nothing pending moves. */
  lemma NoteKnown(st: Search, st': Search, visited: set<Name>, cur: Name)
    requires st'.seen == st.seen && st'.paths == st.paths
    requires forall v :: v in st.paths <==> v in st.seen
    requires forall v :: v in st'.queue ==> v in st.seen
    requires st.queue <= st'.queue && NoDuplicates(st'.queue)
    requires forall v :: Pending(st, visited, {cur}, v) ==> v in st.queue
    requires Ordered(st, visited, {cur})
    ensures Ordered(st', visited, {cur})
  {
    forall i, j | 0 <= i < j < |st'.queue| && Pending(st', visited, {cur}, st'.queue[i]) && Pending(st', visited, {cur}, st'.queue[j])
      ensures |st'.paths[st'.queue[i]]| <= |st'.paths[st'.queue[j]]|
    {
      assert Pending(st, visited, {cur}, st'.queue[i]) && Pending(st, visited, {cur}, st'.queue[j]);
    }
    forall v, w | v in st'.seen && Pending(st', visited, {cur}, w) ensures |st'.paths[v]| <= |st'.paths[w]| + 1 {
      assert Pending(st, visited, {cur}, w);
    }
  }

  /** A newly seen function joins the end of the queue, one step beyond the nearest. */
  lemma NoteNew(st: Search, st': Search, visited: set<Name>, cur: Name, callee: Name)
    requires forall v :: v in st.paths <==> v in st.seen
    requires callee !in st.seen && Nearest(st, visited, cur) && cur !in visited
    requires st'.seen == st.seen + [callee] && st'.queue == st.queue + [callee]
    requires st'.paths == st.paths[callee := st.paths[cur] + [callee]]
    requires forall v :: v in st.queue ==> v in st.seen
    requires Ordered(st, visited, {cur})
    ensures Ordered(st', visited, {cur}) && Nearest(st', visited, cur)
  {
    forall v | Pending(st', visited, {cur}, v) ensures v == callee || Pending(st, visited, {cur}, v) {
    }
    forall i, j | 0 <= i < j < |st'.queue| && Pending(st', visited, {cur}, st'.queue[i]) && Pending(st', visited, {cur}, st'.queue[j])
      ensures |st'.paths[st'.queue[i]]| <= |st'.paths[st'.queue[j]]|
    {
      assert st.queue[i] in st.seen && Pending(st, visited, {cur}, st.queue[i]);
    }
  }

  lemma NotePropagated(g: Graph, entry: Name, st: Search, visited: set<Name>, cur: Name, callee: Name, calledInLoop: bool)
    requires Shape(g, entry, st, visited, {cur}) && Propagated(g, st, {cur})
    ensures cur in st.paths ==> Propagated(g, Note(st, st.paths[cur], callee, calledInLoop), {cur})
  {
  }

  // ---------- visiting one function ----------

  /** Every call of definition `k` of `cur` to one of the first `n` listed functions has been noted. */
  ghost predicate CallsNoted(g: Graph, st: Search, cur: Name, curTainted: bool, k: nat, n: nat)
    requires k < |g| && n <= |g|
  {
    forall j :: 0 <= j < n && g[j].name in g[k].calls ==>
      CallNoted(st, cur, g[j].name, curTainted || g[k].calls[g[j].name])
  }

  ghost predicate SpansNoted(g: Graph, st: Search, cur: Name, curTainted: bool, m: nat)
    requires m <= |g|
  {
    forall k :: 0 <= k < m && g[k].name == cur ==> CallsNoted(g, st, cur, curTainted, k, |g|)
  }

  lemma NotedStays(g: Graph, st: Search, st': Search, cur: Name, curTainted: bool, k: nat, n: nat)
    requires k < |g| && n <= |g| && Grows(st, st') && CallsNoted(g, st, cur, curTainted, k, n)
    ensures CallsNoted(g, st', cur, curTainted, k, n)
  {
    forall j | 0 <= j < n && g[j].name in g[k].calls
      ensures CallNoted(st', cur, g[j].name, curTainted || g[k].calls[g[j].name])
    {
      assert CallNoted(st, cur, g[j].name, curTainted || g[k].calls[g[j].name]);
    }
  }

  lemma GrowsTransitive(a: Search, b: Search, c: Search)
    requires Grows(a, b) && Grows(b, c)
    ensures Grows(a, c)
  {
  }

  lemma CurHasPath(g: Graph, entry: Name, st: Search, visited: set<Name>, cur: Name)
    requires Visiting(g, entry, st, visited, cur)
    ensures cur in st.paths
  {
  }

  /** One call of one definition, followed. */
  lemma CallFollowed(g: Graph, entry: Name, st: Search, visited: set<Name>, cur: Name, curTainted: bool, k: nat, j: nat)
    requires k < |g| && j < |g| && g[k].name == cur && g[j].name in g[k].calls
    requires Visiting(g, entry, st, visited, cur) && (curTainted ==> cur in st.tainted)
    requires CallsNoted(g, st, cur, curTainted, k, j)
    ensures
      var st' := Note(st, st.paths[cur], g[j].name, curTainted || g[k].calls[g[j].name]);
      && Visiting(g, entry, st', visited, cur) && Grows(st, st')
      && CallsNoted(g, st', cur, curTainted, k, j + 1)
  {
    hide Shape, Sound, Ordered, Followed, Propagated, Nearest, CallNoted, Note, Grows;
    CurHasPath(g, entry, st, visited, cur);
    var calledInLoop := curTainted || g[k].calls[g[j].name];
    assert Defined(g, g[j].name) && Edge(g, cur, g[j].name);
    NoteKeeps(g, entry, st, visited, cur, g[j].name, calledInLoop);
    NotedStays(g, st, Note(st, st.paths[cur], g[j].name, calledInLoop), cur, curTainted, k, j);
  }

  method VisitSpan(g: Graph, ghost entry: Name, st0: Search, ghost visited: set<Name>, cur: Name, curTainted: bool, k: nat)
    returns (st: Search)
    requires k < |g| && g[k].name == cur
    requires Visiting(g, entry, st0, visited, cur) && (curTainted ==> cur in st0.tainted)
    ensures Visiting(g, entry, st, visited, cur) && Grows(st0, st)
    ensures CallsNoted(g, st, cur, curTainted, k, |g|)
  {
    hide SearchInv, Nearest, CallNoted, Note;
    CurHasPath(g, entry, st0, visited, cur);
    st := st0;
    var path := st.paths[cur];
    var j := 0;
    while j < |g|
      invariant 0 <= j <= |g|
      invariant Visiting(g, entry, st, visited, cur) && Grows(st0, st)
      invariant CallsNoted(g, st, cur, curTainted, k, j)
    {
      var callee := g[j].name;
      if callee in g[k].calls {
        CallFollowed(g, entry, st, visited, cur, curTainted, k, j);
        ghost var before := st;
        st := Note(st, path, callee, curTainted || g[k].calls[callee]);
        GrowsTransitive(st0, before, st);
      }
      j := j + 1;
    }
  }

  /** Once all calls of `cur` are noted, `cur` counts as visited. */
  lemma VisitDone(g: Graph, entry: Name, st: Search, visited: set<Name>, cur: Name, curTainted: bool)
    requires Visiting(g, entry, st, visited, cur)
    requires SpansNoted(g, st, cur, curTainted, |g|)
    requires cur in st.tainted && !curTainted ==> cur in st.queue
    ensures SearchInv(g, entry, st, visited + {cur}, {})
  {
    forall v | Edge(g, cur, v)
      ensures CallNoted(st, cur, v, curTainted) && (LoopEdge(g, cur, v) ==> v in st.tainted)
    {
      EdgeNoted(g, st, cur, curTainted, v);
    }
    assert forall v :: Pending(st, visited + {cur}, {}, v) <==> Pending(st, visited, {cur}, v);
    assert Shape(g, entry, st, visited + {cur}, {});
    assert Ordered(st, visited + {cur}, {});
    assert Followed(g, st, visited + {cur});
    assert Propagated(g, st, {});
  }

  lemma EdgeNoted(g: Graph, st: Search, cur: Name, curTainted: bool, v: Name)
    requires SpansNoted(g, st, cur, curTainted, |g|) && Edge(g, cur, v)
    ensures CallNoted(st, cur, v, curTainted) && (LoopEdge(g, cur, v) ==> v in st.tainted)
  {
    var j :| 0 <= j < |g| && g[j].name == v;
    var k :| 0 <= k < |g| && g[k].name == cur && v in g[k].calls;
    assert CallsNoted(g, st, cur, curTainted, k, |g|);
    assert CallNoted(st, cur, g[j].name, curTainted || g[k].calls[g[j].name]);
    if LoopEdge(g, cur, v) {
      var m :| 0 <= m < |g| && g[m].name == cur && v in g[m].calls && g[m].calls[v];
      assert CallsNoted(g, st, cur, curTainted, m, |g|);
      assert CallNoted(st, cur, g[j].name, curTainted || g[m].calls[g[j].name]);
    }
  }

  method Visit(g: Graph, ghost entry: Name, st0: Search, ghost visited: set<Name>, cur: Name) returns (st: Search)
    requires Visiting(g, entry, st0, visited, cur) && cur !in st0.queue
    ensures Grows(st0, st)
    ensures SearchInv(g, entry, st, visited + {cur}, {})
  {
    hide Shape, Sound, Ordered, Followed, Propagated, Nearest, CallsNoted;
    st := st0;
    var curTainted := cur in st.tainted;
    var k := 0;
    while k < |g|
      invariant 0 <= k <= |g|
      invariant Visiting(g, entry, st, visited, cur) && Grows(st0, st)
      invariant SpansNoted(g, st, cur, curTainted, k)
    {
      if g[k].name == cur {
        ghost var before := st;
        st := VisitSpan(g, entry, st, visited, cur, curTainted, k);
        forall m | 0 <= m < k && g[m].name == cur ensures CallsNoted(g, st, cur, curTainted, m, |g|) {
          NotedStays(g, before, st, cur, curTainted, m, |g|);
        }
      }
      k := k + 1;
    }
    VisitDone(g, entry, st, visited, cur, curTainted);
  }

  // ---------- the whole search ----------

  /** What the finished search has established. */
  ghost predicate Exact(g: Graph, entry: Name, st: Search) {
    && NoDuplicates(st.seen)
    && (forall v :: v in st.seen <==> Reachable(g, entry, v))
    && (forall v :: v in st.tainted <==> LoopReachable(g, entry, v))
    && (forall v :: v in st.paths <==> v in st.seen)
    && (forall v :: v in st.seen ==> ShortestPath(g, entry, v, st.paths[v]))
  }

  /** Following any walk from the entry stays inside what was seen, never farther than its length. */
  lemma {:induction false} WalkFollowed(g: Graph, entry: Name, st: Search, visited: set<Name>, v: Name, p: seq<Name>)
    requires SearchInv(g, entry, st, visited, {}) && st.queue == []
    requires WalkBetween(g, entry, v, p) && |st.paths[entry]| == 1
    ensures v in st.seen && |st.paths[v]| <= |p|
    ensures CrossesLoop(g, p) ==> v in st.tainted
    decreases |p|
  {
    if |p| >= 2 {
      var u := p[|p| - 2];
      DropLast(g, entry, v, p);
      WalkFollowed(g, entry, st, visited, u, p[..|p| - 1]);
      assert u in visited by {
        assert !Pending(st, visited, {}, u);
      }
    }
  }

  lemma SearchDone(g: Graph, entry: Name, st: Search, visited: set<Name>)
    requires SearchInv(g, entry, st, visited, {}) && st.queue == [] && |st.paths[entry]| == 1
    ensures Exact(g, entry, st)
  {
    forall v, p | WalkBetween(g, entry, v, p)
      ensures v in st.seen && |st.paths[v]| <= |p| && (CrossesLoop(g, p) ==> v in st.tainted)
    {
      WalkFollowed(g, entry, st, visited, v, p);
    }
    forall v | v in st.seen ensures Reachable(g, entry, v) && ShortestPath(g, entry, v, st.paths[v]) {
      assert WalkBetween(g, entry, v, st.paths[v]);
    }
  }

  /** Taking the next function off the queue. */
  lemma Popped(g: Graph, entry: Name, st: Search, visited: set<Name>)
    requires SearchInv(g, entry, st, visited, {}) && st.queue != []
    ensures
      var cur := st.queue[0];
      var st' := st.(queue := st.queue[1..]);
      Visiting(g, entry, st', visited, cur) && cur !in st'.queue
  {
    var cur := st.queue[0];
    var st' := st.(queue := st.queue[1..]);
    PoppedShape(g, entry, st, visited);
    PoppedOrdered(st, visited);
    assert Propagated(g, st', {cur});
  }

  lemma PoppedShape(g: Graph, entry: Name, st: Search, visited: set<Name>)
    requires Shape(g, entry, st, visited, {}) && st.queue != []
    ensures Shape(g, entry, st.(queue := st.queue[1..]), visited, {st.queue[0]})
    ensures st.queue[0] !in st.queue[1..]
  {
    var cur, rest := st.queue[0], st.queue[1..];
    var st' := st.(queue := rest);
    assert forall v :: v in st.queue <==> v == cur || v in rest;
    forall v | Pending(st', visited, {cur}, v) ensures v in rest {
      assert Pending(st, visited, {}, v);
    }
  }

  lemma PoppedOrdered(st: Search, visited: set<Name>)
    requires st.queue != [] && NoDuplicates(st.queue)
    requires forall v :: v in st.paths <==> v in st.seen
    requires forall v :: v in st.queue ==> v in st.seen
    requires forall v :: Pending(st, visited, {}, v) ==> v in st.queue
    requires Ordered(st, visited, {})
    ensures forall v :: v in st.queue[1..] ==> v in st.seen
    ensures Ordered(st.(queue := st.queue[1..]), visited, {st.queue[0]})
    ensures Nearest(st.(queue := st.queue[1..]), visited, st.queue[0])
  {
    var cur, rest := st.queue[0], st.queue[1..];
    var st' := st.(queue := rest);
    assert forall v :: v in rest ==> v in st.queue;
    forall w | Pending(st', visited, {cur}, w) ensures Pending(st, visited, {}, w) {
    }
    if cur !in visited {
      assert Pending(st, visited, {}, cur);
      forall w | Pending(st', visited, {cur}, w) ensures |st.paths[cur]| <= |st.paths[w]| {
        assert Pending(st, visited, {}, w) && w in st.queue;
        var i :| 0 <= i < |st.queue| && st.queue[i] == w;
        assert i != 0;
      }
    }
    forall i, j | 0 <= i < j < |rest| && Pending(st', visited, {cur}, rest[i]) && Pending(st', visited, {cur}, rest[j])
      ensures |st.paths[rest[i]]| <= |st.paths[rest[j]]|
    {
      assert rest[i] == st.queue[i + 1] && rest[j] == st.queue[j + 1];
    }
  }

  ghost function Universe(g: Graph, entry: Name): set<Name> {
    {entry} + set k | 0 <= k < |g| :: g[k].name
  }

  /** Each list of distinct functions is bounded, which is what makes re-queuing stop. */
  lemma ListsBounded(g: Graph, entry: Name, st: Search, visited: set<Name>, busy: set<Name>)
    requires Shape(g, entry, st, visited, busy)
    ensures |st.seen| <= |Universe(g, entry)| && |st.tainted| <= |Universe(g, entry)|
  {
    forall v | v in st.seen ensures v in Universe(g, entry) {
    }
    DistinctFit(st.seen, Universe(g, entry));
    DistinctFit(st.tainted, Universe(g, entry));
  }

  lemma StartInv(g: Graph, entry: Name)
    ensures SearchInv(g, entry, Search([entry], [entry], [], map[entry := [entry]]), {}, {})
  {
    assert WalkBetween(g, entry, entry, [entry]);
  }

  /**
  The work list terminates and is exact: it sees precisely the functions reachable from the entry,
  taints precisely those on some path that crosses an in-loop call, and records for each function a
  shortest call path.
  */
  method Explore(g: Graph, entry: Name) returns (st: Search)
    ensures Exact(g, entry, st)
  {
    hide Shape, Sound, Ordered, Followed, Propagated, Nearest, Exact;
    st := Search([entry], [entry], [], map[entry := [entry]]);
    ghost var visited: set<Name> := {};
    StartInv(g, entry);
    ListsBounded(g, entry, st, visited, {});
    while st.queue != []
      invariant SearchInv(g, entry, st, visited, {})
      invariant entry in st.paths && st.paths[entry] == [entry]
      decreases 2 * |Universe(g, entry)| - |st.seen| - |st.tainted|, |st.queue|
    {
      var cur := st.queue[0];
      Popped(g, entry, st, visited);
      st := Visit(g, entry, st.(queue := st.queue[1..]), visited, cur);
      visited := visited + {cur};
      ListsBounded(g, entry, st, visited, {});
    }
    SearchDone(g, entry, st, visited);
  }
}
