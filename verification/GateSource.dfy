/**
The gate from function bodies to report: the call graph and the access tags are computed from the
text with the body scans and the loop-block scanner, and the report is read back against the text.
*/
module GateSource {
  import opened Wrappers
  import opened CallGraph
  import opened GateSearch
  import opened GateReport
  import opened BraceScanner
  import opened BodyScan

  /** One function definition as it stands in the source: its name and its body. */
  datatype Definition = Definition(name: Name, body: string)

  type Source = seq<Definition>

  /** Names are never empty: the definitions' come from a parser, the maps' are constants. */
  predicate Named(src: Source, histories: seq<string>) {
    && (forall k :: 0 <= k < |src| ==> src[k].name != "")
    && (forall m :: 0 <= m < |histories| ==> histories[m] != "")
  }

  function Names(src: Source): set<Name> {
    set k | 0 <= k < |src| :: src[k].name
  }

  // ---------- what the text says ----------

  ghost predicate SiteInLoop(lx: Lexis, body: string, sites: seq<nat>)
    requires WithinBody(body, sites)
  {
    exists i :: 0 <= i < |sites| && InsideLoop(lx.word, body, sites[i])
  }

  /** Definition `d` calls `callee`. */
  predicate Calls(lx: Lexis, d: Definition, callee: Name) {
    callee != "" && CallSites(lx, d.body, callee) != []
  }

  /** Some call site of `callee` in definition `d` lies inside a loop block. */
  ghost predicate CallsInLoop(lx: Lexis, d: Definition, callee: Name) {
    callee != "" && SiteInLoop(lx, d.body, CallSites(lx, d.body, callee))
  }

  /** Some definition of `u` calls the defined function `v`. */
  predicate TextCall(lx: Lexis, src: Source, u: Name, v: Name) {
    v in Names(src) && exists k :: 0 <= k < |src| && src[k].name == u && Calls(lx, src[k], v)
  }

  ghost predicate TextLoopCall(lx: Lexis, src: Source, u: Name, v: Name) {
    v in Names(src) && exists k :: 0 <= k < |src| && src[k].name == u && CallsInLoop(lx, src[k], v)
  }

  /** A call path through the text from `u` to `v`. */
  ghost predicate TextPath(lx: Lexis, src: Source, u: Name, v: Name, p: seq<Name>) {
    && p != [] && p[0] == u && p[|p| - 1] == v
    && forall i :: 0 <= i < |p| - 1 ==> TextCall(lx, src, p[i], p[i + 1])
  }

  // ---------- the graph of a source ----------

  ghost function CallMap(lx: Lexis, src: Source, d: Definition): map<Name, bool> {
    map v | v in Names(src) && Calls(lx, d, v) :: CallsInLoop(lx, d, v)
  }

  ghost function TaggedAccess(lx: Lexis, body: string, history: string, at: nat): Access
    requires at <= |body|
  {
    Access(history, at, InsideLoop(lx.word, body, at), StatementOf(lx, body, at))
  }

  ghost function TaggedAccesses(lx: Lexis, body: string, history: string, sites: seq<nat>): (a: seq<Access>)
    requires WithinBody(body, sites)
    ensures |a| == |sites|
    ensures forall i :: 0 <= i < |sites| ==> a[i] == TaggedAccess(lx, body, history, sites[i])
  {
    seq(|sites|, i requires 0 <= i < |sites| && WithinBody(body, sites) => TaggedAccess(lx, body, history, sites[i]))
  }

  ghost function AllAccesses(lx: Lexis, body: string, histories: seq<string>): seq<Access>
    requires forall m :: 0 <= m < |histories| ==> histories[m] != ""
  {
    if histories == [] then []
    else
      var last := histories[|histories| - 1];
      AllAccesses(lx, body, histories[..|histories| - 1])
      + TaggedAccesses(lx, body, last, AccessSites(lx, body, last))
  }

  ghost function SpanOf(lx: Lexis, src: Source, histories: seq<string>, d: Definition): Span
    requires forall m :: 0 <= m < |histories| ==> histories[m] != ""
  {
    Span(d.name, CallMap(lx, src, d), AllAccesses(lx, d.body, histories))
  }

  ghost function GraphOf(lx: Lexis, src: Source, histories: seq<string>): (g: Graph)
    requires Named(src, histories)
    ensures |g| == |src|
    ensures forall k :: 0 <= k < |src| ==> g[k] == SpanOf(lx, src, histories, src[k])
  {
    seq(|src|, k requires 0 <= k < |src| && Named(src, histories) => SpanOf(lx, src, histories, src[k]))
  }

  // ---------- computing it ----------

  method CallsOf(lx: Lexis, src: Source, d: Definition, marks: seq<Mark>) returns (calls: map<Name, bool>)
    requires forall k :: 0 <= k < |src| ==> src[k].name != ""
    requires MarksOk(lx.word, d.body, |d.body|, marks)
    ensures calls == CallMap(lx, src, d)
  {
    hide MarksOk, InsideLoop, CallSites;
    calls := map[];
    var j := 0;
    while j < |src|
      invariant 0 <= j <= |src|
      invariant calls == map v | v in Names(src[..j]) && Calls(lx, d, v) :: CallsInLoop(lx, d, v)
    {
      assert src[..j + 1] == src[..j] + [src[j]];
      assert Names(src[..j + 1]) == Names(src[..j]) + {src[j].name} by {
        NamesNext(src, j);
      }
      var callee := src[j].name;
      var sites := FindCalls(lx, d.body, callee);
      if sites != [] {
        var inLoop := AnySiteInLoop(lx.word, d.body, marks, sites);
        calls := calls[callee := inLoop];
      }
      j := j + 1;
    }
    assert src[..j] == src;
  }

  lemma NamesNext(src: Source, j: nat)
    requires j < |src|
    ensures Names(src[..j + 1]) == Names(src[..j]) + {src[j].name}
  {
    var next := src[..j + 1];
    forall v | v in Names(next) ensures v in Names(src[..j]) + {src[j].name} {
      var k :| 0 <= k < |next| && next[k].name == v;
      assert k < j ==> src[..j][k].name == v;
    }
    forall v | v in Names(src[..j]) ensures v in Names(next) {
      var k :| 0 <= k < |src[..j]| && src[..j][k].name == v;
      assert next[k].name == v;
    }
    assert next[j].name == src[j].name;
  }

  method FindCalls(lx: Lexis, body: string, callee: string) returns (sites: seq<nat>)
    requires callee != ""
    ensures sites == CallSites(lx, body, callee) && WithinBody(body, sites)
  {
    sites := ScanFor(body, callee, IsCall(lx, callee));
  }

  method AccessesOf(lx: Lexis, body: string, histories: seq<string>, marks: seq<Mark>) returns (accesses: seq<Access>)
    requires forall m :: 0 <= m < |histories| ==> histories[m] != ""
    requires MarksOk(lx.word, body, |body|, marks)
    ensures accesses == AllAccesses(lx, body, histories)
  {
    hide MarksOk, InsideLoop, AccessSites;
    accesses := [];
    var m := 0;
    while m < |histories|
      invariant 0 <= m <= |histories|
      invariant accesses == AllAccesses(lx, body, histories[..m])
    {
      assert histories[..m + 1][..m] == histories[..m];
      var found := AccessesTo(lx, body, histories[m], marks);
      accesses := accesses + found;
      m := m + 1;
    }
    assert histories[..m] == histories;
  }

  method AccessesTo(lx: Lexis, body: string, history: string, marks: seq<Mark>) returns (accesses: seq<Access>)
    requires history != "" && MarksOk(lx.word, body, |body|, marks)
    ensures accesses == TaggedAccesses(lx, body, history, AccessSites(lx, body, history))
  {
    hide MarksOk, InsideLoop, StatementOf, Scan;
    var sites := ScanFor(body, history, IsAccess(lx, history));
    accesses := [];
    var i := 0;
    while i < |sites|
      invariant 0 <= i <= |sites| && WithinBody(body, sites)
      invariant |accesses| == i && forall m :: 0 <= m < i ==> accesses[m] == TaggedAccess(lx, body, history, sites[m])
    {
      var inLoop := InLoopAt(lx.word, body, marks, sites[i]);
      accesses := accesses + [Access(history, sites[i], inLoop, StatementOf(lx, body, sites[i]))];
      i := i + 1;
    }
  }

  method BuildGraph(lx: Lexis, src: Source, histories: seq<string>) returns (g: Graph)
    requires Named(src, histories)
    ensures g == GraphOf(lx, src, histories)
  {
    hide SpanOf, MarksOk, CallMap, AllAccesses;
    g := [];
    var k := 0;
    while k < |src|
      invariant 0 <= k <= |src| && |g| == k
      invariant forall m :: 0 <= m < k ==> g[m] == SpanOf(lx, src, histories, src[m])
    {
      var marks := LoopDepths(lx.word, src[k].body);
      var calls := CallsOf(lx, src, src[k], marks);
      var accesses := AccessesOf(lx, src[k].body, histories, marks);
      SpanMade(lx, src, histories, src[k]);
      g := g + [Span(src[k].name, calls, accesses)];
      k := k + 1;
    }
  }

  lemma SpanMade(lx: Lexis, src: Source, histories: seq<string>, d: Definition)
    requires Named(src, histories)
    ensures SpanOf(lx, src, histories, d) == Span(d.name, CallMap(lx, src, d), AllAccesses(lx, d.body, histories))
  {
  }

  // ---------- the graph means the text ----------

  lemma EdgesMeanCalls(lx: Lexis, src: Source, histories: seq<string>, u: Name, v: Name)
    requires Named(src, histories)
    ensures Edge(GraphOf(lx, src, histories), u, v) <==> TextCall(lx, src, u, v)
    ensures LoopEdge(GraphOf(lx, src, histories), u, v) <==> TextLoopCall(lx, src, u, v)
  {
    hide Calls, CallsInLoop, AllAccesses;
    var g := GraphOf(lx, src, histories);
    forall k | 0 <= k < |src| ensures v in g[k].calls <==> v in Names(src) && Calls(lx, src[k], v) {
    }
    assert Defined(g, v) <==> v in Names(src) by {
      if v in Names(src) {
        var k :| 0 <= k < |src| && src[k].name == v;
        assert g[k].name == v;
      }
    }
    forall k | 0 <= k < |src| && CallsInLoop(lx, src[k], v) ensures Calls(lx, src[k], v) {
      LoopCallIsCall(lx, src[k], v);
    }
    LoopEdgesMeanLoopCalls(lx, src, histories, u, v);
  }

  lemma LoopCallIsCall(lx: Lexis, d: Definition, v: Name)
    requires CallsInLoop(lx, d, v)
    ensures Calls(lx, d, v)
  {
  }

  lemma LoopEdgesMeanLoopCalls(lx: Lexis, src: Source, histories: seq<string>, u: Name, v: Name)
    requires Named(src, histories)
    requires Defined(GraphOf(lx, src, histories), v) <==> v in Names(src)
    requires forall k :: 0 <= k < |src| && CallsInLoop(lx, src[k], v) ==> Calls(lx, src[k], v)
    ensures LoopEdge(GraphOf(lx, src, histories), u, v) <==> TextLoopCall(lx, src, u, v)
  {
    hide Calls, CallsInLoop, AllAccesses;
    var g := GraphOf(lx, src, histories);
    if LoopEdge(g, u, v) {
      var k :| 0 <= k < |g| && g[k].name == u && v in g[k].calls && g[k].calls[v];
      assert src[k].name == u && CallsInLoop(lx, src[k], v);
    }
    if TextLoopCall(lx, src, u, v) {
      var k :| 0 <= k < |src| && src[k].name == u && CallsInLoop(lx, src[k], v);
      assert g[k].name == u && v in g[k].calls && g[k].calls[v];
    }
  }

  lemma WalksMeanPaths(lx: Lexis, src: Source, histories: seq<string>, u: Name, v: Name, p: seq<Name>)
    requires Named(src, histories)
    ensures WalkBetween(GraphOf(lx, src, histories), u, v, p) <==> TextPath(lx, src, u, v, p)
  {
    hide Edge, TextCall, GraphOf;
    forall i | 0 <= i < |p| - 1
      ensures Edge(GraphOf(lx, src, histories), p[i], p[i + 1]) <==> TextCall(lx, src, p[i], p[i + 1])
    {
      EdgesMeanCalls(lx, src, histories, p[i], p[i + 1]);
    }
  }

  /** Access `i` of a definition is a scanned access to one of the histories, tagged by its position. */
  lemma {:induction false} AccessesMeanSites(lx: Lexis, body: string, histories: seq<string>, a: Access)
    requires forall m :: 0 <= m < |histories| ==> histories[m] != ""
    ensures a in AllAccesses(lx, body, histories) <==>
              a.history in histories && a.at in AccessSites(lx, body, a.history)
              && a == TaggedAccess(lx, body, a.history, a.at)
  {
    hide AccessSites, InsideLoop;
    if histories != [] {
      var init, last := histories[..|histories| - 1], histories[|histories| - 1];
      assert histories == init + [last];
      AccessesMeanSites(lx, body, init, a);
      TaggedMeanSites(lx, body, last, AccessSites(lx, body, last), a);
    }
  }

  lemma TaggedMeanSites(lx: Lexis, body: string, history: string, sites: seq<nat>, a: Access)
    requires WithinBody(body, sites)
    ensures a in TaggedAccesses(lx, body, history, sites) <==>
              a.history == history && a.at in sites && a == TaggedAccess(lx, body, history, a.at)
  {
    hide InsideLoop;
    var all := TaggedAccesses(lx, body, history, sites);
    if a in all {
      var i :| 0 <= i < |all| && all[i] == a;
      assert a == TaggedAccess(lx, body, history, sites[i]);
    } else if a.at in sites {
      var i :| 0 <= i < |sites| && sites[i] == a.at;
      assert all[i] == TaggedAccess(lx, body, history, a.at);
    }
  }

  // ---------- from text to report ----------

  ghost predicate TextReachable(lx: Lexis, src: Source, u: Name, v: Name) {
    exists p :: TextPath(lx, src, u, v, p)
  }

  ghost predicate TextCrossesLoop(lx: Lexis, src: Source, p: seq<Name>) {
    exists i :: 0 <= i < |p| - 1 && TextLoopCall(lx, src, p[i], p[i + 1])
  }

  /** Some call path from `u` to `v` passes through a call site inside a loop block. */
  ghost predicate TextLoopReachable(lx: Lexis, src: Source, u: Name, v: Name) {
    exists p :: TextPath(lx, src, u, v, p) && TextCrossesLoop(lx, src, p)
  }

  ghost predicate TextOnCycle(lx: Lexis, src: Source, v: Name) {
    exists p :: |p| >= 2 && TextPath(lx, src, v, v, p)
  }

  /** The tag an access at position `at` of definition `d` deserves, stated on the text alone. */
  ghost function TextContext(lx: Lexis, src: Source, entry: Name, d: Definition, at: nat): HistoryAccessContext
    requires at <= |d.body|
  {
    if TextOnCycle(lx, src, d.name) then InRecursiveCycle
    else if InsideLoop(lx.word, d.body, at) then InLoop
    else if TextLoopReachable(lx, src, entry, d.name) then InLoopViaCaller
    else PointRead
  }

  /** Entry `h` reports the access at position `at` of definition `d`, rightly tagged, with a shortest call path. */
  ghost predicate ReportsSite(lx: Lexis, src: Source, histories: seq<string>, entry: Name, h: HistoryAccess, d: Definition, at: nat) {
    && h.history in histories && h.history != "" && at in AccessSites(lx, d.body, h.history)
    && at <= |d.body|
    && h.inFunction == d.name && h.statement == StatementOf(lx, d.body, at)
    && h.context == TextContext(lx, src, entry, d, at)
    && TextPath(lx, src, entry, d.name, h.path)
    && forall p :: TextPath(lx, src, entry, d.name, p) ==> |h.path| <= |p|
  }

  lemma ContextsAgree(lx: Lexis, src: Source, histories: seq<string>, entry: Name, f: Name)
    requires Named(src, histories)
    ensures OnCycle(GraphOf(lx, src, histories), f) <==> TextOnCycle(lx, src, f)
    ensures Reachable(GraphOf(lx, src, histories), entry, f) <==> TextReachable(lx, src, entry, f)
    ensures LoopReachable(GraphOf(lx, src, histories), entry, f) <==> TextLoopReachable(lx, src, entry, f)
    ensures forall p :: ShortestPath(GraphOf(lx, src, histories), entry, f, p) <==>
              TextPath(lx, src, entry, f, p) && forall q :: TextPath(lx, src, entry, f, q) ==> |p| <= |q|
  {
    hide GraphOf, WalkBetween, TextPath, LoopEdge, TextLoopCall;
    forall u, v, p ensures WalkBetween(GraphOf(lx, src, histories), u, v, p) <==> TextPath(lx, src, u, v, p) {
      WalksMeanPaths(lx, src, histories, u, v, p);
    }
    forall p: seq<Name> ensures CrossesLoop(GraphOf(lx, src, histories), p) <==> TextCrossesLoop(lx, src, p) {
      forall i | 0 <= i < |p| - 1
        ensures LoopEdge(GraphOf(lx, src, histories), p[i], p[i + 1]) <==> TextLoopCall(lx, src, p[i], p[i + 1])
      {
        EdgesMeanCalls(lx, src, histories, p[i], p[i + 1]);
      }
    }
  }

  lemma ReportMeansSite(lx: Lexis, src: Source, histories: seq<string>, entry: Name, h: HistoryAccess, k: nat, i: nat)
    requires Named(src, histories) && k < |src| && i < |GraphOf(lx, src, histories)[k].accesses|
    requires Reports(GraphOf(lx, src, histories), entry, h, k, i)
    ensures ReportsSite(lx, src, histories, entry, h, src[k], GraphOf(lx, src, histories)[k].accesses[i].at)
  {
    hide OnCycle, LoopReachable, ShortestPath, TextPath, InsideLoop, StatementOf, TextOnCycle, TextLoopReachable;
    var g := GraphOf(lx, src, histories);
    var a := g[k].accesses[i];
    assert a in AllAccesses(lx, src[k].body, histories);
    AccessesMeanSites(lx, src[k].body, histories, a);
    ContextsAgree(lx, src, histories, entry, src[k].name);
  }

  /** Access `at` of history `m` in a reachable definition `k` is reported. */
  ghost predicate SiteReported(lx: Lexis, src: Source, histories: seq<string>, entry: Name, out: seq<HistoryAccess>, k: nat, m: nat, at: nat)
    requires k < |src| && m < |histories|
  {
    exists h :: h in out && h.history == histories[m] && ReportsSite(lx, src, histories, entry, h, src[k], at)
  }

  ghost predicate SomeSite(lx: Lexis, src: Source, histories: seq<string>, entry: Name, h: HistoryAccess) {
    exists k, at :: 0 <= k < |src| && ReportsSite(lx, src, histories, entry, h, src[k], at)
  }

  /**
  The gate on source text: every access to a history in every definition of every function that the
  entry reaches through calls is reported, and every report is such an access, with the tag its
  position and the call paths to it deserve.
  */
  method CheckSource(lx: Lexis, src: Source, histories: seq<string>, entry: Name) returns (out: seq<HistoryAccess>)
    requires Named(src, histories)
    ensures forall h :: h in out ==> SomeSite(lx, src, histories, entry, h)
    ensures forall k, m, at :: 0 <= k < |src| && 0 <= m < |histories| && TextReachable(lx, src, entry, src[k].name)
                               && at in AccessSites(lx, src[k].body, histories[m]) ==>
              SiteReported(lx, src, histories, entry, out, k, m, at)
  {
    hide SomeSite, SiteReported, TextReachable, AllJustified, Covered, GraphOf, AccessSites;
    var g := BuildGraph(lx, src, histories);
    out := ReachableHistoryAccesses(g, entry);
    forall h | h in out ensures SomeSite(lx, src, histories, entry, h) {
      JustifiedByText(lx, src, histories, entry, out, h);
    }
    forall k, m, at | 0 <= k < |src| && 0 <= m < |histories| && TextReachable(lx, src, entry, src[k].name)
                      && at in AccessSites(lx, src[k].body, histories[m])
      ensures SiteReported(lx, src, histories, entry, out, k, m, at)
    {
      SpanName(lx, src, histories, k);
      ContextsAgree(lx, src, histories, entry, src[k].name);
      CoveredInText(lx, src, histories, entry, out, k, m, at);
    }
  }

  lemma SpanName(lx: Lexis, src: Source, histories: seq<string>, k: nat)
    requires Named(src, histories) && k < |src|
    ensures GraphOf(lx, src, histories)[k].name == src[k].name
  {
  }

  lemma JustifiedByText(lx: Lexis, src: Source, histories: seq<string>, entry: Name, out: seq<HistoryAccess>, h: HistoryAccess)
    requires Named(src, histories) && AllJustified(GraphOf(lx, src, histories), entry, out) && h in out
    ensures SomeSite(lx, src, histories, entry, h)
  {
    hide Reports, ReportsSite;
    var g := GraphOf(lx, src, histories);
    assert Justified(g, entry, h);
    var k, i :| 0 <= k < |g| && 0 <= i < |g[k].accesses| && Reports(g, entry, h, k, i);
    ReportMeansSite(lx, src, histories, entry, h, k, i);
  }

  lemma CoveredInText(lx: Lexis, src: Source, histories: seq<string>, entry: Name, out: seq<HistoryAccess>, k: nat, m: nat, at: nat)
    requires Named(src, histories) && k < |src| && m < |histories|
    requires Covered(GraphOf(lx, src, histories), entry, out, k)
    requires at in AccessSites(lx, src[k].body, histories[m])
    ensures SiteReported(lx, src, histories, entry, out, k, m, at)
  {
    hide ReportsSite, InsideLoop, StatementOf;
    var g := GraphOf(lx, src, histories);
    SitesWithin(lx, src[k].body, histories[m], at);
    var a := TaggedAccess(lx, src[k].body, histories[m], at);
    AccessesMeanSites(lx, src[k].body, histories, a);
    var i :| 0 <= i < |g[k].accesses| && g[k].accesses[i] == a;
    assert Reported(g, entry, out, k, i);
    var h :| h in out && Reports(g, entry, h, k, i);
    ReportMeansSite(lx, src, histories, entry, h, k, i);
  }

  lemma SitesWithin(lx: Lexis, body: string, history: string, at: nat)
    requires history != "" && at in AccessSites(lx, body, history)
    ensures at <= |body|
  {
  }

  /**
  What each tag of a reported access says about the text, strongest first: its function can call
  itself; it stands inside a loop block; some call path to it has a call from inside a loop block;
  or none of these.
  */
  lemma TagsMean(lx: Lexis, src: Source, histories: seq<string>, entry: Name, h: HistoryAccess, d: Definition, at: nat)
    requires ReportsSite(lx, src, histories, entry, h, d, at)
    ensures
      var cycle := exists p :: |p| >= 2 && TextPath(lx, src, d.name, d.name, p);
      var inside := InsideLoop(lx.word, d.body, at);
      var viaCaller := exists p, i ::
        TextPath(lx, src, entry, d.name, p) && 0 <= i < |p| - 1 && TextLoopCall(lx, src, p[i], p[i + 1]);
      && (h.context == InRecursiveCycle <==> cycle)
      && (h.context == InLoop <==> !cycle && inside)
      && (h.context == InLoopViaCaller <==> !cycle && !inside && viaCaller)
      && (h.context == PointRead <==> !cycle && !inside && !viaCaller)
  {
    hide TextPath, TextLoopCall, InsideLoop, AccessSites, StatementOf;
    if p, i :| TextPath(lx, src, entry, d.name, p) && 0 <= i < |p| - 1 && TextLoopCall(lx, src, p[i], p[i + 1]) {
      assert TextCrossesLoop(lx, src, p);
      assert TextLoopReachable(lx, src, entry, d.name);
    }
  }

  /**
  A point read is a point read of the text: it stands at a position outside every loop block, in a
  function that no call path calls from inside a loop block and that is on no call cycle.
  */
  lemma PointReadMeans(lx: Lexis, src: Source, histories: seq<string>, entry: Name, h: HistoryAccess)
    requires SomeSite(lx, src, histories, entry, h) && h.context == PointRead
    ensures exists k, at :: 0 <= k < |src| && PointSite(lx, src[k], h, at)
    ensures forall p, i :: TextPath(lx, src, entry, h.inFunction, p) && 0 <= i < |p| - 1 ==> !TextLoopCall(lx, src, p[i], p[i + 1])
    ensures forall p :: TextPath(lx, src, h.inFunction, h.inFunction, p) ==> |p| == 1
  {
    var k, at :| 0 <= k < |src| && ReportsSite(lx, src, histories, entry, h, src[k], at);
    assert PointSite(lx, src[k], h, at);
    hide TextPath, TextLoopCall, InsideLoop, AccessSites;
    forall p | TextPath(lx, src, entry, h.inFunction, p) ensures !TextCrossesLoop(lx, src, p) {
      assert !TextLoopReachable(lx, src, entry, h.inFunction);
    }
    PathsAreNotEmpty(lx, src, h.inFunction);
  }

  lemma PathsAreNotEmpty(lx: Lexis, src: Source, f: Name)
    ensures forall p :: TextPath(lx, src, f, f, p) ==> |p| >= 1
  {
  }

  /** Position `at` of definition `d` holds the reported access, outside every loop block. */
  ghost predicate PointSite(lx: Lexis, d: Definition, h: HistoryAccess, at: nat) {
    && d.name == h.inFunction && h.history != "" && at in AccessSites(lx, d.body, h.history)
    && at <= |d.body| && h.statement == StatementOf(lx, d.body, at)
    && !InsideLoop(lx.word, d.body, at)
  }
}
