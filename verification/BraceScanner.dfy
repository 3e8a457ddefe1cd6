/**
The evidence gate's loop-block scanner: a single pass over a function body that keeps a stack of
open braces and records, after every brace, whether any open block was opened by a loop.
Which characters may occur in a word is a parameter; bodies are sequences of characters.
*/
module BraceScanner {
  type WordClass = char -> bool

  const OPEN := '{'
  const CLOSE := '}'

  // ---------- what the scanner is meant to decide ----------

  /** A maximal run of word characters. */
  ghost predicate IsWord(w: WordClass, seg: string, a: nat, b: nat) {
    && a <= b <= |seg|
    && (forall k :: a <= k < b ==> w(seg[k]))
    && (a == 0 || !w(seg[a - 1]))
    && (b == |seg| || !w(seg[b]))
  }

  predicate IsLoopKeyword(s: string) {
    s == "for" || s == "while" || s == "loop"
  }

  ghost predicate HasLoopWord(w: WordClass, seg: string) {
    exists a: nat, b: nat :: IsWord(w, seg, a, b) && IsLoopKeyword(seg[a..b])
  }

  predicate IsDelimiter(c: char) {
    c == '{' || c == '}' || c == ';'
  }

  /** Where the text since the previous `;`, `{` or `}` begins. */
  function SegmentStart(body: string, i: nat): (s: nat)
    requires i <= |body|
    ensures s <= i
  {
    if i == 0 then 0 else if IsDelimiter(body[i - 1]) then i else SegmentStart(body, i - 1)
  }

  /** The brace at `j` opens a loop block: a loop keyword stands in the segment before it. */
  ghost predicate OpensLoop(w: WordClass, body: string, j: nat)
    requires j <= |body|
  {
    HasLoopWord(w, body[SegmentStart(body, j)..j])
  }

  /** Opening minus closing braces in a stretch of the body. */
  function Balance(body: string, lo: nat, hi: nat): int
    requires lo <= hi <= |body|
  {
    if lo == hi then 0
    else Balance(body, lo, hi - 1) + (if body[hi - 1] == '{' then 1 else if body[hi - 1] == '}' then -1 else 0)
  }

  lemma {:induction false} BalanceCounts(body: string, lo: nat, hi: nat)
    requires lo <= hi <= |body|
    ensures Balance(body, lo, hi) + multiset(body[lo..hi])[CLOSE] == multiset(body[lo..hi])[OPEN]
  {
    if lo < hi {
      BalanceCounts(body, lo, hi - 1);
      assert body[lo..hi] == body[lo..hi - 1] + [body[hi - 1]];
    }
  }

  /** The text between `s` and `j` has no `;`, `{` or `}`, and one of them, or nothing, stands before it. */
  predicate Segment(body: string, s: nat, j: nat)
    requires j <= |body|
  {
    && s <= j && (s == 0 || body[s - 1] == ';' || body[s - 1] == '{' || body[s - 1] == '}')
    && forall k :: s <= k < j ==> body[k] != ';' && body[k] != '{' && body[k] != '}'
  }

  lemma {:induction false} SegmentStartIs(body: string, j: nat)
    requires j <= |body|
    ensures Segment(body, SegmentStart(body, j), j)
  {
    if j > 0 && !IsDelimiter(body[j - 1]) {
      SegmentStartIs(body, j - 1);
    }
  }

  lemma OneSegment(body: string, s: nat, s': nat, j: nat)
    requires j <= |body| && Segment(body, s, j) && Segment(body, s', j)
    ensures s == s'
  {
  }

  /** From `a` to `b` a keyword of a loop stands as a whole word of its segment. */
  predicate LoopWordAt(w: WordClass, seg: string, a: nat, b: nat) {
    && a <= b <= |seg| && (seg[a..b] == "for" || seg[a..b] == "while" || seg[a..b] == "loop")
    && (forall k :: a <= k < b ==> w(seg[k]))
    && (a == 0 || !w(seg[a - 1])) && (b == |seg| || !w(seg[b]))
  }

  /**
  A brace opens a loop block exactly if `for`, `while` or `loop` stands as a word between it and the
  previous `;`, `{` or `}`.
  */
  lemma OpensLoopExactly(w: WordClass, body: string, j: nat, s: nat)
    requires j <= |body| && Segment(body, s, j)
    ensures OpensLoop(w, body, j) <==> exists a: nat, b: nat :: LoopWordAt(w, body[s..j], a, b)
  {
    SegmentStartIs(body, j);
    OneSegment(body, s, SegmentStart(body, j), j);
    LoopWordsAre(w, body[s..j]);
  }

  lemma LoopWordsAre(w: WordClass, seg: string)
    ensures HasLoopWord(w, seg) <==> exists a: nat, b: nat :: LoopWordAt(w, seg, a, b)
  {
    if HasLoopWord(w, seg) {
      var a: nat, b: nat :| IsWord(w, seg, a, b) && IsLoopKeyword(seg[a..b]);
      assert LoopWordAt(w, seg, a, b);
    }
    if a: nat, b: nat :| LoopWordAt(w, seg, a, b) {
      assert IsWord(w, seg, a, b) && IsLoopKeyword(seg[a..b]);
    }
  }

  /** The brace opened at `j` is not yet closed at `pos`: nothing in between closes more than it opens. */
  ghost predicate OpenAt(body: string, j: nat, pos: nat)
    requires pos <= |body|
  {
    j < pos && body[j] == '{' && forall m: nat :: j < m <= pos ==> Unclosed(body, j, m)
  }

  predicate Unclosed(body: string, j: nat, m: nat)
    requires j < m <= |body|
  {
    Balance(body, j + 1, m) >= 0
  }

  /** Some brace still open at `pos` was opened by a loop. */
  ghost predicate InsideLoop(w: WordClass, body: string, pos: nat)
    requires pos <= |body|
  {
    exists j: nat :: OpenAt(body, j, pos) && OpensLoop(w, body, j)
  }

  // ---------- the scanner ----------

  datatype Mark = Mark(at: nat, inLoop: bool)

  /** A maximal run is determined by where it ends. */
  lemma WordStart(w: WordClass, seg: string, a: nat, b: nat, start: nat)
    requires IsWord(w, seg, a, b) && start <= b
    requires start == 0 || !w(seg[start - 1])
    requires forall k :: start <= k < b ==> w(seg[k])
    ensures a == start
  {
  }

  method ContainsLoopWord(w: WordClass, seg: string) returns (found: bool)
    ensures found <==> HasLoopWord(w, seg)
  {
    var start, i := 0, 0;
    while i < |seg|
      invariant 0 <= start <= i <= |seg|
      invariant start == 0 || !w(seg[start - 1])
      invariant forall k :: start <= k < i ==> w(seg[k])
      invariant forall a: nat, b: nat :: b < i && IsWord(w, seg, a, b) ==> !IsLoopKeyword(seg[a..b])
    {
      if !w(seg[i]) {
        if IsLoopKeyword(seg[start..i]) {
          assert IsWord(w, seg, start, i);
          return true;
        }
        forall a: nat | IsWord(w, seg, a, i) ensures a == start {
          WordStart(w, seg, a, i, start);
        }
        start := i + 1;
      }
      i := i + 1;
    }
    found := IsLoopKeyword(seg[start..]);
    assert seg[start..] == seg[start..|seg|];
    if found {
      assert IsWord(w, seg, start, |seg|);
    } else {
      forall a: nat, b: nat | IsWord(w, seg, a, b) ensures !IsLoopKeyword(seg[a..b]) {
        if b == |seg| {
          WordStart(w, seg, a, b, start);
        }
      }
    }
  }

  /**
  The stack holds exactly the open braces, innermost last, each with its loop tag, and each has
  as many unclosed braces after it as the stack holds above it.
  */
  ghost predicate StackOk(w: WordClass, body: string, pos: nat, stack: seq<Mark>)
    requires pos <= |body|
  {
    && (forall s :: 0 <= s < |stack| ==>
          && OpenAt(body, stack[s].at, pos)
          && (stack[s].inLoop <==> OpensLoop(w, body, stack[s].at))
          && Balance(body, stack[s].at + 1, pos) == |stack| - 1 - s)
    && (forall j: nat :: OpenAt(body, j, pos) ==> OnStack(stack, j))
  }

  ghost predicate OnStack(stack: seq<Mark>, j: nat) {
    exists s :: 0 <= s < |stack| && stack[s].at == j
  }

  lemma OpenStep(body: string, j: nat, pos: nat)
    requires pos < |body|
    ensures OpenAt(body, j, pos + 1) ==> j == pos || OpenAt(body, j, pos)
    ensures OpenAt(body, j, pos) ==> (OpenAt(body, j, pos + 1) <==> Unclosed(body, j, pos + 1))
    ensures j == pos ==> (OpenAt(body, j, pos + 1) <==> body[pos] == OPEN)
  {
  }

  lemma BalanceStep(body: string, lo: nat, pos: nat)
    requires lo <= pos < |body|
    ensures Balance(body, lo, pos + 1) == Balance(body, lo, pos) + (if body[pos] == OPEN then 1 else if body[pos] == CLOSE then -1 else 0)
  {
  }

  lemma OpenLiesBefore(body: string, j: nat, pos: nat)
    requires pos <= |body| && OpenAt(body, j, pos)
    ensures j < pos
  {
  }

  lemma PushKeeps(w: WordClass, body: string, pos: nat, stack: seq<Mark>, isLoop: bool)
    requires pos < |body| && body[pos] == OPEN && StackOk(w, body, pos, stack)
    requires isLoop <==> OpensLoop(w, body, pos)
    ensures StackOk(w, body, pos + 1, stack + [Mark(pos, isLoop)])
  {
    hide OpenAt, OpensLoop, Balance;
    var stack' := stack + [Mark(pos, isLoop)];
    assert Balance(body, pos + 1, pos + 1) == 0 by {
      EmptyBalance(body, pos + 1);
    }
    forall s | 0 <= s < |stack|
      ensures OpenAt(body, stack[s].at, pos + 1)
      ensures stack[s].at < pos && Balance(body, stack[s].at + 1, pos + 1) == |stack| - s
    {
      OpenLiesBefore(body, stack[s].at, pos);
      BalanceStep(body, stack[s].at + 1, pos);
      OpenStep(body, stack[s].at, pos);
    }
    OpenStep(body, pos, pos);
    forall j: nat | OpenAt(body, j, pos + 1) ensures OnStack(stack', j) {
      OpenStep(body, j, pos);
      if j == pos {
        assert stack'[|stack|].at == j;
      } else {
        var s :| 0 <= s < |stack| && stack[s].at == j;
        assert stack'[s].at == j;
      }
    }
  }

  lemma EmptyBalance(body: string, lo: nat)
    requires lo <= |body|
    ensures Balance(body, lo, lo) == 0
  {
  }

  lemma PopKeeps(w: WordClass, body: string, pos: nat, stack: seq<Mark>)
    requires pos < |body| && body[pos] == CLOSE && StackOk(w, body, pos, stack)
    ensures StackOk(w, body, pos + 1, if stack == [] then [] else stack[..|stack| - 1])
  {
    hide OpenAt, OpensLoop, Balance;
    var stack' := if stack == [] then [] else stack[..|stack| - 1];
    forall s | 0 <= s < |stack|
      ensures OpenAt(body, stack[s].at, pos + 1) <==> s < |stack'|
      ensures stack[s].at < pos && Balance(body, stack[s].at + 1, pos + 1) == |stack| - 2 - s
    {
      OpenLiesBefore(body, stack[s].at, pos);
      BalanceStep(body, stack[s].at + 1, pos);
      OpenStep(body, stack[s].at, pos);
    }
    forall j: nat | OpenAt(body, j, pos + 1) ensures OnStack(stack', j) {
      OpenStep(body, j, pos);
      var s :| 0 <= s < |stack| && stack[s].at == j;
      assert stack'[s].at == j;
    }
  }

  lemma SkipKeeps(w: WordClass, body: string, pos: nat, stack: seq<Mark>)
    requires pos < |body| && !IsBrace(body[pos]) && StackOk(w, body, pos, stack)
    ensures StackOk(w, body, pos + 1, stack)
  {
    forall j: nat ensures OpenAt(body, j, pos + 1) <==> OpenAt(body, j, pos) {
      OpenStep(body, j, pos);
      if OpenAt(body, j, pos) {
        assert Balance(body, j + 1, pos + 1) == Balance(body, j + 1, pos);
      }
    }
  }

  method AnyLoop(w: WordClass, body: string, pos: nat, stack: seq<Mark>) returns (any: bool)
    requires pos <= |body| && StackOk(w, body, pos, stack)
    ensures any <==> InsideLoop(w, body, pos)
  {
    var s := 0;
    while s < |stack|
      invariant 0 <= s <= |stack|
      invariant forall r :: 0 <= r < s ==> !stack[r].inLoop
    {
      if stack[s].inLoop {
        assert OpenAt(body, stack[s].at, pos) && OpensLoop(w, body, stack[s].at);
        return true;
      }
      s := s + 1;
    }
    forall j: nat | OpenAt(body, j, pos) ensures !OpensLoop(w, body, j) {
      assert OnStack(stack, j);
    }
    any := false;
  }

  /** The marks list every brace before `pos`, in order, each with the state right after it. */
  ghost predicate MarksOk(w: WordClass, body: string, pos: nat, marks: seq<Mark>)
    requires pos <= |body|
  {
    && (forall m :: 0 <= m < |marks| ==>
          && marks[m].at < pos && IsBrace(body[marks[m].at])
          && (marks[m].inLoop <==> InsideLoop(w, body, marks[m].at + 1)))
    && (forall m, n :: 0 <= m < n < |marks| ==> marks[m].at < marks[n].at)
    && (forall i :: 0 <= i < pos && IsBrace(body[i]) ==> Marked(marks, i))
  }

  predicate IsBrace(c: char) {
    c == '{' || c == '}'
  }

  ghost predicate Marked(marks: seq<Mark>, i: nat) {
    exists m :: 0 <= m < |marks| && marks[m].at == i
  }

  lemma MarkAdded(w: WordClass, body: string, pos: nat, marks: seq<Mark>, inLoop: bool)
    requires pos < |body| && MarksOk(w, body, pos, marks) && IsBrace(body[pos])
    requires inLoop <==> InsideLoop(w, body, pos + 1)
    ensures MarksOk(w, body, pos + 1, marks + [Mark(pos, inLoop)])
  {
    var marks' := marks + [Mark(pos, inLoop)];
    forall i | 0 <= i < pos + 1 && IsBrace(body[i]) ensures Marked(marks', i) {
      if i == pos {
        assert marks'[|marks|].at == i;
      } else {
        assert Marked(marks, i);
        var m :| 0 <= m < |marks| && marks[m].at == i;
        assert marks'[m].at == i;
      }
    }
  }

  lemma NoMark(w: WordClass, body: string, pos: nat, marks: seq<Mark>)
    requires pos < |body| && MarksOk(w, body, pos, marks) && !IsBrace(body[pos])
    ensures MarksOk(w, body, pos + 1, marks)
  {
  }

  lemma NothingScanned(w: WordClass, body: string)
    ensures StackOk(w, body, 0, []) && MarksOk(w, body, 0, [])
  {
  }

  method LoopDepths(w: WordClass, body: string) returns (out: seq<Mark>)
    ensures MarksOk(w, body, |body|, out)
  {
    hide StackOk, MarksOk, InsideLoop;
    var stack: seq<Mark> := [];
    out := [];
    NothingScanned(w, body);
    var segStart := 0;
    var i := 0;
    while i < |body|
      invariant 0 <= i <= |body|
      invariant segStart == SegmentStart(body, i)
      invariant StackOk(w, body, i, stack) && MarksOk(w, body, i, out)
    {
      if body[i] == '{' {
        var isLoop := ContainsLoopWord(w, body[segStart..i]);
        PushKeeps(w, body, i, stack, isLoop);
        stack := stack + [Mark(i, isLoop)];
        var any := AnyLoop(w, body, i + 1, stack);
        MarkAdded(w, body, i, out, any);
        out := out + [Mark(i, any)];
        segStart := i + 1;
      } else if body[i] == '}' {
        PopKeeps(w, body, i, stack);
        stack := if stack == [] then [] else stack[..|stack| - 1];
        var any := AnyLoop(w, body, i + 1, stack);
        MarkAdded(w, body, i, out, any);
        out := out + [Mark(i, any)];
        segStart := i + 1;
      } else {
        SkipKeeps(w, body, i, stack);
        NoMark(w, body, i, out);
        if body[i] == ';' {
          segStart := i + 1;
        }
      }
      i := i + 1;
    }
  }

  /** Between two braces nothing opens or closes. */
  lemma {:induction false} QuietStretch(body: string, from: nat, pos: nat, j: nat)
    requires from <= pos <= |body| && forall i :: from <= i < pos ==> !IsBrace(body[i])
    ensures OpenAt(body, j, pos) <==> OpenAt(body, j, from)
  {
    if from < pos {
      QuietStretch(body, from, pos - 1, j);
      OpenStep(body, j, pos - 1);
      if OpenAt(body, j, pos - 1) {
        assert Unclosed(body, j, pos - 1);
        assert Balance(body, j + 1, pos) == Balance(body, j + 1, pos - 1);
      }
    }
  }

  /**
  The state after the most recent brace before `pos` says whether `pos` lies inside a loop block:
  some brace still open there was opened by a segment containing a loop keyword.
  */
  method InLoopAt(w: WordClass, ghost body: string, marks: seq<Mark>, pos: nat) returns (inLoop: bool)
    requires MarksOk(w, body, |body|, marks) && pos <= |body|
    ensures inLoop <==> InsideLoop(w, body, pos)
  {
    var m := |marks|;
    while m > 0
      invariant 0 <= m <= |marks|
      invariant forall n :: m <= n < |marks| ==> marks[n].at >= pos
    {
      m := m - 1;
      if marks[m].at < pos {
        Unmarked(w, body, marks, marks[m].at + 1, pos);
        SameInside(w, body, marks[m].at + 1, pos);
        return marks[m].inLoop;
      }
    }
    Unmarked(w, body, marks, 0, pos);
    SameInside(w, body, 0, pos);
    inLoop := false;
  }

  lemma Unmarked(w: WordClass, body: string, marks: seq<Mark>, from: nat, pos: nat)
    requires MarksOk(w, body, |body|, marks) && from <= pos <= |body|
    requires forall n :: 0 <= n < |marks| ==> marks[n].at < from || marks[n].at >= pos
    ensures forall i :: from <= i < pos ==> !IsBrace(body[i])
  {
  }

  lemma SameInside(w: WordClass, body: string, from: nat, pos: nat)
    requires from <= pos <= |body| && forall i :: from <= i < pos ==> !IsBrace(body[i])
    ensures InsideLoop(w, body, pos) <==> InsideLoop(w, body, from)
  {
    forall j: nat ensures OpenAt(body, j, pos) <==> OpenAt(body, j, from) {
      QuietStretch(body, from, pos, j);
    }
    if InsideLoop(w, body, pos) {
      var j :| OpenAt(body, j, pos) && OpensLoop(w, body, j);
      assert OpenAt(body, j, from);
    }
    if InsideLoop(w, body, from) {
      var j :| OpenAt(body, j, from) && OpensLoop(w, body, j);
      assert OpenAt(body, j, pos);
    }
  }

  /** A callee is called in a loop if any of its call sites lies inside a loop block. */
  method AnySiteInLoop(w: WordClass, ghost body: string, marks: seq<Mark>, sites: seq<nat>) returns (any: bool)
    requires MarksOk(w, body, |body|, marks)
    requires forall k :: 0 <= k < |sites| ==> sites[k] <= |body|
    ensures any <==> exists i :: 0 <= i < |sites| && InsideLoop(w, body, sites[i])
  {
    hide InsideLoop, MarksOk;
    var i := 0;
    while i < |sites|
      invariant 0 <= i <= |sites|
      invariant forall k :: 0 <= k < i ==> !InsideLoop(w, body, sites[k])
    {
      var inLoop := InLoopAt(w, body, marks, sites[i]);
      if inLoop {
        return true;
      }
      i := i + 1;
    }
    any := false;
  }
}
