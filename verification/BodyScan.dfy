/**
What the evidence gate reads off one function body: the call sites of a function, the accesses to
a history map, and the flattened statement around an access.
*/
module BodyScan {
  import opened Wrappers
  import opened BraceScanner

  /**
  The character classes the scans use: word characters of any script for keywords and the right
  edge of a name, ASCII word characters for its left edge, and white space.
  */
  datatype Lexis = Lexis(word: WordClass, ascii: WordClass, space: char -> bool)

  // ---------- finding a name in a text ----------

  predicate MatchAt(body: string, name: string, at: nat) {
    at + |name| <= |body| && body[at..at + |name|] == name
  }

  /** The first match at or after a position. */
  function Find(body: string, name: string, from: nat): (r: Option<nat>)
    ensures r.Some? ==> from <= r.value && MatchAt(body, name, r.value)
    ensures forall at: nat :: from <= at && MatchAt(body, name, at) ==> r.Some? && r.value <= at
    decreases |body| - from
  {
    if from + |name| > |body| then None
    else if MatchAt(body, name, from) then Some(from)
    else Find(body, name, from + 1)
  }

  /** Each position of a list lies at least one name's length before the end of the text. */
  ghost predicate WithinBody(body: string, sites: seq<nat>) {
    forall i :: 0 <= i < |sites| ==> sites[i] <= |body|
  }

  /** The filter a scan applies to the matches it finds. */
  type Keep = (string, nat) -> bool

  /** Matches from left to right, each search resuming behind the last match, filtered. */
  function Scan(body: string, name: string, keep: Keep, from: nat): (sites: seq<nat>)
    requires name != ""
    ensures WithinBody(body, sites)
    decreases |body| - from
  {
    match Find(body, name, from)
    case None => []
    case Some(at) =>
      (if keep(body, at) then [at] else []) + Scan(body, name, keep, at + |name|)
  }

  method ScanFor(body: string, name: string, keep: Keep) returns (sites: seq<nat>)
    requires name != ""
    ensures sites == Scan(body, name, keep, 0)
  {
    hide Find, Scan;
    sites := [];
    var from := 0;
    var next := Find(body, name, from);
    while next.Some?
      invariant next == Find(body, name, from)
      invariant sites + Scan(body, name, keep, from) == Scan(body, name, keep, 0)
      decreases |body| - from
    {
      var at := next.value;
      ScanNext(body, name, keep, from);
      ghost var rest := Scan(body, name, keep, at + |name|);
      if keep(body, at) {
        assert sites + ([at] + rest) == sites + [at] + rest;
        sites := sites + [at];
      }
      from := at + |name|;
      next := Find(body, name, from);
    }
    ScanNext(body, name, keep, from);
  }

  lemma ScanNext(body: string, name: string, keep: Keep, from: nat)
    requires name != ""
    ensures
      Scan(body, name, keep, from) ==
      match Find(body, name, from)
      case None => []
      case Some(at) =>
        if keep(body, at) then [at] + Scan(body, name, keep, at + |name|) else Scan(body, name, keep, at + |name|)
  {
    hide Find;
  }

  /** The left edge of a name: no ASCII word character before it. */
  predicate LeftEdge(lx: Lexis, body: string, at: nat) {
    at == 0 || at > |body| || !lx.ascii(body[at - 1])
  }

  /** The name, shifted by `d`, agrees with itself. */
  predicate OverlapsItself(name: string, d: nat) {
    0 < d < |name| && name[d..] == name[..|name| - d]
  }

  /** Wherever the name can overlap itself, the second copy has no left edge. */
  predicate NoHiddenOverlap(lx: Lexis, name: string) {
    name != "" && forall d :: 0 < d < |name| && OverlapsItself(name, d) ==> lx.ascii(name[d - 1])
  }

  /** In particular names of ASCII word characters have no hidden overlap. */
  lemma AsciiNamesHaveNone(lx: Lexis, name: string)
    requires name != "" && forall i :: 0 <= i < |name| ==> lx.ascii(name[i])
    ensures NoHiddenOverlap(lx, name)
  {
  }

  lemma OverlapAt(body: string, name: string, first: nat, at: nat)
    requires MatchAt(body, name, first) && MatchAt(body, name, at) && first < at < first + |name|
    ensures OverlapsItself(name, at - first) && body[at - 1] == name[at - first - 1]
  {
    var d := at - first;
    forall i | 0 <= i < |name| - d ensures name[d..][i] == name[..|name| - d][i] {
      assert body[first..first + |name|][d + i] == body[at..at + |name|][i];
    }
    assert body[first..first + |name|][d - 1] == name[d - 1];
  }

  /** Two matches overlap only if the second has no left edge. */
  lemma NoOverlap(lx: Lexis, body: string, name: string, first: nat, at: nat)
    requires NoHiddenOverlap(lx, name) && MatchAt(body, name, first) && MatchAt(body, name, at)
    requires first < at < first + |name|
    ensures !LeftEdge(lx, body, at)
  {
    OverlapAt(body, name, first, at);
  }

  /** The text that shows a hidden overlap: the name, and behind its first `d` characters the name again. */
  function Doubled(name: string, d: nat): string
    requires d <= |name|
  {
    name[..d] + name
  }

  /** A scan never reports the second copy in a doubled name. */
  lemma SecondCopySkipped(lx: Lexis, name: string, d: nat, tail: string, keep: Keep)
    requires OverlapsItself(name, d)
    ensures
      var body := Doubled(name, d) + tail;
      MatchAt(body, name, 0) && MatchAt(body, name, d) && d !in Scan(body, name, keep, 0)
  {
    hide Scan;
    var body := Doubled(name, d) + tail;
    forall i | 0 <= i < |name| ensures body[..|name|][i] == name[i] {
      assert i >= d ==> name[d..][i - d] == name[..|name| - d][i - d];
    }
    assert body[0..|name|] == name;
    assert body[d..d + |name|] == name;
    ScanNext(body, name, keep, 0);
    ScanStartsAfter(body, name, keep, |name|);
  }

  /** Without hidden overlaps no match at a left edge is skipped: the scan finds exactly the kept matches. */
  lemma {:induction false} ScanFindsAll(lx: Lexis, body: string, name: string, keep: Keep, from: nat, at: nat)
    requires NoHiddenOverlap(lx, name) && from <= at
    requires forall p: nat :: keep(body, p) ==> LeftEdge(lx, body, p)
    ensures at in Scan(body, name, keep, from) <==> MatchAt(body, name, at) && keep(body, at)
    decreases |body| - from
  {
    hide Find, Scan, MatchAt, LeftEdge;
    ScanNext(body, name, keep, from);
    match Find(body, name, from)
    case None =>
    case Some(first) =>
      Inside(body, name, first);
      if first + |name| <= at {
        ScanFindsAll(lx, body, name, keep, first + |name|, at);
      } else {
        ScanStartsAfter(body, name, keep, first + |name|);
        if first < at && MatchAt(body, name, at) {
          NoOverlap(lx, body, name, first, at);
        }
      }
  }

  lemma Inside(body: string, name: string, at: nat)
    requires MatchAt(body, name, at)
    ensures at + |name| <= |body|
  {
  }

  lemma {:induction false} ScanStartsAfter(body: string, name: string, keep: Keep, from: nat)
    requires name != ""
    ensures forall at :: at in Scan(body, name, keep, from) ==> from <= at
    decreases |body| - from
  {
    match Find(body, name, from)
    case None =>
    case Some(first) => ScanStartsAfter(body, name, keep, first + |name|);
  }

  // ---------- call sites ----------

  /** The first character that is not white space opens a parenthesis. */
  predicate ParenFollows(space: char -> bool, s: string) {
    s != "" && if space(s[0]) then ParenFollows(space, s[1..]) else s[0] == '('
  }

  /** A call: the name at a left edge, with an argument list behind it. */
  predicate CallAt(lx: Lexis, callee: string, body: string, at: nat) {
    LeftEdge(lx, body, at) && at + |callee| <= |body| && ParenFollows(lx.space, body[at + |callee|..])
  }

  /** After any white space, the next character opens a parenthesis. */
  predicate OpensAt(space: char -> bool, s: string, q: nat) {
    q < |s| && s[q] == '(' && forall k :: 0 <= k < q ==> space(s[k])
  }

  /** An argument list follows. */
  ghost predicate ArgumentsFollow(space: char -> bool, s: string) {
    exists q: nat :: OpensAt(space, s, q)
  }

  lemma {:induction false} ParenFollowsExactly(space: char -> bool, s: string)
    requires !space('(')
    ensures ParenFollows(space, s) <==> ArgumentsFollow(space, s)
  {
    if s != [] {
      if space(s[0]) {
        ParenFollowsExactly(space, s[1..]);
        if q: nat :| OpensAt(space, s[1..], q) {
          forall k | 0 <= k < q + 1 ensures space(s[k]) {
            assert k > 0 ==> s[k] == s[1..][k - 1];
          }
          assert OpensAt(space, s, q + 1);
        }
        if q: nat :| OpensAt(space, s, q) {
          assert OpensAt(space, s[1..], q - 1);
        }
      } else if s[0] == '(' {
        assert OpensAt(space, s, 0);
      }
    }
  }

  function IsCall(lx: Lexis, callee: string): Keep {
    (body: string, at: nat) => CallAt(lx, callee, body, at)
  }

  function CallSites(lx: Lexis, body: string, callee: string): (sites: seq<nat>)
    requires callee != ""
    ensures WithinBody(body, sites)
  {
    Scan(body, callee, IsCall(lx, callee), 0)
  }

  predicate FindsAllCalls(lx: Lexis, callee: string, body: string, at: nat)
    requires callee != ""
  {
    at in CallSites(lx, body, callee) <==> MatchAt(body, callee, at) && CallAt(lx, callee, body, at)
  }

  /**
  In every body the scan finds every call and nothing else, if and only if the name has no hidden
  overlap with itself. Names of ASCII word characters have none.
  */
  lemma CallSitesExact(lx: Lexis, callee: string)
    requires callee != "" && !lx.space('(')
    ensures (forall body, at :: FindsAllCalls(lx, callee, body, at)) <==> NoHiddenOverlap(lx, callee)
  {
    hide Scan;
    if NoHiddenOverlap(lx, callee) {
      forall body, at ensures FindsAllCalls(lx, callee, body, at) {
        ScanFindsAll(lx, body, callee, IsCall(lx, callee), 0, at);
      }
    } else {
      var d :| 0 < d < |callee| && OverlapsItself(callee, d) && !lx.ascii(callee[d - 1]);
      var body := Doubled(callee, d) + "(";
      SecondCopySkipped(lx, callee, d, "(", IsCall(lx, callee));
      assert body[d + |callee|..] == "(";
      assert !FindsAllCalls(lx, callee, body, d);
    }
  }

  /**
  The call sites of a name without hidden overlaps, read off the text: where the name stands, not
  preceded by an ASCII word character, and followed by a parenthesis after at most white space.
  */
  lemma CallSitesMean(lx: Lexis, callee: string, body: string, at: nat)
    requires NoHiddenOverlap(lx, callee) && !lx.space('(')
    ensures at in CallSites(lx, body, callee) <==>
              && at + |callee| <= |body| && body[at..at + |callee|] == callee
              && (at == 0 || !lx.ascii(body[at - 1]))
              && ArgumentsFollow(lx.space, body[at + |callee|..])
  {
    hide Scan, NoHiddenOverlap, ParenFollows;
    ScanFindsAll(lx, body, callee, IsCall(lx, callee), 0, at);
    if at + |callee| <= |body| {
      ParenFollowsExactly(lx.space, body[at + |callee|..]);
    }
  }

  // ---------- accesses ----------

  /** An access: the map's name as a whole word. */
  predicate AccessAt(lx: Lexis, history: string, body: string, at: nat) {
    LeftEdge(lx, body, at) && at + |history| <= |body|
    && (at + |history| == |body| || !lx.word(body[at + |history|]))
  }

  function IsAccess(lx: Lexis, history: string): Keep {
    (body: string, at: nat) => AccessAt(lx, history, body, at)
  }

  function AccessSites(lx: Lexis, body: string, history: string): (sites: seq<nat>)
    requires history != ""
    ensures WithinBody(body, sites)
  {
    Scan(body, history, IsAccess(lx, history), 0)
  }

  predicate FindsAllAccesses(lx: Lexis, history: string, body: string, at: nat)
    requires history != ""
  {
    at in AccessSites(lx, body, history) <==> MatchAt(body, history, at) && AccessAt(lx, history, body, at)
  }

  /** The same for the accesses to a map: all of them are found in every body, exactly without hidden overlaps. */
  lemma AccessSitesExact(lx: Lexis, history: string)
    requires history != ""
    ensures (forall body, at :: FindsAllAccesses(lx, history, body, at)) <==> NoHiddenOverlap(lx, history)
  {
    hide Scan;
    if NoHiddenOverlap(lx, history) {
      forall body, at ensures FindsAllAccesses(lx, history, body, at) {
        ScanFindsAll(lx, body, history, IsAccess(lx, history), 0, at);
      }
    } else {
      var d :| 0 < d < |history| && OverlapsItself(history, d) && !lx.ascii(history[d - 1]);
      var body := Doubled(history, d) + "";
      SecondCopySkipped(lx, history, d, "", IsAccess(lx, history));
      assert !FindsAllAccesses(lx, history, body, d);
    }
  }

  /** The accesses to a map: where its name stands as a whole word. */
  lemma AccessSitesMean(lx: Lexis, history: string, body: string, at: nat)
    requires NoHiddenOverlap(lx, history)
    ensures at in AccessSites(lx, body, history) <==>
              && at + |history| <= |body| && body[at..at + |history|] == history
              && (at == 0 || !lx.ascii(body[at - 1]))
              && (at + |history| == |body| || !lx.word(body[at + |history|]))
  {
    hide Scan, NoHiddenOverlap;
    ScanFindsAll(lx, body, history, IsAccess(lx, history), 0, at);
  }

  // ---------- the statement around an access ----------

  function StatementStart(body: string, at: nat): (s: nat)
    requires at <= |body|
    ensures s <= at
  {
    if at == 0 then 0 else if body[at - 1] == ';' then at else StatementStart(body, at - 1)
  }

  function StatementEnd(body: string, at: nat): (e: nat)
    requires at <= |body|
    ensures at <= e <= |body|
    decreases |body| - at
  {
    if at == |body| || body[at] == ';' then at else StatementEnd(body, at + 1)
  }

  /** The statement is the text between the semicolons around the position, the ends of the body counting as such. */
  lemma {:induction false} StatementBefore(body: string, at: nat)
    requires at <= |body|
    ensures var s := StatementStart(body, at);
            (s == 0 || body[s - 1] == ';') && forall k :: s <= k < at ==> body[k] != ';'
  {
    if at > 0 && body[at - 1] != ';' {
      StatementBefore(body, at - 1);
    }
  }

  lemma {:induction false} StatementAfter(body: string, at: nat)
    requires at <= |body|
    ensures var e := StatementEnd(body, at);
            (e == |body| || body[e] == ';') && forall k :: at <= k < e ==> body[k] != ';'
    decreases |body| - at
  {
    if at < |body| && body[at] != ';' {
      StatementAfter(body, at + 1);
    }
  }

  /** Runs of white space become one blank; none at either end. */
  function Flatten(space: char -> bool, s: string, pending: string): string {
    if s == "" then pending
    else if space(s[0]) then
      var rest := Flatten(space, s[1..], "");
      if pending == "" then rest else if rest == "" then pending else pending + " " + rest
    else Flatten(space, s[1..], pending + [s[0]])
  }

  function StatementOf(lx: Lexis, body: string, at: nat): string
    requires at <= |body|
  {
    Flatten(lx.space, body[StatementStart(body, at)..StatementEnd(body, at)], "")
  }

  /** Words separated by one blank each. */
  function Spaced(words: seq<string>): string {
    if words == [] then "" else if |words| == 1 then words[0] else words[0] + " " + Spaced(words[1..])
  }

  predicate IsBlank(space: char -> bool, s: string) {
    forall k :: 0 <= k < |s| ==> space(s[k])
  }

  predicate IsSolid(space: char -> bool, s: string) {
    forall k :: 0 <= k < |s| ==> !space(s[k])
  }

  /** `words` are the maximal runs of `s` without white space, in order. */
  ghost predicate SplitsInto(space: char -> bool, s: string, words: seq<string>)
    decreases |words|
  {
    if words == [] then IsBlank(space, s)
    else
      words[0] != "" && IsSolid(space, words[0])
      && exists gap, tail :: WordFirst(space, s, gap, words[0], tail) && SplitsInto(space, tail, words[1..])
  }

  predicate WordFirst(space: char -> bool, s: string, gap: string, word: string, tail: string) {
    s == gap + word + tail && IsBlank(space, gap) && (tail == "" || space(tail[0]))
  }

  lemma LeadingBlank(space: char -> bool, c: char, s: string, words: seq<string>)
    requires space(c) && SplitsInto(space, s, words)
    ensures SplitsInto(space, [c] + s, words)
  {
    if words != [] {
      var gap, tail :| WordFirst(space, s, gap, words[0], tail) && SplitsInto(space, tail, words[1..]);
      assert [c] + s == ([c] + gap) + words[0] + tail;
      assert WordFirst(space, [c] + s, [c] + gap, words[0], tail);
    }
  }

  lemma LeadingWord(space: char -> bool, word: string, s: string, words: seq<string>)
    requires word != "" && IsSolid(space, word) && (s == "" || space(s[0])) && SplitsInto(space, s, words)
    ensures SplitsInto(space, word + s, [word] + words)
  {
    assert word + s == "" + word + s;
    assert WordFirst(space, word + s, "", word, s) && ([word] + words)[1..] == words;
  }

  /** Flattening keeps the words of a text, in order, one blank apart. */
  lemma {:induction false} FlattenKeepsWords(space: char -> bool, s: string, pending: string) returns (words: seq<string>)
    requires IsSolid(space, pending)
    ensures SplitsInto(space, pending + s, words) && Flatten(space, s, pending) == Spaced(words)
    decreases |s|
  {
    if s == "" {
      words := if pending == "" then [] else [pending];
      assert pending + s == pending;
      if pending != "" {
        LeadingWord(space, pending, "", []);
      }
    } else if space(s[0]) {
      var rest := FlattenKeepsWords(space, s[1..], "");
      assert "" + s[1..] == s[1..] && s == [s[0]] + s[1..];
      LeadingBlank(space, s[0], s[1..], rest);
      words := if pending == "" then rest else [pending] + rest;
      if pending == "" {
        assert pending + s == s;
      } else {
        LeadingWord(space, pending, s, rest);
        SpacedIsEmpty(space, s, rest);
        assert ([pending] + rest)[1..] == rest;
      }
    } else {
      words := FlattenKeepsWords(space, s[1..], pending + [s[0]]);
      assert pending + [s[0]] + s[1..] == pending + s;
    }
  }

  lemma SpacedIsEmpty(space: char -> bool, s: string, words: seq<string>)
    requires SplitsInto(space, s, words)
    ensures Spaced(words) == "" <==> words == []
  {
  }

  /** What is reported around an access: the words between the semicolons on either side, one blank apart. */
  lemma StatementMeans(lx: Lexis, body: string, at: nat) returns (s: nat, e: nat, words: seq<string>)
    requires at <= |body|
    ensures s <= at <= e <= |body| && (s == 0 || body[s - 1] == ';') && (e == |body| || body[e] == ';')
    ensures forall k :: s <= k < e ==> body[k] != ';'
    ensures SplitsInto(lx.space, body[s..e], words) && StatementOf(lx, body, at) == Spaced(words)
  {
    s, e := StatementStart(body, at), StatementEnd(body, at);
    StatementBefore(body, at);
    StatementAfter(body, at);
    words := FlattenKeepsWords(lx.space, body[s..e], "");
    assert "" + body[s..e] == body[s..e];
  }
}
