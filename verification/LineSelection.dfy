/** Finding the line of a search key part by part, and the preview around it. */
module LineSelection {
  import opened Strings
  import opened Wrappers

  const MAX_INTEGER: nat := 0x7fff_ffff_ffff_ffff

  /** A distance between strings, which are shorter than the largest integer. */
  type Distance = d: nat | d < MAX_INTEGER

  /** How far a line is from the two substrings of a part, if it matches them. */
  type Matcher = (string, string, string) -> Option<Distance>

  /** The two substrings that a part of the search key gives on the current line. */
  type Splitter = (string, nat) -> (string, string)

  // ---- One step ----

  predicate IsComment(line: string) {
    "#" <= TrimSpace(line) || "//" <= TrimSpace(line)
  }

  /** The distance of line `i`, if it is to be considered from line `current` on. */
  function At(lines: seq<string>, current: nat, s1: string, s2: string, match_: Matcher, i: int): Option<Distance> {
    if current <= i < |lines| && !IsComment(lines[i]) then match_(s1, s2, lines[i]) else None
  }

  /** `next` is the least line among those at minimum distance. */
  ghost predicate IsNearest(lines: seq<string>, current: nat, s1: string, s2: string, match_: Matcher, next: int) {
    var d := At(lines, current, s1, s2, match_, next);
    d.Some? && forall i ::
      var e := At(lines, current, s1, s2, match_, i);
      e.Some? ==> d.value < e.value || (d.value == e.value && next <= i)
  }

  ghost predicate Unmatched(lines: seq<string>, current: nat, s1: string, s2: string, match_: Matcher) {
    forall i :: At(lines, current, s1, s2, match_, i).None?
  }

  /** The map is read in whatever order it yields its keys. */
  method SelectLineWithMinimumDistance(distances: map<nat, Distance>, startingFrom: nat) returns (line: nat)
    ensures distances == map[] ==> line == startingFrom
    ensures distances != map[] ==>
              line in distances && forall i | i in distances ::
                distances[line] < distances[i] || (distances[line] == distances[i] && line <= i)
  {
    line := startingFrom;
    var minDistance := MAX_INTEGER;
    var rest := distances.Keys;
    while rest != {}
      invariant rest <= distances.Keys
      invariant minDistance == MAX_INTEGER <==> rest == distances.Keys
      invariant minDistance == MAX_INTEGER ==> line == startingFrom
      invariant minDistance < MAX_INTEGER ==> line in distances && distances[line] == minDistance
      invariant forall i | i in distances && i !in rest :: minDistance < distances[i] || (minDistance == distances[i] && line <= i)
    {
      var i :| i in rest;
      var distance := distances[i];
      if distance < minDistance || (distance == minDistance && i < line) {
        minDistance, line := distance, i;
      }
      rest := rest - {i};
    }
  }

  class DefaultDetectLineResponse {
    var currentLine: nat
    var isBreak: bool
    var foundAtLeastOne: bool

    constructor ()
      ensures currentLine == 0 && !isBreak && !foundAtLeastOne
    {
      currentLine, isBreak, foundAtLeastOne := 0, false, false;
    }

    method DetectCurrentLine(s1: string, s2: string, match_: Matcher, lines: seq<string>)
      modifies this
      ensures isBreak <==> Unmatched(lines, old(currentLine), s1, s2, match_)
      ensures isBreak ==> currentLine == old(currentLine) && foundAtLeastOne == old(foundAtLeastOne)
      ensures !isBreak ==> IsNearest(lines, old(currentLine), s1, s2, match_, currentLine) && foundAtLeastOne
    {
      hide TrimSpace;
      var distances: map<nat, Distance> := map[];
      var i := currentLine;
      while i < |lines|
        invariant currentLine <= i
        invariant forall k :: k in distances <==> k < i && At(lines, currentLine, s1, s2, match_, k).Some?
        invariant forall k | k in distances :: distances[k] == At(lines, currentLine, s1, s2, match_, k).value
      {
        var trimmed := TrimSpace(lines[i]);
        if !("#" <= trimmed || "//" <= trimmed) {
          var d := match_(s1, s2, lines[i]);
          if d.Some? {
            distances := distances[i := d.value];
          }
        }
        i := i + 1;
      }
      if |distances| == 0 {
        isBreak := true;
        assert forall k: nat :: k !in distances;
        return;
      }
      var next := SelectLineWithMinimumDistance(distances, currentLine);
      forall k ensures At(lines, currentLine, s1, s2, match_, k).Some? ==> k >= 0 && k in distances {
      }
      currentLine := next;
      isBreak := false;
      foundAtLeastOne := true;
    }
  }

  // ---- All parts of the search key ----

  /** The lines that the parts lead through: each part to the nearest line, until one has none. */
  ghost predicate IsTrace(lines: seq<string>, parts: seq<string>, split: Splitter, match_: Matcher, trace: seq<nat>) {
    && 1 <= |trace| <= |parts| + 1 && trace[0] == 0
    && forall k | 0 <= k < |trace| - 1 :: Leads(lines, parts[k], split, match_, trace[k], trace[k + 1])
  }

  ghost predicate Leads(lines: seq<string>, part: string, split: Splitter, match_: Matcher, current: nat, next: nat) {
    IsNearest(lines, current, split(part, current).0, split(part, current).1, match_, next)
  }

  ghost predicate Stops(lines: seq<string>, parts: seq<string>, split: Splitter, match_: Matcher, trace: seq<nat>) {
    IsTrace(lines, parts, split, match_, trace)
    && var last := trace[|trace| - 1];
       |trace| == |parts| + 1
       || Unmatched(lines, last, split(parts[|trace| - 1], last).0, split(parts[|trace| - 1], last).1, match_)
  }

  /** The line of the finding, counted from 1, unless not even the first part matches. */
  method DetectLine(lines: seq<string>, parts: seq<string>, outputLines: nat, split: Splitter, match_: Matcher)
    returns (line: Option<nat>, preview: seq<CodeLine>, ghost trace: seq<nat>)
    requires 1 <= outputLines
    ensures Stops(lines, parts, split, match_, trace)
    ensures line == if |trace| > 1 then Some(trace[|trace| - 1] + 1) else None
    ensures line.Some? ==> 1 <= line.value <= |lines| && preview == Preview(line.value - 1, outputLines, lines)
    ensures line.None? ==> preview == []
  {
    var detector := new DefaultDetectLineResponse();
    trace := [0];
    var k := 0;
    while k < |parts|
      invariant 0 <= k <= |parts| && |trace| == k + 1 && detector.currentLine == trace[k] && !detector.isBreak
      invariant IsTrace(lines, parts, split, match_, trace)
      invariant detector.foundAtLeastOne <==> k > 0
      invariant k > 0 ==> trace[k] < |lines|
    {
      var (s1, s2) := split(parts[k], detector.currentLine);
      detector.DetectCurrentLine(s1, s2, match_, lines);
      if detector.isBreak {
        break;
      }
      trace := trace + [detector.currentLine];
      k := k + 1;
    }
    line, preview := None, [];
    if detector.foundAtLeastOne {
      line := Some(detector.currentLine + 1);
      preview := GetAdjacentVulnLines(detector.currentLine, outputLines, lines);
    }
  }

  /** The current line never goes back. */
  lemma {:induction false} TraceNeverDecreases(lines: seq<string>, parts: seq<string>, split: Splitter, match_: Matcher, trace: seq<nat>, i: nat, j: nat)
    requires IsTrace(lines, parts, split, match_, trace) && i <= j < |trace|
    ensures trace[i] <= trace[j]
    decreases j
  {
    if i < j {
      TraceNeverDecreases(lines, parts, split, match_, trace, i, j - 1);
      assert Leads(lines, parts[j - 1], split, match_, trace[j - 1], trace[j]);
    }
  }

  /** The lines do not depend on the order in which any map is read. */
  lemma {:induction false} TraceIsUnique(lines: seq<string>, parts: seq<string>, split: Splitter, match_: Matcher, a: seq<nat>, b: seq<nat>)
    requires Stops(lines, parts, split, match_, a) && Stops(lines, parts, split, match_, b)
    ensures a == b
  {
    var n := if |a| <= |b| then |a| else |b|;
    hide IsNearest, Unmatched;
    SamePrefix(lines, parts, split, match_, a, b, n);
    if |a| < |b| {
      NearestOrNone(lines, parts, split, match_, b, |a| - 1);
    } else if |b| < |a| {
      NearestOrNone(lines, parts, split, match_, a, |b| - 1);
    }
    assert a == a[..n] && b == b[..n];
  }

  lemma NearestOrNone(lines: seq<string>, parts: seq<string>, split: Splitter, match_: Matcher, trace: seq<nat>, k: nat)
    requires IsTrace(lines, parts, split, match_, trace) && k + 1 < |trace|
    ensures !Unmatched(lines, trace[k], split(parts[k], trace[k]).0, split(parts[k], trace[k]).1, match_)
  {
    assert Leads(lines, parts[k], split, match_, trace[k], trace[k + 1]);
  }

  lemma {:induction false} SamePrefix(lines: seq<string>, parts: seq<string>, split: Splitter, match_: Matcher, a: seq<nat>, b: seq<nat>, n: nat)
    requires IsTrace(lines, parts, split, match_, a) && IsTrace(lines, parts, split, match_, b)
    requires n <= |a| && n <= |b|
    ensures a[..n] == b[..n]
  {
    if n > 1 {
      SamePrefix(lines, parts, split, match_, a, b, n - 1);
      assert a[n - 2] == a[..n - 1][n - 2] == b[n - 2];
      assert Leads(lines, parts[n - 2], split, match_, a[n - 2], a[n - 1]);
      assert Leads(lines, parts[n - 2], split, match_, b[n - 2], b[n - 1]);
      hide IsComment;
      assert a[..n] == a[..n - 1] + [a[n - 1]] && b[..n] == b[..n - 1] + [b[n - 1]];
    }
  }

  // ---- The preview ----

  datatype CodeLine = CodeLine(position: int, line: string)

  /** Lines `start` up to `end` with their numbers. */
  function Numbered(lines: seq<string>, start: nat, end: nat): (r: seq<CodeLine>)
    requires start <= end <= |lines|
  {
    if start == end then [] else Numbered(lines, start, end - 1) + [CodeLine(end, lines[end - 1])]
  }

  method CreateVulnLines(startPos: int, lines: seq<string>, ghost all: seq<string>, ghost start: nat) returns (vulns: seq<CodeLine>)
    requires startPos == start + 1 && start + |lines| <= |all| && lines == all[start..start + |lines|]
    ensures vulns == Numbered(all, start, start + |lines|)
  {
    vulns := [];
    var pos := startPos;
    for i := 0 to |lines|
      invariant pos == startPos + i && vulns == Numbered(all, start, start + i)
    {
      vulns := vulns + [CodeLine(pos, lines[i])];
      pos := pos + 1;
    }
  }

  function Start(idx: nat, adj: nat, n: nat): nat {
    if adj > n || idx == 0 then 0
    else if idx == n - 1 then n - adj
    else if idx < (adj - 1) / 2 then 0
    else idx - (adj - 1) / 2
  }

  function End(idx: nat, adj: nat, n: nat): nat {
    if adj > n then n
    else if idx == 0 then adj
    else if idx + adj / 2 + 1 > n then n
    else idx + adj / 2 + 1
  }

  lemma WindowFits(idx: nat, adj: nat, n: nat)
    requires idx < n && 1 <= adj
    ensures Start(idx, adj, n) <= idx < End(idx, adj, n) <= n
    ensures End(idx, adj, n) - Start(idx, adj, n) <= adj
    ensures idx == 0 || idx == n - 1 ==> End(idx, adj, n) - Start(idx, adj, n) == if adj <= n then adj else n
    ensures (adj - 1) / 2 <= idx && idx + adj / 2 < n ==> End(idx, adj, n) - Start(idx, adj, n) == adj
  {
  }

  function Preview(idx: nat, adj: nat, lines: seq<string>): seq<CodeLine>
    requires idx < |lines| && 1 <= adj
  {
    WindowFits(idx, adj, |lines|);
    Numbered(lines, Start(idx, adj, |lines|), End(idx, adj, |lines|))
  }

  /** The preview shows a contiguous run of lines under their true numbers; the line is among them,
      there are at most `adj`, and exactly as many as asked for or there are where the line is the
      first or the last one, or far enough from both ends. */
  lemma PreviewIs(idx: nat, adj: nat, lines: seq<string>)
    requires idx < |lines| && 1 <= adj
    ensures
      var p, n := Preview(idx, adj, lines), |lines|;
      && 1 <= |p| <= adj
      && (forall k | 0 <= k < |p| :: IsLine(lines, p[k]) && p[k].position == p[0].position + k)
      && p[0].position <= idx + 1 <= p[|p| - 1].position
      && (idx == 0 || idx == n - 1 ==> |p| == if adj <= n then adj else n)
      && ((adj - 1) / 2 <= idx && idx + adj / 2 < n ==> |p| == adj)
  {
    hide Start, End;
    WindowFits(idx, adj, |lines|);
    NumberedIs(lines, Start(idx, adj, |lines|), End(idx, adj, |lines|));
  }

  predicate IsLine(lines: seq<string>, c: CodeLine) {
    1 <= c.position <= |lines| && lines[c.position - 1] == c.line
  }

  lemma {:induction false} NumberedIs(lines: seq<string>, start: nat, end: nat)
    requires start <= end <= |lines|
    ensures
      var r := Numbered(lines, start, end);
      |r| == end - start && forall k | 0 <= k < |r| :: IsLine(lines, r[k]) && r[k].position == start + 1 + k
    decreases end
  {
    if start < end {
      NumberedIs(lines, start, end - 1);
    }
  }

  method GetAdjacentVulnLines(idx: nat, adj: nat, lines: seq<string>) returns (vulns: seq<CodeLine>)
    requires idx < |lines| && 1 <= adj
    ensures vulns == Preview(idx, adj, lines)
  {
    var n := |lines|;
    var wanted, endPos, startPos := adj, n, 0;
    if adj <= n {
      endPos := idx + adj / 2 + 1;
      if n < endPos {
        endPos := n;
      }
      var startAdj := if adj % 2 == 0 then adj - 1 else adj;
      startPos := idx - startAdj / 2;
      if startPos < 0 {
        startPos := 0;
      }
    } else {
      wanted := n;
    }
    hide Numbered;
    if idx == 0 {
      vulns := CreateVulnLines(1, lines[..wanted], lines, 0);
    } else if idx == n - 1 {
      vulns := CreateVulnLines(n - wanted + 1, lines[n - wanted..], lines, n - wanted);
    } else {
      vulns := CreateVulnLines(startPos + 1, lines[startPos..endPos], lines, startPos);
    }
  }
}
