/** Remediating a file: replacements are written into the buffer of lines, additions are put into
    copies of it from the bottom to the top. */
module Remediation {
  import opened Sorting
  import opened Strings
  import opened Wrappers

  datatype Fix = Fix(line: int, text: string, similarityID: string)

  /** `decode` reads the JSON of a replacement: the text to replace and its replacement, unless
      that is no JSON or both are empty. */
  datatype Replace = Replace(before: string, after: string)

  type Decoder = string -> Option<Replace>

  /** Whether a remediation removes the result and can be written: arbitrary at every step. */
  type Verdict = (nat, Fix, seq<string>) -> bool

  // ---- Texts ----

  function FirstLine(s: string): string {
    if s == "" || s[0] == '\n' then "" else [s[0]] + FirstLine(s[1..])
  }

  /** The blanks and dashes at the start of a line. */
  function GetBefore(line: string): string {
    if line == "" || line[0] !in " \t\n\r\U{C}-" then "" else [line[0]] + GetBefore(line[1..])
  }

  predicate Blank(c: char) {
    c in " \t\n\r\U{C}-"
  }

  /** What stands before a line is all of its blanks and dashes up to the first other character. */
  lemma {:induction false} BeforeIs(line: string)
    ensures GetBefore(line) <= line && forall c | c in GetBefore(line) :: Blank(c)
    ensures |GetBefore(line)| < |line| ==> !Blank(line[|GetBefore(line)|])
  {
    if line != "" {
      BeforeIs(line[1..]);
      assert line == [line[0]] + line[1..];
    }
  }

  /** The first line is all up to the first newline. */
  lemma {:induction false} FirstLineIs(s: string)
    ensures FirstLine(s) <= s && '\n' !in FirstLine(s)
    ensures |FirstLine(s)| < |s| ==> s[|FirstLine(s)|] == '\n'
  {
    if s != "" {
      FirstLineIs(s[1..]);
      assert s == [s[0]] + s[1..];
    }
  }

  // ---- Replacements ----

  function ReplacedLine(line: string, text: string, decode: Decoder): string {
    match decode(text)
    case None => line
    case Some(r) => ReplaceFirst(line, r.before, r.after)
  }

  function Replaced(lines: seq<string>, r: Fix, decode: Decoder): seq<string>
    requires 1 <= r.line <= |lines|
  {
    lines[r.line - 1 := ReplacedLine(lines[r.line - 1], r.text, decode)]
  }

  ghost predicate OnLines(rs: seq<Fix>, n: nat) {
    forall i | 0 <= i < |rs| :: 1 <= rs[i].line <= n
  }

  /** The buffer after the replacements, accepted or not, and how many were accepted. */
  datatype Replacements = Replacements(lines: seq<string>, accepted: nat)

  function AllReplaced(lines: seq<string>, rs: seq<Fix>, decode: Decoder, verdict: Verdict): (o: Replacements)
    requires OnLines(rs, |lines|)
    ensures |o.lines| == |lines|
  {
    if rs == [] then Replacements(lines, 0)
    else
      var o, r := AllReplaced(lines, rs[..|rs| - 1], decode, verdict), rs[|rs| - 1];
      var after := Replaced(o.lines, r, decode);
      Replacements(after, o.accepted + if after != o.lines && verdict(|rs| - 1, r, after) then 1 else 0)
  }

  /** A rejected replacement is not undone: the buffer does not depend on the verdicts. */
  lemma {:induction false} ReplacementsStay(lines: seq<string>, rs: seq<Fix>, decode: Decoder, v: Verdict, w: Verdict)
    requires OnLines(rs, |lines|)
    ensures AllReplaced(lines, rs, decode, v).lines == AllReplaced(lines, rs, decode, w).lines
  {
    if rs != [] {
      ReplacementsStay(lines, rs[..|rs| - 1], decode, v, w);
    }
  }

  /** Writes into `lines` itself, and returns it, or nothing if the line stays as it is. */
  method Replacement(r: Fix, lines: array<string>, decode: Decoder) returns (remediated: array<string>)
    requires 1 <= r.line <= lines.Length
    modifies lines
    ensures lines[..] == Replaced(old(lines[..]), r, decode)
    ensures if lines[..] != old(lines[..]) then remediated == lines else remediated.Length == 0 && fresh(remediated)
  {
    var originalLine := lines[r.line - 1];
    var replacement := decode(r.text);
    if replacement.None? {
      return new string[0];
    }
    var after := ReplaceFirst(lines[r.line - 1], replacement.value.before, replacement.value.after);
    if originalLine == after {
      return new string[0];
    }
    lines[r.line - 1] := after;
    assert lines[..][r.line - 1] != old(lines[..])[r.line - 1];
    remediated := lines;
  }

  // ---- Additions ----

  predicate Applies(lines: seq<string>, a: Fix)
    requires a.line >= 0
  {
    a.line < |lines| && TrimSpace(lines[a.line]) != TrimSpace(FirstLine(a.text))
  }

  function NewLine(lines: seq<string>, a: Fix): string
    requires 0 <= a.line < |lines|
  {
    GetBefore(lines[a.line]) + a.text
  }

  function PutAt(lines: seq<string>, k: nat, line: string): seq<string>
    requires k <= |lines|
  {
    lines[..k] + [line] + lines[k..]
  }

  /** The buffer with one addition, made of copies: `lines` is left alone. */
  method Addition(a: Fix, lines: array<string>) returns (remediated: array<string>)
    requires a.line >= 0
    ensures fresh(remediated) && lines[..] == old(lines[..])
    ensures if Applies(lines[..], a) then remediated[..] == PutAt(lines[..], a.line, NewLine(lines[..], a))
            else remediated.Length == 0
  {
    if lines.Length <= a.line {
      return new string[0];
    }
    if TrimSpace(lines[a.line]) == TrimSpace(FirstLine(a.text)) {
      return new string[0];
    }
    var begin, end := lines[..a.line], lines[a.line..];
    var before := GetBefore(lines[a.line]);
    var all := begin + [before + a.text] + end;
    remediated := new string[|all|](i requires 0 <= i < |all| => all[i]);
    assert remediated[..] == all;
    assert lines[..][..a.line] == begin && lines[..][a.line..] == end;
  }

  /** An accepted addition: the line it is for and the text that was put behind that line. */
  datatype Placed = Placed(line: nat, text: string)

  datatype Additions = Additions(lines: seq<string>, placed: seq<Placed>)

  ghost predicate Counted(adds: seq<Fix>) {
    forall i | 0 <= i < |adds| :: adds[i].line >= 0
  }

  function AllAdded(lines: seq<string>, adds: seq<Fix>, verdict: Verdict): Additions
    requires Counted(adds)
  {
    if adds == [] then Additions(lines, [])
    else
      var o, a := AllAdded(lines, adds[..|adds| - 1], verdict), adds[|adds| - 1];
      if Applies(o.lines, a) && verdict(|adds| - 1, a, PutAt(o.lines, a.line, NewLine(o.lines, a))) then
        Additions(PutAt(o.lines, a.line, NewLine(o.lines, a)), o.placed + [Placed(a.line, NewLine(o.lines, a))])
      else o
  }

  /** What is put in for an addition: its text behind blanks and dashes, at its line. */
  ghost predicate PutFor(p: Placed, a: Fix) {
    a.line == p.line && exists indent :: p.text == indent + a.text && forall c | c in indent :: Blank(c)
  }

  /** Only additions are put in, each with its own text, at its own line and in their order. */
  lemma {:induction false} PlacedAreAdditions(lines: seq<string>, adds: seq<Fix>, verdict: Verdict) returns (at: seq<nat>)
    requires Counted(adds)
    ensures |at| == |AllAdded(lines, adds, verdict).placed|
    ensures forall k | 0 <= k < |at| :: at[k] < |adds| && PutFor(AllAdded(lines, adds, verdict).placed[k], adds[at[k]])
    ensures forall k, l | 0 <= k < l < |at| :: at[k] < at[l]
    decreases |adds|
  {
    at := [];
    if adds != [] {
      hide PutFor, Applies, PutAt;
      var front, a := adds[..|adds| - 1], adds[|adds| - 1];
      at := PlacedAreAdditions(lines, front, verdict);
      var o := AllAdded(lines, front, verdict);
      if |AllAdded(lines, adds, verdict).placed| > |o.placed| {
        AppliesInside(o.lines, a);
        NewLineFor(o.lines, a);
        at := at + [|adds| - 1];
      }
    }
  }

  lemma AppliesInside(lines: seq<string>, a: Fix)
    ensures a.line >= 0 && Applies(lines, a) ==> a.line < |lines|
  {
  }

  lemma NewLineFor(lines: seq<string>, a: Fix)
    requires 0 <= a.line < |lines|
    ensures PutFor(Placed(a.line, NewLine(lines, a)), a)
  {
    BeforeIs(lines[a.line]);
  }

  ghost predicate Descending(adds: seq<Fix>) {
    forall i, j | 0 <= i < j < |adds| :: adds[i].line >= adds[j].line
  }

  method SortDown(adds: seq<Fix>) returns (sorted: seq<Fix>)
    ensures multiset(sorted) == multiset(adds) && Descending(sorted)
  {
    var above := (a: Fix, b: Fix) => a.line >= b.line;
    sorted := SortBy(adds, above);
    assert Ordered(sorted, above);
  }

  // ---- The whole file ----

  class Summary {
    var actualRemediationDoneNumber: nat

    method WriteRemediation(remediated: array<string>, lines: array<string>, written: bool) returns (r: array<string>)
      modifies this
      ensures r == (if written then remediated else lines)
      ensures actualRemediationDoneNumber == old(actualRemediationDoneNumber) + if written then 1 else 0
    {
      r := lines;
      if written {
        actualRemediationDoneNumber := actualRemediationDoneNumber + 1;
        r := remediated;
      }
    }

    method RemediateFile(content: array<string>, replacements: seq<Fix>, additions: seq<Fix>, decode: Decoder,
                         replaced: Verdict, added: Verdict)
      returns (lines: array<string>, sorted: seq<Fix>)
      requires OnLines(replacements, content.Length) && Counted(additions)
      modifies this, content
      ensures multiset(sorted) == multiset(additions) && Descending(sorted) && Counted(sorted)
      ensures
        var base := AllReplaced(old(content[..]), replacements, decode, replaced);
        && content[..] == base.lines
        && lines[..] == AllAdded(base.lines, sorted, added).lines
        && actualRemediationDoneNumber ==
           old(actualRemediationDoneNumber) + base.accepted + |AllAdded(base.lines, sorted, added).placed|
    {
      lines := ReplaceAll(content, replacements, decode, replaced);
      sorted := SortDown(additions);
      SameFixes(sorted, additions);
      lines := AddAll(lines, sorted, added);
    }

    method ReplaceAll(content: array<string>, rs: seq<Fix>, decode: Decoder, verdict: Verdict) returns (lines: array<string>)
      requires OnLines(rs, content.Length)
      modifies this, content
      ensures lines == content
      ensures
        var o := AllReplaced(old(content[..]), rs, decode, verdict);
        content[..] == o.lines && actualRemediationDoneNumber == old(actualRemediationDoneNumber) + o.accepted
    {
      lines := content;
      ghost var start, count := content[..], actualRemediationDoneNumber;
      assert rs[..0] == [];
      for i := 0 to |rs|
        invariant lines == content && OnLines(rs[..i], content.Length)
        invariant lines[..] == AllReplaced(start, rs[..i], decode, verdict).lines
        invariant actualRemediationDoneNumber == count + AllReplaced(start, rs[..i], decode, verdict).accepted
      {
        ghost var before := lines[..];
        assert rs[..i + 1][..i] == rs[..i] && OnLines(rs[..i + 1], content.Length);
        hide ReplacedLine;
        var remediated := Replacement(rs[i], lines, decode);
        assert lines[..] == Replaced(before, rs[i], decode);
        if remediated.Length > 0 {
          lines := WriteRemediation(remediated, lines, verdict(i, rs[i], remediated[..]));
        }
      }
      assert rs[..|rs|] == rs;
    }

    method AddAll(start: array<string>, adds: seq<Fix>, verdict: Verdict) returns (lines: array<string>)
      requires Counted(adds)
      modifies this
      ensures start[..] == old(start[..])
      ensures
        var o := AllAdded(start[..], adds, verdict);
        lines[..] == o.lines && actualRemediationDoneNumber == old(actualRemediationDoneNumber) + |o.placed|
    {
      lines := start;
      assert adds[..0] == [];
      for i := 0 to |adds|
        invariant start[..] == old(start[..]) && Counted(adds[..i])
        invariant lines[..] == AllAdded(start[..], adds[..i], verdict).lines
        invariant actualRemediationDoneNumber == old(actualRemediationDoneNumber) + |AllAdded(start[..], adds[..i], verdict).placed|
      {
        assert adds[..i + 1][..i] == adds[..i];
        hide Applies, NewLine, PutAt;
        var remediated := Addition(adds[i], lines);
        if Applies(lines[..], adds[i]) {
          NotEmpty(lines[..], adds[i]);
          assert remediated[..] != [];
        }
        if remediated.Length > 0 {
          lines := WriteRemediation(remediated, lines, verdict(i, adds[i], remediated[..]));
        }
      }
      assert adds[..|adds|] == adds;
    }
  }

  lemma NotEmpty(lines: seq<string>, a: Fix)
    requires a.line >= 0 && Applies(lines, a)
    ensures a.line < |lines| && PutAt(lines, a.line, NewLine(lines, a)) != []
  {
  }

  lemma SameFixes(sorted: seq<Fix>, additions: seq<Fix>)
    requires multiset(sorted) == multiset(additions) && Counted(additions)
    ensures Counted(sorted)
  {
    forall i | 0 <= i < |sorted| ensures sorted[i].line >= 0 {
      assert sorted[i] in multiset(sorted);
      assert sorted[i] in additions;
    }
  }

  // ---- Where additions end up ----

  /** The additions for line `k`, the last one first. */
  function PlacedAt(placed: seq<Placed>, k: nat): seq<string> {
    if placed == [] then []
    else
      var p, rest := placed[|placed| - 1], PlacedAt(placed[..|placed| - 1], k);
      if p.line == k then [p.text] + rest else rest
  }

  /** The lines with the additions for line `k` right behind line `k`. */
  function Woven(base: seq<string>, placed: seq<Placed>): seq<string> {
    if base == [] then PlacedAt(placed, 0)
    else Woven(base[..|base| - 1], placed) + [base[|base| - 1]] + PlacedAt(placed, |base|)
  }

  ghost predicate From(placed: seq<Placed>, k: nat) {
    forall i | 0 <= i < |placed| :: placed[i].line >= k
  }

  lemma {:induction false} NonePlaced(placed: seq<Placed>, k: nat)
    requires From(placed, k + 1)
    ensures PlacedAt(placed, k) == []
  {
    if placed != [] {
      NonePlaced(placed[..|placed| - 1], k);
    }
  }

  lemma {:induction false} WovenStart(base: seq<string>, placed: seq<Placed>)
    requires From(placed, |base|)
    ensures Woven(base, placed) == base + PlacedAt(placed, |base|)
  {
    if base != [] {
      WovenStart(base[..|base| - 1], placed);
      NonePlaced(placed, |base| - 1);
      assert base == base[..|base| - 1] + [base[|base| - 1]];
    }
  }

  /** An addition for a line not below the earlier ones goes right behind that line. */
  lemma {:induction false} PlaceNext(base: seq<string>, placed: seq<Placed>, p: Placed)
    requires p.line <= |base| && From(placed, p.line)
    ensures p.line <= |Woven(base, placed)| && Woven(base, placed)[..p.line] == base[..p.line]
    ensures Woven(base, placed + [p]) == PutAt(Woven(base, placed), p.line, p.text)
    decreases |base|
  {
    assert (placed + [p])[..|placed|] == placed;
    if p.line == |base| {
      WovenStart(base, placed);
      WovenStart(base, placed + [p]);
    } else {
      var front, last, n := base[..|base| - 1], base[|base| - 1], |base|;
      PlaceNext(front, placed, p);
      hide Woven;
      var w, more := Woven(front, placed), [last] + PlacedAt(placed, n);
      WovenSnoc(base, placed);
      WovenSnoc(base, placed + [p]);
      PutInFront(w, more, p.line, p.text);
      assert base[..p.line] == front[..p.line];
    }
  }

  lemma WovenSnoc(base: seq<string>, placed: seq<Placed>)
    requires base != []
    ensures Woven(base, placed) == Woven(base[..|base| - 1], placed) + ([base[|base| - 1]] + PlacedAt(placed, |base|))
  {
    hide PlacedAt;
  }

  lemma PutInFront(a: seq<string>, b: seq<string>, k: nat, line: string)
    requires k <= |a|
    ensures PutAt(a + b, k, line) == PutAt(a, k, line) + b
    ensures (a + b)[..k] == a[..k]
  {
  }

  ghost predicate IsWoven(base: seq<string>, o: Additions, low: int) {
    && o.lines == Woven(base, o.placed)
    && forall i | 0 <= i < |o.placed| :: low <= o.placed[i].line < |base|
  }

  /** The additions loop weaves the accepted additions into the lines it starts from. */
  lemma {:induction false} AdditionsAreWoven(base: seq<string>, adds: seq<Fix>, verdict: Verdict)
    requires Counted(adds) && Descending(adds)
    ensures IsWoven(base, AllAdded(base, adds, verdict), if adds == [] then 0 else adds[|adds| - 1].line)
  {
    if adds == [] {
      NothingWoven(base);
    } else {
      var front, a := adds[..|adds| - 1], adds[|adds| - 1];
      AdditionsAreWoven(base, front, verdict);
      var o := AllAdded(base, front, verdict);
      assert front != [] ==> front[|front| - 1].line >= a.line;
      hide NewLine, PutAt, Woven;
      assert IsWoven(base, o, a.line) by {
        assert front == [] ==> o.placed == [];
      }
      if Applies(o.lines, a) {
        StepWoven(base, o, a);
      }
      hide TrimSpace;
    }
  }

  lemma StepWoven(base: seq<string>, o: Additions, a: Fix)
    requires 0 <= a.line < |o.lines| && IsWoven(base, o, a.line)
    ensures
      var line := NewLine(o.lines, a);
      IsWoven(base, Additions(PutAt(o.lines, a.line, line), o.placed + [Placed(a.line, line)]), a.line)
  {
    hide Woven, PutAt, NewLine;
    if o.placed == [] {
      NothingWoven(base);
    } else {
      assert a.line <= o.placed[0].line < |base|;
    }
    PlaceNext(base, o.placed, Placed(a.line, NewLine(o.lines, a)));
  }

  lemma {:induction false} NothingWoven(base: seq<string>)
    ensures Woven(base, []) == base
  {
    if base != [] {
      NothingWoven(base[..|base| - 1]);
      assert base == base[..|base| - 1] + [base[|base| - 1]];
    }
  }

  /** Where line `k + 1` ends up: behind the lines before it and the additions for them. */
  function Position(placed: seq<Placed>, k: nat): nat {
    if k == 0 then |PlacedAt(placed, 0)| else Position(placed, k - 1) + 1 + |PlacedAt(placed, k)|
  }

  lemma {:induction false} WovenLength(base: seq<string>, placed: seq<Placed>)
    ensures |Woven(base, placed)| == Position(placed, |base|)
  {
    if base != [] {
      WovenLength(base[..|base| - 1], placed);
    }
  }

  lemma {:induction false} WovenAt(base: seq<string>, placed: seq<Placed>, k: nat)
    requires k < |base|
    ensures Position(placed, k) < Position(placed, k + 1) <= |Woven(base, placed)|
    ensures Woven(base, placed)[Position(placed, k)] == base[k]
    ensures Woven(base, placed)[Position(placed, k) + 1..Position(placed, k + 1)] == PlacedAt(placed, k + 1)
  {
    var front := base[..|base| - 1];
    WovenLength(base, placed);
    WovenLength(front, placed);
    if k < |base| - 1 {
      WovenAt(front, placed, k);
      assert base[k] == front[k];
    }
    hide PlacedAt;
  }

  /** Line `k + 1` of the base, and behind it exactly the additions for that line. */
  ghost predicate InPlace(lines: seq<string>, base: seq<string>, placed: seq<Placed>, k: nat)
    requires k < |base|
  {
    var at, next := Position(placed, k), Position(placed, k + 1);
    at < next <= |lines| && lines[at] == base[k] && lines[at + 1..next] == PlacedAt(placed, k + 1)
  }

  lemma {:induction false} WovenFirst(base: seq<string>, placed: seq<Placed>)
    ensures PlacedAt(placed, 0) <= Woven(base, placed)
  {
    if base != [] {
      WovenFirst(base[..|base| - 1], placed);
      hide PlacedAt;
    }
  }

  /** After the additions loop, with whatever verdicts: the lines are all there in their order, and
      between line `k` and the next one are exactly the accepted additions for line `k`. */
  lemma AdditionsInPlace(base: seq<string>, adds: seq<Fix>, verdict: Verdict)
    requires Counted(adds) && Descending(adds)
    ensures
      var o := AllAdded(base, adds, verdict);
      && |o.lines| == Position(o.placed, |base|)
      && (forall k | 0 <= k < |base| :: InPlace(o.lines, base, o.placed, k))
      && PlacedAt(o.placed, 0) <= o.lines
  {
    hide AllAdded, Woven, PlacedAt, Position;
    var o := AllAdded(base, adds, verdict);
    AdditionsAreWoven(base, adds, verdict);
    WovenLength(base, o.placed);
    forall k | 0 <= k < |base| ensures InPlace(o.lines, base, o.placed, k) {
      WovenAt(base, o.placed, k);
    }
    WovenFirst(base, o.placed);
  }
}
