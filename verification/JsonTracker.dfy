/** The token-driven first pass: a flat state machine that follows the nesting of a JSON
    document with a path stack and "do not pop" marks, and records the line of every token. */
module JsonTracker {
  import opened JsonDocument

  // ---- The state machine as a function ----

  datatype PathState = PathState(tmpParent: string, pathArr: seq<string>, lastWasDelim: bool, marks: map<int, string>)

  const START := PathState("", [], false, map[])

  predicate Opening(d: Delim) {
    d.LBrace? || d.LBracket?
  }

  /** An opening delimiter right after another delimiter has no name of its own: the innermost
      name is kept and marked, so that one closing delimiter is spent on the mark. */
  function DelimStep(s: PathState, d: Delim): PathState {
    var top := |s.pathArr| - 1;
    if Opening(d) then
      if !s.lastWasDelim || s.pathArr == [] then
        s.(pathArr := s.pathArr + [s.tmpParent], lastWasDelim := true)
      else
        s.(tmpParent := s.pathArr[top], marks := s.marks[top := s.pathArr[top]], lastWasDelim := true)
    else if top <= 0 then
      s.(lastWasDelim := true)
    else if top in s.marks && s.marks[top] == s.pathArr[top] then
      s.(marks := s.marks - {top}, lastWasDelim := true)
    else
      s.(pathArr := s.pathArr[..top], lastWasDelim := true)
  }

  datatype TrackRun = TrackRun(state: PathState, log: seq<Entry>)

  function Track(s: PathState, toks: seq<Token>): TrackRun {
    if toks == [] then TrackRun(s, [])
    else
      var r := Track(s, toks[..|toks| - 1]);
      match toks[|toks| - 1]
      case Delimiter(d) => TrackRun(DelimStep(r.state, d), r.log)
      case Text(text, end) =>
        TrackRun(r.state.(tmpParent := text, lastWasDelim := false), r.log + [Entry(text, r.state.pathArr, end)])
  }

  lemma {:induction false} TrackConcat(s: PathState, a: seq<Token>, b: seq<Token>)
    ensures Track(s, a + b).state == Track(Track(s, a).state, b).state
    ensures Track(s, a + b).log == Track(s, a).log + Track(Track(s, a).state, b).log
    decreases |b|
  {
    if b == [] {
      assert a + b == a;
    } else {
      TrackConcat(s, a, b[..|b| - 1]);
      assert (a + b)[..|a + b| - 1] == a + b[..|b| - 1];
    }
  }

  lemma TrackOne(s: PathState, t: Token)
    ensures Track(s, [t]).state ==
            if t.Delimiter? then DelimStep(s, t.d) else s.(tmpParent := t.text, lastWasDelim := false)
    ensures Track(s, [t]).log == if t.Delimiter? then [] else [Entry(t.text, s.pathArr, t.end)]
  {
    assert [t][..0] == [];
    assert Track(s, []) == TrackRun(s, []);
  }

  lemma TrackBrackets(s: PathState, open: Delim, body: seq<Token>, close: Delim)
    ensures
      var r := Track(DelimStep(s, open), body);
      Track(s, [Delimiter(open)] + body + [Delimiter(close)]) == TrackRun(DelimStep(r.state, close), r.log)
  {
    TrackOne(s, Delimiter(open));
    TrackConcat(s, [Delimiter(open)], body);
    TrackConcat(s, [Delimiter(open)] + body, [Delimiter(close)]);
    TrackOne(Track(s, [Delimiter(open)] + body).state, Delimiter(close));
  }

  // ---- The machine follows regular documents ----

  ghost predicate MarksInside(s: PathState) {
    && s.pathArr != []
    && forall i | i in s.marks :: 0 <= i < |s.pathArr|
  }

  /** From `s`, the machine reads `toks`, records `entries` and ends in `e` with the path and the
      marks restored. */
  ghost predicate Follows(s: PathState, toks: seq<Token>, entries: seq<Entry>, e: PathState) {
    Track(s, toks) == TrackRun(e, entries) && e.pathArr == s.pathArr && e.marks == s.marks
  }

  lemma FollowsBoth(s: PathState, a: seq<Token>, x: seq<Entry>, mid: PathState, b: seq<Token>, y: seq<Entry>, e: PathState)
    requires Follows(s, a, x, mid) && Follows(mid, b, y, e)
    ensures Follows(s, a + b, x + y, e)
  {
    TrackConcat(s, a, b);
  }

  lemma FollowsText(s: PathState, text: string, end: nat)
    ensures Follows(s, [Text(text, end)], [Entry(text, s.pathArr, end)], s.(tmpParent := text, lastWasDelim := false))
  {
    TrackOne(s, Text(text, end));
  }

  lemma {:induction false} FollowsMembers(s: PathState, members: seq<Member>) returns (e: PathState)
    requires MarksInside(s)
    requires forall m | m in members :: RegularShape(m.val)
    ensures Follows(s, MemberTokens(members), MemberEntries(members, s.pathArr), e)
    decreases members, 0
  {
    if members == [] {
      e := s;
    } else {
      var front, m := members[..|members| - 1], members[|members| - 1];
      var e0 := FollowsMembers(s, front);
      var e1 := e0.(tmpParent := m.key, lastWasDelim := false);
      FollowsText(e0, m.key, m.end);
      e := FollowsNamed(e1, m);
      FollowsBoth(s, MemberTokens(front), MemberEntries(front, s.pathArr), e0,
                  [Text(m.key, m.end)], [Entry(m.key, s.pathArr, m.end)], e1);
      FollowsBoth(s, MemberTokens(front) + [Text(m.key, m.end)],
                  MemberEntries(front, s.pathArr) + [Entry(m.key, s.pathArr, m.end)], e1,
                  Tokens(m.val), Entries(m.val, Below(s.pathArr, m)), e);
    }
  }

  /** The value of a member, read right after its key. */
  lemma {:induction false} FollowsNamed(s: PathState, m: Member) returns (e: PathState)
    requires MarksInside(s) && RegularShape(m.val)
    requires s.tmpParent == m.key && !s.lastWasDelim
    ensures Follows(s, Tokens(m.val), Entries(m.val, Below(s.pathArr, m)), e)
    decreases m.val, 1
  {
    match m.val
    case Scalar(text, _, end) =>
      FollowsText(s, text, end);
      e := s.(tmpParent := text, lastWasDelim := false);
    case Obj(members) =>
      var inner := FollowsMembers(DelimStep(s, LBrace), members);
      e := NamedBrackets(s, LBrace, MemberTokens(members), MemberEntries(members, Below(s.pathArr, m)), inner, RBrace);
    case Arr(items, _) =>
      var inner := FollowsItems(DelimStep(s, LBracket), items);
      e := NamedBrackets(s, LBracket, ItemTokens(items), ItemEntries(items, Below(s.pathArr, m)), inner, RBracket);
  }

  lemma NamedBrackets(s: PathState, open: Delim, body: seq<Token>, entries: seq<Entry>, inner: PathState, close: Delim)
    returns (e: PathState)
    requires MarksInside(s) && !s.lastWasDelim && Opening(open) && !Opening(close)
    requires Follows(DelimStep(s, open), body, entries, inner)
    ensures Follows(s, [Delimiter(open)] + body + [Delimiter(close)], entries, e)
  {
    TrackBrackets(s, open, body, close);
    e := DelimStep(inner, close);
    assert inner.pathArr[..|s.pathArr|] == s.pathArr;
  }

  ghost predicate RegularItem(item: Node) {
    RegularShape(item) && (item.Arr? ==> AllScalar(item.items))
  }

  /** A container without a name can be entered and left: its closing delimiter follows a mark. */
  ghost predicate CanMark(s: PathState) {
    |s.pathArr| > 1 && |s.pathArr| - 1 !in s.marks
  }

  /** The elements of an array, read right after its opening bracket. */
  lemma {:induction false} FollowsItems(s: PathState, items: seq<Node>) returns (e: PathState)
    requires MarksInside(s) && s.lastWasDelim
    requires ContainersFirst(items)
    requires forall item | item in items :: RegularItem(item)
    requires AllScalar(items) || CanMark(s)
    ensures Follows(s, ItemTokens(items), ItemEntries(items, s.pathArr), e)
    ensures e.lastWasDelim == (items == [] || !items[|items| - 1].Scalar?)
    decreases items, 0
  {
    if items == [] {
      e := s;
    } else {
      var front, item := items[..|items| - 1], items[|items| - 1];
      var mid := FollowsItems(s, front);
      e := FollowsUnnamed(mid, item);
      FollowsBoth(s, ItemTokens(front), ItemEntries(front, s.pathArr), mid, Tokens(item), Entries(item, s.pathArr), e);
    }
  }

  lemma {:induction false} FollowsUnnamed(s: PathState, item: Node) returns (e: PathState)
    requires MarksInside(s) && RegularItem(item)
    requires item.Scalar? || (s.lastWasDelim && CanMark(s))
    ensures Follows(s, Tokens(item), Entries(item, s.pathArr), e)
    ensures e.lastWasDelim == !item.Scalar?
    decreases item, 1
  {
    match item
    case Scalar(text, _, end) =>
      FollowsText(s, text, end);
      e := s.(tmpParent := text, lastWasDelim := false);
    case Obj(members) =>
      var inner := FollowsMembers(DelimStep(s, LBrace), members);
      e := UnnamedBrackets(s, LBrace, MemberTokens(members), MemberEntries(members, s.pathArr), inner, RBrace);
    case Arr(items, _) =>
      var inner := FollowsItems(DelimStep(s, LBracket), items);
      e := UnnamedBrackets(s, LBracket, ItemTokens(items), ItemEntries(items, s.pathArr), inner, RBracket);
  }

  lemma UnnamedBrackets(s: PathState, open: Delim, body: seq<Token>, entries: seq<Entry>, inner: PathState, close: Delim)
    returns (e: PathState)
    requires MarksInside(s) && s.lastWasDelim && CanMark(s) && Opening(open) && !Opening(close)
    requires Follows(DelimStep(s, open), body, entries, inner)
    ensures Follows(s, [Delimiter(open)] + body + [Delimiter(close)], entries, e)
    ensures e.lastWasDelim
  {
    TrackBrackets(s, open, body, close);
    e := DelimStep(inner, close);
    assert e.marks == s.marks;
  }

  /** The flat machine agrees with the recursive document: every token of a regular object is
      recorded under exactly the names of the containers around it, below the nameless root. */
  lemma MachineFollowsDocument(root: Node)
    requires root.Obj? && RegularShape(root)
    ensures Track(START, Tokens(root)).log == Entries(root, [""])
    ensures Track(START, Tokens(root)).state.pathArr == [""]
    ensures Track(START, Tokens(root)).state.marks == map[]
  {
    TrackBrackets(START, LBrace, MemberTokens(root.members), RBrace);
    assert DelimStep(START, LBrace).pathArr == [""];
    var e := FollowsMembers(DelimStep(START, LBrace), root.members);
  }

  // ---- Documents outside the class ----

  lemma {:induction false} FirstEntry(n: Node, where: seq<string>)
    ensures Entries(n, where) != [] ==> Entries(n, where)[0].where == where
    decreases n, 1
  {
    match n
    case Scalar(_, _, _) =>
    case Obj(members) => FirstMemberEntry(members, where);
    case Arr(items, _) => FirstItemEntry(items, where);
  }

  lemma {:induction false} FirstMemberEntry(members: seq<Member>, where: seq<string>)
    ensures MemberEntries(members, where) != [] ==> MemberEntries(members, where)[0].where == where
    decreases members, 0
  {
    if members != [] {
      FirstMemberEntry(members[..|members| - 1], where);
    }
  }

  lemma {:induction false} FirstItemEntry(items: seq<Node>, where: seq<string>)
    ensures ItemEntries(items, where) != [] ==> ItemEntries(items, where)[0].where == where
    decreases items, 0
  {
    if items != [] {
      FirstItemEntry(items[..|items| - 1], where);
      FirstEntry(items[|items| - 1], where);
    }
  }

  /** A container read right after a scalar is taken for that scalar's value: all its tokens go
      one path segment too deep, so it is recorded correctly exactly when it holds no token. */
  lemma ContainerAfterScalar(s: PathState, item: Node) returns (e: PathState)
    requires MarksInside(s) && !s.lastWasDelim
    requires !item.Scalar? && RegularShape(item)
    ensures Follows(s, Tokens(item), Entries(item, s.pathArr + [s.tmpParent]), e)
    ensures Track(s, Tokens(item)).log == Entries(item, s.pathArr) <==> Entries(item, s.pathArr) == []
  {
    var m := Member(s.tmpParent, 0, item);
    e := FollowsNamed(s, m);
    FirstEntry(item, s.pathArr);
    FirstEntry(item, s.pathArr + [s.tmpParent]);
    SameEntryCount(item, s.pathArr, s.pathArr + [s.tmpParent]);
  }

  lemma {:induction false} SameEntryCount(n: Node, p: seq<string>, q: seq<string>)
    ensures |Entries(n, p)| == |Entries(n, q)|
    decreases n, 1
  {
    match n
    case Scalar(_, _, _) =>
    case Obj(members) => SameMemberEntryCount(members, p, q);
    case Arr(items, _) => SameItemEntryCount(items, p, q);
  }

  lemma {:induction false} SameMemberEntryCount(members: seq<Member>, p: seq<string>, q: seq<string>)
    ensures |MemberEntries(members, p)| == |MemberEntries(members, q)|
    decreases members, 0
  {
    if members != [] {
      var m := members[|members| - 1];
      SameMemberEntryCount(members[..|members| - 1], p, q);
      SameEntryCount(m.val, Below(p, m), Below(q, m));
    }
  }

  lemma {:induction false} SameItemEntryCount(items: seq<Node>, p: seq<string>, q: seq<string>)
    ensures |ItemEntries(items, p)| == |ItemEntries(items, q)|
    decreases items, 0
  {
    if items != [] {
      SameItemEntryCount(items[..|items| - 1], p, q);
      SameEntryCount(items[|items| - 1], p, q);
    }
  }

  /** A container without a name inside a marked one spends the mark. */
  lemma SharedMark(s: PathState, items: seq<Node>, printed: string)
    requires MarksInside(s) && s.lastWasDelim && AllScalar(items)
    requires |s.pathArr| > 1
    requires |s.pathArr| - 1 in s.marks && s.marks[|s.pathArr| - 1] == s.pathArr[|s.pathArr| - 1]
    ensures
      var r := Track(s, Tokens(Arr(items, printed)));
      && r.log == ItemEntries(items, s.pathArr)
      && r.state.pathArr == s.pathArr
      && r.state.marks == s.marks - {|s.pathArr| - 1}
  {
    ScalarItems(items);
    hide AllScalar, ContainersFirst, RegularItem;
    var s1 := DelimStep(s, LBracket);
    assert s1.pathArr == s.pathArr && s1.marks == s.marks;
    var e := FollowsItems(s1, items);
    hide Track, ItemTokens, ItemEntries;
    TrackBrackets(s, LBracket, ItemTokens(items), RBracket);
  }

  lemma ScalarItems(items: seq<Node>)
    requires AllScalar(items)
    ensures ContainersFirst(items) && forall item | item in items :: RegularItem(item)
  {
  }

  /** Two nested containers without a name share one mark: the second closing delimiter already
      pops the name of the container around them, so whatever follows goes one level too high. */
  lemma NestedUnnamedLosesName(s: PathState, items: seq<Node>, inner: string, outer: string)
    requires MarksInside(s) && s.lastWasDelim && CanMark(s)
    requires AllScalar(items)
    ensures
      var r := Track(s, Tokens(Arr([Arr(items, inner)], outer)));
      && r.log == Entries(Arr([Arr(items, inner)], outer), s.pathArr)
      && r.state.pathArr == s.pathArr[..|s.pathArr| - 1]
      && r.state.marks == s.marks
  {
    var arr := Arr(items, inner);
    UnfoldNested(items, inner, outer, s.pathArr);
    MarkAndUnmark(s);
    hide Track, Tokens, Entries, ItemTokens, ItemEntries, AllScalar;
    SharedMark(DelimStep(s, LBracket), items, inner);
    TrackBrackets(s, LBracket, Tokens(arr), RBracket);
  }

  lemma MarkAndUnmark(s: PathState)
    requires s.lastWasDelim && CanMark(s)
    ensures DelimStep(s, LBracket).marks - {|s.pathArr| - 1} == s.marks
  {
  }

  lemma UnfoldNested(items: seq<Node>, inner: string, outer: string, where: seq<string>)
    ensures
      var whole := Arr([Arr(items, inner)], outer);
      && Tokens(whole) == [Delimiter(LBracket)] + Tokens(Arr(items, inner)) + [Delimiter(RBracket)]
      && Entries(whole, where) == ItemEntries(items, where)
  {
    UnfoldOne(Arr(items, inner), where);
  }

  lemma UnfoldOne(n: Node, where: seq<string>)
    ensures ItemTokens([n]) == Tokens(n)
    ensures ItemEntries([n], where) == Entries(n, where)
  {
    assert [n][..0] == [];
  }
}
