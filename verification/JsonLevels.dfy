/** Exactly which documents the flat tracker reads right: those in which, counting do-not-pop marks
    along the tree, every token is read with as many names open as there are around it. */
module JsonLevels {
  import opened JsonDocument
  import opened JsonTracker

  // ---- Counting along the tree ----

  /** One flag per open name: whether the next closing delimiter is spent on a mark of that name.
      A container that is read as the value of a name opens it, any other one marks the last name. */
  function Opened(flags: seq<bool>, named: bool): (r: seq<bool>)
    requires flags != []
    ensures r != []
  {
    if named then flags + [false] else flags[|flags| - 1 := true]
  }

  /** The root is never closed. */
  function Closed(flags: seq<bool>): (r: seq<bool>)
    requires flags != []
    ensures r != []
  {
    var top := |flags| - 1;
    if top == 0 then flags else if flags[top] then flags[top := false] else flags[..top]
  }

  function AfterValue(n: Node, flags: seq<bool>, named: bool): (r: seq<bool>)
    requires flags != []
    ensures r != []
    decreases n, 1
  {
    match n
    case Scalar(_, _, _) => flags
    case Obj(members) => Closed(AfterMembers(members, Opened(flags, named)))
    case Arr(items, _) => Closed(AfterItems(items, Opened(flags, named)))
  }

  function AfterMembers(members: seq<Member>, flags: seq<bool>): (r: seq<bool>)
    requires flags != []
    ensures r != []
    decreases members, 0
  {
    if members == [] then flags
    else AfterValue(members[|members| - 1].val, AfterMembers(members[..|members| - 1], flags), true)
  }

  function AfterItems(items: seq<Node>, flags: seq<bool>): (r: seq<bool>)
    requires flags != []
    ensures r != []
    decreases items, 0
  {
    if items == [] then flags
    else AfterValue(items[|items| - 1], AfterItems(items[..|items| - 1], flags), BehindScalar(items))
  }

  /** A container behind a scalar is read as the value of that scalar. */
  predicate BehindScalar(items: seq<Node>) {
    |items| > 1 && items[|items| - 2].Scalar?
  }

  // ---- Level documents ----

  /** Every token of `n` is read with exactly `depth` names open, and so on inside. */
  predicate LevelValue(n: Node, flags: seq<bool>, named: bool, depth: nat)
    requires flags != []
    decreases n, 1
  {
    match n
    case Scalar(_, _, _) => |flags| == depth
    case Obj(members) => LevelMembers(members, Opened(flags, named), depth)
    case Arr(items, _) => LevelItems(items, Opened(flags, named), depth)
  }

  predicate LevelMembers(members: seq<Member>, flags: seq<bool>, depth: nat)
    requires flags != []
    decreases members, 0
  {
    members == [] ||
    var front, m := members[..|members| - 1], members[|members| - 1];
    var now := AfterMembers(front, flags);
    && LevelMembers(front, flags, depth)
    && |now| == depth
    && LevelValue(m.val, now, true, if m.val.Scalar? then depth else depth + 1)
  }

  predicate LevelItems(items: seq<Node>, flags: seq<bool>, depth: nat)
    requires flags != []
    decreases items, 0
  {
    items == [] ||
    var front, item := items[..|items| - 1], items[|items| - 1];
    && LevelItems(front, flags, depth)
    && LevelValue(item, AfterItems(front, flags), BehindScalar(items), depth)
  }

  /** The document is level, below the nameless root. */
  predicate Level(root: Node) {
    root.Obj? && LevelMembers(root.members, [false], 1)
  }

  // ---- The machine counts along ----

  /** Every mark is for an open name and carries that name. */
  ghost predicate Marked(s: PathState) {
    && s.pathArr != []
    && forall i | i in s.marks :: 0 <= i < |s.pathArr| && s.marks[i] == s.pathArr[i]
  }

  ghost function Flags(s: PathState): seq<bool> {
    seq(|s.pathArr|, i => i in s.marks)
  }

  lemma OpenStep(s: PathState, d: Delim)
    requires Marked(s) && Opening(d)
    ensures Marked(DelimStep(s, d)) && Flags(DelimStep(s, d)) == Opened(Flags(s), !s.lastWasDelim)
    ensures DelimStep(s, d).lastWasDelim
    ensures DelimStep(s, d).pathArr == if s.lastWasDelim then s.pathArr else s.pathArr + [s.tmpParent]
  {
  }

  lemma CloseStep(s: PathState, d: Delim)
    requires Marked(s) && !Opening(d)
    ensures Marked(DelimStep(s, d)) && Flags(DelimStep(s, d)) == Closed(Flags(s))
    ensures DelimStep(s, d).lastWasDelim && DelimStep(s, d).pathArr <= s.pathArr
  {
  }

  /** Counting: what reading `toks` from `s` does to the flags, and how many tokens are recorded. */
  ghost predicate Counts(s: PathState, toks: seq<Token>, flags: seq<bool>, delim: bool, entries: seq<Entry>) {
    var r := Track(s, toks);
    Marked(r.state) && Flags(r.state) == flags && r.state.lastWasDelim == delim && |r.log| == |entries|
  }

  lemma CountsBoth(s: PathState, a: seq<Token>, x: seq<Entry>, b: seq<Token>, flags: seq<bool>, delim: bool, y: seq<Entry>)
    requires |Track(s, a).log| == |x| && Counts(Track(s, a).state, b, flags, delim, y)
    ensures Counts(s, a + b, flags, delim, x + y)
  {
    TrackConcat(s, a, b);
  }

  lemma CountsText(s: PathState, text: string, end: nat, where: seq<string>)
    requires Marked(s)
    ensures Counts(s, [Text(text, end)], Flags(s), false, [Entry(text, where, end)])
    ensures Track(s, [Text(text, end)]).state.pathArr == s.pathArr && Track(s, [Text(text, end)]).state.tmpParent == text
    ensures Track(s, [Text(text, end)]).log == [Entry(text, s.pathArr, end)]
  {
    TrackOne(s, Text(text, end));
  }

  lemma CountsBrackets(s: PathState, open: Delim, body: seq<Token>, flags: seq<bool>, delim: bool, entries: seq<Entry>, close: Delim)
    requires flags != [] && Opening(open) && !Opening(close)
    requires Counts(DelimStep(s, open), body, flags, delim, entries)
    ensures Counts(s, [Delimiter(open)] + body + [Delimiter(close)], Closed(flags), true, entries)
  {
    TrackBrackets(s, open, body, close);
    CloseStep(Track(DelimStep(s, open), body).state, close);
  }

  lemma {:induction false} CountValue(s: PathState, n: Node, where: seq<string>)
    requires Marked(s)
    ensures Counts(s, Tokens(n), AfterValue(n, Flags(s), !s.lastWasDelim), !n.Scalar?, Entries(n, where))
    decreases n, 1
  {
    hide Track, Counts, Marked, Flags, DelimStep, AfterMembers, AfterItems, MemberTokens, ItemTokens, MemberEntries, ItemEntries, Closed, Opened;
    match n
    case Scalar(text, _, end) =>
      CountsText(s, text, end, where);
    case Obj(members) =>
      OpenStep(s, LBrace);
      var delim := CountMembers(DelimStep(s, LBrace), members, where);
      CountsBrackets(s, LBrace, MemberTokens(members), AfterMembers(members, Flags(DelimStep(s, LBrace))), delim,
                     MemberEntries(members, where), RBrace);
    case Arr(items, _) =>
      OpenStep(s, LBracket);
      CountItems(DelimStep(s, LBracket), items, where);
      CountsBrackets(s, LBracket, ItemTokens(items), AfterItems(items, Flags(DelimStep(s, LBracket))),
                     items == [] || !items[|items| - 1].Scalar?, ItemEntries(items, where), RBracket);
  }

  lemma {:induction false} CountMembers(s: PathState, members: seq<Member>, where: seq<string>) returns (delim: bool)
    requires Marked(s)
    ensures Counts(s, MemberTokens(members), AfterMembers(members, Flags(s)), delim, MemberEntries(members, where))
    decreases members, 0
  {
    if members == [] {
      delim := s.lastWasDelim;
    } else {
      hide Track, Flags, Marked, AfterValue, Tokens, Entries;
      var front, m := members[..|members| - 1], members[|members| - 1];
      var _ := CountMembers(s, front, where);
      var s0 := Track(s, MemberTokens(front)).state;
      CountsText(s0, m.key, m.end, where);
      var s1 := Track(s0, [Text(m.key, m.end)]).state;
      CountValue(s1, m.val, Below(where, m));
      delim := !m.val.Scalar?;
      var x, y := MemberEntries(front, where), [Entry(m.key, where, m.end)];
      TrackConcat(s, MemberTokens(front), [Text(m.key, m.end)]);
      CountsBoth(s, MemberTokens(front) + [Text(m.key, m.end)], x + y,
                 Tokens(m.val), AfterValue(m.val, Flags(s1), true), delim, Entries(m.val, Below(where, m)));
    }
  }

  lemma {:induction false} CountItems(s: PathState, items: seq<Node>, where: seq<string>)
    requires Marked(s) && s.lastWasDelim
    ensures Counts(s, ItemTokens(items), AfterItems(items, Flags(s)), items == [] || !items[|items| - 1].Scalar?,
                   ItemEntries(items, where))
    decreases items, 0
  {
    if items != [] {
      hide Track, Flags, Marked, AfterValue, Tokens, Entries;
      var front, item := items[..|items| - 1], items[|items| - 1];
      CountItems(s, front, where);
      var s0 := Track(s, ItemTokens(front)).state;
      CountValue(s0, item, where);
      CountsBoth(s, ItemTokens(front), ItemEntries(front, where),
                 Tokens(item), AfterValue(item, Flags(s0), BehindScalar(items)), !item.Scalar?, Entries(item, where));
    }
  }

  // ---- Right exactly where it is level ----

  /** One path is a prefix of the other. */
  ghost predicate Comparable(p: seq<string>, q: seq<string>) {
    p <= q || q <= p
  }

  /** The path of the machine and that of the tree; right behind a token they are the same. */
  ghost predicate Near(s: PathState, where: seq<string>) {
    Marked(s) && Comparable(s.pathArr, where) && (!s.lastWasDelim ==> s.pathArr == where)
  }

  lemma PrefixesCompare(p: seq<string>, q: seq<string>, p': seq<string>, q': seq<string>)
    requires Comparable(p, q) && p' <= p && q' <= q
    ensures Comparable(p', q')
  {
  }

  /** From `s`, the tokens are recorded as `entries`, and the paths stay near. */
  ghost predicate Right(s: PathState, toks: seq<Token>, entries: seq<Entry>, where: seq<string>) {
    Track(s, toks).log == entries && Near(Track(s, toks).state, where)
  }

  /** The log is right exactly if it is level, and then the paths stay near. */
  ghost predicate RightIff(s: PathState, toks: seq<Token>, entries: seq<Entry>, where: seq<string>, level: bool) {
    && (Track(s, toks).log == entries <==> level)
    && (level ==> Right(s, toks, entries, where))
  }

  lemma RightBoth(s: PathState, a: seq<Token>, x: seq<Entry>, first: bool, b: seq<Token>, y: seq<Entry>, where: seq<string>, second: bool)
    requires |Track(s, a).log| == |x| && (Track(s, a).log == x <==> first)
    requires first ==> RightIff(Track(s, a).state, b, y, where, second)
    ensures RightIff(s, a + b, x + y, where, first && second)
  {
    TrackConcat(s, a, b);
    var p, q := Track(s, a).log, Track(Track(s, a).state, b).log;
    if p + q == x + y {
      assert p == (p + q)[..|x|] && x == (x + y)[..|x|];
      assert q == (p + q)[|x|..] && y == (x + y)[|x|..];
    }
  }

  lemma RightText(s: PathState, text: string, end: nat, where: seq<string>)
    requires Near(s, where)
    ensures RightIff(s, [Text(text, end)], [Entry(text, where, end)], where, |Flags(s)| == |where|)
  {
    TrackOne(s, Text(text, end));
  }

  /** What is read between the brackets of a container, and then outside of it again. */
  lemma RightBrackets(s: PathState, open: Delim, body: seq<Token>, entries: seq<Entry>, inside: seq<string>, level: bool,
                      close: Delim, where: seq<string>)
    requires Opening(open) && !Opening(close) && where <= inside
    requires RightIff(DelimStep(s, open), body, entries, inside, level)
    ensures RightIff(s, [Delimiter(open)] + body + [Delimiter(close)], entries, where, level)
  {
    hide Marked;
    TrackBrackets(s, open, body, close);
    if level {
      var e := Track(DelimStep(s, open), body).state;
      CloseStep(e, close);
      hide DelimStep, Track;
      PrefixesCompare(e.pathArr, inside, DelimStep(e, close).pathArr, where);
    }
  }

  /** A container that has a name in the tree, read right behind its key. */
  lemma OpenNamed(s: PathState, d: Delim, where: seq<string>, key: string)
    requires Near(s, where) && Opening(d) && !s.lastWasDelim && s.tmpParent == key
    ensures Near(DelimStep(s, d), where + [key])
  {
    OpenStep(s, d);
  }

  /** A container that has no name in the tree. */
  lemma OpenUnnamed(s: PathState, d: Delim, where: seq<string>)
    requires Near(s, where) && Opening(d)
    ensures Near(DelimStep(s, d), where)
  {
    OpenStep(s, d);
  }

  lemma {:induction false} NamedValue(s: PathState, m: Member, where: seq<string>)
    requires Near(s, where) && !s.lastWasDelim && s.tmpParent == m.key
    ensures RightIff(s, Tokens(m.val), Entries(m.val, Below(where, m)), where,
                     LevelValue(m.val, Flags(s), true, |Below(where, m)|))
    decreases m.val, 1
  {
    hide RightIff, Near, Flags, DelimStep, LevelMembers, LevelItems, Opened, MemberTokens, ItemTokens, MemberEntries, ItemEntries;
    var inside := where + [m.key];
    NearIsMarked(s, where);
    match m.val
    case Scalar(text, _, end) =>
      RightText(s, text, end, where);
    case Obj(members) =>
      OpenNamed(s, LBrace, where, m.key);
      OpenStep(s, LBrace);
      AllMembers(DelimStep(s, LBrace), members, inside);
      RightBrackets(s, LBrace, MemberTokens(members), MemberEntries(members, inside), inside,
                    LevelMembers(members, Flags(DelimStep(s, LBrace)), |inside|), RBrace, where);
    case Arr(items, _) =>
      OpenNamed(s, LBracket, where, m.key);
      OpenStep(s, LBracket);
      AllItems(DelimStep(s, LBracket), items, inside);
      RightBrackets(s, LBracket, ItemTokens(items), ItemEntries(items, inside), inside,
                    LevelItems(items, Flags(DelimStep(s, LBracket)), |inside|), RBracket, where);
  }

  lemma {:induction false} UnnamedValue(s: PathState, item: Node, where: seq<string>)
    requires Near(s, where)
    ensures RightIff(s, Tokens(item), Entries(item, where), where, LevelValue(item, Flags(s), !s.lastWasDelim, |where|))
    decreases item, 1
  {
    hide RightIff, Near, Flags, DelimStep, LevelMembers, LevelItems, Opened, MemberTokens, ItemTokens, MemberEntries, ItemEntries;
    NearIsMarked(s, where);
    match item
    case Scalar(text, _, end) =>
      RightText(s, text, end, where);
    case Obj(members) =>
      OpenUnnamed(s, LBrace, where);
      OpenStep(s, LBrace);
      AllMembers(DelimStep(s, LBrace), members, where);
      RightBrackets(s, LBrace, MemberTokens(members), MemberEntries(members, where), where,
                    LevelMembers(members, Flags(DelimStep(s, LBrace)), |where|), RBrace, where);
    case Arr(items, _) =>
      OpenUnnamed(s, LBracket, where);
      OpenStep(s, LBracket);
      AllItems(DelimStep(s, LBracket), items, where);
      RightBrackets(s, LBracket, ItemTokens(items), ItemEntries(items, where), where,
                    LevelItems(items, Flags(DelimStep(s, LBracket)), |where|), RBracket, where);
  }

  lemma NearIsMarked(s: PathState, where: seq<string>)
    requires Near(s, where)
    ensures Marked(s) && Flags(s) != []
  {
  }

  lemma NothingRead(s: PathState, where: seq<string>)
    requires Near(s, where)
    ensures RightIff(s, [], [], where, true)
  {
  }

  lemma {:induction false} AllMembers(s: PathState, members: seq<Member>, where: seq<string>)
    requires Near(s, where)
    ensures Flags(s) != []
    ensures RightIff(s, MemberTokens(members), MemberEntries(members, where), where, LevelMembers(members, Flags(s), |where|))
    decreases members, 0
  {
    NearIsMarked(s, where);
    if members == [] {
      NothingRead(s, where);
    } else {
      hide Track, Flags, Marked, Near, Tokens, Entries, LevelValue, AfterMembers, AfterValue;
      var front, m := members[..|members| - 1], members[|members| - 1];
      AllMembers(s, front, where);
      var _ := CountMembers(s, front, where);
      var before, x := MemberTokens(front), MemberEntries(front, where);
      var key, y := [Text(m.key, m.end)], [Entry(m.key, where, m.end)];
      var s0 := Track(s, before).state;
      var level := LevelMembers(front, Flags(s), |where|);
      if level {
        RightText(s0, m.key, m.end, where);
      }
      RightBoth(s, before, x, level, key, y, where, |Flags(s0)| == |where|);
      CountsText(s0, m.key, m.end, where);
      TrackConcat(s, before, key);
      var s1 := Track(s, before + key).state;
      if level && |Flags(s0)| == |where| {
        NamedValue(s1, m, where);
      }
      BelowLength(where, m);
      RightBoth(s, before + key, x + y, level && |Flags(s0)| == |where|, Tokens(m.val), Entries(m.val, Below(where, m)), where,
                LevelValue(m.val, Flags(s0), true, |Below(where, m)|));
    }
  }

  lemma BelowLength(where: seq<string>, m: Member)
    ensures |Below(where, m)| == if m.val.Scalar? then |where| else |where| + 1
  {
  }

  lemma {:induction false} AllItems(s: PathState, items: seq<Node>, where: seq<string>)
    requires Near(s, where) && s.lastWasDelim
    ensures Flags(s) != []
    ensures RightIff(s, ItemTokens(items), ItemEntries(items, where), where, LevelItems(items, Flags(s), |where|))
    decreases items, 0
  {
    NearIsMarked(s, where);
    if items == [] {
      NothingRead(s, where);
    } else {
      hide Track, Flags, Marked, Near, Tokens, Entries, LevelValue, AfterItems, AfterValue;
      var front, item := items[..|items| - 1], items[|items| - 1];
      AllItems(s, front, where);
      CountItems(s, front, where);
      var s0 := Track(s, ItemTokens(front)).state;
      var level := LevelItems(front, Flags(s), |where|);
      if level {
        UnnamedValue(s0, item, where);
      }
      RightBoth(s, ItemTokens(front), ItemEntries(front, where), level, Tokens(item), Entries(item, where), where,
                LevelValue(item, Flags(s0), BehindScalar(items), |where|));
    }
  }

  /** The flat machine records every token of a root object under the names of the containers around
      it if and only if the document is level. */
  lemma RightIffLevel(root: Node)
    requires root.Obj?
    ensures Track(START, Tokens(root)).log == Entries(root, [""]) <==> Level(root)
  {
    var s := DelimStep(START, LBrace);
    assert s.pathArr == [""] && s.marks == map[] && s.lastWasDelim;
    assert Flags(s) == [false];
    TrackBrackets(START, LBrace, MemberTokens(root.members), RBrace);
    AllMembers(s, root.members, [""]);
    hide Track, LevelMembers;
  }

  /** Documents of regular shape are level. */
  lemma RegularIsLevel(root: Node)
    requires root.Obj? && RegularShape(root)
    ensures Level(root)
  {
    MachineFollowsDocument(root);
    RightIffLevel(root);
  }

  // ---- Level documents without empty containers ----

  /** No object and no array in `n` is empty. */
  predicate Filled(n: Node) {
    match n
    case Scalar(_, _, _) => true
    case Obj(members) => members != [] && forall m | m in members :: Filled(m.val)
    case Arr(items, _) => items != [] && forall item | item in items :: Filled(item)
  }

  /** How many names too many are closed with a value that has a name. */
  function Loss(n: Node): nat
    decreases n, 1
  {
    match n
    case Scalar(_, _, _) => 0
    case Obj(members) => LossOfMembers(members)
    case Arr(items, _) => LossOfItems(items)
  }

  /** The losses in an object add up. */
  function LossOfMembers(members: seq<Member>): nat
    decreases members, 0
  {
    if members == [] then 0 else LossOfMembers(members[..|members| - 1]) + Loss(members[|members| - 1].val)
  }

  /** In an array only the loss of the last container counts. */
  function LossOfItems(items: seq<Node>): nat
    decreases items, 0
  {
    if items == [] then 0
    else if items[|items| - 1].Scalar? then LossOfItems(items[..|items| - 1])
    else ElementLoss(items[|items| - 1])
  }

  /** An array among the elements of an array loses one name more if it has container elements. */
  function ElementLoss(item: Node): nat
    decreases item, 1
  {
    match item
    case Scalar(_, _, _) => 0
    case Obj(members) => LossOfMembers(members)
    case Arr(items, _) => if AllScalar(items) then 0 else 1 + LossOfItems(items)
  }

  /** Nothing follows a loss: in an array no element does; in an object no member, but an object
      among the elements of an array has one loss to spare. And no container follows a scalar. */
  predicate Keeps(n: Node)
    decreases n, 1
  {
    match n
    case Scalar(_, _, _) => true
    case Obj(members) => KeepsMembers(members, 0)
    case Arr(items, _) => KeepsItems(items)
  }

  predicate KeepsMembers(members: seq<Member>, spare: nat)
    decreases members, 0
  {
    members == [] ||
    var front, m := members[..|members| - 1], members[|members| - 1];
    KeepsMembers(front, spare) && LossOfMembers(front) <= spare && Keeps(m.val)
  }

  predicate KeepsItems(items: seq<Node>)
    decreases items, 0
  {
    items == [] ||
    var front, item := items[..|items| - 1], items[|items| - 1];
    && KeepsItems(front) && LossOfItems(front) == 0
    && (item.Scalar? || !BehindScalar(items))
    && KeepsElement(item)
  }

  predicate KeepsElement(item: Node)
    decreases item, 1
  {
    match item
    case Scalar(_, _, _) => true
    case Obj(members) => KeepsMembers(members, 1)
    case Arr(items, _) => KeepsItems(items)
  }

  /** Closing `k` times. */
  function Closes(flags: seq<bool>, k: nat): (r: seq<bool>)
    requires flags != []
    ensures r != [] && |r| <= |flags|
  {
    if k == 0 then flags else Closed(Closes(flags, k - 1))
  }

  lemma {:induction false} ClosesMore(flags: seq<bool>, j: nat, k: nat)
    requires flags != []
    ensures Closes(Closes(flags, j), k) == Closes(flags, j + k)
  {
    if k > 0 {
      ClosesMore(flags, j, k - 1);
    }
  }

  lemma ClosesFirst(flags: seq<bool>, k: nat)
    requires flags != []
    ensures Closes(flags, k + 1) == Closes(Closed(flags), k)
  {
    ClosesMore(flags, 1, k);
    assert Closes(flags, 1) == Closed(Closes(flags, 0));
  }

  lemma {:induction false} RootStays(flags: seq<bool>, k: nat)
    requires |flags| == 1
    ensures Closes(flags, k) == flags
  {
    if k > 0 {
      RootStays(flags, k - 1);
    }
  }

  /** How often a name can be closed before it is gone: once more if it is marked. */
  lemma {:induction false} Stays(flags: seq<bool>, k: nat)
    requires |flags| > 1
    ensures |Closes(flags, k)| == |flags| <==> k <= if flags[|flags| - 1] then 1 else 0
  {
    if k == 0 {
    } else if k == 1 {
      assert Closes(flags, 0) == flags;
    } else {
      ClosesFirst(flags, k - 1);
      ClosesFirst(Closed(flags), k - 2);
    }
  }

  function Unmarked(flags: seq<bool>): (r: seq<bool>)
    requires flags != []
    ensures |r| == |flags|
  {
    flags[|flags| - 1 := false]
  }

  /** A value with a name closes its name and as many more as it loses. */
  lemma {:induction false} AfterNamed(n: Node, flags: seq<bool>)
    requires flags != [] && Keeps(n)
    ensures AfterValue(n, flags, true) == Closes(flags, Loss(n))
    decreases n, 1
  {
    var inner := flags + [false];
    match n
    case Scalar(_, _, _) =>
    case Obj(members) =>
      AfterAllMembers(members, inner, 0);
      ClosesFirst(inner, Loss(n));
      assert Closed(inner) == flags;
    case Arr(items, _) =>
      AfterAllItems(items, inner);
      ClosesFirst(inner, Loss(n));
      assert Closed(inner) == flags;
      assert Unmarked(inner) == inner;
      NoContainerNoLoss(items);
  }

  lemma {:induction false} NoContainerNoLoss(items: seq<Node>)
    ensures AllScalar(items) ==> LossOfItems(items) == 0
  {
    if items != [] {
      NoContainerNoLoss(items[..|items| - 1]);
    }
  }

  lemma {:induction false} AfterAllMembers(members: seq<Member>, flags: seq<bool>, spare: nat)
    requires flags != [] && KeepsMembers(members, spare)
    ensures AfterMembers(members, flags) == Closes(flags, LossOfMembers(members))
    decreases members, 0
  {
    if members != [] {
      var front, m := members[..|members| - 1], members[|members| - 1];
      AfterAllMembers(front, flags, spare);
      AfterNamed(m.val, Closes(flags, LossOfMembers(front)));
      ClosesMore(flags, LossOfMembers(front), Loss(m.val));
    }
  }

  /** An array whose last container element loses nothing leaves its name unmarked. */
  lemma {:induction false} AfterAllItems(items: seq<Node>, flags: seq<bool>)
    requires |flags| > 1 && KeepsItems(items)
    ensures AfterItems(items, flags) == if AllScalar(items) then flags else Closes(Unmarked(flags), LossOfItems(items))
    decreases items, 0
  {
    if items != [] {
      var front, item := items[..|items| - 1], items[|items| - 1];
      AfterAllItems(front, flags);
      assert AllScalar(items) <==> AllScalar(front) && item.Scalar?;
      var now := AfterItems(front, flags);
      assert Unmarked(Unmarked(flags)) == Unmarked(flags);
      if !item.Scalar? {
        AfterElement(item, now);
      }
    }
  }

  lemma {:induction false} AfterElement(item: Node, flags: seq<bool>)
    requires |flags| > 1 && !item.Scalar? && KeepsElement(item)
    ensures AfterValue(item, flags, false) == Closes(Unmarked(flags), ElementLoss(item))
    decreases item, 0
  {
    var marked := flags[|flags| - 1 := true];
    assert Closed(marked) == Unmarked(flags) && Unmarked(marked) == Unmarked(flags);
    match item
    case Obj(members) =>
      AfterAllMembers(members, marked, 1);
      ClosesFirst(marked, LossOfMembers(members));
    case Arr(items, _) =>
      AfterAllItems(items, marked);
  }

  /** The first token inside a container is read with the names that are open then. */
  lemma {:induction false} FirstToken(n: Node, flags: seq<bool>, named: bool, depth: nat)
    requires flags != [] && Filled(n) && !n.Scalar? && LevelValue(n, flags, named, depth)
    ensures |flags| + (if named then 1 else 0) == depth
    decreases n, 1
  {
    match n
    case Obj(members) => FirstKey(members, Opened(flags, named), depth);
    case Arr(items, _) => FirstItem(items, Opened(flags, named), depth);
  }

  lemma {:induction false} FirstKey(members: seq<Member>, flags: seq<bool>, depth: nat)
    requires flags != [] && members != [] && LevelMembers(members, flags, depth)
    ensures |flags| == depth
  {
    if |members| > 1 {
      FirstKey(members[..|members| - 1], flags, depth);
    }
  }

  lemma {:induction false} FirstItem(items: seq<Node>, flags: seq<bool>, depth: nat)
    requires flags != [] && items != [] && LevelItems(items, flags, depth)
    requires forall item | item in items :: Filled(item)
    ensures |flags| == depth
    decreases items, 0
  {
    var front, item := items[..|items| - 1], items[|items| - 1];
    if front != [] {
      FirstItem(front, flags, depth);
    } else if !item.Scalar? {
      FirstToken(item, flags, false, depth);
    }
  }

  lemma {:induction false} NamedIff(n: Node, flags: seq<bool>)
    requires flags != [] && Filled(n)
    ensures LevelValue(n, flags, true, if n.Scalar? then |flags| else |flags| + 1) <==> Keeps(n)
    decreases n, 1
  {
    var inner := flags + [false];
    match n
    case Scalar(_, _, _) =>
    case Obj(members) =>
      forall k: nat | k <= LossOfMembers(members) ensures |Closes(inner, k)| == |inner| <==> k <= 0 {
        Stays(inner, k);
      }
      MembersIff(members, inner, 0);
    case Arr(items, _) =>
      ItemsIff(items, inner);
  }

  lemma {:induction false} MembersIff(members: seq<Member>, flags: seq<bool>, spare: nat)
    requires flags != [] && forall m | m in members :: Filled(m.val)
    requires forall k: nat | k <= LossOfMembers(members) :: |Closes(flags, k)| == |flags| <==> k <= spare
    ensures LevelMembers(members, flags, |flags|) <==> KeepsMembers(members, spare)
    decreases members, 0
  {
    if members != [] {
      var front, m := members[..|members| - 1], members[|members| - 1];
      MembersIff(front, flags, spare);
      if KeepsMembers(front, spare) {
        AfterAllMembers(front, flags, spare);
        if LossOfMembers(front) <= spare {
          NamedIff(m.val, AfterMembers(front, flags));
        }
      }
    }
  }

  lemma {:induction false} ItemsIff(items: seq<Node>, flags: seq<bool>)
    requires |flags| > 1 && forall item | item in items :: Filled(item)
    ensures LevelItems(items, flags, |flags|) <==> KeepsItems(items)
    decreases items, 1
  {
    if items != [] {
      var front, item := items[..|items| - 1], items[|items| - 1];
      ItemsIff(front, flags);
      if KeepsItems(front) {
        LastItemIff(items, flags);
      }
    }
  }

  /** The last element of an array, behind elements that keep all names. */
  lemma {:induction false} LastItemIff(items: seq<Node>, flags: seq<bool>)
    requires |flags| > 1 && items != [] && KeepsItems(items[..|items| - 1]) && Filled(items[|items| - 1])
    ensures
      var front, item := items[..|items| - 1], items[|items| - 1];
      LevelValue(item, AfterItems(front, flags), BehindScalar(items), |flags|) <==>
      LossOfItems(front) == 0 && (item.Scalar? || !BehindScalar(items)) && KeepsElement(item)
    decreases items, 0
  {
    var front, item := items[..|items| - 1], items[|items| - 1];
    var now, named := AfterItems(front, flags), BehindScalar(items);
    AfterAllItems(front, flags);
    NoContainerNoLoss(front);
    Stays(Unmarked(flags), LossOfItems(front));
    assert |now| == |flags| <==> LossOfItems(front) == 0;
    if named {
      LossBehindScalar(front);
    }
    if !item.Scalar? {
      if LevelValue(item, now, named, |flags|) {
        FirstToken(item, now, named, |flags|);
      }
      if |now| == |flags| && !named {
        ElementIff(item, now);
      }
    }
  }

  lemma LossBehindScalar(front: seq<Node>)
    requires KeepsItems(front) && front != [] && front[|front| - 1].Scalar?
    ensures LossOfItems(front) == 0
  {
  }

  lemma {:induction false} ElementIff(item: Node, flags: seq<bool>)
    requires |flags| > 1 && Filled(item) && !item.Scalar?
    ensures LevelValue(item, flags, false, |flags|) <==> KeepsElement(item)
    decreases item, 0
  {
    var marked := flags[|flags| - 1 := true];
    match item
    case Obj(members) =>
      forall k: nat | k <= LossOfMembers(members) ensures |Closes(marked, k)| == |marked| <==> k <= 1 {
        Stays(marked, k);
      }
      MembersIff(members, marked, 1);
    case Arr(items, _) =>
      ItemsIff(items, marked);
  }

  /** In a document without empty containers every token is recorded under the names of the containers
      around it if and only if nothing follows a loss within any member of the root. */
  lemma RightIffKeeps(root: Node)
    requires root.Obj? && forall m | m in root.members :: Filled(m.val)
    ensures Track(START, Tokens(root)).log == Entries(root, [""]) <==> forall m | m in root.members :: Keeps(m.val)
  {
    RightIffLevel(root);
    var total := LossOfMembers(root.members);
    forall k: nat | k <= total ensures |Closes([false], k)| == 1 {
      RootStays([false], k);
    }
    MembersIff(root.members, [false], total);
    RootKeeps(root.members, total);
  }

  lemma {:induction false} RootKeeps(members: seq<Member>, total: nat)
    requires LossOfMembers(members) <= total
    ensures KeepsMembers(members, total) <==> forall m | m in members :: Keeps(m.val)
    decreases |members|
  {
    if members != [] {
      RootKeeps(members[..|members| - 1], total);
      assert members == members[..|members| - 1] + [members[|members| - 1]];
    }
  }

  // ---- Two documents ----

  function Nested(end: nat): Node {
    Arr([Arr([Arr([Scalar("1", "1", end)], "[1]")], "[[1]]")], "[[[1]]]")
  }

  lemma Single(item: Node, printed: string)
    ensures KeepsItems([item]) <==> KeepsElement(item)
    ensures LossOfItems([item]) == ElementLoss(item)
    ensures AllScalar([item]) <==> item.Scalar?
    ensures Filled(Arr([item], printed)) <==> Filled(item)
  {
    assert [item][..0] == [] && item in [item];
    assert KeepsItems([]) && LossOfItems([]) == 0;
    assert [item][0] == item;
  }

  lemma FilledScalar(n: Node)
    requires n.Scalar?
    ensures Filled(n)
  {
  }

  lemma NestedLoses(end: nat)
    ensures Keeps(Nested(end)) && Loss(Nested(end)) == 1 && Filled(Nested(end))
  {
    var one := Scalar("1", "1", end);
    var inner := Arr([one], "[1]");
    var middle := Arr([inner], "[[1]]");
    Single(one, "[1]");
    Single(inner, "[[1]]");
    Single(middle, "[[[1]]]");
    hide KeepsItems, LossOfItems, AllScalar, Filled;
    assert Filled(one) by {
      FilledScalar(one);
    }
  }

  lemma OneMember(m: Member)
    ensures LossOfMembers([m]) == Loss(m.val)
  {
    assert [m][..0] == [];
    assert LossOfMembers([]) == 0;
  }

  /** A name is lost behind three nested arrays, but nothing follows: the document is read right. */
  lemma LossAtTheEnd(a: nat, b: nat)
    ensures Level(Obj([Member("a", a, Nested(b))])) && !RegularShape(Obj([Member("a", a, Nested(b))]))
  {
    var root := Obj([Member("a", a, Nested(b))]);
    NestedLoses(b);
    RightIffKeeps(root);
    RightIffLevel(root);
    hide Level, Keeps, Filled, Track, Entries, Tokens;
    var val := Nested(b);
    assert Member("a", a, val) in root.members;
    var inner := Arr([Scalar("1", "1", b)], "[1]");
    Single(inner, "[[1]]");
    assert val.items[0] == Arr([inner], "[[1]]") && val.items[0] in val.items;
  }

  /** The key behind three nested arrays is recorded one level too high. */
  lemma KeyBehindLoss(a: nat, b: nat, c: nat, d: nat, e: nat)
    ensures
      var root := Obj([Member("x", a, Obj([Member("a", b, Nested(c)), Member("b", d, Scalar("2", "2", e))]))]);
      !Level(root) && Track(START, Tokens(root)).log != Entries(root, [""])
  {
    var first, second := Member("a", b, Nested(c)), Member("b", d, Scalar("2", "2", e));
    var x := Member("x", a, Obj([first, second]));
    var root := Obj([x]);
    NestedLoses(c);
    OneMember(first);
    assert [first, second][..1] == [first];
    assert !KeepsMembers([first, second], 0);
    assert !Keeps(x.val) && x in root.members;
    RightIffKeeps(root);
    RightIffLevel(root);
  }
}
