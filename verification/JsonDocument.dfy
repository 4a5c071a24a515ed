/** JSON documents as the decoder hands them over: a tree whose keys and scalars know the
    byte offset at which their token ends, the flat token stream of such a tree, and the
    paths under which the tokens of a tree ought to be recorded. */
module JsonDocument {

  datatype Delim = LBrace | LBracket | RBrace | RBracket

  datatype Token = Delimiter(d: Delim) | Text(text: string, end: nat)

  /** `text` is the text of a scalar as a token, `printed` its text as an array element. The two
      differ for some numbers. Only the printed text of a nested array is ever looked at. */
  datatype Node =
    | Scalar(text: string, printed: string, end: nat)
    | Obj(members: seq<Member>)
    | Arr(items: seq<Node>, printed: string)

  datatype Member = Member(key: string, end: nat, val: Node)

  /** One recorded token: its text, the enclosing path and the offset at which it ends. */
  datatype Entry = Entry(text: string, where: seq<string>, end: nat)

  // ---- Tokens ----

  function Tokens(n: Node): seq<Token>
    decreases n, 1
  {
    match n
    case Scalar(text, _, end) => [Text(text, end)]
    case Obj(members) => [Delimiter(LBrace)] + MemberTokens(members) + [Delimiter(RBrace)]
    case Arr(items, _) => [Delimiter(LBracket)] + ItemTokens(items) + [Delimiter(RBracket)]
  }

  function MemberTokens(members: seq<Member>): seq<Token>
    decreases members, 0
  {
    if members == [] then []
    else
      var m := members[|members| - 1];
      MemberTokens(members[..|members| - 1]) + [Text(m.key, m.end)] + Tokens(m.val)
  }

  function ItemTokens(items: seq<Node>): seq<Token>
    decreases items, 0
  {
    if items == [] then []
    else ItemTokens(items[..|items| - 1]) + Tokens(items[|items| - 1])
  }

  // ---- The path of every token, read off the tree ----

  /** The path under which the contents of member `m` of the object at `where` live: a scalar
      is recorded beside its key, a container opens a new path segment. */
  function Below(where: seq<string>, m: Member): seq<string> {
    if m.val.Scalar? then where else where + [m.key]
  }

  function Entries(n: Node, where: seq<string>): seq<Entry>
    decreases n, 1
  {
    match n
    case Scalar(text, _, end) => [Entry(text, where, end)]
    case Obj(members) => MemberEntries(members, where)
    case Arr(items, _) => ItemEntries(items, where)
  }

  function MemberEntries(members: seq<Member>, where: seq<string>): seq<Entry>
    decreases members, 0
  {
    if members == [] then []
    else
      var m := members[|members| - 1];
      MemberEntries(members[..|members| - 1], where)
      + [Entry(m.key, where, m.end)] + Entries(m.val, Below(where, m))
  }

  function ItemEntries(items: seq<Node>, where: seq<string>): seq<Entry>
    decreases items, 0
  {
    if items == [] then []
    else ItemEntries(items[..|items| - 1], where) + Entries(items[|items| - 1], where)
  }

  // ---- Regular documents ----

  /** The class of documents whose paths the flat tracker follows: in an array no container comes
      after a scalar, and a container that is an array element has no container elements. */
  ghost predicate RegularShape(n: Node)
    decreases n, 1
  {
    match n
    case Scalar(_, _, _) => true
    case Obj(members) => forall m | m in members :: RegularShape(m.val)
    case Arr(items, _) =>
      && ContainersFirst(items)
      && forall item | item in items :: RegularShape(item) && (item.Arr? ==> AllScalar(item.items))
  }

  predicate AllScalar(items: seq<Node>) {
    forall i | 0 <= i < |items| :: items[i].Scalar?
  }

  predicate ContainersFirst(items: seq<Node>) {
    forall i | 0 < i < |items| && !items[i].Scalar? :: !items[i - 1].Scalar?
  }

  predicate DotFree(s: string) {
    '.' !in s
  }

  ghost predicate DistinctKeys(members: seq<Member>) {
    forall i, j | 0 <= i < j < |members| :: members[i].key != members[j].key
  }

  ghost predicate RegularKeys(n: Node)
    decreases n, 1
  {
    match n
    case Scalar(_, _, _) => true
    case Obj(members) =>
      && DistinctKeys(members)
      && forall m | m in members :: DotFree(m.key) && RegularKeys(m.val)
    case Arr(items, _) => forall item | item in items :: RegularKeys(item)
  }

  // ---- Paths as strings ----

  /** strings.Join(path, ".") */
  function Join(path: seq<string>): string {
    if |path| == 0 then ""
    else if |path| == 1 then path[0]
    else Join(path[..|path| - 1]) + "." + path[|path| - 1]
  }

  lemma JoinSnoc(path: seq<string>, key: string)
    requires path != []
    ensures Join(path + [key]) == Join(path) + "." + key
  {
    assert (path + [key])[..|path|] == path;
  }

  lemma SplitAtLastDot(x: string, u: string, y: string, v: string)
    requires DotFree(u) && DotFree(v)
    requires x + "." + u == y + "." + v
    ensures x == y && u == v
  {
    var s := x + "." + u;
    assert s[|x|] == '.' && s[|y|] == '.';
    assert forall k | |x| < k < |s| :: s[k] == u[k - |x| - 1];
    assert forall k | |y| < k < |s| :: s[k] == v[k - |y| - 1];
    assert |x| == |y|;
    assert x == s[..|x|] == y;
    assert u == s[|x| + 1..] == v;
  }

  lemma JoinHasDot(path: seq<string>, s: string)
    requires |path| > 1 && DotFree(s)
    ensures Join(path) != s
  {
    assert Join(path)[|Join(path[..|path| - 1])|] == '.';
  }

  /** Dot-free paths can be told apart by their joined text. */
  lemma {:induction false} JoinInjective(a: seq<string>, b: seq<string>)
    requires a != [] && b != []
    requires forall s | s in a :: DotFree(s)
    requires forall s | s in b :: DotFree(s)
    requires Join(a) == Join(b)
    ensures a == b
  {
    if |a| == 1 && |b| == 1 {
      assert a == [a[0]] && b == [b[0]];
    } else if |a| == 1 {
      JoinHasDot(b, a[0]);
    } else if |b| == 1 {
      JoinHasDot(a, b[0]);
    } else {
      SplitAtLastDot(Join(a[..|a| - 1]), a[|a| - 1], Join(b[..|b| - 1]), b[|b| - 1]);
      JoinInjective(a[..|a| - 1], b[..|b| - 1]);
      assert a == a[..|a| - 1] + [a[|a| - 1]];
      assert b == b[..|b| - 1] + [b[|b| - 1]];
    }
  }

  // ---- Lines ----

  function Newlines(doc: string, end: nat): nat
    requires end <= |doc|
  {
    if end == 0 then 0
    else Newlines(doc, end - 1) + if doc[end - 1] == '\n' then 1 else 0
  }

  /** The line, counted from 1, that holds the last character before `end`. */
  function LineAt(doc: string, end: nat): nat
    requires end <= |doc|
  {
    1 + Newlines(doc, end)
  }

  ghost predicate InText(doc: string, log: seq<Entry>) {
    forall e | e in log :: e.end <= |doc|
  }

  /** The lines of the entries of `log` with this text at this path, in log order. */
  function Lines(doc: string, log: seq<Entry>, text: string, where: seq<string>): seq<nat>
    requires InText(doc, log)
  {
    if log == [] then []
    else
      var e := log[|log| - 1];
      Lines(doc, log[..|log| - 1], text, where)
      + if e.text == text && e.where == where then [LineAt(doc, e.end)] else []
  }

  lemma {:induction false} LinesConcat(doc: string, a: seq<Entry>, b: seq<Entry>, text: string, where: seq<string>)
    requires InText(doc, a) && InText(doc, b)
    ensures InText(doc, a + b)
    ensures Lines(doc, a + b, text, where) == Lines(doc, a, text, where) + Lines(doc, b, text, where)
    decreases |b|
  {
    if b == [] {
      assert a + b == a;
    } else {
      LinesConcat(doc, a, b[..|b| - 1], text, where);
      assert (a + b)[..|a + b| - 1] == a + b[..|b| - 1];
    }
  }

  lemma {:induction false} LinesAbsent(doc: string, log: seq<Entry>, text: string, where: seq<string>)
    requires InText(doc, log)
    ensures Lines(doc, log, text, where) == [] <==> forall e | e in log :: !(e.text == text && e.where == where)
  {
    if log != [] {
      LinesAbsent(doc, log[..|log| - 1], text, where);
      assert log == log[..|log| - 1] + [log[|log| - 1]];
    }
  }
}
