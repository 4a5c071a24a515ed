/** The scalar elements of arrays: under which slots they are looked up, what the queues must hold for them, and
    when each of them gets its own line. */
module JsonElements {
  import opened JsonDocument
  import opened JsonTracker
  import opened JsonLines
  import opened JsonSlots
  import opened LineKeys

  // ---- The elements of a document ----

  /** The scalar elements of arrays, with the texts and paths they are looked up under. Nested arrays are not
      entered. */
  function Elements(n: Node, where: seq<string>): seq<Entry>
    decreases n, 1
  {
    match n
    case Scalar(_, _, _) => []
    case Obj(members) => MemberElements(members, where)
    case Arr(items, _) => ItemElements(items, where)
  }

  function ElementsOf(m: Member, where: seq<string>): seq<Entry>
    decreases m, 2
  {
    Elements(m.val, Below(where, m))
  }

  function MemberElements(members: seq<Member>, where: seq<string>): seq<Entry>
    decreases members, 0
  {
    if members == [] then []
    else MemberElements(members[..|members| - 1], where) + ElementsOf(members[|members| - 1], where)
  }

  function ItemElements(items: seq<Node>, where: seq<string>): seq<Entry>
    decreases items, 0
  {
    if items == [] then []
    else ItemElements(items[..|items| - 1], where) + OneElement(items[|items| - 1], where)
  }

  function OneElement(item: Node, where: seq<string>): seq<Entry>
    decreases item, 2
  {
    match item
    case Scalar(_, printed, end) => [Entry(printed, where, end)]
    case Obj(members) => MemberElements(members, where)
    case Arr(_, _) => []
  }

  /** The slots under which nested arrays are looked up. */
  function Nested(n: Node, where: seq<string>): set<Slot>
    decreases n, 1
  {
    match n
    case Scalar(_, _, _) => {}
    case Obj(members) => MemberNested(members, where)
    case Arr(items, _) => ItemNested(items, where)
  }

  function MemberNested(members: seq<Member>, where: seq<string>): set<Slot>
    decreases members, 0
  {
    if members == [] then {}
    else
      var m := members[|members| - 1];
      MemberNested(members[..|members| - 1], where) + Nested(m.val, Below(where, m))
  }

  function ItemNested(items: seq<Node>, where: seq<string>): set<Slot>
    decreases items, 0
  {
    if items == [] then {} else ItemNested(items[..|items| - 1], where) + OneNested(items[|items| - 1], where)
  }

  function OneNested(item: Node, where: seq<string>): set<Slot>
    decreases item, 2
  {
    match item
    case Scalar(_, _, _) => {}
    case Obj(members) => MemberNested(members, where)
    case Arr(_, printed) => {Slot(printed, where)}
  }

  // ---- Every element has its own line ----

  function OwnLine(line: nat): LineMap {
    LineMap(map[DEFAULT_KEY := LineObject(line, [])], map[])
  }

  /** In every array of the object, at every depth, each scalar element has one line map, with its own line. */
  ghost predicate Exact(doc: string, members: seq<Member>, lm: LineMap)
    decreases members, 0
  {
    forall m | m in members :: InMapExact(doc, m, lm)
  }

  ghost predicate InMapExact(doc: string, m: Member, lm: LineMap)
    decreases m, 3
  {
    && Tagged(m.key) in lm.entries
    && ExactMember(doc, m, lm.entries[Tagged(m.key)], if m.key in lm.nested then [lm.nested[m.key]] else [])
  }

  ghost predicate ExactMember(doc: string, m: Member, own: LineObject, child: seq<LineMap>)
    decreases m, 2
  {
    match m.val
    case Scalar(_, _, _) => true
    case Obj(members) => |child| == 1 && Exact(doc, members, child[0])
    case Arr(items, _) => ExactItems(doc, items, own.arr)
  }

  ghost predicate ExactItems(doc: string, items: seq<Node>, arr: seq<LineMap>)
    decreases items, 0
  {
    if items == [] then arr == []
    else if items[|items| - 1].Arr? then ExactItems(doc, items[..|items| - 1], arr)
    else
      && arr != [] && ExactItems(doc, items[..|items| - 1], arr[..|arr| - 1])
      && ExactItem(doc, items[|items| - 1], [arr[|arr| - 1]])
  }

  ghost predicate ExactItem(doc: string, item: Node, lm: seq<LineMap>)
    decreases item, 2
  {
    match item
    case Scalar(_, _, end) => end <= |doc| && lm == [OwnLine(LineAt(doc, end))]
    case Obj(members) => |lm| == 1 && Exact(doc, members, lm[0])
    case Arr(_, _) => lm == []
  }

  /** How many elements are no arrays. */
  function Count(items: seq<Node>): nat {
    if items == [] then 0 else Count(items[..|items| - 1]) + if items[|items| - 1].Arr? then 0 else 1
  }

  lemma {:induction false} ExactLength(doc: string, items: seq<Node>, arr: seq<LineMap>)
    requires ExactItems(doc, items, arr)
    ensures |arr| == Count(items)
    decreases |items|
  {
    if items != [] {
      var front, item := items[..|items| - 1], items[|items| - 1];
      ExactLength(doc, front, if item.Arr? then arr else arr[..|arr| - 1]);
    }
  }

  lemma ExactStep(doc: string, front: seq<Node>, item: Node, arr: seq<LineMap>, lm: seq<LineMap>)
    requires |arr| <= Count(front) && |lm| <= if item.Arr? then 0 else 1
    ensures ExactItems(doc, front + [item], arr + lm) <==> ExactItems(doc, front, arr) && ExactItem(doc, item, lm)
    ensures |arr + lm| <= Count(front + [item])
  {
    hide Exact;
    assert (front + [item])[..|front|] == front;
    if lm == [] {
      assert arr + lm == arr;
      if !item.Arr? && ExactItems(doc, front + [item], arr + lm) {
        ExactLength(doc, front + [item], arr + lm);
      }
    } else {
      assert (arr + lm)[..|arr + lm| - 1] == arr && [(arr + lm)[|arr + lm| - 1]] == lm;
    }
  }

  // ---- What the queues must hold ----

  ghost predicate IsElement(w: Whole, s: Slot) {
    exists e | e in w.elems :: e.text == s.text && e.where == s.where
  }

  ghost predicate SuppliesElements(w: Whole, elems: seq<Entry>, info: LineInfo)
    requires InText(w.doc, elems)
  {
    forall s | IsElement(w, s) :: Own(w, elems, s) <= At(info, s)
  }

  ghost predicate ConsumedElements(w: Whole, elems: seq<Entry>, before: LineInfo, after: LineInfo)
    requires InText(w.doc, elems)
  {
    forall s | IsElement(w, s) :: At(before, s) == Own(w, elems, s) + At(after, s)
  }

  /** The queues of elements elsewhere stay. */
  ghost predicate ElementsKept(w: Whole, elems: seq<Entry>, before: LineInfo, after: LineInfo)
    requires InText(w.doc, elems)
  {
    forall s | IsElement(w, s) && Own(w, elems, s) == [] :: At(before, s) == At(after, s)
  }

  /** The elements of a part are served exactly if the queues held what they need. */
  ghost predicate ServedRight(w: Whole, elems: seq<Entry>, exact: bool, before: LineInfo, after: LineInfo)
    requires InText(w.doc, elems)
  {
    && (exact <==> SuppliesElements(w, elems, before)) && (exact ==> ConsumedElements(w, elems, before, after))
    && ElementsKept(w, elems, before, after)
  }

  /** No text is recorded where a nested array is looked up. */
  ghost predicate Muted(w: Whole, info: LineInfo) {
    forall s | s in w.mute :: At(info, s) == []
  }

  /** Lines are only ever taken away. */
  ghost predicate NoGrowth(before: LineInfo, after: LineInfo) {
    forall text, path | Queue(before, text, path) == [] :: Queue(after, text, path) == []
  }

  lemma MutedStays(w: Whole, before: LineInfo, after: LineInfo)
    requires Muted(w, before) && NoGrowth(before, after)
    ensures Muted(w, after)
  {
    hide Join;
  }

  /** Elements are looked up at paths that can be told apart, and not under slots of keys. */
  ghost predicate ElementsApart(w: Whole) {
    forall e | e in w.elems :: PathOk(e.where) && !IsKey(w, Slot(e.text, e.where))
  }

  ghost predicate ElementPart(w: Whole, elems: seq<Entry>, mute: set<Slot>, info: LineInfo) {
    && ElementsApart(w) && WholeOk(w) && Muted(w, info) && mute <= w.mute
    && InText(w.doc, elems) && forall e | e in elems :: e in w.elems
  }

  lemma PartLater(w: Whole, elems: seq<Entry>, mute: set<Slot>, before: LineInfo, after: LineInfo)
    requires ElementPart(w, elems, mute, before) && NoGrowth(before, after)
    ensures ElementPart(w, elems, mute, after)
  {
    hide ElementsApart, WholeOk, Muted, NoGrowth;
    MutedStays(w, before, after);
  }

  lemma NothingServed(w: Whole, info: LineInfo)
    ensures InText(w.doc, []) && ServedRight(w, [], true, info, info)
  {
  }

  // ---- One part after the other ----

  /** First `front` was served, then `own`. */
  lemma ServedBoth(w: Whole, front: seq<Entry>, own: seq<Entry>, a: bool, b: bool, start: LineInfo, before: LineInfo, now: LineInfo)
    requires InText(w.doc, front) && InText(w.doc, own) && InText(w.doc, front + own)
    requires ServedRight(w, front, a, start, before) && ServedRight(w, own, b, before, now)
    ensures ServedRight(w, front + own, a && b, start, now)
  {
    hide At, IsElement, Lines;
    forall s ensures Own(w, front + own, s) == Own(w, front, s) + Own(w, own, s) {
      LinesConcat(w.doc, front, own, s.text, s.where);
    }
    if SuppliesElements(w, front + own, start) {
      forall s | IsElement(w, s) ensures Own(w, front, s) <= At(start, s) {
        PrefixFirst(Own(w, front, s), Own(w, own, s), At(start, s));
      }
      forall s | IsElement(w, s) ensures Own(w, own, s) <= At(before, s) {
        PrefixSecond(Own(w, front, s), Own(w, own, s), At(start, s), At(before, s));
      }
    }
    if a && b {
      forall s | IsElement(w, s)
        ensures Own(w, front + own, s) <= At(start, s) && At(start, s) == Own(w, front + own, s) + At(now, s)
      {
        Both(Own(w, front, s), Own(w, own, s), At(start, s), At(before, s), At(now, s));
      }
    }
  }

  lemma PrefixFirst(f: seq<nat>, o: seq<nat>, all: seq<nat>)
    requires f + o <= all
    ensures f <= all
  {
    assert f == (f + o)[..|f|];
  }

  lemma PrefixSecond(f: seq<nat>, o: seq<nat>, all: seq<nat>, tail: seq<nat>)
    requires f + o <= all && all == f + tail
    ensures o <= tail
  {
    assert tail == all[|f|..];
    assert o == (f + o)[|f|..];
  }

  lemma Both(f: seq<nat>, o: seq<nat>, all: seq<nat>, tail: seq<nat>, rest: seq<nat>)
    requires all == f + tail && tail == o + rest
    ensures f + o <= all && all == f + o + rest
  {
    assert all == f + o + rest;
  }

  /** Nothing was done to the queues of elements, as while the line of a key is taken. */
  lemma ServedAfter(w: Whole, elems: seq<Entry>, exact: bool, start: LineInfo, before: LineInfo, now: LineInfo)
    requires InText(w.doc, elems) && ServedRight(w, elems, exact, before, now)
    requires forall s | IsElement(w, s) :: At(start, s) == At(before, s)
    ensures ServedRight(w, elems, exact, start, now)
  {
    hide At, IsElement, Lines;
  }

  /** Taking the line of a key leaves the queues of elements alone. */
  lemma KeyTaken(w: Whole, where: seq<string>, text: string, before: LineInfo, now: LineInfo)
    requires ElementsApart(w) && PathOk(where) && IsKey(w, Slot(text, where))
    requires forall t, p :: (t, p) != (text, Join(where)) ==> Queue(now, t, p) == Queue(before, t, p)
    ensures forall s | IsElement(w, s) :: At(before, s) == At(now, s)
  {
    forall s | IsElement(w, s) ensures At(before, s) == At(now, s) {
      if Join(s.where) == Join(where) {
        var e :| e in w.elems && e.text == s.text && e.where == s.where;
        JoinInjective(s.where, where);
      }
    }
  }

  /** The line of an element is taken, if there is one: it is the own line exactly if that comes next. */
  lemma ElementTaken(w: Whole, where: seq<string>, text: string, end: nat, before: LineInfo, now: LineInfo, lm: seq<LineMap>)
    requires ElementsApart(w) && PathOk(where) && end <= |w.doc| && Entry(text, where, end) in w.elems
    requires
      var queue := Queue(before, text, Join(where));
      if queue == [] then lm == [] && now == before
      else
        && lm == [OwnLine(queue[0])] && Queue(now, text, Join(where)) == queue[1..]
        && forall t, p :: (t, p) != (text, Join(where)) ==> Queue(now, t, p) == Queue(before, t, p)
    ensures InText(w.doc, [Entry(text, where, end)])
    ensures ServedRight(w, [Entry(text, where, end)], lm == [OwnLine(LineAt(w.doc, end))], before, now)
  {
    hide LineAt, Lines;
    var e, slot := Entry(text, where, end), Slot(text, where);
    var queue, line := Queue(before, text, Join(where)), LineAt(w.doc, end);
    assert IsElement(w, slot);
    forall s: Slot | IsElement(w, s)
      ensures Own(w, [e], s) == if s == slot then [line] else []
      ensures s != slot ==> At(before, s) == At(now, s)
    {
      LinesOne(w.doc, e, s.text, s.where);
      var f :| f in w.elems && f.text == s.text && f.where == s.where;
      if Join(s.where) == Join(where) {
        JoinInjective(s.where, where);
      }
    }
    OwnLines(queue, line, lm);
    assert At(before, slot) == queue && Own(w, [e], slot) == [line];
    if queue != [] {
      assert queue == [queue[0]] + queue[1..];
    }
  }

  lemma OwnLines(queue: seq<nat>, line: nat, lm: seq<LineMap>)
    requires if queue == [] then lm == [] else lm == [OwnLine(queue[0])]
    ensures lm == [OwnLine(line)] <==> [line] <= queue
  {
    if queue != [] {
      assert OwnLine(queue[0]).entries[DEFAULT_KEY].line == queue[0] && OwnLine(line).entries[DEFAULT_KEY].line == line;
    }
  }

  // ---- Elements of members ----

  lemma {:induction false} ElementsExtend(n: Node, where: seq<string>)
    ensures forall e | e in Elements(n, where) :: where <= e.where
    decreases n, 1
  {
    match n
    case Scalar(_, _, _) =>
    case Obj(members) => MemberElementsExtend(members, where);
    case Arr(items, _) => ItemElementsExtend(items, where);
  }

  lemma {:induction false} MemberElementsExtend(members: seq<Member>, where: seq<string>)
    ensures forall e | e in MemberElements(members, where) :: where <= e.where
    decreases members, 0
  {
    if members != [] {
      MemberElementsExtend(members[..|members| - 1], where);
      ElementsExtend(members[|members| - 1].val, Below(where, members[|members| - 1]));
    }
  }

  lemma {:induction false} ItemElementsExtend(items: seq<Node>, where: seq<string>)
    ensures forall e | e in ItemElements(items, where) :: where <= e.where
    decreases items, 0
  {
    if items != [] {
      ItemElementsExtend(items[..|items| - 1], where);
      match items[|items| - 1]
      case Obj(members) => MemberElementsExtend(members, where);
      case _ =>
    }
  }

  /** The elements below two different keys are looked up under different slots. */
  lemma ElementsExclusive(w: Whole, a: Member, b: Member, where: seq<string>, s: Slot)
    requires a.key != b.key && InText(w.doc, ElementsOf(a, where)) && InText(w.doc, ElementsOf(b, where))
    ensures Own(w, ElementsOf(a, where), s) == [] || Own(w, ElementsOf(b, where), s) == []
  {
    LinesAbsent(w.doc, ElementsOf(a, where), s.text, s.where);
    LinesAbsent(w.doc, ElementsOf(b, where), s.text, s.where);
    ElementsExtend(a.val, Below(where, a));
    ElementsExtend(b.val, Below(where, b));
    PathsDiffer(where, a.key, b.key, s.where);
  }

  lemma PathsDiffer(where: seq<string>, a: string, b: string, path: seq<string>)
    requires a != b
    ensures !(where + [a] <= path && where + [b] <= path)
  {
    if |path| > |where| && where <= path {
      assert where + [path[|where|]] <= path;
    }
    assert forall k | where + [k] <= path :: path[|where|] == (where + [k])[|where|];
  }

  lemma {:induction false} MemberElementsContain(members: seq<Member>, where: seq<string>)
    ensures forall m, e | m in members && e in ElementsOf(m, where) :: e in MemberElements(members, where)
    ensures forall m, s | m in members && s in Nested(m.val, Below(where, m)) :: s in MemberNested(members, where)
    decreases |members|
  {
    hide ElementsOf, Nested;
    if members != [] {
      MemberElementsContain(members[..|members| - 1], where);
      assert members == members[..|members| - 1] + [members[|members| - 1]];
    }
  }

  lemma MemberPart(w: Whole, members: seq<Member>, where: seq<string>, info: LineInfo, m: Member)
    requires ElementPart(w, MemberElements(members, where), MemberNested(members, where), info) && m in members
    ensures ElementPart(w, ElementsOf(m, where), Nested(m.val, Below(where, m)), info)
  {
    hide ElementsOf, Nested, MemberElements, MemberNested, ElementsApart, WholeOk, Muted;
    MemberElementsContain(members, where);
  }

  lemma {:induction false} NoUser(w: Whole, members: seq<Member>, where: seq<string>, s: Slot)
    requires InText(w.doc, MemberElements(members, where))
    requires forall i | 0 <= i < |members| :: InText(w.doc, ElementsOf(members[i], where))
    requires forall i | 0 <= i < |members| :: Own(w, ElementsOf(members[i], where), s) == []
    ensures Own(w, MemberElements(members, where), s) == []
    decreases |members|
  {
    hide ElementsOf;
    if members != [] {
      var front, last := members[..|members| - 1], members[|members| - 1];
      assert forall e | e in MemberElements(front, where) :: e in MemberElements(members, where);
      NoUser(w, front, where, s);
      LinesConcat(w.doc, MemberElements(front, where), ElementsOf(last, where), s.text, s.where);
    }
  }

  lemma {:induction false} OneElementUser(w: Whole, members: seq<Member>, where: seq<string>, s: Slot, k: nat)
    requires k < |members|
    requires InText(w.doc, MemberElements(members, where))
    requires forall i | 0 <= i < |members| :: InText(w.doc, ElementsOf(members[i], where))
    requires forall i | 0 <= i < |members| && i != k :: Own(w, ElementsOf(members[i], where), s) == []
    ensures Own(w, MemberElements(members, where), s) == Own(w, ElementsOf(members[k], where), s)
    decreases |members|
  {
    hide Lines, ElementsOf;
    var front, last := members[..|members| - 1], members[|members| - 1];
    assert forall e | e in MemberElements(front, where) :: e in MemberElements(members, where);
    LinesConcat(w.doc, MemberElements(front, where), ElementsOf(last, where), s.text, s.where);
    if k == |members| - 1 {
      NoUser(w, front, where, s);
    } else {
      OneElementUser(w, front, where, s, k);
    }
  }

  /** The queues after the members `done` were visited; `exact` tells which of them came out right. */
  ghost predicate VisitedElements(w: Whole, members: seq<Member>, where: seq<string>, done: set<int>, exact: int -> bool,
                                  start: LineInfo, now: LineInfo)
    requires forall i | 0 <= i < |members| :: InText(w.doc, ElementsOf(members[i], where))
    requires forall i | i in done :: 0 <= i < |members|
  {
    && (forall i | i in done :: exact(i) <==> SuppliesElements(w, ElementsOf(members[i], where), start))
    && forall s | IsElement(w, s) ::
         && ((forall i | i in done :: Own(w, ElementsOf(members[i], where), s) == []) ==> At(start, s) == At(now, s))
         && forall i | i in done && exact(i) && Own(w, ElementsOf(members[i], where), s) != [] ::
              At(start, s) == Own(w, ElementsOf(members[i], where), s) + At(now, s)
  }

  /** One more member was visited. */
  lemma VisitedMore(w: Whole, members: seq<Member>, where: seq<string>, done: set<int>, exact: int -> bool, start: LineInfo,
                    before: LineInfo, i: int, right: bool, more: int -> bool, now: LineInfo)
    requires forall j | 0 <= j < |members| :: InText(w.doc, ElementsOf(members[j], where))
    requires forall j | j in done :: 0 <= j < |members|
    requires DistinctKeys(members) && 0 <= i < |members| && i !in done
    requires VisitedElements(w, members, where, done, exact, start, before)
    requires ServedRight(w, ElementsOf(members[i], where), right, before, now)
    requires forall j | j in done + {i} :: more(j) == if j == i then right else exact(j)
    ensures VisitedElements(w, members, where, done + {i}, more, start, now)
  {
    hide Own, At, IsElement, ElementsOf, InText;
    forall j, s | j in done ensures Own(w, ElementsOf(members[j], where), s) == [] || Own(w, ElementsOf(members[i], where), s) == [] {
      ElementsExclusive(w, members[j], members[i], where, s);
    }
    forall s | IsElement(w, s) ensures Own(w, ElementsOf(members[i], where), s) != [] ==> At(start, s) == At(before, s) {}
    assert i in done + {i};
    SameSupply(w, ElementsOf(members[i], where), start, before);
  }

  lemma SameSupply(w: Whole, elems: seq<Entry>, start: LineInfo, before: LineInfo)
    requires InText(w.doc, elems)
    requires forall s | IsElement(w, s) :: Own(w, elems, s) != [] ==> At(start, s) == At(before, s)
    ensures SuppliesElements(w, elems, start) <==> SuppliesElements(w, elems, before)
  {
    hide Own, At, IsElement, InText;
  }

  lemma VisitedAll(w: Whole, members: seq<Member>, where: seq<string>, done: set<int>, exact: int -> bool, start: LineInfo,
                   now: LineInfo)
    requires forall j | 0 <= j < |members| :: InText(w.doc, ElementsOf(members[j], where))
    requires forall j :: j in done <==> 0 <= j < |members|
    requires DistinctKeys(members) && InText(w.doc, MemberElements(members, where))
    requires VisitedElements(w, members, where, done, exact, start, now)
    ensures ServedRight(w, MemberElements(members, where), forall i | 0 <= i < |members| :: exact(i), start, now)
  {
    hide Own, At, IsElement, ElementsOf, MemberElements, InText;
    forall s | IsElement(w, s)
      ensures Own(w, MemberElements(members, where), s) == [] ==> At(start, s) == At(now, s)
      ensures Own(w, MemberElements(members, where), s) != [] ==>
                exists i :: 0 <= i < |members| && Own(w, MemberElements(members, where), s) == Own(w, ElementsOf(members[i], where), s)
      ensures forall i | 0 <= i < |members| && Own(w, ElementsOf(members[i], where), s) != [] ::
                Own(w, MemberElements(members, where), s) == Own(w, ElementsOf(members[i], where), s)
    {
      MemberUsers(w, members, where, s);
      if Own(w, MemberElements(members, where), s) == [] {
        forall i | i in done ensures Own(w, ElementsOf(members[i], where), s) == [] {}
      }
    }
    AllSupplied(w, members, where, start);
  }

  lemma AllSupplied(w: Whole, members: seq<Member>, where: seq<string>, info: LineInfo)
    requires forall j | 0 <= j < |members| :: InText(w.doc, ElementsOf(members[j], where))
    requires InText(w.doc, MemberElements(members, where))
    requires forall s | IsElement(w, s) ::
               && (Own(w, MemberElements(members, where), s) != [] ==>
                     exists i :: 0 <= i < |members| && Own(w, MemberElements(members, where), s) == Own(w, ElementsOf(members[i], where), s))
               && forall i | 0 <= i < |members| && Own(w, ElementsOf(members[i], where), s) != [] ::
                    Own(w, MemberElements(members, where), s) == Own(w, ElementsOf(members[i], where), s)
    ensures SuppliesElements(w, MemberElements(members, where), info) <==>
            forall i | 0 <= i < |members| :: SuppliesElements(w, ElementsOf(members[i], where), info)
  {
    hide Own, At, IsElement, ElementsOf, MemberElements, InText;
  }

  /** The elements looked up under a slot are those of one member. */
  lemma MemberUsers(w: Whole, members: seq<Member>, where: seq<string>, s: Slot)
    requires forall j | 0 <= j < |members| :: InText(w.doc, ElementsOf(members[j], where))
    requires DistinctKeys(members) && InText(w.doc, MemberElements(members, where))
    ensures forall i | 0 <= i < |members| && Own(w, ElementsOf(members[i], where), s) != [] ::
              Own(w, MemberElements(members, where), s) == Own(w, ElementsOf(members[i], where), s)
    ensures (forall i | 0 <= i < |members| :: Own(w, ElementsOf(members[i], where), s) == []) ==>
              Own(w, MemberElements(members, where), s) == []
  {
    hide Own, ElementsOf, MemberElements, InText;
    forall i | 0 <= i < |members| && Own(w, ElementsOf(members[i], where), s) != []
      ensures Own(w, MemberElements(members, where), s) == Own(w, ElementsOf(members[i], where), s)
    {
      forall j | 0 <= j < |members| && j != i ensures Own(w, ElementsOf(members[j], where), s) == [] {
        ElementsExclusive(w, members[j], members[i], where, s);
      }
      OneElementUser(w, members, where, s, i);
    }
    if forall i | 0 <= i < |members| :: Own(w, ElementsOf(members[i], where), s) == [] {
      NoUser(w, members, where, s);
    }
  }

  // ---- Elements of lists ----

  lemma ItemElementsStep(items: seq<Node>, where: seq<string>, i: nat)
    requires i < |items|
    ensures ItemElements(items[..i + 1], where) == ItemElements(items[..i], where) + OneElement(items[i], where)
    ensures ItemNested(items[..i + 1], where) == ItemNested(items[..i], where) + OneNested(items[i], where)
  {
    assert items[..i + 1][..i] == items[..i];
  }

  lemma {:induction false} ItemElementsFront(items: seq<Node>, where: seq<string>, i: nat)
    requires i <= |items|
    ensures forall e | e in ItemElements(items[..i], where) :: e in ItemElements(items, where)
    ensures ItemNested(items[..i], where) <= ItemNested(items, where)
    decreases |items| - i
  {
    if i < |items| {
      ItemElementsStep(items, where, i);
      ItemElementsFront(items, where, i + 1);
    } else {
      assert items[..i] == items;
    }
  }

  /** An element is part of its array. */
  lemma ItemPart(w: Whole, items: seq<Node>, where: seq<string>, info: LineInfo, i: nat)
    requires ElementPart(w, ItemElements(items, where), ItemNested(items, where), info) && i < |items|
    ensures ElementPart(w, OneElement(items[i], where), OneNested(items[i], where), info)
    ensures InText(w.doc, ItemElements(items[..i], where)) && InText(w.doc, ItemElements(items[..i + 1], where))
  {
    hide OneElement, OneNested, ItemElements, ItemNested, ElementsApart, WholeOk, Muted;
    ItemElementsFront(items, where, i);
    ItemElementsFront(items, where, i + 1);
    ItemElementsStep(items, where, i);
  }

  /** The state of the loop over an array after its first `i` elements. */
  ghost predicate ElementsOk(w: Whole, items: seq<Node>, where: seq<string>, i: nat, arr: seq<LineMap>, start: LineInfo, now: LineInfo) {
    && i <= |items| && ElementPart(w, ItemElements(items, where), ItemNested(items, where), now)
    && InText(w.doc, ItemElements(items[..i], where)) && |arr| <= Count(items[..i])
    && ServedRight(w, ItemElements(items[..i], where), ExactItems(w.doc, items[..i], arr), start, now)
  }

  lemma ElementsStart(w: Whole, items: seq<Node>, where: seq<string>, info: LineInfo)
    requires ElementPart(w, ItemElements(items, where), ItemNested(items, where), info)
    ensures ElementsOk(w, items, where, 0, [], info, info)
  {
    hide ElementPart, ServedRight;
    assert items[..0] == [];
    NothingServed(w, info);
  }

  lemma ElementNext(w: Whole, items: seq<Node>, where: seq<string>, i: nat, arr: seq<LineMap>, start: LineInfo, now: LineInfo)
    requires i < |items| && ElementsOk(w, items, where, i, arr, start, now)
    ensures ElementPart(w, OneElement(items[i], where), OneNested(items[i], where), now)
  {
    hide ElementPart, ServedRight, OneElement, OneNested, ItemElements, ItemNested;
    ItemPart(w, items, where, now, i);
  }

  lemma ElementDone(w: Whole, items: seq<Node>, where: seq<string>, i: nat, arr: seq<LineMap>, start: LineInfo, before: LineInfo,
                    lm: seq<LineMap>, now: LineInfo)
    requires i < |items| && ElementsOk(w, items, where, i, arr, start, before) && NoGrowth(before, now)
    requires |lm| <= if items[i].Arr? then 0 else 1
    requires InText(w.doc, OneElement(items[i], where))
    requires ServedRight(w, OneElement(items[i], where), ExactItem(w.doc, items[i], lm), before, now)
    ensures ElementsOk(w, items, where, i + 1, arr + lm, start, now)
  {
    hide ElementPart, ServedRight, OneElement, OneNested, ItemElements, ItemNested, ExactItems, ExactItem, Count, NoGrowth;
    ItemPart(w, items, where, before, i);
    PartLater(w, ItemElements(items, where), ItemNested(items, where), before, now);
    ItemElementsStep(items, where, i);
    assert items[..i] + [items[i]] == items[..i + 1];
    ExactStep(w.doc, items[..i], items[i], arr, lm);
    ServedBoth(w, ItemElements(items[..i], where), OneElement(items[i], where), ExactItems(w.doc, items[..i], arr),
               ExactItem(w.doc, items[i], lm), start, before, now);
  }

  lemma ElementsDone(w: Whole, items: seq<Node>, where: seq<string>, arr: seq<LineMap>, start: LineInfo, now: LineInfo)
    requires ElementsOk(w, items, where, |items|, arr, start, now)
    ensures InText(w.doc, ItemElements(items, where))
    ensures ServedRight(w, ItemElements(items, where), ExactItems(w.doc, items, arr), start, now)
  {
    hide ElementPart, ServedRight, ItemElements, ExactItems;
    assert items[..|items|] == items;
  }

  lemma NoneTaken(info: LineInfo)
    ensures NoGrowth(info, info)
  {
  }

  lemma TakenBoth(start: LineInfo, before: LineInfo, now: LineInfo)
    requires NoGrowth(start, before) && NoGrowth(before, now)
    ensures NoGrowth(start, now)
  {
  }

  /** A scalar or an array was looked up, and its line taken if there is one. */
  lemma ItemServed(w: Whole, item: Node, where: seq<string>, before: LineInfo, now: LineInfo, lm: seq<LineMap>)
    requires !item.Obj? && PathOk(where) && ElementPart(w, OneElement(item, where), OneNested(item, where), before)
    requires
      var queue := Queue(before, item.printed, Join(where));
      if queue == [] then lm == [] && now == before
      else
        && lm == [OwnLine(queue[0])] && Queue(now, item.printed, Join(where)) == queue[1..]
        && forall t, p :: (t, p) != (item.printed, Join(where)) ==> Queue(now, t, p) == Queue(before, t, p)
    ensures |lm| <= if item.Arr? then 0 else 1
    ensures ServedRight(w, OneElement(item, where), ExactItem(w.doc, item, lm), before, now)
  {
    hide LineAt, ServedRight, ElementsApart, Join;
    match item
    case Scalar(_, printed, end) =>
      assert Entry(printed, where, end) in OneElement(item, where);
      ElementTaken(w, where, printed, end, before, now, lm);
    case Arr(_, printed) =>
      assert Slot(printed, where) in w.mute;
      assert At(before, Slot(printed, where)) == [];
      NothingServed(w, before);
  }

  lemma BelowIs(m: Member, where: seq<string>)
    ensures ElementsOf(m, where) == Elements(m.val, Below(where, m))
    ensures m.val.Scalar? ==> ElementsOf(m, where) == []
    ensures m.val.Obj? ==>
              && ElementsOf(m, where) == MemberElements(m.val.members, Below(where, m))
              && Nested(m.val, Below(where, m)) == MemberNested(m.val.members, Below(where, m))
    ensures m.val.Arr? ==>
              && ElementsOf(m, where) == ItemElements(m.val.items, Below(where, m))
              && Nested(m.val, Below(where, m)) == ItemNested(m.val.items, Below(where, m))
  {
  }

  /** The state of the loop over an object after the members `done` were visited. */
  ghost predicate VisitOk(w: Whole, members: seq<Member>, where: seq<string>, done: set<int>, exact: int -> bool, lm: LineMap,
                          start: LineInfo, now: LineInfo)
  {
    && DistinctKeys(members) && ElementPart(w, MemberElements(members, where), MemberNested(members, where), now)
    && (forall i | i in done :: 0 <= i < |members|)
    && (forall i | 0 <= i < |members| :: InText(w.doc, ElementsOf(members[i], where)))
    && VisitedElements(w, members, where, done, exact, start, now)
    && forall i | i in done :: exact(i) <==> InMapExact(w.doc, members[i], lm)
  }

  lemma VisitStarts(w: Whole, members: seq<Member>, where: seq<string>, exact: int -> bool, lm: LineMap, info: LineInfo)
    requires DistinctKeys(members) && ElementPart(w, MemberElements(members, where), MemberNested(members, where), info)
    ensures VisitOk(w, members, where, {}, exact, lm, info, info)
  {
    hide ElementsOf, MemberElements, Nested, MemberNested, At, Own, IsElement;
    forall i | 0 <= i < |members| ensures InText(w.doc, ElementsOf(members[i], where)) {
      MemberPart(w, members, where, info, members[i]);
    }
  }

  lemma VisitNext(w: Whole, members: seq<Member>, where: seq<string>, done: set<int>, exact: int -> bool, lm: LineMap,
                  start: LineInfo, now: LineInfo, i: int)
    requires VisitOk(w, members, where, done, exact, lm, start, now) && 0 <= i < |members|
    ensures ElementPart(w, ElementsOf(members[i], where), Nested(members[i].val, Below(where, members[i])), now)
  {
    hide ElementsOf, MemberElements, Nested, MemberNested, ElementPart, VisitedElements;
    MemberPart(w, members, where, now, members[i]);
  }

  lemma VisitMore(w: Whole, members: seq<Member>, where: seq<string>, done: set<int>, exact: int -> bool, lm: LineMap,
                  start: LineInfo, before: LineInfo, i: int, own: LineObject, child: seq<LineMap>, lm': LineMap, now: LineInfo)
    returns (more: int -> bool)
    requires VisitOk(w, members, where, done, exact, lm, start, before) && 0 <= i < |members| && i !in done
    requires NoGrowth(before, now) && InText(w.doc, ElementsOf(members[i], where))
    requires ServedRight(w, ElementsOf(members[i], where), ExactMember(w.doc, members[i], own, child), before, now)
    requires |child| == if members[i].val.Obj? then 1 else 0
    requires lm'.entries == lm.entries[Tagged(members[i].key) := own]
    requires lm'.nested == if child == [] then lm.nested else lm.nested[members[i].key := child[0]]
    ensures VisitOk(w, members, where, done + {i}, more, lm', start, now)
  {
    hide ElementsOf, MemberElements, Nested, MemberNested, ElementPart, VisitedElements, ServedRight, Exact, ExactItems, NoGrowth;
    var m := members[i];
    var right := ExactMember(w.doc, m, own, child);
    more := (j: int) => if j == i then right else exact(j);
    PartLater(w, MemberElements(members, where), MemberNested(members, where), before, now);
    VisitedMore(w, members, where, done, exact, start, before, i, right, more, now);
    InMapOne(w.doc, m, own, child, lm');
    forall j | j in done ensures InMapExact(w.doc, members[j], lm') <==> InMapExact(w.doc, members[j], lm) {
      TaggedInjective(m.key, members[j].key);
      assert members[j].key != m.key;
    }
  }

  lemma InMapOne(doc: string, m: Member, own: LineObject, child: seq<LineMap>, lm: LineMap)
    requires |child| == if m.val.Obj? then 1 else 0
    requires Tagged(m.key) in lm.entries && lm.entries[Tagged(m.key)] == own
    requires child != [] ==> m.key in lm.nested && lm.nested[m.key] == child[0]
    ensures InMapExact(doc, m, lm) <==> ExactMember(doc, m, own, child)
  {
    if m.val.Obj? {
      assert child == [lm.nested[m.key]];
    }
  }

  lemma VisitEnds(w: Whole, members: seq<Member>, where: seq<string>, done: set<int>, exact: int -> bool, lm: LineMap,
                  start: LineInfo, now: LineInfo)
    requires VisitOk(w, members, where, done, exact, lm, start, now) && forall i | 0 <= i < |members| :: i in done
    ensures InText(w.doc, MemberElements(members, where))
    ensures ServedRight(w, MemberElements(members, where), Exact(w.doc, members, lm), start, now)
  {
    hide ElementsOf, MemberElements, Nested, MemberNested, ServedRight, VisitedElements, InMapExact, ElementsApart, WholeOk, Muted;
    VisitedAll(w, members, where, done, exact, start, now);
    assert Exact(w.doc, members, lm) <==> forall i | 0 <= i < |members| :: InMapExact(w.doc, members[i], lm);
  }
}
