/** The second pass: a walk over the decoded document that serves every key from the shared
    queues of lines, popping them below arrays. The iteration order of objects is arbitrary. */
module JsonAnnotator {
  import opened JsonDocument
  import opened JsonTracker
  import opened JsonLines
  import opened JsonSlots
  import opened JsonElements
  import opened LineKeys

  // ---- The walk ----

  ghost predicate MembersReady(w: Whole, members: seq<Member>, where: seq<string>, father: string, info: LineInfo) {
    father == Join(where) && PartMembers(w, members, where) && Supplies(w, MemberKeys(members, where), info)
  }

  ghost predicate MemberReady(w: Whole, m: Member, where: seq<string>, father: string, info: LineInfo) {
    father == Join(where) && PartMember(w, m, where) && Supplies(w, KeysOf(m, where), info)
  }

  ghost predicate ItemsReady(w: Whole, items: seq<Node>, where: seq<string>, fatherKey: string, info: LineInfo) {
    fatherKey == Join(where) && PartItems(w, items, where) && Supplies(w, ItemKeys(items, where), info)
  }

  ghost predicate ItemReady(w: Whole, item: Node, where: seq<string>, fatherKey: string, info: LineInfo) {
    && fatherKey == Join(where) && WholeOk(w) && PathOk(where)
    && InText(w.doc, Keys(item, where)) && Supplies(w, Keys(item, where), info)
    && if item.Obj? then PartMembers(w, item.members, where)
       else Keys(item, where) == [] && !IsKey(w, Slot(item.printed, where))
  }

  /** The queues before and after the own line of a key is read, and popped if that is asked for. */
  ghost predicate HeadRead(before: LineInfo, text: string, path: string, pop: bool, now: LineInfo) {
    if !pop then now == before
    else
      && Queue(before, text, path) != []
      && Queue(now, text, path) == Queue(before, text, path)[1..]
      && forall t, p :: (t, p) != (text, path) ==> Queue(now, t, p) == Queue(before, t, p)
  }

  /** The head of the own slot is the own line. */
  lemma HeadIsOwn(w: Whole, m: Member, where: seq<string>, father: string, info: LineInfo)
    requires MemberReady(w, m, where, father, info)
    ensures m.end <= |w.doc| && Queue(info, m.key, father) != []
    ensures Queue(info, m.key, father)[0] == LineAt(w.doc, m.end)
  {
    OwnSlot(w, m, where);
    var own := Slot(m.key, where);
    assert Entry(m.key, where, m.end) in KeysOf(m, where);
    assert IsKey(w, own);
    hide KeysOf, Keys, Lines;
    assert Own(w, KeysOf(m, where), own) <= At(info, own);
  }

  lemma AfterHead(w: Whole, m: Member, where: seq<string>, father: string, before: LineInfo, pop: bool, now: LineInfo, s: Slot)
    requires MemberReady(w, m, where, father, before) && HeadRead(before, m.key, father, pop, now) && IsKey(w, s)
    ensures m.end <= |w.doc|
    ensures At(before, s) == (if pop && s == Slot(m.key, where) then [LineAt(w.doc, m.end)] else []) + At(now, s)
  {
    HeadIsOwn(w, m, where, father, before);
    hide KeysOf, Keys, Lines, Supplies;
    if s != Slot(m.key, where) && Join(s.where) == father {
      JoinInjective(s.where, where);
    }
  }

  /** What is below a key can still be served once its own line was taken, and serving it
      completes the effect of the key. */
  lemma BelowHead(w: Whole, m: Member, where: seq<string>, father: string, before: LineInfo, pop: bool, now: LineInfo)
    requires MemberReady(w, m, where, father, before) && HeadRead(before, m.key, father, pop, now)
    ensures InText(w.doc, Keys(m.val, Below(where, m))) && Supplies(w, Keys(m.val, Below(where, m)), now)
  {
    OwnSlot(w, m, where);
    ReadyIsPart(w, m, where, father, before);
    var rest := Keys(m.val, Below(where, m));
    assert Supplies(w, KeysOf(m, where), before);
    hide Keys, Lines, KeysOf, HeadRead, MemberReady, PartMember, Own, At, IsKey, InText;
    forall s | IsKey(w, s) ensures Own(w, rest, s) <= At(now, s) {
      AfterHead(w, m, where, father, before, pop, now, s);
      OwnTail(w, m, where, s);
      assert Own(w, KeysOf(m, where), s) <= At(before, s);
      TailSupplied(if s == Slot(m.key, where) then [LineAt(w.doc, m.end)] else [], Own(w, rest, s), pop, At(before, s), At(now, s));
    }
  }

  lemma TailSupplied(head: seq<nat>, tail: seq<nat>, pop: bool, before: seq<nat>, now: seq<nat>)
    requires head + tail <= before && before == (if pop then head else []) + now
    requires head == [] || tail == []
    ensures tail <= now
  {
    assert head == [] ==> head + tail == tail;
    assert [] + now == now;
  }

  lemma OwnTail(w: Whole, m: Member, where: seq<string>, s: Slot)
    requires InText(w.doc, KeysOf(m, where))
    ensures m.end <= |w.doc| && InText(w.doc, Keys(m.val, Below(where, m)))
    ensures Own(w, KeysOf(m, where), s)
            == (if s == Slot(m.key, where) then [LineAt(w.doc, m.end)] else []) + Own(w, Keys(m.val, Below(where, m)), s)
    ensures s == Slot(m.key, where) ==> Own(w, Keys(m.val, Below(where, m)), s) == []
  {
    OwnSlot(w, m, where);
    KeysExtend(m.val, Below(where, m));
    LinesAbsent(w.doc, Keys(m.val, Below(where, m)), m.key, where);
  }

  lemma WholeEffect(w: Whole, m: Member, where: seq<string>, father: string, before: LineInfo, pop: bool, now: LineInfo, next: LineInfo)
    requires MemberReady(w, m, where, father, before) && HeadRead(before, m.key, father, pop, now)
    requires InText(w.doc, Keys(m.val, Below(where, m)))
    requires Effect(w, Keys(m.val, Below(where, m)), pop, now, next)
    ensures Effect(w, KeysOf(m, where), pop, before, next)
  {
    hide KeysOf, Keys, Lines, Supplies, Own, At, HeadRead;
    forall s | IsKey(w, s)
      ensures Own(w, KeysOf(m, where), s) == [] ==> At(before, s) == At(next, s)
      ensures pop ==> At(before, s) == Own(w, KeysOf(m, where), s) + At(next, s)
    {
      OwnTail(w, m, where, s);
      AfterHead(w, m, where, father, before, pop, now, s);
    }
  }

  lemma ReadyIsPart(w: Whole, m: Member, where: seq<string>, father: string, info: LineInfo)
    requires MemberReady(w, m, where, father, info)
    ensures father == Join(where) && PartMember(w, m, where)
  {
  }

  lemma ObjectKeys(n: Node, where: seq<string>)
    requires n.Obj?
    ensures Keys(n, where) == MemberKeys(n.members, where)
  {
  }

  lemma NoEffect(w: Whole, pop: bool, info: LineInfo)
    ensures InText(w.doc, []) && Effect(w, [], pop, info, info)
  {
  }

  lemma ArrayEffect(w: Whole, n: Node, where: seq<string>, pop: bool, before: LineInfo, after: LineInfo)
    requires n.Arr? && InText(w.doc, Keys(n, where)) && Consumed(w, ItemKeys(n.items, where), before, after)
    ensures Effect(w, Keys(n, where), pop, before, after)
  {
    hide At, IsKey;
  }

  /** The objects and arrays below a key are ready to be served at the longer path. */
  lemma ValueReady(w: Whole, m: Member, where: seq<string>, father: string, now: LineInfo)
    requires father == Join(where) && PartMember(w, m, where) && !m.val.Scalar?
    requires InText(w.doc, Keys(m.val, Below(where, m))) && Supplies(w, Keys(m.val, Below(where, m)), now)
    ensures m.val.Obj? ==> MembersReady(w, m.val.members, Below(where, m), father + "." + m.key, now)
    ensures m.val.Arr? ==> ItemsReady(w, m.val.items, Below(where, m), father + "." + m.key, now)
  {
    JoinSnoc(where, m.key);
    var below := Below(where, m);
    assert forall e | e in Keys(m.val, below) :: e in KeysOf(m, where);
    assert PathOk(below);
    hide Supplies, Join, IsKey;
  }

  /** While the own line of a key is taken, the queues of elements stay. */
  lemma HeadTaken(w: Whole, m: Member, where: seq<string>, father: string, start: LineInfo, pop: bool, now: LineInfo)
    requires MemberReady(w, m, where, father, start) && HeadRead(start, m.key, father, pop, now)
    requires ElementPart(w, ElementsOf(m, where), Nested(m.val, Below(where, m)), start)
    ensures ElementPart(w, ElementsOf(m, where), Nested(m.val, Below(where, m)), now)
    ensures forall s | IsElement(w, s) :: At(start, s) == At(now, s)
  {
    hide ElementsOf, Nested, ElementsApart, WholeOk, Muted, Keys, Others, Supplies, IsElement;
    assert Entry(m.key, where, m.end) in KeysOf(m, where);
    assert IsKey(w, Slot(m.key, where));
    HeadGone(start, m.key, father, pop, now);
    PartLater(w, ElementsOf(m, where), Nested(m.val, Below(where, m)), start, now);
    if pop {
      KeyTaken(w, where, m.key, start, now);
    }
  }

  lemma HeadGone(start: LineInfo, text: string, path: string, pop: bool, now: LineInfo)
    requires HeadRead(start, text, path, pop, now)
    ensures NoGrowth(start, now)
  {
  }

  /** What is below a key was served after the line of the key was taken. */
  lemma MemberServed(w: Whole, m: Member, where: seq<string>, own: LineObject, child: seq<LineMap>, start: LineInfo, now: LineInfo,
                     next: LineInfo)
    requires InText(w.doc, ElementsOf(m, where)) && forall s | IsElement(w, s) :: At(start, s) == At(now, s)
    requires m.val.Scalar? ==> next == now
    requires m.val.Obj? ==>
               && |child| == 1 && InText(w.doc, MemberElements(m.val.members, Below(where, m)))
               && ServedRight(w, MemberElements(m.val.members, Below(where, m)), Exact(w.doc, m.val.members, child[0]), now, next)
    requires m.val.Arr? ==>
               && InText(w.doc, ItemElements(m.val.items, Below(where, m)))
               && ServedRight(w, ItemElements(m.val.items, Below(where, m)), ExactItems(w.doc, m.val.items, own.arr), now, next)
    ensures ServedRight(w, ElementsOf(m, where), ExactMember(w.doc, m, own, child), start, next)
  {
    hide ServedRight, Exact, ExactItems, MemberElements, ItemElements;
    BelowIs(m, where);
    NothingServed(w, now);
    ServedAfter(w, ElementsOf(m, where), ExactMember(w.doc, m, own, child), start, now, next);
  }

  ghost predicate InMap(doc: string, m: Member, lm: LineMap) {
    && Tagged(m.key) in lm.entries
    && FaithfulMember(doc, m, lm.entries[Tagged(m.key)], if m.key in lm.nested then [lm.nested[m.key]] else [])
  }

  lemma StartsWithDefault(line: int)
    ensures HasDefault(LineMap(map[DEFAULT_KEY := LineObject(line, [])], map[]), line)
  {
  }

  lemma KeepsDefault(members: seq<Member>, before: LineMap, after: LineMap, i: nat, line: int)
    requires NoDefaultKey(members) && i < |members| && HasDefault(before, line)
    requires Tagged(members[i].key) in after.entries
    requires after.entries == before.entries[Tagged(members[i].key) := after.entries[Tagged(members[i].key)]]
    ensures HasDefault(after, line)
  {
    DefaultIsTagged();
    TaggedInjective(members[i].key, "_default");
  }

  lemma {:induction false} ScalarsHaveNoKeys(items: seq<Node>, where: seq<string>)
    requires AllScalar(items)
    ensures ItemKeys(items, where) == []
  {
    if items != [] {
      ScalarsHaveNoKeys(items[..|items| - 1], where);
    }
  }

  /** What was consumed before leaves the lines of the next element at the heads. */
  lemma NextSupply(w: Whole, front: seq<Entry>, own: seq<Entry>, rest: seq<Entry>, start: LineInfo, now: LineInfo)
    requires InText(w.doc, front) && InText(w.doc, own) && InText(w.doc, rest) && InText(w.doc, front + own + rest)
    requires Supplies(w, front + own + rest, start) && Consumed(w, front, start, now)
    ensures Supplies(w, own, now)
  {
    hide At, IsKey;
    forall s | IsKey(w, s) ensures Own(w, own, s) <= At(now, s) {
      LinesConcat(w.doc, front, own, s.text, s.where);
      LinesConcat(w.doc, front + own, rest, s.text, s.where);
      DropPrefix(Own(w, front, s), Own(w, own, s), Own(w, rest, s), At(start, s), At(now, s));
    }
  }

  lemma DropPrefix(f: seq<nat>, o: seq<nat>, r: seq<nat>, all: seq<nat>, tail: seq<nat>)
    requires f + o + r <= all && all == f + tail
    ensures o <= tail
  {
    assert tail == all[|f|..];
    assert o == (f + o)[|f|..];
  }

  /** The state of the loop over an array after its first `i` elements. */
  ghost predicate ItemsOk(w: Whole, items: seq<Node>, where: seq<string>, i: nat, arr: seq<LineMap>, start: LineInfo, now: LineInfo) {
    && i <= |items|
    && PartItems(w, items, where) && PartItems(w, items[..i], where)
    && Supplies(w, ItemKeys(items, where), start)
    && Consumed(w, ItemKeys(items[..i], where), start, now)
    && FaithfulItems(w.doc, items[..i], arr)
    && (SameKeys(items) ==> OwnDefaults(w.doc, items[..i], arr))
  }

  lemma ItemsStart(w: Whole, items: seq<Node>, where: seq<string>, info: LineInfo)
    requires PartItems(w, items, where) && Supplies(w, ItemKeys(items, where), info)
    ensures ItemsOk(w, items, where, 0, [], info, info)
  {
    hide Supplies, SameKeys;
    assert items[..0] == [];
  }

  lemma ItemsDone(w: Whole, items: seq<Node>, where: seq<string>, arr: seq<LineMap>, start: LineInfo, now: LineInfo)
    requires ItemsOk(w, items, where, |items|, arr, start, now)
    ensures FaithfulItems(w.doc, items, arr) && (SameKeys(items) ==> OwnDefaults(w.doc, items, arr))
    ensures InText(w.doc, ItemKeys(items, where)) && Consumed(w, ItemKeys(items, where), start, now)
  {
    hide Supplies, Consumed, FaithfulItems, SameKeys, OwnDefaults, ItemKeys;
    assert items[..|items|] == items;
  }

  lemma PartIsInText(w: Whole, items: seq<Node>, where: seq<string>)
    requires PartItems(w, items, where)
    ensures InText(w.doc, ItemKeys(items, where)) && WholeOk(w) && PathOk(where)
  {
    hide InText, ItemKeys, WholeOk, PathOk;
  }

  lemma ItemNext(w: Whole, items: seq<Node>, where: seq<string>, i: nat, arr: seq<LineMap>, start: LineInfo, now: LineInfo,
                 father: string, line: int)
    requires i < |items| && ItemsOk(w, items, where, i, arr, start, now)
    requires father == Join(where) && IsDefaultLine(now, items, father, line)
    ensures ItemReady(w, items[i], where, father, now)
    ensures SameKeys(items) ==> line >= 0 && LeastLine(w.doc, items[i].members, line)
  {
    hide PartItems, Supplies, Consumed, FaithfulItems, OwnDefaults, IsDefaultLine, LeastLine, InText, ItemKeys, Keys, IsKey, WholeOk, PathOk, Join, PartMembers;
    PartIsInText(w, items, where);
    PartIsInText(w, items[..i], where);
    NextItem(w, items, where, i, start, now);
    if SameKeys(items) {
      DefaultIsOwn(w, items, where, i, now, father, line);
    }
  }

  lemma ItemDone(w: Whole, items: seq<Node>, where: seq<string>, i: nat, arr: seq<LineMap>, start: LineInfo, before: LineInfo,
                 lm: seq<LineMap>, line: int, now: LineInfo)
    requires i < |items| && ItemsOk(w, items, where, i, arr, start, before)
    requires InText(w.doc, Keys(items[i], where)) && Consumed(w, Keys(items[i], where), before, now)
    requires |lm| <= 1
    requires if items[i].Obj? then |lm| == 1 && Faithful(w.doc, items[i].members, lm[0]) else lm != [] ==> Bare(lm[0])
    requires items[i].Obj? ==> NoDefaultKey(items[i].members) ==> HasDefault(lm[0], line)
    requires SameKeys(items) ==> LeastLine(w.doc, items[i].members, line)
    ensures ItemsOk(w, items, where, i + 1, arr + lm, start, now)
  {
    hide PartItems, Supplies, Consumed, FaithfulItems, Faithful, Bare, OwnDefaults, LeastLine, InText, ItemKeys, Keys, NoDefaultKey, HasDefault;
    ItemsFront(w, items, where, i + 1);
    PartIsInText(w, items[..i], where);
    PartIsInText(w, items[..i + 1], where);
    ConsumedStep(w, items, where, i + 1, start, before, now);
    FaithfulStep(w.doc, items[..i], items[i], arr, lm);
    assert items[..i] + [items[i]] == items[..i + 1];
    if SameKeys(items) {
      OneMoreDefault(w.doc, items, i, arr, lm, line);
    }
  }

  lemma NextItem(w: Whole, items: seq<Node>, where: seq<string>, i: nat, start: LineInfo, now: LineInfo)
    requires i < |items| && PartItems(w, items, where)
    requires Supplies(w, ItemKeys(items, where), start)
    requires PartItems(w, items[..i], where) && Consumed(w, ItemKeys(items[..i], where), start, now)
    ensures PartItems(w, items[..i + 1], where)
    ensures InText(w.doc, ItemKeys(items[..i + 1], where))
    ensures InText(w.doc, Keys(items[i], where)) && Supplies(w, Keys(items[i], where), now)
    ensures items[i].Obj? ==> PartMembers(w, items[i].members, where)
    ensures !items[i].Obj? ==> Keys(items[i], where) == [] && !IsKey(w, Slot(items[i].printed, where))
  {
    hide Supplies, Consumed, IsKey;
    var item := items[i];
    ItemsFront(w, items, where, i + 1);
    assert items[..i + 1][..i] == items[..i];
    var front, own := ItemKeys(items[..i], where), Keys(item, where);
    assert ItemKeys(items[..i + 1], where) == front + own;
    assert forall e | e in own :: e in ItemKeys(items[..i + 1], where);
    var rest :| ItemKeys(items, where) == ItemKeys(items[..i + 1], where) + rest;
    assert forall e | e in rest :: e in ItemKeys(items, where);
    NextSupply(w, front, own, rest, start, now);
    assert forall s | s in Others(item, where) :: s in ItemOthers(items[..i + 1], where);
    assert item in items;
    if item.Arr? {
      ScalarsHaveNoKeys(item.items, where);
    }
  }

  lemma ConsumedBoth(w: Whole, front: seq<Entry>, own: seq<Entry>, start: LineInfo, before: LineInfo, now: LineInfo)
    requires InText(w.doc, front) && InText(w.doc, own) && InText(w.doc, front + own)
    requires Consumed(w, front, start, before) && Consumed(w, own, before, now)
    ensures Consumed(w, front + own, start, now)
  {
    hide At, IsKey, Lines;
    forall s | IsKey(w, s) ensures At(start, s) == Own(w, front + own, s) + At(now, s) {
      LinesConcat(w.doc, front, own, s.text, s.where);
    }
  }

  lemma ConsumedStep(w: Whole, items: seq<Node>, where: seq<string>, i: nat, start: LineInfo, before: LineInfo, now: LineInfo)
    requires 0 < i <= |items|
    requires InText(w.doc, ItemKeys(items[..i - 1], where)) && InText(w.doc, ItemKeys(items[..i], where))
    requires Consumed(w, ItemKeys(items[..i - 1], where), start, before)
    requires InText(w.doc, Keys(items[i - 1], where)) && Consumed(w, Keys(items[i - 1], where), before, now)
    ensures Consumed(w, ItemKeys(items[..i], where), start, now)
  {
    assert items[..i][..i - 1] == items[..i - 1];
    assert ItemKeys(items[..i], where) == ItemKeys(items[..i - 1], where) + Keys(items[i - 1], where);
    hide Consumed, InText, Keys, ItemKeys;
    ConsumedBoth(w, ItemKeys(items[..i - 1], where), Keys(items[i - 1], where), start, before, now);
  }

  lemma FaithfulStep(doc: string, front: seq<Node>, item: Node, arr: seq<LineMap>, lm: seq<LineMap>)
    requires FaithfulItems(doc, front, arr) && |lm| <= 1
    requires if item.Obj? then |lm| == 1 && Faithful(doc, item.members, lm[0]) else lm != [] ==> Bare(lm[0])
    ensures FaithfulItems(doc, front + [item], arr + lm)
  {
    assert (front + [item])[..|front|] == front;
    if lm == [] {
      assert arr + lm == arr;
    } else {
      assert (arr + lm)[..|arr + lm| - 1] == arr;
    }
  }

  /** The next lines of the keys of an element are its own. */
  lemma HeadOf(w: Whole, members: seq<Member>, where: seq<string>, info: LineInfo, m: Member)
    requires PartMembers(w, members, where) && Supplies(w, MemberKeys(members, where), info) && m in members
    ensures m.end <= |w.doc| && Queue(info, m.key, Join(where)) != []
    ensures Queue(info, m.key, Join(where))[0] == LineAt(w.doc, m.end)
  {
    MembersSupply(w, members, where, info);
    hide PartMembers, PartMember, Supplies, MemberKeys, KeysOf;
    HeadIsOwn(w, m, where, Join(where), info);
  }

  /** In an array of objects with the same keys, the default line looked up for an element is the
      least line of that element's own keys. */
  lemma DefaultIsOwn(w: Whole, items: seq<Node>, where: seq<string>, i: nat, info: LineInfo, father: string, line: int)
    requires i < |items| && SameKeys(items) && father == Join(where) && IsDefaultLine(info, items, father, line)
    requires PartMembers(w, items[i].members, where)
    requires InText(w.doc, Keys(items[i], where)) && Supplies(w, Keys(items[i], where), info)
    ensures line >= 0 && LeastLine(w.doc, items[i].members, line)
  {
    var own, last := items[i].members, items[|items| - 1];
    forall m | m in own
      ensures m.end <= |w.doc| && Queue(info, m.key, father) != [] && Queue(info, m.key, father)[0] == LineAt(w.doc, m.end)
    {
      HeadOf(w, own, where, info, m);
    }
    hide PartMembers, Supplies, Keys, Join, LineAt, Queue;
    var heads := Heads(info, last, father);
    forall m | m in own ensures LineAt(w.doc, m.end) in heads {
      assert HasKey(last.members, m.key);
    }
    assert own[0] in own;
    var m :| m in last.members && Queue(info, m.key, father) != [] && Queue(info, m.key, father)[0] == line;
    assert HasKey(own, m.key);
  }

  lemma OneMoreDefault(doc: string, items: seq<Node>, i: nat, arr: seq<LineMap>, lm: seq<LineMap>, line: int)
    requires i < |items| && SameKeys(items) && OwnDefaults(doc, items[..i], arr)
    requires |lm| == 1 && (NoDefaultKey(items[i].members) ==> HasDefault(lm[0], line))
    requires LeastLine(doc, items[i].members, line)
    ensures OwnDefaults(doc, items[..i + 1], arr + lm)
  {
    hide LeastLine, HasDefault, HasKey;
    var done, all := items[..i + 1], arr + lm;
    forall k | 0 <= k < i + 1
      ensures done[k].Obj? && exists l :: LeastLine(doc, done[k].members, l) && HasDefault(all[k], l)
    {
      if k < i {
        assert items[..i][k] == done[k] && all[k] == arr[k];
      }
    }
  }

  /** The state of the loop over an object after the members `done` were served. */
  ghost predicate LoopOk(w: Whole, members: seq<Member>, where: seq<string>, pop: bool, todo: set<int>, done: set<int>,
                         lm: LineMap, start: LineInfo, now: LineInfo)
  {
    && (forall i | i in todo :: 0 <= i < |members|)
    && (forall i | i in done :: 0 <= i < |members|)
    && (forall i | 0 <= i < |members| :: i in todo || i in done)
    && DistinctKeys(members)
    && (forall m | m in members :: InText(w.doc, KeysOf(m, where)))
    && (forall i | 0 <= i < |members| :: InText(w.doc, KeysOf(members[i], where)))
    && (forall i | i in todo :: PartMember(w, members[i], where))
    && (forall i | i in todo :: Supplies(w, KeysOf(members[i], where), now))
    && Served(w, members, where, done, pop, start, now)
    && (forall i | i in done :: InMap(w.doc, members[i], lm))
  }

  lemma LoopStart(w: Whole, members: seq<Member>, where: seq<string>, pop: bool, todo: set<int>, lm: LineMap, info: LineInfo)
    requires PartMembers(w, members, where) && Supplies(w, MemberKeys(members, where), info)
    requires todo == set i | 0 <= i < |members| && forall j | i < j < |members| :: members[j].key != members[i].key
    ensures LoopOk(w, members, where, pop, todo, {}, lm, info, info)
  {
    MembersSupply(w, members, where, info);
    MembersInText(w, members, where);
    assert DistinctKeys(members);
    hide PartMember, PartMembers, InText, Supplies, KeysOf, MemberKeys, InMap;
    ByIndex(w, members, where, info, todo);
    assert Served(w, members, where, {}, pop, info, info) by { hide IsKey, At, Own; }
  }

  lemma ByIndex(w: Whole, members: seq<Member>, where: seq<string>, info: LineInfo, todo: set<int>)
    requires DistinctKeys(members)
    requires todo == set i | 0 <= i < |members| && forall j | i < j < |members| :: members[j].key != members[i].key
    requires forall m | m in members :: InText(w.doc, KeysOf(m, where)) && PartMember(w, m, where) && Supplies(w, KeysOf(m, where), info)
    ensures forall i | 0 <= i < |members| ::
              i in todo && InText(w.doc, KeysOf(members[i], where)) && PartMember(w, members[i], where)
              && Supplies(w, KeysOf(members[i], where), info)
  {
    hide PartMember, InText, Supplies, KeysOf;
    forall i | 0 <= i < |members|
      ensures i in todo && InText(w.doc, KeysOf(members[i], where)) && PartMember(w, members[i], where)
      ensures Supplies(w, KeysOf(members[i], where), info)
    {
      assert members[i] in members;
    }
  }

  lemma InTextAtFirst(w: Whole, members: seq<Member>, where: seq<string>, father: string, info: LineInfo)
    ensures MembersReady(w, members, where, father, info) ==> father == Join(where) && InText(w.doc, MemberKeys(members, where))
  {
  }

  lemma LoopNext(w: Whole, members: seq<Member>, where: seq<string>, pop: bool, todo: set<int>, done: set<int>,
                 lm: LineMap, start: LineInfo, now: LineInfo, i: int, father: string)
    requires LoopOk(w, members, where, pop, todo, done, lm, start, now) && i in todo && father == Join(where)
    ensures MemberReady(w, members[i], where, father, now)
  {
    hide PartMember;
  }

  lemma LoopStep(w: Whole, members: seq<Member>, where: seq<string>, pop: bool, todo: set<int>, done: set<int>,
                 lm: LineMap, start: LineInfo, now: LineInfo, i: int, own: LineObject, child: seq<LineMap>,
                 lm': LineMap, next: LineInfo)
    requires LoopOk(w, members, where, pop, todo, done, lm, start, now)
    requires i in todo && todo !! done && |child| <= 1
    requires FaithfulMember(w.doc, members[i], own, child)
    requires Effect(w, KeysOf(members[i], where), pop, now, next)
    requires lm'.entries == lm.entries[Tagged(members[i].key) := own]
    requires lm'.nested == if child == [] then lm.nested else lm.nested[members[i].key := child[0]]
    ensures LoopOk(w, members, where, pop, todo - {i}, done + {i}, lm', start, next)
  {
    hide PartMember, InText, IsKey, Own, At, Served, Supplies, Effect, Faithful, FaithfulItems;
    var m := members[i];
    ServedStep(w, members, where, done, pop, start, now, i, next);
    forall j | j in todo && j != i ensures Supplies(w, KeysOf(members[j], where), next) {
      SuppliesKept(w, m, members[j], where, pop, now, next);
    }
    forall j | j in done ensures InMap(w.doc, members[j], lm') {
      assert InMap(w.doc, members[j], lm);
      TaggedInjective(m.key, members[j].key);
    }
    InMapNew(w.doc, m, own, child, lm');
  }

  lemma InMapNew(doc: string, m: Member, own: LineObject, child: seq<LineMap>, lm: LineMap)
    requires FaithfulMember(doc, m, own, child) && |child| <= 1
    requires Tagged(m.key) in lm.entries && lm.entries[Tagged(m.key)] == own
    requires child != [] ==> m.key in lm.nested && lm.nested[m.key] == child[0]
    ensures InMap(doc, m, lm)
  {
    if m.val.Obj? {
      assert child == [lm.nested[m.key]];
    }
  }

  lemma LoopDone(w: Whole, members: seq<Member>, where: seq<string>, pop: bool, done: set<int>,
                 lm: LineMap, start: LineInfo, now: LineInfo)
    requires LoopOk(w, members, where, pop, {}, done, lm, start, now) && InText(w.doc, MemberKeys(members, where))
    ensures Faithful(w.doc, members, lm)
    ensures Effect(w, MemberKeys(members, where), pop, start, now)
  {
    ServedAll(w, members, where, done, pop, start, now);
    forall m | m in members ensures InMap(w.doc, m, lm) {
      var i :| 0 <= i < |members| && members[i] == m;
      assert i in done;
    }
  }

  class JsonLine {
    var lineInfo: LineInfo

    constructor (info: LineInfo)
      ensures lineInfo == info
    {
      lineInfo := info;
    }

    method Pop(text: string, path: string) returns (line: nat)
      requires Queue(lineInfo, text, path) != []
      modifies this
      ensures line == Queue(old(lineInfo), text, path)[0]
      ensures Queue(lineInfo, text, path) == Queue(old(lineInfo), text, path)[1..]
      ensures forall t, p :: (t, p) != (text, path) ==> Queue(lineInfo, t, p) == Queue(old(lineInfo), t, p)
    {
      line := lineInfo[text][path][0];
      lineInfo := lineInfo[text := lineInfo[text][path := lineInfo[text][path][1..]]];
    }

    method SetLine(members: seq<Member>, def: int, father: string, pop: bool, ghost w: Whole, ghost where: seq<string>)
      returns (lm: LineMap)
      modifies this
      ensures MembersReady(w, members, where, father, old(lineInfo)) ==>
                && Faithful(w.doc, members, lm)
                && Effect(w, MemberKeys(members, where), pop, old(lineInfo), lineInfo)
      ensures MembersReady(w, members, where, father, old(lineInfo))
              && ElementPart(w, MemberElements(members, where), MemberNested(members, where), old(lineInfo)) ==>
                ServedRight(w, MemberElements(members, where), Exact(w.doc, members, lm), old(lineInfo), lineInfo)
      ensures NoGrowth(old(lineInfo), lineInfo)
      ensures NoDefaultKey(members) ==> HasDefault(lm, def)
      decreases members, 1
    {
      lm := LineMap(map[DEFAULT_KEY := LineObject(def, [])], map[]);
      ghost var ready := MembersReady(w, members, where, father, lineInfo);
      ghost var done: set<int> := {};
      // A repeated key is decoded once, with its last value.
      var todo := set i | 0 <= i < |members| && forall j | i < j < |members| :: members[j].key != members[i].key;
      if ready {
        LoopStart(w, members, where, pop, todo, lm, lineInfo);
      }
      ghost var whole := ready && ElementPart(w, MemberElements(members, where), MemberNested(members, where), lineInfo);
      ghost var exact: int -> bool := (i: int) => false;
      NoneTaken(lineInfo);
      if whole {
        VisitStarts(w, members, where, exact, lm, lineInfo);
      }
      StartsWithDefault(def);
      InTextAtFirst(w, members, where, father, lineInfo);
      hide *;
      while todo != {}
        invariant todo !! done && forall i | i in todo :: 0 <= i < |members|
        invariant ready ==> father == Join(where) && InText(w.doc, MemberKeys(members, where))
        invariant ready ==> LoopOk(w, members, where, pop, todo, done, lm, old(lineInfo), lineInfo)
        invariant NoDefaultKey(members) ==> HasDefault(lm, def)
        invariant whole ==> VisitOk(w, members, where, done, exact, lm, old(lineInfo), lineInfo)
        invariant NoGrowth(old(lineInfo), lineInfo)
        decreases todo
      {
        var i :| i in todo;
        var m := members[i];
        ghost var before, oldMap := lineInfo, lm;
        if ready {
          LoopNext(w, members, where, pop, todo, done, lm, old(lineInfo), lineInfo, i, father);
        }
        if whole {
          VisitNext(w, members, where, done, exact, lm, old(lineInfo), lineInfo, i);
        }
        var found, own, child := SetMember(m, father, pop, w, where);
        TakenBoth(old(lineInfo), before, lineInfo);
        if found {
          lm := LineMap(lm.entries[Tagged(m.key) := own], if child == [] then lm.nested else lm.nested[m.key := child[0]]);
        }
        if found && NoDefaultKey(members) {
          KeepsDefault(members, oldMap, lm, i, def);
        }
        if ready {
          LoopStep(w, members, where, pop, todo, done, oldMap, old(lineInfo), before, i, own, child, lm, lineInfo);
        }
        if whole {
          exact := VisitMore(w, members, where, done, exact, oldMap, old(lineInfo), before, i, own, child, lm, lineInfo);
        }
        todo, done := todo - {i}, done + {i};
      }
      if whole {
        VisitEnds(w, members, where, done, exact, lm, old(lineInfo), lineInfo);
      }
      if ready {
        LoopDone(w, members, where, pop, done, lm, old(lineInfo), lineInfo);
      }
    }

    /** The body of the loop over an object: the entry of one key. */
    method SetMember(m: Member, father: string, pop: bool, ghost w: Whole, ghost where: seq<string>)
      returns (found: bool, own: LineObject, child: seq<LineMap>)
      modifies this
      ensures |child| == if found && m.val.Obj? then 1 else 0
      ensures MemberReady(w, m, where, father, old(lineInfo)) ==>
                && found && FaithfulMember(w.doc, m, own, child)
                && Effect(w, KeysOf(m, where), pop, old(lineInfo), lineInfo)
      ensures MemberReady(w, m, where, father, old(lineInfo))
              && ElementPart(w, ElementsOf(m, where), Nested(m.val, Below(where, m)), old(lineInfo)) ==>
                ServedRight(w, ElementsOf(m, where), ExactMember(w.doc, m, own, child), old(lineInfo), lineInfo)
      ensures NoGrowth(old(lineInfo), lineInfo)
      decreases m, 0
    {
      found, own, child := false, LineObject(0, []), [];
      ghost var ready, start := MemberReady(w, m, where, father, lineInfo), lineInfo;
      if ready {
        HeadIsOwn(w, m, where, father, lineInfo);
      }
      ghost var whole := ready && ElementPart(w, ElementsOf(m, where), Nested(m.val, Below(where, m)), start);
      hide MemberReady, PartMember, MembersReady, ItemsReady, Supplies, Effect, Consumed, OthersKept, InText, Keys, KeysOf, MemberKeys,
        ItemKeys, Faithful, FaithfulItems, ElementPart, ServedRight, Elements, MemberElements, ItemElements, ElementsOf, Nested, Exact,
        ExactItems, ExactMember;
      if !(m.key in lineInfo && father in lineInfo[m.key]) {
        return;
      }
      if lineInfo[m.key][father] == [] {
        return;
      }
      found := true;
      var lineNr := lineInfo[m.key][father][0];
      if pop {
        lineNr := Pop(m.key, father);
      }
      ghost var below, now := Below(where, m), lineInfo;
      if ready {
        BelowHead(w, m, where, father, start, pop, now);
        ReadyIsPart(w, m, where, father, start);
        if !m.val.Scalar? {
          ValueReady(w, m, where, father, now);
        }
      }
      if whole {
        HeadTaken(w, m, where, father, start, pop, now);
        BelowIs(m, where);
      }
      match m.val {
        case Scalar(_, _, _) =>
          own := LineObject(lineNr, []);
          NoEffect(w, pop, now);
          assert Keys(m.val, below) == [] by { ScalarKeys(m.val, below); }
          NothingServed(w, now);
        case Arr(items, _) =>
          var arr := SetSeqLines(items, lineNr, father, m.key, w, below);
          own := LineObject(lineNr, arr);
          if ready {
            ArrayEffect(w, m.val, below, pop, now, lineInfo);
          }
        case Obj(members) =>
          var lm := SetLine(members, lineNr, father + "." + m.key, pop, w, below);
          own, child := LineObject(lineNr, []), [lm];
          assert Keys(m.val, below) == MemberKeys(members, below) by { ObjectKeys(m.val, below); }
      }
      if ready {
        WholeEffect(w, m, where, father, start, pop, now, lineInfo);
      }
      TakenBoth(start, now, lineInfo);
      if whole {
        MemberServed(w, m, where, own, child, start, now, lineInfo);
      }
    }

    method SetSeqLines(items: seq<Node>, def: int, father: string, key: string, ghost w: Whole, ghost where: seq<string>)
      returns (lineArr: seq<LineMap>)
      modifies this
      ensures ItemsReady(w, items, where, father + "." + key, old(lineInfo)) ==>
                && FaithfulItems(w.doc, items, lineArr)
                && (SameKeys(items) ==> OwnDefaults(w.doc, items, lineArr))
                && Consumed(w, ItemKeys(items, where), old(lineInfo), lineInfo)
      ensures ItemsReady(w, items, where, father + "." + key, old(lineInfo))
              && ElementPart(w, ItemElements(items, where), ItemNested(items, where), old(lineInfo)) ==>
                ServedRight(w, ItemElements(items, where), ExactItems(w.doc, items, lineArr), old(lineInfo), lineInfo)
      ensures NoGrowth(old(lineInfo), lineInfo)
      decreases items, 0
    {
      var fatherKey := father + "." + key;
      lineArr := [];
      ghost var ready := ItemsReady(w, items, where, fatherKey, lineInfo);
      if ready {
        ItemsStart(w, items, where, lineInfo);
      }
      ghost var whole := ready && ElementPart(w, ItemElements(items, where), ItemNested(items, where), lineInfo);
      NoneTaken(lineInfo);
      if whole {
        ElementsStart(w, items, where, lineInfo);
      }
      hide *;
      var i := 0;
      while i < |items|
        invariant 0 <= i <= |items|
        invariant ready ==> fatherKey == Join(where) && ItemsOk(w, items, where, i, lineArr, old(lineInfo), lineInfo)
        invariant whole ==> ElementsOk(w, items, where, i, lineArr, old(lineInfo), lineInfo)
        invariant NoGrowth(old(lineInfo), lineInfo)
      {
        ghost var before := lineInfo;
        var line := GetMapDefaultLine(items, fatherKey);
        var defaultLine := if line == -1 then def else line;
        if ready {
          ItemNext(w, items, where, i, lineArr, old(lineInfo), lineInfo, fatherKey, line);
        }
        if whole {
          ElementNext(w, items, where, i, lineArr, old(lineInfo), lineInfo);
        }
        var lm := SetItem(items[i], defaultLine, fatherKey, w, where);
        TakenBoth(old(lineInfo), before, lineInfo);
        if whole {
          ElementDone(w, items, where, i, lineArr, old(lineInfo), before, lm, lineInfo);
        }
        if ready {
          ItemDone(w, items, where, i, lineArr, old(lineInfo), before, lm, defaultLine, lineInfo);
        }
        lineArr := lineArr + lm;
        i := i + 1;
      }
      if ready {
        ItemsDone(w, items, where, lineArr, old(lineInfo), lineInfo);
      }
      if whole {
        ElementsDone(w, items, where, lineArr, old(lineInfo), lineInfo);
      }
    }

    /** The body of the loop over an array: at most one line map for one element. */
    method SetItem(item: Node, defaultLine: int, fatherKey: string, ghost w: Whole, ghost where: seq<string>)
      returns (lm: seq<LineMap>)
      modifies this
      ensures ItemReady(w, item, where, fatherKey, old(lineInfo)) ==>
                && Consumed(w, Keys(item, where), old(lineInfo), lineInfo)
                && |lm| <= 1
                && (if item.Obj? then |lm| == 1 && Faithful(w.doc, item.members, lm[0]) else lm != [] ==> Bare(lm[0]))
      // A scalar element has one line map with its own line, exactly if that line comes next in its queue.
      ensures ItemReady(w, item, where, fatherKey, old(lineInfo))
              && ElementPart(w, OneElement(item, where), OneNested(item, where), old(lineInfo)) ==>
                && |lm| <= (if item.Arr? then 0 else 1)
                && ServedRight(w, OneElement(item, where), ExactItem(w.doc, item, lm), old(lineInfo), lineInfo)
      ensures NoGrowth(old(lineInfo), lineInfo)
      ensures item.Obj? ==> |lm| == 1 && (NoDefaultKey(item.members) ==> HasDefault(lm[0], defaultLine))
      decreases item, 1
    {
      ghost var before := lineInfo;
      match item {
        case Obj(members) =>
          var m := SetLine(members, defaultLine, fatherKey, true, w, where);
          lm := [m];
        case _ =>
          var printed := item.printed;
          lm := [];
          if printed in lineInfo && fatherKey in lineInfo[printed] && lineInfo[printed][fatherKey] != [] {
            var line := Pop(printed, fatherKey);
            lm := [LineMap(map[DEFAULT_KEY := LineObject(line, [])], map[])];
          }
          if ItemReady(w, item, where, fatherKey, before) {
            forall s | IsKey(w, s) ensures At(before, s) == At(lineInfo, s) {
              OtherQueue(w, where, printed, s);
            }
            if ElementPart(w, OneElement(item, where), OneNested(item, where), before) {
              ItemServed(w, item, where, before, lineInfo, lm);
            }
          }
      }
    }

    /** The smallest head among the keys of the last object that still has lines, or -1. */
    method GetMapDefaultLine(items: seq<Node>, father: string) returns (line: int)
      ensures IsDefaultLine(lineInfo, items, father, line)
    {
      line := -1;
      assert items[..0] == [];
      for i := 0 to |items|
        invariant IsDefaultLine(lineInfo, items[..i], father, line)
      {
        var heads := Heads(lineInfo, items[i], father);
        if heads != {} {
          line := Smallest(heads);
        }
        assert items[..i + 1][..i] == items[..i];
      }
      assert items[..|items|] == items;
    }
  }

  ghost predicate IsDefaultLine(info: LineInfo, items: seq<Node>, father: string, line: int)
    decreases |items|
  {
    if items == [] then line == -1
    else
      var heads := Heads(info, items[|items| - 1], father);
      if heads == {} then IsDefaultLine(info, items[..|items| - 1], father, line)
      else line in heads && forall h | h in heads :: line <= h
  }

  function Heads(info: LineInfo, item: Node, father: string): set<nat> {
    if item.Obj? then
      set m | m in item.members && Queue(info, m.key, father) != [] :: Queue(info, m.key, father)[0]
    else {}
  }

  method Smallest(s: set<nat>) returns (least: nat)
    requires s != {}
    ensures least in s && forall x | x in s :: least <= x
  {
    least :| least in s;
    var rest := s - {least};
    while rest != {}
      invariant least in s && rest <= s
      invariant forall x | x in s :: x in rest || least <= x
    {
      var x :| x in rest;
      if x < least {
        least := x;
      }
      rest := rest - {x};
    }
  }

  // ---- Both passes together ----

  ghost predicate Regular(root: Node) {
    && root.Obj? && RegularShape(root) && RegularKeys(root)
    && forall e, s | e in Keys(root, [""]) && s in Others(root, [""]) :: !(e.text == s.text && e.where == s.where)
  }

  /** The entries of `n` are in order: dot-free paths, its keys, and texts among its other slots. */
  ghost predicate Accounted(n: seq<Entry>, keys: seq<Entry>, others: set<Slot>) {
    && (forall e | e in n :: PathOk(e.where))
    && (forall e | e in keys :: e in n)
    && (forall doc, s: Slot | InText(doc, n) && InText(doc, keys) && s !in others ::
          Lines(doc, n, s.text, s.where) == Lines(doc, keys, s.text, s.where))
  }

  lemma AccountedConcat(a: seq<Entry>, x: seq<Entry>, p: set<Slot>, b: seq<Entry>, y: seq<Entry>, q: set<Slot>)
    requires Accounted(a, x, p) && Accounted(b, y, q)
    ensures Accounted(a + b, x + y, p + q)
  {
    forall doc, s: Slot | InText(doc, a + b) && InText(doc, x + y) && s !in p + q
      ensures Lines(doc, a + b, s.text, s.where) == Lines(doc, x + y, s.text, s.where)
    {
      assert (forall e | e in a :: e in a + b) && (forall e | e in b :: e in a + b);
      assert (forall e | e in x :: e in x + y) && (forall e | e in y :: e in x + y);
      LinesConcat(doc, a, b, s.text, s.where);
      LinesConcat(doc, x, y, s.text, s.where);
    }
  }

  lemma {:induction false} EntriesAccounted(n: Node, where: seq<string>)
    requires RegularKeys(n) && PathOk(where)
    ensures Accounted(Entries(n, where), Keys(n, where), Others(n, where))
    decreases n, 1
  {
    match n
    case Scalar(text, _, end) =>
      var e := Entry(text, where, end);
      assert [e][..0] == [];
      assert Entries(n, where) == [e] && Keys(n, where) == [];
    case Obj(members) =>
      MembersAccounted(members, where);
    case Arr(items, _) =>
      ItemsAccounted(items, where);
  }

  lemma NothingAccounted()
    ensures Accounted([], [], {})
  {
  }

  lemma KeyAccounted(m: Member, where: seq<string>)
    requires PathOk(where) && DotFree(m.key)
    ensures PathOk(Below(where, m))
    ensures var e := Entry(m.key, where, m.end); Accounted([e], [e], {})
  {
  }

  lemma {:induction false} MembersAccounted(members: seq<Member>, where: seq<string>)
    requires PathOk(where) && forall m | m in members :: DotFree(m.key) && RegularKeys(m.val)
    ensures Accounted(MemberEntries(members, where), MemberKeys(members, where), MemberOthers(members, where))
    decreases members, 0
  {
    if members == [] {
      NothingAccounted();
    } else {
      hide Accounted, PathOk, DotFree, RegularKeys;
      var front, m := members[..|members| - 1], members[|members| - 1];
      var e, below := Entry(m.key, where, m.end), Below(where, m);
      MembersAccounted(front, where);
      KeyAccounted(m, where);
      EntriesAccounted(m.val, below);
      AccountedConcat(MemberEntries(front, where), MemberKeys(front, where), MemberOthers(front, where), [e], [e], {});
      AccountedConcat(MemberEntries(front, where) + [e], MemberKeys(front, where) + [e], MemberOthers(front, where) + {},
                      Entries(m.val, below), Keys(m.val, below), Others(m.val, below));
      assert MemberKeys(members, where) == MemberKeys(front, where) + [e] + Keys(m.val, below);
      assert MemberOthers(members, where) == MemberOthers(front, where) + {} + Others(m.val, below);
    }
  }

  lemma {:induction false} ItemsAccounted(items: seq<Node>, where: seq<string>)
    requires PathOk(where) && forall item | item in items :: RegularKeys(item)
    ensures Accounted(ItemEntries(items, where), ItemKeys(items, where), ItemOthers(items, where))
    decreases items, 0
  {
    if items != [] {
      var front, item := items[..|items| - 1], items[|items| - 1];
      ItemsAccounted(front, where);
      EntriesAccounted(item, where);
      AccountedConcat(ItemEntries(front, where), ItemKeys(front, where), ItemOthers(front, where),
                      Entries(item, where), Keys(item, where), Others(item, where));
    }
  }

  lemma {:induction false} RecordedIsLines(doc: string, log: seq<Entry>, s: Slot)
    requires InText(doc, log) && PathOk(s.where)
    requires forall e | e in log :: PathOk(e.where)
    ensures Recorded(doc, log, s.text, Join(s.where)) == Lines(doc, log, s.text, s.where)
  {
    if log != [] {
      var e := log[|log| - 1];
      RecordedIsLines(doc, log[..|log| - 1], s);
      if Join(e.where) == Join(s.where) {
        JoinInjective(e.where, s.where);
      }
    }
  }

  lemma KeySlotHolds(doc: string, log: seq<Entry>, keys: seq<Entry>, others: set<Slot>, info: LineInfo, s: Slot)
    requires Accounted(log, keys, others) && InText(doc, log) && InText(doc, keys)
    requires Holds(info, doc, log) && s !in others && PathOk(s.where)
    ensures At(info, s) == Lines(doc, keys, s.text, s.where)
  {
    RecordedIsLines(doc, log, s);
    assert Matches(info, doc, log, s.text, Join(s.where));
    hide Lines, Recorded, Join;
  }

  /** After the first pass over a regular document, the queues hold what the second pass needs. */
  lemma FirstPassSupplies(doc: string, root: Node, info: LineInfo) returns (w: Whole)
    requires Regular(root)
    requires InText(doc, Entries(root, [""])) && Holds(info, doc, Entries(root, [""]))
    ensures w == Whole(doc, Keys(root, [""]), Elements(root, [""]), Nested(root, [""]))
    ensures MembersReady(w, root.members, [""], "", info)
  {
    var log, keys, others := Entries(root, [""]), Keys(root, [""]), Others(root, [""]);
    w := Whole(doc, keys, Elements(root, [""]), Nested(root, [""]));
    EntriesAccounted(root, [""]);
    assert Join([""]) == "";
    assert Part(w, keys, others);
    assert Supplies(w, keys, info) by {
      hide Entries, Keys, Others, Lines, Holds, RegularShape, RegularKeys;
      forall s | IsKey(w, s) ensures Own(w, keys, s) <= At(info, s) {
        assert s !in others;
        KeySlotHolds(doc, log, keys, others, info, s);
      }
    }
  }

  // ---- Scalar elements in both passes ----

  /** No nested array is printed like a text that is recorded at its path. */
  ghost predicate Unheard(root: Node) {
    forall s, e | s in Nested(root, [""]) && e in Entries(root, [""]) :: !(e.text == s.text && e.where == s.where)
  }

  /** Under every text and path, the lines of the scalar elements that are looked up there are the first ones that
      are recorded there. */
  ghost predicate ElementsFirst(doc: string, root: Node) {
    && InText(doc, Entries(root, [""])) && InText(doc, Elements(root, [""]))
    && forall text, where :: Lines(doc, Elements(root, [""]), text, where) <= Lines(doc, Entries(root, [""]), text, where)
  }

  /** Elements are looked up at dot-free paths, under slots that no key has, and each of them is a recorded token. */
  ghost predicate LookedUp(elems: seq<Entry>, mute: set<Slot>, log: seq<Entry>, others: set<Slot>) {
    && (forall e | e in elems :: PathOk(e.where) && Slot(e.text, e.where) in others && exists x | x in log :: x.end == e.end)
    && forall s | s in mute :: PathOk(s.where)
  }

  lemma LookedUpBoth(a: seq<Entry>, m: set<Slot>, x: seq<Entry>, p: set<Slot>, b: seq<Entry>, n: set<Slot>, y: seq<Entry>, q: set<Slot>)
    requires LookedUp(a, m, x, p) && LookedUp(b, n, y, q)
    ensures LookedUp(a + b, m + n, x + y, p + q)
  {
    forall e | e in a + b ensures PathOk(e.where) && Slot(e.text, e.where) in p + q && exists z | z in x + y :: z.end == e.end {
      if e in a {
        var z :| z in x && z.end == e.end;
        assert z in x + y;
      } else {
        var z :| z in y && z.end == e.end;
        assert z in x + y;
      }
    }
  }

  lemma {:induction false} ElementsLookedUp(n: Node, where: seq<string>)
    requires RegularKeys(n) && PathOk(where)
    ensures LookedUp(Elements(n, where), Nested(n, where), Entries(n, where), Others(n, where))
    decreases n, 1
  {
    match n
    case Scalar(_, _, _) =>
    case Obj(members) => MembersLookedUp(members, where);
    case Arr(items, _) => ItemsLookedUp(items, where);
  }

  lemma {:induction false} MembersLookedUp(members: seq<Member>, where: seq<string>)
    requires PathOk(where) && forall m | m in members :: DotFree(m.key) && RegularKeys(m.val)
    ensures LookedUp(MemberElements(members, where), MemberNested(members, where), MemberEntries(members, where), MemberOthers(members, where))
    decreases members, 0
  {
    if members != [] {
      hide RegularKeys, DotFree, LookedUp, PathOk;
      var front, m := members[..|members| - 1], members[|members| - 1];
      var below, e := Below(where, m), Entry(m.key, where, m.end);
      MembersLookedUp(front, where);
      KeyAccounted(m, where);
      ElementsLookedUp(m.val, below);
      NoneLookedUp([e]);
      LookedUpBoth(MemberElements(front, where), MemberNested(front, where), MemberEntries(front, where), MemberOthers(front, where),
                   [], {}, [e], {});
      LookedUpBoth(MemberElements(front, where) + [], MemberNested(front, where) + {}, MemberEntries(front, where) + [e],
                   MemberOthers(front, where) + {}, Elements(m.val, below), Nested(m.val, below), Entries(m.val, below), Others(m.val, below));
      assert MemberElements(members, where) == MemberElements(front, where) + [] + Elements(m.val, below);
      assert MemberNested(members, where) == MemberNested(front, where) + {} + Nested(m.val, below);
      assert MemberEntries(members, where) == MemberEntries(front, where) + [e] + Entries(m.val, below);
      assert MemberOthers(members, where) == MemberOthers(front, where) + {} + Others(m.val, below);
    } else {
      NoneLookedUp([]);
    }
  }

  lemma NoneLookedUp(log: seq<Entry>)
    ensures LookedUp([], {}, log, {})
  {
  }

  lemma {:induction false} ItemsLookedUp(items: seq<Node>, where: seq<string>)
    requires PathOk(where) && forall item | item in items :: RegularKeys(item)
    ensures LookedUp(ItemElements(items, where), ItemNested(items, where), ItemEntries(items, where), ItemOthers(items, where))
    decreases items, 0
  {
    if items != [] {
      var front, item := items[..|items| - 1], items[|items| - 1];
      ItemsLookedUp(front, where);
      var own := Others(item, where) + if item.Obj? then {} else {Slot(item.printed, where)};
      assert LookedUp(OneElement(item, where), OneNested(item, where), Entries(item, where), own) by {
        match item
        case Obj(members) => ElementsLookedUp(item, where);
        case _ =>
      }
      LookedUpBoth(ItemElements(front, where), ItemNested(front, where), ItemEntries(front, where), ItemOthers(front, where),
                   OneElement(item, where), OneNested(item, where), Entries(item, where), own);
      assert ItemOthers(items, where) == ItemOthers(front, where) + own;
    }
  }

  /** After the first pass over a regular document the queues of elements hold what is recorded. */
  lemma ElementsReady(doc: string, root: Node, info: LineInfo, w: Whole)
    requires Regular(root) && Unheard(root)
    requires InText(doc, Entries(root, [""])) && Holds(info, doc, Entries(root, [""])) && WholeOk(w)
    requires w == Whole(doc, Keys(root, [""]), Elements(root, [""]), Nested(root, [""]))
    ensures ElementPart(w, MemberElements(root.members, [""]), MemberNested(root.members, [""]), info)
    ensures SuppliesElements(w, MemberElements(root.members, [""]), info) <==> ElementsFirst(doc, root)
  {
    hide Entries, Others, Keys, RegularShape, RegularKeys, Lines, Holds, At, Elements, Nested, WholeOk;
    var log, elems := Entries(root, [""]), Elements(root, [""]);
    RootElements(root);
    RootKeys(root);
    ElementsLookedUp(root, [""]);
    assert InText(doc, elems);
    forall s: Slot | PathOk(s.where) ensures At(info, s) == Lines(doc, log, s.text, s.where) {
      AtIsLines(doc, log, info, s, root);
    }
    forall s | s in w.mute ensures At(info, s) == [] {
      LinesAbsent(doc, log, s.text, s.where);
    }
    forall text, where ensures !IsElement(w, Slot(text, where)) ==> Lines(doc, elems, text, where) == [] {
      LinesAbsent(doc, elems, text, where);
    }
    forall s | IsElement(w, s) ensures PathOk(s.where) {}
    if SuppliesElements(w, elems, info) {
      forall text, where ensures Lines(doc, elems, text, where) <= Lines(doc, log, text, where) {
        if IsElement(w, Slot(text, where)) {
          assert Own(w, elems, Slot(text, where)) <= At(info, Slot(text, where));
        }
      }
    }
  }

  lemma RootElements(root: Node)
    requires root.Obj?
    ensures Elements(root, [""]) == MemberElements(root.members, [""]) && Nested(root, [""]) == MemberNested(root.members, [""])
  {
  }

  lemma RootKeys(root: Node)
    requires Regular(root)
    ensures RegularKeys(root) && PathOk([""])
  {
  }

  lemma AtIsLines(doc: string, log: seq<Entry>, info: LineInfo, s: Slot, root: Node)
    requires RegularKeys(root) && PathOk([""]) && log == Entries(root, [""]) && InText(doc, log) && Holds(info, doc, log) && PathOk(s.where)
    ensures At(info, s) == Lines(doc, log, s.text, s.where)
  {
    EntriesAccounted(root, [""]);
    hide Lines, Recorded, Join, Entries, Others, Keys;
    RecordedIsLines(doc, log, s);
    assert Matches(info, doc, log, s.text, Join(s.where));
  }

  // ---- When elements come first ----

  /** Every scalar element is printed as its token. */
  ghost predicate PrintedAsToken(n: Node)
    decreases n
  {
    match n
    case Scalar(_, _, _) => true
    case Obj(members) => forall m | m in members :: PrintedAsToken(m.val)
    case Arr(items, _) => forall item | item in items :: PrintedAsToken(item) && (item.Scalar? ==> item.printed == item.text)
  }

  function SlotsOf(log: seq<Entry>): set<Slot> {
    set e | e in log :: Slot(e.text, e.where)
  }

  /** The slots of scalar values and of what is in nested arrays. */
  function Strays(n: Node, where: seq<string>): set<Slot>
    decreases n, 1
  {
    match n
    case Scalar(text, _, _) => {Slot(text, where)}
    case Obj(members) => MemberStrays(members, where)
    case Arr(items, _) => ItemStrays(items, where)
  }

  function MemberStrays(members: seq<Member>, where: seq<string>): set<Slot>
    decreases members, 0
  {
    if members == [] then {}
    else
      var m := members[|members| - 1];
      MemberStrays(members[..|members| - 1], where) + {Slot(m.key, where)} + Strays(m.val, Below(where, m))
  }

  function ItemStrays(items: seq<Node>, where: seq<string>): set<Slot>
    decreases items, 0
  {
    if items == [] then {} else ItemStrays(items[..|items| - 1], where) + OneStray(items[|items| - 1], where)
  }

  function OneStray(item: Node, where: seq<string>): set<Slot>
    decreases item, 2
  {
    match item
    case Scalar(_, _, _) => {}
    case Obj(members) => MemberStrays(members, where)
    case Arr(_, _) => SlotsOf(Entries(item, where))
  }

  /** No element has the slot of a token that is no element: a key, a scalar value, or one in a nested array. */
  ghost predicate NoStray(root: Node) {
    forall e | e in Elements(root, [""]) :: Slot(e.text, e.where) !in Strays(root, [""])
  }

  lemma AllStray(log: seq<Entry>)
    requires forall e | e in log :: PathOk(e.where)
    ensures Accounted(log, [], SlotsOf(log))
  {
    forall doc, s: Slot | InText(doc, log) && s !in SlotsOf(log) ensures Lines(doc, log, s.text, s.where) == [] {
      LinesAbsent(doc, log, s.text, s.where);
    }
  }

  lemma AllListed(log: seq<Entry>)
    requires forall e | e in log :: PathOk(e.where)
    ensures Accounted(log, log, {})
  {
  }

  lemma {:induction false} ElementsAccounted(n: Node, where: seq<string>)
    requires RegularKeys(n) && PathOk(where) && PrintedAsToken(n)
    ensures Accounted(Entries(n, where), Elements(n, where), Strays(n, where))
    decreases n, 1
  {
    match n
    case Scalar(text, _, end) =>
      AllStray([Entry(text, where, end)]);
      assert SlotsOf([Entry(text, where, end)]) == {Slot(text, where)};
    case Obj(members) => MemberElementsAccounted(members, where);
    case Arr(items, _) => ItemElementsAccounted(items, where);
  }

  lemma {:induction false} MemberElementsAccounted(members: seq<Member>, where: seq<string>)
    requires PathOk(where) && forall m | m in members :: DotFree(m.key) && RegularKeys(m.val) && PrintedAsToken(m.val)
    ensures Accounted(MemberEntries(members, where), MemberElements(members, where), MemberStrays(members, where))
    decreases members, 0
  {
    if members == [] {
      NothingAccounted();
    } else {
      hide Accounted, PathOk, DotFree, RegularKeys, PrintedAsToken, SlotsOf;
      var front, m := members[..|members| - 1], members[|members| - 1];
      var below, e := Below(where, m), Entry(m.key, where, m.end);
      MemberElementsAccounted(front, where);
      KeyAccounted(m, where);
      ElementsAccounted(m.val, below);
      KeyIsStray(e);
      AccountedConcat(MemberEntries(front, where), MemberElements(front, where), MemberStrays(front, where), [e], [], {Slot(m.key, where)});
      AccountedConcat(MemberEntries(front, where) + [e], MemberElements(front, where) + [], MemberStrays(front, where) + {Slot(m.key, where)},
                      Entries(m.val, below), Elements(m.val, below), Strays(m.val, below));
      assert MemberEntries(members, where) == MemberEntries(front, where) + [e] + Entries(m.val, below);
      assert MemberElements(members, where) == MemberElements(front, where) + [] + Elements(m.val, below);
    }
  }

  lemma KeyIsStray(e: Entry)
    requires Accounted([e], [e], {})
    ensures Accounted([e], [], {Slot(e.text, e.where)})
  {
    AllStray([e]);
    assert SlotsOf([e]) == {Slot(e.text, e.where)};
  }

  lemma {:induction false} ItemElementsAccounted(items: seq<Node>, where: seq<string>)
    requires PathOk(where)
    requires forall item | item in items :: RegularKeys(item) && PrintedAsToken(item) && (item.Scalar? ==> item.printed == item.text)
    ensures Accounted(ItemEntries(items, where), ItemElements(items, where), ItemStrays(items, where))
    decreases items, 0
  {
    if items == [] {
      NothingAccounted();
    } else {
      hide Accounted, RegularKeys, PrintedAsToken, SlotsOf;
      var front, item := items[..|items| - 1], items[|items| - 1];
      ItemElementsAccounted(front, where);
      match item {
        case Scalar(text, _, end) =>
          assert Entries(item, where) == [Entry(text, where, end)];
          AllListed(Entries(item, where));
          AccountedConcat(ItemEntries(front, where), ItemElements(front, where), ItemStrays(front, where),
                          Entries(item, where), OneElement(item, where), {});
        case Obj(members) =>
          ElementsAccounted(item, where);
          AccountedConcat(ItemEntries(front, where), ItemElements(front, where), ItemStrays(front, where),
                          Entries(item, where), OneElement(item, where), MemberStrays(members, where));
        case Arr(_, _) =>
          EntriesAccounted(item, where);
          AccountedPaths(Entries(item, where), Keys(item, where), Others(item, where));
          AllStray(Entries(item, where));
          AccountedConcat(ItemEntries(front, where), ItemElements(front, where), ItemStrays(front, where),
                          Entries(item, where), [], SlotsOf(Entries(item, where)));
      }
    }
  }

  lemma AccountedPaths(log: seq<Entry>, keys: seq<Entry>, others: set<Slot>)
    requires Accounted(log, keys, others)
    ensures forall e | e in log :: PathOk(e.where)
  {
  }

  /** If elements are printed as their tokens, and no other token has the text of an element at its path, then
      elements come first. */
  lemma PlainElementsFirst(doc: string, root: Node)
    requires Regular(root) && PrintedAsToken(root) && NoStray(root) && InText(doc, Entries(root, [""]))
    ensures ElementsFirst(doc, root)
  {
    hide Entries, Elements, Strays, RegularKeys, PrintedAsToken, Lines, RegularShape, Keys, Others;
    RootKeys(root);
    ElementsAccounted(root, [""]);
    var log, elems, strays := Entries(root, [""]), Elements(root, [""]), Strays(root, [""]);
    assert forall e | e in elems :: e in log;
    forall text, where ensures Lines(doc, elems, text, where) <= Lines(doc, log, text, where) {
      if Slot(text, where) in strays {
        LinesAbsent(doc, elems, text, where);
      }
    }
  }

  /** `{"a": [{"k": x}, x]}`: the element is looked up where the value of `k` was recorded before it. */
  function Misled(x: string, a: nat, k: nat, val: nat, elem: nat, printed: string): Node {
    Obj([Member("a", a, Arr([Obj([Member("k", k, Scalar(x, x, val))]), Scalar(x, x, elem)], printed))])
  }

  lemma ElementMisled(doc: string, x: string, a: nat, k: nat, val: nat, elem: nat, printed: string)
    requires a <= |doc| && k <= |doc| && val <= |doc| && elem <= |doc| && x != "k" && LineAt(doc, val) != LineAt(doc, elem)
    ensures var root := Misled(x, a, k, val, elem, printed); Regular(root) && Unheard(root) && !ElementsFirst(doc, root)
  {
    hide LineAt, Lines, Entries, Elements, Nested, Regular, Misled;
    var root, where := Misled(x, a, k, val, elem, printed), ["", "a"];
    MisledShape(x, a, k, val, elem, printed);
    var log := Entries(root, [""]);
    LinesSteps(doc, log, x, where);
    LinesOne(doc, Entry(x, where, elem), x, where);
    NotFirst(LineAt(doc, val), LineAt(doc, elem), Lines(doc, log, x, where));
  }

  lemma NotFirst(a: nat, b: nat, q: seq<nat>)
    requires a != b && |q| > 0 && q[0] == a
    ensures !([b] <= q)
  {
  }

  lemma LinesSteps(doc: string, log: seq<Entry>, text: string, where: seq<string>)
    requires InText(doc, log) && |log| == 4
    ensures Lines(doc, log, text, where) ==
            Lines(doc, log[..3], text, where) + if log[3].text == text && log[3].where == where then [LineAt(doc, log[3].end)] else []
    ensures Lines(doc, log[..3], text, where) ==
            Lines(doc, log[..2], text, where) + if log[2].text == text && log[2].where == where then [LineAt(doc, log[2].end)] else []
    ensures Lines(doc, log[..2], text, where) ==
            Lines(doc, log[..1], text, where) + if log[1].text == text && log[1].where == where then [LineAt(doc, log[1].end)] else []
    ensures Lines(doc, log[..1], text, where) == if log[0].text == text && log[0].where == where then [LineAt(doc, log[0].end)] else []
  {
    hide LineAt;
    assert log[..3][..2] == log[..2] && log[..2][..1] == log[..1] && log[..1] == [log[0]];
    LinesOne(doc, log[0], text, where);
  }

  lemma OneMember(m: Member, where: seq<string>)
    ensures MemberEntries([m], where) == [Entry(m.key, where, m.end)] + Entries(m.val, Below(where, m))
    ensures MemberElements([m], where) == Elements(m.val, Below(where, m)) && MemberNested([m], where) == Nested(m.val, Below(where, m))
    ensures MemberKeys([m], where) == [Entry(m.key, where, m.end)] + Keys(m.val, Below(where, m))
    ensures MemberOthers([m], where) == Others(m.val, Below(where, m))
  {
    assert [m][..0] == [];
  }

  lemma TwoItems(a: Node, b: Node, where: seq<string>)
    requires a.Obj? && b.Scalar?
    ensures ItemEntries([a, b], where) == Entries(a, where) + Entries(b, where)
    ensures ItemElements([a, b], where) == Elements(a, where) + [Entry(b.printed, where, b.end)]
    ensures ItemNested([a, b], where) == Nested(a, where) && ItemKeys([a, b], where) == Keys(a, where)
    ensures ItemOthers([a, b], where) == Others(a, where) + {Slot(b.text, where), Slot(b.printed, where)}
  {
    assert [a, b][..1] == [a];
    OneItem(a, where);
  }

  lemma OneItem(a: Node, where: seq<string>)
    requires a.Obj?
    ensures ItemEntries([a], where) == Entries(a, where) && ItemElements([a], where) == Elements(a, where)
    ensures ItemNested([a], where) == Nested(a, where) && ItemKeys([a], where) == Keys(a, where)
    ensures ItemOthers([a], where) == Others(a, where)
  {
    assert [a][..0] == [];
  }

  lemma MisledShape(x: string, a: nat, k: nat, val: nat, elem: nat, printed: string)
    requires x != "k"
    ensures
      var root, where := Misled(x, a, k, val, elem, printed), ["", "a"];
      && Regular(root) && Nested(root, [""]) == {}
      && Entries(root, [""]) == [Entry("a", [""], a), Entry("k", where, k), Entry(x, where, val), Entry(x, where, elem)]
      && Elements(root, [""]) == [Entry(x, where, elem)]
  {
    hide RegularShape, RegularKeys, Entries, Keys, Others, Elements, Nested;
    var where, inner, last := ["", "a"], Member("k", k, Scalar(x, x, val)), Scalar(x, x, elem);
    var items := [Obj([inner]), last];
    var outer := Member("a", a, Arr(items, printed));
    MisledRegular(x, a, k, val, elem, printed);
    ListsOf(inner, where, x, val);
    TwoItems(Obj([inner]), last, where);
    ScalarLists(last, where);
    ArrayLists(outer, items, printed);
    assert Below([""], outer) == where;
  }

  lemma ScalarLists(n: Node, where: seq<string>)
    requires n.Scalar?
    ensures Entries(n, where) == [Entry(n.text, where, n.end)]
  {
  }

  /** An object with one scalar member. */
  lemma ListsOf(m: Member, where: seq<string>, x: string, end: nat)
    requires m.val == Scalar(x, x, end)
    ensures
      var n := Obj([m]);
      && Entries(n, where) == [Entry(m.key, where, m.end), Entry(x, where, end)] && Keys(n, where) == [Entry(m.key, where, m.end)]
      && Elements(n, where) == [] && Nested(n, where) == {} && Others(n, where) == {Slot(x, where)}
  {
    OneMember(m, where);
  }

  /** An object with one array. */
  lemma ArrayLists(m: Member, items: seq<Node>, printed: string)
    requires m.val == Arr(items, printed)
    ensures
      var n, below := Obj([m]), Below([""], m);
      && Entries(n, [""]) == [Entry(m.key, [""], m.end)] + ItemEntries(items, below)
      && Keys(n, [""]) == [Entry(m.key, [""], m.end)] + ItemKeys(items, below)
      && Elements(n, [""]) == ItemElements(items, below) && Nested(n, [""]) == ItemNested(items, below)
      && Others(n, [""]) == ItemOthers(items, below)
  {
    OneMember(m, [""]);
  }

  lemma MisledRegular(x: string, a: nat, k: nat, val: nat, elem: nat, printed: string)
    ensures var root := Misled(x, a, k, val, elem, printed); RegularShape(root) && RegularKeys(root)
  {
    var inner, last := Member("k", k, Scalar(x, x, val)), Scalar(x, x, elem);
    var items := [Obj([inner]), last];
    assert RegularShape(Obj([inner])) && RegularKeys(Obj([inner])) && RegularShape(last) && RegularKeys(last);
    assert forall item | item in items :: item == Obj([inner]) || item == last;
    var arr := Arr(items, printed);
    assert ContainersFirst(items) && RegularShape(arr) && RegularKeys(arr);
  }

  /** The whole of the line annotation of a parsed object. */
  method AnnotateLines(doc: string, root: Node) returns (lm: LineMap)
    requires root.Obj? && FromDecoder(doc, Tokens(root))
    ensures Regular(root) ==> Faithful(doc, root.members, lm)
    ensures Regular(root) && Unheard(root) ==> (Exact(doc, root.members, lm) <==> ElementsFirst(doc, root))
    ensures NoDefaultKey(root.members) ==> HasDefault(lm, 0)
  {
    hide Regular, Unheard, ElementsFirst, Exact, Faithful, ElementPart, SuppliesElements, ConsumedElements, ElementsKept, Holds, Entries,
      NoDefaultKey, HasDefault, FromDecoder, MembersReady, MemberElements, MemberNested, Keys, Elements, Nested;
    var info := InitializeJSONLine(doc, Tokens(root));
    var json := new JsonLine(info);
    ghost var w := Whole(doc, [], [], {});
    if Regular(root) {
      RegularRoot(root);
      MachineFollowsDocument(root);
      w := FirstPassSupplies(doc, root, info);
      if Unheard(root) {
        ReadyWhole(w, root.members, [""], "", info);
        ElementsReady(doc, root, info, w);
      }
    }
    lm := json.SetLine(root.members, 0, "", false, w, [""]);
  }

  lemma RegularRoot(root: Node)
    requires Regular(root)
    ensures root.Obj? && RegularShape(root)
  {
  }

  lemma ReadyWhole(w: Whole, members: seq<Member>, where: seq<string>, father: string, info: LineInfo)
    requires MembersReady(w, members, where, father, info)
    ensures WholeOk(w)
  {
  }
}
