/** The keys of a document and the slots of their lines: what the queues must hold for them, and what serving
    part of a document does to the queues. */
module JsonSlots {
  import opened JsonDocument
  import opened JsonTracker
  import opened JsonLines
  import opened LineKeys

  // ---- Keys and other texts of a document ----

  datatype Slot = Slot(text: string, where: seq<string>)

  /** The entries of the keys alone. */
  function Keys(n: Node, where: seq<string>): seq<Entry>
    decreases n, 1
  {
    match n
    case Scalar(_, _, _) => []
    case Obj(members) => MemberKeys(members, where)
    case Arr(items, _) => ItemKeys(items, where)
  }

  function KeysOf(m: Member, where: seq<string>): seq<Entry>
    decreases m, 2
  {
    [Entry(m.key, where, m.end)] + Keys(m.val, Below(where, m))
  }

  function MemberKeys(members: seq<Member>, where: seq<string>): seq<Entry>
    decreases members, 0
  {
    if members == [] then []
    else MemberKeys(members[..|members| - 1], where) + KeysOf(members[|members| - 1], where)
  }

  function ItemKeys(items: seq<Node>, where: seq<string>): seq<Entry>
    decreases items, 0
  {
    if items == [] then []
    else ItemKeys(items[..|items| - 1], where) + Keys(items[|items| - 1], where)
  }

  /** The slots that texts other than keys are recorded or looked up under. */
  function Others(n: Node, where: seq<string>): set<Slot>
    decreases n, 1
  {
    match n
    case Scalar(text, _, _) => {Slot(text, where)}
    case Obj(members) => MemberOthers(members, where)
    case Arr(items, _) => ItemOthers(items, where)
  }

  function MemberOthers(members: seq<Member>, where: seq<string>): set<Slot>
    decreases members, 0
  {
    if members == [] then {}
    else
      var m := members[|members| - 1];
      MemberOthers(members[..|members| - 1], where) + Others(m.val, Below(where, m))
  }

  function ItemOthers(items: seq<Node>, where: seq<string>): set<Slot>
    decreases items, 0
  {
    if items == [] then {}
    else
      var item := items[|items| - 1];
      ItemOthers(items[..|items| - 1], where) + Others(item, where)
      + if item.Obj? then {} else {Slot(item.printed, where)}
  }

  // ---- Line maps ----

  /** The lines of an object: one entry per key, and the line maps stored in its member objects. */
  datatype LineMap = LineMap(entries: map<string, LineObject>, nested: map<string, LineMap>)

  datatype LineObject = LineObject(line: int, arr: seq<LineMap>)

  /** Every key of the object, at every depth, has exactly its own line. */
  ghost predicate Faithful(doc: string, members: seq<Member>, lm: LineMap)
    decreases members, 0
  {
    forall m | m in members ::
      && Tagged(m.key) in lm.entries
      && FaithfulMember(doc, m, lm.entries[Tagged(m.key)], if m.key in lm.nested then [lm.nested[m.key]] else [])
  }

  ghost predicate FaithfulMember(doc: string, m: Member, own: LineObject, child: seq<LineMap>)
    decreases m, 2
  {
    && m.end <= |doc| && own.line == LineAt(doc, m.end)
    && match m.val
       case Scalar(_, _, _) => own.arr == []
       case Obj(members) =>
         && own.arr == [] && |child| == 1 && Faithful(doc, members, child[0])
         && (NoDefaultKey(members) ==> HasDefault(child[0], LineAt(doc, m.end)))
       case Arr(items, _) =>
         FaithfulItems(doc, items, own.arr) && (SameKeys(items) ==> OwnDefaults(doc, items, own.arr))
  }

  predicate NoDefaultKey(members: seq<Member>) {
    forall m | m in members :: m.key != "_default"
  }

  predicate HasDefault(lm: LineMap, line: int) {
    DEFAULT_KEY in lm.entries && lm.entries[DEFAULT_KEY] == LineObject(line, [])
  }

  predicate HasKey(members: seq<Member>, key: string) {
    exists m | m in members :: m.key == key
  }

  /** An array of objects with the same keys. */
  ghost predicate SameKeys(items: seq<Node>) {
    && (forall i | 0 <= i < |items| :: items[i].Obj? && items[i].members != [] && NoDefaultKey(items[i].members))
    && forall i, j, m | 0 <= i < |items| && 0 <= j < |items| && m in items[i].members :: HasKey(items[j].members, m.key)
  }

  /** The default line of every object is the least line of its own keys. */
  ghost predicate OwnDefaults(doc: string, items: seq<Node>, arr: seq<LineMap>) {
    && |arr| == |items|
    && forall i | 0 <= i < |items| :: items[i].Obj? && exists line :: LeastLine(doc, items[i].members, line) && HasDefault(arr[i], line)
  }

  ghost predicate LeastLine(doc: string, members: seq<Member>, line: int) {
    && (exists m | m in members :: m.end <= |doc| && LineAt(doc, m.end) == line)
    && forall m | m in members :: m.end <= |doc| && line <= LineAt(doc, m.end)
  }

  /** The line maps of an array are those of its objects in order, with entries for some of the
      other elements in between. */
  ghost predicate FaithfulItems(doc: string, items: seq<Node>, arr: seq<LineMap>)
    decreases items, 0
  {
    if items == [] then arr == []
    else
      var front, item := items[..|items| - 1], items[|items| - 1];
      if item.Obj? then
        arr != [] && FaithfulItems(doc, front, arr[..|arr| - 1]) && Faithful(doc, item.members, arr[|arr| - 1])
      else
        || FaithfulItems(doc, front, arr)
        || (arr != [] && FaithfulItems(doc, front, arr[..|arr| - 1]) && Bare(arr[|arr| - 1]))
  }

  ghost predicate Bare(lm: LineMap) {
    lm.nested == map[] && lm.entries.Keys == {DEFAULT_KEY}
  }

  // ---- What the queues must hold ----

  /** The text of the whole document, the entries of its keys and of the scalar elements of its arrays, and the
      slots under which nested arrays are looked up. */
  datatype Whole = Whole(doc: string, keys: seq<Entry>, elems: seq<Entry>, mute: set<Slot>)

  ghost predicate IsKey(w: Whole, s: Slot) {
    exists e | e in w.keys :: e.text == s.text && e.where == s.where
  }

  /** Part of a regular document: its keys are among the keys of the whole, no other text is
      taken for a key, and all its offsets lie in the text. */
  ghost predicate Part(w: Whole, keys: seq<Entry>, others: set<Slot>) {
    && InText(w.doc, keys)
    && (forall e | e in keys :: e in w.keys)
    && (forall s | s in others :: !IsKey(w, s))
  }

  function Own(w: Whole, keys: seq<Entry>, s: Slot): seq<nat>
    requires InText(w.doc, keys)
  {
    Lines(w.doc, keys, s.text, s.where)
  }

  function At(info: LineInfo, s: Slot): seq<nat> {
    Queue(info, s.text, Join(s.where))
  }

  ghost predicate Supplies(w: Whole, keys: seq<Entry>, info: LineInfo)
    requires InText(w.doc, keys)
  {
    forall s | IsKey(w, s) :: Own(w, keys, s) <= At(info, s)
  }

  /** Every key slot has lost exactly the lines of `keys`. */
  ghost predicate Consumed(w: Whole, keys: seq<Entry>, before: LineInfo, after: LineInfo)
    requires InText(w.doc, keys)
  {
    forall s | IsKey(w, s) :: At(before, s) == Own(w, keys, s) + At(after, s)
  }

  ghost predicate OthersKept(w: Whole, keys: seq<Entry>, before: LineInfo, after: LineInfo)
    requires InText(w.doc, keys)
  {
    forall s | IsKey(w, s) && Own(w, keys, s) == [] :: At(before, s) == At(after, s)
  }

  ghost predicate Effect(w: Whole, keys: seq<Entry>, pop: bool, before: LineInfo, after: LineInfo)
    requires InText(w.doc, keys)
  {
    OthersKept(w, keys, before, after) && (pop ==> Consumed(w, keys, before, after))
  }

  lemma {:induction false} KeysExtend(n: Node, where: seq<string>)
    ensures forall e | e in Keys(n, where) :: where <= e.where
    decreases n, 1
  {
    match n
    case Scalar(_, _, _) =>
    case Obj(members) => MemberKeysExtend(members, where);
    case Arr(items, _) => ItemKeysExtend(items, where);
  }

  lemma {:induction false} MemberKeysExtend(members: seq<Member>, where: seq<string>)
    ensures forall e | e in MemberKeys(members, where) :: where <= e.where
    decreases members, 0
  {
    if members != [] {
      var m := members[|members| - 1];
      MemberKeysExtend(members[..|members| - 1], where);
      KeysExtend(m.val, Below(where, m));
    }
  }

  lemma {:induction false} ItemKeysExtend(items: seq<Node>, where: seq<string>)
    ensures forall e | e in ItemKeys(items, where) :: where <= e.where
    decreases items, 0
  {
    if items != [] {
      ItemKeysExtend(items[..|items| - 1], where);
      KeysExtend(items[|items| - 1], where);
    }
  }

  /** The slots of the keys in and below one member carry that member's key. */
  ghost predicate Carries(s: Slot, where: seq<string>, key: string) {
    || (s.where == where && s.text == key)
    || where + [key] <= s.where
  }

  lemma KeysCarry(w: Whole, m: Member, where: seq<string>, s: Slot)
    requires InText(w.doc, KeysOf(m, where)) && Own(w, KeysOf(m, where), s) != []
    ensures Carries(s, where, m.key)
  {
    LinesAbsent(w.doc, KeysOf(m, where), s.text, s.where);
    KeysExtend(m.val, Below(where, m));
  }

  lemma CarriesOne(s: Slot, where: seq<string>, a: string, b: string)
    requires Carries(s, where, a) && Carries(s, where, b)
    ensures a == b
  {
    if where + [a] <= s.where {
      assert s.where[|where|] == a;
      assert where + [b] <= s.where ==> s.where[|where|] == b;
    }
  }

  /** A member's own slot holds the line of its key and nothing else of the member. */
  lemma OwnSlot(w: Whole, m: Member, where: seq<string>)
    requires InText(w.doc, KeysOf(m, where))
    ensures m.end <= |w.doc|
    ensures InText(w.doc, Keys(m.val, Below(where, m)))
    ensures Own(w, KeysOf(m, where), Slot(m.key, where)) == [LineAt(w.doc, m.end)]
    ensures forall s :: Own(w, KeysOf(m, where), s)
                        == (if s == Slot(m.key, where) then [LineAt(w.doc, m.end)] else []) + Own(w, Keys(m.val, Below(where, m)), s)
  {
    hide Keys, KeysOf, LineAt, Lines;
    var e := Entry(m.key, where, m.end);
    var rest := Keys(m.val, Below(where, m));
    KeysOfIs(m, where);
    assert e in KeysOf(m, where) && forall x | x in rest :: x in KeysOf(m, where);
    forall s ensures Own(w, KeysOf(m, where), s) == (if s == Slot(m.key, where) then [LineAt(w.doc, m.end)] else []) + Own(w, rest, s) {
      LinesConcat(w.doc, [e], rest, s.text, s.where);
      LinesOne(w.doc, e, s.text, s.where);
    }
    KeysExtend(m.val, Below(where, m));
    if m.val.Scalar? {
      ScalarKeys(m.val, where);
    }
    LinesAbsent(w.doc, rest, m.key, where);
    assert Own(w, rest, Slot(m.key, where)) == [];
    assert [LineAt(w.doc, m.end)] + [] == [LineAt(w.doc, m.end)];
  }

  lemma ScalarKeys(n: Node, where: seq<string>)
    requires n.Scalar?
    ensures Keys(n, where) == []
  {
  }

  lemma KeysOfIs(m: Member, where: seq<string>)
    ensures KeysOf(m, where) == [Entry(m.key, where, m.end)] + Keys(m.val, Below(where, m))
  {
  }

  lemma LinesOne(doc: string, e: Entry, text: string, where: seq<string>)
    requires e.end <= |doc|
    ensures InText(doc, [e])
    ensures Lines(doc, [e], text, where) == if e.text == text && e.where == where then [LineAt(doc, e.end)] else []
  {
    assert [e][..0] == [];
    assert Lines(doc, [], text, where) == [];
  }

  lemma {:induction false} MembersInText(w: Whole, members: seq<Member>, where: seq<string>)
    requires InText(w.doc, MemberKeys(members, where))
    ensures forall m | m in members :: InText(w.doc, KeysOf(m, where))
    decreases |members|
  {
    hide KeysOf;
    if members != [] {
      var front, last := members[..|members| - 1], members[|members| - 1];
      assert forall e | e in MemberKeys(front, where) :: e in MemberKeys(members, where);
      assert forall e | e in KeysOf(last, where) :: e in MemberKeys(members, where);
      MembersInText(w, front, where);
      assert members == front + [last];
    }
  }

  lemma {:induction false} UnusedSlot(w: Whole, members: seq<Member>, where: seq<string>, s: Slot)
    requires InText(w.doc, MemberKeys(members, where))
    requires forall i | 0 <= i < |members| :: InText(w.doc, KeysOf(members[i], where))
    requires forall i | 0 <= i < |members| :: Own(w, KeysOf(members[i], where), s) == []
    ensures Own(w, MemberKeys(members, where), s) == []
    decreases |members|
  {
    hide KeysOf;
    if members != [] {
      var front, last := members[..|members| - 1], members[|members| - 1];
      assert forall e | e in MemberKeys(front, where) :: e in MemberKeys(members, where);
      UnusedSlot(w, front, where, s);
      LinesConcat(w.doc, MemberKeys(front, where), KeysOf(last, where), s.text, s.where);
    }
  }

  lemma {:induction false} OneUser(w: Whole, members: seq<Member>, where: seq<string>, s: Slot, k: nat)
    requires k < |members|
    requires InText(w.doc, MemberKeys(members, where))
    requires forall i | 0 <= i < |members| :: InText(w.doc, KeysOf(members[i], where))
    requires forall i | 0 <= i < |members| && i != k :: Own(w, KeysOf(members[i], where), s) == []
    ensures Own(w, MemberKeys(members, where), s) == Own(w, KeysOf(members[k], where), s)
    decreases |members|
  {
    hide Lines, KeysOf;
    var front, last := members[..|members| - 1], members[|members| - 1];
    assert forall e | e in MemberKeys(front, where) :: e in MemberKeys(members, where);
    LinesConcat(w.doc, MemberKeys(front, where), KeysOf(last, where), s.text, s.where);
    if k == |members| - 1 {
      UnusedSlot(w, front, where, s);
    } else {
      OneUser(w, front, where, s, k);
    }
  }

  /** A slot is used by one member at most, so its lines in the object are the lines in that member. */
  lemma MemberSlots(w: Whole, members: seq<Member>, where: seq<string>, s: Slot)
    requires InText(w.doc, MemberKeys(members, where)) && DistinctKeys(members)
    requires forall m | m in members :: InText(w.doc, KeysOf(m, where))
    ensures forall m | m in members && Own(w, KeysOf(m, where), s) != [] ::
              Own(w, KeysOf(m, where), s) == Own(w, MemberKeys(members, where), s)
    ensures (forall m | m in members :: Own(w, KeysOf(m, where), s) == []) ==> Own(w, MemberKeys(members, where), s) == []
  {
    forall k | 0 <= k < |members| && Own(w, KeysOf(members[k], where), s) != []
      ensures Own(w, KeysOf(members[k], where), s) == Own(w, MemberKeys(members, where), s)
    {
      forall i | 0 <= i < |members| && i != k ensures Own(w, KeysOf(members[i], where), s) == [] {
        Exclusive(w, members[i], members[k], where, s);
      }
      OneUser(w, members, where, s, k);
    }
    if forall i | 0 <= i < |members| :: Own(w, KeysOf(members[i], where), s) == [] {
      UnusedSlot(w, members, where, s);
    }
  }

  lemma Exclusive(w: Whole, a: Member, b: Member, where: seq<string>, s: Slot)
    requires a.key != b.key
    requires InText(w.doc, KeysOf(a, where)) && InText(w.doc, KeysOf(b, where))
    ensures Own(w, KeysOf(a, where), s) == [] || Own(w, KeysOf(b, where), s) == []
  {
    if Own(w, KeysOf(a, where), s) != [] && Own(w, KeysOf(b, where), s) != [] {
      KeysCarry(w, a, where, s);
      KeysCarry(w, b, where, s);
      CarriesOne(s, where, a.key, b.key);
    }
  }

  /** The queues after the members `done` were served, whatever the order. */
  ghost predicate Served(w: Whole, members: seq<Member>, where: seq<string>, done: set<int>, pop: bool,
                         before: LineInfo, now: LineInfo)
    requires forall i | i in done :: 0 <= i < |members|
    requires forall m | m in members :: InText(w.doc, KeysOf(m, where))
  {
    forall s | IsKey(w, s) ::
      && ((forall i | i in done :: Own(w, KeysOf(members[i], where), s) == []) ==> At(before, s) == At(now, s))
      && (pop ==> forall i | i in done :: Own(w, KeysOf(members[i], where), s) != [] ==>
                    At(before, s) == Own(w, KeysOf(members[i], where), s) + At(now, s))
  }

  lemma ServedStep(w: Whole, members: seq<Member>, where: seq<string>, done: set<int>, pop: bool,
                   before: LineInfo, now: LineInfo, i: int, next: LineInfo)
    requires forall j | j in done :: 0 <= j < |members|
    requires forall m | m in members :: InText(w.doc, KeysOf(m, where))
    requires DistinctKeys(members) && 0 <= i < |members| && i !in done
    requires Served(w, members, where, done, pop, before, now)
    requires Effect(w, KeysOf(members[i], where), pop, now, next)
    ensures Served(w, members, where, done + {i}, pop, before, next)
  {
    hide Own, At, IsKey, KeysOf, InText;
    forall s | IsKey(w, s)
      ensures (forall j | j in done + {i} :: Own(w, KeysOf(members[j], where), s) == []) ==> At(before, s) == At(next, s)
      ensures pop ==> forall j | j in done + {i} :: Own(w, KeysOf(members[j], where), s) != [] ==>
                        At(before, s) == Own(w, KeysOf(members[j], where), s) + At(next, s)
    {
      forall j | j in done ensures Own(w, KeysOf(members[j], where), s) == [] || Own(w, KeysOf(members[i], where), s) == [] {
        Exclusive(w, members[j], members[i], where, s);
      }
      assert i in done + {i};
    }
  }

  lemma SuppliesKept(w: Whole, a: Member, b: Member, where: seq<string>, pop: bool, now: LineInfo, next: LineInfo)
    requires a.key != b.key
    requires InText(w.doc, KeysOf(a, where)) && InText(w.doc, KeysOf(b, where))
    requires Effect(w, KeysOf(a, where), pop, now, next)
    requires Supplies(w, KeysOf(b, where), now)
    ensures Supplies(w, KeysOf(b, where), next)
  {
    hide At, IsKey, KeysOf, InText;
    forall s | IsKey(w, s) ensures Own(w, KeysOf(b, where), s) <= At(next, s) {
      Exclusive(w, a, b, where, s);
    }
  }

  lemma ServedAll(w: Whole, members: seq<Member>, where: seq<string>, done: set<int>, pop: bool, before: LineInfo, now: LineInfo)
    requires forall j :: j in done <==> 0 <= j < |members|
    requires InText(w.doc, MemberKeys(members, where)) && DistinctKeys(members)
    requires forall m | m in members :: InText(w.doc, KeysOf(m, where))
    requires Served(w, members, where, done, pop, before, now)
    ensures Effect(w, MemberKeys(members, where), pop, before, now)
  {
    hide Own, At, IsKey, KeysOf, MemberKeys, InText;
    forall s | IsKey(w, s)
      ensures Own(w, MemberKeys(members, where), s) == [] ==> At(before, s) == At(now, s)
      ensures pop ==> At(before, s) == Own(w, MemberKeys(members, where), s) + At(now, s)
    {
      MemberSlots(w, members, where, s);
      if forall i | i in done :: Own(w, KeysOf(members[i], where), s) == [] {
        forall m | m in members ensures Own(w, KeysOf(m, where), s) == [] {
          var i :| 0 <= i < |members| && members[i] == m;
          assert i in done;
        }
      } else {
        var i :| i in done && Own(w, KeysOf(members[i], where), s) != [];
        assert members[i] in members;
      }
    }
  }

  // ---- Parts of a regular document ----

  ghost predicate PathOk(where: seq<string>) {
    where != [] && forall k | k in where :: DotFree(k)
  }

  ghost predicate WholeOk(w: Whole) {
    forall e | e in w.keys :: PathOk(e.where)
  }

  ghost predicate PartMembers(w: Whole, members: seq<Member>, where: seq<string>) {
    && WholeOk(w) && PathOk(where)
    && RegularShape(Obj(members)) && RegularKeys(Obj(members))
    && Part(w, MemberKeys(members, where), MemberOthers(members, where))
  }

  ghost predicate PartMember(w: Whole, m: Member, where: seq<string>) {
    && WholeOk(w) && PathOk(where)
    && RegularShape(m.val) && RegularKeys(m.val) && DotFree(m.key)
    && Part(w, KeysOf(m, where), Others(m.val, Below(where, m)))
  }

  ghost predicate PartItems(w: Whole, items: seq<Node>, where: seq<string>) {
    && WholeOk(w) && PathOk(where)
    && (forall item | item in items :: RegularItem(item) && RegularKeys(item))
    && Part(w, ItemKeys(items, where), ItemOthers(items, where))
  }

  lemma {:induction false} MembersContain(members: seq<Member>, where: seq<string>)
    ensures forall m, e | m in members && e in KeysOf(m, where) :: e in MemberKeys(members, where)
    ensures forall m, s | m in members && s in Others(m.val, Below(where, m)) :: s in MemberOthers(members, where)
    decreases |members|
  {
    if members != [] {
      MembersContain(members[..|members| - 1], where);
      assert members == members[..|members| - 1] + [members[|members| - 1]];
    }
  }

  lemma MembersToMember(w: Whole, members: seq<Member>, where: seq<string>)
    requires PartMembers(w, members, where)
    ensures forall m | m in members :: PartMember(w, m, where)
  {
    MembersContain(members, where);
    hide KeysOf, MemberKeys, Others, MemberOthers, IsKey;
  }

  lemma MembersSupply(w: Whole, members: seq<Member>, where: seq<string>, info: LineInfo)
    requires PartMembers(w, members, where)
    requires Supplies(w, MemberKeys(members, where), info)
    ensures forall m | m in members :: PartMember(w, m, where) && Supplies(w, KeysOf(m, where), info)
  {
    MembersToMember(w, members, where);
    MembersInText(w, members, where);
    forall m, s | m in members && IsKey(w, s) ensures Own(w, KeysOf(m, where), s) <= At(info, s) {
      MemberSlots(w, members, where, s);
    }
  }

  lemma {:induction false} ItemsFront(w: Whole, items: seq<Node>, where: seq<string>, k: nat)
    requires PartItems(w, items, where) && k <= |items|
    ensures PartItems(w, items[..k], where)
    ensures exists rest ::
              ItemKeys(items, where) == ItemKeys(items[..k], where) + rest
    decreases |items|
  {
    hide PartItems, ItemKeys, Keys;
    if k == |items| {
      assert items[..k] == items;
      assert ItemKeys(items, where) == ItemKeys(items[..k], where) + [];
    } else {
      var front, last := items[..|items| - 1], items[|items| - 1];
      PartFront(w, items, where);
      ItemsFront(w, front, where, k);
      assert front[..k] == items[..k];
      var rest :| ItemKeys(front, where) == ItemKeys(items[..k], where) + rest;
      assert ItemKeys(items, where) == ItemKeys(items[..k], where) + (rest + Keys(last, where));
    }
  }

  lemma PartFront(w: Whole, items: seq<Node>, where: seq<string>)
    requires PartItems(w, items, where) && items != []
    ensures PartItems(w, items[..|items| - 1], where)
    ensures ItemKeys(items, where) == ItemKeys(items[..|items| - 1], where) + Keys(items[|items| - 1], where)
  {
    hide RegularItem, RegularKeys, IsKey, WholeOk;
    assert forall e | e in ItemKeys(items[..|items| - 1], where) :: e in ItemKeys(items, where);
  }

  /** A pop of a text that is no key leaves the queues of all keys alone. */
  lemma OtherQueue(w: Whole, where: seq<string>, text: string, s: Slot)
    requires WholeOk(w) && PathOk(where) && IsKey(w, s) && !IsKey(w, Slot(text, where))
    ensures (s.text, Join(s.where)) != (text, Join(where))
  {
    if Join(s.where) == Join(where) {
      JoinInjective(s.where, where);
    }
  }
}
