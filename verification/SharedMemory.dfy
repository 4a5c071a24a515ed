/** Decoded documents as the resolver works on them: objects and lists that are shared and changed in
    place. A container is known by the document it was decoded in and its place there. */
module SharedMemory {
  import opened Wrappers
  import opened YamlDocument

  datatype Step = Key(name: string) | Index(i: nat)

  datatype Address = Address(doc: nat, path: seq<Step>)

  /** A value that is no container, or a reference to one. */
  datatype Val = Atom(j: Json) | Ref(at: Address)

  datatype Cell = MapCell(vals: map<string, Val>) | ListCell(elems: seq<Val>)

  /** The decoded documents, and the containers that no longer hold what they were decoded with. */
  datatype Memory = Memory(docs: seq<Json>, changed: map<Address, Cell>)

  predicate Container(j: Json) {
    j.Obj? || j.List?
  }

  function Child(a: Address, step: Step): Address {
    Address(a.doc, a.path + [step])
  }

  function Slot(a: Address, j: Json): Val {
    if Container(j) then Ref(a) else Atom(j)
  }

  /** What a container is decoded with. */
  function CellOf(a: Address, j: Json): Cell
    requires Container(j)
  {
    match j
    case Obj(fields) => MapCell(map key | key in fields :: Slot(Child(a, Key(key)), fields[key]))
    case List(items) => ListCell(seq(|items|, i requires 0 <= i < |items| => Slot(Child(a, Index(i)), items[i])))
  }

  function At(j: Json, path: seq<Step>): Option<Json> {
    if path == [] then Some(j)
    else
      match OneStep(j, path[0])
      case None => None
      case Some(child) => At(child, path[1..])
  }

  function OneStep(j: Json, step: Step): Option<Json> {
    match step
    case Key(name) => if j.Obj? && name in j.fields then Some(j.fields[name]) else None
    case Index(i) => if j.List? && i < |j.items| then Some(j.items[i]) else None
  }

  function Get(mem: Memory, a: Address): Cell {
    if a in mem.changed then mem.changed[a]
    else
      match (if a.doc < |mem.docs| then At(mem.docs[a.doc], a.path) else None)
      case Some(j) => if Container(j) then CellOf(a, j) else ListCell([])
      case None => ListCell([])
  }

  function Set(mem: Memory, a: Address, cell: Cell): Memory {
    if Get(mem, a) == cell then mem else mem.(changed := mem.changed[a := cell])
  }

  /** A new container that holds `cell`, in a document that nothing was decoded in. */
  function New(mem: Memory, cell: Cell): Memory {
    Memory(mem.docs + [Null], mem.changed[Address(|mem.docs|, []) := cell])
  }

  function Decode(mem: Memory, j: Json): Memory {
    mem.(docs := mem.docs + [j])
  }

  ghost predicate Formed(mem: Memory) {
    forall a | a in mem.changed :: a.doc < |mem.docs|
  }

  /** The value as a tree, unless it is more than `n` containers deep, as a cycle always is. */
  ghost function Read(mem: Memory, v: Val, n: nat): Option<Json>
    decreases n
  {
    match v
    case Atom(j) => Some(j)
    case Ref(a) =>
      if n == 0 then None
      else
        match Get(mem, a)
        case MapCell(vals) =>
          if forall key | key in vals :: Read(mem, vals[key], n - 1).Some?
          then Some(Obj(map key | key in vals :: Read(mem, vals[key], n - 1).value))
          else None
        case ListCell(elems) =>
          if forall i | 0 <= i < |elems| :: Read(mem, elems[i], n - 1).Some?
          then Some(List(seq(|elems|, i requires 0 <= i < |elems| => Read(mem, elems[i], n - 1).value)))
          else None
  }

  /** What is found from `v` along a path. */
  function Follow(mem: Memory, v: Val, path: seq<Step>): Option<Val>
    decreases path
  {
    if path == [] then Some(v)
    else if v.Atom? then None
    else
      match Get(mem, v.at)
      case MapCell(vals) =>
        if path[0].Key? && path[0].name in vals then Follow(mem, vals[path[0].name], path[1..]) else None
      case ListCell(elems) =>
        if path[0].Index? && path[0].i < |elems| then Follow(mem, elems[path[0].i], path[1..]) else None
  }

  /** What unfolds to a tree holds only what does. */
  lemma {:induction false} ReadInside(mem: Memory, v: Val, path: seq<Step>, n: nat)
    requires Follow(mem, v, path).Some? && Read(mem, v, n).Some?
    ensures |path| <= n && Read(mem, Follow(mem, v, path).value, n - |path|).Some?
    decreases path
  {
    hide Get;
    if path != [] {
      match Get(mem, v.at)
      case MapCell(vals) => ReadInside(mem, vals[path[0].name], path[1..], n - 1);
      case ListCell(elems) => ReadInside(mem, elems[path[0].i], path[1..], n - 1);
    }
  }

  /** A value that is found inside itself. */
  predicate Looped(mem: Memory, v: Val, path: seq<Step>) {
    path != [] && Follow(mem, v, path) == Some(v)
  }

  /** What holds a loop anywhere never unfolds to a tree. */
  lemma {:induction false} LoopUnread(mem: Memory, v: Val, path: seq<Step>, loop: seq<Step>, n: nat)
    requires Follow(mem, v, path).Some? && Looped(mem, Follow(mem, v, path).value, loop)
    ensures Read(mem, v, n) == None
    decreases n
  {
    hide Follow, Read;
    if Read(mem, v, n).Some? {
      ReadInside(mem, v, path, n);
      var u := Follow(mem, v, path).value;
      ReadInside(mem, u, loop, n - |path|);
      FollowNothing(mem, u);
      LoopUnread(mem, u, [], loop, n - |path| - |loop|);
    }
  }

  lemma FollowNothing(mem: Memory, v: Val)
    ensures Follow(mem, v, []) == Some(v)
  {
  }

  /** A value unfolds to one tree only, whatever depth is allowed. */
  lemma {:induction false} ReadMore(mem: Memory, v: Val, n: nat, m: nat)
    requires Read(mem, v, n).Some? && n <= m
    ensures Read(mem, v, m) == Read(mem, v, n)
    decreases n
  {
    hide Get;
    if v.Ref? {
      match Get(mem, v.at)
      case MapCell(vals) =>
        forall key | key in vals ensures Read(mem, vals[key], m - 1) == Read(mem, vals[key], n - 1) {
          ReadMore(mem, vals[key], n - 1, m - 1);
        }
        ReadMap(mem, v.at, vals, Read(mem, v, n).value.fields, m);
      case ListCell(elems) =>
        forall i | 0 <= i < |elems| ensures Read(mem, elems[i], m - 1) == Read(mem, elems[i], n - 1) {
          ReadMore(mem, elems[i], n - 1, m - 1);
        }
        ReadList(mem, v.at, elems, Read(mem, v, n).value.items, m);
    }
  }

  /** No object or list lies below `n` others. */
  ghost predicate Shallow(j: Json, n: nat)
    decreases n
  {
    match j
    case Obj(fields) => n > 0 && forall key | key in fields :: Shallow(fields[key], n - 1)
    case List(items) => n > 0 && forall i | 0 <= i < |items| :: Shallow(items[i], n - 1)
    case _ => true
  }

  lemma {:induction false} ShallowMore(j: Json, n: nat, m: nat)
    requires Shallow(j, n) && n <= m
    ensures Shallow(j, m)
    decreases n
  {
    match j
    case Obj(fields) =>
      forall key | key in fields ensures Shallow(fields[key], m - 1) {
        ShallowMore(fields[key], n - 1, m - 1);
      }
    case List(items) =>
      forall i | 0 <= i < |items| ensures Shallow(items[i], m - 1) {
        ShallowMore(items[i], n - 1, m - 1);
      }
    case _ =>
  }

  /** Every tree is shallow somewhere. */
  lemma {:induction false} HasDepth(j: Json) returns (n: nat)
    ensures Shallow(j, n)
    decreases j, 1
  {
    match j
    case Obj(fields) =>
      var below := DepthOfFields(j, fields.Keys);
      n := below + 1;
    case List(items) =>
      var below := DepthOfItems(items);
      n := below + 1;
    case _ =>
      n := 0;
  }

  lemma {:induction false} DepthOfFields(j: Json, keys: set<string>) returns (n: nat)
    requires j.Obj? && keys <= j.fields.Keys
    ensures forall key | key in keys :: Shallow(j.fields[key], n)
    decreases j, 0, keys
  {
    n := 0;
    if keys != {} {
      var key :| key in keys;
      var own := HasDepth(j.fields[key]);
      var rest := DepthOfFields(j, keys - {key});
      n := own + rest;
      forall k | k in keys ensures Shallow(j.fields[k], n) {
        if k == key {
          ShallowMore(j.fields[k], own, n);
        } else {
          ShallowMore(j.fields[k], rest, n);
        }
      }
    }
  }

  lemma {:induction false} DepthOfItems(items: seq<Json>) returns (n: nat)
    ensures forall i | 0 <= i < |items| :: Shallow(items[i], n)
    decreases items, 0
  {
    n := 0;
    if items != [] {
      var front, last := items[..|items| - 1], items[|items| - 1];
      var own := HasDepth(last);
      var rest := DepthOfItems(front);
      n := own + rest;
      forall i | 0 <= i < |items| ensures Shallow(items[i], n) {
        if i < |front| {
          ShallowMore(front[i], rest, n);
        } else {
          ShallowMore(last, own, n);
        }
      }
    }
  }

  // ---- Places ----

  predicate Under(p: Address, a: Address) {
    a.doc == p.doc && p.path <= a.path
  }

  lemma {:induction false} AtChild(j: Json, path: seq<Step>, step: Step)
    requires At(j, path).Some?
    ensures At(j, path + [step]) == OneStep(At(j, path).value, step)
  {
    if path == [] {
      assert At(j, [step]) == OneStep(j, step);
    } else {
      AtChild(OneStep(j, path[0]).value, path[1..], step);
      assert (path + [step])[1..] == path[1..] + [step];
    }
  }

  /** At `p` and below, everything is as it was decoded. */
  ghost predicate Untouched(mem: Memory, p: Address, j: Json) {
    && p.doc < |mem.docs| && At(mem.docs[p.doc], p.path) == Some(j)
    && forall a | a in mem.changed :: !Under(p, a)
  }

  lemma UntouchedChild(mem: Memory, p: Address, j: Json, step: Step)
    requires Untouched(mem, p, j) && OneStep(j, step).Some?
    ensures Untouched(mem, Child(p, step), OneStep(j, step).value)
  {
    AtChild(mem.docs[p.doc], p.path, step);
    forall a | a in mem.changed ensures !Under(Child(p, step), a) {
      assert p.path <= Child(p, step).path;
    }
  }

  lemma UntouchedCell(mem: Memory, p: Address, j: Json)
    requires Untouched(mem, p, j) && Container(j)
    ensures Get(mem, p) == CellOf(p, j)
  {
    assert Under(p, p);
  }

  lemma {:induction false} ReadUntouched(mem: Memory, p: Address, j: Json, n: nat)
    requires Untouched(mem, p, j) && Shallow(j, n)
    ensures Read(mem, Slot(p, j), n) == Some(j)
    decreases n
  {
    match j
    case Obj(fields) =>
      UntouchedCell(mem, p, j);
      var vals := CellOf(p, j).vals;
      forall key | key in fields ensures Read(mem, vals[key], n - 1) == Some(fields[key]) {
        UntouchedChild(mem, p, j, Key(key));
        ReadUntouched(mem, Child(p, Key(key)), fields[key], n - 1);
      }
      ReadMap(mem, p, vals, fields, n);
    case List(items) =>
      UntouchedCell(mem, p, j);
      var elems := CellOf(p, j).elems;
      forall i | 0 <= i < |items| ensures Read(mem, elems[i], n - 1) == Some(items[i]) {
        UntouchedChild(mem, p, j, Index(i));
        ReadUntouched(mem, Child(p, Index(i)), items[i], n - 1);
      }
      ReadList(mem, p, elems, items, n);
    case _ =>
  }

  lemma ReadMap(mem: Memory, a: Address, vals: map<string, Val>, fields: map<string, Json>, n: nat)
    requires n > 0 && Get(mem, a) == MapCell(vals) && vals.Keys == fields.Keys
    requires forall key | key in fields :: Read(mem, vals[key], n - 1) == Some(fields[key])
    ensures Read(mem, Ref(a), n) == Some(Obj(fields))
  {
    hide Get;
    assert forall key | key in vals :: Read(mem, vals[key], n - 1).Some?;
    var all := map key | key in vals :: Read(mem, vals[key], n - 1).value;
    assert all == fields;
  }

  lemma ReadList(mem: Memory, a: Address, elems: seq<Val>, items: seq<Json>, n: nat)
    requires n > 0 && Get(mem, a) == ListCell(elems) && |elems| == |items|
    requires forall i | 0 <= i < |items| :: Read(mem, elems[i], n - 1) == Some(items[i])
    ensures Read(mem, Ref(a), n) == Some(List(items))
  {
    hide Get;
    assert forall i | 0 <= i < |elems| :: Read(mem, elems[i], n - 1).Some?;
    var all := seq(|elems|, i requires 0 <= i < |elems| => Read(mem, elems[i], n - 1).value);
    assert all == items;
  }

  // ---- What is left alone ----

  ghost predicate SameAt(m: Memory, m': Memory, a: Address) {
    (a in m.changed <==> a in m'.changed) && (a in m.changed ==> m.changed[a] == m'.changed[a])
  }

  lemma SameCell(m: Memory, m': Memory, a: Address)
    requires SameAt(m, m', a) && m.docs <= m'.docs && a.doc < |m.docs|
    ensures Get(m, a) == Get(m', a)
  {
    assert m.docs[a.doc] == m'.docs[a.doc];
  }

  /** From `m` to `m'`, only containers at or below `p`, the roots of the documents in `roots`, and
      those of new documents have changed. */
  ghost predicate OnlyUnder(m: Memory, m': Memory, p: Address, roots: set<nat>) {
    && m.docs <= m'.docs
    && forall a: Address | a.doc < |m.docs| && !Under(p, a) && !(a.path == [] && a.doc in roots) :: SameAt(m, m', a)
  }

  /** Only documents that did not exist before were added. */
  ghost predicate Grown(s: set<nat>, s': set<nat>, n: nat) {
    s <= s' && forall d | d in s' && d !in s :: d >= n
  }

  lemma ThenUnder(m: Memory, m1: Memory, m2: Memory, p: Address, q: Address, r: set<nat>, r1: set<nat>)
    requires OnlyUnder(m, m1, p, r) && OnlyUnder(m1, m2, q, r1)
    requires Under(p, q) || q.doc >= |m.docs|
    requires Grown(r, r1, |m.docs|)
    ensures OnlyUnder(m, m2, p, r)
  {
    forall a: Address | a.doc < |m.docs| && !Under(p, a) && !(a.path == [] && a.doc in r) ensures SameAt(m, m2, a) {
      assert !Under(q, a);
      assert SameAt(m, m1, a) && SameAt(m1, m2, a);
    }
  }

  lemma GrownTwice(s: set<nat>, s1: set<nat>, s2: set<nat>, n: nat, n1: nat)
    requires Grown(s, s1, n) && Grown(s1, s2, n1) && n <= n1
    ensures Grown(s, s2, n)
  {
  }

  lemma SetUnder(m: Memory, p: Address, cell: Cell, roots: set<nat>)
    ensures OnlyUnder(m, Set(m, p, cell), p, roots)
    ensures Get(Set(m, p, cell), p) == cell
  {
    assert Under(p, p);
  }

  /** Places of which neither is above the other. */
  ghost predicate Apart(p: Address, q: Address) {
    !Under(p, q) && !Under(q, p)
  }

  lemma ChildrenApart(p: Address, x: Step, y: Step)
    requires x != y
    ensures Apart(Child(p, x), Child(p, y))
  {
    assert Child(p, x).path[|p.path|] == x && Child(p, y).path[|p.path|] == y;
  }

  lemma ApartBelow(p: Address, q: Address, a: Address)
    requires Apart(p, q) && Under(q, a)
    ensures !Under(p, a)
  {
  }

  lemma StillUntouched(m: Memory, m': Memory, p: Address, roots: set<nat>, q: Address, j: Json)
    requires Formed(m) && OnlyUnder(m, m', p, roots) && Untouched(m, q, j) && Apart(p, q) && q.doc !in roots
    ensures Untouched(m', q, j)
  {
    forall a | a in m'.changed ensures !Under(q, a) {
      if Under(q, a) {
        ApartBelow(p, q, a);
      }
    }
  }

  lemma SetAbove(m: Memory, p: Address, cell: Cell, step: Step, j: Json)
    requires Untouched(m, Child(p, step), j)
    ensures Untouched(Set(m, p, cell), Child(p, step), j)
  {
    assert !Under(Child(p, step), p);
  }
}
