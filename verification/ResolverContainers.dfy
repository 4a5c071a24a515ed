/** Containers are resolved one element at a time: what has been visited stays resolved, and what is still to
    come is as it was decoded. */
module ResolverContainers {
  import opened Wrappers
  import opened YamlDocument
  import opened SharedMemory
  import opened References
  import opened ResolverMemory
  import opened ResolverAnswers
  import opened ResolverReferences

  // ---- What is still to come ----

  /** The elements of an object that are not visited yet are as they were decoded. */
  ghost predicate KeysWait(mem: Memory, p: Address, fields: Fields, rest: set<string>) {
    && Get(mem, p).MapCell? && Get(mem, p).vals.Keys == fields.Keys && rest <= fields.Keys
    && forall key | key in rest ::
         Get(mem, p).vals[key] == Slot(Child(p, Key(key)), fields[key]) && Untouched(mem, Child(p, Key(key)), fields[key])
  }

  ghost predicate ItemsWait(mem: Memory, p: Address, items: seq<Json>, next: nat) {
    && Get(mem, p).ListCell? && |Get(mem, p).elems| == |items|
    && forall i | next <= i < |items| ::
         Get(mem, p).elems[i] == Slot(Child(p, Index(i)), items[i]) && Untouched(mem, Child(p, Index(i)), items[i])
  }

  lemma KeysDecoded(mem: Memory, p: Address, fields: Fields)
    requires Untouched(mem, p, Obj(fields))
    ensures KeysWait(mem, p, fields, fields.Keys)
  {
    UntouchedCell(mem, p, Obj(fields));
    forall key | key in fields ensures Untouched(mem, Child(p, Key(key)), fields[key]) {
      UntouchedChild(mem, p, Obj(fields), Key(key));
    }
  }

  lemma ItemsDecoded(mem: Memory, p: Address, items: seq<Json>)
    requires Untouched(mem, p, List(items))
    ensures ItemsWait(mem, p, items, 0)
  {
    UntouchedCell(mem, p, List(items));
    forall i | 0 <= i < |items| ensures Untouched(mem, Child(p, Index(i)), items[i]) {
      UntouchedChild(mem, p, List(items), Index(i));
    }
  }

  lemma SiblingStays(m: Memory, m1: Memory, p: Address, step: Step, cell: Cell, other: Step, j: Json, roots: set<nat>)
    requires Formed(m) && OnlyUnder(m, m1, Child(p, step), roots) && p.doc !in roots && other != step
    requires Untouched(m, Child(p, other), j)
    ensures Untouched(Set(m1, p, cell), Child(p, other), j)
  {
    ChildrenApart(p, step, other);
    StillUntouched(m, m1, Child(p, step), roots, Child(p, other), j);
    SetAbove(m1, p, cell, other, j);
  }

  lemma KeysGo(m: Memory, m1: Memory, p: Address, fields: Fields, rest: set<string>, k: string, x: Val, roots: set<nat>)
    requires KeysWait(m, p, fields, rest) && k in rest && Formed(m)
    requires OnlyUnder(m, m1, Child(p, Key(k)), roots) && p.doc !in roots && p.doc < |m.docs|
    ensures Get(m1, p) == Get(m, p)
    ensures KeysWait(Set(m1, p, MapCell(Get(m, p).vals[k := x])), p, fields, rest - {k})
  {
    hide OnlyUnder, Untouched, Get;
    AboveStays(m, m1, p, Key(k), roots);
    var cell := MapCell(Get(m, p).vals[k := x]);
    SetUnder(m1, p, cell, roots);
    forall key | key in rest - {k} ensures Untouched(Set(m1, p, cell), Child(p, Key(key)), fields[key]) {
      SiblingStays(m, m1, p, Key(k), cell, Key(key), fields[key], roots);
    }
  }

  lemma ItemsGo(m: Memory, m1: Memory, p: Address, items: seq<Json>, i: nat, x: Val, roots: set<nat>)
    requires ItemsWait(m, p, items, i) && i < |items| && Formed(m)
    requires OnlyUnder(m, m1, Child(p, Index(i)), roots) && p.doc !in roots && p.doc < |m.docs|
    ensures Get(m1, p) == Get(m, p)
    ensures ItemsWait(Set(m1, p, ListCell(Get(m, p).elems[i := x])), p, items, i + 1)
  {
    hide OnlyUnder, Untouched, Get;
    AboveStays(m, m1, p, Index(i), roots);
    var cell := ListCell(Get(m, p).elems[i := x]);
    SetUnder(m1, p, cell, roots);
    forall j | i + 1 <= j < |items| ensures Untouched(Set(m1, p, cell), Child(p, Index(j)), items[j]) {
      SiblingStays(m, m1, p, Index(i), cell, Index(j), items[j], roots);
    }
  }

  // ---- An element is written back ----

  /** What is steady is resolved to itself. */
  lemma SteadyShows(v: View, p: Address, x: Val, value: Json)
    requires Shows(v, p, x, value, false) && Steady(v.site, value)
    ensures x == Slot(p, value)
  {
    hide Loadable, SectionLead;
  }

  /** Between two writes: an element at `step` of the container at `p` was resolved to `x`, and is
      written into the container. */
  lemma ElementWritten(v: View, v1: View, v2: View, tags: map<string, Meta>, limit: nat, p: Address, step: Step, cell: Cell)
    requires OnlyHere(v, v1, Child(p, step)) && p.doc == v.doc < |v.mem.docs| && v.doc !in Files(v.cache)
    requires v.mem.docs[v.doc] != Null && v.doc !in Files(v1.cache)
    requires Settled(v1, tags, limit) && limit <= |v1.mem.docs| && v2 == v1.(mem := Set(v1.mem, p, cell))
    ensures OnlyHere(v, v2, p) && Settled(v2, tags, |v2.mem.docs|)
    ensures forall other | other != step :: Kept(v, v2, Child(p, other))
    ensures Kept(v1, v2, Child(p, step))
  {
    hide Settled;
    SettledElsewhere(v1, v2, tags, limit);
    SettledMore(v2, tags, limit, |v2.mem.docs|);
    forall other | other != step ensures Kept(v, v2, Child(p, other)) {
      ChildrenApart(p, step, other);
    }
    WrittenHere(v, v1, v2, p, step, cell);
  }

  lemma WrittenHere(v: View, v1: View, v2: View, p: Address, step: Step, cell: Cell)
    requires OnlyHere(v, v1, Child(p, step)) && p.doc == v.doc < |v.mem.docs| && v2 == v1.(mem := Set(v1.mem, p, cell))
    requires v.mem.docs[v.doc] != Null
    ensures OnlyHere(v, v2, p)
    ensures Kept(v1, v2, Child(p, step))
  {
    assert p.path <= Child(p, step).path;
    forall a: Address | a.doc < |v.mem.docs| && !Under(p, a) && !(a.path == [] && a.doc in Files(v.cache))
      ensures SameAt(v.mem, v2.mem, a)
    {
      assert !Under(Child(p, step), a);
      assert SameAt(v.mem, v1.mem, a);
      assert Under(p, p);
    }
  }

  /** The uses of files with metadata in the fields under `keys`. */
  ghost function KeyTags(site: Site, fields: Fields, keys: set<string>): iset<(string, Meta)> {
    iset u: (string, Meta) | exists key | key in fields && key in keys :: Uses(site, fields[key], false, u.0, Some(u.1))
  }

  ghost function ItemTags(site: Site, items: seq<Json>, refBool: bool, next: nat): iset<(string, Meta)> {
    iset u: (string, Meta) | exists i | 0 <= i < |items| && i < next :: Uses(site, items[i], refBool, u.0, Some(u.1))
  }

  /** The keys of an object without references that are not in `rest` have been visited. */
  ghost predicate Visited(v: View, v1: View, tags: map<string, Meta>, tags1: map<string, Meta>, p: Address,
                          fields: Fields, rest: set<string>) {
    && OnlyHere(v, v1, p) && Calm(v1, tags1, |v1.mem.docs|)
    && Latest(KeyTags(v.site, fields, fields.Keys - rest), v.site.plan.more, tags, tags1) && Fetched(v, v1, Obj(fields))
    && Get(v1.mem, p).MapCell? && Get(v1.mem, p).vals.Keys == fields.Keys
    && forall key | key in fields && key !in rest :: Shows(v1, Child(p, Key(key)), Get(v1.mem, p).vals[key], fields[key], false)
  }

  ghost predicate Walked(v: View, v1: View, tags: map<string, Meta>, tags1: map<string, Meta>, p: Address,
                         items: seq<Json>, refBool: bool, next: nat)
    requires next <= |items|
  {
    && OnlyHere(v, v1, p) && Calm(v1, tags1, |v1.mem.docs|)
    && Latest(ItemTags(v.site, items, refBool, next), v.site.plan.more, tags, tags1) && Fetched(v, v1, List(items))
    && Get(v1.mem, p).ListCell? && |Get(v1.mem, p).elems| == |items|
    && forall i | 0 <= i < next :: Shows(v1, Child(p, Index(i)), Get(v1.mem, p).elems[i], items[i], refBool)
  }

  lemma KeyAnchors(v: View, v1: View, p: Address, fields: Fields, k: string, x: Val)
    requires Anchors(v) && NoRefKeys(v.site.w, fields) && k in fields
    requires p.doc == v.doc && At(v.site.full, p.path) == Some(Obj(fields))
    requires Shows(v, Child(p, Key(k)), x, fields[k], false)
    requires Get(v.mem, p).MapCell? && k in Get(v.mem, p).vals && Get(v.mem, p).vals[k] == Slot(Child(p, Key(k)), fields[k])
    requires v1 == v.(mem := Set(v.mem, p, MapCell(Get(v.mem, p).vals[k := x])))
    ensures Anchors(v1)
  {
    hide Shows, Untouched, Get, Still, At, Plain, NoRefKeys;
    if Steady(v.site, fields[k]) {
      SteadyShows(v, Child(p, Key(k)), x, fields[k]);
      assert Get(v.mem, p).vals[k := x] == Get(v.mem, p).vals;
    } else {
      if Still(v.site, Obj(fields)) {
        StillField(v.site, fields, k);
      }
      OpenHere(v.site, p.path);
      SetUnder(v.mem, p, MapCell(Get(v.mem, p).vals[k := x]), {});
      if Plain(v.site, v.site.full, p.path) {
        assert AnchoredAt(v, p.path, Obj(fields));
      }
      AnchorsWritten(v, v1, p.path);
    }
  }

  lemma StillField(site: Site, fields: Fields, k: string)
    requires Still(site, Obj(fields)) && k in fields
    ensures Still(site, fields[k])
  {
  }

  lemma ItemAnchors(v: View, v1: View, p: Address, items: seq<Json>, i: nat, refBool: bool, x: Val)
    requires Anchors(v) && i < |items| && p.doc == v.doc && At(v.site.full, p.path) == Some(List(items))
    requires refBool ==> Open(v.site, p.path)
    requires Shows(v, Child(p, Index(i)), x, items[i], refBool)
    requires Get(v.mem, p).ListCell? && i < |Get(v.mem, p).elems|
    requires Get(v.mem, p).elems[i] == Slot(Child(p, Index(i)), items[i])
    requires v1 == v.(mem := Set(v.mem, p, ListCell(Get(v.mem, p).elems[i := x])))
    ensures Anchors(v1)
  {
    hide Shows, Untouched, Get, Still, At, Plain, Open;
    if !refBool && Still(v.site, List(items)) {
      StillItem(v.site, items, i);
      SteadyShows(v, Child(p, Index(i)), x, items[i]);
      assert Get(v.mem, p).elems[i := x] == Get(v.mem, p).elems;
    } else {
      if !refBool {
        OpenHere(v.site, p.path);
      }
      AnchorsWritten(v, v1, p.path);
    }
  }

  lemma StillItem(site: Site, items: seq<Json>, i: nat)
    requires Still(site, List(items)) && i < |items|
    ensures Still(site, items[i])
  {
  }

  lemma FetchedThen(v: View, v1: View, v2: View, value: Json)
    requires Fetched(v, v1, value) && Fetched(v1, v2, value) && v1.site == v.site
    ensures Fetched(v, v2, value)
  {
    hide Reaches;
  }

  /** One more key was visited. */
  lemma KeyVisited(v: View, v1: View, v2: View, v3: View, tags: map<string, Meta>, tags1: map<string, Meta>,
                   tags2: map<string, Meta>,
                   p: Address, fields: Fields, rest: set<string>, k: string, a: Answer)
    requires NoRefKeys(v.site.w, fields) && k in rest && k in fields
    requires Visited(v, v1, tags, tags1, p, fields, rest) && Done(v1, v2, tags1, tags2, Child(p, Key(k)), fields[k], false, a)
    requires p.doc == v.doc && At(v.site.full, p.path) == Some(Obj(fields))
    requires Get(v2.mem, p) == Get(v1.mem, p) && Get(v1.mem, p).vals[k] == Slot(Child(p, Key(k)), fields[k])
    requires v3 == v2.(mem := Set(v2.mem, p, MapCell(Get(v1.mem, p).vals[k := a.value])))
    ensures Visited(v, v3, tags, tags2, p, fields, rest - {k})
  {
    hide NoRefKeys, Shows, Settled, Anchors, OnlyHere, Get, Uses, Latest, Kept, Fetched, Age, TookSection, At, Files;
    var cell := MapCell(Get(v1.mem, p).vals[k := a.value]);
    HereSame(v, v1, p);
    HereSame(v1, v2, Child(p, Key(k)));
    AnchorsDoc(v1);
    AgeBound(v2, a.value);
    ElementWritten(v1, v2, v3, tags2, Age(v2, a.value), p, Key(k), cell);
    HereThen(v, v1, v3, p);
    KeyAnchors(v2, v3, p, fields, k, a.value);
    SetUnder(v2.mem, p, cell, {});
    KeyTagsMore(v.site, fields, fields.Keys - rest, k);
    assert fields.Keys - rest + {k} == fields.Keys - (rest - {k});
    LatestThen(KeyTags(v.site, fields, fields.Keys - rest), TagsOf(v.site, fields[k], false), v.site.plan.more, tags, tags1, tags2);
    FetchedField(v1, v2, fields, k);
    FetchedSame(v1, v2, v3, Obj(fields));
    FetchedThen(v, v1, v3, Obj(fields));
    forall key | key in fields && key !in rest - {k} ensures Shows(v3, Child(p, Key(key)), cell.vals[key], fields[key], false) {
      if key == k {
        ShowsStays(v2, v3, Child(p, Key(k)), a.value, fields[k], false);
      } else {
        ShowsStays(v1, v3, Child(p, Key(key)), cell.vals[key], fields[key], false);
      }
    }
  }

  lemma AgeBound(v: View, x: Val)
    ensures Age(v, x) <= |v.mem.docs|
  {
  }

  lemma KeyTagsMore(site: Site, fields: Fields, keys: set<string>, k: string)
    requires k in fields
    ensures KeyTags(site, fields, keys + {k}) == KeyTags(site, fields, keys) + TagsOf(site, fields[k], false)
  {
    hide Uses;
    var more := KeyTags(site, fields, keys + {k});
    forall u: (string, Meta) ensures u in more <==> u in KeyTags(site, fields, keys) + TagsOf(site, fields[k], false) {}
  }

  lemma ItemTagsMore(site: Site, items: seq<Json>, refBool: bool, i: nat)
    requires i < |items|
    ensures ItemTags(site, items, refBool, i + 1) == ItemTags(site, items, refBool, i) + TagsOf(site, items[i], refBool)
  {
    hide Uses;
    var more := ItemTags(site, items, refBool, i + 1);
    forall u: (string, Meta) ensures u in more <==> u in ItemTags(site, items, refBool, i) + TagsOf(site, items[i], refBool) {}
  }

  /** A container of the document is no object of its own. */
  lemma PlaceAge(v: View, tags: map<string, Meta>, limit: nat, p: Address)
    requires Calm(v, tags, limit) && p.doc == v.doc
    ensures Age(v, Ref(p)) == |v.mem.docs|
  {
    hide Settled;
    AnchorsDoc(v);
  }

  lemma KeysDone(v: View, v1: View, tags: map<string, Meta>, tags1: map<string, Meta>, p: Address, fields: Fields,
                 refBool: bool)
    requires NoRefKeys(v.site.w, fields) && Visited(v, v1, tags, tags1, p, fields, {}) && p.doc == v.doc
    ensures Done(v, v1, tags, tags1, p, Obj(fields), refBool, Answer(Ref(p), false))
  {
    hide Settled, Anchors, Get, Latest, Age, OnlyHere, Fetched;
    assert KeyTags(v.site, fields, fields.Keys - {}) == TagsOf(v.site, Obj(fields), refBool);
    HereSame(v, v1, p);
    PlaceAge(v1, tags1, |v1.mem.docs|, p);
  }

  lemma NoTags(more: iset<(string, Meta)>, tags: map<string, Meta>)
    ensures Latest(iset{}, more, tags, tags)
  {
  }

  lemma NothingHere(v: View, p: Address, value: Json)
    ensures OnlyHere(v, v, p) && Fetched(v, v, value)
  {
  }

  lemma KeysBegin(v: View, tags: map<string, Meta>, p: Address, fields: Fields)
    requires KeysWait(v.mem, p, fields, fields.Keys) && Calm(v, tags, |v.mem.docs|)
    ensures Visited(v, v, tags, tags, p, fields, fields.Keys)
  {
    hide Settled, Anchors, Get, Latest, OnlyHere, Fetched;
    NoTags(v.site.plan.more, tags);
    NothingHere(v, p, Obj(fields));
    assert KeyTags(v.site, fields, {}) == iset{};
    assert fields.Keys - fields.Keys == {};
  }

  /** One more element was walked over. */
  lemma ItemWalked(v: View, v1: View, v2: View, v3: View, tags: map<string, Meta>, tags1: map<string, Meta>,
                   tags2: map<string, Meta>,
                   p: Address, items: seq<Json>, refBool: bool, i: nat, a: Answer)
    requires i < |items| && (refBool ==> Open(v.site, p.path))
    requires Walked(v, v1, tags, tags1, p, items, refBool, i)
    requires Done(v1, v2, tags1, tags2, Child(p, Index(i)), items[i], refBool, a)
    requires p.doc == v.doc && At(v.site.full, p.path) == Some(List(items))
    requires Get(v2.mem, p) == Get(v1.mem, p) && Get(v1.mem, p).elems[i] == Slot(Child(p, Index(i)), items[i])
    requires v3 == v2.(mem := Set(v2.mem, p, ListCell(Get(v1.mem, p).elems[i := a.value])))
    ensures Walked(v, v3, tags, tags2, p, items, refBool, i + 1)
  {
    hide Shows, Settled, Anchors, OnlyHere, Get, Uses, Latest, Kept, Fetched, Age, TookSection, At, Files, Open;
    var cell := ListCell(Get(v1.mem, p).elems[i := a.value]);
    HereSame(v, v1, p);
    HereSame(v1, v2, Child(p, Index(i)));
    AnchorsDoc(v1);
    AgeBound(v2, a.value);
    ElementWritten(v1, v2, v3, tags2, Age(v2, a.value), p, Index(i), cell);
    HereThen(v, v1, v3, p);
    ItemAnchors(v2, v3, p, items, i, refBool, a.value);
    SetUnder(v2.mem, p, cell, {});
    ItemTagsMore(v.site, items, refBool, i);
    LatestThen(ItemTags(v.site, items, refBool, i), TagsOf(v.site, items[i], refBool), v.site.plan.more, tags, tags1, tags2);
    FetchedItem(v1, v2, items, i);
    FetchedSame(v1, v2, v3, List(items));
    FetchedThen(v, v1, v3, List(items));
    forall j | 0 <= j < i + 1 ensures Shows(v3, Child(p, Index(j)), cell.elems[j], items[j], refBool) {
      if j == i {
        ShowsStays(v2, v3, Child(p, Index(i)), a.value, items[i], refBool);
      } else {
        ShowsStays(v1, v3, Child(p, Index(j)), cell.elems[j], items[j], refBool);
      }
    }
  }

  lemma ItemsDone(v: View, v1: View, tags: map<string, Meta>, tags1: map<string, Meta>, p: Address, items: seq<Json>,
                  refBool: bool)
    requires Walked(v, v1, tags, tags1, p, items, refBool, |items|) && p.doc == v.doc
    ensures Done(v, v1, tags, tags1, p, List(items), refBool, Answer(Ref(p), false))
  {
    hide Settled, Anchors, Get, Latest, Age, OnlyHere, Fetched;
    assert ItemTags(v.site, items, refBool, |items|) == TagsOf(v.site, List(items), refBool);
    HereSame(v, v1, p);
    PlaceAge(v1, tags1, |v1.mem.docs|, p);
  }

  lemma ItemsBegin(v: View, tags: map<string, Meta>, p: Address, items: seq<Json>, refBool: bool)
    requires ItemsWait(v.mem, p, items, 0) && Calm(v, tags, |v.mem.docs|)
    ensures Walked(v, v, tags, tags, p, items, refBool, 0)
  {
    hide Settled, Anchors, Get, Latest, OnlyHere, Fetched;
    NoTags(v.site.plan.more, tags);
    NothingHere(v, p, List(items));
    assert ItemTags(v.site, items, refBool, 0) == iset{};
  }
}
