/** What an object with a reference gives way to in memory, and what is left of what was under the reference. */
module ResolverReferences {
  import opened Wrappers
  import opened YamlDocument
  import opened SharedMemory
  import opened References
  import opened ResolverMemory
  import opened ResolverAnswers

  function NewTags(site: Site, ref: Json, alone: bool, tags: map<string, Meta>): map<string, Meta> {
    if ref.Str? && Leads(site, ref.s, true).File? && Leads(site, ref.s, true).j.Obj? then
      tags[Leads(site, ref.s, true).file := Meta(ref, alone)]
    else tags
  }

  lemma ReferenceTags(site: Site, fields: Fields, refBool: bool, tags: map<string, Meta>, tags1: map<string, Meta>)
    requires Orderly(site, Obj(fields), refBool) && !NoRefKeys(site.w, fields)
    requires Latest(TagsOf(site, fields[RefKey(site.w, fields)], true), site.plan.more, tags, tags1)
    ensures
      var ref := fields[RefKey(site.w, fields)];
      Latest(TagsOf(site, Obj(fields), refBool), site.plan.more, tags, NewTags(site, ref, |fields| == 1, tags1))
  {
    hide Leads, NoRefKeys, OrderlyString, OrderlyLead;
    var ref, uses := fields[RefKey(site.w, fields)], TagsOf(site, Obj(fields), refBool);
    if Container(ref) {
      assert uses == TagsOf(site, ref, true);
    } else if ref.Str? && Leads(site, ref.s, true).File? && Leads(site, ref.s, true).j.Obj? {
      var file := Leads(site, ref.s, true).file;
      assert (file, Meta(ref, |fields| == 1)) in uses;
      assert forall u :: u !in TagsOf(site, ref, true);
    } else {
      assert forall u :: u !in TagsOf(site, ref, true);
      assert forall u :: u !in uses;
    }
  }

  function Put(v: View, x: Val, k: Mark): (View, Val) {
    var (mem, y) := AddMetadata(v.mem, x, k.ref, k.alone);
    (v.(mem := mem), y)
  }

  /** What is left of a reference gets an object of its own. */
  lemma NothingPut(v: View, tags: map<string, Meta>, limit: nat, x: Val, k: Mark, p: Address)
    requires Calm(v, tags, limit) && limit <= |v.mem.docs| && Formed(v.mem) && !IsMap(v.mem, x)
    ensures
      var (v', y) := Put(v, x, k);
      && OnlyHere(v, v', p) && Calm(v', tags, Age(v', y)) && ShowsObject(v', y, map[], Some(k)) && v'.cache == v.cache
      && Age(v', y) == |v.mem.docs| + 1 && OnlyFiles(v, v') && Formed(v'.mem)
      && OnlyFiles(v, Older(v', y)) && Older(v', y).mem.docs == v.mem.docs + [Null]
  {
    hide Settled, Anchors, AddMetadata, Get;
    var (v', y) := Put(v, x, k);
    AddToNew(v.mem, x, k.ref, k.alone);
    AnchorsDoc(v);
    SettledElsewhere(v, v', tags, limit);
    SettledMore(v', tags, limit, |v.mem.docs| + 1);
    AnchorsElsewhere(v, v');
    FilesBound(v, tags, limit);
    var q := |v.mem.docs|;
    assert Aside(v', q) && HasMeta(v'.mem, q, k);
  }

  /** The object of a file is put in, and metadata is written into it. */
  lemma FilePut(v: View, tags: map<string, Meta>, limit: nat, file: string, m: Meta, p: Address)
    requires Calm(v, tags, limit) && limit <= |v.mem.docs| && Formed(v.mem) && (file, m) in v.site.plan.all
    requires file in v.cache && v.mem.docs[v.cache[file].doc].Obj?
    ensures
      var (v', y) := Put(v, Ref(Root(v.cache[file].doc)), AtomMark(m));
      && OnlyHere(v, v', p) && Calm(v', tags[file := m], |v'.mem.docs|) && y == Ref(Root(v.cache[file].doc))
      && Age(v', y) == |v'.mem.docs| && v'.cache == v.cache && OnlyFiles(v, v')
  {
    hide Settled, Anchors, AddMetadata, Get;
    FilesBound(v, tags, limit);
    AnchorsDoc(v);
    FileIn(v.cache, file);
    IsFileMap(v, tags, limit, file);
    var root := Root(v.cache[file].doc);
    AddToObject(v.mem, root, Atom(m.ref), m.alone);
    var (v', y) := Put(v, Ref(root), AtomMark(m));
    SettledTagged(v, v', tags, limit, file, m);
    AnchorsElsewhere(v, v');
  }

  lemma IsFileMap(v: View, tags: map<string, Meta>, limit: nat, file: string)
    requires Settled(v, tags, limit) && file in v.cache
    ensures v.cache[file].doc < |v.mem.docs|
    ensures v.mem.docs[v.cache[file].doc].Obj? <==> IsMap(v.mem, Slot(Root(v.cache[file].doc), v.mem.docs[v.cache[file].doc]))
  {
    hide HoldsMeta;
    assert Tagged(v, file, tags, limit);
    if v.mem.docs[v.cache[file].doc].Obj? {
      FileCell(v, tags, limit, file);
    } else {
      ListOfFile(v, tags, limit, file);
    }
  }

  /** Metadata is written into an object of its own, such as the copy of a section. */
  lemma OwnPut(v: View, tags: map<string, Meta>, x: Val, k: Mark, p: Address)
    requires x.Ref? && x.at.path == [] && Aside(v, x.at.doc) && Get(v.mem, x.at).MapCell?
    requires Calm(v, tags, x.at.doc) && Formed(v.mem)
    ensures
      var (v', y) := Put(v, x, k);
      && y == x && v'.cache == v.cache && Calm(v', tags, x.at.doc) && Age(v', x) == x.at.doc && Aside(v', x.at.doc)
      && HoldsMeta(v', x.at, Get(v.mem, x.at).vals, k, |v'.mem.docs|) && Formed(v'.mem)
      && v'.mem.docs == v.mem.docs + [Null] && v'.site == v.site && v'.doc == v.doc
      && forall a: Address | a.doc < |v.mem.docs| && a != x.at :: SameAt(v.mem, v'.mem, a)
  {
    hide Settled, Anchors, AddMetadata, Get;
    AnchorsDoc(v);
    AddToObject(v.mem, x.at, k.ref, k.alone);
    var (v', y) := Put(v, x, k);
    SettledElsewhere(v, v', tags, x.at.doc);
    AnchorsElsewhere(v, v');
    FilesBound(v, tags, x.at.doc);
    var q := |v.mem.docs|;
    assert Aside(v', q) && HasMeta(v'.mem, q, k);
  }

  /** Metadata is written into a place of the document that no reference leads to. */
  lemma PlacePut(v: View, tags: map<string, Meta>, limit: nat, a: Address, k: Mark)
    requires Calm(v, tags, limit) && limit <= |v.mem.docs| && Formed(v.mem) && a.doc == v.doc && a.path != []
    requires Get(v.mem, a).MapCell?
    requires At(v.site.full, a.path).Some? && Open(v.site, a.path) && !Plain(v.site, v.site.full, a.path)
    ensures
      var (v', y) := Put(v, Ref(a), k);
      && y == Ref(a) && v'.cache == v.cache && Calm(v', tags, |v'.mem.docs|) && Age(v', y) == |v'.mem.docs|
      && Marked(v', a, k) && v'.mem.docs == v.mem.docs + [Null] && v'.site == v.site && v'.doc == v.doc && Formed(v'.mem)
      && forall b: Address | b.doc < |v.mem.docs| && b != a :: SameAt(v.mem, v'.mem, b)
  {
    hide Settled, Anchors, AddMetadata, Get, Plain, Open, At;
    AnchorsDoc(v);
    AddToObject(v.mem, a, k.ref, k.alone);
    var (v', y) := Put(v, Ref(a), k);
    SettledElsewhere(v, v', tags, limit);
    SettledMore(v', tags, limit, |v'.mem.docs|);
    AnchorsWritten(v, v', a.path);
    FilesBound(v, tags, limit);
    var q := |v.mem.docs|;
    assert Aside(v', q) && HasMeta(v'.mem, q, k);
  }

  // ---- References under references ----

  /** The references under a reference end in an object without any. */
  ghost predicate EndsCyclic(w: World, fields: Fields)
    requires !NoRefKeys(w, fields)
    decreases Obj(fields)
  {
    var ref := fields[RefKey(w, fields)];
    ref.Obj? && (NoRefKeys(w, ref.fields) || EndsCyclic(w, ref.fields))
  }

  ghost function CyclePath(w: World, fields: Fields): (r: seq<Step>)
    requires !NoRefKeys(w, fields) && EndsCyclic(w, fields)
    ensures r != []
    decreases Obj(fields)
  {
    var key := RefKey(w, fields);
    [Key(key)] + if NoRefKeys(w, fields[key].fields) then [] else CyclePath(w, fields[key].fields)
  }

  function Below(p: Address, path: seq<Step>): Address {
    Address(p.doc, p.path + path)
  }

  lemma BelowChild(p: Address, step: Step, path: seq<Step>)
    ensures Below(p, [step] + path) == Below(Child(p, step), path) && Below(p, [step]) == Child(p, step)
  {
    assert p.path + ([step] + path) == p.path + [step] + path;
  }

  /** Where the references end in an object without any, it is what all of them give way to. */
  lemma {:induction false} CyclicResult(v: View, p: Address, x: Val, fields: Fields, mark: Mark, under: bool)
    requires !NoRefKeys(v.site.w, fields) && EndsCyclic(v.site.w, fields)
    ensures ShowsResult(v, p, x, fields, mark, under)
            <==> x == Ref(Below(p, CyclePath(v.site.w, fields))) && Marked(v, Below(p, CyclePath(v.site.w, fields)), mark)
    decreases Obj(fields)
  {
    hide Marked, NoRefKeys, ShowsLead, ShowsObject;
    var key := RefKey(v.site.w, fields);
    if NoRefKeys(v.site.w, fields[key].fields) {
      BelowChild(p, Key(key), []);
    } else {
      BelowChild(p, Key(key), CyclePath(v.site.w, fields[key].fields));
      CyclicResult(v, Child(p, Key(key)), x, fields[key].fields, mark, true);
    }
  }

  lemma {:induction false} CycleAt(w: World, j: Json, path: seq<Step>, fields: Fields)
    requires At(j, path) == Some(Obj(fields)) && !NoRefKeys(w, fields) && EndsCyclic(w, fields)
    ensures At(j, path + CyclePath(w, fields)).Some?
    decreases Obj(fields)
  {
    var key := RefKey(w, fields);
    AtChild(j, path, Key(key));
    if !NoRefKeys(w, fields[key].fields) {
      CycleAt(w, j, path + [Key(key)], fields[key].fields);
      assert path + CyclePath(w, fields) == path + [Key(key)] + CyclePath(w, fields[key].fields);
    } else {
      assert path + CyclePath(w, fields) == path + [Key(key)];
    }
  }

  /** An object of its own, with metadata. */
  ghost predicate OwnMarked(v: View, x: Val) {
    x.Ref? && x.at.path == [] && Aside(v, x.at.doc) && Get(v.mem, x.at).MapCell?
  }

  /** Elsewhere it is an object of its own, or a section that is no object. */
  lemma {:induction false} OwnResult(v: View, p: Address, x: Val, fields: Fields, mark: Mark, under: bool)
    requires !NoRefKeys(v.site.w, fields) && !EndsCyclic(v.site.w, fields) && ShowsResult(v, p, x, fields, mark, under)
    requires
      var lead := ReferenceLead(v.site, fields[RefKey(v.site.w, fields)]);
      && !(lead.File? && lead.j.Obj?) && (under || !lead.Section? || lead.j.Obj? || fields[RefKey(v.site.w, fields)].Obj?)
    ensures OwnMarked(v, x)
    decreases Obj(fields)
  {
    hide NoRefKeys, Leads, Get, Aside, Sections, Parts;
    var ref := fields[RefKey(v.site.w, fields)];
    if ref.Obj? {
      OwnResult(v, Child(p, Key(RefKey(v.site.w, fields))), x, ref.fields, mark, true);
    }
  }

  /** Metadata was written over that of an object of its own. */
  lemma {:induction false} Remarked(v: View, v': View, p: Address, x: Val, fields: Fields, mark: Mark, under: bool, k: Mark)
    requires !NoRefKeys(v.site.w, fields) && !EndsCyclic(v.site.w, fields) && ShowsResult(v, p, x, fields, mark, under)
    requires var lead := ReferenceLead(v.site, fields[RefKey(v.site.w, fields)]); !(lead.File? && lead.j.Obj?)
    requires OwnMarked(v, x) && v'.site == v.site && v'.doc == v.doc && v'.cache == v.cache && Aside(v', x.at.doc)
    requires HoldsMeta(v', x.at, Get(v.mem, x.at).vals, k, |v'.mem.docs|)
    ensures ShowsResult(v', p, x, fields, k, true)
    decreases Obj(fields)
  {
    hide NoRefKeys, Leads, Get, Aside, Sections, Parts, CellOf;
    var ref := fields[RefKey(v.site.w, fields)];
    if ref.Obj? {
      Remarked(v, v', Child(p, Key(RefKey(v.site.w, fields))), x, ref.fields, mark, true, k);
    } else {
      match ReferenceLead(v.site, ref)
      case Nowhere => ObjectRemarked(v, v', x, map[], mark, k);
      case File(_, _) => ObjectRemarked(v, v', x, map[], mark, k);
      case Section(j) =>
        if j.Obj? {
          ObjectRemarked(v, v', x, SectionVals(v, ref.s, j), mark, k);
        } else if under {
          ObjectRemarked(v, v', x, map[], mark, k);
        } else {
          SectionIsNone(v, x, ref.s);
        }
    }
  }

  function SectionVals(v: View, s: string, j: Json): map<string, Val>
    requires NamesSection(v.site, s) && ("#" <= s || OnlyFilePath(v.site, s) in v.cache) && j.Obj?
  {
    CellOf(SectionAt(v, s), j).vals
  }

  lemma SectionIsNone(v: View, x: Val, s: string)
    requires Leads(v.site, s, true).Section? && !Leads(v.site, s, true).j.Obj? && OwnMarked(v, x)
    ensures forall k :: !ShowsLead(v, x, s, true, k)
  {
    hide Leads, Get, Aside;
    if NamesSection(v.site, s) {
      SectionInside(s, v.site);
    }
  }

  lemma ObjectRemarked(v: View, v': View, x: Val, vals: map<string, Val>, mark: Mark, k: Mark)
    requires ShowsObject(v, x, vals, Some(mark)) && Aside(v', x.at.doc) && Get(v.mem, x.at).MapCell?
    requires HoldsMeta(v', x.at, Get(v.mem, x.at).vals, k, |v'.mem.docs|)
    ensures ShowsObject(v', x, vals, Some(k))
  {
    hide Get, Aside, HasMeta;
    var d: nat :| d < |v.mem.docs| && Get(v.mem, x.at) == MapCell(vals["RefMetadata" := Ref(Root(d))]);
    var q: nat :| q < |v'.mem.docs| && Aside(v', q) && HasMeta(v'.mem, q, k)
                  && Get(v'.mem, x.at) == MapCell(Get(v.mem, x.at).vals["RefMetadata" := Ref(Root(q))]);
    assert vals["RefMetadata" := Ref(Root(d))]["RefMetadata" := Ref(Root(q))] == vals["RefMetadata" := Ref(Root(q))];
  }

  // ---- What is left under a reference ----

  lemma HeldTrunc(v: View, p: Address, fields: Fields, d: nat)
    requires !NoRefKeys(v.site.w, fields) && HeldCell(v, p, fields) && p.doc < d <= |v.mem.docs|
    ensures HeldCell(Trunc(v, d), p, fields)
  {
    hide NoRefKeys;
    assert Get(Trunc(v, d).mem, p) == Get(v.mem, p);
  }

  lemma KeptFiles(v: View, v': View, p: Address)
    requires OnlyFiles(v, v') && v.doc == p.doc < |v.mem.docs| && v.mem.docs[p.doc] != Null && p.doc !in Files(v.cache)
    ensures Kept(v, v', p)
  {
  }

  /** Only an object of its own was changed. */
  lemma KeptOwn(v: View, v': View, p: Address, x: Val)
    requires v'.site == v.site && v'.doc == v.doc == p.doc && v'.cache == v.cache && v.mem.docs <= v'.mem.docs
    requires x.Ref? && x.at.path == [] && Aside(v, x.at.doc) && p.doc < x.at.doc && v.mem.docs[p.doc] != Null
    requires forall a: Address | a.doc < |v.mem.docs| && a != x.at :: SameAt(v.mem, v'.mem, a)
    ensures Kept(Older(v, x), Older(v', x), p) && |Older(v, x).mem.docs| == |Older(v', x).mem.docs| == x.at.doc
  {
    assert Older(v, x).mem.docs == Older(v', x).mem.docs;
  }

  lemma {:induction false} LeftLooped(v: View, v': View, p: Address, fields: Fields)
    requires !NoRefKeys(v.site.w, fields) && EndsCyclic(v.site.w, fields) && v'.site == v.site
    requires v.mem.docs <= v'.mem.docs && p.doc < |v.mem.docs|
    requires forall a: Address | a.doc == p.doc && a != Below(p, CyclePath(v.site.w, fields)) :: SameAt(v.mem, v'.mem, a)
    requires HeldCell(v, p, fields) && ShowsLeft(v, Child(p, Key(RefKey(v.site.w, fields))), fields[RefKey(v.site.w, fields)])
    ensures HeldCell(v', p, fields) && ShowsLeft(v', Child(p, Key(RefKey(v.site.w, fields))), fields[RefKey(v.site.w, fields)])
    decreases Obj(fields)
  {
    hide NoRefKeys, Get, Untouched, SameAt;
    var key := RefKey(v.site.w, fields);
    var ref := fields[key];
    HeldLooped(v, v', p, fields);
    if !NoRefKeys(v.site.w, ref.fields) {
      BelowChild(p, Key(key), CyclePath(v.site.w, ref.fields));
      LeftLooped(v, v', Child(p, Key(key)), ref.fields);
    }
  }

  lemma HeldLooped(v: View, v': View, p: Address, fields: Fields)
    requires !NoRefKeys(v.site.w, fields) && EndsCyclic(v.site.w, fields) && v'.site == v.site
    requires v.mem.docs <= v'.mem.docs && p.doc < |v.mem.docs|
    requires forall a: Address | a.doc == p.doc && a != Below(p, CyclePath(v.site.w, fields)) :: SameAt(v.mem, v'.mem, a)
    requires HeldCell(v, p, fields)
    ensures HeldCell(v', p, fields)
  {
    hide NoRefKeys;
    var at := Below(p, CyclePath(v.site.w, fields));
    var key := RefKey(v.site.w, fields);
    assert at.path[|p.path|] == Key(key);
    SameCell(v.mem, v'.mem, p);
    forall k | k in fields && k != key ensures Untouched(v'.mem, Child(p, Key(k)), fields[k]) {
      assert Child(p, Key(k)).path[|p.path|] == Key(k);
      forall a | a in v'.mem.changed ensures !Under(Child(p, Key(k)), a) {
        assert a.doc == p.doc && a != at ==> SameAt(v.mem, v'.mem, a);
      }
    }
  }

  /** An object with a reference is itself as it was while what is under the reference is resolved. */
  lemma HeldHere(v: View, v': View, p: Address, fields: Fields)
    requires !NoRefKeys(v.site.w, fields) && OnlyHere(v, v', Child(p, Key(RefKey(v.site.w, fields)))) && HeldCell(v, p, fields)
    requires p.doc !in Files(v.cache) && p.doc < |v.mem.docs|
    ensures HeldCell(v', p, fields)
  {
    hide NoRefKeys, Get;
    var key := RefKey(v.site.w, fields);
    AboveStays(v.mem, v'.mem, p, Key(key), Files(v.cache));
    forall k | k in fields && k != key ensures Untouched(v'.mem, Child(p, Key(k)), fields[k]) {
      AsideUntouched(v.mem, v'.mem, p, Key(key), Key(k), fields[k], Files(v.cache));
    }
  }

  lemma AsideUntouched(m: Memory, m': Memory, p: Address, step: Step, other: Step, j: Json, roots: set<nat>)
    requires OnlyUnder(m, m', Child(p, step), roots) && p.doc !in roots && other != step && Untouched(m, Child(p, other), j)
    ensures Untouched(m', Child(p, other), j)
  {
    ChildrenApart(p, step, other);
    forall a | a in m'.changed ensures !Under(Child(p, other), a) {
      if Under(Child(p, other), a) {
        ApartBelow(Child(p, step), Child(p, other), a);
      }
    }
  }

  /** What is done below an element leaves the container itself alone. */
  lemma AboveStays(m: Memory, m1: Memory, p: Address, step: Step, roots: set<nat>)
    requires OnlyUnder(m, m1, Child(p, step), roots) && p.doc !in roots && p.doc < |m.docs|
    ensures Get(m1, p) == Get(m, p)
  {
    assert !Under(Child(p, step), p);
    SameCell(m, m1, p);
  }

  // ---- A reference is resolved ----

  /** From state `v` to `v1`, the reference in the object at `p` was resolved to `a`. */
  ghost predicate ReferenceDone(v: View, v1: View, tags: map<string, Meta>, tags1: map<string, Meta>, p: Address,
                                fields: Fields, a: Answer)
    requires !NoRefKeys(v.site.w, fields)
  {
    var key := RefKey(v.site.w, fields);
    && OneReference(v.site.w, fields) && Orderly(v.site, fields[key], true) && OrderlyLead(v.site, fields[key], |fields| == 1)
    && Done(v, v1, tags, tags1, Child(p, Key(key)), fields[key], true, a)
    && HeldCell(v, p, fields) && p.doc == v.doc && At(v.site.full, p.path) == Some(Obj(fields))
    && Calm(v, tags, |v.mem.docs|) && Formed(v1.mem)
  }

  ghost function MarkOf(w: World, p: Address, fields: Fields): Mark
    requires !NoRefKeys(w, fields)
  {
    Mark(Slot(Child(p, Key(RefKey(w, fields))), fields[RefKey(w, fields)]), |fields| == 1)
  }

  /** The object at `p` has given way to `y`. */
  ghost predicate ResultDone(v: View, v2: View, tags: map<string, Meta>, p: Address, fields: Fields, y: Val) {
    && OnlyHere(v, v2, p) && Shows(v2, p, y, Obj(fields), false) && Calm(v2, tags, Age(v2, y))
    && (Age(v2, y) < |v2.mem.docs| ==> Age(v2, y) >= |v.mem.docs|)
  }

  lemma ReferenceParts(v: View, v1: View, tags: map<string, Meta>, tags1: map<string, Meta>, p: Address, fields: Fields,
                       a: Answer)
    requires !NoRefKeys(v.site.w, fields) && ReferenceDone(v, v1, tags, tags1, p, fields, a)
    ensures
      var key := RefKey(v.site.w, fields);
      && a.Answer? && OnlyHere(v, v1, Child(p, Key(key))) && OnlyHere(v, v1, p) && Calm(v1, tags1, Age(v1, a.value))
      && Age(v1, a.value) <= |v1.mem.docs| && v1.site == v.site && v1.doc == v.doc && p.doc < |v.mem.docs| <= |v1.mem.docs|
      && v.mem.docs <= v1.mem.docs && p.doc !in Files(v.cache) && p.doc !in Files(v1.cache) && v1.mem.docs[p.doc] != Null
      && Shows(v1, Child(p, Key(key)), a.value, fields[key], true) && a.res == TookSection(v.site, fields[key], true)
      && (Age(v1, a.value) < |v1.mem.docs| ==> Age(v1, a.value) >= |v.mem.docs|) && HeldCell(v1, p, fields)
  {
    hide Settled, Orderly, OrderlyLead, Shows, NoRefKeys, Latest, Fetched, TookSection, HeldCell, OnlyHere;
    var key := RefKey(v.site.w, fields);
    HereSame(v, v1, Child(p, Key(key)));
    HereAbove(v, v1, p, Key(key));
    HeldHere(v, v1, p, fields);
  }

  /** What stays in the place of the object, after everything at the reference is done. */
  lemma HeldAfter(v: View, v1: View, v2: View, p: Address, fields: Fields)
    requires !NoRefKeys(v.site.w, fields) && OnlyHere(v, v1, Child(p, Key(RefKey(v.site.w, fields)))) && HeldCell(v, p, fields)
    requires OnlyHere(v1, v2, Child(p, Key(RefKey(v.site.w, fields)))) && p.doc !in Files(v.cache) && p.doc < |v.mem.docs|
    ensures OnlyHere(v, v2, p) && HeldCell(v2, p, fields)
  {
    hide HeldCell, OnlyHere, NoRefKeys;
    var key := RefKey(v.site.w, fields);
    HereThen(v, v1, v2, Child(p, Key(key)));
    HereAbove(v, v2, p, Key(key));
    HeldHere(v, v2, p, fields);
  }

  lemma ListPut(v: View, v1: View, tags: map<string, Meta>, tags1: map<string, Meta>, p: Address, fields: Fields, a: Answer)
    requires !NoRefKeys(v.site.w, fields) && ReferenceDone(v, v1, tags, tags1, p, fields, a)
    requires fields[RefKey(v.site.w, fields)].List?
    ensures !a.res && !IsMap(v1.mem, a.value)
    ensures
      var (v2, y) := Put(v1, a.value, MarkOf(v.site.w, p, fields));
      ResultDone(v, v2, tags1, p, fields, y) && v2.cache == v1.cache
  {
    hide Calm, Orderly, OrderlyLead, NoRefKeys, ReferenceDone, OnlyHere, OnlyFiles, HeldCell, Leads, Get, AddMetadata,
      ShowsObject, Age, Older;
    ReferenceParts(v, v1, tags, tags1, p, fields, a);
    var key := RefKey(v.site.w, fields);
    var (v2, y) := Put(v1, a.value, MarkOf(v.site.w, p, fields));
    ReferenceHeld(v, v1, tags, tags1, p, fields, a);
    NothingPut(v1, tags1, Age(v1, a.value), a.value, MarkOf(v.site.w, p, fields), Child(p, Key(key)));
    HeldAfter(v, v1, v2, p, fields);
    KeptFiles(v1, Older(v2, y), Child(p, Key(key)));
    ShowsStays(v1, Older(v2, y), Child(p, Key(key)), a.value, fields[key], true);
    assert ShowsResult(v2, p, y, fields, MarkOf(v.site.w, p, fields), false);
    assert ShowsLeft(Older(v2, y), Child(p, Key(key)), fields[key]);
  }

  lemma ReferenceHeld(v: View, v1: View, tags: map<string, Meta>, tags1: map<string, Meta>, p: Address, fields: Fields,
                      a: Answer)
    requires !NoRefKeys(v.site.w, fields) && ReferenceDone(v, v1, tags, tags1, p, fields, a)
    ensures HeldCell(v, p, fields) && Formed(v1.mem) && OneReference(v.site.w, fields) && p.doc == v.doc
    ensures Orderly(v.site, fields[RefKey(v.site.w, fields)], true)
    ensures OrderlyLead(v.site, fields[RefKey(v.site.w, fields)], |fields| == 1) && At(v.site.full, p.path) == Some(Obj(fields))
  {
    hide Calm, Orderly, OrderlyLead, Done, HeldCell, NoRefKeys, Formed;
  }

  lemma CyclePut(v: View, v1: View, tags: map<string, Meta>, tags1: map<string, Meta>, p: Address, fields: Fields, a: Answer)
    requires !NoRefKeys(v.site.w, fields) && ReferenceDone(v, v1, tags, tags1, p, fields, a) && EndsCyclic(v.site.w, fields)
    ensures !a.res && IsMap(v1.mem, a.value)
    ensures
      var (v2, y) := Put(v1, a.value, MarkOf(v.site.w, p, fields));
      ResultDone(v, v2, tags1, p, fields, y) && v2.cache == v1.cache
  {
    hide Calm, Orderly, OrderlyLead, NoRefKeys, ReferenceDone, OnlyHere, OnlyFiles, HeldCell, Leads, Get, AddMetadata,
      Open, At, Plain,
      Marked, ShowsResult, SameAt;
    ReferenceParts(v, v1, tags, tags1, p, fields, a);
    ReferenceHeld(v, v1, tags, tags1, p, fields, a);
    var key := RefKey(v.site.w, fields);
    var px, ref, path := Child(p, Key(key)), fields[key], CyclePath(v.site.w, fields);
    CycleMap(v1, p, fields, a.value);
    CycleAt(v.site.w, v.site.full, p.path, fields);
    OpenBelow(v.site, p.path, path);
    var mark := MarkOf(v.site.w, p, fields);
    PlacePut(v1, tags1, Age(v1, a.value), Below(p, path), mark);
    var (v2, y) := Put(v1, a.value, mark);
    PutBelow(v1, v2, p, Key(key), path);
    HeldAfter(v, v1, v2, p, fields);
    CyclicResult(v2, p, y, fields, mark, false);
    if !NoRefKeys(v.site.w, ref.fields) {
      BelowChild(p, Key(key), CyclePath(v.site.w, ref.fields));
      LeftLooped(v1, v2, px, ref.fields);
    }
    assert ShowsLeft(Older(v2, y), px, ref);
  }

  lemma PutBelow(v: View, v': View, p: Address, step: Step, path: seq<Step>)
    requires path != [] && path[0] == step && v'.site == v.site && v'.doc == v.doc && v'.cache == v.cache
    requires v.mem.docs <= v'.mem.docs
    requires forall b: Address | b.doc < |v.mem.docs| && b != Below(p, path) :: SameAt(v.mem, v'.mem, b)
    ensures OnlyHere(v, v', Child(p, step))
  {
    assert Child(p, step).path <= Below(p, path).path;
  }

  /** What the references end in is an object. */
  lemma CycleMap(v: View, p: Address, fields: Fields, x: Val)
    requires !NoRefKeys(v.site.w, fields) && EndsCyclic(v.site.w, fields)
    requires Shows(v, Child(p, Key(RefKey(v.site.w, fields))), x, fields[RefKey(v.site.w, fields)], true)
    ensures x == Ref(Below(p, CyclePath(v.site.w, fields))) && IsMap(v.mem, x)
    ensures
      var ref := fields[RefKey(v.site.w, fields)];
      !NoRefKeys(v.site.w, ref.fields) ==>
        var px := Child(p, Key(RefKey(v.site.w, fields)));
        HeldCell(v, px, ref.fields) && ShowsLeft(v, Child(px, Key(RefKey(v.site.w, ref.fields))), ref.fields[RefKey(v.site.w, ref.fields)])
  {
    hide NoRefKeys, Get, Aside, HasMeta;
    var key := RefKey(v.site.w, fields);
    var px, ref := Child(p, Key(key)), fields[key];
    if NoRefKeys(v.site.w, ref.fields) {
      BelowChild(p, Key(key), []);
    } else {
      BelowChild(p, Key(key), CyclePath(v.site.w, ref.fields));
      CyclicResult(v, px, x, ref.fields, MarkOf(v.site.w, px, ref.fields), false);
    }
  }

  lemma ChainPut(v: View, v1: View, tags: map<string, Meta>, tags1: map<string, Meta>, p: Address, fields: Fields, a: Answer)
    requires !NoRefKeys(v.site.w, fields) && ReferenceDone(v, v1, tags, tags1, p, fields, a)
    requires fields[RefKey(v.site.w, fields)].Obj?
    requires !EndsCyclic(v.site.w, fields) && IsMap(v1.mem, a.value)
    ensures
      var (v2, y) := Put(v1, a.value, MarkOf(v.site.w, p, fields));
      ResultDone(v, v2, tags1, p, fields, y) && v2.cache == v1.cache
  {
    hide Calm, Orderly, NoRefKeys, ReferenceDone, OnlyHere, OnlyFiles, HeldCell, Leads, Get, AddMetadata, ShowsObject,
      Age, Older,
      ShowsResult, Aside, HoldsMeta, SameAt;
    ReferenceParts(v, v1, tags, tags1, p, fields, a);
    ReferenceHeld(v, v1, tags, tags1, p, fields, a);
    var key := RefKey(v.site.w, fields);
    var px, ref, mark, x := Child(p, Key(key)), fields[key], MarkOf(v.site.w, p, fields), a.value;
    ChainShows(v1, tags1, Age(v1, x), px, x, ref.fields);
    OwnAge(v1, x);
    OwnPut(v1, tags1, x, mark, px);
    var (v2, y) := Put(v1, x, mark);
    OwnHere(v, v1, v2, px, x);
    HeldDone(v, v2, p, fields);
    Remarked(v1, v2, px, x, ref.fields, MarkOf(v.site.w, px, ref.fields), false, mark);
    KeptOwn(v1, v2, px, x);
    ChainLeft(v1, v2, px, x, ref.fields);
    ChainResult(v2, p, x, fields, mark);
  }

  lemma HeldDone(v: View, v2: View, p: Address, fields: Fields)
    requires !NoRefKeys(v.site.w, fields) && OnlyHere(v, v2, Child(p, Key(RefKey(v.site.w, fields)))) && HeldCell(v, p, fields)
    requires p.doc !in Files(v.cache) && p.doc < |v.mem.docs|
    ensures OnlyHere(v, v2, p) && HeldCell(v2, p, fields) && v2.site == v.site
  {
    hide HeldCell, NoRefKeys;
    HereAbove(v, v2, p, Key(RefKey(v.site.w, fields)));
    HeldHere(v, v2, p, fields);
  }

  lemma OwnAge(v: View, x: Val)
    requires x.Ref? && x.at.path == [] && Aside(v, x.at.doc)
    ensures Age(v, x) == x.at.doc < |v.mem.docs|
  {
  }

  /** An object of its own that is new, and was changed. */
  lemma OwnHere(v: View, v1: View, v2: View, p: Address, x: Val)
    requires OnlyHere(v, v1, p) && v2.site == v1.site && v2.doc == v1.doc && v2.cache == v1.cache && v1.mem.docs <= v2.mem.docs
    requires x.Ref? && x.at.doc >= |v.mem.docs|
    requires forall a: Address | a.doc < |v1.mem.docs| && a != x.at :: SameAt(v1.mem, v2.mem, a)
    ensures OnlyHere(v, v2, p)
  {
    forall a: Address | a.doc < |v.mem.docs| && !Under(p, a) && !(a.path == [] && a.doc in Files(v.cache))
      ensures SameAt(v.mem, v2.mem, a)
    {
      assert SameAt(v.mem, v1.mem, a) && SameAt(v1.mem, v2.mem, a);
    }
  }

  /** What an object with a reference shows, if it stands under a reference and does not end in a cycle. */
  lemma ChainShows(v: View, tags: map<string, Meta>, limit: nat, p: Address, x: Val, fields: Fields)
    requires Calm(v, tags, limit) && Orderly(v.site, Obj(fields), true)
    requires !NoRefKeys(v.site.w, fields) && !EndsCyclic(v.site.w, fields) && Shows(v, p, x, Obj(fields), true)
    requires IsMap(v.mem, x)
    requires var lead := ReferenceLead(v.site, Obj(fields)); !(lead.File? && lead.j.Obj?)
    ensures OwnMarked(v, x) && ShowsResult(v, p, x, fields, MarkOf(v.site.w, p, fields), false) && HeldCell(v, p, fields)
    ensures Container(fields[RefKey(v.site.w, fields)]) ==>
              p.doc < |Older(v, x).mem.docs| && ShowsLeft(Older(v, x), Child(p, Key(RefKey(v.site.w, fields))), fields[RefKey(v.site.w, fields)])
    ensures var lead := ReferenceLead(v.site, fields[RefKey(v.site.w, fields)]); !(lead.File? && lead.j.Obj?)
  {
    hide NoRefKeys, Leads, Aside, HoldsMeta, Older, HeldCell, Calm, OrderlyString, OrderlyLead, ShowsLead, ShowsObject;
    var ref := fields[RefKey(v.site.w, fields)];
    var lead := ReferenceLead(v.site, ref);
    if lead.Section? && !lead.j.Obj? && !ref.Obj? {
      SectionNoMap(v, tags, limit, ref.s, true, x, Some(MarkOf(v.site.w, p, fields)));
    } else {
      OwnResult(v, p, x, fields, MarkOf(v.site.w, p, fields), false);
    }
  }

  lemma ChainLeft(v: View, v': View, p: Address, x: Val, fields: Fields)
    requires !NoRefKeys(v.site.w, fields) && HeldCell(v, p, fields) && v'.site == v.site
    requires Kept(Older(v, x), Older(v', x), p) && p.doc < |Older(v, x).mem.docs| && OwnMarked(v, x)
    requires Container(fields[RefKey(v.site.w, fields)]) ==>
               ShowsLeft(Older(v, x), Child(p, Key(RefKey(v.site.w, fields))), fields[RefKey(v.site.w, fields)])
    ensures ShowsLeft(Older(v', x), p, Obj(fields)) && p.doc < |Older(v', x).mem.docs|
  {
    hide NoRefKeys, Kept, HeldCell, Get, Shows;
    var key := RefKey(v.site.w, fields);
    HeldTrunc(v, p, fields, x.at.doc);
    HeldStays(Older(v, x), Older(v', x), p, fields);
    KeptDoc(Older(v, x), Older(v', x), p);
    KeptChild(Older(v, x), Older(v', x), p, Key(key));
    if Container(fields[key]) {
      LeftStays(Older(v, x), Older(v', x), Child(p, Key(key)), fields[key]);
    }
  }

  lemma KeptDoc(v: View, v': View, p: Address)
    requires Kept(v, v', p)
    ensures p.doc < |v'.mem.docs| && v'.site == v.site
  {
  }

  lemma ChainResult(v: View, p: Address, y: Val, fields: Fields, mark: Mark)
    requires !NoRefKeys(v.site.w, fields) && HeldCell(v, p, fields) && mark == MarkOf(v.site.w, p, fields)
    requires fields[RefKey(v.site.w, fields)].Obj? && !NoRefKeys(v.site.w, fields[RefKey(v.site.w, fields)].fields)
    requires ShowsResult(v, Child(p, Key(RefKey(v.site.w, fields))), y, fields[RefKey(v.site.w, fields)].fields, mark, true)
    requires p.doc < |Older(v, y).mem.docs|
    requires ShowsLeft(Older(v, y), Child(p, Key(RefKey(v.site.w, fields))), fields[RefKey(v.site.w, fields)])
    ensures Shows(v, p, y, Obj(fields), false)
  {
    hide NoRefKeys, HeldCell, Older, ShowsLeft;
    assert ShowsResult(v, p, y, fields, mark, false);
  }

  /** A section that is no object was put in under a reference under a reference: it is dropped. */
  lemma DroppedPut(v: View, v1: View, tags: map<string, Meta>, tags1: map<string, Meta>, p: Address, fields: Fields, a: Answer)
    requires !NoRefKeys(v.site.w, fields) && ReferenceDone(v, v1, tags, tags1, p, fields, a)
    requires fields[RefKey(v.site.w, fields)].Obj?
    requires !EndsCyclic(v.site.w, fields) && !IsMap(v1.mem, a.value)
    ensures
      var (v2, y) := Put(v1, a.value, MarkOf(v.site.w, p, fields));
      ResultDone(v, v2, tags1, p, fields, y) && v2.cache == v1.cache
  {
    hide Calm, Orderly, NoRefKeys, ReferenceDone, OnlyHere, OnlyFiles, HeldCell, Leads, Get, AddMetadata, ShowsObject,
      Age, Older,
      ShowsResult, Aside, HoldsMeta, SameAt;
    ReferenceParts(v, v1, tags, tags1, p, fields, a);
    ReferenceHeld(v, v1, tags, tags1, p, fields, a);
    var key := RefKey(v.site.w, fields);
    var px, ref, mark := Child(p, Key(key)), fields[key], MarkOf(v.site.w, p, fields);
    DroppedShows(v1, px, a.value, ref.fields);
    NothingPut(v1, tags1, Age(v1, a.value), a.value, mark, px);
    var (v2, y) := Put(v1, a.value, mark);
    HeldAfter(v, v1, v2, p, fields);
    KeptFiles(v1, Older(v2, y), px);
    HeldStays(v1, Older(v2, y), px, ref.fields);
    DroppedResult(v2, px, y, ref.fields, mark);
    ChainResult(v2, p, y, fields, mark);
  }

  lemma DroppedShows(v: View, p: Address, x: Val, fields: Fields)
    requires !NoRefKeys(v.site.w, fields) && !EndsCyclic(v.site.w, fields) && Shows(v, p, x, Obj(fields), true)
    requires !IsMap(v.mem, x)
    requires var lead := ReferenceLead(v.site, Obj(fields)); !(lead.File? && lead.j.Obj?)
    ensures
      var lead := ReferenceLead(v.site, fields[RefKey(v.site.w, fields)]);
      HeldCell(v, p, fields) && lead.Section? && !lead.j.Obj? && !Container(fields[RefKey(v.site.w, fields)])
  {
    hide NoRefKeys, Leads, Aside, HoldsMeta, Older, HeldCell, ShowsObject, ShowsLead;
    var ref := fields[RefKey(v.site.w, fields)];
    var lead := ReferenceLead(v.site, ref);
    if !lead.Section? || lead.j.Obj? || ref.Obj? {
      OwnResult(v, p, x, fields, MarkOf(v.site.w, p, fields), false);
    }
  }

  lemma DroppedResult(v: View, p: Address, y: Val, fields: Fields, mark: Mark)
    requires !NoRefKeys(v.site.w, fields) && ShowsObject(v, y, map[], Some(mark))
    requires
      var lead := ReferenceLead(v.site, fields[RefKey(v.site.w, fields)]);
      lead.Section? && !lead.j.Obj? && !Container(fields[RefKey(v.site.w, fields)])
    ensures ShowsResult(v, p, y, fields, mark, true)
  {
    hide NoRefKeys, Leads, ShowsObject;
  }

  /** A reference that is no container and puts in no object. */
  lemma NothingLeft(v: View, v1: View, tags: map<string, Meta>, tags1: map<string, Meta>, p: Address, fields: Fields, a: Answer)
    requires !NoRefKeys(v.site.w, fields) && ReferenceDone(v, v1, tags, tags1, p, fields, a)
    requires !Container(fields[RefKey(v.site.w, fields)]) && !IsMap(v1.mem, a.value)
    requires var lead := ReferenceLead(v.site, fields[RefKey(v.site.w, fields)]); lead.Nowhere? || (lead.File? && !lead.j.Obj?)
    ensures
      var (v2, y) := Put(v1, a.value, MarkOf(v.site.w, p, fields));
      ResultDone(v, v2, tags1, p, fields, y) && v2.cache == v1.cache
  {
    hide Calm, Orderly, OrderlyLead, NoRefKeys, ReferenceDone, OnlyHere, OnlyFiles, HeldCell, Leads, Get, AddMetadata,
      ShowsObject, Age,
      Older, Shows;
    ReferenceParts(v, v1, tags, tags1, p, fields, a);
    ReferenceHeld(v, v1, tags, tags1, p, fields, a);
    var mark := MarkOf(v.site.w, p, fields);
    NothingPut(v1, tags1, Age(v1, a.value), a.value, mark, Child(p, Key(RefKey(v.site.w, fields))));
    var (v2, y) := Put(v1, a.value, mark);
    HeldAfter(v, v1, v2, p, fields);
    AtomShows(v2, p, y, fields);
  }

  lemma AtomShows(v: View, p: Address, y: Val, fields: Fields)
    requires !NoRefKeys(v.site.w, fields) && !Container(fields[RefKey(v.site.w, fields)]) && HeldCell(v, p, fields)
    requires ShowsResult(v, p, y, fields, MarkOf(v.site.w, p, fields), false)
    ensures Shows(v, p, y, Obj(fields), false)
  {
    hide NoRefKeys, HeldCell, Older, ShowsResult;
  }

  /** The object of a file gets the reference as metadata. */
  lemma FileLeft(v: View, v1: View, tags: map<string, Meta>, tags1: map<string, Meta>, p: Address, fields: Fields, a: Answer)
    requires !NoRefKeys(v.site.w, fields) && ReferenceDone(v, v1, tags, tags1, p, fields, a)
    requires fields[RefKey(v.site.w, fields)].Str?
    requires var lead := ReferenceLead(v.site, fields[RefKey(v.site.w, fields)]); lead.File? && lead.j.Obj?
    ensures IsMap(v1.mem, a.value)
    ensures
      var (v2, y) := Put(v1, a.value, MarkOf(v.site.w, p, fields));
      var ref := fields[RefKey(v.site.w, fields)];
      ResultDone(v, v2, NewTags(v.site, ref, |fields| == 1, tags1), p, fields, y) && v2.cache == v1.cache
  {
    hide Settled, Anchors, Orderly, NoRefKeys, ReferenceDone, OnlyHere, OnlyFiles, HeldCell, Leads, Get, AddMetadata,
      ShowsObject, Age,
      Older, Shows, IsMap;
    ReferenceParts(v, v1, tags, tags1, p, fields, a);
    ReferenceHeld(v, v1, tags, tags1, p, fields, a);
    var ref := fields[RefKey(v.site.w, fields)];
    var file, m, mark := Leads(v.site, ref.s, true).file, Meta(ref, |fields| == 1), MarkOf(v.site.w, p, fields);
    StringShows(v1, Child(p, Key(RefKey(v.site.w, fields))), a.value, ref.s);
    FileIs(v1, tags1, Age(v1, a.value), file);
    LeadIsFile(v.site, ref.s, true);
    IsFileMap(v1, tags1, Age(v1, a.value), file);
    FilePut(v1, tags1, Age(v1, a.value), file, m, Child(p, Key(RefKey(v.site.w, fields))));
    var (v2, y) := Put(v1, a.value, mark);
    HeldAfter(v, v1, v2, p, fields);
    AtomShows(v2, p, y, fields);
  }

  lemma StringShows(v: View, p: Address, x: Val, s: string)
    requires Shows(v, p, x, Str(s), true)
    ensures ShowsLead(v, x, s, true, None)
  {
  }

  /** The copy of a section gets the reference as metadata. */
  lemma CopyLeft(v: View, v1: View, tags: map<string, Meta>, tags1: map<string, Meta>, p: Address, fields: Fields, a: Answer)
    requires !NoRefKeys(v.site.w, fields) && ReferenceDone(v, v1, tags, tags1, p, fields, a)
    requires fields[RefKey(v.site.w, fields)].Str?
    requires var lead := ReferenceLead(v.site, fields[RefKey(v.site.w, fields)]); lead.Section? && lead.j.Obj?
    ensures IsMap(v1.mem, a.value)
    ensures
      var (v2, y) := Put(v1, a.value, MarkOf(v.site.w, p, fields));
      ResultDone(v, v2, tags1, p, fields, y) && v2.cache == v1.cache
  {
    hide Calm, Orderly, OrderlyLead, NoRefKeys, ReferenceDone, OnlyHere, OnlyFiles, HeldCell, Leads, Get, AddMetadata, Age,
      Older, Shows, Aside, HoldsMeta, Sections, Parts, SameAt;
    ReferenceParts(v, v1, tags, tags1, p, fields, a);
    ReferenceHeld(v, v1, tags, tags1, p, fields, a);
    var ref, px, x := fields[RefKey(v.site.w, fields)], Child(p, Key(RefKey(v.site.w, fields))), a.value;
    var mark := MarkOf(v.site.w, p, fields);
    StringShows(v1, px, x, ref.s);
    OwnAge(v1, x);
    OwnPut(v1, tags1, x, mark, px);
    var (v2, y) := Put(v1, x, mark);
    OwnHere(v, v1, v2, px, x);
    HeldDone(v, v2, p, fields);
    assert ShowsLead(v2, x, ref.s, true, Some(mark));
    AtomShows(v2, p, y, fields);
  }

  /** A section that is no object is put in as it is. */
  lemma SectionLeft(v: View, v1: View, tags: map<string, Meta>, tags1: map<string, Meta>, p: Address, fields: Fields, a: Answer)
    requires !NoRefKeys(v.site.w, fields) && ReferenceDone(v, v1, tags, tags1, p, fields, a)
    requires fields[RefKey(v.site.w, fields)].Str?
    requires var lead := ReferenceLead(v.site, fields[RefKey(v.site.w, fields)]); lead.Section? && !lead.j.Obj?
    ensures a.res && !IsMap(v1.mem, a.value) && ResultDone(v, v1, tags1, p, fields, a.value)
  {
    hide Calm, OrderlyString, OrderlyLead, NoRefKeys, ReferenceDone, OnlyHere, OnlyFiles, HeldCell, Leads, Age,
      Older, Shows, Sections, Parts, SameAt, IsMap;
    ReferenceParts(v, v1, tags, tags1, p, fields, a);
    ReferenceHeld(v, v1, tags, tags1, p, fields, a);
    var ref := fields[RefKey(v.site.w, fields)];
    StringShows(v1, Child(p, Key(RefKey(v.site.w, fields))), a.value, ref.s);
    SectionNoMap(v1, tags1, Age(v1, a.value), ref.s, true, a.value, None);
    AtomShows(v1, p, a.value, fields);
  }

  /** An object with a reference has given way to what the reference leads to, with metadata. */
  lemma ReferencePut(v: View, v1: View, v2: View, tags: map<string, Meta>, tags1: map<string, Meta>, p: Address, fields: Fields,
                     refBool: bool, a: Answer, y: Val)
    requires Orderly(v.site, Obj(fields), refBool) && !NoRefKeys(v.site.w, fields)
    requires ReferenceDone(v, v1, tags, tags1, p, fields, a)
    requires
      if IsMap(v1.mem, a.value) || !a.res then (v2, y) == Put(v1, a.value, MarkOf(v.site.w, p, fields))
      else v2 == v1 && y == a.value
    ensures
      var ref := fields[RefKey(v.site.w, fields)];
      Done(v, v2, tags, NewTags(v.site, ref, |fields| == 1, tags1), p, Obj(fields), refBool, Answer(y, false))
  {
    hide Calm, OrderlyString, OrderlyLead, NoRefKeys, OnlyHere, OnlyFiles, HeldCell, Leads, Age, Older, Shows, SameAt,
      IsMap, Orderly,
      AddMetadata, Fetched, Latest, EndsCyclic;
    var ref := fields[RefKey(v.site.w, fields)];
    ReferenceTags(v.site, fields, refBool, tags, tags1);
    FetchedField(v, v1, fields, RefKey(v.site.w, fields));
    ReferenceCases(v, v1, v2, tags, tags1, p, fields, a, y);
    ShowsEither(v2, p, y, fields, refBool);
    FetchedSame(v, v1, v2, Obj(fields));
  }

  lemma ShowsEither(v: View, p: Address, x: Val, fields: Fields, refBool: bool)
    requires Shows(v, p, x, Obj(fields), false)
    ensures Shows(v, p, x, Obj(fields), refBool)
  {
    hide ShowsResult, ShowsLeft, HeldCell, Older, NoRefKeys, Get;
  }

  lemma ReferenceCases(v: View, v1: View, v2: View, tags: map<string, Meta>, tags1: map<string, Meta>, p: Address,
                       fields: Fields,
                       a: Answer, y: Val)
    requires !NoRefKeys(v.site.w, fields) && ReferenceDone(v, v1, tags, tags1, p, fields, a) && a.Answer?
    requires
      if IsMap(v1.mem, a.value) || !a.res then (v2, y) == Put(v1, a.value, MarkOf(v.site.w, p, fields))
      else v2 == v1 && y == a.value
    ensures
      var ref := fields[RefKey(v.site.w, fields)];
      ResultDone(v, v2, NewTags(v.site, ref, |fields| == 1, tags1), p, fields, y) && v2.cache == v1.cache && v2.site == v.site
  {
    hide Calm, Orderly, NoRefKeys, ReferenceDone, OnlyHere, OnlyFiles, HeldCell, Leads, Age, Older, Shows, SameAt, IsMap,
      AddMetadata,
      ResultDone, OrderlyLead;
    ReferenceParts(v, v1, tags, tags1, p, fields, a);
    var ref, px := fields[RefKey(v.site.w, fields)], Child(p, Key(RefKey(v.site.w, fields)));
    match ref
    case List(_) => ListPut(v, v1, tags, tags1, p, fields, a);
    case Obj(inner) =>
      if EndsCyclic(v.site.w, fields) {
        CyclePut(v, v1, tags, tags1, p, fields, a);
      } else if IsMap(v1.mem, a.value) {
        ChainPut(v, v1, tags, tags1, p, fields, a);
      } else {
        DroppedPut(v, v1, tags, tags1, p, fields, a);
      }
    case Str(s) =>
      var lead := Leads(v.site, s, true);
      if lead.File? && lead.j.Obj? {
        FileLeft(v, v1, tags, tags1, p, fields, a);
      } else if lead.Section? && lead.j.Obj? {
        CopyLeft(v, v1, tags, tags1, p, fields, a);
      } else if lead.Section? {
        SectionLeft(v, v1, tags, tags1, p, fields, a);
      } else {
        NoMapLeft(v1, tags1, Age(v1, a.value), px, a.value, s);
        NothingLeft(v, v1, tags, tags1, p, fields, a);
      }
    case _ =>
      AtomNoMap(v1, px, a.value, ref);
      NothingLeft(v, v1, tags, tags1, p, fields, a);
  }

  lemma AtomNoMap(v: View, p: Address, x: Val, ref: Json)
    requires Shows(v, p, x, ref, true) && !Container(ref) && !ref.Str?
    ensures !IsMap(v.mem, x)
  {
  }

  lemma NoMapLeft(v: View, tags: map<string, Meta>, limit: nat, p: Address, x: Val, s: string)
    requires Shows(v, p, x, Str(s), true) && Calm(v, tags, limit)
    requires var lead := Leads(v.site, s, true); lead.Nowhere? || (lead.File? && !lead.j.Obj?)
    ensures !IsMap(v.mem, x)
  {
    hide Anchors, Settled, Leads, Get;
    StringShows(v, p, x, s);
    if Leads(v.site, s, true).File? {
      IsFileMap(v, tags, limit, Leads(v.site, s, true).file);
      FileIs(v, tags, limit, Leads(v.site, s, true).file);
      LeadIsFile(v.site, s, true);
    }
  }
}
