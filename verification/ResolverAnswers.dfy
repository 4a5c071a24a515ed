/** What a string gives way to in memory: the object of a file, a section, or itself. */
module ResolverAnswers {
  import opened Wrappers
  import opened YamlDocument
  import opened SharedMemory
  import opened References
  import opened ResolverMemory

  // ---- Taking sections ----

  /** Where the search for a section ends in a tree that was decoded at `a`. */
  function Found(a: Address, j: Json, sections: seq<string>): Option<Val> {
    match FindSection(j, sections)
    case None => None
    case Some(k) => Some(Slot(Address(a.doc, a.path + Keys(sections)), k))
  }

  lemma OneKeyMore(a: Address, sections: seq<string>)
    requires sections != []
    ensures Keys(sections) == [Key(sections[0])] + Keys(sections[1..])
    ensures a.path + Keys(sections) == Child(a, Key(sections[0])).path + Keys(sections[1..])
  {
  }

  lemma {:induction false} SectionIsAt(j: Json, sections: seq<string>)
    ensures FindSection(j, sections) == At(j, Keys(sections))
    decreases sections
  {
    if sections != [] {
      OneKeyMore(Root(0), sections);
      assert Keys(sections)[1..] == Keys(sections[1..]);
      if j.Obj? && sections[0] in j.fields {
        SectionIsAt(j.fields[sections[0]], sections[1..]);
      }
    }
  }

  lemma {:induction false} FindUntouched(mem: Memory, a: Address, j: Json, sections: seq<string>)
    requires Untouched(mem, a, j)
    ensures FindIn(mem, Slot(a, j), sections) == Found(a, j, sections)
    decreases sections
  {
    if sections == [] {
      assert a.path + Keys([]) == a.path;
    } else if Container(j) {
      UntouchedCell(mem, a, j);
      if j.Obj? && sections[0] in j.fields {
        OneKeyMore(a, sections);
        UntouchedChild(mem, a, j, Key(sections[0]));
        FindUntouched(mem, Child(a, Key(sections[0])), j.fields[sections[0]], sections[1..]);
      }
    }
  }

  /** In the object of a file a section is found as in the file. */
  lemma FindInFile(v: View, tags: map<string, Meta>, limit: nat, file: string, sections: seq<string>)
    requires Settled(v, tags, limit) && file in v.cache && sections != [] && sections[0] != "RefMetadata"
    ensures
      var d := v.cache[file].doc;
      && FindIn(v.mem, Slot(Root(d), v.mem.docs[d]), sections) == Found(Root(d), v.mem.docs[d], sections)
      && (FindSection(v.mem.docs[d], sections).Some? ==>
            Untouched(v.mem, Address(d, Keys(sections)), FindSection(v.mem.docs[d], sections).value))
  {
    var d := v.cache[file].doc;
    var j := v.mem.docs[d];
    assert Tagged(v, file, tags, limit);
    if j.Obj? {
      FileCell(v, tags, limit, file);
      KeyElsewhere(Get(v.mem, Root(d)).vals, CellOf(Root(d), j).vals, sections[0]);
      if sections[0] in j.fields {
        OneKeyMore(Root(d), sections);
        InFile(v, tags, limit, file, sections[0]);
        FindUntouched(v.mem, Child(Root(d), Key(sections[0])), j.fields[sections[0]], sections[1..]);
        if FindSection(j, sections).Some? {
          SectionIsAt(j.fields[sections[0]], sections[1..]);
          UntouchedBelow(v.mem, Child(Root(d), Key(sections[0])), j.fields[sections[0]], Keys(sections[1..]));
          assert [] + Keys(sections) == Keys(sections);
        }
      }
    } else if j.List? {
      ListOfFile(v, tags, limit, file);
    }
  }

  lemma KeyElsewhere(vals: map<string, Val>, other: map<string, Val>, key: string)
    requires SameFields(vals, other) && key != "RefMetadata"
    ensures key in vals <==> key in other
    ensures key in vals ==> vals[key] == other[key]
  {
    assert key in vals <==> key in vals - {"RefMetadata"};
    assert key in other <==> key in other - {"RefMetadata"};
    assert key in vals ==> vals[key] == (vals - {"RefMetadata"})[key];
  }

  lemma InFile(v: View, tags: map<string, Meta>, limit: nat, file: string, key: string)
    requires Settled(v, tags, limit) && file in v.cache
    requires v.mem.docs[v.cache[file].doc].Obj? && key in v.mem.docs[v.cache[file].doc].fields
    ensures
      var d := v.cache[file].doc;
      Untouched(v.mem, Child(Root(d), Key(key)), v.mem.docs[d].fields[key])
  {
    var d := v.cache[file].doc;
    assert Tagged(v, file, tags, limit);
    AtChild(v.mem.docs[d], [], Key(key));
  }

  lemma ListOfFile(v: View, tags: map<string, Meta>, limit: nat, file: string)
    requires Settled(v, tags, limit) && file in v.cache && !v.mem.docs[v.cache[file].doc].Obj?
    ensures Untouched(v.mem, Root(v.cache[file].doc), v.mem.docs[v.cache[file].doc])
    ensures v.mem.docs[v.cache[file].doc].List? ==> Get(v.mem, Root(v.cache[file].doc)).ListCell?
  {
    var d := v.cache[file].doc;
    assert Tagged(v, file, tags, limit);
    assert Root(d) !in v.mem.changed;
    assert forall a | a in v.mem.changed && a.doc == d :: a == Root(d);
    forall a | a in v.mem.changed ensures !Under(Root(d), a) {}
  }

  /** An anchored section is found as in the document before anything was resolved. */
  lemma {:induction false} FindAnchored(v: View, path: seq<Step>, j: Json, sections: seq<string>)
    requires Anchors(v) && At(v.site.full, path) == Some(j) && Plain(v.site, v.site.full, path) && Anchored(v.site, j, sections)
    ensures FindIn(v.mem, Slot(Address(v.doc, path), j), sections) == Found(Address(v.doc, path), j, sections)
    ensures FindSection(j, sections).Some? ==>
              Untouched(v.mem, Address(v.doc, path + Keys(sections)), FindSection(j, sections).value)
    decreases sections
  {
    hide Still, NoRefKeys, Untouched, Plain;
    var a := Address(v.doc, path);
    assert AnchoredAt(v, path, j);
    if sections == [] {
      assert path + Keys([]) == path;
    } else {
      OneKeyMore(a, sections);
      AtChild(v.site.full, path, Key(sections[0]));
      if sections[0] in j.fields {
        PlainChild(v.site, v.site.full, path, sections[0]);
        FindAnchored(v, path + [Key(sections[0])], j.fields[sections[0]], sections[1..]);
        assert Steady(v.site, j.fields[sections[0]]);
      }
    }
  }

  lemma {:induction false} PlainChild(site: Site, j: Json, path: seq<Step>, key: string)
    requires Plain(site, j, path) && At(j, path).Some? && At(j, path).value.Obj?
    requires NoRefKeys(site.w, At(j, path).value.fields) && key in At(j, path).value.fields
    ensures Plain(site, j, path + [Key(key)])
    decreases path
  {
    if path != [] {
      PlainChild(site, j.fields[path[0].name], path[1..], key);
      assert (path + [Key(key)])[1..] == path[1..] + [Key(key)];
    }
  }

  lemma {:induction false} CircularUntouched(mem: Memory, value: string, a: Address, j: Json, depth: nat)
    requires Untouched(mem, a, j)
    ensures CircularIn(mem, value, Slot(a, j), depth) <==> Circular(value, j, depth)
    decreases depth
  {
    if depth > 0 && Container(j) {
      UntouchedCell(mem, a, j);
      match j
      case Obj(fields) =>
        forall key | key in fields
          ensures CircularIn(mem, value, CellOf(a, j).vals[key], depth - 1) <==> Circular(value, fields[key], depth - 1)
        {
          UntouchedChild(mem, a, j, Key(key));
          CircularUntouched(mem, value, Child(a, Key(key)), fields[key], depth - 1);
        }
        KeysCircular(mem, value, a, fields, depth);
      case List(items) =>
        forall i | 0 <= i < |items|
          ensures CircularIn(mem, value, CellOf(a, j).elems[i], depth - 1) <==> Circular(value, items[i], depth - 1)
        {
          UntouchedChild(mem, a, j, Index(i));
          CircularUntouched(mem, value, Child(a, Index(i)), items[i], depth - 1);
        }
        ItemsCircular(mem, value, a, items, depth);
    }
  }

  lemma KeysCircular(mem: Memory, value: string, a: Address, fields: Fields, depth: nat)
    requires depth > 0 && Get(mem, a) == CellOf(a, Obj(fields))
    requires forall key | key in fields ::
               CircularIn(mem, value, CellOf(a, Obj(fields)).vals[key], depth - 1) <==> Circular(value, fields[key], depth - 1)
    ensures CircularIn(mem, value, Ref(a), depth) <==> Circular(value, Obj(fields), depth)
  {
    hide Get;
    var vals := CellOf(a, Obj(fields)).vals;
    assert forall key | key in fields :: vals[key] == Atom(Str(value)) <==> fields[key] == Str(value);
    assert vals.Keys == fields.Keys;
  }

  lemma ItemsCircular(mem: Memory, value: string, a: Address, items: seq<Json>, depth: nat)
    requires depth > 0 && Get(mem, a) == CellOf(a, List(items))
    requires forall i | 0 <= i < |items| ::
               CircularIn(mem, value, CellOf(a, List(items)).elems[i], depth - 1) <==> Circular(value, items[i], depth - 1)
    ensures CircularIn(mem, value, Ref(a), depth) <==> Circular(value, List(items), depth)
  {
    hide Get;
    var elems := CellOf(a, List(items)).elems;
    assert |elems| == |items|;
  }

  // ---- What a string gives way to ----

  /** Only objects of files have changed, and documents were added. */
  ghost predicate OnlyFiles(v: View, v': View) {
    && v'.site == v.site && v'.doc == v.doc && v.mem.docs <= v'.mem.docs && CacheGrown(v, v')
    && forall a: Address | a.doc < |v.mem.docs| && !(a.path == [] && a.doc in Files(v.cache)) :: SameAt(v.mem, v'.mem, a)
  }

  /** Only files that `value` can lead to were loaded. */
  ghost predicate Fetched(v: View, v': View, value: Json) {
    forall file | file in v'.cache && file !in v.cache :: exists n :: Reaches(v.site, value, file, n)
  }

  /** How many documents are older than `x`, if it is an object of its own. */
  function Age(v: View, x: Val): nat {
    |Older(v, x).mem.docs|
  }

  /** While a string is resolved, files may be loaded. */
  ghost predicate Loading(v: View, v': View, tags: map<string, Meta>, tags': map<string, Meta>, s: string) {
    OnlyFiles(v, v') && Latest(NO_USES, v.site.plan.more, tags, tags') && Fetched(v, v', Str(s))
  }

  /** A string has given way to what it leads to, if to anything. The copy of a section is new, and no
      metadata of a file. */
  ghost predicate LeadDone(v: View, v': View, tags: map<string, Meta>, tags': map<string, Meta>, s: string, refBool: bool,
                           a: Answer) {
    var lead := Leads(v.site, s, refBool);
    && a.Answer? && a.res == lead.Section? && Loading(v, v', tags, tags', s) && ShowsLead(v', a.value, s, refBool, None)
    && Calm(v', tags', Age(v', a.value)) && (lead.Section? && lead.j.Obj? ==> a.value.at.doc >= |v.mem.docs|)
  }

  lemma LatestSame(more: iset<(string, Meta)>, tags: map<string, Meta>)
    ensures Latest(NO_USES, more, tags, tags)
  {
  }

  lemma LeadNowhere(v: View, tags: map<string, Meta>, s: string, refBool: bool)
    requires Calm(v, tags, |v.mem.docs|) && Leads(v.site, s, refBool).Nowhere?
    ensures LeadDone(v, v, tags, tags, s, refBool, Answer(Atom(Str(s)), false))
  {
    hide Leads, Calm;
    LatestSame(v.site.plan.more, tags);
  }

  lemma LeadLater(v: View, v1: View, v2: View, tags: map<string, Meta>, tags1: map<string, Meta>, tags2: map<string, Meta>,
                  s: string, refBool: bool, a: Answer)
    requires Loading(v, v1, tags, tags1, s) && LeadDone(v1, v2, tags1, tags2, s, refBool, a)
    ensures LeadDone(v, v2, tags, tags2, s, refBool, a)
  {
    hide Leads, Calm, ShowsLead, OnlyFiles, Latest, Age;
    FilesSame(v, v1);
    FilesThen(v, v1, v2);
    LatestThen(NO_USES, NO_USES, v.site.plan.more, tags, tags1, tags2);
    assert NO_USES + NO_USES == NO_USES;
  }

  lemma FilesSame(v: View, v1: View)
    requires OnlyFiles(v, v1)
    ensures v1.site == v.site && v1.doc == v.doc && |v.mem.docs| <= |v1.mem.docs|
  {
  }

  lemma OldFile(v: View, v1: View, file: string)
    requires CacheGrown(v, v1) && file in v1.cache && v1.cache[file].doc < |v.mem.docs|
    ensures v1.cache[file].doc in Files(v.cache)
  {
  }

  lemma OldFiles(v: View, v1: View)
    requires CacheGrown(v, v1)
    ensures forall d | d in Files(v1.cache) && d < |v.mem.docs| :: d in Files(v.cache)
  {
    forall d | d in Files(v1.cache) && d < |v.mem.docs| ensures d in Files(v.cache) {
      var file :| file in v1.cache && v1.cache[file].doc == d;
      OldFile(v, v1, file);
    }
  }

  lemma GrownThen(v: View, v1: View, v2: View)
    requires CacheGrown(v, v1) && CacheGrown(v1, v2) && v.mem.docs <= v1.mem.docs
    ensures CacheGrown(v, v2)
  {
  }

  lemma FilesThen(v: View, v1: View, v2: View)
    requires OnlyFiles(v, v1) && OnlyFiles(v1, v2)
    ensures OnlyFiles(v, v2)
  {
    hide CacheGrown, Files;
    OldFiles(v, v1);
    GrownThen(v, v1, v2);
    forall a: Address | a.doc < |v.mem.docs| && !(a.path == [] && a.doc in Files(v.cache)) ensures SameAt(v.mem, v2.mem, a) {
      assert SameAt(v.mem, v1.mem, a) && SameAt(v1.mem, v2.mem, a);
    }
  }

  /** The search for a section in memory ends where it ends in the tree, at a place that is still as it
      was decoded. */
  ghost predicate WellFound(v: View, s: string, place: Address, obj: Json) {
    && NamesSection(v.site, s) && ("#" <= s || OnlyFilePath(v.site, s) in v.cache)
    && var sections := Sections(Parts(v.site, s)[1]);
    && SectionAt(v, s) == Address(place.doc, place.path + Keys(sections))
    && FindIn(v.mem, Slot(place, obj), sections) == Found(place, obj, sections)
    && (FindSection(obj, sections).Some? ==> Untouched(v.mem, SectionAt(v, s), FindSection(obj, sections).value))
  }

  lemma SectionTaken(v: View, v': View, tags: map<string, Meta>, s: string, refBool: bool, place: Address, obj: Json)
    requires Calm(v, tags, |v.mem.docs|) && Formed(v.mem)
    requires WellFound(v, s, place, obj) && Leads(v.site, s, refBool) == SectionLead(v.site, s, obj)
    requires v' == v.(mem := TakeSection(v.site.w, v.mem, s, Parts(v.site, s), Slot(place, obj)).0)
    ensures LeadDone(v, v', tags, tags, s, refBool, TakeSection(v.site.w, v.mem, s, Parts(v.site, s), Slot(place, obj)).1)
  {
    hide Leads, Calm, Circular, CircularIn, FindIn, Parts, Sections, FindSection, Get, Untouched, OnlyFiles, Latest;
    var sections := Sections(Parts(v.site, s)[1]);
    LatestSame(v.site.plan.more, tags);
    match FindSection(obj, sections)
    case None => LeadNowhere(v, tags, s, refBool);
    case Some(j) =>
      var at := SectionAt(v, s);
      CircularUntouched(v.mem, s, at, j, v.site.w.maxDepth);
      if Circular(s, j, v.site.w.maxDepth) {
        LeadNowhere(v, tags, s, refBool);
      } else {
        if Container(j) {
          UntouchedCell(v.mem, at, j);
        }
        if j.Obj? {
          CopyTaken(v, v', tags, CellOf(at, j));
        } else {
          NothingTaken(v);
          SectionInside(s, v.site);
        }
      }
  }

  lemma NothingTaken(v: View)
    ensures OnlyFiles(v, v)
  {
  }

  lemma SectionInside(s: string, site: Site)
    requires NamesSection(site, s)
    ensures Keys(Sections(Parts(site, s)[1])) != []
  {
  }

  lemma CopyTaken(v: View, v': View, tags: map<string, Meta>, cell: Cell)
    requires Calm(v, tags, |v.mem.docs|) && Formed(v.mem) && v' == v.(mem := New(v.mem, cell)) && cell.MapCell?
    ensures Calm(v', tags, |v.mem.docs|) && OnlyFiles(v, v') && Age(v', Ref(Root(|v.mem.docs|))) == |v.mem.docs|
    ensures ShowsObject(v', Ref(Root(|v.mem.docs|)), cell.vals, None)
  {
    hide Settled, Anchors;
    AnchorsDoc(v);
    SettledElsewhere(v, v', tags, |v.mem.docs|);
    AnchorsElsewhere(v, v');
    FilesBound(v, tags, |v.mem.docs|);
  }

  lemma AnchorsDoc(v: View)
    requires Anchors(v)
    ensures v.doc < |v.mem.docs| && v.mem.docs[v.doc] == v.site.full
  {
  }

  lemma FullDecoded(v: View)
    requires Anchors(v)
    ensures At(v.site.full, []) == Some(v.site.full) && Plain(v.site, v.site.full, []) && v.doc < |v.mem.docs|
    ensures v.mem.docs[v.doc] == v.site.full
  {
  }

  lemma FileIs(v: View, tags: map<string, Meta>, limit: nat, file: string)
    requires Settled(v, tags, limit) && file in v.cache
    ensures v.cache[file].doc < |v.mem.docs| && v.site.plan.objs(file) == Some(v.mem.docs[v.cache[file].doc])
  {
    assert Tagged(v, file, tags, limit);
  }

  /** The section that a string leads to is still in memory as it was decoded. */
  lemma SectionThere(v: View, tags: map<string, Meta>, limit: nat, s: string, refBool: bool)
    requires Calm(v, tags, limit) && OrderlyString(v.site, s, refBool) && Leads(v.site, s, refBool).Section?
    requires "#" <= s || OnlyFilePath(v.site, s) in v.cache
    ensures NamesSection(v.site, s) && Untouched(v.mem, SectionAt(v, s), Leads(v.site, s, refBool).j)
  {
    hide Anchors, Settled, Anchored, Untouched, FindSection, Parts, Sections, Circular, Plain;
    var sections := Sections(Parts(v.site, s)[1]);
    if "#" <= s {
      FullDecoded(v);
      FindAnchored(v, [], v.site.full, sections);
      assert [] + Keys(sections) == Keys(sections);
    } else {
      var file := OnlyFilePath(v.site, s);
      FileIs(v, tags, limit, file);
      FindInFile(v, tags, limit, file, sections);
    }
  }

  lemma SectionNoMap(v: View, tags: map<string, Meta>, limit: nat, s: string, refBool: bool, x: Val, k: Option<Mark>)
    requires Calm(v, tags, limit) && OrderlyString(v.site, s, refBool) && ShowsLead(v, x, s, refBool, k)
    requires Leads(v.site, s, refBool).Section? && !Leads(v.site, s, refBool).j.Obj?
    ensures !IsMap(v.mem, x)
  {
    hide Calm, OrderlyString, Leads, Untouched;
    SectionThere(v, tags, limit, s, refBool);
    var j := Leads(v.site, s, refBool).j;
    if j.List? {
      UntouchedCell(v.mem, SectionAt(v, s), j);
    }
  }

  // ---- What a place gives way to ----

  /** Nothing has changed but the places at `p` and below, and objects of files; files were loaded. */
  ghost predicate OnlyHere(v: View, v': View, p: Address) {
    && v'.site == v.site && v'.doc == v.doc && CacheGrown(v, v')
    && OnlyUnder(v.mem, v'.mem, p, Files(v.cache))
  }

  /** Only a string says that a section was put in. */
  predicate TookSection(site: Site, value: Json, refBool: bool) {
    value.Str? && Leads(site, value.s, refBool).Section?
  }

  /** Place `p` of the document has been resolved. */
  ghost predicate Done(v: View, v': View, tags: map<string, Meta>, tags': map<string, Meta>, p: Address, value: Json,
                       refBool: bool,
                       a: Answer)
  {
    && a.Answer? && a.res == TookSection(v.site, value, refBool) && OnlyHere(v, v', p)
    && Latest(TagsOf(v.site, value, refBool), v.site.plan.more, tags, tags') && Fetched(v, v', value)
    && Shows(v', p, a.value, value, refBool)
    && Calm(v', tags', Age(v', a.value)) && (Age(v', a.value) < |v'.mem.docs| ==> Age(v', a.value) >= |v.mem.docs|)
  }

  lemma FilesAreHere(v: View, v': View, p: Address)
    requires OnlyFiles(v, v')
    ensures OnlyHere(v, v', p)
  {
  }

  lemma StringDone(v: View, v': View, tags: map<string, Meta>, tags': map<string, Meta>, p: Address, s: string,
                   refBool: bool, a: Answer)
    requires LeadDone(v, v', tags, tags', s, refBool, a)
    ensures Done(v, v', tags, tags', p, Str(s), refBool, a)
  {
    hide Leads, Calm, ShowsLead, OnlyHere, OnlyFiles, UsesFile, Age, Latest;
    FilesAreHere(v, v', p);
    assert TagsOf(v.site, Str(s), refBool) == NO_USES;
    AgeOfLead(v, v', tags, tags', s, refBool, a);
  }

  lemma AgeOfLead(v: View, v': View, tags: map<string, Meta>, tags': map<string, Meta>, s: string, refBool: bool, a: Answer)
    requires LeadDone(v, v', tags, tags', s, refBool, a)
    ensures Age(v', a.value) < |v'.mem.docs| ==> Age(v', a.value) >= |v.mem.docs|
  {
    hide Leads, Anchors, HoldsMeta, Latest, Fetched, Get, Sections, Parts;
    match Leads(v.site, s, refBool)
    case Nowhere =>
    case File(file, j) =>
      assert Tagged(v', file, tags', Age(v', a.value));
      LeadIsFile(v.site, s, refBool);
    case Section(j) =>
      if !j.Obj? {
        SectionInside(s, v.site);
      }
  }

  lemma LeadIsFile(site: Site, s: string, refBool: bool)
    requires Leads(site, s, refBool).File?
    ensures site.plan.objs(Leads(site, s, refBool).file) == Some(Leads(site, s, refBool).j)
  {
    hide SectionLead;
  }

  lemma HereSame(v: View, v1: View, p: Address)
    requires OnlyHere(v, v1, p)
    ensures v1.site == v.site && v1.doc == v.doc && |v.mem.docs| <= |v1.mem.docs| && v.mem.docs <= v1.mem.docs
  {
  }

  lemma HereThen(v: View, v1: View, v2: View, p: Address)
    requires OnlyHere(v, v1, p) && OnlyHere(v1, v2, p)
    ensures OnlyHere(v, v2, p)
  {
    hide CacheGrown, Files;
    OldFiles(v, v1);
    GrownThen(v, v1, v2);
    forall a: Address | a.doc < |v.mem.docs| && !Under(p, a) && !(a.path == [] && a.doc in Files(v.cache))
      ensures SameAt(v.mem, v2.mem, a)
    {
      assert SameAt(v.mem, v1.mem, a) && SameAt(v1.mem, v2.mem, a);
    }
  }

  lemma HereAbove(v: View, v1: View, p: Address, step: Step)
    requires OnlyHere(v, v1, Child(p, step))
    ensures OnlyHere(v, v1, p)
  {
    assert p.path <= Child(p, step).path;
    forall a: Address | !Under(p, a) ensures !Under(Child(p, step), a) {}
  }

  // ---- Which files were loaded ----

  lemma {:induction false} ReachesField(site: Site, fields: Fields, key: string, file: string, n: nat)
    requires key in fields && Reaches(site, fields[key], file, n)
    ensures Reaches(site, Obj(fields), file, n)
  {
    hide LeftAlone, Mentions;
    if MentionsIn(site, fields[key], file) && n == site.count + 1 {
      assert MentionsIn(site, Obj(fields), file);
    } else {
      var g :| MentionsIn(site, fields[key], g) && g in site.w.files && !LeftAlone(site.w, site.w.files[g])
               && Reaches(SiteOf(site.w, g, site.count + 1, site.plan), SiteOf(site.w, g, site.count + 1, site.plan).full, file, n);
      assert MentionsIn(site, Obj(fields), g);
    }
  }

  lemma {:induction false} ReachesItem(site: Site, items: seq<Json>, i: nat, file: string, n: nat)
    requires i < |items| && Reaches(site, items[i], file, n)
    ensures Reaches(site, List(items), file, n)
  {
    hide LeftAlone, Mentions;
    if MentionsIn(site, items[i], file) && n == site.count + 1 {
      assert MentionsIn(site, List(items), file);
    } else {
      var g :| MentionsIn(site, items[i], g) && g in site.w.files && !LeftAlone(site.w, site.w.files[g])
               && Reaches(SiteOf(site.w, g, site.count + 1, site.plan), SiteOf(site.w, g, site.count + 1, site.plan).full, file, n);
      assert MentionsIn(site, List(items), g);
    }
  }

  lemma FetchedField(v: View, v': View, fields: Fields, key: string)
    requires key in fields && Fetched(v, v', fields[key])
    ensures Fetched(v, v', Obj(fields))
  {
    hide Reaches;
    forall file | file in v'.cache && file !in v.cache ensures exists n :: Reaches(v.site, Obj(fields), file, n) {
      var n :| Reaches(v.site, fields[key], file, n);
      ReachesField(v.site, fields, key, file, n);
    }
  }

  lemma FetchedItem(v: View, v': View, items: seq<Json>, i: nat)
    requires i < |items| && Fetched(v, v', items[i])
    ensures Fetched(v, v', List(items))
  {
    hide Reaches;
    forall file | file in v'.cache && file !in v.cache ensures exists n :: Reaches(v.site, List(items), file, n) {
      var n :| Reaches(v.site, items[i], file, n);
      ReachesItem(v.site, items, i, file, n);
    }
  }

  lemma FetchedSame(v: View, v1: View, v2: View, value: Json)
    requires Fetched(v, v1, value) && v2.cache == v1.cache
    ensures Fetched(v, v2, value)
  {
    hide Reaches;
  }
}
