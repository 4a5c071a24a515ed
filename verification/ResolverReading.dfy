/** How a resolved document is read: as it is displayed, or not at all if it holds a cycle. */
module ResolverReading {
  import opened Wrappers
  import opened YamlDocument
  import opened SharedMemory
  import opened References
  import opened ResolverMemory
  import opened ResolverAnswers
  import opened ResolverReferences

  // ---- Objects with metadata ----

  lemma ReadMeta(mem: Memory, d: nat, k: Mark, ref: Json, n: nat)
    requires HasMeta(mem, d, k) && n > 0 && Read(mem, k.ref, n - 1) == Some(ref)
    ensures Read(mem, Ref(Root(d)), n) == Some(Obj(map["$ref" := ref, "alone" := Bool(k.alone)]))
  {
    hide Get;
    var vals := map["$ref" := k.ref, "alone" := Atom(Bool(k.alone))];
    ReadMap(mem, Root(d), vals, map["$ref" := ref, "alone" := Bool(k.alone)], n);
  }

  /** The fields of the object decoded at `a` are as they were decoded. */
  ghost predicate FieldsThere(mem: Memory, a: Address, fields: Fields) {
    forall key | key in fields :: Untouched(mem, Child(a, Key(key)), fields[key])
  }

  lemma FieldsOf(mem: Memory, a: Address, fields: Fields)
    requires Untouched(mem, a, Obj(fields))
    ensures FieldsThere(mem, a, fields)
  {
    hide Untouched;
    forall key | key in fields ensures Untouched(mem, Child(a, Key(key)), fields[key]) {
      UntouchedChild(mem, a, Obj(fields), Key(key));
    }
  }

  /** What metadata in memory is read as, if there is any. */
  ghost predicate ReadAs(mem: Memory, mark: Option<Mark>, tag: Option<Meta>, n: nat) {
    match mark
    case None => tag == None
    case Some(k) => tag.Some? && tag.value.alone == k.alone && (n >= 2 ==> Read(mem, k.ref, n - 2) == Some(tag.value.ref))
  }

  /** An object that holds what was decoded at `a`, with metadata or without. */
  lemma ReadHeld(v: View, at: Address, a: Address, fields: Fields, mark: Option<Mark>, tag: Option<Meta>, n: nat)
    requires FieldsThere(v.mem, a, fields) && Shallow(Shown(Obj(fields), tag), n) && ReadAs(v.mem, mark, tag, n)
    requires
      match mark
      case None => Get(v.mem, at) == CellOf(a, Obj(fields))
      case Some(k) => HoldsMeta(v, at, CellOf(a, Obj(fields)).vals, k, |v.mem.docs|)
    ensures Read(v.mem, Ref(at), n) == Some(Shown(Obj(fields), tag))
  {
    hide Get, Aside, HasMeta, Untouched, At, Read;
    var shown, base := Shown(Obj(fields), tag).fields, CellOf(a, Obj(fields)).vals;
    forall key | key in fields && key in shown && shown[key] == fields[key]
      ensures Read(v.mem, base[key], n - 1) == Some(fields[key])
    {
      ReadUntouched(v.mem, Child(a, Key(key)), fields[key], n - 1);
    }
    match mark
    case None =>
      ReadMap(v.mem, at, base, fields, n);
    case Some(k) =>
      var d: nat :| Aside(v, d) && HasMeta(v.mem, d, k) && Get(v.mem, at) == MapCell(base["RefMetadata" := Ref(Root(d))]);
      assert Shallow(shown["RefMetadata"], n - 1);
      ReadMeta(v.mem, d, k, tag.value.ref, n - 1);
      ReadMap(v.mem, at, base["RefMetadata" := Ref(Root(d))], shown, n);
  }

  lemma ReadAtom(mem: Memory, j: Json, n: nat)
    ensures Read(mem, Atom(j), n) == Some(j)
  {
  }

  lemma ReadFile(v: View, tags: map<string, Meta>, limit: nat, file: string, own: Option<Meta>, n: nat)
    requires Settled(v, tags, limit) && limit <= |v.mem.docs| && file in v.cache && v.site.plan.objs(file).Some?
    requires Shallow(Shown(v.site.plan.objs(file).value, Current(tags)(file, own)), n)
    ensures
      var j := v.site.plan.objs(file).value;
      Read(v.mem, Slot(Root(v.cache[file].doc), j), n) == Some(Shown(j, Current(tags)(file, own)))
  {
    hide HoldsMeta, Get, Read;
    var d := v.cache[file].doc;
    assert Tagged(v, file, tags, limit);
    var j := v.mem.docs[d];
    if file in tags {
      forall key | key in j.fields ensures Untouched(v.mem, Child(Root(d), Key(key)), j.fields[key]) {
        InFile(v, tags, limit, file, key);
      }
      if n >= 2 {
        ReadAtom(v.mem, tags[file].ref, n - 2);
      }
      HoldsMore(v, Root(d), CellOf(Root(d), j).vals, AtomMark(tags[file]), limit, |v.mem.docs|);
      ReadHeld(v, Root(d), Root(d), j.fields, Some(AtomMark(tags[file])), Some(tags[file]), n);
    } else {
      UntaggedFile(v.mem, d);
      ReadUntouched(v.mem, Root(d), j, n);
    }
  }

  lemma UntaggedFile(mem: Memory, d: nat)
    requires d < |mem.docs| && Root(d) !in mem.changed && forall a | a in mem.changed && a.doc == d :: a.path == []
    ensures Untouched(mem, Root(d), mem.docs[d])
  {
    assert forall a | a in mem.changed && a.doc == d :: a == Root(d);
  }

  lemma ReadSection(v: View, x: Val, a: Address, j: Json, mark: Option<Mark>, tag: Option<Meta>, n: nat)
    requires ShowsSection(v, x, a, j, mark) && Untouched(v.mem, a, j) && Shallow(Shown(j, tag), n)
    requires ReadAs(v.mem, mark, tag, n)
    ensures Read(v.mem, x, n) == Some(Shown(j, tag))
  {
    hide Get, Untouched, HoldsMeta, Read;
    if j.Obj? {
      FieldsOf(v.mem, a, j.fields);
      ReadHeld(v, x.at, a, j.fields, mark, tag, n);
    } else {
      ReadUntouched(v.mem, a, j, n);
    }
  }

  /** What a string has given way to is read as it is displayed, with the current metadata of files. */
  lemma ReadString(v: View, tags: map<string, Meta>, limit: nat, x: Val, s: string, refBool: bool, n: nat)
    requires OrderlyString(v.site, s, refBool) && ShowsLead(v, x, s, refBool, None) && Calm(v, tags, limit)
    requires limit <= |v.mem.docs|
    requires Shallow(DisplayString(v.site, s, refBool, Current(tags)), n)
    ensures Read(v.mem, x, n) == Some(DisplayString(v.site, s, refBool, Current(tags)))
  {
    hide Calm, Settled, Anchors, OrderlyString, ShowsSection, Parts, Sections, Untouched, Leads, Read;
    match Leads(v.site, s, refBool)
    case Nowhere => ReadAtom(v.mem, Str(s), n);
    case File(file, j) =>
      LeadIsFile(v.site, s, refBool);
      CalmFiles(v, tags, limit);
      ReadFile(v, tags, limit, file, None, n);
    case Section(j) =>
      SectionThere(v, tags, limit, s, refBool);
      ReadSection(v, x, SectionAt(v, s), j, None, None, n);
  }

  lemma CalmFiles(v: View, tags: map<string, Meta>, limit: nat)
    requires Calm(v, tags, limit)
    ensures Settled(v, tags, limit)
  {
  }

  lemma ReadNew(v: View, x: Val, k: Mark, m: Meta, n: nat)
    requires ShowsObject(v, x, map[], Some(k)) && Shallow(Over(Null, m), n) && ReadAs(v.mem, Some(k), Some(m), n)
    ensures Read(v.mem, x, n) == Some(Over(Null, m))
  {
    hide Get, HoldsMeta, Aside, Read;
    assert CellOf(Root(0), Obj(map[])).vals == map[];
    ReadHeld(v, x.at, Root(0), map[], Some(k), Some(m), n);
  }

  // ---- Objects with references ----

  /** An object with a reference that is no container. */
  lemma ReadLead(v: View, tags: map<string, Meta>, limit: nat, p: Address, x: Val, fields: Fields, k: Mark, m: Meta, n: nat)
    requires !NoRefKeys(v.site.w, fields) && ShowsResult(v, p, x, fields, k, false)
    requires !Container(fields[RefKey(v.site.w, fields)])
    requires Orderly(v.site, fields[RefKey(v.site.w, fields)], true) && Calm(v, tags, limit) && limit <= |v.mem.docs|
    requires Shallow(DisplayLead(ReferenceLead(v.site, fields[RefKey(v.site.w, fields)]), m, Current(tags)), n)
    requires ReadAs(v.mem, Some(k), Some(m), n)
    ensures Read(v.mem, x, n) == Some(DisplayLead(ReferenceLead(v.site, fields[RefKey(v.site.w, fields)]), m, Current(tags)))
  {
    hide Calm, Settled, Anchors, OrderlyString, ShowsSection, Parts, Sections, Untouched, Leads, Read, NoRefKeys,
      ShowsObject, ReadAs, Over;
    var ref := fields[RefKey(v.site.w, fields)];
    match ReferenceLead(v.site, ref)
    case Nowhere => ReadNew(v, x, k, m, n);
    case File(file, j) =>
      LeadIsFile(v.site, ref.s, true);
      if j.Obj? {
        CalmFiles(v, tags, limit);
        ReadFile(v, tags, limit, file, Some(m), n);
      } else {
        ReadNew(v, x, k, m, n);
      }
    case Section(j) =>
      SectionThere(v, tags, limit, ref.s, true);
      ReadSection(v, x, SectionAt(v, ref.s), j, Some(k), Some(m), n);
  }

  /** What an object under a reference comes to, apart from its metadata. */
  function Base(lead: Lead): Json {
    if lead.Section? && lead.j.Obj? then lead.j else Null
  }

  lemma {:induction false} BaseShown(site: Site, fields: Fields, refBool: bool, m: Meta, tag: Tag)
    requires !NoRefKeys(site.w, fields) && !EndsCyclic(site.w, fields) && Orderly(site, Obj(fields), refBool)
    requires var lead := ReferenceLead(site, fields[RefKey(site.w, fields)]); !(lead.File? && lead.j.Obj?)
    ensures Over(Display(site, Obj(fields), refBool, tag), m) == Over(Base(ReferenceLead(site, fields[RefKey(site.w, fields)])), m)
    decreases Obj(fields)
  {
    hide NoRefKeys, Leads, OrderlyString, Still, Left, DisplayString, OrderlyLead, Over;
    var ref := fields[RefKey(site.w, fields)];
    var m1 := Meta(Left(site, ref, tag), |fields| == 1);
    match ref
    case Obj(inner) =>
      BaseShown(site, inner, true, m1, tag);
      OverTwice(Base(ReferenceLead(site, ref)), m1, m);
    case Str(_) =>
      var lead := ReferenceLead(site, ref);
      OverTwice(Null, m1, m);
      if lead.Section? && lead.j.Obj? {
        OverTwice(lead.j, m1, m);
        OverObject(lead.j, m1);
      } else if lead.Section? {
        OverNothing(lead.j, m);
      }
    case _ => OverTwice(Null, m1, m);
  }

  lemma OverTwice(j: Json, m1: Meta, m: Meta)
    ensures Over(Over(j, m1), m) == Over(j, m)
  {
    var base := if j.Obj? then j.fields else map[];
    var a, b := Over(Over(j, m1), m).fields, Over(j, m).fields;
    assert a.Keys == b.Keys;
    assert a == b;
  }

  lemma OverObject(j: Json, m: Meta)
    requires j.Obj?
    ensures Over(j, m) == Shown(j, Some(m))
  {
  }

  lemma OverNothing(j: Json, m: Meta)
    requires !j.Obj?
    ensures Over(j, m) == Over(Null, m)
  {
  }

  /** An object with a container under its reference. */
  lemma {:induction false} ReadResult(v: View, tags: map<string, Meta>, limit: nat, p: Address, x: Val, fields: Fields, k: Mark,
                                      under: bool, m: Meta, n: nat)
    requires !NoRefKeys(v.site.w, fields) && !EndsCyclic(v.site.w, fields) && ShowsResult(v, p, x, fields, k, under)
    requires under || Container(fields[RefKey(v.site.w, fields)])
    requires Orderly(v.site, Obj(fields), false) && Calm(v, tags, limit) && limit <= |v.mem.docs|
    requires Shallow(Over(Base(ReferenceLead(v.site, fields[RefKey(v.site.w, fields)])), m), n)
    requires ReadAs(v.mem, Some(k), Some(m), n)
    ensures var lead := ReferenceLead(v.site, fields[RefKey(v.site.w, fields)]); !(lead.File? && lead.j.Obj?)
    ensures Read(v.mem, x, n) == Some(Over(Base(ReferenceLead(v.site, fields[RefKey(v.site.w, fields)])), m))
    decreases Obj(fields)
  {
    hide Calm, Settled, Anchors, OrderlyString, Still, Parts, Sections, Untouched, Leads, Read, NoRefKeys, ShowsObject, ReadAs,
      Over, OrderlyLead, ShowsSection;
    var ref := fields[RefKey(v.site.w, fields)];
    var lead := ReferenceLead(v.site, ref);
    match ref
    case Obj(inner) => ReadResult(v, tags, limit, Child(p, Key(RefKey(v.site.w, fields))), x, inner, k, true, m, n);
    case Str(s) =>
      if lead.Section? && lead.j.Obj? {
        SectionThere(v, tags, limit, s, true);
        OverObject(lead.j, m);
        ReadSection(v, x, SectionAt(v, s), lead.j, Some(k), Some(m), n);
      } else {
        ReadNew(v, x, k, m, n);
      }
    case _ => ReadNew(v, x, k, m, n);
  }

  /** What is left in the document of a value under a reference. */
  lemma LeftHere(v: View, p: Address, x: Val, key: string, ref: Json)
    requires p.doc < |Older(v, x).mem.docs| && p.doc == v.doc && v.mem.docs[p.doc] != Null
    requires ShowsLeft(Older(v, x), Child(p, Key(key)), ref)
    ensures ShowsLeft(v, Child(p, Key(key)), ref)
  {
    hide ShowsLeft;
    assert Kept(Older(v, x), v, Child(p, Key(key)));
    LeftStays(Older(v, x), v, Child(p, Key(key)), ref);
  }

  // ---- What is shown is read ----

  /** A resolved place is read as it is displayed, with the current metadata of files. */
  lemma {:induction false} ReadShows(v: View, tags: map<string, Meta>, limit: nat, p: Address, x: Val, value: Json,
                                     refBool: bool, n: nat)
    requires Orderly(v.site, value, refBool) && !Cyclic(v.site.w, value) && Shows(v, p, x, value, refBool) && p.doc == v.doc
    requires Calm(v, tags, limit) && limit <= |v.mem.docs|
    requires Shallow(Display(v.site, value, refBool, Current(tags)), n)
    ensures Read(v.mem, x, n) == Some(Display(v.site, value, refBool, Current(tags)))
    decreases value, 0
  {
    hide Calm, OrderlyString, Still, ShowsLead, ShowsResult, ShowsLeft, Older, HeldCell, Get, DisplayString, DisplayLead,
      Left, Over,
      Read, OrderlyLead, NoRefKeys;
    match value
    case Str(s) => ReadString(v, tags, limit, x, s, refBool, n);
    case List(items) =>
      var shown := Display(v.site, value, refBool, Current(tags)).items;
      forall i | 0 <= i < |items| ensures Read(v.mem, Get(v.mem, p).elems[i], n - 1) == Some(shown[i]) {
        assert shown[i] == Display(v.site, items[i], refBool, Current(tags)) && Shallow(shown[i], n - 1);
        ReadShows(v, tags, limit, Child(p, Index(i)), Get(v.mem, p).elems[i], items[i], refBool, n - 1);
      }
      ReadList(v.mem, p, Get(v.mem, p).elems, shown, n);
    case Obj(fields) =>
      if NoRefKeys(v.site.w, fields) {
        var shown := Display(v.site, value, refBool, Current(tags)).fields;
        forall key | key in fields ensures Read(v.mem, Get(v.mem, p).vals[key], n - 1) == Some(shown[key]) {
          assert shown[key] == Display(v.site, fields[key], false, Current(tags)) && Shallow(shown[key], n - 1);
          ReadShows(v, tags, limit, Child(p, Key(key)), Get(v.mem, p).vals[key], fields[key], false, n - 1);
        }
        ReadMap(v.mem, p, Get(v.mem, p).vals, shown, n);
      } else {
        ReadReference(v, tags, limit, p, x, fields, n);
        ReferenceEither(v.site, fields, refBool, Current(tags));
      }
    case _ => ReadAtom(v.mem, value, n);
  }

  lemma ReferenceEither(site: Site, fields: Fields, refBool: bool, tag: Tag)
    ensures Display(site, Obj(fields), refBool, tag) == Display(site, Obj(fields), false, tag)
    ensures Orderly(site, Obj(fields), refBool) == Orderly(site, Obj(fields), false)
  {
    hide OrderlyLead, Left, DisplayLead, Over, NoRefKeys, Still;
  }

  lemma {:induction false} ReadReference(v: View, tags: map<string, Meta>, limit: nat, p: Address, x: Val, fields: Fields,
                                         n: nat)
    requires Orderly(v.site, Obj(fields), false) && !Cyclic(v.site.w, Obj(fields)) && !NoRefKeys(v.site.w, fields)
    requires Shows(v, p, x, Obj(fields), false) && p.doc == v.doc && Calm(v, tags, limit) && limit <= |v.mem.docs|
    requires Shallow(Display(v.site, Obj(fields), false, Current(tags)), n)
    ensures Read(v.mem, x, n) == Some(Display(v.site, Obj(fields), false, Current(tags)))
    decreases Obj(fields), 0, 0
  {
    hide Calm, OrderlyString, Still, ShowsLead, ShowsResult, ShowsLeft, Older, HeldCell, Get, DisplayString, DisplayLead,
      Left, Over,
      Read, OrderlyLead, NoRefKeys, ReadAs, Leads;
    var key := RefKey(v.site.w, fields);
    var ref, tag := fields[key], Current(tags);
    var m, k := Meta(Left(v.site, ref, tag), |fields| == 1), MarkOf(v.site.w, p, fields);
    if Container(ref) {
      DocThere(v, tags, limit);
      LeftHere(v, p, x, key, ref);
      NotEndsCyclic(v.site.w, fields);
      var over := Base(ReferenceLead(v.site, ref));
      ShownOver(v.site, fields, tag);
      assert Display(v.site, Obj(fields), false, tag) == Over(over, m);
      if n >= 2 {
        MetaBelow(over, m, n);
        ReadLeft(v, tags, limit, Child(p, Key(key)), ref, n - 2);
      }
      MarkRead(v.mem, k, m, n);
      ReadResult(v, tags, limit, p, x, fields, k, false, m, n);
    } else {
      LeftAtom(v.site, ref, tag);
      if n >= 2 {
        ReadAtom(v.mem, ref, n - 2);
      }
      MarkRead(v.mem, k, m, n);
      ReadLead(v, tags, limit, p, x, fields, k, m, n);
    }
  }

  lemma MarkRead(mem: Memory, k: Mark, m: Meta, n: nat)
    requires k.alone == m.alone && (n >= 2 ==> Read(mem, k.ref, n - 2) == Some(m.ref))
    ensures ReadAs(mem, Some(k), Some(m), n)
  {
  }

  lemma LeftAtom(site: Site, ref: Json, tag: Tag)
    requires !Container(ref)
    ensures Left(site, ref, tag) == ref
  {
  }

  lemma DocThere(v: View, tags: map<string, Meta>, limit: nat)
    requires Calm(v, tags, limit)
    ensures v.doc < |v.mem.docs| && v.mem.docs[v.doc] != Null
  {
  }

  lemma NotEndsCyclic(w: World, fields: Fields)
    requires !NoRefKeys(w, fields) && !Cyclic(w, Obj(fields))
    ensures !EndsCyclic(w, fields)
    decreases Obj(fields)
  {
    hide NoRefKeys;
    var ref := fields[RefKey(w, fields)];
    if ref.Obj? && !NoRefKeys(w, ref.fields) {
      NotEndsCyclic(w, ref.fields);
    }
  }

  /** Under a reference the object shows nothing but the section it leads to, and metadata. */
  lemma ShownOver(site: Site, fields: Fields, tag: Tag)
    requires Orderly(site, Obj(fields), false) && !NoRefKeys(site.w, fields) && !EndsCyclic(site.w, fields)
    requires Container(fields[RefKey(site.w, fields)])
    ensures
      var ref := fields[RefKey(site.w, fields)];
      Display(site, Obj(fields), false, tag) == Over(Base(ReferenceLead(site, ref)), Meta(Left(site, ref, tag), |fields| == 1))
  {
    hide NoRefKeys, Still, OrderlyString, Left, Over, Leads, DisplayString, DisplayLead;
    var ref := fields[RefKey(site.w, fields)];
    if ref.Obj? {
      BaseShown(site, ref.fields, true, Meta(Left(site, ref, tag), |fields| == 1), tag);
    }
  }

  lemma MetaBelow(j: Json, m: Meta, n: nat)
    requires Shallow(Over(j, m), n) && n >= 2
    ensures Shallow(m.ref, n - 2)
  {
    var shown := Over(j, m).fields;
    assert Shallow(shown["RefMetadata"], n - 1);
    assert "$ref" in shown["RefMetadata"].fields;
  }

  /** What is left of a reference is read as such. */
  lemma {:induction false} ReadLeft(v: View, tags: map<string, Meta>, limit: nat, p: Address, ref: Json, n: nat)
    requires Orderly(v.site, ref, true) && !Cyclic(v.site.w, ref) && Container(ref) && (ref.Obj? ==> !NoRefKeys(v.site.w, ref.fields))
    requires ShowsLeft(v, p, ref) && p.doc == v.doc && Calm(v, tags, limit) && limit <= |v.mem.docs|
    requires Shallow(Left(v.site, ref, Current(tags)), n)
    ensures Read(v.mem, Slot(p, ref), n) == Some(Left(v.site, ref, Current(tags)))
    decreases ref, 1
  {
    hide Calm, OrderlyString, Still, Shows, HeldCell, Get, DisplayString, DisplayLead, Over, Read, OrderlyLead,
      NoRefKeys, Untouched,
      Display;
    match ref
    case List(_) => ReadShows(v, tags, limit, p, Ref(p), ref, true, n);
    case Obj(fields) =>
      var key, left := RefKey(v.site.w, fields), Left(v.site, ref, Current(tags)).fields;
      HeldFields(v, p, fields);
      var vals := CellOf(p, ref).vals;
      forall k | k in left ensures Read(v.mem, vals[k], n - 1) == Some(left[k]) {
        assert Shallow(left[k], n - 1);
        if k != key {
          ReadUntouched(v.mem, Child(p, Key(k)), fields[k], n - 1);
        } else if Container(fields[k]) {
          ReadLeft(v, tags, limit, Child(p, Key(k)), fields[k], n - 1);
        } else {
          ReadAtom(v.mem, fields[k], n - 1);
        }
      }
      ReadMap(v.mem, p, vals, left, n);
  }

  lemma HeldFields(v: View, p: Address, fields: Fields)
    requires !NoRefKeys(v.site.w, fields) && HeldCell(v, p, fields)
    ensures Get(v.mem, p) == CellOf(p, Obj(fields))
    ensures forall k | k in fields && k != RefKey(v.site.w, fields) :: Untouched(v.mem, Child(p, Key(k)), fields[k])
  {
    hide NoRefKeys;
  }

  // ---- Cycles ----

  lemma FollowKey(mem: Memory, a: Address, key: string, path: seq<Step>)
    requires Get(mem, a).MapCell? && key in Get(mem, a).vals
    ensures Follow(mem, Ref(a), [Key(key)] + path) == Follow(mem, Get(mem, a).vals[key], path)
  {
    assert ([Key(key)] + path)[1..] == path;
  }

  lemma FollowIndex(mem: Memory, a: Address, i: nat, path: seq<Step>)
    requires Get(mem, a).ListCell? && i < |Get(mem, a).elems|
    ensures Follow(mem, Ref(a), [Index(i)] + path) == Follow(mem, Get(mem, a).elems[i], path)
  {
    assert ([Index(i)] + path)[1..] == path;
  }

  /** From an object with metadata to the reference in it. */
  const TO_REFERENCE: seq<Step> := [Key("RefMetadata"), Key("$ref")]

  lemma FollowMark(v: View, a: Address, k: Mark, path: seq<Step>)
    requires Marked(v, a, k)
    ensures Follow(v.mem, Ref(a), TO_REFERENCE + path) == Follow(v.mem, k.ref, path)
  {
    hide Get, Aside;
    var d: nat :| HasMeta(v.mem, d, k) && Get(v.mem, a).MapCell? && "RefMetadata" in Get(v.mem, a).vals
                  && Get(v.mem, a).vals["RefMetadata"] == Ref(Root(d));
    FollowKey(v.mem, a, "RefMetadata", [Key("$ref")] + path);
    FollowKey(v.mem, Root(d), "$ref", path);
    assert TO_REFERENCE + path == [Key("RefMetadata")] + ([Key("$ref")] + path);
  }

  /** Where references end in an object without any, that object is found below the first of them. */
  lemma {:induction false} FollowDown(v: View, p: Address, fields: Fields)
    requires !NoRefKeys(v.site.w, fields) && EndsCyclic(v.site.w, fields)
    requires ShowsLeft(v, Child(p, Key(RefKey(v.site.w, fields))), fields[RefKey(v.site.w, fields)])
    ensures Follow(v.mem, Ref(Child(p, Key(RefKey(v.site.w, fields)))), CyclePath(v.site.w, fields)[1..])
            == Some(Ref(Below(p, CyclePath(v.site.w, fields))))
    decreases Obj(fields)
  {
    hide NoRefKeys, Get, Untouched;
    var key := RefKey(v.site.w, fields);
    var px, ref, path := Child(p, Key(key)), fields[key], CyclePath(v.site.w, fields);
    if NoRefKeys(v.site.w, ref.fields) {
      BelowChild(p, Key(key), []);
      FollowNothing(v.mem, Ref(px));
      assert path == [Key(key)] && path[1..] == [];
    } else {
      var inner := CyclePath(v.site.w, ref.fields);
      BelowChild(p, Key(key), inner);
      HeldFields(v, px, ref.fields);
      FollowDown(v, px, ref.fields);
      FollowKey(v.mem, px, RefKey(v.site.w, ref.fields), inner[1..]);
      assert path[1..] == inner;
    }
  }

  /** What has given way to an object with a container under its reference has metadata. */
  lemma {:induction false} ResultMarked(v: View, p: Address, x: Val, fields: Fields, k: Mark, under: bool)
    requires !NoRefKeys(v.site.w, fields) && ShowsResult(v, p, x, fields, k, under)
    requires under || Container(fields[RefKey(v.site.w, fields)])
    ensures x.Ref? && Marked(v, x.at, k)
    decreases Obj(fields)
  {
    hide NoRefKeys, Leads, Get, Aside, Parts, Sections, HasMeta;
    var ref := fields[RefKey(v.site.w, fields)];
    if ref.Obj? && !NoRefKeys(v.site.w, ref.fields) {
      ResultMarked(v, Child(p, Key(RefKey(v.site.w, fields))), x, ref.fields, k, true);
    }
  }

  /** A resolved value with an object without references under a reference leads to a loop. */
  lemma {:induction false} CycleFound(v: View, p: Address, x: Val, value: Json, refBool: bool)
    returns (path: seq<Step>, loop: seq<Step>)
    requires Cyclic(v.site.w, value) && Shows(v, p, x, value, refBool) && p.doc == v.doc < |v.mem.docs|
    requires v.mem.docs[p.doc] != Null
    ensures Follow(v.mem, x, path).Some? && Looped(v.mem, Follow(v.mem, x, path).value, loop)
    decreases value, 0
  {
    hide ShowsResult, ShowsLeft, Older, HeldCell, Get, NoRefKeys, Follow, ShowsLead, Looped;
    match value
    case List(items) =>
      var i :| 0 <= i < |items| && Cyclic(v.site.w, items[i]);
      var below;
      below, loop := CycleFound(v, Child(p, Index(i)), Get(v.mem, p).elems[i], items[i], refBool);
      path := [Index(i)] + below;
      FollowIndex(v.mem, p, i, below);
    case Obj(fields) =>
      if NoRefKeys(v.site.w, fields) {
        var key :| key in fields && Cyclic(v.site.w, fields[key]);
        var below;
        below, loop := CycleFound(v, Child(p, Key(key)), Get(v.mem, p).vals[key], fields[key], false);
        path := [Key(key)] + below;
        FollowKey(v.mem, p, key, below);
      } else {
        var key := RefKey(v.site.w, fields);
        var px, ref, k := Child(p, Key(key)), fields[key], MarkOf(v.site.w, p, fields);
        LeftHere(v, p, x, key, ref);
        ResultMarked(v, p, x, fields, k, false);
        if EndsCyclic(v.site.w, fields) {
          CyclicResult(v, p, x, fields, k, false);
          path, loop := [], TO_REFERENCE + CyclePath(v.site.w, fields)[1..];
          FollowMark(v, x.at, k, CyclePath(v.site.w, fields)[1..]);
          FollowDown(v, p, fields);
          FollowNothing(v.mem, x);
          assert Looped(v.mem, x, loop) by { LoopIs(v.mem, x, loop); }
        } else {
          NotEnding(v.site.w, fields);
          var below;
          below, loop := LeftFound(v, px, ref);
          path := TO_REFERENCE + below;
          FollowMark(v, x.at, k, below);
        }
      }
  }

  lemma LoopIs(mem: Memory, x: Val, loop: seq<Step>)
    requires loop != [] && Follow(mem, x, loop) == Some(x)
    ensures Looped(mem, x, loop)
  {
  }

  lemma NotEnding(w: World, fields: Fields)
    requires !NoRefKeys(w, fields) && !EndsCyclic(w, fields) && Cyclic(w, Obj(fields))
    ensures
      var ref := fields[RefKey(w, fields)];
      Cyclic(w, ref) && Container(ref) && (ref.Obj? ==> !NoRefKeys(w, ref.fields) && !EndsCyclic(w, ref.fields))
  {
    hide NoRefKeys;
  }

  lemma {:induction false} LeftFound(v: View, p: Address, ref: Json) returns (path: seq<Step>, loop: seq<Step>)
    requires Cyclic(v.site.w, ref) && ShowsLeft(v, p, ref) && p.doc == v.doc < |v.mem.docs| && v.mem.docs[p.doc] != Null
    requires Container(ref) && (ref.Obj? ==> !NoRefKeys(v.site.w, ref.fields) && !EndsCyclic(v.site.w, ref.fields))
    ensures Follow(v.mem, Ref(p), path).Some? && Looped(v.mem, Follow(v.mem, Ref(p), path).value, loop)
    decreases ref, 1
  {
    hide Shows, HeldCell, Get, NoRefKeys, Follow, Looped, Cyclic, EndsCyclic;
    match ref
    case List(_) => path, loop := CycleFound(v, p, Ref(p), ref, true);
    case Obj(fields) =>
      var key := RefKey(v.site.w, fields);
      NotEnding(v.site.w, fields);
      HeldFields(v, p, fields);
      var below;
      below, loop := LeftFound(v, Child(p, Key(key)), fields[key]);
      path := [Key(key)] + below;
      FollowKey(v.mem, p, key, below);
  }

  /** A resolved value with an object without references under a reference is never read. */
  lemma CycleUnread(v: View, p: Address, x: Val, value: Json, refBool: bool)
    requires Cyclic(v.site.w, value) && Shows(v, p, x, value, refBool) && p.doc == v.doc < |v.mem.docs|
    requires v.mem.docs[p.doc] != Null
    ensures forall n: nat :: Read(v.mem, x, n) == None
  {
    hide Shows, Cyclic, Read, Looped, Follow;
    var path, loop := CycleFound(v, p, x, value, refBool);
    forall n: nat ensures Read(v.mem, x, n) == None {
      LoopUnread(v.mem, x, path, loop, n);
    }
  }

  /** The value unfolds to this tree. */
  ghost predicate Unfolds(mem: Memory, x: Val, j: Json) {
    exists n: nat :: Read(mem, x, n) == Some(j)
  }

  /** A resolved value unfolds to a tree, then to the one that is displayed, exactly if no object without references
      stands under a reference. */
  lemma UnfoldsIffNotCyclic(v: View, tags: map<string, Meta>, limit: nat, p: Address, x: Val, value: Json, refBool: bool)
    requires Orderly(v.site, value, refBool) && Shows(v, p, x, value, refBool) && p.doc == v.doc
    requires Calm(v, tags, limit) && limit <= |v.mem.docs|
    ensures (exists j :: Unfolds(v.mem, x, j)) <==> !Cyclic(v.site.w, value)
    ensures !Cyclic(v.site.w, value) ==> Unfolds(v.mem, x, Display(v.site, value, refBool, Current(tags)))
  {
    hide Orderly, Shows, Calm, Read, Display, Cyclic;
    if Cyclic(v.site.w, value) {
      DocThere(v, tags, limit);
      CycleUnread(v, p, x, value, refBool);
    } else {
      var shown := Display(v.site, value, refBool, Current(tags));
      var n := HasDepth(shown);
      ReadShows(v, tags, limit, p, x, value, refBool, n);
      assert Unfolds(v.mem, x, shown);
    }
  }

  // ---- What was loaded ----

  lemma {:induction false} ResultUsesNone(v: View, p: Address, x: Val, fields: Fields, k: Mark, under: bool)
    requires !NoRefKeys(v.site.w, fields) && ShowsResult(v, p, x, fields, k, under)
    requires under || Container(fields[RefKey(v.site.w, fields)])
    ensures var lead := ReferenceLead(v.site, fields[RefKey(v.site.w, fields)]); !(lead.File? && lead.j.Obj?)
    decreases Obj(fields)
  {
    hide NoRefKeys, Leads, ShowsLead, ShowsObject, Marked;
    var ref := fields[RefKey(v.site.w, fields)];
    if ref.Obj? && !NoRefKeys(v.site.w, ref.fields) {
      ResultUsesNone(v, Child(p, Key(RefKey(v.site.w, fields))), x, ref.fields, k, true);
    }
  }

  /** The files whose objects are used in a resolved value were loaded. */
  lemma {:induction false} UsedIsCached(v: View, p: Address, x: Val, value: Json, refBool: bool, file: string,
                                        own: Option<Meta>)
    requires Shows(v, p, x, value, refBool) && !Cyclic(v.site.w, value) && Uses(v.site, value, refBool, file, own)
    ensures file in v.cache
    decreases value, 0
  {
    hide NoRefKeys, Leads, ShowsObject, ShowsLeft, HeldCell, Get, ShowsSection;
    match value
    case List(items) =>
      var i :| 0 <= i < |items| && Uses(v.site, items[i], refBool, file, own);
      UsedIsCached(v, Child(p, Index(i)), Get(v.mem, p).elems[i], items[i], refBool, file, own);
    case Obj(fields) =>
      if NoRefKeys(v.site.w, fields) {
        var key :| key in fields && Uses(v.site, fields[key], false, file, own);
        UsedIsCached(v, Child(p, Key(key)), Get(v.mem, p).vals[key], fields[key], false, file, own);
      } else {
        var key := RefKey(v.site.w, fields);
        if Container(fields[key]) {
          ResultUsesNone(v, p, x, fields, MarkOf(v.site.w, p, fields), false);
          LeftUsed(Older(v, x), Child(p, Key(key)), fields[key], file, own);
        }
      }
    case _ =>
  }

  lemma {:induction false} LeftUsed(v: View, p: Address, ref: Json, file: string, own: Option<Meta>)
    requires ShowsLeft(v, p, ref) && !Cyclic(v.site.w, ref) && Container(ref) && (ref.Obj? ==> !NoRefKeys(v.site.w, ref.fields))
    requires Uses(v.site, ref, true, file, own) && var lead := ReferenceLead(v.site, ref); !(lead.File? && lead.j.Obj?)
    ensures file in v.cache
    decreases ref, 1
  {
    hide NoRefKeys, Leads, Shows, HeldCell;
    match ref
    case List(_) => UsedIsCached(v, p, Ref(p), ref, true, file, own);
    case Obj(fields) =>
      var key := RefKey(v.site.w, fields);
      LeftUsed(v, Child(p, Key(key)), fields[key], file, own);
  }
}
