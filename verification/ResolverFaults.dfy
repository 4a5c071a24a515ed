/** Where resolving goes wrong, and exactly when: shared metadata, cycles, sections that were resolved already, and
    files that were loaded near the bound. */
module ResolverFaults {
  import opened Wrappers
  import opened YamlDocument
  import opened Strings
  import opened SharedMemory
  import opened References
  import opened ResolverMemory
  import opened ResolverAnswers
  import opened ResolverReferences
  import opened ResolverReading
  import opened Inclusions
  import opened InclusionDepth

  // ---- Shared metadata ----

  /** `{"x": {"$ref": s}, "y": {"$ref": s, "z": 1}}` */
  function TwoUses(s: string): Json {
    Obj(map["x" := Obj(map["$ref" := Str(s)]), "y" := Obj(map["$ref" := Str(s), "z" := Num(1)])])
  }

  /** Two objects share the object of a file, and with it the metadata, although one of them has a field
      beside its reference: one of the two shows the wrong metadata, whichever is visited first. */
  lemma SharedMetadata(w: World, path: string, s: string, file: string)
    requires !w.refKey("x") && !w.refKey("y") && !w.refKey("z") && w.refKey("$ref")
    requires
      var site := Unshared(w, path, TwoUses(s), 0);
      && Leads(site, s, true).File? && Leads(site, s, true).file == file && Leads(site, s, true).j.Obj?
      && file in w.files && !LeftAlone(w, w.files[file]) && Still(FileAtTop(w, file), FileAtTop(w, file).full)
    ensures
      var site := Unshared(w, path, TwoUses(s), 0);
      Foreseen(site) && !Cyclic(w, TwoUses(s)) && !Agree(site, TwoUses(s))
  {
    hide Orderly, Uses, Leads, Shown, Agree, SameShown, PlanAt, LeftAlone, Still, Foreseen, Cyclic, MentionsIn;
    var site := Unshared(w, path, TwoUses(s), 0);
    var x, y := map["$ref" := Str(s)], map["$ref" := Str(s), "z" := Num(1)];
    NumberStill(site);
    AnyPlanned(w, 0);
    OneUse(site, x, s);
    OneUse(site, y, s);
    BothFields(site, Obj(x), Obj(y));
    forall f | MentionsIn(site, TwoUses(s), f) ensures f == file {
      OnlyMentions(site, s, f);
    }
    StillFilesForeseen(w, path, TwoUses(s));
    assert |x| == 1 && |y| == 2;
    FileOfLead(site, s);
    ShownDiffers(Leads(site, s, true).j, Str(s));
    NotAgree(site, TwoUses(s), file, Some(Meta(Str(s), true)), Some(Meta(Str(s), false)));
  }

  lemma NumberStill(site: Site)
    ensures Still(site, Num(1))
  {
  }

  lemma AnyPlanned(w: World, n: nat)
    ensures forall file, m: nat :: PlanAt(w, n).loads(file, m)
    ensures forall file, m :: (file, m) in PlanAt(w, n).all
  {
    assert forall u: (string, Meta) :: AnyUse(u);
  }

  lemma OnlyMentions(site: Site, s: string, file: string)
    requires Leads(site, s, true).File? && MentionsIn(site, TwoUses(s), file)
    ensures file == Leads(site, s, true).file
  {
    hide SectionLead, Mentions, OnlyFilePath;
    var doc, x, y := TwoUses(s).fields, map["$ref" := Str(s)], map["$ref" := Str(s), "z" := Num(1)];
    var key :| key in doc && MentionsIn(site, doc[key], file);
    var fields := doc[key].fields;
    assert fields == x || fields == y;
    var k :| k in fields && MentionsIn(site, fields[k], file);
    match fields[k] {
      case Str(_) => MentionedLead(site, s, file);
      case _ =>
    }
  }

  lemma MentionedLead(site: Site, s: string, file: string)
    requires Leads(site, s, true).File? && Mentions(site, s, file)
    ensures file == Leads(site, s, true).file
  {
    hide SectionLead;
  }

  lemma NotAgree(site: Site, value: Json, file: string, a: Option<Meta>, b: Option<Meta>)
    requires Uses(site, value, false, file, a) && Uses(site, value, false, file, b)
    requires site.plan.objs(file).Some? && Shown(site.plan.objs(file).value, a) != Shown(site.plan.objs(file).value, b)
    ensures !Agree(site, value)
  {
    hide Uses, Shown;
    assert !SameShown(site.plan, file, a, b);
  }

  lemma BothFields(site: Site, x: Json, y: Json)
    requires !site.w.refKey("x") && !site.w.refKey("y") && Orderly(site, x, false) && Orderly(site, y, false)
    requires !Cyclic(site.w, x) && !Cyclic(site.w, y)
    ensures
      var doc := Obj(map["x" := x, "y" := y]);
      && Orderly(site, doc, false) && !Cyclic(site.w, doc)
      && forall file, own | Uses(site, x, false, file, own) || Uses(site, y, false, file, own) :: Uses(site, doc, false, file, own)
  {
    hide OrderlyString, OrderlyLead, Leads;
    var doc := Obj(map["x" := x, "y" := y]);
    assert doc.fields["x"] == x && doc.fields["y"] == y;
  }

  lemma OneUse(site: Site, fields: Fields, s: string)
    requires site.w.refKey("$ref") && "$ref" in fields && fields["$ref"] == Str(s)
    requires forall key | key in fields && key != "$ref" :: !site.w.refKey(key) && Still(site, fields[key])
    requires Leads(site, s, true).File? && Leads(site, s, true).j.Obj?
    requires site.plan.loads(Leads(site, s, true).file, site.count + 1)
    requires (Leads(site, s, true).file, Meta(Str(s), |fields| == 1)) in site.plan.all
    ensures Orderly(site, Obj(fields), false) && !Cyclic(site.w, Obj(fields))
    ensures Uses(site, Obj(fields), false, Leads(site, s, true).file, Some(Meta(Str(s), |fields| == 1)))
  {
    hide Still, SectionLead;
    assert RefKey(site.w, fields) == "$ref";
  }

  lemma ShownDiffers(j: Json, ref: Json)
    requires j.Obj?
    ensures Shown(j, Some(Meta(ref, true))) != Shown(j, Some(Meta(ref, false)))
  {
    var a, b := Shown(j, Some(Meta(ref, true))).fields["RefMetadata"], Shown(j, Some(Meta(ref, false))).fields["RefMetadata"];
    assert a.fields["alone"] == Bool(true) && b.fields["alone"] == Bool(false);
  }

  lemma FileOfLead(site: Site, s: string)
    requires Leads(site, s, true).File?
    ensures site.plan.objs(Leads(site, s, true).file) == Some(Leads(site, s, true).j)
  {
    hide SectionLead;
  }

  // ---- Cycles ----

  /** `{"x": {"$ref": {"a": 1}}}` */
  function ObjectUnderReference(): Json {
    Obj(map["x" := Obj(map["$ref" := Obj(map["a" := Num(1)])])])
  }

  /** `{"$ref": {"$ref": s}}` */
  function ReferenceUnderReference(s: string): Json {
    Obj(map["$ref" := Obj(map["$ref" := Str(s)])])
  }

  lemma OneField(site: Site, key: string, x: Json, refBool: bool)
    requires !site.w.refKey(key)
    ensures
      var value := Obj(map[key := x]);
      && (Orderly(site, value, refBool) <==> Orderly(site, x, false)) && (Cyclic(site.w, value) <==> Cyclic(site.w, x))
      && NoRefKeys(site.w, value.fields) && forall file :: MentionsIn(site, value, file) ==> MentionsIn(site, x, file)
  {
    hide OrderlyString, OrderlyLead, Still, Mentions;
    var fields := map[key := x];
    assert key in fields && fields[key] == x;
    assert forall k | k in fields :: k == key;
  }

  lemma OneReferenceField(site: Site, key: string, x: Json, refBool: bool)
    requires site.w.refKey(key)
    ensures !NoRefKeys(site.w, map[key := x]) && RefKey(site.w, map[key := x]) == key
    ensures
      var value := Obj(map[key := x]);
      && (Orderly(site, x, true) && OrderlyLead(site, x, true) ==> Orderly(site, value, refBool))
      && (Cyclic(site.w, value) <==> (x.Obj? && NoRefKeys(site.w, x.fields)) || Cyclic(site.w, x))
      && forall file :: MentionsIn(site, value, file) ==> MentionsIn(site, x, file)
  {
    hide OrderlyString, OrderlyLead, Still, Mentions;
    var fields := map[key := x];
    assert key in fields && fields[key] == x && |fields| == 1;
    assert forall k | k in fields :: k == key;
  }

  lemma NumberOrderly(site: Site)
    ensures Orderly(site, Num(1), false) && !Cyclic(site.w, Num(1)) && forall file :: !MentionsIn(site, Num(1), file)
  {
  }

  /** The object becomes its own metadata, and the document cannot be written. */
  lemma ObjectIsCyclic(w: World, path: string)
    requires !w.refKey("x") && !w.refKey("a") && w.refKey("$ref")
    ensures Foreseen(Unshared(w, path, ObjectUnderReference(), 0)) && Cyclic(w, ObjectUnderReference())
  {
    hide PlanAt, Foreseen, Orderly, Cyclic, MentionsIn, NoRefKeys, OrderlyLead;
    var site := Unshared(w, path, ObjectUnderReference(), 0);
    var a := Obj(map["a" := Num(1)]);
    NumberOrderly(site);
    OneField(site, "a", Num(1), true);
    NothingLed(site, a.fields);
    OneReferenceField(site, "$ref", a, false);
    OneField(site, "x", Obj(map["$ref" := a]), false);
    StillFilesForeseen(w, path, ObjectUnderReference());
  }

  lemma NothingLed(site: Site, fields: Fields)
    requires NoRefKeys(site.w, fields)
    ensures OrderlyLead(site, Obj(fields), true)
  {
  }

  /** A reference under a reference is no cycle: the outer one shows the inner one as metadata. */
  lemma ReferenceIsNotCyclic(w: World, path: string, s: string, tag: Tag)
    requires w.refKey("$ref") && !Loadable(Unshared(w, path, ReferenceUnderReference(s), 0), s) && !("#" <= s)
    ensures
      var site, doc := Unshared(w, path, ReferenceUnderReference(s), 0), ReferenceUnderReference(s);
      && Foreseen(site) && !Cyclic(w, doc)
      && Display(site, doc, false, tag) == Obj(map["RefMetadata" := Obj(map["$ref" := doc.fields["$ref"], "alone" := Bool(true)])])
  {
    hide PlanAt, Foreseen, Loadable, Orderly, Cyclic, MentionsIn, NoRefKeys, OrderlyLead, Leads, Display;
    var site := Unshared(w, path, ReferenceUnderReference(s), 0);
    var inner := map["$ref" := Str(s)];
    NowhereString(site, s);
    OneReferenceField(site, "$ref", Str(s), true);
    assert OrderlyLead(site, Obj(inner), true) by {
      NowhereChain(site, inner, s);
    }
    OneReferenceField(site, "$ref", Obj(inner), false);
    NowhereShown(site, s, tag);
    StillFilesForeseen(w, path, ReferenceUnderReference(s));
  }

  lemma NowhereString(site: Site, s: string)
    requires !Loadable(site, s) && !("#" <= s)
    ensures Orderly(site, Str(s), true) && OrderlyLead(site, Str(s), true) && Leads(site, s, true) == Nowhere
    ensures !Cyclic(site.w, Str(s)) && forall file :: !MentionsIn(site, Str(s), file)
  {
    hide Loadable;
  }

  lemma NowhereChain(site: Site, fields: Fields, s: string)
    requires !NoRefKeys(site.w, fields) && fields[RefKey(site.w, fields)] == Str(s) && Leads(site, s, true) == Nowhere
    ensures OrderlyLead(site, Obj(fields), true) && ReferenceLead(site, Obj(fields)) == Nowhere
  {
    hide Leads, NoRefKeys;
    assert ReferenceLead(site, fields[RefKey(site.w, fields)]) == Nowhere;
  }

  lemma NowhereShown(site: Site, s: string, tag: Tag)
    requires site.w.refKey("$ref") && Leads(site, s, true) == Nowhere
    ensures
      var doc := ReferenceUnderReference(s);
      Display(site, doc, false, tag) == Obj(map["RefMetadata" := Obj(map["$ref" := doc.fields["$ref"], "alone" := Bool(true)])])
  {
    hide Leads, NoRefKeys, Orderly, Cyclic, MentionsIn, OrderlyLead;
    var inner := map["$ref" := Str(s)];
    OneReferenceField(site, "$ref", Str(s), true);
    OneReferenceField(site, "$ref", Obj(inner), false);
    assert Left(site, Obj(inner), tag) == Obj(inner) by {
      assert inner["$ref" := Str(s)] == inner;
    }
    var m1, m := Meta(Str(s), true), Meta(Obj(inner), true);
    assert |inner| == 1 && |map["$ref" := Obj(inner)]| == 1;
    assert Display(site, Obj(inner), true, tag) == Over(Null, m1);
    OverTwice(Null, m1, m);
    assert Over(Null, m) == Obj(map["RefMetadata" := Obj(map["$ref" := Obj(inner), "alone" := Bool(true)])]);
  }

  // ---- Sections that were resolved already ----

  /** What a section is answered with, as a tree: the reference if the section refers to it. */
  function SectionShown(w: World, s: string, j: Json): Json {
    if Circular(s, j, w.maxDepth) then Str(s) else j
  }

  /** On a value in memory the check for circular references is that on the tree that the value unfolds to. */
  lemma {:induction false} CircularUnfolded(mem: Memory, value: string, x: Val, j: Json, n: nat, depth: nat)
    requires Read(mem, x, n) == Some(j)
    ensures CircularIn(mem, value, x, depth) <==> Circular(value, j, depth)
    decreases depth
  {
    hide Get;
    if depth > 0 && x.Ref? {
      match Get(mem, x.at)
      case MapCell(vals) =>
        assert j.Obj? && j.fields.Keys == vals.Keys;
        forall key | key in vals
          ensures CircularIn(mem, value, vals[key], depth - 1) <==> Circular(value, j.fields[key], depth - 1)
          ensures key == "$ref" ==> (vals[key] == Atom(Str(value)) <==> j.fields[key] == Str(value))
        {
          assert Read(mem, vals[key], n - 1) == Some(j.fields[key]);
          CircularUnfolded(mem, value, vals[key], j.fields[key], n - 1, depth - 1);
          ReadIsString(mem, vals[key], n - 1, value);
        }
      case ListCell(elems) =>
        assert j.List? && |j.items| == |elems|;
        forall i | 0 <= i < |elems| ensures CircularIn(mem, value, elems[i], depth - 1) <==> Circular(value, j.items[i], depth - 1) {
          assert Read(mem, elems[i], n - 1) == Some(j.items[i]);
          CircularUnfolded(mem, value, elems[i], j.items[i], n - 1, depth - 1);
        }
    }
  }

  lemma ReadIsString(mem: Memory, x: Val, n: nat, s: string)
    ensures x == Atom(Str(s)) <==> Read(mem, x, n) == Some(Str(s))
  {
    hide Get;
  }

  /** A section that was resolved already is answered with what it shows now. */
  lemma SectionAnswered(v: View, tags: map<string, Meta>, p: Address, x: Val, j: Json, s: string, split: seq<string>, obj: Val)
    requires Orderly(v.site, j, false) && !Cyclic(v.site.w, j) && Shows(v, p, x, j, false) && p.doc == v.doc
    requires Calm(v, tags, |v.mem.docs|) && Formed(v.mem) && (x.Ref? ==> x.at.doc < |v.mem.docs|)
    requires |split| > 1 && split[1] != "" && FindIn(v.mem, obj, Sections(split[1])) == Some(x)
    ensures
      var (m, a) := TakeSection(v.site.w, v.mem, s, split, obj);
      a.Answer? && Unfolds(m, a.value, SectionShown(v.site.w, s, Display(v.site, j, false, Current(tags))))
  {
    hide Orderly, Cyclic, Shows, Calm, Display, Circular, CircularIn, Read, FindIn, Sections, Get, Unfolds;
    var w, shown := v.site.w, Display(v.site, j, false, Current(tags));
    var n := HasDepth(shown);
    ReadShows(v, tags, |v.mem.docs|, p, x, j, false, n);
    CircularUnfolded(v.mem, s, x, shown, n, w.maxDepth);
    var (m, a) := TakeSection(w, v.mem, s, split, obj);
    if Circular(s, shown, w.maxDepth) {
      ReadAtom(m, Str(s), 0);
      UnfoldsAt(m, a.value, Str(s), 0);
    } else if IsMap(v.mem, x) {
      CopyUnfolds(v, tags, p, x, j, n);
      UnfoldsAt(m, a.value, shown, n);
    } else {
      UnfoldsAt(m, a.value, shown, n);
    }
  }

  lemma UnfoldsAt(mem: Memory, x: Val, j: Json, n: nat)
    requires Read(mem, x, n) == Some(j)
    ensures Unfolds(mem, x, j)
  {
  }

  /** The copy of an object unfolds to what the object does. */
  lemma CopyUnfolds(v: View, tags: map<string, Meta>, p: Address, x: Val, j: Json, n: nat)
    requires Orderly(v.site, j, false) && !Cyclic(v.site.w, j) && Shows(v, p, x, j, false) && p.doc == v.doc
    requires Calm(v, tags, |v.mem.docs|) && Formed(v.mem) && IsMap(v.mem, x) && x.at.doc < |v.mem.docs|
    requires Shallow(Display(v.site, j, false, Current(tags)), n)
    ensures Read(New(v.mem, Get(v.mem, x.at)), Ref(Root(|v.mem.docs|)), n) == Some(Display(v.site, j, false, Current(tags)))
  {
    hide Orderly, Cyclic, Shows, Display, Settled, Anchors, Read, Get, ShowsObject;
    var m := New(v.mem, Get(v.mem, x.at));
    var v' := v.(mem := m);
    CopyTaken(v, v', tags, Get(v.mem, x.at));
    AnchorsDoc(v);
    KeptFiles(v, v', p);
    ShowsStays(v, v', p, x, j, false);
    FilesSame(v, v');
    ReadShows(v', tags, |v.mem.docs|, p, x, j, false, n);
    SameCell(v.mem, m, x.at);
    NewHolds(v.mem, Get(v.mem, x.at));
    CellRead(m, x.at, Root(|v.mem.docs|), n);
  }

  lemma NewHolds(mem: Memory, cell: Cell)
    ensures Get(New(mem, cell), Root(|mem.docs|)) == cell
  {
  }

  lemma CellRead(mem: Memory, a: Address, b: Address, n: nat)
    requires Get(mem, a) == Get(mem, b)
    ensures Read(mem, Ref(a), n) == Read(mem, Ref(b), n)
  {
    hide Get;
  }

  /** A section in which nothing was resolved yet is answered with what it was decoded as. */
  lemma SectionUntouched(w: World, mem: Memory, p: Address, j: Json, s: string, split: seq<string>, obj: Val)
    requires Untouched(mem, p, j) && Formed(mem)
    requires |split| > 1 && split[1] != "" && FindIn(mem, obj, Sections(split[1])) == Some(Slot(p, j))
    ensures var (m, a) := TakeSection(w, mem, s, split, obj); a.Answer? && Unfolds(m, a.value, SectionShown(w, s, j))
  {
    hide Circular, CircularIn, Read, FindIn, Sections, Get, Unfolds, Untouched;
    CircularUntouched(mem, s, p, j, w.maxDepth);
    var (m, a) := TakeSection(w, mem, s, split, obj);
    var n := HasDepth(j);
    if Circular(s, j, w.maxDepth) {
      ReadAtom(m, Str(s), 0);
      UnfoldsAt(m, a.value, Str(s), 0);
    } else if IsMap(mem, Slot(p, j)) {
      ContainerIs(mem, p, j);
      UntouchedNew(mem, p, j, Get(mem, p));
      ReadUntouched(m, p, j, n);
      CellRead(m, p, Root(|mem.docs|), n);
      UnfoldsAt(m, a.value, j, n);
    } else {
      ReadUntouched(m, p, j, n);
      UnfoldsAt(m, a.value, j, n);
    }
  }

  lemma ContainerIs(mem: Memory, p: Address, j: Json)
    requires Slot(p, j).Ref?
    ensures Slot(p, j) == Ref(p)
  {
  }

  lemma UntouchedNew(mem: Memory, p: Address, j: Json, cell: Cell)
    requires Untouched(mem, p, j)
    ensures Untouched(New(mem, cell), p, j) && Get(New(mem, cell), p) == Get(mem, p)
    ensures Get(New(mem, cell), Root(|mem.docs|)) == cell
  {
    assert !Under(p, Root(|mem.docs|));
    SameCell(mem, New(mem, cell), p);
  }

  lemma UnfoldsToOne(mem: Memory, x: Val, a: Json, b: Json)
    requires Unfolds(mem, x, a) && Unfolds(mem, x, b)
    ensures a == b
  {
    var n: nat :| Read(mem, x, n) == Some(a);
    var m: nat :| Read(mem, x, m) == Some(b);
    if n <= m {
      ReadMore(mem, x, n, m);
    } else {
      ReadMore(mem, x, m, n);
    }
  }

  /** A section is answered with the same before and after it was resolved exactly if what it shows then is
      answered with the same as the section itself. */
  lemma SectionSameIff(m0: Memory, v: View, tags: map<string, Meta>, p: Address, x: Val, j: Json, s: string, split: seq<string>,
                       obj0: Val, obj: Val)
    requires Untouched(m0, p, j) && Formed(m0) && Formed(v.mem) && p.doc == v.doc && Calm(v, tags, |v.mem.docs|)
    requires Orderly(v.site, j, false) && !Cyclic(v.site.w, j) && Shows(v, p, x, j, false) && (x.Ref? ==> x.at.doc < |v.mem.docs|)
    requires |split| > 1 && split[1] != ""
    requires FindIn(m0, obj0, Sections(split[1])) == Some(Slot(p, j)) && FindIn(v.mem, obj, Sections(split[1])) == Some(x)
    ensures
      var w := v.site.w;
      var (m1, a) := TakeSection(w, m0, s, split, obj0);
      var (m2, b) := TakeSection(w, v.mem, s, split, obj);
      && a.Answer? && b.Answer?
      && ((forall t :: Unfolds(m1, a.value, t) <==> Unfolds(m2, b.value, t)) <==>
          SectionShown(w, s, j) == SectionShown(w, s, Display(v.site, j, false, Current(tags))))
  {
    hide TakeSection, SectionShown, Display, Unfolds, Orderly, Cyclic, Shows, Calm, FindIn, Sections, Untouched;
    var w := v.site.w;
    SectionUntouched(w, m0, p, j, s, split, obj0);
    SectionAnswered(v, tags, p, x, j, s, split, obj);
    var (m1, a) := TakeSection(w, m0, s, split, obj0);
    var (m2, b) := TakeSection(w, v.mem, s, split, obj);
    var t1, t2 := SectionShown(w, s, j), SectionShown(w, s, Display(v.site, j, false, Current(tags)));
    forall t ensures Unfolds(m1, a.value, t) <==> t == t1 {
      if Unfolds(m1, a.value, t) {
        UnfoldsToOne(m1, a.value, t, t1);
      }
    }
    forall t ensures Unfolds(m2, b.value, t) <==> t == t2 {
      if Unfolds(m2, b.value, t) {
        UnfoldsToOne(m2, b.value, t, t2);
      }
    }
  }

  /** The section `k` of the document at `root` is copied in whatever state it is. */
  lemma TopSection(w: World, mem: Memory, s: string, dir: string, k: char, root: Address)
    requires Get(mem, root).MapCell? && [k] in Get(mem, root).vals && k != '/' && k != '\\'
    requires IsMap(mem, Get(mem, root).vals[[k]]) && !CircularIn(mem, s, Get(mem, root).vals[[k]], w.maxDepth)
    ensures
      var (mem', a) := TakeSection(w, mem, s, [dir, ['/', k]], Ref(root));
      mem' == New(mem, Get(mem, Get(mem, root).vals[[k]].at)) && a == Answer(Ref(Root(|mem.docs|)), true)
  {
    hide CircularIn, New, Get;
    assert Slashed(['/', k]) == ['/', k];
    assert Sections(['/', k]) == [[k]] by {
      assert ['/', k][1..] == [k];
      NotSplit([k], '/');
    }
    assert FindIn(mem, Ref(root), [[k]]) == FindIn(mem, Get(mem, root).vals[[k]], []);
  }

  /** `{"a": {"$ref": "#/b"}, "b": {"$ref": "#/c"}, "c": {"k": 1}}` */
  function Chain(): Fields {
    map["a" := Obj(map["$ref" := Str("#/b")]), "b" := Obj(map["$ref" := Str("#/c")]), "c" := Obj(map["k" := Num(1)])]
  }

  /** The memory after `b` of the chain was resolved. */
  function ChainResolved(w: World, dir: string): Memory {
    var m0 := Decode(Memory([], map[]), Obj(Chain()));
    var (m1, x) := TakeSection(w, m0, "#/c", [dir, "/c"], Ref(Root(0)));
    if x.Panic? || Get(m1, Root(0)).ListCell? then m1
    else
      var (m2, y) := AddMetadata(m1, x.value, Atom(Str("#/c")), true);
      if Get(m2, Root(0)).ListCell? then m2 else Set(m2, Root(0), MapCell(Get(m2, Root(0)).vals["b" := y]))
  }

  /** What a reference to a section that holds a reference itself is answered with depends on which of the
      two is visited first. */
  lemma SectionDependsOnOrder(w: World, dir: string)
    ensures
      var (m, x) := TakeSection(w, Decode(Memory([], map[]), Obj(Chain())), "#/b", [dir, "/b"], Ref(Root(0)));
      x.Answer? && x.value.Ref? && Get(m, x.value.at).MapCell? && Get(m, x.value.at).vals.Keys == {"$ref"}
    ensures
      var (m, x) := TakeSection(w, ChainResolved(w, dir), "#/b", [dir, "/b"], Ref(Root(0)));
      x.Answer? && x.value.Ref? && Get(m, x.value.at).MapCell? && Get(m, x.value.at).vals.Keys == {"k", "RefMetadata"}
  {
    hide TakeSection, CircularIn, FindIn, Sections, Chain, ChainResolved, Get, New;
    ChainKeys();
    ChainTaken(w, dir, 'b', "#/b");
    ChainAfter(w, dir);
    var m := ChainResolved(w, dir);
    NotCircular(m, "#/b", Root(1), w.maxDepth);
    TopSection(w, m, "#/b", dir, 'b', Root(0));
    NewHolds(m, Get(m, Root(1)));
  }

  lemma ChainKeys()
    ensures "b" in Chain() && Chain()["b"] == Obj(map["$ref" := Str("#/c")])
    ensures "c" in Chain() && Chain()["c"].Obj?
  {
  }

  /** A section of the chain while nothing is resolved. */
  lemma ChainTaken(w: World, dir: string, k: char, s: string)
    requires [k] in Chain() && k != 'a' && (k == 'b' ==> s != "#/c")
    ensures
      var m := Decode(Memory([], map[]), Obj(Chain()));
      var (m', x) := TakeSection(w, m, s, [dir, ['/', k]], Ref(Root(0)));
      && x == Answer(Ref(Root(1)), true) && m' == New(m, CellOf(Child(Root(0), Key([k])), Chain()[[k]]))
      && Get(m', Root(1)) == CellOf(Child(Root(0), Key([k])), Chain()[[k]])
  {
    hide TakeSection, CircularIn, FindIn, Sections, Get, New;
    var m, root := Decode(Memory([], map[]), Obj(Chain())), Root(0);
    ChainCell(m, [k]);
    CircularUntouched(m, s, Child(root, Key([k])), Chain()[[k]], w.maxDepth);
    assert !Circular(s, Chain()[[k]], w.maxDepth);
    TopSection(w, m, s, dir, k, root);
    NewHolds(m, CellOf(Child(root, Key([k])), Chain()[[k]]));
  }

  lemma ChainAfter(w: World, dir: string)
    ensures
      var m := ChainResolved(w, dir);
      && Get(m, Root(0)).MapCell? && "b" in Get(m, Root(0)).vals && Get(m, Root(0)).vals["b"] == Ref(Root(1))
      && Get(m, Root(1)) == MapCell(map["k" := Atom(Num(1)), "RefMetadata" := Ref(Root(2))])
      && Get(m, Root(2)) == MapCell(map["$ref" := Atom(Str("#/c")), "alone" := Atom(Bool(true))])
  {
    hide TakeSection, Get, Set, AddMetadata, New, Chain, Formed;
    ChainKeys();
    ChainTaken(w, dir, 'c', "#/c");
    var m1 := New(Decode(Memory([], map[]), Obj(Chain())), CellOf(Child(Root(0), Key("c")), Chain()["c"]));
    ChainCopied(m1);
    var m2 := AddMetadata(m1, Ref(Root(1)), Atom(Str("#/c")), true).0;
    var cell := MapCell(Get(m2, Root(0)).vals["b" := Ref(Root(1))]);
    SetElsewhere(m2, Root(0), cell, Root(1));
    SetElsewhere(m2, Root(0), cell, Root(2));
  }

  lemma ChainCopied(m1: Memory)
    requires "c" in Chain() && Chain()["c"].Obj?
    requires m1 == New(Decode(Memory([], map[]), Obj(Chain())), CellOf(Child(Root(0), Key("c")), Chain()["c"]))
    ensures
      var (m2, y) := AddMetadata(m1, Ref(Root(1)), Atom(Str("#/c")), true);
      && Get(m1, Root(0)).MapCell? && y == Ref(Root(1)) && Get(m2, Root(0)).MapCell?
      && Get(m2, Root(1)) == MapCell(map["k" := Atom(Num(1)), "RefMetadata" := Ref(Root(2))])
      && Get(m2, Root(2)) == MapCell(map["$ref" := Atom(Str("#/c")), "alone" := Atom(Bool(true))])
  {
    hide AddMetadata, Get;
    var m0 := Decode(Memory([], map[]), Obj(Chain()));
    ChainCell(m0, "c");
    SameCell(m0, m1, Root(0));
    NewHolds(m0, CellOf(Child(Root(0), Key("c")), Chain()["c"]));
    AddToObject(m1, Root(1), Atom(Str("#/c")), true);
    SameCell(m1, AddMetadata(m1, Ref(Root(1)), Atom(Str("#/c")), true).0, Root(0));
    assert Get(m1, Root(1)).vals == map["k" := Atom(Num(1))];
  }

  lemma SetElsewhere(m: Memory, a: Address, cell: Cell, b: Address)
    requires a != b
    ensures Get(Set(m, a, cell), b) == Get(m, b) && Get(Set(m, a, cell), a) == cell
  {
  }

  lemma ChainCell(mem: Memory, key: string)
    requires mem == Decode(Memory([], map[]), Obj(Chain())) && key in Chain()
    ensures Get(mem, Root(0)) == CellOf(Root(0), Obj(Chain())) && Untouched(mem, Child(Root(0), Key(key)), Chain()[key])
    ensures Get(mem, Child(Root(0), Key(key))) == CellOf(Child(Root(0), Key(key)), Chain()[key])
  {
    UntouchedCell(mem, Root(0), Obj(Chain()));
    UntouchedChild(mem, Root(0), Obj(Chain()), Key(key));
    UntouchedCell(mem, Child(Root(0), Key(key)), Chain()[key]);
  }

  /** An object without references, and with metadata of another one. */
  lemma NotCircular(mem: Memory, s: string, a: Address, depth: nat)
    requires Get(mem, a).MapCell? && "$ref" !in Get(mem, a).vals
    requires forall key | key in Get(mem, a).vals && Get(mem, a).vals[key].Atom? :: !Container(Get(mem, a).vals[key].j)
    requires forall key | key in Get(mem, a).vals && Get(mem, a).vals[key].Ref? ::
               var at := Get(mem, a).vals[key].at;
               && Get(mem, at).MapCell? && (forall k | k in Get(mem, at).vals :: Get(mem, at).vals[k].Atom? && !Container(Get(mem, at).vals[k].j))
               && ("$ref" in Get(mem, at).vals ==> Get(mem, at).vals["$ref"] != Atom(Str(s)))
    ensures !CircularIn(mem, s, Ref(a), depth)
  {
    hide Get;
    if depth > 0 {
      forall key | key in Get(mem, a).vals ensures !CircularIn(mem, s, Get(mem, a).vals[key], depth - 1) {
        if depth > 1 && Get(mem, a).vals[key].Ref? {
          var at := Get(mem, a).vals[key].at;
          assert forall k | k in Get(mem, at).vals :: !CircularIn(mem, s, Get(mem, at).vals[k], depth - 2);
        }
      }
    }
  }

  // ---- Files that were loaded near the bound ----

  /** In the document at `path` the name of a file leads to the file as a whole. */
  predicate Names(w: World, path: string, file: string) {
    w.base(path) != file && !("#" <= file) && '#' !in file && w.join(path, file) == file && w.present(file) && w.supported(file)
  }

  ghost predicate Holds(w: World, file: string, j: Json) {
    file in w.files && !LeftAlone(w, w.files[file]) && w.unmarshal(w.files[file]) == Some(j)
  }

  /** What the library writes is read back. */
  ghost predicate ReadsBack(w: World) {
    forall j :: w.write(j).Some? && w.unmarshal(w.write(j).value) == Some(j)
  }

  /** `{"k": j}` */
  function OneKey(j: Json): Json {
    Obj(map["k" := j])
  }

  /** A file includes another, and that a third one, which is one too many. */
  ghost predicate ThreeFiles(w: World, path: string, f: string, g: string, h: string) {
    && w.maxDepth == 2 && !w.refKey("k") && ReadsBack(w) && f != g
    && Names(w, path, f) && Names(w, path, g) && Names(w, f, g) && Names(w, g, h)
    && Holds(w, f, OneKey(Str(g))) && Holds(w, g, OneKey(Str(h))) && Holds(w, h, Obj(map[]))
  }

  lemma NamedLead(site: Site, x: string, refBool: bool)
    requires Names(site.w, site.path, x)
    ensures OnlyFilePath(site, x) == x && Loadable(site, x) && Whole(site, x) && Parts(site, x) == [x]
    ensures Leads(site, x, refBool) ==
            if site.count < site.w.maxDepth && site.plan.objs(x).Some? then File(x, site.plan.objs(x).value) else Nowhere
    ensures forall file | Mentions(site, x, file) :: file == x
    ensures site.count < site.w.maxDepth ==> Mentions(site, x, x)
  {
    hide SectionLead;
    NotSplit(x, '#');
  }

  /** An object with nothing but the name of a file. */
  lemma NameUnderKey(site: Site, x: string)
    requires Names(site.w, site.path, x) && !site.w.refKey("k")
    ensures
      var value, lead := OneKey(Str(x)), Leads(site, x, false);
      && Display(site, value, false, OWN) == OneKey(if lead.File? then lead.j else Str(x)) && !Cyclic(site.w, value)
      && (forall file | MentionsIn(site, value, file) :: file == x && site.count < site.w.maxDepth)
      && (site.count < site.w.maxDepth ==> MentionsIn(site, value, x))
      && (forall file, m :: !Uses(site, value, false, file, Some(m)))
      && (lead.File? && lead.j.Obj? ==> Uses(site, value, false, x, None))
      && (site.plan.loads(x, site.count + 1) || site.count >= site.w.maxDepth ==> Orderly(site, value, false))
  {
    hide Leads, Mentions, OnlyFilePath, Loadable, Whole;
    var fields := map["k" := Str(x)];
    NamedLead(site, x, false);
    OneField(site, "k", Str(x), false);
    assert "k" in fields && forall key | key in fields :: key == "k";
    assert site.count < site.w.maxDepth ==> MentionsIn(site, fields["k"], x);
    forall file | MentionsIn(site, OneKey(Str(x)), file) ensures file == x && site.count < site.w.maxDepth {
      assert Mentions(site, x, file);
      MentionsRoom(site, Str(x), file);
    }
    assert Display(site, fields["k"], false, OWN) == DisplayString(site, x, false, OWN);
    var shown := Display(site, OneKey(Str(x)), false, OWN);
    assert shown.fields == map["k" := DisplayString(site, x, false, OWN)];
    var lead := Leads(site, x, false);
    if lead.File? && lead.j.Obj? {
      assert Uses(site, fields["k"], false, x, None);
    }
  }

  /** At the bound the last of the files is not included, one level up it is. */
  lemma ThreeObjects(w: World, path: string, f: string, g: string, h: string)
    requires ThreeFiles(w, path, f, g, h)
    ensures ObjectAt(w, 2, g) == Some(OneKey(Str(h))) && ObjectAt(w, 1, g) == Some(OneKey(Obj(map[])))
    ensures ObjectAt(w, 1, f) == Some(OneKey(OneKey(Str(h))))
  {
    hide LeftAlone, Leads, Display, Cyclic, MentionsIn, Uses, Orderly, Names;
    var full := OneKey(Str(g));
    var at2, at1, first := Unshared(w, g, OneKey(Str(h)), 2), Unshared(w, g, OneKey(Str(h)), 1), Unshared(w, f, full, 1);
    NameUnderKey(at2, h);
    NamedLead(at2, h, false);
    EmptyObject(w, h);
    NameUnderKey(at1, h);
    NamedLead(at1, h, false);
    NameUnderKey(first, g);
    NamedLead(first, g, false);
  }

  lemma EmptyObject(w: World, file: string)
    requires Holds(w, file, Obj(map[])) && ReadsBack(w) && w.maxDepth == 2
    ensures ObjectAt(w, 2, file) == Some(Obj(map[]))
  {
    hide LeftAlone;
    var site := Unshared(w, file, Obj(map[]), 2);
    assert Display(site, Obj(map[]), false, OWN) == Obj(map[]);
  }

  /** The first file is loaded, and with it the second. */
  ghost function TwoFiles(w: World, f: string, g: string): Plan {
    Plan(file => if file == f then ObjectAt(w, 1, f) else if file == g then ObjectAt(w, 2, g) else None,
         (file: string, n: nat) => (file == f && n == 1) || (file == g && n == 2), {}, NO_USES, NO_USES)
  }

  lemma TwoFilesSound(w: World, path: string, f: string, g: string, h: string)
    requires ThreeFiles(w, path, f, g, h)
    ensures Sound(w, TwoFiles(w, f, g))
    ensures UsesFile(Leads(SiteOf(w, f, 1, TwoFiles(w, f, g)), g, false), g)
    ensures Uses(SiteOf(w, f, 1, TwoFiles(w, f, g)), OneKey(Str(g)), false, g, None) && !Cyclic(w, OneKey(Str(g)))
  {
    hide LeftAlone, Leads, Display, Cyclic, MentionsIn, Uses, Orderly, Names, Result, ObjectAt;
    var plan := TwoFiles(w, f, g);
    ThreeObjects(w, path, f, g, h);
    var a, b := SiteOf(w, f, 1, plan), SiteOf(w, g, 2, plan);
    NameUnderKey(a, g);
    NamedLead(a, g, false);
    NameUnderKey(b, h);
    NameUnderKey(Unshared(w, f, OneKey(Str(g)), 1), g);
    NameUnderKey(Unshared(w, g, OneKey(Str(h)), 2), h);
    ObjectIs(w, f, 1);
    ObjectIs(w, g, 2);
    ResultAlike(Unshared(w, f, OneKey(Str(g)), 1), a, w.files[f], OWN);
    ResultAlike(Unshared(w, g, OneKey(Str(h)), 2), b, w.files[g], OWN);
    assert TagsOf(a, a.full, false) == iset{} && TagsOf(b, b.full, false) == iset{};
    forall m ensures !Reaches(a, a.full, f, m) && !Reaches(b, b.full, g, m) {
      ReachesEither(a, a.full, f, m);
      ReachesEither(b, b.full, g, m);
    }
    assert SoundFile(w, plan, f, 1) && SoundFile(w, plan, g, 2);
  }

  lemma ObjectIs(w: World, file: string, n: nat)
    requires file in w.files && !LeftAlone(w, w.files[file]) && n <= w.maxDepth
    ensures ObjectAt(w, n, file) == w.unmarshal(Result(Unshared(w, file, FileAtTop(w, file).full, n), w.files[file], OWN))
  {
    hide LeftAlone, Result;
  }

  /** The second file is included at two depths, where it comes to different objects: a chain meets the bound. */
  lemma SecondFileDiffers(w: World, path: string, f: string, g: string, h: string)
    requires ThreeFiles(w, path, f, g, h)
    ensures
      var site := Unshared(w, path, List([Str(f), Str(g)]), 0);
      !DepthFree(site) && !Uncut(site)
  {
    hide LeftAlone, Leads, Display, Cyclic, MentionsIn, Uses, Orderly, Names, ObjectAt, UncutAt, PlanAt;
    var doc := List([Str(f), Str(g)]);
    var site := Unshared(w, path, doc, 0);
    ThreeObjects(w, path, f, g, h);
    NamedLead(site, f, false);
    NamedLead(site, g, false);
    BothMentioned(site, f, g);
    ReachesEither(site, doc, f, 1);
    ReachesEither(site, doc, g, 1);
    NameUnderKey(SiteOf(w, f, 1, site.plan), g);
    ReachesThen(site, doc, f, 1, site.plan, g);
    assert Reaches(site, site.full, g, 1) && Reaches(site, site.full, g, 2);
    assert OneKey(Str(h)).fields["k"] == Str(h) && OneKey(Obj(map[])).fields["k"] == Obj(map[]);
    if Uncut(site) {
      UncutIsFree(w, path, doc);
    }
  }

  lemma BothMentioned(site: Site, f: string, g: string)
    requires Mentions(site, f, f) && Mentions(site, g, g)
    ensures MentionsIn(site, List([Str(f), Str(g)]), f) && MentionsIn(site, List([Str(f), Str(g)]), g)
  {
    hide Mentions;
    var items := [Str(f), Str(g)];
    assert MentionsIn(site, items[0], f) && MentionsIn(site, items[1], g);
  }
}
