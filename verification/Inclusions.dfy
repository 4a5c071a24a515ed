/** What a document comes to if nothing is shared: the object of a file at each depth, without a cache. And when
    a cache makes no difference to the objects of files. */
module Inclusions {
  import opened Wrappers
  import opened YamlDocument
  import opened SharedMemory
  import opened References

  // ---- Files without a cache ----

  /** The object that a file comes to when it is loaded at depth `n`, each time anew. */
  ghost function ObjectAt(w: World, n: nat, file: string): Option<Json>
    decreases if n <= w.maxDepth then w.maxDepth + 1 - n else 0, 1
  {
    if file !in w.files || n > w.maxDepth then None
    else if LeftAlone(w, w.files[file]) then w.unmarshal(w.files[file])
    else
      var site := Site(w, file, w.unmarshal(w.files[file]).value, n, PlanAt(w, n));
      w.unmarshal(Result(site, w.files[file], OWN))
  }

  /** Everything may be loaded and used, and files come to what they are at the next depth. */
  ghost function PlanAt(w: World, n: nat): Plan
    decreases if n <= w.maxDepth then w.maxDepth + 1 - n else 0, 0
  {
    Plan(file => if n <= w.maxDepth then ObjectAt(w, n + 1, file) else None, (file, m) => true, {},
         iset u: (string, Meta) | AnyUse(u), iset u: (string, Meta) | AnyUse(u))
  }

  predicate AnyUse(u: (string, Meta)) {
    true
  }

  /** A document that is resolved without sharing anything. */
  ghost function Unshared(w: World, path: string, full: Json, n: nat): Site {
    Site(w, path, full, n, PlanAt(w, n))
  }

  /** A file with something to resolve is loaded at depth `n` for the document. */
  ghost predicate Includes(site: Site, file: string, n: nat) {
    Reaches(site, site.full, file, n) && file in site.w.files && !LeftAlone(site.w, site.w.files[file])
  }

  ghost function Inner(site: Site, file: string, n: nat): Site
    requires file in site.w.files && !LeftAlone(site.w, site.w.files[file])
  {
    Unshared(site.w, file, site.w.unmarshal(site.w.files[file]).value, n)
  }

  // ---- Documents for which sharing can be foreseen ----

  ghost predicate OrderlyAll(site: Site) {
    && Orderly(site, site.full, false)
    && forall file, n | Includes(site, file, n) :: Orderly(Inner(site, file, n), Inner(site, file, n).full, false)
  }

  /** No file leads to itself. */
  ghost predicate Acyclic(site: Site) {
    forall file, n, m | Includes(site, file, n) :: !Reaches(Inner(site, file, n), Inner(site, file, n).full, file, m)
  }

  /** A file comes to the same at all depths where it is loaded. */
  ghost predicate DepthFree(site: Site) {
    forall file, n, m | Reaches(site, site.full, file, n) && Reaches(site, site.full, file, m) ::
      ObjectAt(site.w, n, file) == ObjectAt(site.w, m, file)
  }

  ghost predicate UsedInFile(site: Site, file: string, own: Option<Meta>) {
    exists f, n :: Includes(site, f, n) && Uses(Inner(site, f, n), Inner(site, f, n).full, false, file, own)
  }

  ghost predicate UsedAnywhere(site: Site, file: string, own: Option<Meta>) {
    Uses(site, site.full, false, file, own) || UsedInFile(site, file, own)
  }

  /** The uses of files in other files agree with all uses. */
  ghost predicate AgreeInFiles(site: Site) {
    forall file, a, b | UsedInFile(site, file, a) && UsedAnywhere(site, file, b) :: SameShown(PlanOf(site), file, a, b)
  }

  ghost predicate Foreseen(site: Site) {
    OrderlyAll(site) && Acyclic(site) && DepthFree(site) && AgreeInFiles(site)
  }

  // ---- The plan ----

  ghost function ObjectOf(site: Site, file: string): Option<Json> {
    if exists n :: Reaches(site, site.full, file, n) then
      var n :| Reaches(site, site.full, file, n);
      ObjectAt(site.w, n, file)
    else None
  }

  ghost function TagsInFiles(site: Site): iset<(string, Meta)> {
    iset u: (string, Meta) | UsedInFile(site, u.0, Some(u.1))
  }

  ghost function PlanOf(site: Site): Plan {
    Plan(file => ObjectOf(site, file), (file: string, n: nat) => Reaches(site, site.full, file, n), {},
         TagsInFiles(site) + TagsOf(site, site.full, false), TagsInFiles(site))
  }

  // ---- Sites that lead to the same ----

  /** Two sites of the same document that differ in what they expect, but not of the files mentioned in `value`. */
  ghost predicate Alike(a: Site, b: Site, value: Json) {
    && a.w == b.w && a.path == b.path && a.full == b.full && (a.count < a.w.maxDepth <==> b.count < b.w.maxDepth)
    && forall file | MentionsIn(a, value, file) :: a.plan.objs(file) == b.plan.objs(file)
  }

  lemma AlikeField(a: Site, b: Site, fields: Fields, key: string)
    requires Alike(a, b, Obj(fields)) && key in fields
    ensures Alike(a, b, fields[key])
  {
    hide Mentions;
    forall file | MentionsIn(a, fields[key], file) ensures a.plan.objs(file) == b.plan.objs(file) {
      assert MentionsIn(a, Obj(fields), file);
    }
  }

  lemma AlikeItem(a: Site, b: Site, items: seq<Json>, i: nat)
    requires Alike(a, b, List(items)) && i < |items|
    ensures Alike(a, b, items[i])
  {
    hide Mentions;
    forall file | MentionsIn(a, items[i], file) ensures a.plan.objs(file) == b.plan.objs(file) {
      assert MentionsIn(a, List(items), file);
    }
  }

  lemma LeadsAlike(a: Site, b: Site, s: string, refBool: bool)
    requires Alike(a, b, Str(s))
    ensures Leads(a, s, refBool) == Leads(b, s, refBool) && Skipped(a, s, refBool) == Skipped(b, s, refBool)
  {
    if "#" <= s {
      SectionAlike(a, b, s, a.full);
    } else if !Skipped(a, s, refBool) && a.w.base(a.path) != s && Loadable(a, s) {
      assert MentionsIn(a, Str(s), OnlyFilePath(a, s));
      if a.plan.objs(OnlyFilePath(a, s)).Some? {
        SectionAlike(a, b, s, a.plan.objs(OnlyFilePath(a, s)).value);
      }
    }
  }

  lemma SectionAlike(a: Site, b: Site, s: string, obj: Json)
    requires a.w == b.w && a.path == b.path
    ensures SectionLead(a, s, obj) == SectionLead(b, s, obj)
  {
  }

  lemma {:induction false} LeadAlike(a: Site, b: Site, x: Json)
    requires Alike(a, b, x)
    ensures ReferenceLead(a, x) == ReferenceLead(b, x)
    decreases x
  {
    hide Leads, MentionsIn, Alike, NoRefKeys;
    AlikeSites(a, b, x);
    match x
    case Str(s) => LeadsAlike(a, b, s, true);
    case Obj(fields) =>
      if !NoRefKeys(a.w, fields) {
        AlikeField(a, b, fields, RefKey(a.w, fields));
        LeadAlike(a, b, fields[RefKey(a.w, fields)]);
      }
    case _ =>
  }

  lemma AlikeSites(a: Site, b: Site, value: Json)
    requires Alike(a, b, value)
    ensures a.w == b.w && a.path == b.path && a.full == b.full && (a.count < a.w.maxDepth <==> b.count < b.w.maxDepth)
  {
  }

  lemma {:induction false} UsesAlike(a: Site, b: Site, value: Json, refBool: bool, file: string, own: Option<Meta>)
    requires Alike(a, b, value)
    ensures Uses(a, value, refBool, file, own) <==> Uses(b, value, refBool, file, own)
    decreases value
  {
    hide Leads, Alike, UsesFile, NoRefKeys, ReferenceLead;
    AlikeSites(a, b, value);
    match value
    case Str(s) => LeadsAlike(a, b, s, refBool);
    case List(items) =>
      forall i | 0 <= i < |items| ensures Uses(a, items[i], refBool, file, own) <==> Uses(b, items[i], refBool, file, own) {
        AlikeItem(a, b, items, i);
        UsesAlike(a, b, items[i], refBool, file, own);
      }
    case Obj(fields) =>
      if NoRefKeys(a.w, fields) {
        forall key | key in fields ensures Uses(a, fields[key], false, file, own) <==> Uses(b, fields[key], false, file, own) {
          AlikeField(a, b, fields, key);
          UsesAlike(a, b, fields[key], false, file, own);
        }
      } else {
        var key := RefKey(a.w, fields);
        AlikeField(a, b, fields, key);
        LeadAlike(a, b, fields[key]);
        UsesAlike(a, b, fields[key], true, file, own);
      }
    case _ =>
  }

  lemma {:induction false} DisplayAlike(a: Site, b: Site, value: Json, refBool: bool, tag: Tag)
    requires Alike(a, b, value)
    ensures Display(a, value, refBool, tag) == Display(b, value, refBool, tag)
    decreases value, 0
  {
    hide Leads, Alike, NoRefKeys, ReferenceLead, Over, DisplayLead, Left;
    AlikeSites(a, b, value);
    match value
    case Str(s) => LeadsAlike(a, b, s, refBool);
    case List(items) =>
      forall i | 0 <= i < |items| ensures Display(a, items[i], refBool, tag) == Display(b, items[i], refBool, tag) {
        AlikeItem(a, b, items, i);
        DisplayAlike(a, b, items[i], refBool, tag);
      }
      assert Display(a, value, refBool, tag).items == Display(b, value, refBool, tag).items;
    case Obj(fields) =>
      if NoRefKeys(a.w, fields) {
        forall key | key in fields ensures Display(a, fields[key], false, tag) == Display(b, fields[key], false, tag) {
          AlikeField(a, b, fields, key);
          DisplayAlike(a, b, fields[key], false, tag);
        }
        assert Display(a, value, refBool, tag).fields == Display(b, value, refBool, tag).fields;
      } else {
        var key := RefKey(a.w, fields);
        AlikeField(a, b, fields, key);
        LeadAlike(a, b, fields[key]);
        LeftAlike(a, b, fields[key], tag);
        DisplayAlike(a, b, fields[key], true, tag);
      }
    case _ =>
  }

  lemma {:induction false} LeftAlike(a: Site, b: Site, ref: Json, tag: Tag)
    requires Alike(a, b, ref)
    ensures Left(a, ref, tag) == Left(b, ref, tag)
    decreases ref, 1
  {
    hide Leads, Alike, NoRefKeys, Display;
    AlikeSites(a, b, ref);
    match ref
    case List(_) => DisplayAlike(a, b, ref, true, tag);
    case Obj(fields) =>
      if !NoRefKeys(a.w, fields) {
        AlikeField(a, b, fields, RefKey(a.w, fields));
        LeftAlike(a, b, fields[RefKey(a.w, fields)], tag);
      }
    case _ =>
  }

  /** The same document at two depths, or at the same depth with other expectations, has the same result. */
  lemma ResultAlike(a: Site, b: Site, content: Content, tag: Tag)
    requires Alike(a, b, a.full)
    ensures Result(a, content, tag) == Result(b, content, tag)
  {
    hide Display, Alike, Cyclic;
    AlikeSites(a, b, a.full);
    DisplayAlike(a, b, a.full, false, tag);
  }

  lemma {:induction false} StillAlike(a: Site, b: Site, value: Json)
    requires a.w == b.w && a.path == b.path && (a.count < a.w.maxDepth <==> b.count < b.w.maxDepth)
    ensures Still(a, value) <==> Still(b, value)
    decreases value
  {
    match value
    case List(items) =>
      forall i | 0 <= i < |items| ensures Still(a, items[i]) <==> Still(b, items[i]) {
        StillAlike(a, b, items[i]);
      }
    case Obj(fields) =>
      forall key | key in fields ensures Still(a, fields[key]) <==> Still(b, fields[key]) {
        StillAlike(a, b, fields[key]);
      }
    case _ =>
  }

  lemma {:induction false} AnchoredAlike(a: Site, b: Site, j: Json, sections: seq<string>)
    requires a.w == b.w && a.path == b.path && (a.count < a.w.maxDepth <==> b.count < b.w.maxDepth)
    ensures Anchored(a, j, sections) <==> Anchored(b, j, sections)
    decreases sections
  {
    hide Still;
    if sections == [] {
      StillAlike(a, b, j);
    } else if j.Obj? && sections[0] in j.fields {
      AnchoredAlike(a, b, j.fields[sections[0]], sections[1..]);
    }
  }

  lemma StringAlike(a: Site, b: Site, s: string, refBool: bool)
    requires Alike(a, b, Str(s)) && OrderlyString(a, s, refBool)
    requires forall file | MentionsIn(a, Str(s), file) :: b.plan.loads(file, b.count + 1)
    ensures OrderlyString(b, s, refBool)
  {
    hide Anchored, Sections, SectionLead;
    LeadsAlike(a, b, s, refBool);
    if !(a.w.base(a.path) == s || Skipped(a, s, refBool)) {
      if "#" <= s {
        AnchoredAlike(a, b, a.full, Sections(Parts(a, s)[1]));
      } else if Loadable(a, s) {
        assert MentionsIn(a, Str(s), OnlyFilePath(a, s));
      }
    }
  }

  /** A value is orderly also with other expectations of the files that are not mentioned in it. */
  lemma {:induction false} OrderlyAlike(a: Site, b: Site, value: Json, refBool: bool)
    requires Alike(a, b, value) && Orderly(a, value, refBool)
    requires forall file | MentionsIn(a, value, file) :: b.plan.loads(file, b.count + 1)
    requires forall file, m | Uses(a, value, refBool, file, Some(m)) :: (file, m) in b.plan.all
    ensures Orderly(b, value, refBool)
    decreases value
  {
    hide Leads, Alike, NoRefKeys, ReferenceLead, OrderlyString, Mentions, Still, OrderlyLead, UsesFile, OneReference;
    AlikeSites(a, b, value);
    match value
    case Str(s) => StringAlike(a, b, s, refBool);
    case List(items) =>
      forall i | 0 <= i < |items| ensures Orderly(b, items[i], refBool) {
        AlikeItem(a, b, items, i);
        assert forall file | MentionsIn(a, items[i], file) :: MentionsIn(a, value, file);
        assert forall file, m | Uses(a, items[i], refBool, file, Some(m)) :: Uses(a, value, refBool, file, Some(m));
        OrderlyAlike(a, b, items[i], refBool);
      }
    case Obj(fields) =>
      if NoRefKeys(a.w, fields) {
        forall key | key in fields ensures Orderly(b, fields[key], false) {
          AlikeField(a, b, fields, key);
          assert forall file | MentionsIn(a, fields[key], file) :: MentionsIn(a, value, file);
          assert forall file, m | Uses(a, fields[key], false, file, Some(m)) :: Uses(a, value, refBool, file, Some(m));
          OrderlyAlike(a, b, fields[key], false);
        }
      } else {
        var key := RefKey(a.w, fields);
        AlikeField(a, b, fields, key);
        assert forall file | MentionsIn(a, fields[key], file) :: MentionsIn(a, value, file);
        ReferenceUses(a, fields, refBool);
        OrderlyAlike(a, b, fields[key], true);
        LeadAlike(a, b, fields[key]);
        OrderlyLeadAlike(a, b, fields, refBool);
        forall k | k in fields && k != key ensures Still(b, fields[k]) {
          StillAlike(a, b, fields[k]);
        }
      }
    case _ =>
  }

  /** What is used under a reference is used by the object, with metadata. */
  lemma ReferenceUses(a: Site, fields: Fields, refBool: bool)
    requires !NoRefKeys(a.w, fields)
    ensures
      var ref := fields[RefKey(a.w, fields)];
      forall file, m | Uses(a, ref, true, file, Some(m)) :: Uses(a, Obj(fields), refBool, file, Some(m))
  {
    hide NoRefKeys, Leads, ReferenceLead, UsesFile;
  }

  lemma OrderlyLeadAlike(a: Site, b: Site, fields: Fields, refBool: bool)
    requires !NoRefKeys(a.w, fields) && a.w == b.w
    requires
      var ref := fields[RefKey(a.w, fields)];
      OrderlyLead(a, ref, |fields| == 1) && ReferenceLead(a, ref) == ReferenceLead(b, ref)
    requires forall file, m | Uses(a, Obj(fields), refBool, file, Some(m)) :: (file, m) in b.plan.all
    ensures OrderlyLead(b, fields[RefKey(a.w, fields)], |fields| == 1)
  {
    hide NoRefKeys, Leads, ReferenceLead;
    var ref := fields[RefKey(a.w, fields)];
    var lead := ReferenceLead(a, ref);
    if lead.File? && lead.j.Obj? {
      assert Uses(a, Obj(fields), refBool, lead.file, Some(Meta(ref, |fields| == 1)));
    }
  }

  /** What is used is mentioned. */
  lemma {:induction false} UsesMentions(site: Site, value: Json, refBool: bool, file: string, own: Option<Meta>)
    requires Uses(site, value, refBool, file, own)
    ensures MentionsIn(site, value, file)
    decreases value
  {
    hide SectionLead, NoRefKeys;
    match value
    case List(items) =>
      var i :| 0 <= i < |items| && Uses(site, items[i], refBool, file, own);
      UsesMentions(site, items[i], refBool, file, own);
    case Obj(fields) =>
      if NoRefKeys(site.w, fields) {
        var key :| key in fields && Uses(site, fields[key], false, file, own);
        UsesMentions(site, fields[key], false, file, own);
      } else {
        var ref := fields[RefKey(site.w, fields)];
        if Container(ref) {
          UsesMentions(site, ref, true, file, own);
        } else {
          assert MentionsIn(site, ref, file);
        }
      }
    case _ =>
  }

  // ---- What is reached ----

  lemma {:induction false} MentionsAlike(a: Site, b: Site, value: Json, file: string)
    requires a.w == b.w && a.path == b.path && (a.count < a.w.maxDepth <==> b.count < b.w.maxDepth)
    ensures MentionsIn(a, value, file) <==> MentionsIn(b, value, file)
    decreases value
  {
    match value
    case List(items) =>
      forall i | 0 <= i < |items| ensures MentionsIn(a, items[i], file) <==> MentionsIn(b, items[i], file) {
        MentionsAlike(a, b, items[i], file);
      }
    case Obj(fields) =>
      forall key | key in fields ensures MentionsIn(a, fields[key], file) <==> MentionsIn(b, fields[key], file) {
        MentionsAlike(a, b, fields[key], file);
      }
    case _ =>
  }

  /** A file is reached at the next depth, or by way of a file that is. */
  ghost predicate ReachesBy(site: Site, value: Json, g: string, file: string, n: nat) {
    && MentionsIn(site, value, g) && g in site.w.files && !LeftAlone(site.w, site.w.files[g])
    && Reaches(SiteOf(site.w, g, site.count + 1, site.plan), SiteOf(site.w, g, site.count + 1, site.plan).full, file, n)
  }

  lemma ReachesEither(site: Site, value: Json, file: string, n: nat)
    ensures Reaches(site, value, file, n) <==>
            && site.count < site.w.maxDepth
            && ((MentionsIn(site, value, file) && n == site.count + 1) || exists g :: ReachesBy(site, value, g, file, n))
  {
    hide MentionsIn, LeftAlone;
    if Reaches(site, value, file, n) && !(MentionsIn(site, value, file) && n == site.count + 1) {
      var g :| MentionsIn(site, value, g) && g in site.w.files && !LeftAlone(site.w, site.w.files[g])
               && Reaches(SiteOf(site.w, g, site.count + 1, site.plan), SiteOf(site.w, g, site.count + 1, site.plan).full, file, n);
      assert ReachesBy(site, value, g, file, n);
    }
    if exists g :: ReachesBy(site, value, g, file, n) {
      var g :| ReachesBy(site, value, g, file, n);
    }
  }

  lemma {:induction false} ReachedBelow(site: Site, value: Json, file: string, n: nat)
    requires Reaches(site, value, file, n)
    ensures site.count < n <= site.w.maxDepth
    decreases site.w.maxDepth - site.count
  {
    hide Reaches, MentionsIn, LeftAlone;
    ReachesEither(site, value, file, n);
    if !(MentionsIn(site, value, file) && n == site.count + 1) {
      var g :| ReachesBy(site, value, g, file, n);
      var inner := SiteOf(site.w, g, site.count + 1, site.plan);
      ReachesEither(inner, inner.full, file, n);
      ReachedBelow(inner, inner.full, file, n);
    }
  }

  /** What is reached does not depend on what is expected. */
  lemma {:induction false} ReachesAlike(a: Site, b: Site, value: Json, file: string, n: nat)
    requires a.w == b.w && a.path == b.path && a.count == b.count && Reaches(a, value, file, n)
    ensures Reaches(b, value, file, n)
    decreases if a.count <= a.w.maxDepth then a.w.maxDepth - a.count else 0
  {
    hide Reaches, MentionsIn, LeftAlone;
    ReachesEither(a, value, file, n);
    ReachesEither(b, value, file, n);
    if MentionsIn(a, value, file) && n == a.count + 1 {
      MentionsAlike(a, b, value, file);
    } else {
      var g :| ReachesBy(a, value, g, file, n);
      MentionsAlike(a, b, value, g);
      var x, y := SiteOf(a.w, g, a.count + 1, a.plan), SiteOf(a.w, g, a.count + 1, b.plan);
      ReachesAlike(x, y, x.full, file, n);
      assert ReachesBy(b, value, g, file, n);
    }
  }

  /** What an included file mentions is reached, too. */
  lemma {:induction false} ReachesThen(site: Site, value: Json, file: string, n: nat, plan: Plan, other: string)
    requires Reaches(site, value, file, n) && file in site.w.files && !LeftAlone(site.w, site.w.files[file])
    requires MentionsIn(SiteOf(site.w, file, n, plan), SiteOf(site.w, file, n, plan).full, other) && n < site.w.maxDepth
    ensures Reaches(site, value, other, n + 1)
    decreases if site.count <= site.w.maxDepth then site.w.maxDepth - site.count else 0
  {
    hide Reaches, MentionsIn, LeftAlone;
    ReachesEither(site, value, file, n);
    ReachesEither(site, value, other, n + 1);
    if MentionsIn(site, value, file) && n == site.count + 1 {
      var inner := SiteOf(site.w, file, n, site.plan);
      MentionsAlike(inner, SiteOf(site.w, file, n, plan), inner.full, other);
      ReachesEither(inner, inner.full, other, n + 1);
      assert ReachesBy(site, value, file, other, n + 1);
    } else {
      var g :| ReachesBy(site, value, g, file, n);
      var inner := SiteOf(site.w, g, site.count + 1, site.plan);
      ReachesThen(inner, inner.full, file, n, plan, other);
      assert ReachesBy(site, value, g, other, n + 1);
    }
  }

  /** With no depth left, nothing is mentioned. */
  lemma {:induction false} MentionsRoom(site: Site, value: Json, file: string)
    requires MentionsIn(site, value, file)
    ensures site.count < site.w.maxDepth
    decreases value
  {
    match value
    case List(items) =>
      var i :| 0 <= i < |items| && MentionsIn(site, items[i], file);
      MentionsRoom(site, items[i], file);
    case Obj(fields) =>
      var key :| key in fields && MentionsIn(site, fields[key], file);
      MentionsRoom(site, fields[key], file);
    case _ =>
  }

  // ---- The plan is sound ----

  /** A file that is reached comes to the object of its plan at every depth. */
  lemma PlannedObject(site: Site, file: string, n: nat)
    requires DepthFree(site) && Reaches(site, site.full, file, n)
    ensures ObjectOf(site, file) == ObjectAt(site.w, n, file)
  {
    hide Reaches, ObjectAt;
  }

  ghost function Planned(site: Site): Site {
    site.(plan := PlanOf(site))
  }

  lemma TopAlike(w: World, path: string, full: Json)
    requires DepthFree(Unshared(w, path, full, 0))
    ensures Alike(Unshared(w, path, full, 0), Planned(Unshared(w, path, full, 0)), full)
  {
    hide Reaches, ObjectAt, ObjectOf, MentionsIn, DepthFree;
    var site := Unshared(w, path, full, 0);
    forall file | MentionsIn(site, full, file) ensures site.plan.objs(file) == PlanOf(site).objs(file) {
      MentionsRoom(site, full, file);
      ReachesEither(site, full, file, 1);
      PlannedObject(site, file, 1);
    }
  }

  lemma FileAlike(site: Site, file: string, n: nat)
    requires DepthFree(site) && Includes(site, file, n)
    ensures n <= site.w.maxDepth
    ensures Alike(Inner(site, file, n), SiteOf(site.w, file, n, PlanOf(site)), Inner(site, file, n).full)
    ensures forall other | MentionsIn(Inner(site, file, n), Inner(site, file, n).full, other) :: PlanOf(site).loads(other, n + 1)
  {
    hide Reaches, ObjectAt, ObjectOf, MentionsIn, DepthFree, LeftAlone;
    var inner := Inner(site, file, n);
    ReachedBelow(site, site.full, file, n);
    forall other | MentionsIn(inner, inner.full, other)
      ensures inner.plan.objs(other) == PlanOf(site).objs(other) && Reaches(site, site.full, other, n + 1)
    {
      MentionsRoom(inner, inner.full, other);
      ReachesThen(site, site.full, file, n, inner.plan, other);
      PlannedObject(site, other, n + 1);
    }
  }

  lemma TagsAlike(a: Site, b: Site, value: Json)
    requires Alike(a, b, value)
    ensures TagsOf(a, value, false) == TagsOf(b, value, false)
  {
    hide Alike, Uses;
    forall u: (string, Meta) ensures u in TagsOf(a, value, false) <==> u in TagsOf(b, value, false) {
      UsesAlike(a, b, value, false, u.0, Some(u.1));
    }
  }

  lemma FileOrderly(site: Site, file: string, n: nat)
    requires OrderlyAll(site) && DepthFree(site) && Includes(site, file, n)
    ensures Orderly(SiteOf(site.w, file, n, PlanOf(site)), Inner(site, file, n).full, false)
    ensures TagsOf(SiteOf(site.w, file, n, PlanOf(site)), Inner(site, file, n).full, false) <= PlanOf(site).more
  {
    hide Reaches, ObjectAt, ObjectOf, MentionsIn, DepthFree, LeftAlone, Uses, Orderly, Alike;
    var inner, b := Inner(site, file, n), SiteOf(site.w, file, n, PlanOf(site));
    FileAlike(site, file, n);
    TagsAlike(inner, b, inner.full);
    forall u: (string, Meta) | u in TagsOf(inner, inner.full, false) ensures u in PlanOf(site).more {
      assert UsedInFile(site, u.0, Some(u.1));
    }
    forall other, m | Uses(inner, inner.full, false, other, Some(m)) ensures (other, m) in PlanOf(site).all {
      assert (other, m) in TagsOf(inner, inner.full, false);
    }
    OrderlyAlike(inner, b, inner.full, false);
  }

  lemma FileSound(site: Site, file: string, n: nat)
    requires Foreseen(site) && Reaches(site, site.full, file, n)
    ensures SoundFile(site.w, PlanOf(site), file, n)
  {
    hide Reaches, ObjectOf, MentionsIn, LeftAlone, Uses, Orderly, Alike, SameShown, Result;
    ReachedBelow(site, site.full, file, n);
    PlannedObject(site, file, n);
    if file in site.w.files && !LeftAlone(site.w, site.w.files[file]) {
      var inner, b := Inner(site, file, n), SiteOf(site.w, file, n, PlanOf(site));
      FileOrderly(site, file, n);
      FileAlike(site, file, n);
      ResultAlike(inner, b, site.w.files[file], OWN);
      forall m ensures !Reaches(b, b.full, file, m) {
        if Reaches(b, b.full, file, m) {
          ReachesAlike(b, inner, b.full, file, m);
        }
      }
      forall other, own, m | Uses(b, b.full, false, other, own) && (other, m) in PlanOf(site).all
        ensures SameShown(PlanOf(site), other, own, Some(m))
      {
        UsesAlike(inner, b, b.full, false, other, own);
        assert UsedInFile(site, other, own);
        UsedByPlan(site, other, m);
      }
    }
  }

  lemma UsedByPlan(site: Site, file: string, m: Meta)
    requires (file, m) in PlanOf(site).all
    ensures UsedAnywhere(site, file, Some(m))
  {
    hide Uses, Reaches, UsedInFile;
  }

  /** What can be foreseen is planned: the files come to what they are without a cache, and what the document shows
      is decided by its own uses of them. */
  lemma PlanIsSound(w: World, path: string, full: Json)
    requires Foreseen(Unshared(w, path, full, 0))
    ensures
      var site := Unshared(w, path, full, 0);
      && Sound(w, PlanOf(site)) && Orderly(Planned(site), full, false) && PlanOf(site).held == {}
      && Alike(site, Planned(site), full)
      && forall file, own, m | Uses(Planned(site), full, false, file, own) && (file, m) in PlanOf(site).more ::
           SameShown(PlanOf(site), file, own, Some(m))
  {
    hide Reaches, ObjectAt, ObjectOf, MentionsIn, LeftAlone, Uses, Orderly, Alike, SameShown, SoundFile;
    var site := Unshared(w, path, full, 0);
    TopAlike(w, path, full);
    forall file, n | PlanOf(site).loads(file, n) ensures SoundFile(w, PlanOf(site), file, n) {
      FileSound(site, file, n);
    }
    forall file | MentionsIn(site, full, file) ensures PlanOf(site).loads(file, 1) {
      MentionsRoom(site, full, file);
      ReachesEither(site, full, file, 1);
    }
    forall file, m | Uses(site, full, false, file, Some(m)) ensures (file, m) in PlanOf(site).all {
      assert (file, m) in TagsOf(site, full, false);
    }
    OrderlyAlike(site, Planned(site), full, false);
    forall file, own, m | Uses(Planned(site), full, false, file, own) && (file, m) in PlanOf(site).more
      ensures SameShown(PlanOf(site), file, own, Some(m))
    {
      UsesAlike(site, Planned(site), full, false, file, own);
      assert UsedAnywhere(site, file, own) && UsedInFile(site, file, Some(m));
      SameShownTurned(PlanOf(site), file, Some(m), own);
    }
  }

  /** What the document shows is what it shows without sharing exactly if its own uses of files agree. */
  lemma UnsharedIffAgree(w: World, path: string, full: Json, tags: map<string, Meta>)
    requires Foreseen(Unshared(w, path, full, 0)) && !Cyclic(w, full)
    requires
      var site := Unshared(w, path, full, 0);
      Latest(TagsOf(Planned(site), full, false), PlanOf(site).more, map[], tags)
    ensures
      var site := Unshared(w, path, full, 0);
      Display(site, full, false, Current(tags)) == Display(site, full, false, OWN) <==> Agree(site, full)
  {
    hide Foreseen, Display, PlanAt, Agree, Alike, SameShown, Uses, PlanOf;
    var site := Unshared(w, path, full, 0);
    PlanIsSound(w, path, full);
    DisplayAlike(site, Planned(site), full, false, Current(tags));
    DisplayAlike(site, Planned(site), full, false, OWN);
    ShownIffAgree(Planned(site), full, tags);
    AgreeAlike(site, Planned(site), full);
  }

  lemma AgreeAlike(a: Site, b: Site, value: Json)
    requires Alike(a, b, value)
    ensures Agree(a, value) <==> Agree(b, value)
  {
    hide Uses, MentionsIn, SameShown;
    forall file, x, y | Uses(a, value, false, file, x)
      ensures SameShown(a.plan, file, x, y) <==> SameShown(b.plan, file, x, y)
    {
      UsesMentions(a, value, false, file, x);
      SameShownAlike(a.plan, b.plan, file, x, y);
    }
    forall file, own ensures Uses(a, value, false, file, own) <==> Uses(b, value, false, file, own) {
      UsesAlike(a, b, value, false, file, own);
    }
  }

  lemma SameShownAlike(g: Plan, h: Plan, file: string, a: Option<Meta>, b: Option<Meta>)
    requires g.objs(file) == h.objs(file)
    ensures SameShown(g, file, a, b) <==> SameShown(h, file, a, b)
  {
  }
}
