/** Resolving in memory: what is taken from a section, what is written as metadata, and what a place
    in a half-resolved document shows. */
module ResolverMemory {
  import opened Wrappers
  import opened YamlDocument
  import opened SharedMemory
  import opened References

  /** A value and whether a section was put in, or a panic. */
  datatype Answer = Panic | Answer(value: Val, res: bool)

  function Root(doc: nat): Address {
    Address(doc, [])
  }

  predicate IsMap(mem: Memory, x: Val) {
    x.Ref? && Get(mem, x.at).MapCell?
  }

  // ---- Operations ----

  function FindIn(mem: Memory, v: Val, sections: seq<string>): Option<Val>
    decreases sections
  {
    if sections == [] then Some(v)
    else if IsMap(mem, v) && sections[0] in Get(mem, v.at).vals then
      FindIn(mem, Get(mem, v.at).vals[sections[0]], sections[1..])
    else None
  }

  predicate CircularIn(mem: Memory, value: string, v: Val, depth: nat)
    decreases depth
  {
    match v
    case Atom(j) => Circular(value, j, depth)
    case Ref(at) =>
      depth > 0 &&
      match Get(mem, at)
      case MapCell(vals) =>
        exists key | key in vals :: (key == "$ref" && vals[key] == Atom(Str(value))) || CircularIn(mem, value, vals[key], depth - 1)
      case ListCell(elems) => exists i | 0 <= i < |elems| :: CircularIn(mem, value, elems[i], depth - 1)
  }

  /** A section of the value `v`, as it is in memory now: an object is copied, without what is in it,
      anything else is shared. */
  function TakeSection(w: World, mem: Memory, s: string, split: seq<string>, v: Val): (Memory, Answer) {
    if |split| <= 1 then (mem, Answer(Atom(Str(s)), false))
    else if split[1] == "" then (mem, Panic)
    else
      match FindIn(mem, v, Sections(split[1]))
      case None => (mem, Answer(Atom(Str(s)), false))
      case Some(section) =>
        if CircularIn(mem, s, section, w.maxDepth) then (mem, Answer(Atom(Str(s)), false))
        else if IsMap(mem, section) then
          (New(mem, Get(mem, section.at)), Answer(Ref(Root(|mem.docs|)), true))
        else (mem, Answer(section, true))
  }

  /** Writes metadata into the object `v` itself, or into a new one if `v` is no object. */
  function AddMetadata(mem: Memory, v: Val, ref: Val, alone: bool): (Memory, Val) {
    var meta := Ref(Root(|mem.docs|));
    var mem1 := New(mem, MapCell(map["$ref" := ref, "alone" := Atom(Bool(alone))]));
    if IsMap(mem, v) then
      (Set(mem1, v.at, MapCell(Get(mem, v.at).vals["RefMetadata" := meta])), v)
    else (New(mem1, MapCell(map["RefMetadata" := meta])), Ref(Root(|mem1.docs|)))
  }

  /** Writing metadata into an object changes the object and adds a document. */
  lemma AddToObject(mem: Memory, a: Address, ref: Val, alone: bool)
    requires a.doc < |mem.docs| && Get(mem, a).MapCell? && Formed(mem)
    ensures
      var (mem', x) := AddMetadata(mem, Ref(a), ref, alone);
      && x == Ref(a) && Formed(mem') && mem'.docs == mem.docs + [Null]
      && Get(mem', a) == MapCell(Get(mem, a).vals["RefMetadata" := Ref(Root(|mem.docs|))])
      && Get(mem', Root(|mem.docs|)) == MapCell(map["$ref" := ref, "alone" := Atom(Bool(alone))])
      && forall b: Address | b.doc < |mem.docs| && b != a :: SameAt(mem, mem', b)
  {
    var q := Root(|mem.docs|);
    var mem1 := New(mem, MapCell(map["$ref" := ref, "alone" := Atom(Bool(alone))]));
    SameCell(mem, mem1, a);
    var mem' := Set(mem1, a, MapCell(Get(mem, a).vals["RefMetadata" := Ref(q)]));
    assert Get(mem', q) == Get(mem1, q);
  }

  /** What is no object gets a new one for its metadata. */
  lemma AddToNew(mem: Memory, x: Val, ref: Val, alone: bool)
    requires Formed(mem) && !IsMap(mem, x)
    ensures
      var (mem', y) := AddMetadata(mem, x, ref, alone);
      && y == Ref(Root(|mem.docs| + 1)) && Formed(mem') && mem'.docs == mem.docs + [Null, Null]
      && Get(mem', y.at) == MapCell(map["RefMetadata" := Ref(Root(|mem.docs|))])
      && Get(mem', Root(|mem.docs|)) == MapCell(map["$ref" := ref, "alone" := Atom(Bool(alone))])
      && forall b: Address | b.doc < |mem.docs| :: SameAt(mem, mem', b)
  {
  }

  // ---- What a place shows ----

  /** The content of a file as it was read, and the document its object was decoded in. */
  datatype Cached = Cached(content: Content, doc: nat)

  function Files(cache: map<string, Cached>): set<nat> {
    set file | file in cache :: cache[file].doc
  }

  lemma FileIn(cache: map<string, Cached>, file: string)
    requires file in cache
    ensures cache[file].doc in Files(cache)
  {
  }

  /** The state of memory while document `doc` is resolved. */
  datatype View = View(site: Site, mem: Memory, cache: map<string, Cached>, doc: nat)

  /** A document that was not decoded: an object of its own, or metadata. */
  predicate Aside(v: View, d: nat) {
    d < |v.mem.docs| && v.mem.docs[d] == Null && d !in Files(v.cache)
  }

  /** Metadata in memory: the reference as it stands there, and whether it was alone in its object. */
  datatype Mark = Mark(ref: Val, alone: bool)

  function AtomMark(m: Meta): Mark {
    Mark(Atom(m.ref), m.alone)
  }

  ghost predicate HasMeta(mem: Memory, d: nat, k: Mark) {
    Get(mem, Root(d)) == MapCell(map["$ref" := k.ref, "alone" := Atom(Bool(k.alone))])
  }

  /** The object at `a` holds `vals` with metadata that is older than document `limit`. */
  ghost predicate HoldsMeta(v: View, a: Address, vals: map<string, Val>, k: Mark, limit: nat) {
    exists d: nat :: d < limit && Aside(v, d) && HasMeta(v.mem, d, k)
                     && Get(v.mem, a) == MapCell(vals["RefMetadata" := Ref(Root(d))])
  }

  /** An object of its own that holds `vals`, with metadata or without. */
  ghost predicate ShowsObject(v: View, x: Val, vals: map<string, Val>, mark: Option<Mark>) {
    && x.Ref? && x.at.path == [] && Aside(v, x.at.doc)
    && match mark
       case None => Get(v.mem, x.at) == MapCell(vals)
       case Some(k) => HoldsMeta(v, x.at, vals, k, |v.mem.docs|)
  }

  ghost predicate ShowsSection(v: View, x: Val, a: Address, j: Json, mark: Option<Mark>) {
    if j.Obj? then ShowsObject(v, x, CellOf(a, j).vals, mark) else x == Slot(a, j)
  }

  function Keys(sections: seq<string>): seq<Step> {
    seq(|sections|, i requires 0 <= i < |sections| => Key(sections[i]))
  }

  /** Where the section of a reference is decoded. */
  function SectionAt(v: View, s: string): Address
    requires NamesSection(v.site, s) && ("#" <= s || OnlyFilePath(v.site, s) in v.cache)
  {
    Address(if "#" <= s then v.doc else v.cache[OnlyFilePath(v.site, s)].doc, Keys(Sections(Parts(v.site, s)[1])))
  }

  /** What a string has given way to; `mark` is metadata in the copy of a section. */
  ghost predicate ShowsLead(v: View, x: Val, s: string, refBool: bool, mark: Option<Mark>) {
    match Leads(v.site, s, refBool)
    case Nowhere => x == Atom(Str(s))
    case File(file, j) => file in v.cache && x == Slot(Root(v.cache[file].doc), j)
    case Section(j) =>
      && NamesSection(v.site, s) && ("#" <= s || OnlyFilePath(v.site, s) in v.cache)
      && ShowsSection(v, x, SectionAt(v, s), j, mark)
  }

  /** A place of the document was given metadata. */
  ghost predicate Marked(v: View, a: Address, k: Mark) {
    exists d: nat :: Aside(v, d) && HasMeta(v.mem, d, k)
                     && Get(v.mem, a).MapCell? && "RefMetadata" in Get(v.mem, a).vals && Get(v.mem, a).vals["RefMetadata"] == Ref(Root(d))
  }

  /** What an object with a reference at `p` has given way to, with `mark` as its metadata; `under` says that
      the object stands under a reference itself. */
  ghost predicate ShowsResult(v: View, p: Address, x: Val, fields: Fields, mark: Mark, under: bool)
    requires !NoRefKeys(v.site.w, fields)
    decreases Obj(fields)
  {
    var key := RefKey(v.site.w, fields);
    var ref := fields[key];
    if ref.Obj? then
      if NoRefKeys(v.site.w, ref.fields) then x == Ref(Child(p, Key(key))) && Marked(v, Child(p, Key(key)), mark)
      else ShowsResult(v, Child(p, Key(key)), x, ref.fields, mark, true)
    else
      match ReferenceLead(v.site, ref)
      case Nowhere => ShowsObject(v, x, map[], Some(mark))
      case File(_, j) => if j.Obj? then !under && ShowsLead(v, x, ref.s, true, None) else ShowsObject(v, x, map[], Some(mark))
      case Section(j) =>
        if j.Obj? || !under then ShowsLead(v, x, ref.s, true, Some(mark)) else ShowsObject(v, x, map[], Some(mark))
  }

  /** An object with a reference is itself as it was decoded, apart from what is under the reference. */
  ghost predicate HeldCell(v: View, p: Address, fields: Fields)
    requires !NoRefKeys(v.site.w, fields)
  {
    && Get(v.mem, p) == CellOf(p, Obj(fields))
    && forall key | key in fields && key != RefKey(v.site.w, fields) :: Untouched(v.mem, Child(p, Key(key)), fields[key])
  }

  /** The state before document `d` was added. */
  function Trunc(v: View, d: nat): View
    requires d <= |v.mem.docs|
  {
    v.(mem := v.mem.(docs := v.mem.docs[..d]))
  }

  /** The state before the object `x` was added, if it was. */
  function Older(v: View, x: Val): View {
    if x.Ref? && x.at.path == [] && x.at.doc < |v.mem.docs| && v.mem.docs[x.at.doc] == Null then Trunc(v, x.at.doc) else v
  }

  /** Place `p` of the document, where `value` was decoded, has been resolved to `x`. */
  ghost predicate Shows(v: View, p: Address, x: Val, value: Json, refBool: bool)
    decreases value, 0
  {
    match value
    case Str(s) => ShowsLead(v, x, s, refBool, None)
    case List(items) =>
      && x == Ref(p) && Get(v.mem, p).ListCell? && |Get(v.mem, p).elems| == |items|
      && forall i | 0 <= i < |items| :: Shows(v, Child(p, Index(i)), Get(v.mem, p).elems[i], items[i], refBool)
    case Obj(fields) =>
      if NoRefKeys(v.site.w, fields) then
        && x == Ref(p) && Get(v.mem, p).MapCell? && Get(v.mem, p).vals.Keys == fields.Keys
        && forall key | key in fields :: Shows(v, Child(p, Key(key)), Get(v.mem, p).vals[key], fields[key], false)
      else
        var key := RefKey(v.site.w, fields);
        && ShowsResult(v, p, x, fields, Mark(Slot(Child(p, Key(key)), fields[key]), |fields| == 1), false)
        && HeldCell(v, p, fields)
        && (Container(fields[key]) ==>
              p.doc < |Older(v, x).mem.docs| && ShowsLeft(Older(v, x), Child(p, Key(key)), fields[key]))
    case _ => x == Atom(value)
  }

  /** What is left at `p` of a value under a reference. */
  ghost predicate ShowsLeft(v: View, p: Address, ref: Json)
    decreases ref, 1
  {
    match ref
    case List(_) => Shows(v, p, Ref(p), ref, true)
    case Obj(fields) =>
      NoRefKeys(v.site.w, fields)
      || (HeldCell(v, p, fields) && ShowsLeft(v, Child(p, Key(RefKey(v.site.w, fields))), fields[RefKey(v.site.w, fields)]))
    case _ => true
  }

  // ---- What a place shows stays ----

  /** Files were loaded, into new documents. */
  ghost predicate CacheGrown(v: View, v': View) {
    && (forall file | file in v.cache :: file in v'.cache && v'.cache[file] == v.cache[file])
    && (forall file | file in v'.cache && file !in v.cache :: v'.cache[file].doc >= |v.mem.docs|)
  }

  /** From one state to a later one, what place `p` shows stays: what changed are other places of the
      document, and objects of files. */
  ghost predicate Kept(v: View, v': View, p: Address) {
    && v'.site == v.site && v'.doc == v.doc == p.doc && v.mem.docs <= v'.mem.docs && CacheGrown(v, v')
    && p.doc < |v.mem.docs| && v.mem.docs[p.doc] != Null
    && (forall a: Address | a.doc < |v.mem.docs|
          && (Under(p, a) || (a.doc != p.doc && !(a.path == [] && a.doc in Files(v.cache)))) :: SameAt(v.mem, v'.mem, a))
  }

  lemma AsideStays(v: View, v': View, p: Address, d: nat)
    requires Kept(v, v', p) && Aside(v, d)
    ensures Aside(v', d) && Get(v'.mem, Root(d)) == Get(v.mem, Root(d))
  {
    forall file | file in v'.cache ensures v'.cache[file].doc != d {}
    SameCell(v.mem, v'.mem, Root(d));
  }

  lemma HoldsStays(v: View, v': View, a: Address, vals: map<string, Val>, k: Mark, limit: nat)
    requires HoldsMeta(v, a, vals, k, limit) && Get(v'.mem, a) == Get(v.mem, a)
    requires forall d: nat | d < limit && Aside(v, d) :: Aside(v', d) && Get(v'.mem, Root(d)) == Get(v.mem, Root(d))
    ensures HoldsMeta(v', a, vals, k, limit)
  {
    hide Get, Aside;
    var d: nat :| d < limit && Aside(v, d) && HasMeta(v.mem, d, k)
                  && Get(v.mem, a) == MapCell(vals["RefMetadata" := Ref(Root(d))]);
    assert HasMeta(v'.mem, d, k);
  }

  lemma HoldsMore(v: View, a: Address, vals: map<string, Val>, k: Mark, limit: nat, more: nat)
    requires HoldsMeta(v, a, vals, k, limit) && limit <= more
    ensures HoldsMeta(v, a, vals, k, more)
  {
    hide Get, Aside, HasMeta;
    var d: nat :| d < limit && Aside(v, d) && HasMeta(v.mem, d, k)
                  && Get(v.mem, a) == MapCell(vals["RefMetadata" := Ref(Root(d))]);
  }

  lemma ObjectStays(v: View, v': View, p: Address, x: Val, vals: map<string, Val>, mark: Option<Mark>)
    requires Kept(v, v', p) && ShowsObject(v, x, vals, mark)
    ensures ShowsObject(v', x, vals, mark)
  {
    hide Get, Aside, HoldsMeta;
    AsideStays(v, v', p, x.at.doc);
    assert x.at == Root(x.at.doc);
    if mark.Some? {
      forall d: nat | Aside(v, d) ensures Aside(v', d) && Get(v'.mem, Root(d)) == Get(v.mem, Root(d)) {
        AsideStays(v, v', p, d);
      }
      HoldsStays(v, v', x.at, vals, mark.value, |v.mem.docs|);
      HoldsMore(v', x.at, vals, mark.value, |v.mem.docs|, |v'.mem.docs|);
    }
  }

  lemma LeadStays(v: View, v': View, p: Address, x: Val, s: string, refBool: bool, mark: Option<Mark>)
    requires Kept(v, v', p) && ShowsLead(v, x, s, refBool, mark)
    ensures ShowsLead(v', x, s, refBool, mark)
  {
    hide Get, Aside, HoldsMeta, ShowsObject, Leads, NamesSection, Sections, Parts, OnlyFilePath;
    var lead := Leads(v.site, s, refBool);
    if lead.Section? && lead.j.Obj? {
      assert SectionAt(v', s) == SectionAt(v, s);
      ObjectStays(v, v', p, x, CellOf(SectionAt(v, s), lead.j).vals, mark);
    }
  }

  lemma KeptChild(v: View, v': View, p: Address, step: Step)
    requires Kept(v, v', p)
    ensures Kept(v, v', Child(p, step))
  {
    forall a: Address | Under(Child(p, step), a) ensures Under(p, a) {
      assert p.path <= Child(p, step).path;
    }
  }

  lemma SameHere(v: View, v': View, p: Address)
    requires Kept(v, v', p)
    ensures Get(v.mem, p) == Get(v'.mem, p)
  {
    assert Under(p, p);
    SameCell(v.mem, v'.mem, p);
  }

  lemma MarkedStays(v: View, v': View, p: Address, k: Mark)
    requires Kept(v, v', p) && Marked(v, p, k)
    ensures Marked(v', p, k)
  {
    hide Get, Aside, Kept;
    var d: nat :| Aside(v, d) && HasMeta(v.mem, d, k)
                  && Get(v.mem, p).MapCell? && "RefMetadata" in Get(v.mem, p).vals && Get(v.mem, p).vals["RefMetadata"] == Ref(Root(d));
    AsideStays(v, v', p, d);
    SameHere(v, v', p);
    assert HasMeta(v'.mem, d, k);
  }

  lemma {:induction false} ResultStays(v: View, v': View, p: Address, x: Val, fields: Fields, mark: Mark, under: bool)
    requires !NoRefKeys(v.site.w, fields) && Kept(v, v', p) && ShowsResult(v, p, x, fields, mark, under)
    ensures v'.site == v.site && ShowsResult(v', p, x, fields, mark, under)
    decreases Obj(fields)
  {
    hide ShowsLead, ShowsObject, Leads, Marked, NoRefKeys;
    var key := RefKey(v.site.w, fields);
    var ref := fields[key];
    KeptChild(v, v', p, Key(key));
    if ref.Obj? {
      if NoRefKeys(v.site.w, ref.fields) {
        MarkedStays(v, v', Child(p, Key(key)), mark);
      } else {
        ResultStays(v, v', Child(p, Key(key)), x, ref.fields, mark, true);
      }
    } else {
      AtomStays(v, v', p, x, ref, mark);
    }
  }

  lemma AtomStays(v: View, v': View, p: Address, x: Val, ref: Json, mark: Mark)
    requires Kept(v, v', p)
    ensures ShowsObject(v, x, map[], Some(mark)) ==> ShowsObject(v', x, map[], Some(mark))
    ensures ref.Str? && ShowsLead(v, x, ref.s, true, None) ==> ShowsLead(v', x, ref.s, true, None)
    ensures ref.Str? && ShowsLead(v, x, ref.s, true, Some(mark)) ==> ShowsLead(v', x, ref.s, true, Some(mark))
  {
    hide ShowsLead, ShowsObject, Leads, Kept;
    if ShowsObject(v, x, map[], Some(mark)) {
      ObjectStays(v, v', p, x, map[], Some(mark));
    }
    if ref.Str? && ShowsLead(v, x, ref.s, true, None) {
      LeadStays(v, v', p, x, ref.s, true, None);
    }
    if ref.Str? && ShowsLead(v, x, ref.s, true, Some(mark)) {
      LeadStays(v, v', p, x, ref.s, true, Some(mark));
    }
  }

  lemma HeldStays(v: View, v': View, p: Address, fields: Fields)
    requires !NoRefKeys(v.site.w, fields) && Kept(v, v', p) && HeldCell(v, p, fields)
    ensures v'.site == v.site && HeldCell(v', p, fields)
  {
    hide Get, NoRefKeys;
    SameHere(v, v', p);
    forall key | key in fields && key != RefKey(v.site.w, fields) ensures Untouched(v'.mem, Child(p, Key(key)), fields[key]) {
      KeptChild(v, v', p, Key(key));
      UntouchedStays(v, v', Child(p, Key(key)), fields[key]);
    }
  }

  lemma UntouchedStays(v: View, v': View, p: Address, j: Json)
    requires Kept(v, v', p) && Untouched(v.mem, p, j)
    ensures Untouched(v'.mem, p, j)
  {
    forall a | a in v'.mem.changed ensures !Under(p, a) {
      assert Under(p, a) ==> SameAt(v.mem, v'.mem, a);
    }
  }

  lemma KeptOlder(v: View, v': View, p: Address, x: Val)
    requires Kept(v, v', p) && p.doc < |Older(v, x).mem.docs|
    requires x.Ref? && x.at.path == [] ==> x.at.doc < |v.mem.docs|
    ensures Kept(Older(v, x), Older(v', x), p)
  {
    var o, o' := Older(v, x), Older(v', x);
    assert o.mem.docs <= o'.mem.docs;
  }

  /** What a container under a reference has given way to is in the document, or an object of its own. */
  lemma {:induction false} ResultThere(v: View, p: Address, x: Val, fields: Fields, mark: Mark, under: bool)
    requires !NoRefKeys(v.site.w, fields) && ShowsResult(v, p, x, fields, mark, under)
    requires under || Container(fields[RefKey(v.site.w, fields)])
    requires x.Ref? && x.at.path == []
    ensures Aside(v, x.at.doc)
    decreases Obj(fields)
  {
    hide Leads, NoRefKeys, HoldsMeta, Marked, Parts, Sections, OnlyFilePath, Get, Aside;
    var key := RefKey(v.site.w, fields);
    var ref := fields[key];
    if ref.Obj? && !NoRefKeys(v.site.w, ref.fields) {
      ResultThere(v, Child(p, Key(key)), x, ref.fields, mark, true);
    }
  }

  lemma {:induction false} ShowsStays(v: View, v': View, p: Address, x: Val, value: Json, refBool: bool)
    requires Kept(v, v', p) && Shows(v, p, x, value, refBool)
    ensures Shows(v', p, x, value, refBool)
    decreases value, 0
  {
    hide ShowsLead, ShowsObject, ShowsResult, ShowsLeft, HeldCell, Get, Aside, Older, NoRefKeys;
    match value
    case Str(s) => LeadStays(v, v', p, x, s, refBool, None);
    case List(items) =>
      SameHere(v, v', p);
      forall i | 0 <= i < |items| ensures Shows(v', Child(p, Index(i)), Get(v.mem, p).elems[i], items[i], refBool) {
        KeptChild(v, v', p, Index(i));
        ShowsStays(v, v', Child(p, Index(i)), Get(v.mem, p).elems[i], items[i], refBool);
      }
    case Obj(fields) =>
      if NoRefKeys(v.site.w, fields) {
        SameHere(v, v', p);
        forall key | key in fields ensures Shows(v', Child(p, Key(key)), Get(v.mem, p).vals[key], fields[key], false) {
          KeptChild(v, v', p, Key(key));
          ShowsStays(v, v', Child(p, Key(key)), Get(v.mem, p).vals[key], fields[key], false);
        }
      } else {
        var key := RefKey(v.site.w, fields);
        var mark := Mark(Slot(Child(p, Key(key)), fields[key]), |fields| == 1);
        ResultStays(v, v', p, x, fields, mark, false);
        HeldStays(v, v', p, fields);
        if Container(fields[key]) {
          OlderStays(v, v', p, x, fields, mark);
          KeptChild(Older(v, x), Older(v', x), p, Key(key));
          LeftStays(Older(v, x), Older(v', x), Child(p, Key(key)), fields[key]);
        }
      }
    case _ =>
  }

  lemma OlderStays(v: View, v': View, p: Address, x: Val, fields: Fields, mark: Mark)
    requires !NoRefKeys(v.site.w, fields) && Container(fields[RefKey(v.site.w, fields)])
    requires Kept(v, v', p) && p.doc < |Older(v, x).mem.docs| && ShowsResult(v, p, x, fields, mark, false)
    ensures Kept(Older(v, x), Older(v', x), p) && p.doc < |Older(v', x).mem.docs|
  {
    hide ShowsResult, NoRefKeys, SameAt;
    if x.Ref? && x.at.path == [] {
      ResultThere(v, p, x, fields, mark, false);
    }
    KeptOlder(v, v', p, x);
  }

  lemma {:induction false} LeftStays(v: View, v': View, p: Address, ref: Json)
    requires Kept(v, v', p) && ShowsLeft(v, p, ref)
    ensures ShowsLeft(v', p, ref)
    decreases ref, 1
  {
    hide Shows, HeldCell, NoRefKeys;
    match ref
    case List(_) => ShowsStays(v, v', p, Ref(p), ref, true);
    case Obj(fields) =>
      if !NoRefKeys(v.site.w, fields) {
        var key := RefKey(v.site.w, fields);
        HeldStays(v, v', p, fields);
        KeptChild(v, v', p, Key(key));
        LeftStays(v, v', Child(p, Key(key)), fields[key]);
      }
    case _ =>
  }

  // ---- The objects of files ----

  /** The object of a file is as expected, and only metadata was written into it. */
  ghost predicate Tagged(v: View, file: string, tags: map<string, Meta>, limit: nat)
    requires file in v.cache
  {
    var d := v.cache[file].doc;
    && d < |v.mem.docs| && v.site.plan.objs(file) == Some(v.mem.docs[d])
    && (forall a | a in v.mem.changed && a.doc == d :: a.path == [])
    && if file in tags then
         v.mem.docs[d].Obj? && HoldsMeta(v, Root(d), CellOf(Root(d), v.mem.docs[d]).vals, AtomMark(tags[file]), limit)
       else Root(d) !in v.mem.changed
  }

  /** Every file that was loaded is as expected, and shows the metadata of `tags`. */
  ghost predicate Settled(v: View, tags: map<string, Meta>, limit: nat) {
    && tags.Keys <= v.cache.Keys && v.site.plan.held <= v.cache.Keys
    && (forall file | file in tags :: (file, tags[file]) in v.site.plan.all)
    && (forall file | file in v.cache :: Tagged(v, file, tags, limit))
    && (forall file, other | file in v.cache && other in v.cache && file != other :: v.cache[file].doc != v.cache[other].doc)
  }

  /** Nothing has changed in the objects of files and in what is older than `limit`, apart from the
      document. */
  ghost predicate SameElsewhere(v: View, v': View, limit: nat) {
    && v'.site == v.site && v'.doc == v.doc && v.mem.docs <= v'.mem.docs && v.doc !in Files(v.cache)
    && (v.doc < |v.mem.docs| ==> v.mem.docs[v.doc] != Null)
    && forall a: Address | a.doc < |v.mem.docs| && a.doc != v.doc && (a.doc < limit || a.doc in Files(v.cache)) ::
         SameAt(v.mem, v'.mem, a)
  }

  lemma HoldsElsewhere(v: View, v': View, a: Address, vals: map<string, Val>, k: Mark, limit: nat)
    requires SameElsewhere(v, v', limit) && HoldsMeta(v, a, vals, k, limit)
    requires forall d | d < |v.mem.docs| && d in Files(v'.cache) :: d in Files(v.cache)
    requires a.doc < |v.mem.docs| && a.doc in Files(v.cache)
    ensures HoldsMeta(v', a, vals, k, limit)
  {
    hide Get, HasMeta;
    SameCell(v.mem, v'.mem, a);
    forall d: nat | d < limit && Aside(v, d) ensures Aside(v', d) && Get(v'.mem, Root(d)) == Get(v.mem, Root(d)) {
      SameCell(v.mem, v'.mem, Root(d));
    }
    HoldsStays(v, v', a, vals, k, limit);
  }

  lemma TaggedElsewhere(v: View, v': View, file: string, tags: map<string, Meta>, limit: nat)
    requires SameElsewhere(v, v', limit)
    requires forall d | d < |v.mem.docs| && d in Files(v'.cache) :: d in Files(v.cache)
    requires file in v.cache && file in v'.cache && v'.cache[file] == v.cache[file] && Tagged(v, file, tags, limit)
    ensures Tagged(v', file, tags, limit)
  {
    hide Get, Files, HasMeta;
    var d := v.cache[file].doc;
    FileIn(v.cache, file);
    forall a | a in v'.mem.changed && a.doc == d ensures a.path == [] {
      assert SameAt(v.mem, v'.mem, a);
    }
    assert SameAt(v.mem, v'.mem, Root(d));
    if file in tags {
      HoldsElsewhere(v, v', Root(d), CellOf(Root(d), v.mem.docs[d]).vals, AtomMark(tags[file]), limit);
    }
  }

  lemma SettledElsewhere(v: View, v': View, tags: map<string, Meta>, limit: nat)
    requires Settled(v, tags, limit) && v'.cache == v.cache && SameElsewhere(v, v', limit)
    ensures Settled(v', tags, limit)
  {
    hide Tagged, SameAt, Files;
    forall file | file in v.cache ensures Tagged(v', file, tags, limit) {
      TaggedElsewhere(v, v', file, tags, limit);
    }
  }

  lemma SettledMore(v: View, tags: map<string, Meta>, limit: nat, more: nat)
    requires Settled(v, tags, limit) && limit <= more
    ensures Settled(v, tags, more)
  {
    hide HoldsMeta, Get;
    forall file | file in v.cache ensures Tagged(v, file, tags, more) {
      var d := v.cache[file].doc;
      if file in tags {
        HoldsMore(v, Root(d), CellOf(Root(d), v.mem.docs[d]).vals, AtomMark(tags[file]), limit, more);
      }
    }
  }

  /** The files are settled whatever document is resolved. */
  lemma SettledOther(v: View, v': View, tags: map<string, Meta>, limit: nat)
    requires Settled(v, tags, limit) && v'.mem == v.mem && v'.cache == v.cache && v'.site.plan == v.site.plan
    ensures Settled(v', tags, limit)
  {
    hide Get, CellOf;
    forall file | file in v.cache ensures Tagged(v', file, tags, limit) {
      assert Tagged(v, file, tags, limit);
      if file in tags {
        var d := v.cache[file].doc;
        assert v.mem.docs[d].Obj?;
        HoldsOther(v, v', file, tags, limit);
      }
    }
  }

  lemma HoldsOther(v: View, v': View, file: string, tags: map<string, Meta>, limit: nat)
    requires file in v.cache && file in tags && Tagged(v, file, tags, limit)
    requires v'.mem == v.mem && v'.cache == v.cache && v'.site.plan == v.site.plan
    ensures Tagged(v', file, tags, limit)
  {
    var d := v.cache[file].doc;
    HoldsStays(v, v', Root(d), CellOf(Root(d), v.mem.docs[d]).vals, AtomMark(tags[file]), limit);
  }

  /** One more file was loaded. */
  lemma SettledLoaded(v: View, v': View, tags: map<string, Meta>, limit: nat, file: string, c: Cached)
    requires Settled(v, tags, limit) && SameElsewhere(v, v', limit)
    requires file !in v.cache && v'.cache == v.cache[file := c]
    requires |v.mem.docs| <= c.doc < |v'.mem.docs| && v.site.plan.objs(file) == Some(v'.mem.docs[c.doc])
    requires forall a | a in v'.mem.changed :: a.doc != c.doc
    ensures Settled(v', tags, limit)
  {
    hide SameElsewhere, Tagged;
    FilesOld(v, v', file, c);
    forall other | other in v.cache ensures v'.cache[other].doc < |v.mem.docs| && Tagged(v', other, tags, limit) {
      TaggedElsewhere(v, v', other, tags, limit);
      TaggedBound(v, other, tags, limit);
    }
    NewTagged(v, v', file, tags, limit);
    SameSite(v, v', limit);
  }

  lemma TaggedBound(v: View, file: string, tags: map<string, Meta>, limit: nat)
    requires file in v.cache && Tagged(v, file, tags, limit)
    ensures v.cache[file].doc < |v.mem.docs|
  {
  }

  lemma SameSite(v: View, v': View, limit: nat)
    requires SameElsewhere(v, v', limit)
    ensures v'.site == v.site
  {
  }

  lemma NewTagged(v: View, v': View, file: string, tags: map<string, Meta>, limit: nat)
    requires SameElsewhere(v, v', limit) && file !in tags && file in v'.cache
    requires
      var d := v'.cache[file].doc;
      && |v.mem.docs| <= d < |v'.mem.docs| && v.site.plan.objs(file) == Some(v'.mem.docs[d])
      && forall a | a in v'.mem.changed :: a.doc != d
    ensures Tagged(v', file, tags, limit)
  {
  }

  lemma FilesOld(v: View, v': View, file: string, c: Cached)
    requires file !in v.cache && v'.cache == v.cache[file := c] && |v.mem.docs| <= c.doc
    ensures forall d | d < |v.mem.docs| && d in Files(v'.cache) :: d in Files(v.cache)
  {
    forall d | d < |v.mem.docs| && d in Files(v'.cache) ensures d in Files(v.cache) {
      var other :| other in v'.cache && v'.cache[other].doc == d;
      assert other in v.cache;
    }
  }

  lemma FilesBound(v: View, tags: map<string, Meta>, limit: nat)
    requires Settled(v, tags, limit)
    ensures forall d | d in Files(v.cache) :: d < |v.mem.docs|
  {
    forall file | file in v.cache ensures v.cache[file].doc < |v.mem.docs| {
      assert Tagged(v, file, tags, limit);
    }
  }

  /** The object of a file is used with metadata. */
  lemma SettledTagged(v: View, v': View, tags: map<string, Meta>, limit: nat, file: string, m: Meta)
    requires Settled(v, tags, limit) && v'.site == v.site && v'.cache == v.cache
    requires Formed(v.mem) && limit <= |v.mem.docs| && (file, m) in v.site.plan.all
    requires file in v.cache && v.mem.docs[v.cache[file].doc].Obj?
    requires v'.mem == AddMetadata(v.mem, Ref(Root(v.cache[file].doc)), Atom(m.ref), m.alone).0
    ensures Settled(v', tags[file := m], |v'.mem.docs|)
    ensures AddMetadata(v.mem, Ref(Root(v.cache[file].doc)), Atom(m.ref), m.alone).1 == Ref(Root(v.cache[file].doc))
  {
    hide Tagged, AddMetadata, Get;
    FileCell(v, tags, limit, file);
    FilesBound(v, tags, limit);
    FileIn(v.cache, file);
    AddToObject(v.mem, Root(v.cache[file].doc), Atom(m.ref), m.alone);
    forall other | other in v.cache ensures Tagged(v', other, tags[file := m], |v'.mem.docs|) {
      if other != file {
        TaggedAside(v, v', other, tags, limit, file, m);
      } else {
        TaggedItself(v, v', tags, limit, file, m);
      }
    }
  }

  lemma TaggedItself(v: View, v': View, tags: map<string, Meta>, limit: nat, file: string, m: Meta)
    requires Settled(v, tags, limit) && v'.site == v.site && v'.cache == v.cache
    requires Formed(v.mem) && file in v.cache && v.mem.docs[v.cache[file].doc].Obj?
    requires v'.mem == AddMetadata(v.mem, Ref(Root(v.cache[file].doc)), Atom(m.ref), m.alone).0
    ensures Tagged(v', file, tags[file := m], |v'.mem.docs|)
  {
    hide Get, AddMetadata, HoldsMeta;
    FileCell(v, tags, limit, file);
    FilesBound(v, tags, limit);
    var root := Root(v.cache[file].doc);
    TagWritten(v, v', file, m, CellOf(root, v.mem.docs[root.doc]).vals);
    AddToObject(v.mem, root, Atom(m.ref), m.alone);
    assert Tagged(v, file, tags, limit);
    forall a | a in v'.mem.changed && a.doc == root.doc ensures a.path == [] {
      if a != root {
        assert SameAt(v.mem, v'.mem, a);
      }
    }
  }

  /** Equal apart from metadata. */
  predicate SameFields(vals: map<string, Val>, other: map<string, Val>) {
    vals - {"RefMetadata"} == other - {"RefMetadata"}
  }

  lemma MetaOver(vals: map<string, Val>, other: map<string, Val>, meta: Val)
    requires SameFields(vals, other)
    ensures vals["RefMetadata" := meta] == other["RefMetadata" := meta]
  {
    var x, y := vals["RefMetadata" := meta], other["RefMetadata" := meta];
    forall key ensures key in x <==> key in y {
      assert key != "RefMetadata" ==> (key in vals <==> key in vals - {"RefMetadata"});
      assert key != "RefMetadata" ==> (key in other <==> key in other - {"RefMetadata"});
    }
    forall key | key in x ensures x[key] == y[key] {
      if key != "RefMetadata" {
        assert x[key] == (vals - {"RefMetadata"})[key] && y[key] == (other - {"RefMetadata"})[key];
      }
    }
  }

  /** The object of a file holds what it was decoded with, apart from metadata. */
  lemma FileCell(v: View, tags: map<string, Meta>, limit: nat, file: string)
    requires Settled(v, tags, limit) && file in v.cache && v.mem.docs[v.cache[file].doc].Obj?
    ensures
      var root := Root(v.cache[file].doc);
      var vals := CellOf(root, v.mem.docs[root.doc]).vals;
      && Get(v.mem, root).MapCell?
      && SameFields(Get(v.mem, root).vals, vals)
  {
    assert Tagged(v, file, tags, limit);
  }

  lemma TagWritten(v: View, v': View, file: string, m: Meta, vals: map<string, Val>)
    requires file in v.cache && v.cache[file].doc < |v.mem.docs| && Formed(v.mem)
    requires v'.site == v.site && v'.cache == v.cache
    requires
      var root := Root(v.cache[file].doc);
      && Get(v.mem, root).MapCell?
      && SameFields(Get(v.mem, root).vals, vals)
    requires forall f | f in v.cache :: v.cache[f].doc < |v.mem.docs|
    requires v'.mem == AddMetadata(v.mem, Ref(Root(v.cache[file].doc)), Atom(m.ref), m.alone).0
    ensures HoldsMeta(v', Root(v.cache[file].doc), vals, AtomMark(m), |v'.mem.docs|)
  {
    var root, q := Root(v.cache[file].doc), |v.mem.docs|;
    AddToObject(v.mem, root, Atom(m.ref), m.alone);
    MetaOver(Get(v.mem, root).vals, vals, Ref(Root(q)));
    assert Aside(v', q) && HasMeta(v'.mem, q, AtomMark(m));
  }

  lemma TaggedAside(v: View, v': View, other: string, tags: map<string, Meta>, limit: nat, file: string, m: Meta)
    requires Settled(v, tags, limit) && v'.site == v.site && v'.cache == v.cache
    requires Formed(v.mem) && limit <= |v.mem.docs|
    requires file in v.cache && other in v.cache && other != file && v.mem.docs[v.cache[file].doc].Obj?
    requires v'.mem == AddMetadata(v.mem, Ref(Root(v.cache[file].doc)), Atom(m.ref), m.alone).0
    ensures Tagged(v', other, tags[file := m], |v'.mem.docs|)
  {
    hide Get, AddMetadata, HasMeta, Files, HoldsMeta;
    FileCell(v, tags, limit, file);
    var root, d := Root(v.cache[file].doc), v.cache[other].doc;
    AddToObject(v.mem, root, Atom(m.ref), m.alone);
    assert Tagged(v, other, tags, limit) && d != root.doc;
    forall a | a in v'.mem.changed && a.doc == d ensures a.path == [] {
      assert SameAt(v.mem, v'.mem, a);
    }
    assert SameAt(v.mem, v'.mem, Root(d));
    SameCell(v.mem, v'.mem, Root(d));
    if other in tags {
      forall q: nat | q < limit && Aside(v, q) ensures Aside(v', q) && Get(v'.mem, Root(q)) == Get(v.mem, Root(q)) {
        FileIn(v.cache, file);
        SameCell(v.mem, v'.mem, Root(q));
      }
      HoldsStays(v, v', Root(d), CellOf(Root(d), v.mem.docs[d]).vals, AtomMark(tags[other]), limit);
      HoldsMore(v', Root(d), CellOf(Root(d), v.mem.docs[d]).vals, AtomMark(tags[other]), limit, |v'.mem.docs|);
    }
  }

  // ---- The document ----

  /** An object without references stays where it is, and so does all in which nothing is resolved. */
  predicate Steady(site: Site, j: Json) {
    Still(site, j) || (j.Obj? && NoRefKeys(site.w, j.fields))
  }

  /** The path leads through objects without references. */
  predicate Plain(site: Site, j: Json, path: seq<Step>)
    decreases path
  {
    path != [] ==>
      && j.Obj? && NoRefKeys(site.w, j.fields) && path[0].Key? && path[0].name in j.fields
      && Plain(site, j.fields[path[0].name], path[1..])
  }

  ghost predicate AnchoredAt(v: View, path: seq<Step>, j: Json) {
    var a := Address(v.doc, path);
    && (Still(v.site, j) ==> Untouched(v.mem, a, j))
    && (j.Obj? && NoRefKeys(v.site.w, j.fields) ==>
          && Get(v.mem, a).MapCell? && Get(v.mem, a).vals.Keys == j.fields.Keys
          && forall key | key in j.fields && Steady(v.site, j.fields[key]) ::
               Get(v.mem, a).vals[key] == Slot(Child(a, Key(key)), j.fields[key]))
  }

  /** Whatever has been resolved in the document, what references may lead to is still in place. */
  ghost predicate Anchors(v: View) {
    && v.doc < |v.mem.docs| && v.mem.docs[v.doc] == v.site.full
    && forall path | At(v.site.full, path).Some? && Plain(v.site, v.site.full, path) ::
         AnchoredAt(v, path, At(v.site.full, path).value)
  }

  /** The files are as expected, and so is the document. */
  ghost predicate Calm(v: View, tags: map<string, Meta>, limit: nat) {
    Settled(v, tags, limit) && Anchors(v) && v.doc !in Files(v.cache) && v.site.full != Null
  }

  lemma {:induction false} AtMore(j: Json, path: seq<Step>, rest: seq<Step>)
    requires At(j, path).Some?
    ensures At(j, path + rest) == At(At(j, path).value, rest)
    decreases path
  {
    if path == [] {
      assert path + rest == rest;
    } else {
      assert (path + rest)[1..] == path[1..] + rest;
      AtMore(OneStep(j, path[0]).value, path[1..], rest);
    }
  }

  lemma {:induction false} StillBelow(site: Site, j: Json, path: seq<Step>)
    requires Still(site, j) && At(j, path).Some?
    ensures Still(site, At(j, path).value)
    decreases path
  {
    if path != [] {
      StillBelow(site, OneStep(j, path[0]).value, path[1..]);
    }
  }

  lemma UntouchedBelow(mem: Memory, p: Address, j: Json, path: seq<Step>)
    requires Untouched(mem, p, j) && At(j, path).Some?
    ensures Untouched(mem, Address(p.doc, p.path + path), At(j, path).value)
  {
    AtMore(mem.docs[p.doc], p.path, path);
    forall a | a in mem.changed ensures !Under(Address(p.doc, p.path + path), a) {
      assert p.path <= p.path + path;
    }
  }

  lemma FreshAnchors(v: View)
    requires v.doc < |v.mem.docs| && Untouched(v.mem, Root(v.doc), v.site.full)
    ensures Anchors(v)
  {
    hide Still, NoRefKeys, At, Plain;
    forall path | At(v.site.full, path).Some? ensures AnchoredAt(v, path, At(v.site.full, path).value) {
      UntouchedBelow(v.mem, Root(v.doc), v.site.full, path);
      assert [] + path == path;
      if Container(At(v.site.full, path).value) {
        UntouchedCell(v.mem, Address(v.doc, path), At(v.site.full, path).value);
      }
    }
    FullAt(v.mem, v.doc, v.site.full);
  }

  lemma FullAt(mem: Memory, doc: nat, full: Json)
    requires Untouched(mem, Root(doc), full)
    ensures mem.docs[doc] == full
  {
  }

  lemma AnchorsElsewhere(v: View, v': View)
    requires Anchors(v) && v'.site == v.site && v'.doc == v.doc && v.mem.docs <= v'.mem.docs
    requires forall a: Address | a.doc == v.doc :: SameAt(v.mem, v'.mem, a)
    ensures Anchors(v')
  {
    hide Still, NoRefKeys, At, Plain;
    forall path | At(v.site.full, path).Some? && Plain(v.site, v.site.full, path)
      ensures AnchoredAt(v', path, At(v.site.full, path).value)
    {
      var a, j := Address(v.doc, path), At(v.site.full, path).value;
      assert AnchoredAt(v, path, j);
      SameCell(v.mem, v'.mem, a);
      if Still(v.site, j) {
        StillThere(v.mem, v'.mem, a, j);
      }
    }
  }

  lemma StillThere(m: Memory, m': Memory, p: Address, j: Json)
    requires Untouched(m, p, j) && m.docs <= m'.docs
    requires forall a: Address | a.doc == p.doc :: SameAt(m, m', a)
    ensures Untouched(m', p, j)
  {
    forall a | a in m'.changed ensures !Under(p, a) {
      if a.doc == p.doc {
        assert SameAt(m, m', a);
      }
    }
  }

  /** Nothing that is still lies at `path` or above, as far as references lead. */
  ghost predicate Open(site: Site, path: seq<Step>) {
    forall other | other <= path && At(site.full, other).Some? && Plain(site, site.full, other) ::
      !Still(site, At(site.full, other).value)
  }

  lemma OpenHere(site: Site, path: seq<Step>)
    requires At(site.full, path).Some? && !Still(site, At(site.full, path).value)
    ensures Open(site, path)
  {
    hide Still;
    forall other | other <= path && At(site.full, other).Some? ensures !Still(site, At(site.full, other).value) {
      assert path == other + path[|other|..];
      AtMore(site.full, other, path[|other|..]);
      if Still(site, At(site.full, other).value) {
        StillBelow(site, At(site.full, other).value, path[|other|..]);
      }
    }
  }

  /** References do not lead below an object with a reference. */
  lemma OpenBelow(site: Site, path: seq<Step>, rest: seq<Step>)
    requires At(site.full, path).Some? && At(site.full, path).value.Obj? && !NoRefKeys(site.w, At(site.full, path).value.fields)
    requires rest != []
    ensures Open(site, path + rest) && !Plain(site, site.full, path + rest)
  {
    hide Still, NoRefKeys;
    OpenReference(site, path);
    forall other | other <= path + rest && At(site.full, other).Some? && Plain(site, site.full, other)
      ensures !Still(site, At(site.full, other).value)
    {
      if |other| > |path| {
        assert other == path + other[|path|..];
        PlainStops(site, site.full, path, other[|path|..]);
      } else {
        assert other <= path;
      }
    }
    PlainStops(site, site.full, path, rest);
  }

  /** References do not lead below a list. */
  lemma OpenItem(site: Site, path: seq<Step>, i: nat)
    requires Open(site, path) && At(site.full, path).Some? && At(site.full, path).value.List?
    ensures Open(site, path + [Index(i)])
  {
    hide Still, NoRefKeys;
    forall other | other <= path + [Index(i)] && At(site.full, other).Some? && Plain(site, site.full, other)
      ensures !Still(site, At(site.full, other).value)
    {
      if |other| > |path| {
        assert other == path + [Index(i)];
        PlainStops(site, site.full, path, [Index(i)]);
      } else {
        assert other <= path;
      }
    }
  }

  lemma OpenReference(site: Site, path: seq<Step>)
    requires At(site.full, path).Some? && At(site.full, path).value.Obj? && !NoRefKeys(site.w, At(site.full, path).value.fields)
    ensures Open(site, path)
  {
    OpenHere(site, path);
  }

  lemma {:induction false} PlainStops(site: Site, j: Json, path: seq<Step>, rest: seq<Step>)
    requires At(j, path).Some? && rest != [] && (At(j, path).value.Obj? ==> !NoRefKeys(site.w, At(j, path).value.fields))
    ensures !Plain(site, j, path + rest)
    decreases path
  {
    if path == [] {
      assert path + rest == rest;
    } else {
      assert (path + rest)[0] == path[0] && (path + rest)[1..] == path[1..] + rest;
      if j.Obj? && path[0].Key? && path[0].name in j.fields {
        PlainStops(site, j.fields[path[0].name], path[1..], rest);
      }
    }
  }

  /** The place at `path` has changed: no reference leads there, or what is steady in it was left where it is. */
  lemma AnchorsWritten(v: View, v': View, path: seq<Step>)
    requires Anchors(v) && v'.site == v.site && v'.doc == v.doc && v.mem.docs <= v'.mem.docs
    requires forall a: Address | a.doc == v.doc && a.path != path :: SameAt(v.mem, v'.mem, a)
    requires At(v.site.full, path).Some? && Open(v.site, path)
    requires
      var j := At(v.site.full, path).value;
      Plain(v.site, v.site.full, path) && j.Obj? && NoRefKeys(v.site.w, j.fields) ==>
        var cell := Get(v'.mem, Address(v.doc, path));
        && cell.MapCell? && cell.vals.Keys == j.fields.Keys
        && forall key | key in j.fields && Steady(v.site, j.fields[key]) ::
             cell.vals[key] == Slot(Child(Address(v.doc, path), Key(key)), j.fields[key])
    ensures Anchors(v')
  {
    hide Still, NoRefKeys, At, Plain;
    forall other | At(v.site.full, other).Some? && Plain(v.site, v.site.full, other)
      ensures AnchoredAt(v', other, At(v.site.full, other).value)
    {
      var a, j := Address(v.doc, other), At(v.site.full, other).value;
      assert AnchoredAt(v, other, j);
      if other != path {
        SameCell(v.mem, v'.mem, a);
      }
      if Still(v.site, j) {
        StillAside(v, v', path, other);
      }
    }
  }

  lemma StillAside(v: View, v': View, path: seq<Step>, other: seq<Step>)
    requires v.doc < |v.mem.docs| && v.mem.docs[v.doc] == v.site.full && v.mem.docs <= v'.mem.docs
    requires forall a: Address | a.doc == v.doc && a.path != path :: SameAt(v.mem, v'.mem, a)
    requires Open(v.site, path)
    requires At(v.site.full, other).Some? && Plain(v.site, v.site.full, other) && Still(v.site, At(v.site.full, other).value)
    requires Untouched(v.mem, Address(v.doc, other), At(v.site.full, other).value)
    ensures Untouched(v'.mem, Address(v.doc, other), At(v.site.full, other).value)
  {
    forall a | a in v'.mem.changed ensures !Under(Address(v.doc, other), a) {
      assert a.doc == v.doc && a.path != path ==> SameAt(v.mem, v'.mem, a);
    }
  }
}
