/** References in JSON documents: what a reference leads to, how it is put in, and what a document
    shows afterwards. */
module References {
  import opened Wrappers
  import opened YamlDocument
  import opened Strings
  import opened SharedMemory

  type Content = string

  /** What the resolver finds outside: its two settings, the file system, the JSON library, and tests
      on texts. `marshal` writes what a value in memory unfolds to, `write` writes a tree. `join` puts
      a reference behind the directory of a file; `refKey` and `cfnRef` look for "$ref" and "!ref" in
      any case. All of it is arbitrary, and fixed during a run. */
  datatype World = World(
    maxDepth: nat, resolveReferences: bool,
    files: map<string, Content>, present: string -> bool, supported: string -> bool,
    unmarshal: Content -> Option<Json>, marshal: (Memory, Val) -> Option<Content>, write: Json -> Option<Content>,
    isOpenAPI: Content -> bool,
    join: (string, string) -> string, base: string -> string,
    refKey: string -> bool, cfnRef: string -> bool)

  /** The JSON library writes the tree that a value unfolds to, and fails on a cycle. */
  ghost predicate Library(w: World) {
    && (forall mem, v, n: nat | Read(mem, v, n).Some? :: w.marshal(mem, v) == w.write(Read(mem, v, n).value))
    && (forall mem, v | (forall n: nat :: Read(mem, v, n).None?) :: w.marshal(mem, v) == None)
  }

  // ---- Circular references in trees ----

  function FindSection(obj: Json, sections: seq<string>): Option<Json>
    decreases sections
  {
    if sections == [] then Some(obj)
    else if obj.Obj? && sections[0] in obj.fields then FindSection(obj.fields[sections[0]], sections[1..])
    else None
  }

  function Slashed(s: string): string {
    seq(|s|, i requires 0 <= i < |s| => if s[i] == '\\' then '/' else s[i])
  }

  /** Whether `section` refers to `value`, looking no deeper than `depth` levels. */
  predicate Circular(value: string, section: Json, depth: nat)
    decreases depth
  {
    depth > 0 &&
    match section
    case Obj(fields) =>
      exists key | key in fields :: (key == "$ref" && fields[key] == Str(value)) || Circular(value, fields[key], depth - 1)
    case List(items) => exists i | 0 <= i < |items| :: Circular(value, items[i], depth - 1)
    case _ => false
  }

  /** Whether `section` refers to `value` at any depth. */
  predicate RefersTo(value: string, section: Json) {
    match section
    case Obj(fields) => exists key | key in fields :: (key == "$ref" && fields[key] == Str(value)) || RefersTo(value, fields[key])
    case List(items) => exists i | 0 <= i < |items| :: RefersTo(value, items[i])
    case _ => false
  }

  /** Whether an object exactly `k` levels deep refers to `value`. */
  predicate FoundAt(value: string, section: Json, k: nat)
    decreases k
  {
    match section
    case Obj(fields) =>
      if k == 0 then "$ref" in fields && fields["$ref"] == Str(value)
      else exists key | key in fields :: FoundAt(value, fields[key], k - 1)
    case List(items) => k > 0 && exists i | 0 <= i < |items| :: FoundAt(value, items[i], k - 1)
    case _ => false
  }

  lemma {:induction false} CircularIsFound(value: string, section: Json, depth: nat)
    ensures Circular(value, section, depth) <==> exists k: nat :: k < depth && FoundAt(value, section, k)
    decreases depth
  {
    hide FoundAt, Circular;
    if Circular(value, section, depth) {
      var k := WhereCircular(value, section, depth);
      assert k < depth && FoundAt(value, section, k);
    }
    if exists k: nat :: k < depth && FoundAt(value, section, k) {
      var k: nat :| k < depth && FoundAt(value, section, k);
      FoundIsCircular(value, section, depth, k);
    }
  }

  lemma {:induction false} WhereCircular(value: string, section: Json, depth: nat) returns (k: nat)
    requires Circular(value, section, depth)
    ensures k < depth && FoundAt(value, section, k)
    decreases depth
  {
    match section
    case Obj(fields) =>
      if "$ref" in fields && fields["$ref"] == Str(value) {
        k := 0;
      } else {
        var key :| key in fields && Circular(value, fields[key], depth - 1);
        var below := WhereCircular(value, fields[key], depth - 1);
        k := below + 1;
      }
    case List(items) =>
      var i :| 0 <= i < |items| && Circular(value, items[i], depth - 1);
      var below := WhereCircular(value, items[i], depth - 1);
      k := below + 1;
  }

  lemma {:induction false} FoundIsCircular(value: string, section: Json, depth: nat, k: nat)
    requires k < depth && FoundAt(value, section, k)
    ensures Circular(value, section, depth)
    decreases k
  {
    match section
    case Obj(fields) =>
      if k == 0 {
        assert "$ref" in fields;
      } else {
        var key :| key in fields && FoundAt(value, fields[key], k - 1);
        FoundIsCircular(value, fields[key], depth - 1, k - 1);
      }
    case List(items) =>
      var i :| 0 <= i < |items| && FoundAt(value, items[i], k - 1);
      FoundIsCircular(value, items[i], depth - 1, k - 1);
  }

  lemma {:induction false} WhereReferred(value: string, section: Json) returns (k: nat)
    requires RefersTo(value, section)
    ensures FoundAt(value, section, k)
    decreases section
  {
    match section
    case Obj(fields) =>
      if "$ref" in fields && fields["$ref"] == Str(value) {
        k := 0;
      } else {
        var key :| key in fields && RefersTo(value, fields[key]);
        var below := WhereReferred(value, fields[key]);
        k := below + 1;
      }
    case List(items) =>
      var i :| 0 <= i < |items| && RefersTo(value, items[i]);
      var below := WhereReferred(value, items[i]);
      k := below + 1;
  }

  lemma {:induction false} FoundIsReferred(value: string, section: Json, k: nat)
    requires FoundAt(value, section, k)
    ensures RefersTo(value, section)
    decreases k
  {
    match section
    case Obj(fields) =>
      if k == 0 {
        assert "$ref" in fields;
      } else {
        var key :| key in fields && FoundAt(value, fields[key], k - 1);
        FoundIsReferred(value, fields[key], k - 1);
      }
    case List(items) =>
      var i :| 0 <= i < |items| && FoundAt(value, items[i], k - 1);
      FoundIsReferred(value, items[i], k - 1);
  }

  /** The check raises no false alarm, and misses nothing in a section within its depth. */
  lemma {:induction false} CheckIsExact(value: string, section: Json, depth: nat)
    ensures Circular(value, section, depth) ==> RefersTo(value, section)
    ensures Shallow(section, depth) ==> (Circular(value, section, depth) <==> RefersTo(value, section))
    decreases depth
  {
    if depth > 0 {
      match section
      case Obj(fields) =>
        forall key | key in fields
          ensures Circular(value, fields[key], depth - 1) ==> RefersTo(value, fields[key])
          ensures Shallow(fields[key], depth - 1) ==> (Circular(value, fields[key], depth - 1) <==> RefersTo(value, fields[key]))
        {
          CheckIsExact(value, fields[key], depth - 1);
        }
      case List(items) =>
        forall i | 0 <= i < |items|
          ensures Circular(value, items[i], depth - 1) ==> RefersTo(value, items[i])
          ensures Shallow(items[i], depth - 1) ==> (Circular(value, items[i], depth - 1) <==> RefersTo(value, items[i]))
        {
          CheckIsExact(value, items[i], depth - 1);
        }
      case _ =>
    }
  }

  /** Every reference found at `depth` or deeper is also found above. */
  ghost predicate RepeatedAbove(section: Json, depth: nat) {
    forall value, k: nat | k >= depth && FoundAt(value, section, k) :: exists j: nat :: j < depth && FoundAt(value, section, j)
  }

  ghost predicate CheckRight(section: Json, depth: nat) {
    forall value :: Circular(value, section, depth) <==> RefersTo(value, section)
  }

  /** The check is right about every value exactly if each reference deeper down is repeated above. */
  lemma CheckRightIff(section: Json, depth: nat)
    ensures CheckRight(section, depth) <==> RepeatedAbove(section, depth)
  {
    hide FoundAt, Circular, RefersTo, Shallow;
    if CheckRight(section, depth) {
      forall value, k: nat | k >= depth && FoundAt(value, section, k)
        ensures exists j: nat :: j < depth && FoundAt(value, section, j)
      {
        FoundIsReferred(value, section, k);
        CircularIsFound(value, section, depth);
      }
    }
    if RepeatedAbove(section, depth) {
      forall value ensures Circular(value, section, depth) <==> RefersTo(value, section) {
        CheckIsExact(value, section, depth);
        if RefersTo(value, section) {
          var k := WhereReferred(value, section);
          var j: nat :| j < depth && FoundAt(value, section, j);
          FoundIsCircular(value, section, depth, j);
        }
      }
    }
  }

  /** At every depth there is a self-reference that the check misses. */
  lemma {:induction false} CheckMisses(value: string, depth: nat) returns (section: Json)
    ensures RefersTo(value, section) && !Circular(value, section, depth) && Shallow(section, depth + 1)
    decreases depth
  {
    if depth == 0 {
      section := Obj(map["$ref" := Str(value)]);
      assert "$ref" in section.fields;
    } else {
      var inner := CheckMisses(value, depth - 1);
      section := List([inner]);
      assert RefersTo(value, section.items[0]);
    }
  }

  function Sections(part: string): (r: seq<string>)
    requires part != ""
    ensures r != []
  {
    Split(Slashed(part)[1..], '/')
  }

  // ---- Which strings lead to files ----

  /** The text before the last '#'. */
  function GetPathFromString(s: string): string {
    if '#' !in s then s else if s[|s| - 1] == '#' then s[..|s| - 1] else GetPathFromString(s[..|s| - 1])
  }

  /** The reference that an object stands for, and whether it was alone in its object. */
  datatype Meta = Meta(ref: Json, alone: bool)

  /** What a run is expected to meet: the objects of files, the files that may be loaded and at which
      depth, the files that are loaded already, all metadata that may be written into objects of files,
      and that written while other files are loaded. */
  datatype Plan = Plan(objs: string -> Option<Json>, loads: (string, nat) -> bool, held: set<string>,
                       all: iset<(string, Meta)>, more: iset<(string, Meta)>)

  /** A document that is being resolved: its path, what it holds, how many files are being loaded around
      it, and what is expected. */
  datatype Site = Site(w: World, path: string, full: Json, count: nat, plan: Plan)

  predicate Skipped(site: Site, s: string, refBool: bool) {
    site.count >= site.w.maxDepth || ("#" <= s && !refBool) || (s == "#" && refBool)
  }

  /** Behind the first '#' is the section. */
  function Parts(site: Site, s: string): (r: seq<string>)
    ensures r != []
  {
    Split(if "#" <= s then site.path + s else site.w.join(site.path, s), '#')
  }

  function OnlyFilePath(site: Site, s: string): string {
    Split(site.w.join(site.path, s), '#')[0]
  }

  predicate Loadable(site: Site, s: string) {
    site.w.present(OnlyFilePath(site, s)) && site.w.supported(OnlyFilePath(site, s))
  }

  /** A reference to a file as a whole. */
  predicate Whole(site: Site, s: string) {
    site.w.cfnRef(s) || |Parts(site, s)| == 1
  }

  /** A value in which nothing is resolved: no reference keys, and no string that leads to a file. */
  predicate Still(site: Site, value: Json)
    decreases value
  {
    match value
    case Str(s) => site.w.base(site.path) == s || Skipped(site, s, false) || !Loadable(site, s)
    case List(items) => forall i | 0 <= i < |items| :: Still(site, items[i])
    case Obj(fields) => forall key | key in fields :: !site.w.refKey(key) && Still(site, fields[key])
    case _ => true
  }

  predicate LeftAlone(w: World, content: Content) {
    (!w.resolveReferences && w.isOpenAPI(content)) || w.unmarshal(content).None?
  }

  function Written(w: World, j: Json, content: Content): Content {
    if w.write(j).Some? then w.write(j).value else content
  }

  /** What a string leads to: the object of a file, a section, or nothing. */
  datatype Lead = Nowhere | File(file: string, j: Json) | Section(j: Json)

  predicate NamesSection(site: Site, s: string) {
    |Parts(site, s)| > 1 && Parts(site, s)[1] != ""
  }

  function SectionLead(site: Site, s: string, obj: Json): (r: Lead)
    ensures !r.File?
  {
    if !NamesSection(site, s) then Nowhere
    else
      match FindSection(obj, Sections(Parts(site, s)[1]))
      case None => Nowhere
      case Some(j) => if Circular(s, j, site.w.maxDepth) then Nowhere else Section(j)
  }

  function Leads(site: Site, s: string, refBool: bool): Lead {
    if site.w.base(site.path) == s || Skipped(site, s, refBool) then Nowhere
    else if "#" <= s then SectionLead(site, s, site.full)
    else if !Loadable(site, s) then Nowhere
    else
      var file := OnlyFilePath(site, s);
      match site.plan.objs(file)
      case None => Nowhere
      case Some(obj) => if Whole(site, s) then File(file, obj) else SectionLead(site, s, obj)
  }

  /** The string leads to `file`, whether that can be read or not. */
  predicate Mentions(site: Site, s: string, file: string) {
    && site.w.base(site.path) != s && site.count < site.w.maxDepth && !("#" <= s) && Loadable(site, s)
    && file == OnlyFilePath(site, s)
  }

  ghost predicate MentionsIn(site: Site, value: Json, file: string)
    decreases value
  {
    match value
    case Str(s) => Mentions(site, s, file)
    case List(items) => exists i | 0 <= i < |items| :: MentionsIn(site, items[i], file)
    case Obj(fields) => exists key | key in fields :: MentionsIn(site, fields[key], file)
    case _ => false
  }

  /** The document of `file` when it is resolved at depth `n`. */
  function SiteOf(w: World, file: string, n: nat, g: Plan): Site
    requires file in w.files && !LeftAlone(w, w.files[file])
  {
    Site(w, file, w.unmarshal(w.files[file]).value, n, g)
  }

  /** Resolving `value` can lead to loading `file` at depth `n`, through other files or not. */
  ghost predicate Reaches(site: Site, value: Json, file: string, n: nat)
    decreases if site.count <= site.w.maxDepth then site.w.maxDepth - site.count else 0
  {
    && site.count < site.w.maxDepth
    && ((MentionsIn(site, value, file) && n == site.count + 1)
        || exists g :: MentionsIn(site, value, g) && g in site.w.files && !LeftAlone(site.w, site.w.files[g])
                       && Reaches(SiteOf(site.w, g, site.count + 1, site.plan), SiteOf(site.w, g, site.count + 1, site.plan).full, file, n))
  }

  // ---- Orderly documents ----

  predicate NoRefKeys(w: World, fields: Fields) {
    forall key | key in fields :: !w.refKey(key)
  }

  ghost function RefKey(w: World, fields: Fields): (key: string)
    requires !NoRefKeys(w, fields)
    ensures key in fields && w.refKey(key)
  {
    var key :| key in fields && w.refKey(key);
    key
  }

  ghost predicate OneReference(w: World, fields: Fields) {
    !NoRefKeys(w, fields) && forall key | key in fields && key != RefKey(w, fields) :: !w.refKey(key)
  }

  /** What an object with a reference leads to in the end: the reference may be such an object again. */
  ghost function ReferenceLead(site: Site, x: Json): Lead
    decreases x
  {
    match x
    case Str(s) => Leads(site, s, true)
    case Obj(fields) => if NoRefKeys(site.w, fields) then Nowhere else ReferenceLead(site, fields[RefKey(site.w, fields)])
    case _ => Nowhere
  }

  predicate UsesFile(lead: Lead, file: string) {
    lead.File? && lead.file == file && lead.j.Obj?
  }

  /** The sections lead through objects without references to a value in which nothing is resolved,
      or to no value. */
  predicate Anchored(site: Site, j: Json, sections: seq<string>)
    decreases sections
  {
    if sections == [] then Still(site, j)
    else
      && j.Obj? && NoRefKeys(site.w, j.fields)
      && (sections[0] in j.fields ==> Anchored(site, j.fields[sections[0]], sections[1..]))
  }

  /** A string that stays, leads to an expected file or a section of one, or to an anchored section of
      the document itself. */
  predicate OrderlyString(site: Site, s: string, refBool: bool) {
    || site.w.base(site.path) == s || Skipped(site, s, refBool)
    || if "#" <= s then NamesSection(site, s) && Anchored(site, site.full, Sections(Parts(site, s)[1]))
       else Loadable(site, s) ==> OrderlyFile(site, s)
  }

  predicate OrderlyFile(site: Site, s: string) {
    var file := OnlyFilePath(site, s);
    && (file in site.plan.held || site.plan.loads(file, site.count + 1))
    && (site.plan.objs(file).Some? && !Whole(site, s) ==>
          NamesSection(site, s) && Sections(Parts(site, s)[1])[0] != "RefMetadata")
  }

  /** Strings are orderly, and an object has at most one reference, and beside it nothing to resolve. An
      object under a reference does not lead on to an object of a file. */
  ghost predicate Orderly(site: Site, value: Json, refBool: bool)
    decreases value
  {
    match value
    case Str(s) => OrderlyString(site, s, refBool)
    case List(items) => forall i | 0 <= i < |items| :: Orderly(site, items[i], refBool)
    case Obj(fields) =>
      if NoRefKeys(site.w, fields) then forall key | key in fields :: Orderly(site, fields[key], false)
      else
        && OneReference(site.w, fields)
        && var ref := fields[RefKey(site.w, fields)];
        && Orderly(site, ref, true) && OrderlyLead(site, ref, |fields| == 1)
        && forall key | key in fields && key != RefKey(site.w, fields) :: Still(site, fields[key])
    case _ => true
  }

  ghost predicate OrderlyLead(site: Site, ref: Json, alone: bool) {
    var lead := ReferenceLead(site, ref);
    lead.File? && lead.j.Obj? ==> ref.Str? && (lead.file, Meta(ref, alone)) in site.plan.all
  }

  /** Some object without references stands under a reference: it becomes its own metadata. */
  ghost predicate Cyclic(w: World, value: Json)
    decreases value
  {
    match value
    case List(items) => exists i | 0 <= i < |items| :: Cyclic(w, items[i])
    case Obj(fields) =>
      if NoRefKeys(w, fields) then exists key | key in fields :: Cyclic(w, fields[key])
      else
        var ref := fields[RefKey(w, fields)];
        (ref.Obj? && NoRefKeys(w, ref.fields)) || Cyclic(w, ref)
    case _ => false
  }

  // ---- What is shown ----

  function WithMeta(j: Json, m: Meta): (r: Json)
    requires j.Obj?
  {
    Obj(j.fields["RefMetadata" := Obj(map["$ref" := m.ref, "alone" := Bool(m.alone)])])
  }

  function Shown(j: Json, tag: Option<Meta>): Json {
    if j.Obj? && tag.Some? then WithMeta(j, tag.value) else j
  }

  /** Metadata in an object, or in a new one where there is none. */
  function Over(j: Json, m: Meta): (r: Json)
    ensures r.Obj?
  {
    WithMeta(if j.Obj? then j else Obj(map[]), m)
  }

  /** The metadata that is shown with the object of a file where it is used with metadata of its own,
      or with none where it is put in for a plain string. */
  type Tag = (string, Option<Meta>) -> Option<Meta>

  function DisplayString(site: Site, s: string, refBool: bool, tag: Tag): Json {
    match Leads(site, s, refBool)
    case Nowhere => Str(s)
    case File(file, j) => Shown(j, tag(file, None))
    case Section(j) => j
  }

  /** An object with a reference that is no container. */
  function DisplayLead(lead: Lead, m: Meta, tag: Tag): Json {
    match lead
    case Nowhere => Over(Null, m)
    case File(file, j) => if j.Obj? then Shown(j, tag(file, Some(m))) else Over(Null, m)
    case Section(j) => Shown(j, Some(m))
  }

  /** The resolved document, with `tag` telling the metadata of whole files, if it is not cyclic. */
  ghost function Display(site: Site, value: Json, refBool: bool, tag: Tag): Json
    decreases value, 0
  {
    match value
    case Str(s) => DisplayString(site, s, refBool, tag)
    case List(items) => List(seq(|items|, i requires 0 <= i < |items| => Display(site, items[i], refBool, tag)))
    case Obj(fields) =>
      if NoRefKeys(site.w, fields) then Obj(map key | key in fields :: Display(site, fields[key], false, tag))
      else
        var ref := fields[RefKey(site.w, fields)];
        var m := Meta(Left(site, ref, tag), |fields| == 1);
        if Container(ref) then Over(if ref.Obj? then Display(site, ref, true, tag) else Null, m)
        else DisplayLead(ReferenceLead(site, ref), m, tag)
    case _ => value
  }

  /** What is left in the place of a reference: a list is resolved, a reference under it is not, but what is
      under that may be. */
  ghost function Left(site: Site, ref: Json, tag: Tag): Json
    decreases ref, 1
  {
    match ref
    case List(_) => Display(site, ref, true, tag)
    case Obj(fields) =>
      if NoRefKeys(site.w, fields) then ref
      else
        var key := RefKey(site.w, fields);
        Obj(fields[key := Left(site, fields[key], tag)])
    case _ => ref
  }

  /** Every use of a file has its own metadata: resolving without sharing anything. */
  const OWN: Tag := (file, own) => own

  /** The new content of a document; a cycle cannot be written. */
  ghost function Result(site: Site, content: Content, tag: Tag): Content {
    if Cyclic(site.w, site.full) then content else Written(site.w, Display(site, site.full, false, tag), content)
  }

  // ---- Uses of files ----

  /** The object of `file` is used in `value` with this metadata of its own. */
  ghost predicate Uses(site: Site, value: Json, refBool: bool, file: string, own: Option<Meta>)
    decreases value
  {
    match value
    case Str(s) => UsesFile(Leads(site, s, refBool), file) && own == None
    case List(items) => exists i | 0 <= i < |items| :: Uses(site, items[i], refBool, file, own)
    case Obj(fields) =>
      if NoRefKeys(site.w, fields) then exists key | key in fields :: Uses(site, fields[key], false, file, own)
      else
        var ref := fields[RefKey(site.w, fields)];
        if Container(ref) then Uses(site, ref, true, file, own)
        else UsesFile(ReferenceLead(site, ref), file) && own == Some(Meta(ref, |fields| == 1))
    case _ => false
  }

  ghost predicate SameShown(g: Plan, file: string, a: Option<Meta>, b: Option<Meta>) {
    g.objs(file).Some? && Shown(g.objs(file).value, a) == Shown(g.objs(file).value, b)
  }

  /** All uses of the same file show the same. */
  ghost predicate Agree(site: Site, value: Json) {
    forall file, a, b | Uses(site, value, false, file, a) && Uses(site, value, false, file, b) :: SameShown(site.plan, file, a, b)
  }

  ghost predicate SameTags(site: Site, value: Json, refBool: bool, s: Tag, t: Tag) {
    forall file, own | Uses(site, value, refBool, file, own) :: SameShown(site.plan, file, s(file, own), t(file, own))
  }

  /** Two ways to show metadata give the same document exactly if they agree on every use. */
  lemma {:induction false} DisplayIff(site: Site, value: Json, refBool: bool, s: Tag, t: Tag)
    requires Orderly(site, value, refBool) && !Cyclic(site.w, value)
    ensures Display(site, value, refBool, s) == Display(site, value, refBool, t) <==> SameTags(site, value, refBool, s, t)
    decreases value, 0
  {
    hide SameShown, Leads, OrderlyString, Still, DisplayString, DisplayLead, ReferenceLead, Left, Over;
    match value
    case Str(x) =>
      StringIff(site, x, refBool, s, t);
    case List(items) =>
      forall i | 0 <= i < |items|
        ensures Display(site, items[i], refBool, s) == Display(site, items[i], refBool, t) <==> SameTags(site, items[i], refBool, s, t)
      {
        DisplayIff(site, items[i], refBool, s, t);
      }
      ListIff(site, items, refBool, s, t);
    case Obj(fields) =>
      if NoRefKeys(site.w, fields) {
        forall key | key in fields
          ensures Display(site, fields[key], false, s) == Display(site, fields[key], false, t) <==> SameTags(site, fields[key], false, s, t)
        {
          DisplayIff(site, fields[key], false, s, t);
        }
        ObjectIff(site, fields, s, t);
      } else {
        var ref := fields[RefKey(site.w, fields)];
        if Container(ref) {
          LeftIff(site, ref, s, t);
          DisplayIff(site, ref, true, s, t);
          OverIff(site, fields, s, t);
        } else {
          LeadIff(site, fields, s, t);
        }
      }
    case _ =>
  }

  lemma StringIff(site: Site, x: string, refBool: bool, s: Tag, t: Tag)
    ensures Display(site, Str(x), refBool, s) == Display(site, Str(x), refBool, t) <==> SameTags(site, Str(x), refBool, s, t)
  {
    hide SectionLead;
    var lead := Leads(site, x, refBool);
    if lead.File? && lead.j.Obj? {
      assert Uses(site, Str(x), refBool, lead.file, None);
    }
  }

  /** An object with a container under its reference shows what is left of that as metadata. */
  lemma OverIff(site: Site, fields: Fields, s: Tag, t: Tag)
    requires !NoRefKeys(site.w, fields) && Container(fields[RefKey(site.w, fields)])
    requires
      var ref := fields[RefKey(site.w, fields)];
      && (Left(site, ref, s) == Left(site, ref, t) <==> SameTags(site, ref, true, s, t))
      && (Display(site, ref, true, s) == Display(site, ref, true, t) <==> SameTags(site, ref, true, s, t))
    ensures Display(site, Obj(fields), false, s) == Display(site, Obj(fields), false, t) <==> SameTags(site, Obj(fields), false, s, t)
  {
    hide SameShown, Left, NoRefKeys;
    var ref := fields[RefKey(site.w, fields)];
    var a, b := Display(site, Obj(fields), false, s), Display(site, Obj(fields), false, t);
    assert a.fields["RefMetadata"].fields["$ref"] == Left(site, ref, s);
    assert b.fields["RefMetadata"].fields["$ref"] == Left(site, ref, t);
  }

  lemma LeadIff(site: Site, fields: Fields, s: Tag, t: Tag)
    requires !NoRefKeys(site.w, fields) && !Container(fields[RefKey(site.w, fields)])
    ensures Display(site, Obj(fields), false, s) == Display(site, Obj(fields), false, t) <==> SameTags(site, Obj(fields), false, s, t)
  {
    hide SectionLead, NoRefKeys, Over;
    var ref := fields[RefKey(site.w, fields)];
    var lead := ReferenceLead(site, ref);
    LeadOfAtom(site, ref);
    if lead.File? && lead.j.Obj? {
      assert Uses(site, Obj(fields), false, lead.file, Some(Meta(ref, |fields| == 1)));
    }
  }

  lemma LeadOfAtom(site: Site, ref: Json)
    requires !Container(ref)
    ensures ReferenceLead(site, ref).File? ==> site.plan.objs(ReferenceLead(site, ref).file) == Some(ReferenceLead(site, ref).j)
  {
    hide SectionLead;
  }

  /** What is left of a reference is the same exactly if the uses under it show the same. */
  lemma {:induction false} LeftIff(site: Site, ref: Json, s: Tag, t: Tag)
    requires Orderly(site, ref, true) && !Cyclic(site.w, ref) && Container(ref) && (ref.Obj? ==> !NoRefKeys(site.w, ref.fields))
    requires var lead := ReferenceLead(site, ref); !(lead.File? && lead.j.Obj?)
    ensures Left(site, ref, s) == Left(site, ref, t) <==> SameTags(site, ref, true, s, t)
    decreases ref, 1
  {
    hide SameShown, Leads, OrderlyString, Still, DisplayString, DisplayLead, Over, NoRefKeys;
    match ref
    case List(_) => DisplayIff(site, ref, true, s, t);
    case Obj(fields) =>
      var key := RefKey(site.w, fields);
      if Container(fields[key]) {
        LeftIff(site, fields[key], s, t);
        assert Left(site, ref, s).fields[key] == Left(site, fields[key], s);
        assert Left(site, ref, t).fields[key] == Left(site, fields[key], t);
      }
  }

  lemma ListIff(site: Site, items: seq<Json>, refBool: bool, s: Tag, t: Tag)
    requires forall i | 0 <= i < |items| ::
               Display(site, items[i], refBool, s) == Display(site, items[i], refBool, t) <==> SameTags(site, items[i], refBool, s, t)
    ensures Display(site, List(items), refBool, s) == Display(site, List(items), refBool, t) <==> SameTags(site, List(items), refBool, s, t)
  {
    hide SameShown, DisplayString, DisplayLead, Left;
    var a, b := Display(site, List(items), refBool, s).items, Display(site, List(items), refBool, t).items;
    assert forall i | 0 <= i < |items| :: a[i] == Display(site, items[i], refBool, s) && b[i] == Display(site, items[i], refBool, t);
    assert a == b <==> forall i | 0 <= i < |items| :: Display(site, items[i], refBool, s) == Display(site, items[i], refBool, t);
    if SameTags(site, List(items), refBool, s, t) {
      forall i | 0 <= i < |items| ensures SameTags(site, items[i], refBool, s, t) {
        forall file, own | Uses(site, items[i], refBool, file, own) ensures SameShown(site.plan, file, s(file, own), t(file, own)) {
          assert Uses(site, List(items), refBool, file, own);
        }
      }
    }
  }

  lemma ObjectIff(site: Site, fields: Fields, s: Tag, t: Tag)
    requires NoRefKeys(site.w, fields)
    requires forall key | key in fields ::
               Display(site, fields[key], false, s) == Display(site, fields[key], false, t) <==> SameTags(site, fields[key], false, s, t)
    ensures Display(site, Obj(fields), false, s) == Display(site, Obj(fields), false, t) <==> SameTags(site, Obj(fields), false, s, t)
  {
    hide SameShown, DisplayString, DisplayLead, Left;
    var a, b := Display(site, Obj(fields), false, s).fields, Display(site, Obj(fields), false, t).fields;
    assert a.Keys == b.Keys == fields.Keys;
    assert a == b <==> forall key | key in fields :: a[key] == b[key];
    if SameTags(site, Obj(fields), false, s, t) {
      forall key | key in fields ensures SameTags(site, fields[key], false, s, t) {
        forall file, own | Uses(site, fields[key], false, file, own) ensures SameShown(site.plan, file, s(file, own), t(file, own)) {
          assert Uses(site, Obj(fields), false, file, own);
        }
      }
    }
  }

  /** The uses of files with metadata in a value. */
  ghost function TagsOf(site: Site, value: Json, refBool: bool): iset<(string, Meta)> {
    iset u: (string, Meta) | Uses(site, value, refBool, u.0, Some(u.1))
  }

  ghost const NO_USES: iset<(string, Meta)> := iset{}

  /** What is shown with files after these uses, and maybe `more`: metadata of one of them where there are
      some, and elsewhere that of `more` or what was shown before. */
  ghost predicate Latest(uses: iset<(string, Meta)>, more: iset<(string, Meta)>, before: map<string, Meta>,
                         after: map<string, Meta>) {
    && before.Keys <= after.Keys
    && (forall file | file in after ::
          (file in before && after[file] == before[file]) || (file, after[file]) in uses || (file, after[file]) in more)
    && (forall file, m | (file, m) in uses ::
          file in after && ((file, after[file]) in uses || (file, after[file]) in more))
  }

  lemma LatestThen(uses: iset<(string, Meta)>, others: iset<(string, Meta)>, more: iset<(string, Meta)>,
                   before: map<string, Meta>, between: map<string, Meta>, after: map<string, Meta>)
    requires Latest(uses, more, before, between) && Latest(others, more, between, after)
    ensures Latest(uses + others, more, before, after)
  {
  }

  function Current(tags: map<string, Meta>): Tag {
    (file, own) => if file in tags then Some(tags[file]) else None
  }

  /** With the metadata of the latest uses, each use shows its own exactly if all uses of a file agree, as long
      as the uses agree with those in other files. */
  lemma ShownIffAgree(site: Site, value: Json, tags: map<string, Meta>)
    requires Orderly(site, value, false) && !Cyclic(site.w, value)
    requires Latest(TagsOf(site, value, false), site.plan.more, map[], tags)
    requires forall file, own, m | Uses(site, value, false, file, own) && (file, m) in site.plan.more :: SameShown(site.plan, file, own, Some(m))
    ensures Display(site, value, false, Current(tags)) == Display(site, value, false, OWN) <==> Agree(site, value)
  {
    DisplayIff(site, value, false, Current(tags), OWN);
    hide Display, Uses, Orderly, SameShown, Cyclic;
    if SameTags(site, value, false, Current(tags), OWN) {
      forall file, a, b | Uses(site, value, false, file, a) && Uses(site, value, false, file, b) ensures SameShown(site.plan, file, a, b) {
        assert SameShown(site.plan, file, Current(tags)(file, a), a) && SameShown(site.plan, file, Current(tags)(file, b), b);
        SameShownBoth(site.plan, file, Current(tags)(file, a), a, b);
      }
    }
    if Agree(site, value) {
      forall file, own | Uses(site, value, false, file, own) ensures SameShown(site.plan, file, Current(tags)(file, own), own) {
        CurrentAgrees(site, value, tags, file, own);
      }
    }
  }

  lemma CurrentAgrees(site: Site, value: Json, tags: map<string, Meta>, file: string, own: Option<Meta>)
    requires Latest(TagsOf(site, value, false), site.plan.more, map[], tags) && Agree(site, value)
    requires Uses(site, value, false, file, own)
    requires forall m | (file, m) in site.plan.more :: SameShown(site.plan, file, own, Some(m))
    ensures SameShown(site.plan, file, Current(tags)(file, own), own)
  {
    hide Uses, SameShown;
    match own {
      case None =>
      case Some(m) => assert (file, m) in TagsOf(site, value, false);
    }
    if file in tags {
      var u := (file, tags[file]);
      if u in TagsOf(site, value, false) {
        assert Uses(site, value, false, file, Some(tags[file]));
      } else {
        assert u in site.plan.more;
        SameShownTurned(site.plan, file, own, Some(tags[file]));
      }
    } else {
      assert SameShown(site.plan, file, own, own);
    }
  }

  lemma SameShownTurned(g: Plan, file: string, a: Option<Meta>, b: Option<Meta>)
    requires SameShown(g, file, a, b)
    ensures SameShown(g, file, b, a)
  {
  }

  lemma SameShownBoth(g: Plan, file: string, x: Option<Meta>, a: Option<Meta>, b: Option<Meta>)
    requires SameShown(g, file, x, a) && SameShown(g, file, x, b)
    ensures SameShown(g, file, a, b)
  {
  }

  /** Where nothing is to be resolved, everything is displayed as it is. */
  lemma {:induction false} StillDisplays(site: Site, value: Json, tag: Tag)
    requires Still(site, value)
    ensures Orderly(site, value, false) && !Cyclic(site.w, value) && Display(site, value, false, tag) == value
    ensures forall file, own :: !Uses(site, value, false, file, own)
    decreases value
  {
    hide SectionLead;
    match value
    case Str(s) => assert Leads(site, s, false) == Nowhere;
    case List(items) =>
      forall i | 0 <= i < |items|
        ensures Orderly(site, items[i], false) && !Cyclic(site.w, items[i]) && Display(site, items[i], false, tag) == items[i]
        ensures forall file, own :: !Uses(site, items[i], false, file, own)
      {
        StillDisplays(site, items[i], tag);
      }
      assert Display(site, value, false, tag).items == items;
    case Obj(fields) =>
      assert NoRefKeys(site.w, fields);
      forall key | key in fields
        ensures Orderly(site, fields[key], false) && !Cyclic(site.w, fields[key])
        ensures Display(site, fields[key], false, tag) == fields[key]
        ensures forall file, own :: !Uses(site, fields[key], false, file, own)
      {
        StillDisplays(site, fields[key], tag);
      }
      assert Display(site, value, false, tag).fields == fields;
    case _ =>
  }

  /** What is used has an object. */
  lemma {:induction false} UsedHas(site: Site, value: Json, refBool: bool, file: string, own: Option<Meta>)
    requires Uses(site, value, refBool, file, own)
    ensures site.plan.objs(file).Some?
    decreases value
  {
    hide SectionLead, NoRefKeys;
    match value
    case List(items) =>
      var i :| 0 <= i < |items| && Uses(site, items[i], refBool, file, own);
      UsedHas(site, items[i], refBool, file, own);
    case Obj(fields) =>
      if NoRefKeys(site.w, fields) {
        var key :| key in fields && Uses(site, fields[key], false, file, own);
        UsedHas(site, fields[key], false, file, own);
      } else {
        var ref := fields[RefKey(site.w, fields)];
        if Container(ref) {
          UsedHas(site, ref, true, file, own);
        } else {
          LeadOfAtom(site, ref);
        }
      }
    case _ =>
  }

  // ---- What is expected of files ----

  /** The files that may be loaded come to the objects that are expected of them. */
  ghost predicate Sound(w: World, g: Plan) {
    g.more <= g.all && forall file, n | g.loads(file, n) :: SoundFile(w, g, file, n)
  }

  /** At depth `n` the file is orderly, does not lead to itself, and comes to what is expected if its own uses of
      files are shown. Its uses are expected, and agree with all that are. */
  ghost predicate SoundFile(w: World, g: Plan, file: string, n: nat) {
    if file !in w.files then g.objs(file) == None
    else if LeftAlone(w, w.files[file]) then g.objs(file) == w.unmarshal(w.files[file])
    else
      var site := SiteOf(w, file, n, g);
      && Orderly(site, site.full, false) && g.objs(file) == w.unmarshal(Result(site, w.files[file], OWN))
      && (forall m :: !Reaches(site, site.full, file, m))
      && TagsOf(site, site.full, false) <= g.more
      && forall other, own, m | Uses(site, site.full, false, other, own) && (other, m) in g.all :: SameShown(g, other, own, Some(m))
  }

  /** Whatever metadata the objects of files have when the file is resolved, its own uses are shown. */
  lemma FileShown(w: World, g: Plan, file: string, n: nat, before: map<string, Meta>, tags: map<string, Meta>)
    requires file in w.files && !LeftAlone(w, w.files[file]) && SoundFile(w, g, file, n)
    requires
      var site := SiteOf(w, file, n, g);
      Latest(TagsOf(site, site.full, false), g.more, before, tags)
    requires forall other | other in tags :: (other, tags[other]) in g.all
    ensures w.unmarshal(Result(SiteOf(w, file, n, g), w.files[file], Current(tags))) == g.objs(file)
  {
    hide Uses, Orderly, SameShown, Cyclic, Display, Reaches, LeftAlone, NO_USES;
    var site := SiteOf(w, file, n, g);
    forall other, own | Uses(site, site.full, false, other, own)
      ensures SameShown(g, other, Current(tags)(other, own), own)
    {
      match own {
        case None =>
        case Some(m) => assert (other, m) in TagsOf(site, site.full, false);
      }
      if other in tags {
        SameShownTurned(g, other, own, Some(tags[other]));
      } else {
        UsedHas(site, site.full, false, other, own);
        SameShownItself(g, other, own);
      }
    }
    if !Cyclic(w, site.full) {
      DisplayIff(site, site.full, false, Current(tags), OWN);
    }
  }

  lemma SameShownItself(g: Plan, file: string, own: Option<Meta>)
    requires g.objs(file).Some?
    ensures SameShown(g, file, own, own)
  {
  }

  /** At the depth bound no file is used. */
  lemma {:induction false} NothingAtTheBound(site: Site, value: Json, refBool: bool, file: string, own: Option<Meta>)
    requires site.count >= site.w.maxDepth
    ensures !Uses(site, value, refBool, file, own)
    decreases value
  {
    hide SectionLead;
    match value
    case List(items) =>
      forall i | 0 <= i < |items| ensures !Uses(site, items[i], refBool, file, own) {
        NothingAtTheBound(site, items[i], refBool, file, own);
      }
    case Obj(fields) =>
      if NoRefKeys(site.w, fields) {
        forall key | key in fields ensures !Uses(site, fields[key], false, file, own) {
          NothingAtTheBound(site, fields[key], false, file, own);
        }
      } else {
        NothingAtTheBound(site, fields[RefKey(site.w, fields)], true, file, own);
        var ref := fields[RefKey(site.w, fields)];
        assert !Container(ref) ==> !ReferenceLead(site, ref).File?;
      }
    case _ =>
  }
}
