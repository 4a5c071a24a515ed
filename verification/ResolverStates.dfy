/** The states of the resolver: what is kept from one to the next, and what visiting the elements of a
    container does. */
module ResolverStates {
  import opened Wrappers
  import opened YamlDocument
  import opened Strings
  import opened SharedMemory
  import opened References
  import opened ResolverMemory
  import opened ResolverAnswers
  import opened ResolverReferences
  import opened ResolverContainers

  datatype ResolvedFile = ResolvedFile(content: Content, path: string)

  // ---- What is kept ----

  ghost predicate ContentAt(w: World, path: string, content: Content) {
    path in w.files && w.files[path] == content
  }

  ghost predicate FilesOk(w: World, resolved: map<string, ResolvedFile>) {
    forall k | k in resolved :: FileOk(w, resolved[k])
  }

  ghost predicate FileOk(w: World, f: ResolvedFile) {
    ContentAt(w, f.path, f.content) || ContentAt(w, Split(f.path, '#')[0], f.content)
  }

  /** A document that is still as it was decoded, apart from metadata written into its root. */
  ghost predicate Pristine(mem: Memory, d: nat) {
    && d < |mem.docs|
    && forall a | a in mem.changed && a.doc == d ::
         && a.path == [] && mem.docs[d].Obj? && mem.changed[a].MapCell?
         && SameFields(mem.changed[a].vals, CellOf(a, mem.docs[d]).vals)
  }

  /** A cached file has the content that was read, and an object in which only metadata was written. */
  ghost predicate IsCached(w: World, mem: Memory, shared: set<nat>, file: string, c: Cached) {
    ContentAt(w, file, c.content) && c.doc in shared && Pristine(mem, c.doc)
  }

  ghost predicate CacheOk(w: World, mem: Memory, cache: map<string, Cached>, shared: set<nat>) {
    forall file | file in cache :: IsCached(w, mem, shared, file, cache[file])
  }

  predicate Added(m: Memory, m': Memory, d: nat) {
    |m.docs| <= d < |m'.docs|
  }

  /** The documents added from `m` to `m'`. */
  function NewDocs(m: Memory, m': Memory): set<nat> {
    set d: nat | d < |m'.docs| && Added(m, m', d)
  }

  /** An object that is returned from a place lies there, or is the root of a shared document. */
  ghost predicate Returned(mem: Memory, p: Address, shared: set<nat>, x: Val) {
    IsMap(mem, x) ==> Under(p, x.at) || (x.at.path == [] && x.at.doc in shared)
  }

  lemma CacheWritten(w: World, mem: Memory, cache: map<string, Cached>, shared: set<nat>, p: Address, cell: Cell)
    requires CacheOk(w, mem, cache, shared) && p.doc !in shared
    ensures CacheOk(w, Set(mem, p, cell), cache, shared)
  {
    hide Get;
    var mem' := Set(mem, p, cell);
    forall file | file in cache ensures IsCached(w, mem', shared, file, cache[file]) {
      assert IsCached(w, mem, shared, file, cache[file]);
    }
  }

  lemma CacheAdded(w: World, m: Memory, m': Memory, cache: map<string, Cached>, shared: set<nat>, shared': set<nat>)
    requires CacheOk(w, m, cache, shared) && shared <= shared' && m.docs <= m'.docs
    requires forall a: Address | a.doc < |m.docs| :: SameAt(m, m', a)
    ensures CacheOk(w, m', cache, shared')
  {
    forall file | file in cache ensures IsCached(w, m', shared', file, cache[file]) {
      assert IsCached(w, m, shared, file, cache[file]);
      forall a | a in m'.changed && a.doc == cache[file].doc
        ensures a.path == [] && m'.docs[a.doc].Obj? && m'.changed[a].MapCell?
        ensures SameFields(m'.changed[a].vals, CellOf(a, m'.docs[a.doc]).vals)
      {
        assert SameAt(m, m', a);
      }
    }
  }

  /** Metadata may be written into what is returned from a place. */
  lemma MetaAdded(w: World, mem: Memory, cache: map<string, Cached>, shared: set<nat>, p: Address, x: Val, ref: Val,
                  alone: bool)
    requires CacheOk(w, mem, cache, shared) && Formed(mem) && Returned(mem, p, shared, x)
    requires p.doc < |mem.docs| && p.doc !in shared && forall d | d in shared :: d < |mem.docs|
    ensures
      var (mem', y) := AddMetadata(mem, x, ref, alone);
      var shared' := shared + NewDocs(mem, mem');
      && CacheOk(w, mem', cache, shared') && Formed(mem') && Returned(mem', p, shared', y)
      && OnlyUnder(mem, mem', p, shared) && forall d | d in shared' :: d < |mem'.docs|
  {
    hide CacheOk, AddMetadata, Get;
    var (mem', y) := AddMetadata(mem, x, ref, alone);
    if IsMap(mem, x) {
      AddToObject(mem, x.at, ref, alone);
      CacheMarked(w, mem, mem', cache, shared, shared + NewDocs(mem, mem'), x.at, Ref(Root(|mem.docs|)));
    } else {
      AddToNew(mem, x, ref, alone);
      CacheAdded(w, mem, mem', cache, shared, shared + NewDocs(mem, mem'));
    }
  }

  lemma CacheMarked(w: World, m: Memory, m': Memory, cache: map<string, Cached>, shared: set<nat>, shared': set<nat>,
                    at: Address, meta: Val)
    requires CacheOk(w, m, cache, shared) && shared <= shared' && m.docs <= m'.docs
    requires forall a: Address | a.doc < |m.docs| && a != at :: SameAt(m, m', a)
    requires at.doc !in shared || at.path == []
    requires Get(m, at).MapCell? && Get(m', at) == MapCell(Get(m, at).vals["RefMetadata" := meta])
    ensures CacheOk(w, m', cache, shared')
  {
    forall file | file in cache ensures IsCached(w, m', shared', file, cache[file]) {
      assert IsCached(w, m, shared, file, cache[file]);
      PristineMarked(m, m', cache[file].doc, at, meta);
    }
  }

  lemma PristineMarked(m: Memory, m': Memory, d: nat, at: Address, meta: Val)
    requires Pristine(m, d) && m.docs <= m'.docs
    requires forall a: Address | a.doc < |m.docs| && a != at :: SameAt(m, m', a)
    requires at.doc != d || at.path == []
    requires Get(m, at).MapCell? && Get(m', at) == MapCell(Get(m, at).vals["RefMetadata" := meta])
    ensures Pristine(m', d)
  {
    forall a | a in m'.changed && a.doc == d
      ensures a.path == [] && m'.docs[d].Obj? && m'.changed[a].MapCell?
      ensures SameFields(m'.changed[a].vals, CellOf(a, m'.docs[d]).vals)
    {
      if a != at {
        assert SameAt(m, m', a);
      } else {
        RootCell(m, d);
        MarkedFields(Get(m, at).vals, CellOf(at, m.docs[d]).vals, meta);
      }
    }
  }

  lemma RootCell(m: Memory, d: nat)
    requires Pristine(m, d) && Get(m, Root(d)).MapCell?
    ensures m.docs[d].Obj? && SameFields(Get(m, Root(d)).vals, CellOf(Root(d), m.docs[d]).vals)
  {
  }

  lemma MarkedFields(vals: map<string, Val>, base: map<string, Val>, meta: Val)
    requires SameFields(vals, base)
    ensures SameFields(vals["RefMetadata" := meta], base)
  {
    assert vals["RefMetadata" := meta] - {"RefMetadata"} == vals - {"RefMetadata"};
  }

  // ---- Steps of the methods ----

  /** What a step at place `p` does to the memory and to what is shared. */
  ghost predicate Moved(m: Memory, m': Memory, p: Address, shared: set<nat>, shared': set<nat>) {
    OnlyUnder(m, m', p, shared) && Grown(shared, shared', |m.docs|)
  }

  lemma MovedTwice(m: Memory, m1: Memory, m2: Memory, p: Address, q: Address, s: set<nat>, s1: set<nat>, s2: set<nat>)
    requires Moved(m, m1, p, s, s1) && Moved(m1, m2, q, s1, s2) && (Under(p, q) || q.doc >= |m.docs|)
    ensures Moved(m, m2, p, s, s2)
  {
    hide OnlyUnder;
    MoreDocs(m, m1, p, s);
    ThenUnder(m, m1, m2, p, q, s, s1);
    GrownTwice(s, s1, s2, |m.docs|, |m1.docs|);
  }

  lemma MoreDocs(m: Memory, m1: Memory, p: Address, roots: set<nat>)
    requires OnlyUnder(m, m1, p, roots)
    ensures m.docs <= m1.docs
  {
  }

  lemma BelowMoves(m: Memory, m1: Memory, m2: Memory, p: Address, step: Step, s: set<nat>, s1: set<nat>, s2: set<nat>)
    requires Moved(m, m1, p, s, s1) && Moved(m1, m2, Child(p, step), s1, s2)
    requires p.doc < |m1.docs| && p.doc !in s1
    ensures Moved(m, m2, p, s, s2) && m1.docs <= m2.docs && p.doc !in s2
  {
    MovedTwice(m, m1, m2, p, Child(p, step), s, s1, s2);
  }

  lemma PlaceIs(mem: Memory, p: Address, j: Json)
    requires Untouched(mem, p, j)
    ensures p.doc < |mem.docs| && At(mem.docs[p.doc], p.path) == Some(j)
  {
  }

  lemma SameSize(vals: map<string, Val>, fields: Fields)
    requires vals.Keys == fields.Keys
    ensures |vals| == |fields|
  {
    assert |vals| == |vals.Keys| && |fields| == |fields.Keys|;
  }

  lemma SetSame(mem: Memory, p: Address, cell: Cell)
    requires Get(mem, p) == cell
    ensures Set(mem, p, cell) == mem
  {
  }

  lemma NotMoved(m: Memory, p: Address, shared: set<nat>)
    ensures Moved(m, m, p, shared, shared)
  {
  }

  /** A place in a document of its own is no place of an old one. */
  lemma MovedElsewhere(m: Memory, m': Memory, p: Address, q: Address, shared: set<nat>, shared': set<nat>)
    requires Moved(m, m', p, shared, shared') && p.doc >= |m.docs|
    ensures Moved(m, m', q, shared, shared')
  {
  }

  lemma FormedSet(mem: Memory, p: Address, cell: Cell)
    requires Formed(mem) && p.doc < |mem.docs|
    ensures Formed(Set(mem, p, cell)) && Set(mem, p, cell).docs == mem.docs
  {
  }

  /** The value of a key was walked and is written into the object at `p`. */
  lemma KeyMoves(m: Memory, m1: Memory, m2: Memory, p: Address, fields: Fields, rest: set<string>, k: string, x: Val,
                 s: set<nat>, s1: set<nat>, s2: set<nat>)
    requires Moved(m, m1, p, s, s1) && Moved(m1, m2, Child(p, Key(k)), s1, s2)
    requires KeysWait(m1, p, fields, rest) && k in rest && Formed(m1) && p.doc !in s && p.doc < |m.docs|
    ensures Get(m2, p) == Get(m1, p) && p.doc !in s2
    ensures
      var m3 := Set(m2, p, MapCell(Get(m1, p).vals[k := x]));
      Moved(m, m3, p, s, s2) && KeysWait(m3, p, fields, rest - {k})
  {
    hide OnlyUnder, Untouched, Set;
    MoreDocs(m, m1, p, s);
    MoreDocs(m1, m2, Child(p, Key(k)), s1);
    KeysGo(m1, m2, p, fields, rest, k, x, s1);
    MovedTwice(m, m1, m2, p, Child(p, Key(k)), s, s1, s2);
    WrittenAt(m, m2, p, MapCell(Get(m1, p).vals[k := x]), s, s2);
  }

  lemma WrittenAt(m: Memory, m1: Memory, p: Address, cell: Cell, s: set<nat>, s1: set<nat>)
    requires Moved(m, m1, p, s, s1)
    ensures Moved(m, Set(m1, p, cell), p, s, s1)
  {
    hide OnlyUnder;
    SetUnder(m1, p, cell, s1);
    MovedTwice(m, m1, Set(m1, p, cell), p, p, s, s1, s1);
  }

  lemma ItemMoves(m: Memory, m1: Memory, m2: Memory, p: Address, items: seq<Json>, i: nat, x: Val,
                  s: set<nat>, s1: set<nat>, s2: set<nat>)
    requires Moved(m, m1, p, s, s1) && Moved(m1, m2, Child(p, Index(i)), s1, s2)
    requires ItemsWait(m1, p, items, i) && i < |items| && Formed(m1) && p.doc !in s && p.doc < |m.docs|
    ensures Get(m2, p) == Get(m1, p) && p.doc !in s2
    ensures
      var m3 := Set(m2, p, ListCell(Get(m1, p).elems[i := x]));
      Moved(m, m3, p, s, s2) && ItemsWait(m3, p, items, i + 1)
  {
    hide OnlyUnder, Untouched, Set;
    MoreDocs(m, m1, p, s);
    MoreDocs(m1, m2, Child(p, Index(i)), s1);
    ItemsGo(m1, m2, p, items, i, x, s1);
    MovedTwice(m, m1, m2, p, Child(p, Index(i)), s, s1, s2);
    WrittenAt(m, m2, p, ListCell(Get(m1, p).elems[i := x]), s, s2);
  }

  lemma ReturnedUp(mem: Memory, p: Address, step: Step, shared: set<nat>, x: Val)
    requires Returned(mem, Child(p, step), shared, x)
    ensures Returned(mem, p, shared, x)
  {
    assert p.path <= Child(p, step).path;
  }

  lemma ReturnedItself(mem: Memory, p: Address, shared: set<nat>)
    ensures Returned(mem, p, shared, Ref(p))
  {
  }

  lemma MovedDocs(m: Memory, m1: Memory, p: Address, s: set<nat>, s1: set<nat>)
    requires Moved(m, m1, p, s, s1)
    ensures m.docs <= m1.docs
  {
  }

  lemma LengthStays(m: Memory, m1: Memory, p: Address, fields: Fields, rest: set<string>, k: string, s: set<nat>, s1: set<nat>)
    requires KeysWait(m, p, fields, rest) && Moved(m, m1, Child(p, Key(k)), s, s1) && p.doc !in s && p.doc < |m.docs|
    ensures Get(m1, p).MapCell? && |Get(m1, p).vals| == |fields|
  {
    AboveStays(m, m1, p, Key(k), s);
    SameSize(Get(m, p).vals, fields);
  }
  /** What is under a key of a still, or of an orderly object. */
  lemma KeyKinds(site: Site, fields: Fields, k: string, orderly: bool)
    requires k in fields && (orderly ==> Orderly(site, Obj(fields), false))
    ensures Still(site, Obj(fields)) ==> !site.w.refKey(k) && Still(site, fields[k])
    ensures NoRefKeys(site.w, fields) ==> !site.w.refKey(k)
    ensures orderly && NoRefKeys(site.w, fields) ==> Orderly(site, fields[k], false)
    ensures orderly && !NoRefKeys(site.w, fields) ==>
              if site.w.refKey(k) then
                && k == RefKey(site.w, fields) && OneReference(site.w, fields)
                && Orderly(site, fields[k], true) && OrderlyLead(site, fields[k], |fields| == 1)
              else k != RefKey(site.w, fields) && Still(site, fields[k])
  {
    hide OrderlyString, OrderlyLead;
  }

  // ---- States ----

  datatype State = State(mem: Memory, cache: map<string, Cached>, files: map<string, ResolvedFile>, deepest: nat,
                         shared: set<nat>, tags: map<string, Meta>)

  ghost predicate Ok(w: World, s: State) {
    && Library(w) && Formed(s.mem) && CacheOk(w, s.mem, s.cache, s.shared) && FilesOk(w, s.files)
    && s.deepest <= w.maxDepth && forall d | d in s.shared :: d < |s.mem.docs|
  }

  /** The document at `path` is resolved at depth `count`, and `plan` is expected. */
  datatype Job = Job(w: World, path: string, count: nat, plan: Plan)

  function SiteFor(job: Job, full: Json): Site {
    Site(job.w, job.path, full, job.count, job.plan)
  }

  /** The document that place `p` belongs to, as it is in state `s`. */
  function ViewOf(job: Job, s: State, p: Address): View
    requires p.doc < |s.mem.docs|
  {
    View(SiteFor(job, s.mem.docs[p.doc]), s.mem, s.cache, p.doc)
  }

  function After(v: View, s: State): View {
    v.(mem := s.mem, cache := s.cache)
  }

  /** Files and document are as expected, and so is what is to be resolved at `p`: under a reference it is no
      place that references lead to. */
  ghost predicate Expected(v: View, tags: map<string, Meta>, p: Address, value: Json, refBool: bool) {
    && Sound(v.site.w, v.site.plan) && Calm(v, tags, |v.mem.docs|) && Orderly(v.site, value, refBool)
    && At(v.site.full, p.path) == Some(value) && (refBool ==> Open(v.site, p.path))
  }

  ghost predicate NothingLoaded(s: State, s': State) {
    s'.cache == s.cache && s'.files == s.files && s'.deepest == s.deepest
  }

  /** The object at `at` has a reference as metadata. */
  ghost predicate Carries(mem: Memory, at: Address, ref: Val, alone: bool) {
    && Get(mem, at).MapCell? && "RefMetadata" in Get(mem, at).vals && Get(mem, at).vals["RefMetadata"].Ref?
    && Get(mem, Get(mem, at).vals["RefMetadata"].at) == MapCell(map["$ref" := ref, "alone" := Atom(Bool(alone))])
  }

  /** A container stays where it is and keeps its length or its keys, unless it is an object with
      references: that gives way to an object with one of them as metadata, or to a section that is no
      object. */
  ghost predicate Shaped(w: World, mem: Memory, p: Address, value: Json, a: Answer)
    requires a.Answer?
  {
    match value
    case Str(_) => true
    case List(items) => a == Answer(Ref(p), false) && Get(mem, p).ListCell? && |Get(mem, p).elems| == |items|
    case Obj(fields) =>
      if NoRefKeys(w, fields) then a == Answer(Ref(p), false) && Get(mem, p).MapCell? && Get(mem, p).vals.Keys == fields.Keys
      else
        && !a.res
        && (IsMap(mem, a.value) ==>
              exists key | key in fields && w.refKey(key) ::
                Carries(mem, a.value.at, Slot(Child(p, Key(key)), fields[key]), |fields| == 1))
    case _ => a == Answer(Atom(value), false)
  }

  /** From state `s` to `s'`, `value` was resolved at place `p`, with answer `a`: what was cached or
      recorded stays so, nothing is loaded at the bound, and only the place itself, the roots of shared
      documents and new documents have changed. Where nothing is to be resolved nothing happens, and
      what is orderly is resolved as it is to be displayed. */
  ghost predicate Resolved(job: Job, s: State, s': State, refBool: bool, p: Address, value: Json, a: Answer)
    requires p.doc < |s.mem.docs|
  {
    var v := ViewOf(job, s, p);
    && s.cache.Keys <= s'.cache.Keys && s.files.Keys <= s'.files.Keys
    && Moved(s.mem, s'.mem, p, s.shared, s'.shared)
    && (a.Answer? ==> Returned(s'.mem, p, s'.shared, a.value) && Shaped(job.w, s'.mem, p, value, a))
    && (job.count >= job.w.maxDepth ==> NothingLoaded(s, s'))
    && (!refBool && Still(v.site, value) ==> a == Answer(Slot(p, value), false) && s' == s)
    && (Expected(v, s.tags, p, value, refBool) ==> Done(v, After(v, s'), s.tags, s'.tags, p, value, refBool, a))
  }

  // ---- Objects ----

  /** From state `s` to `s1`, the keys of the object at `p` that are not in `rest` were visited. */
  ghost predicate Visiting(job: Job, s: State, s1: State, p: Address, fields: Fields, rest: set<string>)
    requires p.doc < |s.mem.docs|
  {
    var v := ViewOf(job, s, p);
    var expected := Expected(v, s.tags, p, Obj(fields), false);
    && s.cache.Keys <= s1.cache.Keys && s.files.Keys <= s1.files.Keys
    && Moved(s.mem, s1.mem, p, s.shared, s1.shared) && KeysWait(s1.mem, p, fields, rest)
    && p.doc !in s.shared && p.doc !in s1.shared && At(v.site.full, p.path) == Some(Obj(fields))
    && (job.count >= job.w.maxDepth ==> NothingLoaded(s, s1))
    && (forall key | key in fields && key !in rest :: !job.w.refKey(key))
    && (Still(v.site, Obj(fields)) ==> s1 == s)
    && (expected && NoRefKeys(job.w, fields) ==> Visited(v, After(v, s1), s.tags, s1.tags, p, fields, rest))
    && (expected && !NoRefKeys(job.w, fields) ==> s1 == s && RefKey(job.w, fields) in rest && HeldCell(v, p, fields))
  }

  lemma VisitBegins(job: Job, s: State, p: Address, fields: Fields)
    requires Untouched(s.mem, p, Obj(fields)) && p.doc !in s.shared
    ensures Get(s.mem, p).MapCell? && Get(s.mem, p).vals.Keys == fields.Keys
    ensures Visiting(job, s, s, p, fields, fields.Keys)
  {
    hide Get, Settled, Anchors, Still, Orderly, NoRefKeys, Visited, Untouched, At, HeldCell, Sound;
    PlaceIs(s.mem, p, Obj(fields));
    KeysDecoded(s.mem, p, fields);
    NotMoved(s.mem, p, s.shared);
    var v := ViewOf(job, s, p);
    if !NoRefKeys(job.w, fields) {
      HeldAtFirst(v, p, fields);
    } else if Expected(v, s.tags, p, Obj(fields), false) {
      KeysBegin(v, s.tags, p, fields);
    }
  }

  lemma HeldAtFirst(v: View, p: Address, fields: Fields)
    requires Untouched(v.mem, p, Obj(fields)) && !NoRefKeys(v.site.w, fields)
    ensures HeldCell(v, p, fields)
  {
    hide NoRefKeys;
    UntouchedCell(v.mem, p, Obj(fields));
    forall key | key in fields ensures Untouched(v.mem, Child(p, Key(key)), fields[key]) {
      UntouchedChild(v.mem, p, Obj(fields), Key(key));
    }
  }

  /** A key that is still to be visited is a place of its own. */
  lemma VisitPlace(job: Job, s: State, s1: State, p: Address, fields: Fields, rest: set<string>, k: string)
    requires p.doc < |s.mem.docs| && Visiting(job, s, s1, p, fields, rest) && k in rest
    ensures Get(s1.mem, p).MapCell? && k in Get(s1.mem, p).vals && k in fields
    ensures Get(s1.mem, p).vals[k] == Slot(Child(p, Key(k)), fields[k]) && Untouched(s1.mem, Child(p, Key(k)), fields[k])
    ensures p.doc < |s1.mem.docs| && s1.mem.docs[p.doc] == s.mem.docs[p.doc] && p.doc !in s1.shared
    ensures At(s.mem.docs[p.doc], Child(p, Key(k)).path) == Some(fields[k])
  {
    hide Get, Expected, Still, NoRefKeys, Visited, Untouched, At, HeldCell;
    MovedDocs(s.mem, s1.mem, p, s.shared, s1.shared);
    AtChild(s.mem.docs[p.doc], p.path, Key(k));
  }

  /** The state after the value of a key is written back. */
  function WriteKey(s: State, p: Address, k: string, x: Val): State
    requires Get(s.mem, p).MapCell?
  {
    s.(mem := Set(s.mem, p, MapCell(Get(s.mem, p).vals[k := x])))
  }

  lemma OkWritten(w: World, s: State, p: Address, cell: Cell)
    requires Ok(w, s) && p.doc < |s.mem.docs| && p.doc !in s.shared
    ensures Ok(w, s.(mem := Set(s.mem, p, cell)))
  {
    hide Set, CacheOk, Library, Formed;
    FormedSet(s.mem, p, cell);
    CacheWritten(w, s.mem, s.cache, s.shared, p, cell);
  }

  lemma VisitKey(job: Job, s: State, s1: State, s2: State, p: Address, fields: Fields, rest: set<string>, k: string, a: Answer)
    requires p.doc < |s.mem.docs| && Visiting(job, s, s1, p, fields, rest) && Ok(job.w, s1) && Ok(job.w, s2)
    requires k in rest && !job.w.refKey(k) && p.doc < |s1.mem.docs| && k in fields
    requires Resolved(job, s1, s2, false, Child(p, Key(k)), fields[k], a) && a.Answer?
    ensures Get(s2.mem, p) == Get(s1.mem, p) && Get(s1.mem, p).MapCell?
    ensures Visiting(job, s, WriteKey(s2, p, k, a.value), p, fields, rest - {k})
    ensures Ok(job.w, WriteKey(s2, p, k, a.value))
  {
    hide Get, Set, Calm, Still, Orderly, NoRefKeys, Visited, Untouched, At, Moved, Done, Returned, KeysWait,
      CacheOk, Library, FilesOk, OrderlyString, HeldCell, Sound, OrderlyLead;
    VisitPlace(job, s, s1, p, fields, rest, k);
    KeyMoves(s.mem, s1.mem, s2.mem, p, fields, rest, k, a.value, s.shared, s1.shared, s2.shared);
    MovedDocs(s1.mem, s2.mem, Child(p, Key(k)), s1.shared, s2.shared);
    OkWritten(job.w, s2, p, MapCell(Get(s2.mem, p).vals[k := a.value]));
    var v := ViewOf(job, s, p);
    var expected := Expected(v, s.tags, p, Obj(fields), false);
    KeyKinds(v.site, fields, k, expected);
    if Still(v.site, Obj(fields)) || (expected && !NoRefKeys(job.w, fields)) {
      assert a.value == Get(s2.mem, p).vals[k];
      SetSame(s2.mem, p, MapCell(Get(s2.mem, p).vals[k := a.value]));
    }
    if expected && NoRefKeys(job.w, fields) {
      KeyExpected(job, s, s1, s2, p, fields, rest, k, a);
    }
  }

  lemma KeyExpected(job: Job, s: State, s1: State, s2: State, p: Address, fields: Fields, rest: set<string>, k: string,
                    a: Answer)
    requires p.doc < |s.mem.docs| && Visiting(job, s, s1, p, fields, rest) && k in rest && k in fields
    requires p.doc < |s1.mem.docs| && Resolved(job, s1, s2, false, Child(p, Key(k)), fields[k], a) && a.Answer?
    requires Expected(ViewOf(job, s, p), s.tags, p, Obj(fields), false) && NoRefKeys(job.w, fields)
    requires Get(s2.mem, p) == Get(s1.mem, p) && Get(s1.mem, p).MapCell?
    ensures
      var v := ViewOf(job, s, p);
      Visited(v, After(v, WriteKey(s2, p, k, a.value)), s.tags, s2.tags, p, fields, rest - {k})
  {
    hide Get, Set, Calm, Still, Orderly, NoRefKeys, Visited, Untouched, At, Moved, Done, Returned, KeysWait, HeldCell, Sound;
    var v := ViewOf(job, s, p);
    VisitPlace(job, s, s1, p, fields, rest, k);
    KeyKinds(v.site, fields, k, true);
    VisitedCalm(v, After(v, s1), s.tags, s1.tags, p, fields, rest);
    assert After(v, s1) == ViewOf(job, s1, Child(p, Key(k)));
    KeyVisited(v, After(v, s1), After(v, s2), After(v, WriteKey(s2, p, k, a.value)), s.tags, s1.tags, s2.tags, p, fields, rest, k, a);
  }

  lemma VisitedCalm(v: View, v1: View, tags: map<string, Meta>, tags1: map<string, Meta>, p: Address, fields: Fields,
                    rest: set<string>)
    requires Visited(v, v1, tags, tags1, p, fields, rest)
    ensures v1.site == v.site && Calm(v1, tags1, |v1.mem.docs|)
  {
    hide Calm;
    HereSame(v, v1, p);
  }

  /** At the key of a reference nothing has changed, and what is under it is no place that references lead to. */
  lemma ReferenceExpected(job: Job, s: State, p: Address, fields: Fields, k: string)
    requires p.doc < |s.mem.docs| && Expected(ViewOf(job, s, p), s.tags, p, Obj(fields), false) && k in fields
    requires job.w.refKey(k)
    ensures !NoRefKeys(job.w, fields) && k == RefKey(job.w, fields) && OneReference(job.w, fields)
    ensures OrderlyLead(ViewOf(job, s, p).site, fields[k], |fields| == 1)
    ensures Expected(ViewOf(job, s, Child(p, Key(k))), s.tags, Child(p, Key(k)), fields[k], true)
  {
    hide Calm, Still, Orderly, At, Sound, Open, OrderlyLead;
    var v := ViewOf(job, s, p);
    KeyKinds(v.site, fields, k, true);
    AtChild(v.site.full, p.path, Key(k));
    OpenBelow(v.site, p.path, [Key(k)]);
  }

  lemma VisitPanics(job: Job, s: State, s1: State, s2: State, p: Address, fields: Fields, rest: set<string>, k: string)
    requires p.doc < |s.mem.docs| && Visiting(job, s, s1, p, fields, rest) && k in rest
    requires k in fields && p.doc < |s1.mem.docs|
    requires Resolved(job, s1, s2, job.w.refKey(k), Child(p, Key(k)), fields[k], Panic)
    ensures Resolved(job, s, s2, false, p, Obj(fields), Panic)
  {
    hide Get, Calm, Still, Orderly, NoRefKeys, Visited, Untouched, At, Moved, Returned, KeysWait, OrderlyString,
      Latest, OnlyHere, Shows, Fetched, HeldCell, Sound, TookSection, OrderlyLead;
    VisitPlace(job, s, s1, p, fields, rest, k);
    BelowMoves(s.mem, s1.mem, s2.mem, p, Key(k), s.shared, s1.shared, s2.shared);
    var v := ViewOf(job, s, p);
    var expected := Expected(v, s.tags, p, Obj(fields), false);
    KeyKinds(v.site, fields, k, expected);
    if expected && job.w.refKey(k) {
      ReferenceExpected(job, s, p, fields, k);
    } else if expected && NoRefKeys(job.w, fields) {
      VisitedCalm(v, After(v, s1), s.tags, s1.tags, p, fields, rest);
    }
  }

  lemma VisitEnds(job: Job, s: State, s1: State, p: Address, fields: Fields, rest: set<string>)
    requires p.doc < |s.mem.docs| && Visiting(job, s, s1, p, fields, rest) && rest == {}
    ensures Resolved(job, s, s1, false, p, Obj(fields), Answer(Ref(p), false))
  {
    hide Get, Calm, Still, Orderly, NoRefKeys, Visited, Untouched, At, Moved, Returned, KeysWait, Done, HeldCell, Sound;
    ReturnedItself(s1.mem, p, s1.shared);
    KeysShaped(job.w, s1.mem, p, fields);
    var v := ViewOf(job, s, p);
    if Expected(v, s.tags, p, Obj(fields), false) {
      KeysDone(v, After(v, s1), s.tags, s1.tags, p, fields, false);
    }
  }

  lemma KeysShaped(w: World, mem: Memory, p: Address, fields: Fields)
    requires KeysWait(mem, p, fields, {}) && forall key | key in fields :: !w.refKey(key)
    ensures Shaped(w, mem, p, Obj(fields), Answer(Ref(p), false))
  {
  }

  /** The end of a visit at a reference: metadata is written into an object, or into a new one if nothing
      was put in. */
  function EndReference(s: State, a: Answer, ref: Val, alone: bool): (State, Answer)
    requires a.Answer?
  {
    if IsMap(s.mem, a.value) || !a.res then
      var (mem, y) := AddMetadata(s.mem, a.value, ref, alone);
      (s.(mem := mem, shared := s.shared + NewDocs(s.mem, mem)), Answer(y, false))
    else (s, Answer(a.value, false))
  }

  lemma ReferenceMoves(w: World, s: State, p: Address, a: Answer, ref: Val, alone: bool)
    requires Ok(w, s) && a.Answer? && Returned(s.mem, p, s.shared, a.value) && p.doc < |s.mem.docs| && p.doc !in s.shared
    ensures
      var (s', r) := EndReference(s, a, ref, alone);
      && Ok(w, s') && r.Answer? && Moved(s.mem, s'.mem, p, s.shared, s'.shared) && Returned(s'.mem, p, s'.shared, r.value)
      && NothingLoaded(s, s') && s'.tags == s.tags && !r.res
      && (IsMap(s'.mem, r.value) ==> Carries(s'.mem, r.value.at, ref, alone))
  {
    hide CacheOk, AddMetadata, Library, FilesOk, OnlyUnder, Get;
    if IsMap(s.mem, a.value) || !a.res {
      MetaAdded(w, s.mem, s.cache, s.shared, p, a.value, ref, alone);
      MetaThere(s.mem, a.value, ref, alone);
    } else {
      NotMoved(s.mem, p, s.shared);
    }
  }

  lemma MetaThere(mem: Memory, x: Val, ref: Val, alone: bool)
    requires Formed(mem) && (IsMap(mem, x) ==> x.at.doc < |mem.docs|)
    ensures
      var (mem', y) := AddMetadata(mem, x, ref, alone);
      y.Ref? && Carries(mem', y.at, ref, alone)
  {
    hide AddMetadata, Get;
    if IsMap(mem, x) {
      AddToObject(mem, x.at, ref, alone);
    } else {
      AddToNew(mem, x, ref, alone);
    }
  }

  lemma VisitReference(job: Job, s: State, s1: State, s2: State, p: Address, fields: Fields, rest: set<string>, k: string,
                       a: Answer)
    requires p.doc < |s.mem.docs| && Visiting(job, s, s1, p, fields, rest) && Ok(job.w, s2)
    requires k in rest && job.w.refKey(k) && p.doc < |s1.mem.docs| && k in fields
    requires Resolved(job, s1, s2, true, Child(p, Key(k)), fields[k], a) && a.Answer?
    requires Get(s1.mem, p).MapCell? && k in Get(s1.mem, p).vals
    ensures
      var (s3, r) := EndReference(s2, a, Get(s1.mem, p).vals[k], |fields| == 1);
      var s4 := s3.(tags := NewTags(ViewOf(job, s, p).site, fields[k], |fields| == 1, s3.tags));
      Ok(job.w, s4) && Resolved(job, s, s4, false, p, Obj(fields), r)
  {
    hide Get, Expected, Still, Orderly, NoRefKeys, Untouched, Moved, Returned, Done, Ok, EndReference, NewTags, Carries,
      IsMap, HeldCell;
    VisitPlace(job, s, s1, p, fields, rest, k);
    ReferenceInPlace(job, s, s1, s2, p, fields, rest, k, a);
    var v := ViewOf(job, s, p);
    if Expected(v, s.tags, p, Obj(fields), false) {
      ReferenceEnds(job, s, s1, s2, p, fields, rest, k, a);
    }
    OkTags(job.w, EndReference(s2, a, Get(s1.mem, p).vals[k], |fields| == 1).0,
           NewTags(v.site, fields[k], |fields| == 1, EndReference(s2, a, Get(s1.mem, p).vals[k], |fields| == 1).0.tags));
    KeyKinds(v.site, fields, k, false);
  }

  lemma OkTags(w: World, s: State, tags: map<string, Meta>)
    requires Ok(w, s)
    ensures Ok(w, s.(tags := tags))
  {
    hide CacheOk, FilesOk, Library;
  }

  lemma ReferenceInPlace(job: Job, s: State, s1: State, s2: State, p: Address, fields: Fields, rest: set<string>,
                         k: string, a: Answer)
    requires p.doc < |s.mem.docs| && Visiting(job, s, s1, p, fields, rest) && Ok(job.w, s2)
    requires k in rest && job.w.refKey(k) && p.doc < |s1.mem.docs| && k in fields
    requires Resolved(job, s1, s2, true, Child(p, Key(k)), fields[k], a) && a.Answer?
    requires Get(s1.mem, p).MapCell? && k in Get(s1.mem, p).vals
    ensures
      var (s3, r) := EndReference(s2, a, Get(s1.mem, p).vals[k], |fields| == 1);
      && Ok(job.w, s3) && r.Answer? && s.cache.Keys <= s3.cache.Keys && s.files.Keys <= s3.files.Keys && s3.tags == s2.tags
      && Moved(s.mem, s3.mem, p, s.shared, s3.shared) && Returned(s3.mem, p, s3.shared, r.value)
      && !r.res && (IsMap(s3.mem, r.value) ==> Carries(s3.mem, r.value.at, Get(s1.mem, p).vals[k], |fields| == 1))
      && (job.count >= job.w.maxDepth ==> NothingLoaded(s, s3))
  {
    hide Get, Expected, Still, NoRefKeys, Visited, Untouched, At, Moved, Returned, KeysWait, HeldCell, Done, Ok, EndReference;
    BelowMoves(s.mem, s1.mem, s2.mem, p, Key(k), s.shared, s1.shared, s2.shared);
    ReturnedUp(s2.mem, p, Key(k), s2.shared, a.value);
    var (s3, r) := EndReference(s2, a, Get(s1.mem, p).vals[k], |fields| == 1);
    ReferenceMoves(job.w, s2, p, a, Get(s1.mem, p).vals[k], |fields| == 1);
    MovedTwice(s.mem, s2.mem, s3.mem, p, p, s.shared, s2.shared, s3.shared);
  }

  lemma ReferenceEnds(job: Job, s: State, s1: State, s2: State, p: Address, fields: Fields, rest: set<string>, k: string,
                      a: Answer)
    requires p.doc < |s.mem.docs| && Visiting(job, s, s1, p, fields, rest) && Ok(job.w, s2)
    requires k in rest && job.w.refKey(k) && p.doc < |s1.mem.docs| && k in fields
    requires Resolved(job, s1, s2, true, Child(p, Key(k)), fields[k], a) && a.Answer?
    requires Get(s1.mem, p).MapCell? && k in Get(s1.mem, p).vals && Get(s1.mem, p).vals[k] == Slot(Child(p, Key(k)), fields[k])
    requires Expected(ViewOf(job, s, p), s.tags, p, Obj(fields), false)
    ensures
      var v := ViewOf(job, s, p);
      var (s3, r) := EndReference(s2, a, Get(s1.mem, p).vals[k], |fields| == 1);
      Done(v, After(v, s3), s.tags, NewTags(v.site, fields[k], |fields| == 1, s3.tags), p, Obj(fields), false, r)
  {
    hide Get, Calm, Still, Orderly, NoRefKeys, Visited, Untouched, At, Moved, Returned, KeysWait, HeldCell, Done, NewTags,
      Sound, OrderlyLead, OneReference, AddMetadata, CacheOk, FilesOk, Library;
    var v := ViewOf(job, s, p);
    ReferenceExpected(job, s, p, fields, k);
    OkFormed(job.w, s2);
    assert ReferenceDone(v, After(v, s2), s.tags, s2.tags, p, fields, a);
    var (s3, r) := EndReference(s2, a, Get(s1.mem, p).vals[k], |fields| == 1);
    ReferencePut(v, After(v, s2), After(v, s3), s.tags, s2.tags, p, fields, false, a, r.value);
  }

  lemma OkFormed(w: World, s: State)
    requires Ok(w, s)
    ensures Formed(s.mem) && Library(w)
  {
  }

  // ---- Lists ----

  /** From state `s` to `s1`, the elements of the list at `p` before `next` were walked over. */
  ghost predicate Walking(job: Job, s: State, s1: State, refBool: bool, p: Address, items: seq<Json>, next: nat)
    requires p.doc < |s.mem.docs|
  {
    var v := ViewOf(job, s, p);
    && next <= |items| && s.cache.Keys <= s1.cache.Keys && s.files.Keys <= s1.files.Keys
    && Moved(s.mem, s1.mem, p, s.shared, s1.shared) && ItemsWait(s1.mem, p, items, next)
    && p.doc !in s.shared && p.doc !in s1.shared && At(v.site.full, p.path) == Some(List(items))
    && (job.count >= job.w.maxDepth ==> NothingLoaded(s, s1))
    && (!refBool && Still(v.site, List(items)) ==> s1 == s)
    && (Expected(v, s.tags, p, List(items), refBool) ==> Walked(v, After(v, s1), s.tags, s1.tags, p, items, refBool, next))
  }

  lemma WalkBegins(job: Job, s: State, refBool: bool, p: Address, items: seq<Json>)
    requires Untouched(s.mem, p, List(items)) && p.doc !in s.shared
    ensures Walking(job, s, s, refBool, p, items, 0)
  {
    hide Get, Settled, Anchors, Still, Orderly, Walked, Untouched, At, Sound, Open;
    PlaceIs(s.mem, p, List(items));
    ItemsDecoded(s.mem, p, items);
    NotMoved(s.mem, p, s.shared);
    var v := ViewOf(job, s, p);
    if Expected(v, s.tags, p, List(items), refBool) {
      ItemsBegin(v, s.tags, p, items, refBool);
    }
  }

  lemma WalkPlace(job: Job, s: State, s1: State, refBool: bool, p: Address, items: seq<Json>, i: nat)
    requires p.doc < |s.mem.docs| && Walking(job, s, s1, refBool, p, items, i)
    ensures Get(s1.mem, p).ListCell? && |Get(s1.mem, p).elems| == |items|
    ensures i < |items| ==> Get(s1.mem, p).elems[i] == Slot(Child(p, Index(i)), items[i]) && Untouched(s1.mem, Child(p, Index(i)), items[i])
    ensures p.doc < |s1.mem.docs| && s1.mem.docs[p.doc] == s.mem.docs[p.doc] && p.doc !in s1.shared
  {
    hide Get, Expected, Still, Walked, Untouched, At;
    MovedDocs(s.mem, s1.mem, p, s.shared, s1.shared);
  }

  function WriteItem(s: State, p: Address, i: nat, x: Val): State
    requires Get(s.mem, p).ListCell? && i < |Get(s.mem, p).elems|
  {
    s.(mem := Set(s.mem, p, ListCell(Get(s.mem, p).elems[i := x])))
  }

  lemma WalkItem(job: Job, s: State, s1: State, s2: State, refBool: bool, p: Address, items: seq<Json>, i: nat, a: Answer)
    requires p.doc < |s.mem.docs| && Walking(job, s, s1, refBool, p, items, i) && Ok(job.w, s1) && Ok(job.w, s2)
    requires i < |items| && p.doc < |s1.mem.docs|
    requires Resolved(job, s1, s2, refBool, Child(p, Index(i)), items[i], a) && a.Answer?
    ensures Get(s2.mem, p) == Get(s1.mem, p) && Get(s1.mem, p).ListCell? && i < |Get(s1.mem, p).elems|
    ensures Walking(job, s, WriteItem(s2, p, i, a.value), refBool, p, items, i + 1)
    ensures Ok(job.w, WriteItem(s2, p, i, a.value))
  {
    hide Get, Set, Expected, Orderly, Walked, Untouched, At, Moved, Done, Returned, ItemsWait, CacheOk, Library, FilesOk,
      Loadable;
    WalkPlace(job, s, s1, refBool, p, items, i);
    ItemMoves(s.mem, s1.mem, s2.mem, p, items, i, a.value, s.shared, s1.shared, s2.shared);
    MovedDocs(s1.mem, s2.mem, Child(p, Index(i)), s1.shared, s2.shared);
    OkWritten(job.w, s2, p, ListCell(Get(s2.mem, p).elems[i := a.value]));
    var v := ViewOf(job, s, p);
    if !refBool && Still(v.site, List(items)) {
      SetSame(s2.mem, p, ListCell(Get(s2.mem, p).elems[i := a.value]));
    }
    if Expected(v, s.tags, p, List(items), refBool) {
      ItemWritten(job, s, s1, s2, refBool, p, items, i, a);
    }
  }

  lemma ItemWritten(job: Job, s: State, s1: State, s2: State, refBool: bool, p: Address, items: seq<Json>, i: nat, a: Answer)
    requires p.doc < |s.mem.docs| && Walking(job, s, s1, refBool, p, items, i) && i < |items|
    requires p.doc < |s1.mem.docs| && Resolved(job, s1, s2, refBool, Child(p, Index(i)), items[i], a) && a.Answer?
    requires Expected(ViewOf(job, s, p), s.tags, p, List(items), refBool)
    requires Get(s2.mem, p) == Get(s1.mem, p) && Get(s1.mem, p).ListCell? && i < |Get(s1.mem, p).elems|
    ensures
      var v := ViewOf(job, s, p);
      Walked(v, After(v, WriteItem(s2, p, i, a.value)), s.tags, s2.tags, p, items, refBool, i + 1)
  {
    hide Get, Set, Calm, Walked, Untouched, At, Moved, Done, Returned, ItemsWait, Still, Sound, Expected, Open;
    var v := ViewOf(job, s, p);
    WalkPlace(job, s, s1, refBool, p, items, i);
    ItemExpected(job, s, s1, refBool, p, items, i);
    ItemWalked(v, After(v, s1), After(v, s2), After(v, WriteItem(s2, p, i, a.value)), s.tags, s1.tags, s2.tags, p, items, refBool, i, a);
  }

  /** An element is as expected when its turn comes. */
  lemma ItemExpected(job: Job, s: State, s1: State, refBool: bool, p: Address, items: seq<Json>, i: nat)
    requires p.doc < |s.mem.docs| && Walking(job, s, s1, refBool, p, items, i) && i < |items|
    requires p.doc < |s1.mem.docs| && s1.mem.docs[p.doc] == s.mem.docs[p.doc]
    requires Expected(ViewOf(job, s, p), s.tags, p, List(items), refBool)
    ensures refBool ==> Open(ViewOf(job, s, p).site, p.path)
    ensures Expected(ViewOf(job, s1, Child(p, Index(i))), s1.tags, Child(p, Index(i)), items[i], refBool)
    ensures After(ViewOf(job, s, p), s1) == ViewOf(job, s1, Child(p, Index(i)))
  {
    hide Get, Calm, Walked, At, Moved, ItemsWait, Still, Sound, Open, OrderlyString;
    var v := ViewOf(job, s, p);
    WalkedCalm(v, After(v, s1), s.tags, s1.tags, p, items, refBool, i);
    AtChild(v.site.full, p.path, Index(i));
    if refBool {
      OpenItem(v.site, p.path, i);
    }
  }

  lemma WalkedCalm(v: View, v1: View, tags: map<string, Meta>, tags1: map<string, Meta>, p: Address, items: seq<Json>,
                   refBool: bool,
                   i: nat)
    requires i <= |items| && Walked(v, v1, tags, tags1, p, items, refBool, i)
    ensures v1.site == v.site && Calm(v1, tags1, |v1.mem.docs|)
  {
    hide Calm;
    HereSame(v, v1, p);
  }

  lemma WalkPanics(job: Job, s: State, s1: State, s2: State, refBool: bool, p: Address, items: seq<Json>, i: nat)
    requires p.doc < |s.mem.docs| && Walking(job, s, s1, refBool, p, items, i) && i < |items|
    requires p.doc < |s1.mem.docs|
    requires Resolved(job, s1, s2, refBool, Child(p, Index(i)), items[i], Panic)
    ensures Resolved(job, s, s2, refBool, p, List(items), Panic)
  {
    hide Get, Calm, Walked, Untouched, At, Moved, Returned, ItemsWait, Loadable, Latest, OnlyHere, Shows, Fetched, Expected,
      TookSection;
    WalkPlace(job, s, s1, refBool, p, items, i);
    BelowMoves(s.mem, s1.mem, s2.mem, p, Index(i), s.shared, s1.shared, s2.shared);
    var v := ViewOf(job, s, p);
    if Expected(v, s.tags, p, List(items), refBool) {
      ItemExpected(job, s, s1, refBool, p, items, i);
    }
  }

  lemma WalkEnds(job: Job, s: State, s1: State, refBool: bool, p: Address, items: seq<Json>)
    requires p.doc < |s.mem.docs| && Walking(job, s, s1, refBool, p, items, |items|)
    ensures Resolved(job, s, s1, refBool, p, List(items), Answer(Ref(p), false))
  {
    hide Get, Expected, Still, Walked, Untouched, At, Moved, Returned, ItemsWait, Done;
    ReturnedItself(s1.mem, p, s1.shared);
    WalkPlace(job, s, s1, refBool, p, items, |items|);
    var v := ViewOf(job, s, p);
    if Expected(v, s.tags, p, List(items), refBool) {
      ItemsDone(v, After(v, s1), s.tags, s1.tags, p, items, refBool);
    }
  }

  // ---- Small steps ----

  lemma FlagUnused(job: Job, s: State, s': State, refBool: bool, p: Address, fields: Fields, a: Answer)
    requires p.doc < |s.mem.docs| && Resolved(job, s, s', false, p, Obj(fields), a)
    ensures Resolved(job, s, s', refBool, p, Obj(fields), a)
  {
    hide Calm, Still, Moved, Returned, OnlyHere, Latest, Fetched, Sound, At, Open, NoRefKeys, ShowsResult, ShowsLeft,
      HeldCell, Older,
      OrderlyLead, Get, Shaped, Age;
    var v := ViewOf(job, s, p);
    if Expected(v, s.tags, p, Obj(fields), refBool) {
      assert TagsOf(v.site, Obj(fields), refBool) == TagsOf(v.site, Obj(fields), false);
    }
  }

  lemma VisitLength(job: Job, s: State, s1: State, s2: State, p: Address, fields: Fields, rest: set<string>, k: string,
                    a: Answer)
    requires p.doc < |s.mem.docs| && Visiting(job, s, s1, p, fields, rest) && k in fields && p.doc < |s1.mem.docs|
    requires Resolved(job, s1, s2, true, Child(p, Key(k)), fields[k], a)
    ensures Get(s2.mem, p).MapCell? && |Get(s2.mem, p).vals| == |fields|
  {
    hide Get, Expected, Still, Visited, Returned, Done, Moved, KeysWait, HeldCell;
    LengthStays(s1.mem, s2.mem, p, fields, rest, k, s1.shared, s2.shared);
  }
}
