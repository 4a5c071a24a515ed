/** Replacing references in a JSON document by what they refer to: mutual recursion over documents
    and files, bounded in depth, with a cache of the objects of files. Documents are changed in place,
    and what is put in is often shared. */
module FileResolver {
  import opened Wrappers
  import opened YamlDocument
  import opened Strings
  import opened SharedMemory
  import opened References
  import opened ResolverMemory
  import opened ResolverAnswers
  import opened ResolverReferences
  import opened ResolverReading
  import opened ResolverStates
  import opened ResolverLoads
  import opened ReferencePaths
  import opened Inclusions
  import opened InclusionDepth
  import opened ResolverFaults

  // ---- The resolver ----

  class Resolver {
    const w: World
    var mem: Memory
    var resolvedFiles: map<string, ResolvedFile>
    var cache: map<string, Cached>
    /** The files being loaded, outermost first, and the most that ever were at the same time. */
    ghost var loading: seq<string>
    ghost var deepest: nat
    /** The documents that may be put in several places, and the metadata in the objects of files. */
    ghost var shared: set<nat>
    ghost var tags: map<string, Meta>

    ghost function Now(): State
      reads this
    {
      State(mem, cache, resolvedFiles, deepest, shared, tags)
    }

    ghost predicate Valid()
      reads this
    {
      Ok(w, Now()) && |loading| <= deepest
    }

    /** Place `p` of the document `full` holds `v`, which nothing was done to yet. */
    ghost predicate Place(full: Val, v: Val, p: Address, value: Json)
      reads this
    {
      && Untouched(mem, p, value) && v == Slot(p, value) && p.doc !in shared
      && full == Slot(Root(p.doc), mem.docs[p.doc])
    }

    function Fuel(count: nat): nat {
      if count <= w.maxDepth then w.maxDepth - count else 0
    }

    constructor (w: World)
      requires Library(w)
      ensures Valid() && Now() == State(Memory([], map[]), map[], map[], 0, {}, map[]) && loading == [] && this.w == w
    {
      this.w, mem := w, Memory([], map[]);
      resolvedFiles, cache, loading, deepest, shared, tags := map[], map[], [], 0, {}, map[];
    }

    /** The resolved content, or nothing if resolving panicked. */
    method Resolve(content: Content, path: string, count: nat, ghost g: Plan) returns (r: Option<Content>)
      requires Valid() && |loading| <= count && ContentAt(w, path, content)
      modifies this
      ensures Valid() && loading == old(loading) && ContentResolved(Job(w, path, count, g), old(Now()), Now(), content, r)
      decreases Fuel(count), 1
    {
      hide Ok, Resolved, Moved, Orderly, Still, Latest, Result, TagsOf, FilesExpected, ContentAt, Untouched;
      ghost var s := Now();
      if (!w.resolveReferences && w.isOpenAPI(content)) || w.unmarshal(content).None? {
        NotMoved(mem, Root(|mem.docs|), shared);
        return Some(content);
      }
      var obj := w.unmarshal(content).value;
      var d := |mem.docs|;
      Decoded(w, s, obj);
      mem := Decode(mem, obj);
      ghost var s1 := Now();
      var a := Walk(content, Slot(Root(d), obj), Slot(Root(d), obj), path, count, false, g, Root(d), obj);
      DocumentResolved(Job(w, path, count, g), s, s1, Now(), content, a);
      if a.Panic? {
        return None;
      }
      r := w.marshal(mem, a.value);
      if r.None? {
        r := Some(content);
      }
    }

    method Walk(content: Content, full: Val, v: Val, path: string, count: nat, refBool: bool, ghost g: Plan,
                ghost p: Address, ghost value: Json)
      returns (a: Answer)
      requires Valid() && |loading| <= count && ContentAt(w, path, content) && Place(full, v, p, value)
      modifies this
      ensures Valid() && loading == old(loading) && Resolved(Job(w, path, count, g), old(Now()), Now(), refBool, p, value, a)
      decreases Fuel(count), 0, value, 2
    {
      hide Ok, Resolved, StringResolved, ContentAt, Get, At;
      ghost var s := Now();
      match v {
        case Atom(j) =>
          if j.Str? && w.base(path) != j.s {
            a := ResolvePath(content, full, j.s, path, count, refBool, g, p);
            StringWalked(Job(w, path, count, g), s, Now(), refBool, p, j.s, a);
          } else {
            a := Answer(v, false);
            AtomWalked(Job(w, path, count, g), s, refBool, p, j);
          }
        case Ref(at) =>
          UntouchedCell(mem, p, value);
          match Get(mem, at) {
            case ListCell(_) => a := WalkItems(content, full, v, path, count, refBool, g, p, value.items);
            case MapCell(_) =>
              a := HandleMap(content, full, v, path, count, g, p, value.fields);
              FlagUnused(Job(w, path, count, g), s, Now(), refBool, p, value.fields, a);
          }
      }
    }

    /** The loop over the elements of a list, which is changed in place. */
    method WalkItems(content: Content, full: Val, v: Val, path: string, count: nat, refBool: bool, ghost g: Plan,
                     ghost p: Address, ghost items: seq<Json>)
      returns (a: Answer)
      requires Valid() && |loading| <= count && ContentAt(w, path, content) && Place(full, v, p, List(items))
      modifies this
      ensures Valid() && loading == old(loading)
      ensures Resolved(Job(w, path, count, g), old(Now()), Now(), refBool, p, List(items), a)
      decreases Fuel(count), 0, List(items), 1
    {
      hide Ok, Resolved, ContentAt, Get, Set, Walking, Untouched, At;
      ghost var s := Now();
      ghost var job := Job(w, path, count, g);
      PlaceIs(mem, p, List(items));
      WalkBegins(job, s, refBool, p, items);
      WalkPlace(job, s, s, refBool, p, items, 0);
      var i := 0;
      while i < |Get(mem, v.at).elems|
        invariant Valid() && loading == old(loading) && i <= |items|
        invariant Walking(job, s, Now(), refBool, p, items, i)
        invariant Get(mem, p).ListCell? && |Get(mem, p).elems| == |items|
        decreases |items| - i
      {
        ghost var s1 := Now();
        WalkPlace(job, s, s1, refBool, p, items, i);
        a := Walk(content, full, Get(mem, v.at).elems[i], path, count, refBool, g, Child(p, Index(i)), items[i]);
        ghost var s2 := Now();
        if a.Panic? {
          WalkPanics(job, s, s1, s2, refBool, p, items, i);
          return;
        }
        WalkItem(job, s, s1, s2, refBool, p, items, i, a);
        mem := Set(mem, v.at, ListCell(Get(mem, v.at).elems[i := a.value]));
        assert Now() == WriteItem(s2, p, i, a.value);
        i := i + 1;
        WalkPlace(job, s, Now(), refBool, p, items, i);
      }
      a := Answer(v, false);
      WalkEnds(job, s, Now(), refBool, p, items);
    }

    /** The keys are visited in whatever order the map yields them; a reference ends the visit. */
    method HandleMap(content: Content, full: Val, v: Val, path: string, count: nat, ghost g: Plan, ghost p: Address,
                     ghost fields: Fields)
      returns (a: Answer)
      requires Valid() && |loading| <= count && ContentAt(w, path, content) && Place(full, v, p, Obj(fields))
      modifies this
      ensures Valid() && loading == old(loading)
      ensures Resolved(Job(w, path, count, g), old(Now()), Now(), false, p, Obj(fields), a)
      decreases Fuel(count), 0, Obj(fields), 1
    {
      hide Ok, Resolved, ContentAt, Get, Set, Visiting, Untouched, At, AddMetadata, IsMap, NewTags;
      ghost var s := Now();
      ghost var job := Job(w, path, count, g);
      PlaceIs(mem, p, Obj(fields));
      VisitBegins(job, s, p, fields);
      var rest := Get(mem, v.at).vals.Keys;
      while rest != {}
        invariant Valid() && loading == old(loading)
        invariant Visiting(job, s, Now(), p, fields, rest)
        decreases rest
      {
        ghost var s1 := Now();
        var k :| k in rest;
        VisitPlace(job, s, s1, p, fields, rest, k);
        var x, isRef := Get(mem, v.at).vals[k], w.refKey(k);
        a := Walk(content, full, x, path, count, isRef, g, Child(p, Key(k)), fields[k]);
        ghost var s2 := Now();
        if a.Panic? {
          VisitPanics(job, s, s1, s2, p, fields, rest, k);
          return;
        }
        if isRef {
          VisitLength(job, s, s1, s2, p, fields, rest, k, a);
          VisitReference(job, s, s1, s2, p, fields, rest, k, a);
          ghost var r := EndReference(s2, a, x, |fields| == 1).1;
          if IsMap(mem, a.value) || !a.res {
            var (marked, y) := AddMetadata(mem, a.value, x, |Get(mem, v.at).vals| == 1);
            shared := shared + NewDocs(mem, marked);
            mem, a := marked, Answer(y, false);
          } else {
            a := Answer(a.value, false);
          }
          tags := NewTags(ViewOf(job, s, p).site, fields[k], |fields| == 1, tags);
          return;
        }
        VisitKey(job, s, s1, s2, p, fields, rest, k, a);
        mem := Set(mem, v.at, MapCell(Get(mem, v.at).vals[k := a.value]));
        assert Now() == WriteKey(s2, p, k, a.value);
        rest := rest - {k};
      }
      a := Answer(v, false);
      VisitEnds(job, s, Now(), p, fields, rest);
    }

    method ResolvePath(content: Content, full: Val, x: string, path: string, count: nat, refBool: bool, ghost g: Plan,
                       ghost p: Address)
      returns (a: Answer)
      requires Valid() && |loading| <= count && ContentAt(w, path, content) && w.base(path) != x
      requires p.doc < |mem.docs| && p.doc !in shared && full == Slot(Root(p.doc), mem.docs[p.doc])
      modifies this
      ensures Valid() && loading == old(loading) && StringResolved(Job(w, path, count, g), old(Now()), Now(), refBool, p, x, a)
      // A section of the document is taken from the document as it is now.
      ensures
        !Skipped(Site(w, path, old(mem).docs[p.doc], count, g), x, refBool) && "#" <= x ==>
          var (s, r) := Take(w, old(Now()), x, Split(path + x, '#'), full);
          a == r && Now() == s.(files := s.files[path := ResolvedFile(content, path)])
      // A file that was resolved before is not loaded again: the answer is its cached object, or a section of it.
      ensures
        var site := Site(w, path, old(mem).docs[p.doc], count, g);
        var file := OnlyFilePath(site, x);
        !Skipped(site, x, refBool) && !("#" <= x) && Loadable(site, x) && file in old(cache) ==>
          && old(cache)[file].doc < |old(mem).docs|
          && var (s, r) := FileAnswer(w, old(Now()), x, Parts(site, x), old(cache)[file].doc);
          && a == r
          && Now() == s.(files := s.files[GetPathFromString(x) := ResolvedFile(s.cache[file].content, w.join(path, x))])
      decreases Fuel(count), 0, Str(x), 1
    {
      hide Ok, StringResolved, ContentAt, Split, FileReady, Loadable, Whole, Loaded, Files, Parts, OnlyFilePath,
        TakeSection, Take, GetPathFromString, Moved, Returned, OnlyNewDocs, FileOk, Slot, LoadedWith, FilesExpected, LeadDone,
        StringExpected;
      ghost var s := Now();
      ghost var job := Job(w, path, count, g);
      ghost var site := ViewOf(job, s, p).site;
      if count >= w.maxDepth || ("#" <= x && !refBool) || (x == "#" && refBool) {
        StringStays(job, s, refBool, p, x);
        return Answer(Atom(Str(x)), false);
      }
      if "#" <= x {
        HashSplits(path + x);
        assert (path + x)[|path|] == '#';
        OwnTaken(job, s, refBool, p, x, resolvedFiles[path := ResolvedFile(content, path)]);
        TakeWith(w, s, resolvedFiles, x, Split(path + x, '#'), full);
        a := ResolvePathReturnValue(x, path, Split(path + x, '#'), true, content, full);
        return;
      }
      var joined := w.join(path, x);
      var split := Split(joined, '#');
      var onlyFilePath := split[0];
      FileParts(site, x);
      if !w.present(onlyFilePath) || !w.supported(onlyFilePath) {
        StringStays(job, s, refBool, p, x);
        return Answer(Atom(Str(x)), false);
      }
      if onlyFilePath !in cache {
        var isError := ResolveFile(x, onlyFilePath, count, job);
        if isError {
          FileFailed(job, s, Now(), refBool, p, x);
          return Answer(Atom(Str(x)), false);
        }
      } else {
        ReadyAlready(job, s, onlyFilePath);
      }
      ghost var s1 := Now();
      var cached := cache[onlyFilePath];
      CachedShared(w, s1, onlyFilePath);
      var recorded := resolvedFiles[GetPathFromString(x) := ResolvedFile(cached.content, joined)];
      AnswerMoves(w, s1, x, split, onlyFilePath, p);
      FileTaken(job, s, s1, refBool, p, x, recorded);
      OkFile(w, s1, GetPathFromString(x), ResolvedFile(cached.content, joined));
      resolvedFiles := recorded;
      var obj := Slot(Root(cached.doc), mem.docs[cached.doc]);
      if w.cfnRef(x) || |split| == 1 {
        return Answer(obj, false);
      }
      TakeWith(w, s1, recorded, x, split, obj);
      a := ResolvePathReturnValue(x, path, split, false, content, obj);
    }

    method ResolvePathReturnValue(x: string, path: string, split: seq<string>, sameFile: bool, content: Content,
                                  obj: Val) returns (a: Answer)
      requires Valid() && ContentAt(w, path, content)
      modifies this
      ensures Valid() && loading == old(loading) && a == Take(w, old(Now()), x, split, obj).1
      ensures
        var files := if sameFile && |split| > 1 then old(resolvedFiles)[path := ResolvedFile(content, path)] else old(resolvedFiles);
        Now() == Take(w, old(Now()), x, split, obj).0.(files := files)
      // What is taken is what lies under the keys, one after the other.
      ensures
        forall keys, marks | PlainKeys(keys, marks) && |split| > 1 && split[1] == Spelled(keys, marks) ::
          Answers(w, old(mem), mem, x, Follow(old(mem), obj, Keys(keys)), a)
    {
      hide Ok, ContentAt, TakeSection, Moved, Returned, OnlyNewDocs, Split, Answers, Follow, Spelled;
      forall keys, marks | PlainKeys(keys, marks) && |split| > 1 && split[1] == Spelled(keys, marks)
        ensures var (mem', r) := TakeSection(w, mem, x, split, obj); Answers(w, mem, mem', x, Follow(mem, obj, Keys(keys)), r)
      {
        SpelledTaken(w, mem, x, split, obj, keys, marks);
      }
      TakeMoves(w, Now(), x, split, obj, Root(0));
      OkFile(w, Take(w, Now(), x, split, obj).0, path, ResolvedFile(content, path));
      if sameFile && |split| > 1 {
        resolvedFiles := resolvedFiles[path := ResolvedFile(content, path)];
      }
      var (taken, r) := TakeSection(w, mem, x, split, obj);
      shared := shared + NewDocs(mem, taken);
      mem, a := taken, r;
    }

    method ResolveFile(x: string, filePath: string, count: nat, ghost job: Job) returns (isError: bool)
      requires job.w == w && job.count == count && Valid() && |loading| <= count < w.maxDepth && filePath !in cache
      modifies this
      ensures Valid() && loading == old(loading) && FileReady(job, old(Now()), Now(), filePath, isError)
      ensures (!isError ==> filePath in cache) && (filePath !in w.files ==> isError && Now() == old(Now()))
      decreases Fuel(count), 0, Str(x), 0
    {
      hide Ok, FileReady, ContentResolved;
      ghost var s := Now();
      if filePath !in w.files {
        FileMissing(job, s, filePath);
        return true;
      }
      var content := w.files[filePath];
      ghost var outer := loading;
      loading := loading + [filePath];
      deepest := if deepest < |loading| then |loading| else deepest;
      OkDeeper(w, s, |loading|);
      ghost var s0 := Now();
      var resolved := Resolve(content, filePath, count + 1, job.plan);
      ghost var s1 := Now();
      loading := outer;
      if resolved.None? || w.unmarshal(resolved.value).None? {
        LoadFails(job, s, s0, s1, filePath, resolved);
        return true;
      }
      LoadEnds(job, s, s0, s1, filePath, resolved);
      var obj := w.unmarshal(resolved.value).value;
      cache := cache[filePath := Cached(content, |mem.docs|)];
      shared := shared + {|mem.docs|};
      mem := Decode(mem, obj);
      isError := false;
    }
  }

  /** Resolving a document from the start. No more than `maxDepth` files are ever being loaded at once. What a
      document comes to for which sharing can be foreseen is what it would be without sharing exactly if all its
      uses of a file agree; a document that holds a cycle stays as it is. */
  method ResolveDocument(w: World, content: Content, path: string) returns (r: Option<Content>, resolver: Resolver)
    requires Library(w) && ContentAt(w, path, content)
    ensures fresh(resolver) && resolver.Valid() && resolver.w == w && resolver.loading == []
    ensures w.maxDepth == 0 ==> resolver.cache == map[] && resolver.resolvedFiles == map[]
    ensures LeftAlone(w, content) ==> r == Some(content)
    ensures
      !LeftAlone(w, content) ==>
        var obj := w.unmarshal(content).value;
        var site := Unshared(w, path, obj, 0);
        Foreseen(site) ==>
          if Cyclic(w, obj) then r == Some(content)
          else
            var shown := Display(site, obj, false, Current(resolver.tags));
            r == Some(References.Written(w, shown, content)) && (shown == Display(site, obj, false, OWN) <==> Agree(site, obj))
  {
    hide Ok, Moved, Orderly, Still, Latest, Display, TagsOf, ContentAt, Agree, Foreseen, Sound, Settled, PlanOf, Cyclic,
      Alike, OnlyFiles;
    resolver := new Resolver(w);
    if LeftAlone(w, content) {
      r := resolver.Resolve(content, path, 0, PlanAt(w, 0));
    } else {
      var obj := w.unmarshal(content).value;
      ghost var site := Unshared(w, path, obj, 0);
      ghost var s := resolver.Now();
      r := resolver.Resolve(content, path, 0, PlanOf(site));
      if Foreseen(site) {
        PlanIsSound(w, path, obj);
        SettledAtFirst(Bare(w, PlanOf(site), s));
        ResultAlike(site, Planned(site), content, Current(resolver.tags));
        if !Cyclic(w, obj) {
          UnsharedIffAgree(w, path, obj, resolver.tags);
        }
      }
    }
  }

  lemma SettledAtFirst(v: View)
    requires v.cache == map[] && v.site.plan.held == {}
    ensures Settled(v, map[], 0)
  {
  }

  /** The elements of `[f, g]`, where the first file includes the second and that a third. The second is loaded with
      the first, at the bound, and comes without the third. From the cache it is put in like that for the second
      element, too, although there the third could be included. */
  method TruncatedServed(w: World, content: Content, path: string, f: string, g: string, h: string)
    returns (resolver: Resolver, a: Answer, b: Answer)
    requires Library(w) && ContentAt(w, path, content) && ThreeFiles(w, path, f, g, h)
    ensures fresh(resolver) && resolver.Valid() && a.Answer? && b.Answer?
    ensures Unfolds(resolver.mem, a.value, OneKey(OneKey(Str(h)))) && Unfolds(resolver.mem, b.value, OneKey(Str(h)))
    ensures
      var site := Unshared(w, path, List([Str(f), Str(g)]), 0);
      DisplayString(site, g, false, OWN) == OneKey(Obj(map[])) && !DepthFree(site) && !Uncut(site)
  {
    hide Ok, StringResolved, Moved, ContentAt, Names, Sound, LeftAlone, ObjectAt, Settled, Anchors, Split, Whole,
      Loadable, Untouched,
      Unfolds, PlanAt, DepthFree, Uses, Leads, OnlyFilePath, Parts, Skipped;
    var doc := List([Str(f), Str(g)]);
    resolver := new Resolver(w);
    ghost var s := resolver.Now();
    Decoded(w, s, doc);
    resolver.mem := Decode(resolver.mem, doc);
    ghost var plan := TwoFiles(w, f, g);
    ghost var job := Job(w, path, 0, plan);
    ghost var s0 := resolver.Now();
    assert w.base(path) != f && w.base(path) != g by { NamesDiffer(w, path, f, g, h); }
    a := resolver.ResolvePath(content, Slot(Root(0), doc), f, path, 0, false, plan, Child(Root(0), Index(0)));
    ghost var s1 := resolver.Now();
    FirstServed(job, s0, s1, f, g, h, a);
    assert s1.mem.docs[0] == doc && 0 !in s1.shared by { DocumentStays(job, s0, s1, f, a); }
    b := resolver.ResolvePath(content, Slot(Root(0), doc), g, path, 0, false, plan, Child(Root(0), Index(1)));
    SecondServed(job, s1, f, g, h);
    SecondFileDiffers(w, path, f, g, h);
    SecondUnshared(w, path, f, g, h);
  }

  lemma NamesDiffer(w: World, path: string, f: string, g: string, h: string)
    requires ThreeFiles(w, path, f, g, h)
    ensures w.base(path) != f && w.base(path) != g
  {
  }

  lemma DocumentStays(job: Job, s: State, s1: State, x: string, a: Answer)
    requires |s.mem.docs| == 1 && s.shared == {} && StringResolved(job, s, s1, false, Child(Root(0), Index(0)), x, a)
    ensures |s1.mem.docs| >= 1 && s1.mem.docs[0] == s.mem.docs[0] && 0 !in s1.shared
  {
  }

  lemma SecondUnshared(w: World, path: string, f: string, g: string, h: string)
    requires ThreeFiles(w, path, f, g, h)
    ensures DisplayString(Unshared(w, path, List([Str(f), Str(g)]), 0), g, false, OWN) == OneKey(Obj(map[]))
  {
    hide Names, ObjectAt, LeftAlone, Leads;
    ThreeObjects(w, path, f, g, h);
    NamedLead(Unshared(w, path, List([Str(f), Str(g)]), 0), g, false);
  }

  /** The first file was loaded, and the second with it. */
  lemma FirstServed(job: Job, s0: State, s1: State, f: string, g: string, h: string, a: Answer)
    requires ThreeFiles(job.w, job.path, f, g, h) && job.count == 0 && job.plan == TwoFiles(job.w, f, g)
    requires s0.mem == Memory([List([Str(f), Str(g)])], map[]) && s0.cache == map[] && s0.tags == map[]
    requires StringResolved(job, s0, s1, false, Child(Root(0), Index(0)), f, a)
    ensures a.Answer? && Unfolds(s1.mem, a.value, OneKey(OneKey(Str(h)))) && g in s1.cache
    ensures Settled(After(ViewOf(job, s0, Root(0)), s1), map[], |s1.mem.docs|)
  {
    hide Names, Sound, Settled, Anchors, Uses, ObjectAt, LeftAlone, Leads, Moved, Returned, Unfolds, OnlyFiles, Fetched, Cyclic,
      Loadable, OnlyFilePath, Parts, Whole;
    var v, v1 := ViewOf(job, s0, Root(0)), After(ViewOf(job, s0, Root(0)), s1);
    TwoFilesSound(job.w, job.path, f, g, h);
    NamedLead(v.site, f, false);
    ThreeObjects(job.w, job.path, f, g, h);
    NothingYet(v);
    assert StringExpected(v, map[], f, false);
    assert s1.tags == map[];
    SettledMore(v1, map[], Age(v1, a.value), |s1.mem.docs|);
    FileUnfolds(v1, f, OneKey(OneKey(Str(h))));
    assert Uses(SiteOf(job.w, f, 1, job.plan), OneKey(Str(g)), false, g, None);
  }

  lemma NothingYet(v: View)
    requires v.mem == Memory([v.site.full], map[]) && v.doc == 0 && v.cache == map[] && v.site.full != Null
    requires v.site.plan.held == {}
    ensures Calm(v, map[], 1)
  {
    FreshAnchors(v);
  }

  lemma FileUnfolds(v: View, file: string, j: Json)
    requires Settled(v, map[], |v.mem.docs|) && file in v.cache && v.site.plan.objs(file) == Some(j)
    ensures Unfolds(v.mem, Slot(Root(v.cache[file].doc), j), j)
  {
    hide Settled;
    var n := HasDepth(j);
    ReadFile(v, map[], |v.mem.docs|, file, None, n);
  }

  /** The second file is served as it was loaded with the first. */
  lemma SecondServed(job: Job, s1: State, f: string, g: string, h: string)
    requires ThreeFiles(job.w, job.path, f, g, h) && job.count == 0 && job.plan == TwoFiles(job.w, f, g) && g in s1.cache
    requires |s1.mem.docs| > 0 && Settled(ViewOf(job, s1, Root(0)), map[], |s1.mem.docs|)
    ensures
      var site := ViewOf(job, s1, Root(0)).site;
      && !Skipped(site, g, false) && !("#" <= g) && Loadable(site, g) && OnlyFilePath(site, g) == g && s1.cache[g].doc < |s1.mem.docs|
      && var (s, r) := FileAnswer(job.w, s1, g, Parts(site, g), s1.cache[g].doc);
      s.mem == s1.mem && r.Answer? && Unfolds(s1.mem, r.value, OneKey(Str(h)))
  {
    hide Settled, ObjectAt, LeftAlone, Leads, Unfolds;
    var v := ViewOf(job, s1, Root(0));
    NamedLead(v.site, g, false);
    ThreeObjects(job.w, job.path, f, g, h);
    FileIs(v, map[], |s1.mem.docs|, g);
    FileUnfolds(v, g, OneKey(Str(h)));
  }
}
