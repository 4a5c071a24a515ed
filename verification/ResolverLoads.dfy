/** What resolving a string, loading a file and resolving a document do. */
module ResolverLoads {
  import opened Wrappers
  import opened YamlDocument
  import opened Strings
  import opened SharedMemory
  import opened References
  import opened ResolverMemory
  import opened ResolverAnswers
  import opened ResolverContainers
  import opened ResolverReading
  import opened ResolverStates

  // ---- Strings ----

  /** What resolving a string does. */
  ghost predicate StringResolved(job: Job, s: State, s': State, refBool: bool, p: Address, x: string, a: Answer)
    requires p.doc < |s.mem.docs|
  {
    var v := ViewOf(job, s, p);
    && s.cache.Keys <= s'.cache.Keys && s.files.Keys <= s'.files.Keys
    && Moved(s.mem, s'.mem, p, s.shared, s'.shared) && (a.Answer? ==> Returned(s'.mem, p, s'.shared, a.value))
    && (job.count >= job.w.maxDepth ==> NothingLoaded(s, s'))
    && (Skipped(v.site, x, refBool) || (!("#" <= x) && !Loadable(v.site, x)) ==> a == Answer(Atom(Str(x)), false) && s' == s)
    && (StringExpected(v, s.tags, x, refBool) ==>
          && LeadDone(v, After(v, s'), s.tags, s'.tags, x, refBool, a)
          && (!Skipped(v.site, x, refBool) && !("#" <= x) && Loadable(v.site, x) && OnlyFilePath(v.site, x) !in s.cache ==>
                Brought(job, s', OnlyFilePath(v.site, x))))
  }

  /** The files whose objects are used in the document are cached. */
  ghost predicate UsesCached(s: State, site: Site) {
    !Cyclic(site.w, site.full) ==> forall file, own | Uses(site, site.full, false, file, own) :: file in s.cache
  }

  /** The files that are used in `file` were loaded with it. */
  ghost predicate Brought(job: Job, s: State, file: string) {
    file in job.w.files && !LeftAlone(job.w, job.w.files[file]) ==> UsesCached(s, SiteOf(job.w, file, job.count + 1, job.plan))
  }

  ghost predicate StringExpected(v: View, tags: map<string, Meta>, x: string, refBool: bool) {
    Sound(v.site.w, v.site.plan) && Calm(v, tags, |v.mem.docs|) && OrderlyString(v.site, x, refBool)
  }

  lemma StringWalked(job: Job, s: State, s': State, refBool: bool, p: Address, x: string, a: Answer)
    requires p.doc < |s.mem.docs| && job.w.base(job.path) != x && StringResolved(job, s, s', refBool, p, x, a)
    ensures Resolved(job, s, s', refBool, p, Str(x), a)
  {
    hide Moved, Returned, Calm, OrderlyString, LeadDone, Done, Loadable, Sound, At, Open;
    var v := ViewOf(job, s, p);
    if Expected(v, s.tags, p, Str(x), refBool) {
      StringDone(v, After(v, s'), s.tags, s'.tags, p, x, refBool, a);
    }
  }

  /** What is no container, and no string that could lead anywhere, is done at once. */
  lemma AtomWalked(job: Job, s: State, refBool: bool, p: Address, j: Json)
    requires p.doc < |s.mem.docs| && !Container(j) && (j.Str? ==> job.w.base(job.path) == j.s)
    ensures Resolved(job, s, s, refBool, p, j, Answer(Atom(j), false))
  {
    hide Calm, OrderlyString, Done, Moved, Sound, At, Open;
    NotMoved(s.mem, p, s.shared);
    var v := ViewOf(job, s, p);
    if Expected(v, s.tags, p, j, refBool) {
      AtomDone(v, s.tags, p, j, refBool);
    }
  }

  lemma AtomDone(v: View, tags: map<string, Meta>, p: Address, j: Json, refBool: bool)
    requires !Container(j) && (j.Str? ==> v.site.w.base(v.site.path) == j.s) && Calm(v, tags, |v.mem.docs|)
    ensures Done(v, v, tags, tags, p, j, refBool, Answer(Atom(j), false))
  {
    hide Calm, Fetched, OnlyHere;
    if j.Str? {
      LeadNowhere(v, tags, j.s, refBool);
      StringDone(v, v, tags, tags, p, j.s, refBool, Answer(Atom(j), false));
    } else {
      assert TagsOf(v.site, j, refBool) == iset{};
      NoTags(v.site.plan.more, tags);
      NothingHere(v, p, j);
    }
  }

  /** A section is taken, from the value `x`. */
  function Take(w: World, s: State, str: string, split: seq<string>, x: Val): (State, Answer) {
    var (mem, a) := TakeSection(w, s.mem, str, split, x);
    (s.(mem := mem, shared := s.shared + NewDocs(s.mem, mem)), a)
  }

  lemma TakeMoves(w: World, s: State, str: string, split: seq<string>, x: Val, p: Address)
    requires Ok(w, s)
    ensures
      var (s', a) := Take(w, s, str, split, x);
      && Ok(w, s') && NothingLoaded(s, s') && s'.tags == s.tags && OnlyNewDocs(s.mem, s'.mem)
      && Moved(s.mem, s'.mem, p, s.shared, s'.shared) && (a.Answer? ==> Returned(s'.mem, p, s'.shared, a.value))
  {
    hide CacheOk, Library, FilesOk, CircularIn, FindIn, Sections;
    var (s', a) := Take(w, s, str, split, x);
    CacheAdded(w, s.mem, s'.mem, s.cache, s.shared, s'.shared);
  }

  ghost predicate OnlyNewDocs(m: Memory, m': Memory) {
    m.docs <= m'.docs && forall a: Address | a.doc < |m.docs| :: SameAt(m, m', a)
  }

  lemma TakeWith(w: World, s: State, files: map<string, ResolvedFile>, x: string, split: seq<string>, obj: Val)
    ensures Take(w, s.(files := files), x, split, obj) ==
            (Take(w, s, x, split, obj).0.(files := files), Take(w, s, x, split, obj).1)
    ensures Take(w, s, x, split, obj).0.files == s.files && Take(w, s, x, split, obj).0.cache == s.cache
  {
  }

  /** What a reference to a cached file leads to. */
  lemma CachedLead(v: View, tags: map<string, Meta>, limit: nat, x: string, refBool: bool)
    requires Settled(v, tags, limit) && !Skipped(v.site, x, refBool) && !("#" <= x) && Loadable(v.site, x)
    requires v.site.w.base(v.site.path) != x && OnlyFilePath(v.site, x) in v.cache
    ensures
      var file := OnlyFilePath(v.site, x);
      var d := v.cache[file].doc;
      && d < |v.mem.docs|
      && Leads(v.site, x, refBool) == if Whole(v.site, x) then File(file, v.mem.docs[d]) else SectionLead(v.site, x, v.mem.docs[d])
  {
    hide Settled, SectionLead, Parts, Loadable;
    FileIs(v, tags, limit, OnlyFilePath(v.site, x));
  }

  lemma WholeDone(v: View, tags: map<string, Meta>, x: string, refBool: bool)
    requires Calm(v, tags, |v.mem.docs|) && Leads(v.site, x, refBool).File?
    requires
      var lead := Leads(v.site, x, refBool);
      lead.file in v.cache && v.cache[lead.file].doc < |v.mem.docs| && lead.j == v.mem.docs[v.cache[lead.file].doc]
    ensures
      var d := v.cache[Leads(v.site, x, refBool).file].doc;
      LeadDone(v, v, tags, tags, x, refBool, Answer(Slot(Root(d), v.mem.docs[d]), false))
  {
    hide Calm, Leads;
    LatestSame(v.site.plan.more, tags);
    NothingTaken(v);
  }

  lemma FileFound(v: View, tags: map<string, Meta>, limit: nat, x: string)
    requires Settled(v, tags, limit) && !("#" <= x) && OnlyFilePath(v.site, x) in v.cache
    requires NamesSection(v.site, x) && Sections(Parts(v.site, x)[1])[0] != "RefMetadata"
    ensures
      var d := v.cache[OnlyFilePath(v.site, x)].doc;
      d < |v.mem.docs| && WellFound(v, x, Root(d), v.mem.docs[d])
  {
    hide Settled, Parts, Sections, FindIn, FindSection, Untouched;
    var file, sections := OnlyFilePath(v.site, x), Sections(Parts(v.site, x)[1]);
    FileIs(v, tags, limit, file);
    FindInFile(v, tags, limit, file, sections);
    assert [] + Keys(sections) == Keys(sections);
  }

  lemma OwnFound(v: View, x: string)
    requires Anchors(v) && "#" <= x && NamesSection(v.site, x) && Anchored(v.site, v.site.full, Sections(Parts(v.site, x)[1]))
    ensures WellFound(v, x, Root(v.doc), v.site.full)
  {
    hide Anchors, Parts, Sections, FindIn, FindSection, Untouched, Anchored, Plain;
    var sections := Sections(Parts(v.site, x)[1]);
    FullDecoded(v);
    FindAnchored(v, [], v.site.full, sections);
    assert [] + Keys(sections) == Keys(sections);
  }

  lemma StringStays(job: Job, s: State, refBool: bool, p: Address, x: string)
    requires p.doc < |s.mem.docs| && job.w.base(job.path) != x
    requires
      var site := ViewOf(job, s, p).site;
      Skipped(site, x, refBool) || (!("#" <= x) && !Loadable(site, x))
    ensures StringResolved(job, s, s, refBool, p, x, Answer(Atom(Str(x)), false))
  {
    hide Calm, OrderlyString, Loadable, Moved, Sound;
    NotMoved(s.mem, p, s.shared);
    var v := ViewOf(job, s, p);
    if StringExpected(v, s.tags, x, refBool) {
      LeadNowhere(v, s.tags, x, refBool);
    }
  }

  /** A section of the document itself. */
  lemma OwnTaken(job: Job, s: State, refBool: bool, p: Address, x: string, files: map<string, ResolvedFile>)
    requires Ok(job.w, s) && p.doc < |s.mem.docs| && job.w.base(job.path) != x && "#" <= x
    requires !Skipped(ViewOf(job, s, p).site, x, refBool) && s.files.Keys <= files.Keys
    ensures
      var (s', a) := Take(job.w, s, x, Split(job.path + x, '#'), Slot(Root(p.doc), s.mem.docs[p.doc]));
      StringResolved(job, s, s'.(files := files), refBool, p, x, a)
  {
    hide Settled, Anchors, Moved, Returned, Ok, LeadDone, NamesSection, Sections, Split, WellFound, TakeSection,
      Anchored, Sound;
    var (s', a) := Take(job.w, s, x, Split(job.path + x, '#'), Slot(Root(p.doc), s.mem.docs[p.doc]));
    TakeMoves(job.w, s, x, Split(job.path + x, '#'), Slot(Root(p.doc), s.mem.docs[p.doc]), p);
    var v := ViewOf(job, s, p);
    if StringExpected(v, s.tags, x, refBool) {
      OwnFound(v, x);
      OkFormed(job.w, s);
      AnchorsDoc(v);
      SectionTaken(v, After(v, s'), s.tags, x, refBool, Root(v.doc), v.site.full);
    }
  }

  /** What a reference to a cached file is answered with. */
  function FileAnswer(w: World, s: State, x: string, split: seq<string>, d: nat): (State, Answer)
    requires d < |s.mem.docs|
  {
    var obj := Slot(Root(d), s.mem.docs[d]);
    if w.cfnRef(x) || |split| == 1 then (s, Answer(obj, false)) else Take(w, s, x, split, obj)
  }

  lemma AnswerMoves(w: World, s: State, x: string, split: seq<string>, file: string, p: Address)
    requires Ok(w, s) && file in s.cache
    ensures s.cache[file].doc < |s.mem.docs|
    ensures
      var (s', a) := FileAnswer(w, s, x, split, s.cache[file].doc);
      && Ok(w, s') && NothingLoaded(s, s') && s'.tags == s.tags
      && Moved(s.mem, s'.mem, p, s.shared, s'.shared) && (a.Answer? ==> Returned(s'.mem, p, s'.shared, a.value))
  {
    hide CacheOk, Library, FilesOk, Take, Moved, Pristine;
    CachedShared(w, s, file);
    NotMoved(s.mem, p, s.shared);
    TakeMoves(w, s, x, split, Slot(Root(s.cache[file].doc), s.mem.docs[s.cache[file].doc]), p);
  }

  lemma CachedShared(w: World, s: State, file: string)
    requires Ok(w, s) && file in s.cache
    ensures s.cache[file].doc in s.shared && s.cache[file].doc < |s.mem.docs| && ContentAt(w, file, s.cache[file].content)
  {
    hide Library;
    assert IsCached(w, s.mem, s.shared, file, s.cache[file]);
  }

  // ---- Files ----

  /** The objects of files in a state, whatever document is resolved. */
  function Bare(w: World, g: Plan, s: State): View {
    View(Site(w, "", Null, 0, g), s.mem, s.cache, 0)
  }

  /** The files of a state are as expected. */
  ghost predicate FilesExpected(w: World, g: Plan, s: State) {
    Sound(w, g) && Settled(Bare(w, g, s), s.tags, |s.mem.docs|)
  }

  /** While files were loaded, only objects of files have changed, and the files are as expected still. */
  ghost predicate Loaded(w: World, g: Plan, s: State, s1: State) {
    && OnlyFiles(Bare(w, g, s), After(Bare(w, g, s), s1)) && FilesExpected(w, g, s1)
    && Latest(NO_USES, g.more, s.tags, s1.tags)
  }

  /** The files that are loaded with `file`. */
  ghost predicate LoadedWith(w: World, g: Plan, s: State, s1: State, file: string, n: nat) {
    forall other | other in s1.cache && other !in s.cache ::
      other == file || (file in w.files && !LeftAlone(w, w.files[file])
                        && exists m :: Reaches(SiteOf(w, file, n, g), SiteOf(w, file, n, g).full, other, m))
  }

  /** From state `s` to `s1` the file was loaded, if it had not been before. */
  ghost predicate FileReady(job: Job, s: State, s1: State, file: string, isError: bool) {
    && s.cache.Keys <= s1.cache.Keys && s.files.Keys <= s1.files.Keys
    && Moved(s.mem, s1.mem, Root(|s.mem.docs|), s.shared, s1.shared)
    && (!isError ==> file in s1.cache)
    && (file in s.cache ==> s1 == s && !isError)
    && (file !in s.cache && FilesExpected(job.w, job.plan, s) && job.plan.loads(file, job.count + 1) ==>
          && isError == job.plan.objs(file).None? && Loaded(job.w, job.plan, s, s1) && Brought(job, s1, file)
          && LoadedWith(job.w, job.plan, s, s1, file, job.count + 1))
  }

  lemma ReadyAlready(job: Job, s: State, file: string)
    requires file in s.cache
    ensures FileReady(job, s, s, file, false)
  {
    NotMoved(s.mem, Root(|s.mem.docs|), s.shared);
  }

  lemma FileMissing(job: Job, s: State, file: string)
    requires file !in job.w.files && file !in s.cache
    ensures FileReady(job, s, s, file, true)
  {
    hide Settled, Moved;
    NotMoved(s.mem, Root(|s.mem.docs|), s.shared);
    NothingTaken(Bare(job.w, job.plan, s));
    LatestSame(job.plan.more, s.tags);
    if job.plan.loads(file, job.count + 1) && Sound(job.w, job.plan) {
      assert SoundFile(job.w, job.plan, file, job.count + 1);
    }
  }

  /** The document is as expected after a file was loaded. */
  lemma ReadyLoading(job: Job, s: State, s1: State, p: Address, x: string, refBool: bool, isError: bool)
    requires p.doc < |s.mem.docs| && job.w.base(job.path) != x && !("#" <= x)
    requires
      var v := ViewOf(job, s, p);
      && !Skipped(v.site, x, refBool) && Loadable(v.site, x) && FileReady(job, s, s1, OnlyFilePath(v.site, x), isError)
      && StringExpected(v, s.tags, x, refBool)
    ensures
      var v := ViewOf(job, s, p);
      && Loading(v, After(v, s1), s.tags, s1.tags, x) && Calm(After(v, s1), s1.tags, |s1.mem.docs|)
      && (isError ==> v.site.plan.objs(OnlyFilePath(v.site, x)).None?)
      && (OnlyFilePath(v.site, x) !in s.cache ==> Brought(job, s1, OnlyFilePath(v.site, x)))
  {
    hide Moved, Settled, Anchors, OnlyFilePath, Loadable, Sound, NamesSection, Sections, Parts, Whole, SameAt, Plain;
    var v := ViewOf(job, s, p);
    var file := OnlyFilePath(v.site, x);
    if file in s.cache {
      LatestSame(job.plan.more, s.tags);
      NothingTaken(v);
    } else {
      HeldCached(v, s.tags, |s.mem.docs|, file);
      SettledOther(v, Bare(job.w, job.plan, s), s.tags, |s.mem.docs|);
      LoadedCalm(job, s, s1, v);
      ReachedByString(job, s, s1, v, x);
    }
  }

  lemma HeldCached(v: View, tags: map<string, Meta>, limit: nat, file: string)
    requires Settled(v, tags, limit) && file !in v.cache
    ensures file !in v.site.plan.held
  {
    hide Tagged;
  }

  lemma LoadedCalm(job: Job, s: State, s1: State, v: View)
    requires v.site.w == job.w && v.site.plan == job.plan && v.mem == s.mem && v.cache == s.cache
    requires Loaded(job.w, job.plan, s, s1) && Calm(v, s.tags, |s.mem.docs|)
    ensures OnlyFiles(v, After(v, s1)) && Calm(After(v, s1), s1.tags, |s1.mem.docs|)
  {
    hide Settled, Anchors, Sound, CacheGrown;
    var v1 := After(v, s1);
    AnchorsDoc(v);
    SettledOther(After(Bare(job.w, job.plan, s), s1), v1, s1.tags, |s1.mem.docs|);
    SameGrown(Bare(job.w, job.plan, s), After(Bare(job.w, job.plan, s), s1), v, v1);
    OldFiles(v, v1);
    AnchorsElsewhere(v, v1);
  }

  lemma SameGrown(b: View, b1: View, v: View, v1: View)
    requires CacheGrown(b, b1) && b.cache == v.cache && b1.cache == v1.cache && b.mem == v.mem
    ensures CacheGrown(v, v1)
  {
  }

  lemma ReachedByString(job: Job, s: State, s1: State, v: View, x: string)
    requires v.site.w == job.w && v.site.plan == job.plan && v.site.count == job.count && v.mem == s.mem && v.cache == s.cache
    requires v.site.path == job.path && job.w.base(job.path) != x && !("#" <= x) && job.count < job.w.maxDepth
    requires Loadable(v.site, x)
    requires LoadedWith(job.w, job.plan, s, s1, OnlyFilePath(v.site, x), job.count + 1)
    ensures Fetched(v, After(v, s1), Str(x))
  {
    hide LeftAlone, Loadable, OnlyFilePath;
    var file := OnlyFilePath(v.site, x);
    assert MentionsIn(v.site, Str(x), file);
    forall other | other in s1.cache && other !in s.cache ensures exists m :: Reaches(v.site, Str(x), other, m) {
      if other == file {
        assert Reaches(v.site, Str(x), other, job.count + 1);
      } else {
        var m :| Reaches(SiteOf(job.w, file, job.count + 1, job.plan), SiteOf(job.w, file, job.count + 1, job.plan).full, other, m);
        assert Reaches(v.site, Str(x), other, m);
      }
    }
  }

  lemma FileFailed(job: Job, s: State, s1: State, refBool: bool, p: Address, x: string)
    requires p.doc < |s.mem.docs| && job.w.base(job.path) != x && !("#" <= x) && job.count < job.w.maxDepth
    requires
      var site := ViewOf(job, s, p).site;
      !Skipped(site, x, refBool) && Loadable(site, x) && FileReady(job, s, s1, OnlyFilePath(site, x), true)
    ensures StringResolved(job, s, s1, refBool, p, x, Answer(Atom(Str(x)), false))
  {
    hide Calm, Moved, LeadDone, Loadable, OnlyFilePath, NamesSection, Loaded, LoadedWith, FilesExpected, Loading, Sound,
      OrderlyString;
    var v := ViewOf(job, s, p);
    MovedElsewhere(s.mem, s1.mem, Root(|s.mem.docs|), p, s.shared, s1.shared);
    if StringExpected(v, s.tags, x, refBool) {
      ReadyLoading(job, s, s1, p, x, refBool, true);
      LeadNowhere(After(v, s1), s1.tags, x, refBool);
      LeadLater(v, After(v, s1), After(v, s1), s.tags, s1.tags, s1.tags, x, refBool, Answer(Atom(Str(x)), false));
    }
  }

  lemma FileTaken(job: Job, s: State, s1: State, refBool: bool, p: Address, x: string, files: map<string, ResolvedFile>)
    requires Ok(job.w, s1) && p.doc < |s.mem.docs| && job.w.base(job.path) != x && !("#" <= x) && s1.files.Keys <= files.Keys
    requires
      var site := ViewOf(job, s, p).site;
      && !Skipped(site, x, refBool) && Loadable(site, x) && FileReady(job, s, s1, OnlyFilePath(site, x), false)
      && s1.cache[OnlyFilePath(site, x)].doc < |s1.mem.docs|
    ensures
      var site := ViewOf(job, s, p).site;
      var (s', a) := FileAnswer(job.w, s1, x, Parts(site, x), s1.cache[OnlyFilePath(site, x)].doc);
      StringResolved(job, s, s'.(files := files), refBool, p, x, a)
  {
    hide Calm, Moved, Ok, LeadDone, Loadable, OnlyFilePath, Returned, FileAnswer, NamesSection, Sections, Parts, Loaded,
      LoadedWith,
      FilesExpected, Loading, Sound, OrderlyString;
    var v := ViewOf(job, s, p);
    var file := OnlyFilePath(v.site, x);
    var (s', a) := FileAnswer(job.w, s1, x, Parts(v.site, x), s1.cache[file].doc);
    MovedElsewhere(s.mem, s1.mem, Root(|s.mem.docs|), p, s.shared, s1.shared);
    AnswerMoves(job.w, s1, x, Parts(v.site, x), file, p);
    MovedTwice(s.mem, s1.mem, s'.mem, p, p, s.shared, s1.shared, s'.shared);
    if StringExpected(v, s.tags, x, refBool) {
      ReadyLoading(job, s, s1, p, x, refBool, false);
      FileAnswered(job.w, s1, After(v, s1), x, refBool);
      LeadLater(v, After(v, s1), After(v, s'), s.tags, s1.tags, s1.tags, x, refBool, a);
    }
  }

  lemma FileAnswered(w: World, s: State, v: View, x: string, refBool: bool)
    requires Ok(w, s) && v.mem == s.mem && v.cache == s.cache && v.site.w == w && w.base(v.site.path) != x && !("#" <= x)
    requires !Skipped(v.site, x, refBool) && Loadable(v.site, x) && OnlyFilePath(v.site, x) in s.cache
    requires OrderlyString(v.site, x, refBool) && Calm(v, s.tags, |v.mem.docs|)
    requires s.cache[OnlyFilePath(v.site, x)].doc < |s.mem.docs|
    ensures
      var (s', a) := FileAnswer(w, s, x, Parts(v.site, x), s.cache[OnlyFilePath(v.site, x)].doc);
      LeadDone(v, After(v, s'), s.tags, s.tags, x, refBool, a) && s'.tags == s.tags
  {
    hide Settled, Anchors, Ok, LeadDone, Loadable, OnlyFilePath, NamesSection, Sections, Parts, Leads, TakeSection, WellFound;
    CachedLead(v, s.tags, |v.mem.docs|, x, refBool);
    FileIs(v, s.tags, |v.mem.docs|, OnlyFilePath(v.site, x));
    if Whole(v.site, x) {
      WholeDone(v, s.tags, x, refBool);
    } else {
      FileFound(v, s.tags, |v.mem.docs|, x);
      OkFormed(w, s);
      var d := v.cache[OnlyFilePath(v.site, x)].doc;
      SectionTaken(v, v.(mem := TakeSection(w, v.mem, x, Parts(v.site, x), Slot(Root(d), v.mem.docs[d])).0), s.tags, x, refBool,
                   Root(d), v.mem.docs[d]);
    }
  }

  // ---- Documents ----

  function Marshalled(w: World, mem: Memory, a: Answer, content: Content): Option<Content> {
    if a.Panic? then None else if w.marshal(mem, a.value).Some? then w.marshal(mem, a.value) else Some(content)
  }

  /** The files that `value` leads to were loaded. */
  ghost predicate LoadedFrom(s: State, s1: State, site: Site, value: Json) {
    forall other | other in s1.cache && other !in s.cache :: exists n :: Reaches(site, value, other, n)
  }

  /** What resolving a document does: `r` is its new content, or nothing if resolving panicked. */
  ghost predicate ContentResolved(job: Job, s: State, s': State, content: Content, r: Option<Content>) {
    && s.cache.Keys <= s'.cache.Keys && s.files.Keys <= s'.files.Keys
    && Moved(s.mem, s'.mem, Root(|s.mem.docs|), s.shared, s'.shared)
    && (job.count >= job.w.maxDepth ==> NothingLoaded(s, s'))
    && (LeftAlone(job.w, content) ==> r == Some(content) && s' == s)
    && (!LeftAlone(job.w, content) ==>
          var obj := job.w.unmarshal(content).value;
          var site := SiteFor(job, obj);
          && (Still(site, obj) ==> r == Some(References.Written(job.w, obj, content)) && s' == s.(mem := Decode(s.mem, obj)))
          && (FilesExpected(job.w, job.plan, s) && Orderly(site, obj, false) ==>
                && r == Some(Result(site, content, Current(s'.tags))) && LoadedFrom(s, s', site, obj) && UsesCached(s', site)
                && OnlyFiles(Bare(job.w, job.plan, s), After(Bare(job.w, job.plan, s), s')) && FilesExpected(job.w, job.plan, s')
                && Latest(TagsOf(site, obj, false), job.plan.more, s.tags, s'.tags)))
  }

  lemma Decoded(w: World, s: State, obj: Json)
    requires Ok(w, s)
    ensures
      var s1 := s.(mem := Decode(s.mem, obj));
      && Ok(w, s1) && Untouched(s1.mem, Root(|s.mem.docs|), obj) && |s.mem.docs| !in s.shared
      && Moved(s.mem, s1.mem, Root(|s.mem.docs|), s.shared, s1.shared)
  {
    hide CacheOk, FilesOk, Library;
    CacheAdded(w, s.mem, Decode(s.mem, obj), s.cache, s.shared, s.shared);
  }

  lemma DecodedSettled(w: World, g: Plan, s: State, obj: Json)
    requires Settled(Bare(w, g, s), s.tags, |s.mem.docs|)
    ensures Settled(Bare(w, g, s.(mem := Decode(s.mem, obj))), s.tags, |s.mem.docs| + 1)
    ensures OnlyFiles(Bare(w, g, s), After(Bare(w, g, s), s.(mem := Decode(s.mem, obj))))
    ensures |s.mem.docs| !in Files(s.cache)
  {
    hide Settled, Files;
    var s1 := s.(mem := Decode(s.mem, obj));
    var b := Bare(w, g, s).(doc := |s.mem.docs|);
    SettledOther(Bare(w, g, s), b, s.tags, |s.mem.docs|);
    FilesBound(b, s.tags, |s.mem.docs|);
    SettledElsewhere(b, After(b, s1), s.tags, |s.mem.docs|);
    SettledMore(After(b, s1), s.tags, |s.mem.docs|, |s1.mem.docs|);
    SettledOther(After(b, s1), Bare(w, g, s1), s.tags, |s1.mem.docs|);
  }

  lemma DecodedCalm(job: Job, s: State, obj: Json)
    requires FilesExpected(job.w, job.plan, s) && Formed(s.mem) && obj != Null
    ensures
      var s1 := s.(mem := Decode(s.mem, obj));
      Calm(ViewOf(job, s1, Root(|s.mem.docs|)), s.tags, |s1.mem.docs|)
  {
    hide Settled, Anchors, Sound, Files;
    var s1 := s.(mem := Decode(s.mem, obj));
    DecodedSettled(job.w, job.plan, s, obj);
    var v := ViewOf(job, s1, Root(|s.mem.docs|));
    SettledOther(Bare(job.w, job.plan, s1), v, s.tags, |s1.mem.docs|);
    FreshAnchors(v);
  }

  /** The library writes what is read. */
  lemma WritesTree(w: World, mem: Memory, x: Val, j: Json, n: nat, content: Content)
    requires Library(w) && Read(mem, x, n) == Some(j)
    ensures Marshalled(w, mem, Answer(x, false), content) == Some(References.Written(w, j, content))
  {
    assert w.marshal(mem, x) == w.write(Read(mem, x, n).value);
  }

  lemma DocumentResolved(job: Job, s: State, s1: State, s2: State, content: Content, a: Answer)
    requires Ok(job.w, s) && !LeftAlone(job.w, content) && s1 == s.(mem := Decode(s.mem, job.w.unmarshal(content).value))
    requires Resolved(job, s1, s2, false, Root(|s.mem.docs|), job.w.unmarshal(content).value, a)
    ensures ContentResolved(job, s, s2, content, Marshalled(job.w, s2.mem, a, content))
  {
    hide Settled, Orderly, Still, Moved, Returned, Done, Marshalled, Display, TagsOf, Latest, Untouched, Ok, Sound,
      OnlyFiles, LoadedFrom,
      Expected, Result;
    var obj, p := job.w.unmarshal(content).value, Root(|s.mem.docs|);
    var site := SiteFor(job, obj);
    Decoded(job.w, s, obj);
    OkFormed(job.w, s);
    MovedTwice(s.mem, s1.mem, s2.mem, p, p, s.shared, s1.shared, s2.shared);
    if Still(site, obj) {
      StillWritten(job.w, s2.mem, p, obj, content);
    }
    if FilesExpected(job.w, job.plan, s) && Orderly(site, obj, false) {
      if obj == Null {
        NullResolved(job, s, content);
      } else {
        DecodedCalm(job, s, obj);
        DocumentDone(job, s, s1, s2, content, a);
      }
    }
  }

  lemma StillWritten(w: World, mem: Memory, p: Address, obj: Json, content: Content)
    requires Library(w) && Untouched(mem, p, obj)
    ensures Marshalled(w, mem, Answer(Slot(p, obj), false), content) == Some(References.Written(w, obj, content))
  {
    hide Library;
    var n := HasDepth(obj);
    ReadUntouched(mem, p, obj, n);
    WritesTree(w, mem, Slot(p, obj), obj, n, content);
  }

  lemma NullResolved(job: Job, s: State, content: Content)
    requires FilesExpected(job.w, job.plan, s)
    ensures
      var site, s2 := SiteFor(job, Null), s.(mem := Decode(s.mem, Null));
      && Still(site, Null) && Result(site, content, Current(s.tags)) == References.Written(job.w, Null, content)
      && LoadedFrom(s, s2, site, Null) && UsesCached(s2, site) && OnlyFiles(Bare(job.w, job.plan, s), After(Bare(job.w, job.plan, s), s2))
      && FilesExpected(job.w, job.plan, s2) && Latest(TagsOf(site, Null, false), job.plan.more, s.tags, s.tags)
  {
    hide Settled, Sound, OnlyFiles, Latest;
    DecodedSettled(job.w, job.plan, s, Null);
    NoTags(job.plan.more, s.tags);
    assert TagsOf(SiteFor(job, Null), Null, false) == iset{};
  }

  lemma DocumentDone(job: Job, s: State, s1: State, s2: State, content: Content, a: Answer)
    requires Library(job.w) && FilesExpected(job.w, job.plan, s)
    requires !LeftAlone(job.w, content) && s1 == s.(mem := Decode(s.mem, job.w.unmarshal(content).value))
    requires Resolved(job, s1, s2, false, Root(|s.mem.docs|), job.w.unmarshal(content).value, a)
    requires Orderly(SiteFor(job, job.w.unmarshal(content).value), job.w.unmarshal(content).value, false)
    requires Calm(ViewOf(job, s1, Root(|s.mem.docs|)), s.tags, |s1.mem.docs|)
    ensures
      var site := SiteFor(job, job.w.unmarshal(content).value);
      && Marshalled(job.w, s2.mem, a, content) == Some(Result(site, content, Current(s2.tags))) && LoadedFrom(s, s2, site, site.full)
      && UsesCached(s2, site)
      && OnlyFiles(Bare(job.w, job.plan, s), After(Bare(job.w, job.plan, s), s2)) && FilesExpected(job.w, job.plan, s2)
      && Latest(TagsOf(site, site.full, false), job.plan.more, s.tags, s2.tags)
  {
    hide Calm, Settled, Orderly, Still, Moved, Returned, Done, Marshalled, TagsOf, Latest, Sound, OnlyFiles, OnlyHere,
      Result, Reaches,
      Shaped, Library;
    var p, v := Root(|s.mem.docs|), ViewOf(job, s1, Root(|s.mem.docs|));
    assert Expected(v, s.tags, p, v.site.full, false);
    DoneParts(v, After(v, s2), s.tags, s2.tags, p, v.site.full, a);
    DoneWritten(job.w, v, After(v, s2), s.tags, s2.tags, p, content, a);
    if !Cyclic(job.w, v.site.full) {
      DoneUses(v, After(v, s2), s.tags, s2.tags, p, a);
    }
    DecodedSettled(job.w, job.plan, s, v.site.full);
    HereFiles(job.w, job.plan, s, s1, s2, v);
    SettledOther(After(v, s2), Bare(job.w, job.plan, s2), s2.tags, |s2.mem.docs|);
  }

  lemma DoneParts(v: View, v1: View, tags: map<string, Meta>, tags1: map<string, Meta>, p: Address, value: Json, a: Answer)
    requires Done(v, v1, tags, tags1, p, value, false, a)
    ensures OnlyHere(v, v1, p) && Fetched(v, v1, value) && Latest(TagsOf(v.site, value, false), v.site.plan.more, tags, tags1)
    ensures Settled(v1, tags1, |v1.mem.docs|)
  {
    hide OnlyHere, Settled, Anchors, Latest, TagsOf, Shows, Reaches;
    SettledMore(v1, tags1, Age(v1, a.value), |v1.mem.docs|);
  }

  lemma DoneUses(v: View, v1: View, tags: map<string, Meta>, tags1: map<string, Meta>, p: Address, a: Answer)
    requires Done(v, v1, tags, tags1, p, v.site.full, false, a) && !Cyclic(v.site.w, v.site.full)
    ensures forall file, own | Uses(v.site, v.site.full, false, file, own) :: file in v1.cache
  {
    hide Calm, Latest, TagsOf, OnlyHere, Shows, Cyclic, Fetched, Age, Uses;
    HereSame(v, v1, p);
    forall file, own | Uses(v.site, v.site.full, false, file, own) ensures file in v1.cache {
      UsedIsCached(v1, p, a.value, v.site.full, false, file, own);
    }
  }

  lemma HereFiles(w: World, g: Plan, s: State, s1: State, s2: State, v: View)
    requires s1.mem == Decode(s.mem, v.site.full) && s1.cache == s.cache && v.mem == s1.mem && v.cache == s1.cache
    requires v.doc == |s.mem.docs| && OnlyHere(v, After(v, s2), Root(v.doc))
    ensures OnlyFiles(Bare(w, g, s), After(Bare(w, g, s), s2))
  {
    var b := Bare(w, g, s);
    forall a: Address | a.doc < |s.mem.docs| && !(a.path == [] && a.doc in Files(s.cache)) ensures SameAt(s.mem, s2.mem, a) {
      assert SameAt(s1.mem, s2.mem, a);
    }
  }

  /** The new content of a resolved document; a cycle cannot be written. */
  lemma DoneWritten(w: World, v: View, v1: View, tags: map<string, Meta>, tags1: map<string, Meta>, p: Address,
                    content: Content,
                    a: Answer)
    requires Library(w) && v.site.w == w && Orderly(v.site, v.site.full, false) && p == Root(v.doc) && v.doc < |v.mem.docs|
    requires Done(v, v1, tags, tags1, p, v.site.full, false, a)
    ensures Marshalled(w, v1.mem, a, content) == Some(Result(v.site, content, Current(tags1)))
  {
    hide Library, Settled, Anchors, Latest, TagsOf, OnlyHere, Shows, Orderly, Display, Cyclic, Fetched, Age;
    HereSame(v, v1, p);
    AgeBound(v1, a.value);
    if Cyclic(w, v.site.full) {
      DocThere(v1, tags1, Age(v1, a.value));
      CycleUnread(v1, p, a.value, v.site.full, false);
      NeverWritten(w, v1.mem, a.value);
    } else {
      var shown := Display(v.site, v.site.full, false, Current(tags1));
      var n := HasDepth(shown);
      ReadShows(v1, tags1, Age(v1, a.value), p, a.value, v.site.full, false, n);
      WritesTree(w, v1.mem, a.value, shown, n, content);
    }
  }

  lemma NeverWritten(w: World, mem: Memory, x: Val)
    requires Library(w) && forall n: nat :: Read(mem, x, n) == None
    ensures w.marshal(mem, x) == None
  {
    assert forall n: nat :: Read(mem, x, n).None?;
  }

  // ---- Loading a file ----

  /** Once the document of a file is resolved, it has come to what is expected, and the file itself is not cached. */
  lemma FileResolved(job: Job, s: State, s0: State, s1: State, file: string, r: Option<Content>)
    requires file in job.w.files && file !in s.cache && s0 == s.(deepest := s0.deepest)
    requires ContentResolved(Job(job.w, file, job.count + 1, job.plan), s0, s1, job.w.files[file], r)
    requires FilesExpected(job.w, job.plan, s) && job.plan.loads(file, job.count + 1)
    ensures r.Some? && job.w.unmarshal(r.value) == job.plan.objs(file)
    ensures Loaded(job.w, job.plan, s, s1) && LoadedWith(job.w, job.plan, s, s1, file, job.count + 1) && file !in s1.cache
    ensures Brought(job, s1, file)
  {
    hide Settled, Orderly, Still, Moved, Latest, TagsOf, Result, OnlyFiles, Reaches, SameShown;
    var g, content := job.plan, job.w.files[file];
    assert SoundFile(job.w, g, file, job.count + 1);
    SettledOther(Bare(job.w, g, s), Bare(job.w, g, s0), s.tags, |s.mem.docs|);
    if LeftAlone(job.w, content) {
      NothingTaken(Bare(job.w, g, s));
      LatestSame(g.more, s.tags);
    } else {
      var site := SiteOf(job.w, file, job.count + 1, g);
      TagsKnown(Bare(job.w, g, s1), s1.tags, |s1.mem.docs|);
      FileShown(job.w, g, file, job.count + 1, s.tags, s1.tags);
      LatestElsewhere(TagsOf(site, site.full, false), g.more, s.tags, s1.tags);
    }
  }

  lemma TagsKnown(v: View, tags: map<string, Meta>, limit: nat)
    requires Settled(v, tags, limit)
    ensures forall file | file in tags :: (file, tags[file]) in v.site.plan.all
  {
    hide Tagged;
  }

  lemma LatestElsewhere(uses: iset<(string, Meta)>, more: iset<(string, Meta)>, before: map<string, Meta>,
                        after: map<string, Meta>)
    requires Latest(uses, more, before, after) && uses <= more
    ensures Latest(NO_USES, more, before, after)
  {
  }

  lemma LoadFails(job: Job, s: State, s0: State, s1: State, file: string, r: Option<Content>)
    requires file in job.w.files && file !in s.cache && s0 == s.(deepest := s0.deepest)
    requires ContentResolved(Job(job.w, file, job.count + 1, job.plan), s0, s1, job.w.files[file], r)
    requires r.None? || job.w.unmarshal(r.value).None?
    ensures FileReady(job, s, s1, file, true)
  {
    hide FilesExpected, Loaded, LoadedWith, Moved, LeftAlone, Still, Orderly;
    if FilesExpected(job.w, job.plan, s) && job.plan.loads(file, job.count + 1) {
      FileResolved(job, s, s0, s1, file, r);
    }
  }

  /** The state after a file is cached, with a new document for its object. */
  function CacheFile(s: State, file: string, content: Content, obj: Json): State {
    s.(cache := s.cache[file := Cached(content, |s.mem.docs|)], shared := s.shared + {|s.mem.docs|}, mem := Decode(s.mem, obj))
  }

  lemma LoadEnds(job: Job, s: State, s0: State, s1: State, file: string, r: Option<Content>)
    requires file in job.w.files && file !in s.cache && s0 == s.(deepest := s0.deepest) && Ok(job.w, s1)
    requires ContentResolved(Job(job.w, file, job.count + 1, job.plan), s0, s1, job.w.files[file], r)
    requires r.Some? && job.w.unmarshal(r.value).Some?
    ensures
      var s2 := CacheFile(s1, file, job.w.files[file], job.w.unmarshal(r.value).value);
      Ok(job.w, s2) && FileReady(job, s, s2, file, false)
  {
    hide FilesExpected, Loaded, LoadedWith, Moved, LeftAlone, Still, Orderly, Ok;
    var s2 := CacheFile(s1, file, job.w.files[file], job.w.unmarshal(r.value).value);
    OkCached(job.w, s1, file, job.w.unmarshal(r.value).value);
    MovedDocs(s.mem, s1.mem, Root(|s.mem.docs|), s.shared, s1.shared);
    MovedTwice(s.mem, s1.mem, s2.mem, Root(|s.mem.docs|), Root(|s1.mem.docs|), s.shared, s1.shared, s2.shared);
    if FilesExpected(job.w, job.plan, s) && job.plan.loads(file, job.count + 1) {
      FileResolved(job, s, s0, s1, file, r);
      OkFormed(job.w, s1);
      CachedExpected(job, s, s1, file, job.w.unmarshal(r.value).value);
    }
  }

  lemma CachedExpected(job: Job, s: State, s1: State, file: string, obj: Json)
    requires Loaded(job.w, job.plan, s, s1) && LoadedWith(job.w, job.plan, s, s1, file, job.count + 1) && file !in s1.cache
    requires Formed(s1.mem) && file in job.w.files && job.plan.objs(file) == Some(obj)
    ensures
      var s2 := CacheFile(s1, file, job.w.files[file], obj);
      Loaded(job.w, job.plan, s, s2) && LoadedWith(job.w, job.plan, s, s2, file, job.count + 1)
  {
    hide Settled, Sound, Latest, Files, Reaches, LeftAlone, OnlyFiles;
    var s2 := CacheFile(s1, file, job.w.files[file], obj);
    var b := Bare(job.w, job.plan, s1).(doc := |s1.mem.docs|);
    SettledOther(Bare(job.w, job.plan, s1), b, s1.tags, |s1.mem.docs|);
    FilesBound(b, s1.tags, |s1.mem.docs|);
    SettledLoaded(b, After(b, s2), s1.tags, |s1.mem.docs|, file, s2.cache[file]);
    SettledMore(After(b, s2), s1.tags, |s1.mem.docs|, |s2.mem.docs|);
    SettledOther(After(b, s2), Bare(job.w, job.plan, s2), s1.tags, |s2.mem.docs|);
    CachedFiles(Bare(job.w, job.plan, s1), After(Bare(job.w, job.plan, s1), s2), file, s2.cache[file]);
    FilesThen(Bare(job.w, job.plan, s), After(Bare(job.w, job.plan, s), s1), After(Bare(job.w, job.plan, s), s2));
  }

  lemma CachedFiles(v: View, v1: View, file: string, c: Cached)
    requires v1.site == v.site && v1.doc == v.doc && v1.cache == v.cache[file := c] && file !in v.cache && c.doc == |v.mem.docs|
    requires v.mem.docs <= v1.mem.docs && v1.mem.changed == v.mem.changed
    ensures OnlyFiles(v, v1)
  {
  }

  lemma OkCached(w: World, s: State, file: string, obj: Json)
    requires Ok(w, s) && file in w.files
    ensures
      var s' := CacheFile(s, file, w.files[file], obj);
      Ok(w, s') && Moved(s.mem, s'.mem, Root(|s.mem.docs|), s.shared, s'.shared)
  {
    hide FilesOk, Library;
    var s' := CacheFile(s, file, w.files[file], obj);
    CacheAdded(w, s.mem, s'.mem, s.cache, s.shared, s'.shared);
    forall f | f in s'.cache ensures IsCached(w, s'.mem, s'.shared, f, s'.cache[f]) {
      if f != file {
        assert f in s.cache;
      }
    }
  }

  // ---- Small steps ----

  lemma {:induction false} HashSplits(s: string)
    ensures '#' in s <==> |Split(s, '#')| > 1
  {
    if s != "" {
      HashSplits(s[..|s| - 1]);
      assert s == s[..|s| - 1] + [s[|s| - 1]];
    }
  }

  lemma FileParts(site: Site, x: string)
    requires !("#" <= x)
    ensures Parts(site, x) == Split(site.w.join(site.path, x), '#') && OnlyFilePath(site, x) == Parts(site, x)[0]
    ensures Loadable(site, x) <==> site.w.present(OnlyFilePath(site, x)) && site.w.supported(OnlyFilePath(site, x))
  {
  }

  lemma OkFile(w: World, s: State, key: string, f: ResolvedFile)
    requires Ok(w, s) && (ContentAt(w, f.path, f.content) || ContentAt(w, Split(f.path, '#')[0], f.content))
    ensures Ok(w, s.(files := s.files[key := f]))
  {
    hide CacheOk, Library, Split, ContentAt;
  }

  lemma OkDeeper(w: World, s: State, n: nat)
    requires Ok(w, s) && n <= w.maxDepth
    ensures Ok(w, s.(deepest := if s.deepest < n then n else s.deepest))
  {
    hide CacheOk, Library, FilesOk;
  }
}
