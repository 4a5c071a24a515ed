/** Chains of files that do not meet the bound on the depth: there a file comes to the same wherever it is
    loaded, and sharing makes no difference if the uses of files agree. */
module InclusionDepth {
  import opened YamlDocument
  import opened References
  import opened Inclusions

  /** From the file at depth `n` on, whatever is to be resolved is above the bound. */
  ghost predicate UncutAt(w: World, file: string, n: nat)
    decreases if n <= w.maxDepth then w.maxDepth - n else 0
  {
    && n <= w.maxDepth
    && (file in w.files && !LeftAlone(w, w.files[file]) ==>
          var site := FileAtTop(w, file);
          if n == w.maxDepth then Still(site, site.full)
          else forall other | MentionsIn(site, site.full, other) :: UncutAt(w, other, n + 1))
  }

  /** A file as if it were the document itself. */
  ghost function FileAtTop(w: World, file: string): Site
    requires file in w.files && !LeftAlone(w, w.files[file])
  {
    Unshared(w, file, w.unmarshal(w.files[file]).value, 0)
  }

  /** No chain of files meets the bound. */
  ghost predicate Uncut(site: Site) {
    forall file | MentionsIn(site, site.full, file) :: UncutAt(site.w, file, site.count + 1)
  }

  /** All files that are included are above the bound. */
  lemma {:induction false} ReachedUncut(site: Site, value: Json, file: string, n: nat)
    requires Reaches(site, value, file, n) && forall g | MentionsIn(site, value, g) :: UncutAt(site.w, g, site.count + 1)
    ensures UncutAt(site.w, file, n)
    decreases if site.count <= site.w.maxDepth then site.w.maxDepth - site.count else 0
  {
    hide Reaches, MentionsIn, LeftAlone, Still, PlanAt;
    ReachesEither(site, value, file, n);
    if !(MentionsIn(site, value, file) && n == site.count + 1) {
      var g :| ReachesBy(site, value, g, file, n);
      var inner := SiteOf(site.w, g, site.count + 1, site.plan);
      ReachesEither(inner, inner.full, file, n);
      forall other | MentionsIn(inner, inner.full, other) ensures UncutAt(site.w, other, inner.count + 1) {
        MentionsAlike(inner, FileAtTop(site.w, g), inner.full, other);
      }
      ReachedUncut(inner, inner.full, file, n);
    }
  }

  lemma {:induction false} StillDeeper(site: Site, more: Site, value: Json)
    requires Still(site, value) && more.w == site.w && more.path == site.path && more.count >= site.count
    ensures Still(more, value)
    decreases value
  {
    match value
    case Str(x) => assert OnlyFilePath(more, x) == OnlyFilePath(site, x);
    case List(items) =>
      forall i | 0 <= i < |items| ensures Still(more, items[i]) {
        StillDeeper(site, more, items[i]);
      }
    case Obj(fields) =>
      forall key | key in fields ensures Still(more, fields[key]) {
        StillDeeper(site, more, fields[key]);
      }
    case _ =>
  }

  lemma {:induction false} StillMentions(site: Site, value: Json, file: string)
    requires Still(site, value)
    ensures !MentionsIn(site, value, file)
    decreases value
  {
    match value
    case List(items) =>
      forall i | 0 <= i < |items| ensures !MentionsIn(site, items[i], file) {
        StillMentions(site, items[i], file);
      }
    case Obj(fields) =>
      forall key | key in fields ensures !MentionsIn(site, fields[key], file) {
        StillMentions(site, fields[key], file);
      }
    case _ =>
  }

  lemma StillObject(w: World, n: nat, file: string)
    requires file in w.files && !LeftAlone(w, w.files[file]) && Still(FileAtTop(w, file), FileAtTop(w, file).full)
    requires n <= w.maxDepth
    ensures ObjectAt(w, n, file) == w.unmarshal(Written(w, FileAtTop(w, file).full, w.files[file]))
  {
    hide Still, LeftAlone, Display, Cyclic, Orderly, PlanAt;
    var site := Unshared(w, file, FileAtTop(w, file).full, n);
    StillDeeper(FileAtTop(w, file), site, site.full);
    StillDisplays(site, site.full, OWN);
  }

  /** Above the bound a file comes to the same at every depth. */
  lemma {:induction false} SameObject(w: World, file: string, n: nat, m: nat)
    requires UncutAt(w, file, n) && UncutAt(w, file, m)
    ensures ObjectAt(w, n, file) == ObjectAt(w, m, file)
    decreases w.maxDepth - n
  {
    hide Still, LeftAlone, MentionsIn, Result, Reaches;
    if file in w.files && !LeftAlone(w, w.files[file]) {
      if n == w.maxDepth || m == w.maxDepth {
        StillObject(w, n, file);
        StillObject(w, m, file);
      } else {
        var full := FileAtTop(w, file).full;
        var a, b := Unshared(w, file, full, n), Unshared(w, file, full, m);
        forall other | MentionsIn(a, full, other) ensures a.plan.objs(other) == b.plan.objs(other) {
          MentionsAlike(a, FileAtTop(w, file), full, other);
          SameObject(w, other, n + 1, m + 1);
        }
        ResultAlike(a, b, w.files[file], OWN);
      }
    }
  }

  /** Above the bound, what is reached from a file is also reached from it further down. */
  lemma {:induction false} ReachedLower(w: World, file: string, n: nat, d: nat, other: string, m: nat)
    requires file in w.files && !LeftAlone(w, w.files[file]) && UncutAt(w, file, n + d)
    requires Reaches(Unshared(w, file, FileAtTop(w, file).full, n), FileAtTop(w, file).full, other, m)
    ensures Reaches(Unshared(w, file, FileAtTop(w, file).full, n + d), FileAtTop(w, file).full, other, m + d)
    decreases w.maxDepth - n
  {
    hide Reaches, MentionsIn, LeftAlone, Still, PlanAt;
    var full := FileAtTop(w, file).full;
    var a, b := Unshared(w, file, full, n), Unshared(w, file, full, n + d);
    ReachesEither(a, full, other, m);
    var g := if MentionsIn(a, full, other) && m == n + 1 then other else var h :| ReachesBy(a, full, h, other, m); h;
    MentionsAlike(a, FileAtTop(w, file), full, g);
    if n + d == w.maxDepth {
      StillMentions(FileAtTop(w, file), full, g);
    }
    MentionsAlike(a, b, full, g);
    ReachesEither(b, full, other, m + d);
    if !(MentionsIn(a, full, other) && m == n + 1) {
      var x, y := Unshared(w, g, FileAtTop(w, g).full, n + 1), Unshared(w, g, FileAtTop(w, g).full, n + d + 1);
      ReachesAlike(SiteOf(w, g, n + 1, a.plan), x, x.full, other, m);
      ReachedLower(w, g, n + 1, d, other, m);
      ReachesAlike(y, SiteOf(w, g, n + d + 1, b.plan), y.full, other, m + d);
      assert ReachesBy(b, full, g, other, m + d);
    }
  }

  /** Above the bound no file leads to itself. */
  lemma {:induction false} NoLoop(w: World, file: string, n: nat, m: nat)
    requires file in w.files && !LeftAlone(w, w.files[file]) && UncutAt(w, file, n)
    ensures !Reaches(Unshared(w, file, FileAtTop(w, file).full, n), FileAtTop(w, file).full, file, m)
    decreases w.maxDepth - n
  {
    hide Reaches, MentionsIn, LeftAlone, Still, PlanAt;
    var full := FileAtTop(w, file).full;
    var site := Unshared(w, file, full, n);
    if Reaches(site, full, file, m) {
      ReachedBelow(site, full, file, m);
      forall g | MentionsIn(site, full, g) ensures UncutAt(w, g, n + 1) {
        MentionsAlike(site, FileAtTop(w, file), full, g);
      }
      ReachedUncut(site, full, file, m);
      ReachedLower(w, file, n, m - n, file, m);
      NoLoop(w, file, m, m + (m - n));
    }
  }

  /** Where no chain of files meets the bound, no file leads to itself, and every file comes to the same wherever it
      is loaded. */
  lemma UncutIsFree(w: World, path: string, full: Json)
    requires Uncut(Unshared(w, path, full, 0))
    ensures Acyclic(Unshared(w, path, full, 0)) && DepthFree(Unshared(w, path, full, 0))
  {
    hide Reaches, MentionsIn, LeftAlone, PlanAt, UncutAt, ObjectAt;
    var site := Unshared(w, path, full, 0);
    forall file, n, m | Reaches(site, full, file, n) && Reaches(site, full, file, m)
      ensures ObjectAt(w, n, file) == ObjectAt(w, m, file)
    {
      ReachedUncut(site, full, file, n);
      ReachedUncut(site, full, file, m);
      SameObject(w, file, n, m);
    }
    forall file, n, m | Includes(site, file, n) ensures !Reaches(Inner(site, file, n), Inner(site, file, n).full, file, m) {
      ReachedUncut(site, full, file, n);
      NoLoop(w, file, n, m);
    }
  }

  /** All uses of a file agree, in the document and in the files it includes. */
  ghost predicate AgreeEverywhere(site: Site) {
    forall file, a, b | UsedAnywhere(site, file, a) && UsedAnywhere(site, file, b) :: SameShown(PlanOf(site), file, a, b)
  }

  /** If all uses agree and no chain of files meets the bound, sharing makes no difference. */
  lemma AgreeingIsForeseen(w: World, path: string, full: Json)
    requires OrderlyAll(Unshared(w, path, full, 0)) && Uncut(Unshared(w, path, full, 0))
    requires AgreeEverywhere(Unshared(w, path, full, 0))
    ensures Foreseen(Unshared(w, path, full, 0)) && Agree(Unshared(w, path, full, 0), full)
  {
    hide Reaches, MentionsIn, LeftAlone, PlanAt, UncutAt, ObjectAt, Uses, SameShown, Uncut, UsedInFile, Alike,
      OrderlyAll, Acyclic,
      DepthFree;
    var site := Unshared(w, path, full, 0);
    UncutIsFree(w, path, full);
    TopAlike(w, path, full);
    forall file, a, b | Uses(site, full, false, file, a) && Uses(site, full, false, file, b)
      ensures SameShown(site.plan, file, a, b)
    {
      assert UsedAnywhere(site, file, a) && UsedAnywhere(site, file, b);
      UsesMentions(site, full, false, file, a);
      AlikeObject(site, Planned(site), full, file);
      SameShownAlike(site.plan, PlanOf(site), file, a, b);
    }
  }

  lemma AlikeObject(a: Site, b: Site, value: Json, file: string)
    requires Alike(a, b, value) && MentionsIn(a, value, file)
    ensures a.plan.objs(file) == b.plan.objs(file)
  {
  }

  /** Files in which nothing is resolved are as foreseen. */
  lemma StillFilesForeseen(w: World, path: string, full: Json)
    requires Orderly(Unshared(w, path, full, 0), full, false)
    requires forall file | MentionsIn(Unshared(w, path, full, 0), full, file) && file in w.files && !LeftAlone(w, w.files[file]) ::
               Still(FileAtTop(w, file), FileAtTop(w, file).full)
    ensures Foreseen(Unshared(w, path, full, 0))
  {
    hide Reaches, MentionsIn, LeftAlone, PlanAt, ObjectAt, Uses, SameShown, Still, Orderly, Acyclic, DepthFree, Uncut;
    var site := Unshared(w, path, full, 0);
    forall file, n | Includes(site, file, n)
      ensures Orderly(Inner(site, file, n), Inner(site, file, n).full, false)
      ensures forall other, own :: !Uses(Inner(site, file, n), Inner(site, file, n).full, false, other, own)
    {
      OneLevel(site, file, n);
      StillDeeper(FileAtTop(w, file), Inner(site, file, n), Inner(site, file, n).full);
      StillDisplays(Inner(site, file, n), Inner(site, file, n).full, OWN);
    }
    forall file, own ensures !UsedInFile(site, file, own) {}
    StillUncut(w, path, full);
    UncutIsFree(w, path, full);
  }

  lemma StillUncut(w: World, path: string, full: Json)
    requires forall file | MentionsIn(Unshared(w, path, full, 0), full, file) && file in w.files && !LeftAlone(w, w.files[file]) ::
               Still(FileAtTop(w, file), FileAtTop(w, file).full)
    ensures Uncut(Unshared(w, path, full, 0))
  {
    hide Reaches, MentionsIn, LeftAlone, PlanAt, Still;
    var site := Unshared(w, path, full, 0);
    forall file | MentionsIn(site, full, file) ensures UncutAt(w, file, 1) {
      MentionsRoom(site, full, file);
      if file in w.files && !LeftAlone(w, w.files[file]) {
        forall other ensures !MentionsIn(FileAtTop(w, file), FileAtTop(w, file).full, other) {
          StillMentions(FileAtTop(w, file), FileAtTop(w, file).full, other);
        }
      }
    }
  }

  lemma OneLevel(site: Site, file: string, n: nat)
    requires site.count == 0 && Includes(site, file, n)
    requires forall g | MentionsIn(site, site.full, g) && g in site.w.files && !LeftAlone(site.w, site.w.files[g]) ::
               Still(FileAtTop(site.w, g), FileAtTop(site.w, g).full)
    ensures MentionsIn(site, site.full, file)
  {
    hide Reaches, MentionsIn, LeftAlone, PlanAt, Still;
    ReachesEither(site, site.full, file, n);
    if !MentionsIn(site, site.full, file) {
      var g :| ReachesBy(site, site.full, g, file, n);
      var inner := SiteOf(site.w, g, 1, site.plan);
      ReachesEither(inner, inner.full, file, n);
      var h := if MentionsIn(inner, inner.full, file) then file else var k :| ReachesBy(inner, inner.full, k, file, n); k;
      MentionsAlike(inner, FileAtTop(site.w, g), inner.full, h);
      StillMentions(FileAtTop(site.w, g), inner.full, h);
    }
  }
}
