/** What the text of a reference says: the keys it follows, in the document itself or in a file. */
module ReferencePaths {
  import opened Wrappers
  import opened YamlDocument
  import opened Strings
  import opened SharedMemory
  import opened References
  import opened ResolverMemory
  import opened ResolverAnswers

  // ---- Spelling ----

  /** Keys, each behind a slash or a backslash. */
  function Spelled(keys: seq<string>, marks: seq<char>): string
    requires |keys| == |marks|
  {
    if keys == [] then ""
    else
      var last := |keys| - 1;
      Spelled(keys[..last], marks[..last]) + [marks[last]] + keys[last]
  }

  predicate PlainKeys(keys: seq<string>, marks: seq<char>) {
    && keys != [] && |keys| == |marks| && (forall k | k in keys :: '/' !in k && '\\' !in k && '#' !in k)
    && forall m | m in marks :: m == '/' || m == '\\'
  }

  lemma {:induction false} SplitMore(a: string, k: string, separator: char)
    requires separator !in k
    ensures Split(a + [separator] + k, separator) == Split(a, separator) + [k]
    decreases |k|
  {
    var s := a + [separator] + k;
    if k == "" {
      assert s[..|s| - 1] == a;
    } else {
      var front := k[..|k| - 1];
      assert s[..|s| - 1] == a + [separator] + front && front + [k[|k| - 1]] == k;
      SplitMore(a, front, separator);
    }
  }

  lemma SlashedKey(k: string)
    requires '\\' !in k
    ensures Slashed(k) == k
  {
  }

  lemma SlashedBoth(a: string, b: string)
    ensures Slashed(a + b) == Slashed(a) + Slashed(b)
  {
  }

  /** Splitting what is spelled gives nothing and then the keys. */
  lemma {:induction false} SpelledSplit(keys: seq<string>, marks: seq<char>)
    requires |keys| == |marks| && (forall k | k in keys :: '/' !in k && '\\' !in k)
    requires forall m | m in marks :: m == '/' || m == '\\'
    ensures Split(Slashed(Spelled(keys, marks)), '/') == [""] + keys
    decreases |keys|
  {
    if keys != [] {
      var last := |keys| - 1;
      var front, mark := Spelled(keys[..last], marks[..last]), marks[last];
      assert mark in marks && keys[last] in keys && forall m | m in marks[..last] :: m in marks;
      SpelledSplit(keys[..last], marks[..last]);
      SlashedBoth(front + [mark], keys[last]);
      SlashedBoth(front, [mark]);
      SlashedKey(keys[last]);
      assert Slashed([mark]) == ['/'];
      SplitMore(Slashed(front), keys[last], '/');
      assert keys == keys[..last] + [keys[last]];
    }
  }

  lemma {:induction false} SpelledStarts(keys: seq<string>, marks: seq<char>)
    requires |keys| == |marks| && keys != []
    ensures Spelled(keys, marks) != "" && Spelled(keys, marks)[0] == marks[0]
    decreases |keys|
  {
    if |keys| > 1 {
      SpelledStarts(keys[..|keys| - 1], marks[..|keys| - 1]);
    }
  }

  /** Without the slash it starts with, a text splits into the same parts but the empty one. */
  lemma {:induction false} SplitBehind(s: string, separator: char)
    requires s != "" && s[0] == separator
    ensures Split(s, separator) == [""] + Split(s[1..], separator)
    decreases |s|
  {
    if |s| == 1 {
      assert s[..0] == "";
    } else {
      SplitBehind(s[..|s| - 1], separator);
      assert s[..|s| - 1][1..] == s[1..][..|s[1..]| - 1];
    }
  }

  /** The sections of what is spelled are the keys. */
  lemma SpelledSections(keys: seq<string>, marks: seq<char>)
    requires PlainKeys(keys, marks)
    ensures Spelled(keys, marks) != "" && Sections(Spelled(keys, marks)) == keys
  {
    var s := Spelled(keys, marks);
    SpelledStarts(keys, marks);
    assert marks[0] in marks;
    SpelledSplit(keys, marks);
    SplitBehind(Slashed(s), '/');
    assert ([""] + keys)[1..] == keys;
  }

  lemma {:induction false} NoHash(keys: seq<string>, marks: seq<char>)
    requires |keys| == |marks| && (forall k | k in keys :: '#' !in k) && forall m | m in marks :: m != '#'
    ensures '#' !in Spelled(keys, marks)
    decreases |keys|
  {
    if keys != [] {
      var last := |keys| - 1;
      assert keys[last] in keys && marks[last] in marks && forall m | m in marks[..last] :: m in marks;
      NoHash(keys[..last], marks[..last]);
    }
  }

  lemma TwoParts(a: string, keys: seq<string>, marks: seq<char>)
    requires '#' !in a && PlainKeys(keys, marks)
    ensures Split(a + "#" + Spelled(keys, marks), '#') == [a, Spelled(keys, marks)]
  {
    NoHash(keys, marks);
    SplitMore(a, Spelled(keys, marks), '#');
    NotSplit(a, '#');
  }

  // ---- Where references lead ----

  /** The value under the keys, one after the other, if it is there and does not refer to `s` itself. */
  function Reached(w: World, s: string, j: Json, keys: seq<string>): Lead {
    match At(j, Keys(keys))
    case None => Nowhere
    case Some(k) => if Circular(s, k, w.maxDepth) then Nowhere else Section(k)
  }

  /** A reference into the document leads to the value under its keys, all of them, in order, and nowhere if that is
      not there. */
  lemma OwnReferenceLeads(site: Site, keys: seq<string>, marks: seq<char>)
    requires PlainKeys(keys, marks) && '#' !in site.path && site.count < site.w.maxDepth
    requires site.w.base(site.path) != "#" + Spelled(keys, marks)
    ensures var s := "#" + Spelled(keys, marks); Leads(site, s, true) == Reached(site.w, s, site.full, keys)
  {
    hide Spelled, Sections, Split, Circular;
    var s := "#" + Spelled(keys, marks);
    SpelledSections(keys, marks);
    TwoParts(site.path, keys, marks);
    assert site.path + s == site.path + "#" + Spelled(keys, marks);
    SectionIsAt(site.full, keys);
  }

  /** A reference into a file leads to the value under its keys in the object of the file. */
  lemma FileReferenceLeads(site: Site, s: string, refBool: bool, file: string, obj: Json, keys: seq<string>, marks: seq<char>)
    requires PlainKeys(keys, marks) && '#' !in file && site.w.join(site.path, s) == file + "#" + Spelled(keys, marks)
    requires site.count < site.w.maxDepth && site.w.base(site.path) != s && !("#" <= s) && !site.w.cfnRef(s)
    requires site.w.present(file) && site.w.supported(file) && site.plan.objs(file) == Some(obj)
    ensures Leads(site, s, refBool) == Reached(site.w, s, obj, keys)
  {
    hide Spelled, Sections, Split, Circular;
    SpelledSections(keys, marks);
    TwoParts(file, keys, marks);
    SectionIsAt(obj, keys);
  }

  // ---- What is taken from memory ----

  lemma {:induction false} FindIsFollow(mem: Memory, v: Val, keys: seq<string>)
    ensures FindIn(mem, v, keys) == Follow(mem, v, Keys(keys))
    decreases keys
  {
    hide Get;
    if keys != [] {
      OneKeyMore(Root(0), keys);
      assert Keys(keys)[0] == Key(keys[0]) && Keys(keys)[1..] == Keys(keys[1..]);
      if IsMap(mem, v) && keys[0] in Get(mem, v.at).vals {
        FindIsFollow(mem, Get(mem, v.at).vals[keys[0]], keys[1..]);
      }
    }
  }

  /** What a reference with these keys is answered with: a copy of the object under them, or what else is there
      itself, and the reference if nothing is there or it refers to itself. */
  ghost predicate Answers(w: World, mem: Memory, mem': Memory, s: string, found: Option<Val>, a: Answer) {
    match found
    case None => mem' == mem && a == Answer(Atom(Str(s)), false)
    case Some(x) =>
      if CircularIn(mem, s, x, w.maxDepth) then mem' == mem && a == Answer(Atom(Str(s)), false)
      else if IsMap(mem, x) then
        && a.Answer? && a.res && a.value.Ref? && a.value.at == Root(|mem.docs|) && mem'.docs == mem.docs + [Null]
        && Get(mem', a.value.at) == Get(mem, x.at) && mem'.changed - {a.value.at} == mem.changed - {a.value.at}
      else mem' == mem && a == Answer(x, true)
  }

  lemma SpelledTaken(w: World, mem: Memory, s: string, split: seq<string>, v: Val, keys: seq<string>, marks: seq<char>)
    requires PlainKeys(keys, marks) && |split| > 1 && split[1] == Spelled(keys, marks)
    ensures var (mem', a) := TakeSection(w, mem, s, split, v); Answers(w, mem, mem', s, Follow(mem, v, Keys(keys)), a)
  {
    hide Spelled, Sections, Follow, FindIn, CircularIn;
    SpelledSections(keys, marks);
    FindIsFollow(mem, v, keys);
  }

  // ---- Where files are recorded ----

  /** A file is recorded under the text before the last '#'. */
  lemma {:induction false} BeforeLastHash(a: string, b: string)
    requires '#' !in b
    ensures GetPathFromString(a + "#" + b) == a && GetPathFromString(b) == b
    decreases |b|
  {
    var s := a + "#" + b;
    assert s[|a|] == '#';
    if b == "" {
      assert s[..|s| - 1] == a;
    } else {
      assert s[..|s| - 1] == a + "#" + b[..|b| - 1];
      BeforeLastHash(a, b[..|b| - 1]);
    }
  }
}
