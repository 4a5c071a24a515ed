/** Blocks are grouped correctly exactly if no block's path runs through another block's place. */
module TerraformClashes {
  import opened TerraformBlocks
  import opened Wrappers

  /** Every block is found at its own path, together with the other blocks of that path and
      nothing else. */
  ghost predicate Grouped(r: Result<map<string, Value>>, es: seq<Entry>) {
    r.Success? && forall i | 0 <= i < |es| :: FoundAt(r.value, es, es[i])
  }

  ghost predicate FoundAt(out: map<string, Value>, es: seq<Entry>, e: Entry) {
    var docs := Docs(es, e.key, e.labels);
    docs != [] && Lookup(out, e.key, e.labels) == Some(Collapse(docs))
  }

  lemma {:induction false} LookupOutside(base: map<string, Value>, es: seq<Entry>, key: string, labels: seq<string>)
    requires key !in base
    ensures Lookup(base + Trie(es), key, labels) == Lookup(Trie(es), key, labels)
  {
  }

  lemma NoClashGroups(base: map<string, Value>, es: seq<Entry>)
    requires NoClash(es) && AllDocs(es) && base.Keys !! Heads(es)
    ensures Grouped(InsertAll(base, es), es)
  {
    InsertAllGroups(base, es);
    forall i | 0 <= i < |es| ensures FoundAt(base + Trie(es), es, es[i]) {
      var e := es[i];
      assert e.key in Heads(es);
      DocsOf(es, e.key, e.labels);
      LookupGroup(es, e.key, e.labels);
      LookupOutside(base, es, e.key, e.labels);
    }
  }

  // ---- What an insertion does to the other paths ----

  /** Some proper prefix of the path leads to a list. */
  predicate ListOnTheWay(out: map<string, Value>, key: string, labels: seq<string>)
    decreases labels
  {
    && labels != []
    && key in out
    && (out[key].List? || (out[key].Doc? && ListOnTheWay(out[key].entries, labels[0], labels[1..])))
  }

  /** How many documents are at a place. */
  function Size(v: Option<Value>): nat {
    if v.None? then 0 else if v.value.List? then 1 + |v.value.items| else 1
  }

  lemma {:induction false} ListHides(out: map<string, Value>, key: string, labels: seq<string>)
    requires ListOnTheWay(out, key, labels)
    ensures Lookup(out, key, labels) == None
    decreases labels
  {
    if out[key].Doc? {
      ListHides(out[key].entries, labels[0], labels[1..]);
    }
  }

  /** Lists stay lists, the place of the new block gains a document and no other place loses one
      unless it is cut off by a list. */
  lemma {:induction false} InsertGrows(out: map<string, Value>, k: string, ls: seq<string>, v: Value, key: string, labels: seq<string>)
    requires Insert(out, k, ls, v).Success?
    ensures
      var o := Insert(out, k, ls, v).value;
      && (ListOnTheWay(out, key, labels) ==> ListOnTheWay(o, key, labels))
      && (ListOnTheWay(o, key, labels) || Size(Lookup(o, key, labels)) >= Size(Lookup(out, key, labels)))
      && (k == key && ls == labels ==> Size(Lookup(o, key, labels)) > Size(Lookup(out, key, labels)))
      && (IsList(Lookup(out, key, labels)) ==> ListOnTheWay(o, key, labels) || IsList(Lookup(o, key, labels)))
    decreases ls
  {
    if ls != [] && labels != [] && k == key {
      var inner := if k in out then out[k].entries else map[];
      InsertGrows(inner, ls[0], ls[1..], v, labels[0], labels[1..]);
      assert ls == labels <==> ls[0] == labels[0] && ls[1..] == labels[1..];
    }
  }

  predicate IsList(v: Option<Value>) {
    v.Some? && v.value.List?
  }

  // ---- A clash spoils the grouping for good ----

  /** The block `f`, whose path runs through the place of `e`, is cut off by a list or has grown
      something inside the document of `e`. */
  ghost predicate Spoiled(out: map<string, Value>, e: Entry, f: Entry)
    requires Clash(e, f) && e.doc.Doc?
  {
    var more := f.labels[|e.labels|..];
    || ListOnTheWay(out, f.key, f.labels)
    || IsList(Lookup(out, e.key, e.labels))
    || Size(Lookup(out, f.key, f.labels)) > Size(Lookup(e.doc.entries, more[0], more[1..]))
  }

  ghost predicate SomeSpoiled(r: Result<map<string, Value>>, es: seq<Entry>)
    requires AllDocs(es)
  {
    r.Failure? || exists i, j :: 0 <= i < |es| && 0 <= j < |es| && Clash(es[i], es[j]) && Spoiled(r.value, es[i], es[j])
  }

  lemma SpoiledStays(out: map<string, Value>, e: Entry, f: Entry, g: Entry)
    requires Clash(e, f) && e.doc.Doc? && Spoiled(out, e, f)
    requires Insert(out, g.key, g.labels, g.doc).Success?
    ensures Spoiled(Insert(out, g.key, g.labels, g.doc).value, e, f)
  {
    var o := Insert(out, g.key, g.labels, g.doc).value;
    InsertGrows(out, g.key, g.labels, g.doc, f.key, f.labels);
    InsertGrows(out, g.key, g.labels, g.doc, e.key, e.labels);
    if ListOnTheWay(o, e.key, e.labels) {
      OnTheWayBelow(o, e.key, e.labels, f.labels);
    }
  }

  lemma {:induction false} OnTheWayBelow(out: map<string, Value>, key: string, labels: seq<string>, longer: seq<string>)
    requires ListOnTheWay(out, key, labels) && labels <= longer
    ensures ListOnTheWay(out, key, longer)
    decreases labels
  {
    if out[key].Doc? {
      OnTheWayBelow(out[key].entries, labels[0], labels[1..], longer[1..]);
    }
  }

  lemma {:induction false} LookupThrough(out: map<string, Value>, key: string, labels: seq<string>, longer: seq<string>)
    requires labels < longer
    ensures
      var v := Lookup(out, key, labels);
      Lookup(out, key, longer) ==
      if v.Some? && v.value.Doc? then Lookup(v.value.entries, longer[|labels|], longer[|labels| + 1..]) else None
    decreases labels
  {
    if labels == [] {
    } else if key in out && out[key].Doc? {
      LookupThrough(out[key].entries, labels[0], labels[1..], longer[1..]);
      assert longer[1..][|labels| - 1..] == longer[|labels|..];
      assert longer[1..][|labels|..] == longer[|labels| + 1..];
    }
  }

  lemma {:induction false} OwnDoc(es: seq<Entry>, i: nat)
    requires i < |es|
    ensures es[i].doc in Docs(es, es[i].key, es[i].labels)
  {
    if i < |es| - 1 {
      OwnDoc(es[..|es| - 1], i);
    }
  }

  /** A block found at its place stands there alone, or in a list. */
  lemma FoundAlone(out: map<string, Value>, es: seq<Entry>, i: nat)
    requires i < |es| && FoundAt(out, es, es[i])
    ensures
      var v := Lookup(out, es[i].key, es[i].labels);
      v.Some? && (v.value.List? || v.value == es[i].doc)
  {
    OwnDoc(es, i);
  }

  lemma {:induction false} SecondMakesList(out: map<string, Value>, key: string, labels: seq<string>, v: Value)
    requires Lookup(out, key, labels).Some?
    ensures Insert(out, key, labels, v).Success?
    ensures IsList(Lookup(Insert(out, key, labels, v).value, key, labels))
    decreases labels
  {
    if labels != [] {
      SecondMakesList(out[key].entries, labels[0], labels[1..], v);
    }
  }

  /** A block whose path runs through the place of an earlier block ends up inside that block's document. */
  lemma LongerAfter(out: map<string, Value>, es: seq<Entry>, i: nat, f: Entry)
    requires i < |es| && Clash(es[i], f) && es[i].doc.Doc? && FoundAt(out, es, es[i])
    requires Insert(out, f.key, f.labels, f.doc).Success?
    ensures Spoiled(Insert(out, f.key, f.labels, f.doc).value, es[i], f)
  {
    var e, o := es[i], Insert(out, f.key, f.labels, f.doc).value;
    FoundAlone(out, es, i);
    InsertGrows(out, f.key, f.labels, f.doc, f.key, f.labels);
    InsertGrows(out, f.key, f.labels, f.doc, e.key, e.labels);
    LookupThrough(out, e.key, e.labels, f.labels);
    assert f.labels[|e.labels|..][1..] == f.labels[|e.labels| + 1..];
    if ListOnTheWay(o, e.key, e.labels) {
      OnTheWayBelow(o, e.key, e.labels, f.labels);
    }
  }

  /** A block whose place is on the path of an earlier block turns that place into a list. */
  lemma ShorterAfter(out: map<string, Value>, es: seq<Entry>, j: nat, e: Entry)
    requires j < |es| && Clash(e, es[j]) && e.doc.Doc? && FoundAt(out, es, es[j])
    ensures Insert(out, e.key, e.labels, e.doc).Success?
    ensures Spoiled(Insert(out, e.key, e.labels, e.doc).value, e, es[j])
  {
    LookupThrough(out, e.key, e.labels, es[j].labels);
    SecondMakesList(out, e.key, e.labels, e.doc);
  }

  lemma SpoiledIsWrong(out: map<string, Value>, es: seq<Entry>, i: nat, j: nat)
    requires i < |es| && j < |es| && Clash(es[i], es[j]) && es[i].doc.Doc? && Spoiled(out, es[i], es[j])
    ensures !FoundAt(out, es, es[i]) || !FoundAt(out, es, es[j])
  {
    var e, f := es[i], es[j];
    if FoundAt(out, es, e) && FoundAt(out, es, f) {
      FoundAlone(out, es, i);
      LookupThrough(out, e.key, e.labels, f.labels);
      if ListOnTheWay(out, f.key, f.labels) {
        ListHides(out, f.key, f.labels);
      }
      SameTail(e.labels, f.labels);
    }
  }

  lemma SameTail(labels: seq<string>, longer: seq<string>)
    requires labels < longer
    ensures longer[|labels|..][0] == longer[|labels|] && longer[|labels|..][1..] == longer[|labels| + 1..]
  {
  }

  ghost predicate ClashesWith(es: seq<Entry>, e: Entry, i: nat)
    requires i < |es|
  {
    Clash(es[i], e) || Clash(e, es[i])
  }

  lemma NoClashExtends(es: seq<Entry>, e: Entry)
    requires NoClash(es) && forall i | 0 <= i < |es| :: !ClashesWith(es, e, i)
    ensures NoClash(es + [e])
  {
    assert forall i | 0 <= i < |es| :: !Clash(es[i], e) && !Clash(e, es[i]) by {
      forall i | 0 <= i < |es| ensures !Clash(es[i], e) && !Clash(e, es[i]) {
        assert !ClashesWith(es, e, i);
      }
    }
  }

  lemma SpoiledPair(r: Result<map<string, Value>>, es: seq<Entry>, i: nat, j: nat)
    requires AllDocs(es) && r.Success?
    requires i < |es| && j < |es| && Clash(es[i], es[j]) && Spoiled(r.value, es[i], es[j])
    ensures SomeSpoiled(r, es)
  {
  }

  lemma FrontFacts(es: seq<Entry>, e: Entry)
    requires AllDocs(es + [e])
    ensures AllDocs(es) && e.doc.Doc? && Heads(es) <= Heads(es + [e])
  {
    SnocParts(es, e, e.key);
    assert forall i | 0 <= i < |es| :: es[i] == (es + [e])[i];
    assert e == (es + [e])[|es|];
  }

  lemma InsertAllSnoc(base: map<string, Value>, es: seq<Entry>, e: Entry)
    requires InsertAll(base, es + [e]).Success?
    ensures InsertAll(base, es).Success?
    ensures InsertAll(base, es + [e]) == Insert(InsertAll(base, es).value, e.key, e.labels, e.doc)
  {
    assert (es + [e])[..|es|] == es;
  }

  lemma FirstClash(base: map<string, Value>, es: seq<Entry>, e: Entry, i: nat)
    requires AllDocs(es + [e]) && base.Keys !! Heads(es + [e]) && NoClash(es)
    requires i < |es| && ClashesWith(es, e, i) && InsertAll(base, es + [e]).Success?
    ensures SomeSpoiled(InsertAll(base, es + [e]), es + [e])
  {
    hide InsertAll, NoClash, Heads, AllDocs, Spoiled, SomeSpoiled, Insert, Clash, Grouped;
    var all := es + [e];
    FrontFacts(es, e);
    InsertAllSnoc(base, es, e);
    var before, after := InsertAll(base, es), InsertAll(base, all);
    NoClashGroups(base, es);
    GroupedAt(before, es, i);
    if Clash(e, es[i]) {
      ShorterAfter(before.value, es, i, e);
      SpoiledPair(after, all, |es|, i);
    } else {
      LongerAfter(before.value, es, i, e);
      SpoiledPair(after, all, i, |es|);
    }
  }

  lemma GroupedAt(r: Result<map<string, Value>>, es: seq<Entry>, i: nat)
    requires Grouped(r, es) && i < |es|
    ensures r.Success? && FoundAt(r.value, es, es[i])
  {
  }

  lemma LaterBlock(base: map<string, Value>, es: seq<Entry>, e: Entry)
    requires AllDocs(es) && SomeSpoiled(InsertAll(base, es), es) && AllDocs(es + [e])
    ensures SomeSpoiled(InsertAll(base, es + [e]), es + [e])
  {
    hide InsertAll, Heads, Spoiled, Insert, Clash;
    var all := es + [e];
    if InsertAll(base, all).Success? {
      InsertAllSnoc(base, es, e);
      var before, after := InsertAll(base, es), InsertAll(base, all);
      var i, j :| 0 <= i < |es| && 0 <= j < |es| && Clash(es[i], es[j]) && Spoiled(before.value, es[i], es[j]);
      SpoiledStays(before.value, es[i], es[j], e);
      SpoiledPair(after, all, i, j);
    }
  }

  lemma {:induction false} ClashSpoils(base: map<string, Value>, es: seq<Entry>)
    requires AllDocs(es) && base.Keys !! Heads(es) && !NoClash(es)
    ensures SomeSpoiled(InsertAll(base, es), es)
  {
    hide InsertAll, Heads, AllDocs, Spoiled, SomeSpoiled, Clash, ClashesWith;
    assert es != [];
    var front, e := es[..|es| - 1], es[|es| - 1];
    assert es == front + [e];
    FrontFacts(front, e);
    if NoClash(front) {
      if forall i | 0 <= i < |front| :: !ClashesWith(front, e, i) {
        NoClashExtends(front, e);
      }
      var i :| 0 <= i < |front| && ClashesWith(front, e, i);
      if InsertAll(base, es).Success? {
        FirstClash(base, front, e, i);
      } else {
        FailedIsSpoiled(InsertAll(base, es), es);
      }
    } else {
      ClashSpoils(base, front);
      LaterBlock(base, front, e);
    }
  }

  lemma FailedIsSpoiled(r: Result<map<string, Value>>, es: seq<Entry>)
    requires r.Failure? && AllDocs(es)
    ensures SomeSpoiled(r, es)
  {
  }

  /** The blocks of a body are all found at their own paths, alone or listed in source order,
      exactly if no path of a block is a proper prefix of another one. */
  lemma GroupedIffNoClash(base: map<string, Value>, es: seq<Entry>)
    requires AllDocs(es) && base.Keys !! Heads(es)
    ensures Grouped(InsertAll(base, es), es) <==> NoClash(es)
  {
    if NoClash(es) {
      NoClashGroups(base, es);
    } else {
      ClashSpoils(base, es);
      var r := InsertAll(base, es);
      if r.Success? {
        var i, j :| 0 <= i < |es| && 0 <= j < |es| && Clash(es[i], es[j]) && Spoiled(r.value, es[i], es[j]);
        SpoiledIsWrong(r.value, es, i, j);
      }
    }
  }
}
