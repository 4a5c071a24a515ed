/** Terraform bodies, the documents they become, and the grouping of blocks by type and labels. */
module TerraformBlocks {
  import opened Wrappers

  datatype Result<T> = Success(value: T) | Failure

  datatype LineObject = LineObject(line: int, arr: int)

  /** `arr` of a line object stands for the lines of the elements of an array expression. */
  const NO_ARRAY := 0

  datatype Value =
    | Doc(entries: map<string, Value>)
    | List(items: seq<Value>)
    | Lines(lines: map<string, LineObject>)
    | Other(id: int)

  /** An attribute with its converted expression, if the conversion does not fail. */
  datatype Attribute = Attribute(converted: Result<Value>, line: int, arr: int)

  /** `count` is what the `count` attribute evaluates to, and -1 where it is no number. */
  datatype Body = Body(attributes: map<string, Attribute>, count: int, blocks: seq<Block>)

  datatype Block = Block(kind: string, labels: seq<string>, body: Body, line: int)

  // ---- Putting one converted block into a document ----

  /** Follows the labels into `out` and stores `value`: alone if the place is free, else in a list
      behind what is there. Fails where a label leads into something that is no document. */
  function Insert(out: map<string, Value>, key: string, labels: seq<string>, value: Value): Result<map<string, Value>>
    decreases labels
  {
    if labels == [] then
      if key !in out then Success(out[key := value])
      else if out[key].List? then Success(out[key := List(out[key].items + [value])])
      else Success(out[key := List([out[key], value])])
    else if key in out && !out[key].Doc? then Failure
    else
      match Insert(if key in out then out[key].entries else map[], labels[0], labels[1..], value)
      case Success(inner) => Success(out[key := Doc(inner)])
      case Failure => Failure
  }

  /** The value at the end of a path of document keys. */
  function Lookup(out: map<string, Value>, key: string, labels: seq<string>): Option<Value>
    decreases labels
  {
    if key !in out then None
    else if labels == [] then Some(out[key])
    else if out[key].Doc? then Lookup(out[key].entries, labels[0], labels[1..])
    else None
  }

  /** Inserting fails exactly if some proper prefix of the path already leads to something that is
      no document. */
  lemma {:induction false} InsertFails(out: map<string, Value>, key: string, labels: seq<string>, value: Value)
    ensures Insert(out, key, labels, value).Failure? <==>
            exists n :: 0 <= n < |labels| && Blocked(Lookup(out, key, labels[..n]))
    decreases labels
  {
    if labels != [] && key in out && !out[key].Doc? {
      assert Blocked(Lookup(out, key, labels[..0]));
    } else if labels != [] {
      var inner := if key in out then out[key].entries else map[];
      InsertFails(inner, labels[0], labels[1..], value);
      forall n | 0 <= n < |labels| - 1
        ensures Blocked(Lookup(inner, labels[0], labels[1..][..n])) <==> Blocked(Lookup(out, key, labels[..n + 1]))
      {
        assert labels[..n + 1][1..] == labels[1..][..n];
      }
      if n :| 0 <= n < |labels| && Blocked(Lookup(out, key, labels[..n])) {
        assert n > 0;
        assert Blocked(Lookup(inner, labels[0], labels[1..][..n - 1])) <==> Blocked(Lookup(out, key, labels[..n - 1 + 1]));
      }
    }
  }

  predicate Blocked(v: Option<Value>) {
    v.Some? && !v.value.Doc?
  }

  // ---- The grouping ----

  /** A converted block: its type, its labels and its document. */
  datatype Entry = Entry(key: string, labels: seq<string>, doc: Value)

  /** The documents stored directly under `key`, in order. */
  function At(es: seq<Entry>, key: string): seq<Value> {
    if es == [] then []
    else
      var e := es[|es| - 1];
      var docs := At(es[..|es| - 1], key);
      if e.key == key && e.labels == [] then docs + [e.doc] else docs
  }

  function Tail(e: Entry): Entry
    requires e.labels != []
  {
    Entry(e.labels[0], e.labels[1..], e.doc)
  }

  /** The entries below `key`, with the key taken off. */
  function Below(es: seq<Entry>, key: string): seq<Entry> {
    if es == [] then []
    else
      var e := es[|es| - 1];
      var sub := Below(es[..|es| - 1], key);
      if e.key == key && e.labels != [] then sub + [Tail(e)] else sub
  }

  function Heads(es: seq<Entry>): set<string> {
    set i | 0 <= i < |es| :: es[i].key
  }

  function Total(es: seq<Entry>): nat {
    if es == [] then 0 else Total(es[..|es| - 1]) + |es[|es| - 1].labels|
  }

  lemma {:induction false} BelowSmaller(es: seq<Entry>, key: string)
    ensures Total(Below(es, key)) + |Below(es, key)| <= Total(es)
    ensures key in Heads(es) ==> At(es, key) != [] || Below(es, key) != []
  {
    if es != [] {
      var front, e := es[..|es| - 1], es[|es| - 1];
      BelowSmaller(front, key);
      var rest := Below(front, key);
      if e.key == key && e.labels != [] {
        var last := Tail(e);
        assert (rest + [last])[..|rest|] == rest;
      } else {
        assert Below(es, key) == rest;
      }
      if key in Heads(es) && e.key != key {
        var i :| 0 <= i < |es| && es[i].key == key;
        assert front[i].key == key;
      }
    }
  }

  /** One document stands alone, several form a list. */
  function Collapse(docs: seq<Value>): Value
    requires docs != []
  {
    if |docs| == 1 then docs[0] else List(docs)
  }

  /** The entries grouped by key: the documents stored directly under the key, or else the
      document of the groups below it. */
  function Trie(es: seq<Entry>): (t: map<string, Value>)
    ensures t.Keys == Heads(es)
    decreases Total(es)
  {
    map key | key in Heads(es) :: TrieAt(es, key)
  }

  function TrieAt(es: seq<Entry>, key: string): Value
    requires key in Heads(es)
    decreases Total(es), 0
  {
    BelowSmaller(es, key);
    if At(es, key) != [] then Collapse(At(es, key)) else Doc(Trie(Below(es, key)))
  }

  /** A block whose path runs through the place of another block. */
  predicate Clash(e: Entry, f: Entry) {
    e.key == f.key && e.labels < f.labels
  }

  predicate NoClash(es: seq<Entry>) {
    forall i, j | 0 <= i < |es| && 0 <= j < |es| :: !Clash(es[i], es[j])
  }

  predicate AllDocs(es: seq<Entry>) {
    forall i | 0 <= i < |es| :: es[i].doc.Doc?
  }

  /** The documents of the entries with exactly this path, in order. */
  function Docs(es: seq<Entry>, key: string, labels: seq<string>): seq<Value> {
    if es == [] then []
    else
      var e := es[|es| - 1];
      var docs := Docs(es[..|es| - 1], key, labels);
      if e.key == key && e.labels == labels then docs + [e.doc] else docs
  }

  // ---- Inserting one block after the other ----

  function InsertAll(out: map<string, Value>, es: seq<Entry>): Result<map<string, Value>> {
    if es == [] then Success(out)
    else
      var e := es[|es| - 1];
      match InsertAll(out, es[..|es| - 1])
      case Failure => Failure
      case Success(o) => Insert(o, e.key, e.labels, e.doc)
  }

  lemma {:induction false} AtAre(es: seq<Entry>, key: string)
    ensures AllDocs(es) ==> forall i | 0 <= i < |At(es, key)| :: At(es, key)[i].Doc?
    ensures At(es, key) != [] <==> exists i :: 0 <= i < |es| && es[i].key == key && es[i].labels == []
  {
    if es != [] {
      var front, e := es[..|es| - 1], es[|es| - 1];
      AtAre(front, key);
      if i :| 0 <= i < |front| && front[i].key == key && front[i].labels == [] {
        assert es[i].key == key && es[i].labels == [];
      }
    }
  }

  /** The entry of `es` that a given entry below `key` comes from. */
  lemma {:induction false} BelowFrom(es: seq<Entry>, key: string, i: nat) returns (j: nat)
    requires i < |Below(es, key)|
    ensures j < |es| && es[j].key == key && es[j].labels == [Below(es, key)[i].key] + Below(es, key)[i].labels
    ensures es[j].doc == Below(es, key)[i].doc && key in Heads(es)
  {
    var front := es[..|es| - 1];
    if i < |Below(front, key)| {
      j := BelowFrom(front, key, i);
    } else {
      j := |es| - 1;
    }
  }

  lemma PrefixCons(x: string, a: seq<string>, y: string, b: seq<string>)
    ensures [x] + a <= [y] + b <==> x == y && a <= b
  {
    var c, d := [x] + a, [y] + b;
    assert c[1..] == a && d[1..] == b;
    if c <= d {
      assert c[0] == d[0];
      assert a == d[1..|c|] == b[..|a|];
    }
    if x == y && a <= b {
      assert d[..|c|] == c;
    }
  }

  lemma BelowClean(es: seq<Entry>, key: string)
    requires NoClash(es)
    ensures NoClash(Below(es, key))
    ensures AllDocs(es) ==> AllDocs(Below(es, key))
  {
    var sub := Below(es, key);
    forall i, j | 0 <= i < |sub| && 0 <= j < |sub| ensures !Clash(sub[i], sub[j]) {
      var a := BelowFrom(es, key, i);
      var b := BelowFrom(es, key, j);
      assert !Clash(es[a], es[b]);
      PrefixCons(sub[i].key, sub[i].labels, sub[j].key, sub[j].labels);
    }
    if AllDocs(es) {
      forall i | 0 <= i < |sub| ensures sub[i].doc.Doc? {
        var a := BelowFrom(es, key, i);
      }
    }
  }

  lemma NoClashFront(es: seq<Entry>, e: Entry)
    requires NoClash(es + [e])
    ensures NoClash(es)
  {
    forall i, j | 0 <= i < |es| && 0 <= j < |es| ensures !Clash(es[i], es[j]) {
      assert !Clash((es + [e])[i], (es + [e])[j]);
    }
  }

  lemma SnocParts(es: seq<Entry>, e: Entry, key: string)
    ensures At(es + [e], key) == if e.key == key && e.labels == [] then At(es, key) + [e.doc] else At(es, key)
    ensures Below(es + [e], key) == if e.key == key && e.labels != [] then Below(es, key) + [Tail(e)] else Below(es, key)
    ensures Heads(es + [e]) == Heads(es) + {e.key}
  {
    assert (es + [e])[..|es|] == es;
    forall k | k in Heads(es) + {e.key} ensures k in Heads(es + [e]) {
      if k in Heads(es) {
        var i :| 0 <= i < |es| && es[i].key == k;
        assert (es + [e])[i].key == k;
      } else {
        assert (es + [e])[|es|].key == k;
      }
    }
  }

  lemma OtherKeys(es: seq<Entry>, e: Entry, key: string)
    requires key != e.key && key in Heads(es)
    ensures key in Heads(es + [e]) && TrieAt(es + [e], key) == TrieAt(es, key)
  {
    SnocParts(es, e, key);
  }

  lemma TrieExtends(base: map<string, Value>, es: seq<Entry>, e: Entry)
    ensures e.key in Heads(es + [e])
    ensures base + Trie(es + [e]) == (base + Trie(es))[e.key := TrieAt(es + [e], e.key)]
  {
    hide At, Below, TrieAt, Total, Collapse, Heads;
    SnocParts(es, e, e.key);
    forall k | k in Heads(es) && k != e.key ensures TrieAt(es + [e], k) == TrieAt(es, k) {
      OtherKeys(es, e, k);
    }
  }

  lemma NoClashAt(es: seq<Entry>, e: Entry, i: nat)
    requires NoClash(es + [e]) && i < |es|
    ensures !Clash(es[i], e) && !Clash(e, es[i])
  {
    assert !Clash((es + [e])[i], (es + [e])[|es|]) && !Clash((es + [e])[|es|], (es + [e])[i]);
  }

  lemma NothingBelow(es: seq<Entry>, e: Entry)
    requires NoClash(es + [e]) && e.labels == []
    ensures Below(es, e.key) == []
  {
    hide NoClash;
    if Below(es, e.key) != [] {
      var j := BelowFrom(es, e.key, 0);
      NoClashAt(es, e, j);
    }
  }

  lemma NothingAt(es: seq<Entry>, e: Entry)
    requires NoClash(es + [e]) && e.labels != []
    ensures At(es, e.key) == []
  {
    AtAre(es, e.key);
    forall i | 0 <= i < |es| ensures !Clash(es[i], e) {
      NoClashAt(es, e, i);
    }
  }

  lemma NothingUnder(es: seq<Entry>, key: string)
    requires key !in Heads(es)
    ensures At(es, key) == [] && Below(es, key) == []
  {
    AtAre(es, key);
    if Below(es, key) != [] {
      var j := BelowFrom(es, key, 0);
    }
  }

  lemma InsertHere(base: map<string, Value>, es: seq<Entry>, e: Entry)
    requires NoClash(es + [e]) && AllDocs(es) && e.labels == [] && e.key !in base
    ensures e.key in Heads(es + [e])
    ensures Insert(base + Trie(es), e.key, e.labels, e.doc) == Success((base + Trie(es))[e.key := TrieAt(es + [e], e.key)])
  {
    hide At, Below, Total, Heads, Trie, NoClash, Docs;
    SnocParts(es, e, e.key);
    NothingBelow(es, e);
    AtAre(es, e.key);
    TrieEntry(es, e.key);
    if e.key !in Heads(es) {
      NothingUnder(es, e.key);
    } else {
      CollapseStep(At(es, e.key), e.doc);
    }
  }

  lemma CollapseStep(docs: seq<Value>, doc: Value)
    requires docs != [] && docs[0].Doc?
    ensures Collapse(docs + [doc]) ==
            if Collapse(docs).List? then List(Collapse(docs).items + [doc]) else List([Collapse(docs), doc])
  {
    if |docs| == 1 {
      assert docs + [doc] == [docs[0], doc];
    }
  }

  lemma TrieEntry(es: seq<Entry>, key: string)
    ensures key in Heads(es) ==> Trie(es)[key] == TrieAt(es, key)
    ensures key in Heads(es) ==> At(es, key) != [] || Below(es, key) != []
  {
    hide TrieAt, At, Below, Total, Heads;
    BelowSmaller(es, key);
  }

  lemma InsertBelow(base: map<string, Value>, es: seq<Entry>, e: Entry)
    requires NoClash(es + [e]) && e.labels != [] && e.key !in base
    requires Insert(Trie(Below(es, e.key)), e.labels[0], e.labels[1..], e.doc) == Success(Trie(Below(es + [e], e.key)))
    ensures e.key in Heads(es + [e])
    ensures Insert(base + Trie(es), e.key, e.labels, e.doc) == Success((base + Trie(es))[e.key := TrieAt(es + [e], e.key)])
  {
    SnocParts(es, e, e.key);
    NothingAt(es, e);
    BelowSmaller(es, e.key);
    if e.key !in Heads(es) {
      NothingUnder(es, e.key);
      assert Trie(Below(es, e.key)) == map[];
    }
  }

  /** Without clashes every insertion extends the grouping by its block. */
  lemma {:induction false} InsertGroups(base: map<string, Value>, es: seq<Entry>, e: Entry)
    requires NoClash(es + [e]) && AllDocs(es + [e]) && e.key !in base
    ensures Insert(base + Trie(es), e.key, e.labels, e.doc) == Success(base + Trie(es + [e]))
    decreases e.labels
  {
    hide Insert, Trie, TrieAt, At, Below, NoClash, Total;
    var key, all := e.key, es + [e];
    TrieExtends(base, es, e);
    assert AllDocs(es) by { assert forall i | 0 <= i < |es| :: es[i] == all[i]; }
    if e.labels == [] {
      InsertHere(base, es, e);
    } else {
      var sub, last := Below(es, key), Tail(e);
      SnocParts(es, e, key);
      BelowClean(all, key);
      InsertGroups(map[], sub, last);
      assert map[] + Trie(sub) == Trie(sub) && map[] + Trie(sub + [last]) == Trie(sub + [last]);
      InsertBelow(base, es, e);
    }
  }

  /** Inserting clash-free blocks one after the other groups them. */
  lemma {:induction false} InsertAllGroups(base: map<string, Value>, es: seq<Entry>)
    requires NoClash(es) && AllDocs(es) && base.Keys !! Heads(es)
    ensures InsertAll(base, es) == Success(base + Trie(es))
  {
    if es == [] {
      assert base + Trie(es) == base;
    } else {
      var front, e := es[..|es| - 1], es[|es| - 1];
      assert es == front + [e];
      NoClashFront(front, e);
      SnocParts(front, e, e.key);
      InsertAllGroups(base, front);
      InsertGroups(base, front, e);
    }
  }

  // ---- Reading the grouping ----

  lemma {:induction false} DocsOf(es: seq<Entry>, key: string, labels: seq<string>)
    ensures labels == [] ==> Docs(es, key, labels) == At(es, key)
    ensures labels != [] ==> Docs(es, key, labels) == Docs(Below(es, key), labels[0], labels[1..])
    ensures Docs(es, key, labels) != [] <==> exists i :: 0 <= i < |es| && es[i].key == key && es[i].labels == labels
  {
    if es != [] {
      var front, e := es[..|es| - 1], es[|es| - 1];
      DocsOf(front, key, labels);
      if i :| 0 <= i < |front| && front[i].key == key && front[i].labels == labels {
        assert es[i].key == key && es[i].labels == labels;
      }
      if labels != [] && e.key == key && e.labels != [] {
        var sub, last := Below(front, key), Tail(e);
        assert (sub + [last])[..|sub|] == sub;
        assert e.labels == labels <==> last.key == labels[0] && last.labels == labels[1..];
      }
    }
  }

  /** Paths of which one runs through the other. */
  predicate Related(e: Entry, key: string, labels: seq<string>) {
    e.key == key && (e.labels <= labels || labels <= e.labels)
  }

  /** A path in the grouping leads to exactly the documents of the blocks with that path. */
  lemma {:induction false} LookupGroup(es: seq<Entry>, key: string, labels: seq<string>)
    requires NoClash(es)
    ensures Docs(es, key, labels) != [] ==> Lookup(Trie(es), key, labels) == Some(Collapse(Docs(es, key, labels)))
    ensures (forall i | 0 <= i < |es| :: !Related(es[i], key, labels)) ==> Lookup(Trie(es), key, labels) == None
    decreases labels
  {
    DocsOf(es, key, labels);
    BelowSmaller(es, key);
    AtAre(es, key);
    if labels == [] {
      if key in Heads(es) {
        var i :| 0 <= i < |es| && es[i].key == key;
        assert Related(es[i], key, labels);
      }
    } else if At(es, key) != [] {
      var i :| 0 <= i < |es| && es[i].key == key && es[i].labels == [];
      assert Related(es[i], key, labels);
      assert forall j | 0 <= j < |es| :: !Clash(es[i], es[j]);
    } else if key in Heads(es) {
      BelowClean(es, key);
      LookupGroup(Below(es, key), labels[0], labels[1..]);
      if forall i | 0 <= i < |es| :: !Related(es[i], key, labels) {
        BelowUnrelated(es, key, labels);
      }
    }
  }

  lemma BelowUnrelated(es: seq<Entry>, key: string, labels: seq<string>)
    requires labels != []
    requires forall i | 0 <= i < |es| :: !Related(es[i], key, labels)
    ensures forall i | 0 <= i < |Below(es, key)| :: !Related(Below(es, key)[i], labels[0], labels[1..])
  {
    var sub := Below(es, key);
    forall i | 0 <= i < |sub| ensures !Related(sub[i], labels[0], labels[1..]) {
      var j := BelowFrom(es, key, i);
      assert !Related(es[j], key, labels);
      assert labels == [labels[0]] + labels[1..];
      PrefixCons(sub[i].key, sub[i].labels, labels[0], labels[1..]);
      PrefixCons(labels[0], labels[1..], sub[i].key, sub[i].labels);
    }
  }
}
