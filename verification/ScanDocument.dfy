/** Removing the line information again, and resolving filter patterns, before a scan. */
module ScanDocument {
  import opened YamlDocument
  import opened LineKeys

  /** The keys whose strings are filter patterns, and how a pattern is rewritten. */
  datatype Filters = Filters(keys: set<string>, resolve: string -> string)

  function StripRoot(j: Json, fs: Filters): (r: Json)
    ensures r.Obj? <==> j.Obj?
    decreases j, 0
  {
    match j
    case Obj(fields) => Obj(map key | key in fields && key != LINES_KEY :: StripField(key, fields[key], fs))
    case List(items) => List(StripAll(items, fs))
    case _ => j
  }

  function StripField(key: string, v: Json, fs: Filters): Json
    decreases v, 1
  {
    if v.Str? && key in fs.keys then Str(fs.resolve(v.s)) else StripRoot(v, fs)
  }

  function StripAll(items: seq<Json>, fs: Filters): seq<Json>
    decreases items, 0
  {
    if items == [] then [] else StripAll(items[..|items| - 1], fs) + [StripRoot(items[|items| - 1], fs)]
  }

  function Strip(fields: Fields, fs: Filters): Fields {
    StripRoot(Obj(fields), fs).fields
  }

  method PrepareScanDocumentRoot(body: Json, fs: Filters) returns (r: Json)
    ensures r == StripRoot(body, fs)
    decreases body, 1
  {
    match body {
      case Obj(_) =>
        var fields := PrepareScanDocumentValue(body, fs);
        r := Obj(fields);
      case List(items) =>
        var stripped := PrepareAll(items, fs);
        r := List(stripped);
      case _ =>
        r := body;
    }
  }

  method PrepareAll(items: seq<Json>, fs: Filters) returns (r: seq<Json>)
    ensures r == StripAll(items, fs)
    decreases items, 0
  {
    r := [];
    for i := 0 to |items|
      invariant r == StripAll(items[..i], fs)
    {
      assert items[..i + 1][..i] == items[..i];
      var stripped := PrepareScanDocumentRoot(items[i], fs);
      r := r + [stripped];
    }
    assert items[..|items|] == items;
  }

  /** The keys are visited in whatever order the map yields them. */
  method PrepareScanDocumentValue(body: Json, fs: Filters) returns (fields: Fields)
    requires body.Obj?
    ensures fields == Strip(body.fields, fs)
    decreases body, 0
  {
    hide StripField;
    fields := body.fields - {LINES_KEY};
    var rest := fields.Keys;
    while rest != {}
      invariant rest <= fields.Keys == (body.fields - {LINES_KEY}).Keys
      invariant forall key | key in fields :: fields[key] ==
                  if key in rest then body.fields[key] else StripField(key, body.fields[key], fs)
      decreases rest
    {
      var key :| key in rest;
      var v := PrepareField(key, body.fields[key], fs);
      fields, rest := fields[key := v], rest - {key};
    }
  }

  method PrepareField(key: string, v: Json, fs: Filters) returns (r: Json)
    ensures r == StripField(key, v, fs)
    decreases v, 2
  {
    match v {
      case Str(s) => r := if key in fs.keys then Str(fs.resolve(s)) else v;
      case _ => r := PrepareScanDocumentRoot(v, fs);
    }
  }

  // ---- No line information is left, at any depth ----

  predicate NoLines(j: Json) {
    match j
    case Obj(fields) => LINES_KEY !in fields && forall key | key in fields :: NoLines(fields[key])
    case List(items) => forall i | 0 <= i < |items| :: NoLines(items[i])
    case _ => true
  }

  lemma {:induction false} StripCleans(j: Json, fs: Filters)
    ensures NoLines(StripRoot(j, fs))
  {
    match j
    case Obj(fields) =>
      forall key | key in fields && key != LINES_KEY ensures NoLines(StripField(key, fields[key], fs)) {
        StripCleans(fields[key], fs);
      }
    case List(items) => StripAllCleans(items, fs);
    case _ =>
  }

  lemma {:induction false} StripAllCleans(items: seq<Json>, fs: Filters)
    ensures |StripAll(items, fs)| == |items|
    ensures forall i | 0 <= i < |items| :: NoLines(StripAll(items, fs)[i])
  {
    if items != [] {
      StripAllCleans(items[..|items| - 1], fs);
      StripCleans(items[|items| - 1], fs);
    }
  }

  /** No string under a filter key. */
  predicate NoFilter(j: Json, fs: Filters) {
    match j
    case Obj(fields) => forall key | key in fields :: !(fields[key].Str? && key in fs.keys) && NoFilter(fields[key], fs)
    case List(items) => forall i | 0 <= i < |items| :: NoFilter(items[i], fs)
    case _ => true
  }

  /** Stripping changes nothing exactly if there is no line information to remove. */
  lemma StripFixes(j: Json, fs: Filters)
    requires NoFilter(j, fs)
    ensures StripRoot(j, fs) == j <==> NoLines(j)
  {
    if NoLines(j) {
      StripKeeps(j, fs);
    }
    StripCleans(j, fs);
  }

  lemma {:induction false} StripKeeps(j: Json, fs: Filters)
    requires NoFilter(j, fs) && NoLines(j)
    ensures StripRoot(j, fs) == j
  {
    match j
    case Obj(fields) =>
      forall key | key in fields ensures StripField(key, fields[key], fs) == fields[key] {
        StripKeeps(fields[key], fs);
      }
      assert StripRoot(j, fs).fields == fields;
    case List(items) => StripAllKeeps(items, fs);
    case _ =>
  }

  lemma {:induction false} StripAllKeeps(items: seq<Json>, fs: Filters)
    requires forall i | 0 <= i < |items| :: NoFilter(items[i], fs) && NoLines(items[i])
    ensures StripAll(items, fs) == items
  {
    if items != [] {
      StripAllKeeps(items[..|items| - 1], fs);
      StripKeeps(items[|items| - 1], fs);
    }
  }

  // ---- Stripping undoes the annotation ----

  lemma StripPut(fields: Fields, key: string, v: Json, fs: Filters)
    ensures Strip(fields[key := v], fs) ==
            if key == LINES_KEY then Strip(fields, fs) else Strip(fields, fs)[key := StripField(key, v, fs)]
  {
    hide StripField;
  }

  lemma StripMerge(f: Fields, g: Fields, fs: Filters)
    ensures Strip(f + g, fs) == Strip(f, fs) + Strip(g, fs)
  {
    hide StripField;
  }

  lemma StripLines(fields: Fields, node: Node, def: int, annotate: bool, fs: Filters)
    ensures Strip(WithLines(fields, node, def, annotate), fs) == Strip(fields, fs)
  {
    StripPut(fields, LINES_KEY, Obj(GetLines(node, def)), fs);
  }

  predicate SameShape(a: Json, b: Json) {
    if a.Obj? then b.Obj? else a == b
  }

  lemma {:induction false} StripConverted(node: Node, fs: Filters)
    ensures SameShape(Convert(node, true), Convert(node, false))
    ensures StripRoot(Convert(node, true), fs) == StripRoot(Convert(node, false), fs)
    decreases node, 1
  {
    hide StripRoot, StripAll, StripField, ConvertAll, ConvertEntries;
    match node
    case Sequence(items, _) =>
      StripConvertedAll(items, fs);
      SameLists("playbooks", ConvertAll(items, true), ConvertAll(items, false), fs);
      StripSamePut(map[], map[], "playbooks", List(ConvertAll(items, true)), List(ConvertAll(items, false)), fs);
    case Mapping(entries, _) => StripConvertedEntries(entries, fs);
    case _ =>
  }

  lemma SameLists(key: string, a: seq<Json>, b: seq<Json>, fs: Filters)
    requires StripAll(a, fs) == StripAll(b, fs)
    ensures StripField(key, List(a), fs) == StripField(key, List(b), fs)
  {
    hide StripAll;
  }

  lemma SameObjects(key: string, a: Fields, b: Fields, fs: Filters)
    requires Strip(a, fs) == Strip(b, fs)
    ensures StripField(key, Obj(a), fs) == StripField(key, Obj(b), fs)
  {
  }

  lemma {:induction false} StripConvertedAll(items: seq<Node>, fs: Filters)
    ensures StripAll(ConvertAll(items, true), fs) == StripAll(ConvertAll(items, false), fs)
    decreases items, 0
  {
    if items != [] {
      var front, last := items[..|items| - 1], items[|items| - 1];
      StripConvertedAll(front, fs);
      StripConverted(last, fs);
      StripSnoc(ConvertAll(front, true), Convert(last, true), fs);
      StripSnoc(ConvertAll(front, false), Convert(last, false), fs);
    }
  }

  lemma StripSnoc(items: seq<Json>, last: Json, fs: Filters)
    ensures StripAll(items + [last], fs) == StripAll(items, fs) + [StripRoot(last, fs)]
  {
    assert (items + [last])[..|items|] == items;
  }

  lemma {:induction false} StripConvertedEntries(entries: seq<Pair>, fs: Filters)
    ensures Strip(ConvertEntries(entries, true), fs) == Strip(ConvertEntries(entries, false), fs)
    decreases entries, 0
  {
    if entries != [] {
      var front, last := entries[..|entries| - 1], entries[|entries| - 1];
      StripConvertedEntries(front, fs);
      StripEntry(ConvertEntries(front, true), ConvertEntries(front, false), last, fs);
    }
  }

  lemma {:induction false} StripEntry(f: Fields, g: Fields, pair: Pair, fs: Filters)
    requires Strip(f, fs) == Strip(g, fs)
    ensures Strip(PutEntry(f, pair, true), fs) == Strip(PutEntry(g, pair, false), fs)
    decreases pair, 0
  {
    hide StripRoot, StripAll, StripField, Strip, ConvertAll, ConvertEntries, ScalarNodeResolver, GetLines;
    if pair.key.Scalar? {
      var key, line := pair.key.value, pair.key.line;
      match pair.value
      case Scalar(value, tag, _) => StripSamePut(f, g, key, ScalarNodeResolver(value, tag), ScalarNodeResolver(value, tag), fs);
      case Mapping(entries, _) =>
        StripConvertedEntries(entries, fs);
        var a, b := ConvertEntries(entries, true), ConvertEntries(entries, false);
        StripLines(a, pair.value, line, true, fs);
        SameObjects(key, WithLines(a, pair.value, line, true), b, fs);
        StripSamePut(f, g, key, Obj(WithLines(a, pair.value, line, true)), Obj(b), fs);
      case Sequence(items, _) =>
        StripConvertedAll(items, fs);
        SameLists(key, ConvertAll(items, true), ConvertAll(items, false), fs);
        StripSamePut(f, g, key, List(ConvertAll(items, true)), List(ConvertAll(items, false)), fs);
      case Alias(_, target, _) =>
        StripConverted(target, fs);
        StripAlias(f, g, pair, Convert(target, true), Convert(target, false), fs);
    }
  }

  lemma StripSamePut(f: Fields, g: Fields, key: string, v: Json, w: Json, fs: Filters)
    requires Strip(f, fs) == Strip(g, fs) && StripField(key, v, fs) == StripField(key, w, fs)
    ensures Strip(f[key := v], fs) == Strip(g[key := w], fs)
  {
    hide Strip, StripRoot, StripField;
    StripPut(f, key, v, fs);
    StripPut(g, key, w, fs);
  }

  lemma StripAlias(f: Fields, g: Fields, pair: Pair, v: Json, w: Json, fs: Filters)
    requires pair.key.Scalar? && pair.value.Alias? && v == Convert(pair.value.target, true) && w == Convert(pair.value.target, false)
    requires Strip(f, fs) == Strip(g, fs) && SameShape(v, w) && StripRoot(v, fs) == StripRoot(w, fs)
    ensures Strip(PutEntry(f, pair, true), fs) == Strip(PutEntry(g, pair, false), fs)
  {
    if v.Obj? {
      StripLines(v.fields, pair.value, pair.key.line, true, fs);
      StripMerge(f, WithLines(v.fields, pair.value, pair.key.line, true), fs);
      StripMerge(g, w.fields, fs);
    } else if v.Str? {
      StripSamePut(f, g, pair.key.value, v, w, fs);
    }
  }

  /** Annotating and then stripping gives what stripping the plain conversion gives. */
  lemma StripDocument(node: Node, fs: Filters)
    ensures Document(node, true).Some? <==> Document(node, false).Some?
    ensures Document(node, true).Some? ==>
              Strip(Document(node, true).value, fs) == Strip(Document(node, false).value, fs)
  {
    StripConverted(node, fs);
    if Document(node, true).Some? {
      StripLines(Convert(node, true).fields, node, 0, true, fs);
    }
  }

  /** For a source without filter patterns, annotating and then stripping gives the plain
      conversion exactly if the plain conversion has no line key of its own. */
  lemma AnnotateThenStrip(node: Node, fs: Filters)
    requires Document(node, false).Some? && NoFilter(Obj(Document(node, false).value), fs)
    ensures Document(node, true).Some?
    ensures Strip(Document(node, true).value, fs) == Document(node, false).value <==>
            NoLines(Obj(Document(node, false).value))
  {
    StripDocument(node, fs);
    StripFixes(Obj(Document(node, false).value), fs);
  }

  /** No mapping inside uses the line key as a key. */
  predicate NoLineKeys(node: Node) {
    match node
    case Sequence(items, _) => forall i | 0 <= i < |items| :: NoLineKeys(items[i])
    case Mapping(entries, _) => forall i | 0 <= i < |entries| :: NoLineKey(entries[i])
    case Alias(_, target, _) => NoLineKeys(target)
    case Scalar(_, _, _) => true
  }

  predicate NoLineKey(pair: Pair) {
    !(pair.key.Scalar? && pair.key.value == LINES_KEY) && NoLineKeys(pair.value)
  }

  lemma {:induction false} PlainHasNoLines(node: Node)
    requires NoLineKeys(node)
    ensures NoLines(Convert(node, false))
    decreases node, 1
  {
    match node
    case Sequence(items, _) => PlainItems(items);
    case Mapping(entries, _) => PlainEntries(entries);
    case _ =>
  }

  lemma {:induction false} PlainItems(items: seq<Node>)
    requires forall i | 0 <= i < |items| :: NoLineKeys(items[i])
    ensures |ConvertAll(items, false)| == |items|
    ensures forall i | 0 <= i < |items| :: NoLines(ConvertAll(items, false)[i])
    decreases items, 0
  {
    if items != [] {
      PlainItems(items[..|items| - 1]);
      PlainHasNoLines(items[|items| - 1]);
    }
  }

  lemma {:induction false} PlainEntries(entries: seq<Pair>)
    requires forall i | 0 <= i < |entries| :: NoLineKey(entries[i])
    ensures NoLines(Obj(ConvertEntries(entries, false)))
    decreases entries, 0
  {
    if entries != [] {
      PlainEntries(entries[..|entries| - 1]);
      PlainEntry(ConvertEntries(entries[..|entries| - 1], false), entries[|entries| - 1]);
    }
  }

  lemma {:induction false} PlainEntry(fields: Fields, pair: Pair)
    requires NoLines(Obj(fields)) && NoLineKey(pair)
    ensures NoLines(Obj(PutEntry(fields, pair, false)))
    decreases pair, 0
  {
    match pair.value
    case Scalar(_, _, _) =>
    case Mapping(entries, _) => PlainEntries(entries);
    case Sequence(items, _) => PlainItems(items);
    case Alias(_, target, _) => PlainHasNoLines(target);
  }
}
