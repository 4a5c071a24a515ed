/** The lines that a path of keys finds in an annotated document are those of the source. */
module LineLookup {
  import opened YamlDocument
  import opened SearchLine
  import opened Strings
  import opened Wrappers
  import opened LineKeys

  // ---- What a mapping stores under a key ----

  /** Whether an entry can set `key` in the object made of its mapping. */
  predicate Touches(pair: Pair, key: string) {
    && pair.key.Scalar?
    && if !pair.value.Alias? then pair.key.value == key
       else
         var merged := Convert(pair.value.target, true);
         || (merged.Obj? && (key == LINES_KEY || key in merged.fields))
         || (merged.Str? && pair.key.value == key)
  }

  /** The entry at `j` is the one that decides what is stored under `key`. */
  predicate Decides(entries: seq<Pair>, j: nat, key: string) {
    && j < |entries|
    && entries[j].key.Scalar? && entries[j].key.value == key && !entries[j].value.Alias?
    && forall i | j < i < |entries| :: !Touches(entries[i], key)
  }

  /** The object made of a mapping, with its lines. */
  function Lined(node: Node, def: int): Fields
    requires node.Mapping?
  {
    WithLines(ConvertEntries(node.entries, true), node, def, true)
  }

  function Stored(pair: Pair): Json
    requires !pair.value.Alias?
  {
    match pair.value
    case Scalar(value, tag, _) => ScalarNodeResolver(value, tag)
    case Mapping(_, _) => Obj(Lined(pair.value, pair.key.line))
    case Sequence(items, _) => List(ConvertAll(items, true))
  }

  lemma PutOther(fields: Fields, pair: Pair, key: string)
    requires !Touches(pair, key)
    ensures key in PutEntry(fields, pair, true) <==> key in fields
    ensures key in fields ==> PutEntry(fields, pair, true)[key] == fields[key]
  {
    hide GetLines, ConvertEntries, ConvertAll, ScalarNodeResolver, Convert;
  }

  lemma PutOwn(fields: Fields, pair: Pair)
    requires pair.key.Scalar? && !pair.value.Alias?
    ensures PutEntry(fields, pair, true) == fields[pair.key.value := Stored(pair)]
  {
    hide GetLines, ConvertEntries, ConvertAll, ScalarNodeResolver;
  }

  lemma {:induction false} StoredUnder(entries: seq<Pair>, j: nat, key: string)
    requires Decides(entries, j, key)
    ensures key in ConvertEntries(entries, true) && ConvertEntries(entries, true)[key] == Stored(entries[j])
  {
    hide Touches, PutEntry, Stored;
    var front, last := entries[..|entries| - 1], entries[|entries| - 1];
    if j == |entries| - 1 {
      PutOwn(ConvertEntries(front, true), last);
    } else {
      StoredUnder(front, j, key);
      PutOther(ConvertEntries(front, true), last, key);
    }
  }

  // ---- The recorded lines ----

  /** The index of the last entry with this key text, or -1. */
  function LastText(entries: seq<Pair>, key: string): (k: int)
    ensures -1 <= k < |entries|
    ensures k >= 0 ==> Text(entries[k].key) == key
    ensures forall i | k < i < |entries| :: Text(entries[i].key) != key
  {
    if entries == [] then -1
    else if Text(entries[|entries| - 1].key) == key then |entries| - 1
    else LastText(entries[..|entries| - 1], key)
  }

  lemma {:induction false} RecordedLine(entries: seq<Pair>, def: int, key: string)
    requires LastText(entries, key) >= 0
    ensures
      var k := LastText(entries, key);
      Tagged(key) in EntryLines(entries, def)
      && EntryLines(entries, def)[Tagged(key)] == LineObject(entries[k].key.line, ArrayLines(entries[k]))
  {
    hide Tagged, LineObject, Text;
    var last := entries[|entries| - 1];
    if Text(last.key) != key {
      RecordedLine(entries[..|entries| - 1], def, key);
      TaggedInjective(Text(last.key), key);
    }
  }

  lemma LineObjectHolds(line: int, arr: seq<Json>)
    ensures LineObject(line, arr).Obj?
    ensures LINE_KEY in LineObject(line, arr).fields && LineObject(line, arr).fields[LINE_KEY] == Num(line)
    ensures arr != [] ==> ARR_KEY in LineObject(line, arr).fields && LineObject(line, arr).fields[ARR_KEY] == List(arr)
    ensures DEFAULT_KEY !in LineObject(line, arr).fields
  {
  }

  // ---- Following a path ----

  lemma {:induction false} GetConcat(j: Json, a: seq<string>, b: seq<string>)
    ensures Get(j, a + b) == if Get(j, a).Some? then Get(Get(j, a).value, b) else None
    decreases a
  {
    if a == [] {
      assert a + b == b;
    } else {
      assert (a + b)[1..] == a[1..] + b;
      match j
      case Obj(fields) =>
        if a[0] in fields {
          GetConcat(fields[a[0]], a[1..], b);
        }
      case List(items) =>
        var i := if a[0] == "" then None else Digits(a[0]);
        if i.Some? && 0 <= i.value < |items| {
          GetConcat(items[i.value], a[1..], b);
        }
      case _ =>
    }
  }

  lemma GetKey(fields: Fields, key: string)
    ensures key in fields ==> Get(Obj(fields), [key]) == Some(fields[key])
    ensures key !in fields ==> Get(Obj(fields), [key]) == None
  {
  }

  /** The keys lead from `node` through mappings to the mapping `last`. */
  ghost predicate Leads(node: Node, keys: seq<string>, last: Node)
    decreases keys
  {
    if keys == [] then node == last
    else
      && node.Mapping? && keys[0] != LINES_KEY
      && exists j :: 0 <= j < |node.entries| && Decides(node.entries, j, keys[0]) && LeadsBy(node.entries[j].value, keys, last)
  }

  ghost predicate LeadsBy(child: Node, keys: seq<string>, last: Node)
    requires keys != []
    decreases keys, 0
  {
    child.Mapping? && Leads(child, keys[1..], last)
  }

  lemma {:induction false} FollowPath(node: Node, def: int, keys: seq<string>, last: Node) returns (d: int)
    requires node.Mapping? && Leads(node, keys, last)
    ensures last.Mapping? && Get(Obj(Lined(node, def)), keys) == Some(Obj(Lined(last, d)))
    decreases keys
  {
    hide GetLines, ConvertEntries, Decides;
    if keys == [] {
      d := def;
    } else {
      var j :| 0 <= j < |node.entries| && Decides(node.entries, j, keys[0]) && LeadsBy(node.entries[j].value, keys, last);
      StoredUnder(node.entries, j, keys[0]);
      IsValue(node.entries, j, keys[0]);
      d := FollowPath(node.entries[j].value, node.entries[j].key.line, keys[1..], last);
    }
  }

  lemma IsValue(entries: seq<Pair>, j: nat, key: string)
    requires Decides(entries, j, key)
    ensures !entries[j].value.Alias?
  {
  }

  lemma LineInMapping(node: Node, def: int, key: string)
    requires node.Mapping? && LastText(node.entries, key) >= 0
    ensures
      var k := LastText(node.entries, key);
      Get(Obj(Lined(node, def)), [LINES_KEY, Tagged(key), LINE_KEY]) == Some(Num(node.entries[k].key.line))
  {
    hide ConvertEntries, EntryLines, Tagged, LastText, LineObject, Digits;
    var k := LastText(node.entries, key);
    RecordedLine(node.entries, def, key);
    LineObjectHolds(node.entries[k].key.line, ArrayLines(node.entries[k]));
    GetThree(Lined(node, def), LINES_KEY, Tagged(key), LINE_KEY);
    GetKey(LineObject(node.entries[k].key.line, ArrayLines(node.entries[k])).fields, LINE_KEY);
  }

  lemma GetThree(fields: Fields, a: string, b: string, c: string)
    requires a in fields && fields[a].Obj? && b in fields[a].fields && fields[a].fields[b].Obj?
    ensures Get(Obj(fields), [a, b, c]) == Get(fields[a].fields[b], [c])
  {
    assert [a, b, c][1..] == [b, c] && [b, c][1..] == [c];
    assert Get(fields[a], [b, c]) == Get(fields[a].fields[b], [c]);
  }

  lemma NoDotsTagged(key: string)
    requires '.' !in key
    ensures Split(Tagged(key), '.') == [Tagged(key)]
  {
    NotSplit(Tagged(key), '.');
  }

  /** Searching for a key below mappings finds the line of that key. */
  lemma FindsKeyLine(root: Node, keys: seq<string>, last: Node, key: string)
    requires root.Mapping? && keys != [] && Leads(root, keys, last)
    requires last.Mapping? && LastText(last.entries, key) >= 0
    requires '.' !in key && last.entries[LastText(last.entries, key)].key.line > 0
    ensures Document(root, true).Some?
    ensures SearchedLine(Obj(Document(root, true).value), keys + [key]) == last.entries[LastText(last.entries, key)].key.line
  {
    hide *;
    var k, items := LastText(last.entries, key), keys + [key];
    DocumentIs(root);
    var content := Obj(Document(root, true).value);
    var d := FollowPath(root, 0, keys, last);
    LineInMapping(last, d, key);
    NoDotsTagged(key);
    GetConcat(content, keys, [LINES_KEY, Tagged(key), LINE_KEY]);
    assert keys + [LINES_KEY] + [Tagged(key)] + [LINE_KEY] == keys + [LINES_KEY, Tagged(key), LINE_KEY];
    PathsOf(items);
    FirstPath(content, keys, ArrayPath(items, ArrayObject(items, |items|, false)), key, last.entries[k].key.line);
  }

  lemma DocumentIs(root: Node)
    requires root.Mapping?
    ensures Document(root, true) == Some(Lined(root, 0))
  {
  }

  lemma PathsOf(items: seq<string>)
    requires |items| >= 2
    ensures ObjectPath(items) == items[..|items| - 1]
    ensures forall content ::
              SearchedLine(content, items) ==
              FirstLine(content, Candidates(ObjectPath(items), ArrayPath(items, ArrayObject(items, |items|, false)), items[|items| - 1]))
  {
    hide FirstLine, Candidates, ArrayPath, ArrayObject;
  }

  lemma FirstPath(content: Json, objectPath: seq<string>, arrayPath: seq<string>, target: string, line: int)
    requires Get(content, objectPath + [LINES_KEY] + Split(Tagged(target), '.') + [LINE_KEY]) == Some(Num(line)) && line > 0
    ensures FirstLine(content, Candidates(objectPath, arrayPath, target)) == line
  {
    hide Get, Split, Tagged;
  }

  // ---- Keys of array elements ----

  predicate IsIndex(text: string, i: nat) {
    text != "" && Digits(text) == Some(i) && Atoi(text).Some?
  }

  /** A mapping with plain keys and without aliases. */
  predicate PlainMapping(node: Node) {
    && node.Mapping?
    && forall i | 0 <= i < |node.entries| ::
         node.entries[i].key.Scalar? && !node.entries[i].value.Alias? && node.entries[i].key.value != LINES_KEY
  }

  lemma ArrayObjectOf(keys: seq<string>, a: string, index: string, key: string)
    requires Atoi(a).None? && Atoi(index).Some? && Atoi(key).None?
    ensures ArrayObject(keys + [a, index, key], |keys| + 3, false) == a
  {
    var items := keys + [a, index, key];
    hide Atoi;
    assert items[|keys| + 2] == key && items[|keys| + 1] == index && items[|keys|] == a;
    assert ArrayObject(items, |keys| + 3, false) == ArrayObject(items, |keys| + 2, false);
    assert ArrayObject(items, |keys| + 2, false) == ArrayObject(items, |keys| + 1, true);
  }

  lemma {:induction false} ArrayPathPlain(keys: seq<string>, a: string)
    requires |keys| >= 2 && '.' !in a && forall i | 0 <= i < |keys| - 1 :: keys[i] != a
    ensures ArrayPath(keys, a) == keys[..|keys| - 1]
    decreases |keys|
  {
    hide Escape, ArrayPart;
    if |keys| == 2 {
      EscapeKeepsDots(keys[0]);
    } else {
      ArrayPathPlain(keys[..|keys| - 1], a);
    }
  }

  lemma ArrayPathKeys(keys: seq<string>, a: string)
    requires keys != [] && '.' !in a && forall i | 0 <= i < |keys| :: keys[i] != a
    ensures ArrayPath(keys + [a], a) == keys
  {
    hide Escape, ArrayPart, ArrayPath;
    if |keys| == 1 {
      EscapeKeepsDots(keys[0]);
      ArrayPathShort(keys + [a], a);
    } else {
      ArrayPathPlain(keys + [a], a);
    }
  }

  lemma ArrayPathUpTo(keys: seq<string>, a: string, index: string)
    requires '.' !in a && forall i | 0 <= i < |keys| :: keys[i] != a
    ensures ArrayPath(keys + [a, index], a) == keys + ArrayPart(a)
  {
    hide Escape, ArrayPart, ArrayPath;
    if keys == [] {
      EscapeKeepsDots(a);
      assert keys + [a, index] == [a, index];
      ArrayPathShort([a, index], a);
      assert keys + ArrayPart(a) == ArrayPart(a);
    } else {
      ArrayPathKeys(keys, a);
      ArrayPathSnoc(keys, a, index, a);
    }
  }

  /** The path of an array element leads through the lines of the array's key. */
  lemma ArrayPathOf(keys: seq<string>, a: string, index: string, key: string)
    requires '.' !in a && a != index && forall i | 0 <= i < |keys| :: keys[i] != a
    ensures ArrayPath(keys + [a, index, key], a) == keys + ArrayPart(a) + [index]
  {
    hide *;
    ArrayPathUpTo(keys, a, index);
    ArrayPathSnoc(keys + [a], index, key, a);
    Regroup(keys, a, index, key);
  }

  lemma Regroup(keys: seq<string>, a: string, index: string, key: string)
    ensures keys + [a] + [index, key] == keys + [a, index, key]
    ensures keys + [a] + [index] == keys + [a, index]
  {
  }

  lemma ArrayPathShort(items: seq<string>, a: string)
    requires 1 <= |items| <= 2
    ensures ArrayPath(items, a) == if a == Escape(items[0]) then ArrayPart(items[0]) else [items[0]]
  {
  }

  lemma ArrayPathSnoc(items: seq<string>, item: string, last: string, a: string)
    requires items != []
    ensures ArrayPath(items + [item, last], a) ==
            ArrayPath(items + [item], a) + if item == a then ArrayPart(item) else [item]
    ensures items + [item] + [last] == items + [item, last]
  {
    var all := items + [item, last];
    assert all[..|all| - 1] == items + [item] && all[|all| - 2] == item;
  }

  lemma {:induction false} ElementLinesAt(items: seq<Node>, keyLine: int, i: nat)
    requires i < |items|
    ensures |ElementLines(items, keyLine)| == |items|
    ensures ElementLines(items, keyLine)[i] == Obj(GetLines(items[i], ElementLine(items[i], keyLine)))
  {
    hide GetLines, ElementLine;
    var front := items[..|items| - 1];
    if i < |front| {
      ElementLinesAt(front, keyLine, i);
    } else if front != [] {
      ElementLinesAt(front, keyLine, 0);
    }
  }

  lemma {:induction false} ConvertAllAt(items: seq<Node>, i: nat)
    requires i < |items|
    ensures |ConvertAll(items, true)| == |items| && ConvertAll(items, true)[i] == Convert(items[i], true)
  {
    hide Convert;
    var front := items[..|items| - 1];
    if i < |front| {
      ConvertAllAt(front, i);
    } else if front != [] {
      ConvertAllAt(front, 0);
    }
  }

  lemma {:induction false} NoOwnLines(entries: seq<Pair>, key: string)
    requires forall i | 0 <= i < |entries| ::
               entries[i].key.Scalar? && !entries[i].value.Alias? && entries[i].key.value != key
    ensures key !in ConvertEntries(entries, true)
  {
    hide Stored;
    if entries != [] {
      NoOwnLines(entries[..|entries| - 1], key);
      PutOwn(ConvertEntries(entries[..|entries| - 1], true), entries[|entries| - 1]);
    }
  }

  lemma GetIndex(items: seq<Json>, text: string, i: nat)
    requires IsIndex(text, i) && i < |items|
    ensures Get(List(items), [text]) == Some(items[i])
  {
    hide Digits, Atoi;
  }

  /** No key hides the line of the mapping itself. */
  predicate KeepsDefault(node: Node) {
    node.Mapping? ==> forall i | 0 <= i < |node.entries| :: Tagged(Text(node.entries[i].key)) != DEFAULT_KEY
  }

  lemma {:induction false} DefaultLine(entries: seq<Pair>, def: int)
    requires forall i | 0 <= i < |entries| :: Tagged(Text(entries[i].key)) != DEFAULT_KEY
    ensures DEFAULT_KEY in EntryLines(entries, def) && EntryLines(entries, def)[DEFAULT_KEY] == LineObject(def, [])
  {
    hide Tagged, LineObject, Text;
    if entries != [] {
      DefaultLine(entries[..|entries| - 1], def);
    }
  }

  lemma MappingDefault(node: Node, def: int)
    requires node.Mapping? && KeepsDefault(node)
    ensures AsInt(Get(Obj(Lined(node, def)), [LINES_KEY, DEFAULT_KEY, LINE_KEY])) == def
  {
    hide ConvertEntries, EntryLines, LineObject, Digits;
    DefaultLine(node.entries, def);
    LineObjectHolds(def, []);
    GetThree(Lined(node, def), LINES_KEY, DEFAULT_KEY, LINE_KEY);
    GetKey(LineObject(def, []).fields, LINE_KEY);
  }

  lemma NoKeyInside(j: Json, path: seq<string>)
    requires path != [] && path[0] == LINES_KEY && !j.Obj?
    ensures Get(j, path) == None
  {
    LinesKeyIsNoIndex();
  }

  lemma LinesKeyIsNoIndex()
    ensures Digits(LINES_KEY) == None
  {
    assert LINES_KEY[|LINES_KEY| - 1] == 's';
  }

  /** What the document itself has under an element's key offers either no line or the key's own. */
  lemma ElementValueLine(element: Node, key: string)
    requires PlainMapping(element) && LastText(element.entries, key) >= 0
    requires KeepsDefault(element.entries[LastText(element.entries, key)].value)
    ensures AsInt(Get(Convert(element, true), [LINES_KEY, Tagged(key), LINE_KEY])) == 0
    ensures AsInt(Get(Convert(element, true), [key, LINES_KEY, DEFAULT_KEY, LINE_KEY]))
            in {0, element.entries[LastText(element.entries, key)].key.line}
  {
    hide Digits, Tagged, ConvertEntries, ConvertAll, GetLines, Atoi;
    var entries, k := element.entries, LastText(element.entries, key);
    NoOwnLines(entries, LINES_KEY);
    StoredUnder(entries, k, key);
    var v, rest := Stored(entries[k]), [LINES_KEY, DEFAULT_KEY, LINE_KEY];
    assert [key] + rest == [key, LINES_KEY, DEFAULT_KEY, LINE_KEY];
    GetConcat(Convert(element, true), [key], rest);
    GetKey(ConvertEntries(entries, true), key);
    if entries[k].value.Mapping? {
      MappingDefault(entries[k].value, entries[k].key.line);
    } else if !v.Obj? {
      NoKeyInside(v, rest);
    }
  }

  lemma ElementLinesPath(node: Node, def: int, a: string, index: string, i: nat)
    requires node.Mapping? && LastText(node.entries, a) >= 0
    requires
      var value := node.entries[LastText(node.entries, a)].value;
      value.Sequence? && i < |value.items| && IsIndex(index, i)
    ensures
      var pair := node.entries[LastText(node.entries, a)];
      Get(Obj(Lined(node, def)), ArrayPart(a) + [index]) ==
      Some(Obj(GetLines(pair.value.items[i], ElementLine(pair.value.items[i], pair.key.line))))
  {
    hide ConvertEntries, EntryLines, Tagged, LastText, LineObject, Digits, ElementLines, Get, Atoi;
    var pair := node.entries[LastText(node.entries, a)];
    RecordedLine(node.entries, def, a);
    ElementLinesAt(pair.value.items, pair.key.line, i);
    LineObjectHolds(pair.key.line, ArrayLines(pair));
    GetThree(Lined(node, def), LINES_KEY, Tagged(a), ARR_KEY);
    GetKey(LineObject(pair.key.line, ArrayLines(pair)).fields, ARR_KEY);
    GetIndex(ArrayLines(pair), index, i);
    GetConcat(Obj(Lined(node, def)), ArrayPart(a), [index]);
  }

  /** The lines of an element hold the line of its key, and nothing under the key itself. */
  lemma ElementKeyLine(element: Node, def: int, key: string)
    requires element.Mapping? && LastText(element.entries, key) >= 0
    ensures
      var k := LastText(element.entries, key);
      && Get(Obj(GetLines(element, def)), [Tagged(key), LINE_KEY]) == Some(Num(element.entries[k].key.line))
      && Get(Obj(GetLines(element, def)), [key, DEFAULT_KEY, LINE_KEY]) == None
  {
    hide EntryLines, Tagged, LastText, LineObject, Digits;
    var k := LastText(element.entries, key);
    RecordedLine(element.entries, def, key);
    LineObjectHolds(element.entries[k].key.line, ArrayLines(element.entries[k]));
    var lines := EntryLines(element.entries, def);
    GetKey(lines, Tagged(key));
    GetKey(LineObject(element.entries[k].key.line, ArrayLines(element.entries[k])).fields, LINE_KEY);
    GetConcat(Obj(lines), [Tagged(key)], [LINE_KEY]);
    assert [Tagged(key)] + [LINE_KEY] == [Tagged(key), LINE_KEY];
    GetConcat(Obj(lines), [key], [DEFAULT_KEY, LINE_KEY]);
    assert [key] + [DEFAULT_KEY, LINE_KEY] == [key, DEFAULT_KEY, LINE_KEY];
    GetKey(lines, key);
    if key in lines {
      NoDefaultInside(element.entries, def, key);
    }
  }

  lemma {:induction false} NoDefaultInside(entries: seq<Pair>, def: int, key: string)
    requires key in EntryLines(entries, def)
    ensures Get(EntryLines(entries, def)[key], [DEFAULT_KEY, LINE_KEY]) == None
  {
    hide Tagged, Text, Digits, LineObject, ArrayLines;
    if entries == [] {
      LineObjectHolds(def, []);
    } else {
      var front, last := entries[..|entries| - 1], entries[|entries| - 1];
      if key == Tagged(Text(last.key)) {
        LineObjectHolds(last.key.line, ArrayLines(last));
      } else {
        NoDefaultInside(front, def, key);
      }
    }
  }

  /** The array under `a` that the entry at `j` stores, with an element at `i`. */
  predicate HoldsArray(last: Node, a: string, j: nat, index: string, i: nat) {
    && last.Mapping? && a != LINES_KEY
    && LastText(last.entries, a) == j && Decides(last.entries, j, a)
    && last.entries[j].value.Sequence? && i < |last.entries[j].value.items| && IsIndex(index, i)
  }

  lemma ElementPath(last: Node, def: int, a: string, j: nat, index: string, i: nat)
    requires HoldsArray(last, a, j, index, i)
    ensures Get(Obj(Lined(last, def)), [a, index]) == Some(Convert(last.entries[j].value.items[i], true))
  {
    hide GetLines, ConvertEntries, ConvertAll, Convert, Digits, Atoi, Get, LastText, Touches;
    var items := last.entries[j].value.items;
    StoredUnder(last.entries, j, a);
    ConvertAllAt(items, i);
    GetConcat(Obj(Lined(last, def)), [a], [index]);
    GetKey(Lined(last, def), a);
    GetIndex(ConvertAll(items, true), index, i);
    assert [a] + [index] == [a, index];
  }

  /** The first positive line of four candidates, three of which offer nothing or the same line. */
  lemma FourthPath(content: Json, objectPath: seq<string>, arrayPath: seq<string>, key: string, line: int)
    requires '.' !in key && line > 0
    requires AsInt(Get(content, objectPath + [LINES_KEY, Tagged(key), LINE_KEY])) == 0
    requires AsInt(Get(content, objectPath + [key, LINES_KEY, DEFAULT_KEY, LINE_KEY])) in {0, line}
    requires AsInt(Get(content, arrayPath + [key, DEFAULT_KEY, LINE_KEY])) == 0
    requires AsInt(Get(content, arrayPath + [Tagged(key), LINE_KEY])) == line
    ensures FirstLine(content, Candidates(objectPath, arrayPath, key)) == line
  {
    hide Get, AsInt, Split, Tagged, FirstLine;
    NotSplit(key, '.');
    NoDotsTagged(key);
    assert objectPath + [LINES_KEY] + [Tagged(key)] + [LINE_KEY] == objectPath + [LINES_KEY, Tagged(key), LINE_KEY];
    assert objectPath + [key] + [LINES_KEY, DEFAULT_KEY, LINE_KEY] == objectPath + [key, LINES_KEY, DEFAULT_KEY, LINE_KEY];
    assert arrayPath + [key] + [DEFAULT_KEY, LINE_KEY] == arrayPath + [key, DEFAULT_KEY, LINE_KEY];
    assert arrayPath + [Tagged(key)] + [LINE_KEY] == arrayPath + [Tagged(key), LINE_KEY];
    var paths := Candidates(objectPath, arrayPath, key);
    FirstLineStep(content, paths, 0);
    FirstLineStep(content, paths, 1);
    FirstLineStep(content, paths, 2);
    FirstLineStep(content, paths, 3);
  }

  lemma AsIntOf(n: int)
    ensures AsInt(None) == 0 && AsInt(Some(Num(n))) == n
  {
  }

  /** Searching for a key of an array element finds the line of that key in that element, although
      the element itself carries no line information. */
  lemma FindsElementKeyLine(root: Node, keys: seq<string>, last: Node, a: string, j: nat, index: string, i: nat, key: string)
    requires root.Mapping? && Leads(root, keys, last) && HoldsArray(last, a, j, index, i)
    requires '.' !in a && '.' !in key && Atoi(a).None? && Atoi(key).None? && a !in keys
    requires
      var element := last.entries[j].value.items[i];
      && PlainMapping(element) && LastText(element.entries, key) >= 0
      && KeepsDefault(element.entries[LastText(element.entries, key)].value)
      && element.entries[LastText(element.entries, key)].key.line > 0
    ensures Document(root, true).Some?
    ensures
      var element := last.entries[j].value.items[i];
      SearchedLine(Obj(Document(root, true).value), keys + [a, index, key])
      == element.entries[LastText(element.entries, key)].key.line
  {
    hide *;
    IsArray(last, a, j, index, i);
    IsElement(last.entries[j].value.items[i]);
    DocumentIs(root);
    var element, items := last.entries[j].value.items[i], keys + [a, index, key];
    var k := LastText(element.entries, key);
    var content, line := Obj(Document(root, true).value), element.entries[k].key.line;
    var d := FollowPath(root, 0, keys, last);
    assert content == Obj(Lined(root, 0));

    ElementPath(last, d, a, j, index, i);
    ElementValueLine(element, key);
    GetTwo(content, keys, [a, index], [LINES_KEY, Tagged(key), LINE_KEY]);
    GetTwo(content, keys, [a, index], [key, LINES_KEY, DEFAULT_KEY, LINE_KEY]);

    ElementLinesPath(last, d, a, index, i);
    ElementKeyLine(element, ElementLine(element, last.entries[j].key.line), key);
    GetTwo(content, keys, ArrayPart(a) + [index], [key, DEFAULT_KEY, LINE_KEY]);
    GetTwo(content, keys, ArrayPart(a) + [index], [Tagged(key), LINE_KEY]);
    AsIntOf(line);

    ArrayObjectOf(keys, a, index, key);
    ArrayPathOf(keys, a, index, key);
    PathsOf(items);
    ElementPaths(keys, a, index, key);
    FourthPath(content, keys + [a, index], keys + ArrayPart(a) + [index], key, line);
  }

  lemma IsArray(last: Node, a: string, j: nat, index: string, i: nat)
    requires HoldsArray(last, a, j, index, i)
    ensures last.Mapping? && j < |last.entries| && LastText(last.entries, a) == j
    ensures last.entries[j].value.Sequence? && i < |last.entries[j].value.items|
    ensures IsIndex(index, i) && Atoi(index).Some?
  {
    hide Digits, Atoi, Touches;
  }

  lemma IsElement(element: Node)
    requires PlainMapping(element)
    ensures element.Mapping?
  {
  }

  lemma ElementPaths(keys: seq<string>, a: string, index: string, key: string)
    ensures
      var items := keys + [a, index, key];
      && |items| == |keys| + 3 && items[|items| - 1] == key && items[..|items| - 1] == keys + [a, index]
    ensures keys + ArrayPart(a) + [index] == keys + (ArrayPart(a) + [index])
  {
    hide ArrayPart;
  }

  lemma GetTwo(content: Json, a: seq<string>, b: seq<string>, c: seq<string>)
    requires Get(content, a).Some? && Get(Get(content, a).value, b).Some?
    ensures Get(content, a + b + c) == Get(Get(Get(content, a).value, b).value, c)
  {
    hide Get;
    GetConcat(content, a, b);
    GetConcat(content, a + b, c);
  }

  // ---- Array elements ----

  /** The first positive line of four candidates, of which the first two offer nothing. */
  lemma ThirdPath(content: Json, objectPath: seq<string>, arrayPath: seq<string>, key: string, line: int)
    requires '.' !in key && line > 0
    requires AsInt(Get(content, objectPath + [LINES_KEY, Tagged(key), LINE_KEY])) == 0
    requires AsInt(Get(content, objectPath + [key, LINES_KEY, DEFAULT_KEY, LINE_KEY])) == 0
    requires AsInt(Get(content, arrayPath + [key, DEFAULT_KEY, LINE_KEY])) == line
    ensures FirstLine(content, Candidates(objectPath, arrayPath, key)) == line
  {
    hide Get, AsInt, Split, Tagged, FirstLine;
    NotSplit(key, '.');
    NoDotsTagged(key);
    assert objectPath + [LINES_KEY] + [Tagged(key)] + [LINE_KEY] == objectPath + [LINES_KEY, Tagged(key), LINE_KEY];
    assert objectPath + [key] + [LINES_KEY, DEFAULT_KEY, LINE_KEY] == objectPath + [key, LINES_KEY, DEFAULT_KEY, LINE_KEY];
    assert arrayPath + [key] + [DEFAULT_KEY, LINE_KEY] == arrayPath + [key, DEFAULT_KEY, LINE_KEY];
    var paths := Candidates(objectPath, arrayPath, key);
    FirstLineStep(content, paths, 0);
    FirstLineStep(content, paths, 1);
    FirstLineStep(content, paths, 2);
  }

  lemma {:induction false} DigitsHaveNoDot(text: string)
    requires Digits(text).Some?
    ensures '.' !in text
    decreases |text|
  {
    if text != "" {
      DigitsHaveNoDot(text[..|text| - 1]);
      assert text == text[..|text| - 1] + [text[|text| - 1]];
    }
  }

  lemma ArrayObjectOfElement(keys: seq<string>, a: string, index: string)
    requires Atoi(a).None? && Atoi(index).Some?
    ensures ArrayObject(keys + [a, index], |keys| + 2, false) == a
  {
    var items := keys + [a, index];
    hide Atoi;
    assert items[|keys| + 1] == index && items[|keys|] == a;
    assert ArrayObject(items, |keys| + 2, false) == ArrayObject(items, |keys| + 1, true);
  }

  /** An element carries no line information of its own. */
  lemma ElementHasNoLines(element: Node)
    requires element.Mapping? ==> PlainMapping(element)
    ensures Get(Convert(element, true), [LINES_KEY, DEFAULT_KEY, LINE_KEY]) == None
  {
    hide Digits, ConvertEntries, ConvertAll;
    if element.Mapping? {
      NoOwnLines(element.entries, LINES_KEY);
    }
    LinesKeyIsNoIndex();
  }

  lemma DefaultOfLines(element: Node, def: int)
    requires KeepsDefault(element)
    ensures Get(Obj(GetLines(element, def)), [DEFAULT_KEY, LINE_KEY]) == Some(Num(def))
  {
    hide Digits, LineObject, SeqLines, EntryLines;
    var lines := GetLines(element, def);
    var arr := if element.Sequence? then SeqLines(element.items) else [];
    if element.Mapping? {
      DefaultLine(element.entries, def);
    }
    assert DEFAULT_KEY in lines && lines[DEFAULT_KEY] == LineObject(def, arr);
    LineObjectHolds(def, arr);
    GetKey(lines, DEFAULT_KEY);
    GetKey(LineObject(def, arr).fields, LINE_KEY);
    GetConcat(Obj(lines), [DEFAULT_KEY], [LINE_KEY]);
    assert [DEFAULT_KEY] + [LINE_KEY] == [DEFAULT_KEY, LINE_KEY];
  }

  lemma ArrayIsList(last: Node, def: int, a: string, j: nat, index: string, i: nat, key: string)
    requires HoldsArray(last, a, j, index, i)
    ensures Get(Obj(Lined(last, def)), [a]).Some? && Get(Get(Obj(Lined(last, def)), [a]).value, [LINES_KEY, Tagged(key), LINE_KEY]) == None
  {
    hide GetLines, ConvertEntries, ConvertAll, Convert, Digits, Atoi, LastText, Touches;
    StoredUnder(last.entries, j, a);
    GetKey(Lined(last, def), a);
    NoKeyInside(List(ConvertAll(last.entries[j].value.items, true)), [LINES_KEY, Tagged(key), LINE_KEY]);
  }

  /** Searching for an array element finds its own line if it is a scalar, the line of its first key if it is a
      mapping, and the line of the array's key if it is neither or has no key. */
  lemma FindsElementLine(root: Node, keys: seq<string>, last: Node, a: string, j: nat, index: string, i: nat, line: int)
    requires root.Mapping? && Leads(root, keys, last) && HoldsArray(last, a, j, index, i)
    requires '.' !in a && Atoi(a).None? && a !in keys && line > 0
    requires
      var element := last.entries[j].value.items[i];
      && (element.Mapping? ==> PlainMapping(element)) && KeepsDefault(element)
      && (element.Scalar? ==> line == element.line)
      && (element.Mapping? && element.entries != [] ==> line == element.entries[0].key.line)
      && (element.Sequence? || element.Alias? || (element.Mapping? && element.entries == []) ==> line == last.entries[j].key.line)
    ensures Document(root, true).Some?
    ensures SearchedLine(Obj(Document(root, true).value), keys + [a, index]) == line
  {
    hide *;
    IsArray(last, a, j, index, i);
    IndexHasNoDot(index, i);
    DocumentIs(root);
    var element, items := last.entries[j].value.items[i], keys + [a, index];
    var content := Obj(Document(root, true).value);
    var d := FollowPath(root, 0, keys, last);
    assert content == Obj(Lined(root, 0));
    DefaultIs(element, last.entries[j].key.line, line);

    ArrayIsList(last, d, a, j, index, i, index);
    GetTwo(content, keys, [a], [LINES_KEY, Tagged(index), LINE_KEY]);
    ElementPath(last, d, a, j, index, i);
    ElementHasNoLines(element);
    GetTwo(content, keys, [a, index], [LINES_KEY, DEFAULT_KEY, LINE_KEY]);

    ElementLinesPath(last, d, a, index, i);
    DefaultOfLines(element, line);
    GetTwo(content, keys, ArrayPart(a) + [index], [DEFAULT_KEY, LINE_KEY]);
    AsIntOf(line);

    ArrayObjectOfElement(keys, a, index);
    ArrayPathUpToElement(keys, a, index);
    PathsOf(items);
    PathsOfElement(keys, a, index);
    ThirdPath(content, keys + [a], keys + ArrayPart(a), index, line);
  }

  lemma IndexHasNoDot(index: string, i: nat)
    requires IsIndex(index, i)
    ensures '.' !in index
  {
    DigitsHaveNoDot(index);
  }

  lemma DefaultIs(element: Node, keyLine: int, line: int)
    requires element.Scalar? ==> line == element.line
    requires element.Mapping? && element.entries != [] ==> line == element.entries[0].key.line
    requires element.Sequence? || element.Alias? || (element.Mapping? && element.entries == []) ==> line == keyLine
    ensures ElementLine(element, keyLine) == line
  {
  }

  lemma ArrayPathUpToElement(keys: seq<string>, a: string, index: string)
    requires '.' !in a && a !in keys
    ensures ArrayPath(keys + [a, index], a) == keys + ArrayPart(a)
  {
    hide ArrayPath, ArrayPart;
    ArrayPathUpTo(keys, a, index);
  }

  lemma PathsOfElement(keys: seq<string>, a: string, index: string)
    ensures
      var items := keys + [a, index];
      && |items| == |keys| + 2 && items[|items| - 1] == index && items[..|items| - 1] == keys + [a]
    ensures keys + [a] + [index, LINES_KEY, DEFAULT_KEY, LINE_KEY] == keys + [a, index] + [LINES_KEY, DEFAULT_KEY, LINE_KEY]
    ensures keys + (ArrayPart(a) + [index]) + [DEFAULT_KEY, LINE_KEY] == keys + ArrayPart(a) + [index, DEFAULT_KEY, LINE_KEY]
  {
    hide ArrayPart;
  }
}
