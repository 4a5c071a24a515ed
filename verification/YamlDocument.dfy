/** YAML nodes converted to a document that carries the line of every key. */
module YamlDocument {
  import opened Wrappers
  import opened LineKeys

  /** A parsed YAML node. The name of an alias is that of its anchor. */
  datatype Node =
    | Scalar(value: string, tag: string, line: int)
    | Mapping(entries: seq<Pair>, line: int)
    | Sequence(items: seq<Node>, line: int)
    | Alias(name: string, target: Node, line: int)

  datatype Pair = Pair(key: Node, value: Node)

  datatype Json =
    | Null
    | Bool(b: bool)
    | Num(n: int)
    | Str(s: string)
    | List(items: seq<Json>)
    | Obj(fields: map<string, Json>)

  type Fields = map<string, Json>

  function Text(node: Node): string {
    match node
    case Scalar(value, _, _) => value
    case Alias(name, _, _) => name
    case _ => ""
  }

  // ---- Scalars ----

  function Digits(s: string): Option<int> {
    if s == [] then Some(0)
    else if !('0' <= s[|s| - 1] <= '9') then None
    else
      match Digits(s[..|s| - 1])
      case None => None
      case Some(n) => Some(10 * n + (s[|s| - 1] as int - '0' as int))
  }

  /** Decimal digits behind an optional sign, within 64 bits. */
  function Atoi(s: string): Option<int> {
    var signed := s != "" && (s[0] == '-' || s[0] == '+');
    var digits := if signed then s[1..] else s;
    match (if digits == "" then None else Digits(digits))
    case None => None
    case Some(m) =>
      var n: int := if signed && s[0] == '-' then -m else m;
      if -0x8000_0000_0000_0000 <= n < 0x8000_0000_0000_0000 then Some(n) else None
  }

  function ScalarNodeResolver(value: string, tag: string): Json {
    if tag == "!!bool" then Bool(value == "true" || value == "True")
    else if tag == "!!int" then (match Atoi(value) case Some(n) => Num(n) case None => Str(value))
    else if tag == "!!null" then Null
    else Str(value)
  }

  // ---- Line information ----

  /** A line object as it is marshalled: an empty list of array lines is left away. */
  function LineObject(line: int, arr: seq<Json>): Json {
    Obj(map[LINE_KEY := Num(line)] + if arr == [] then map[] else map[ARR_KEY := List(arr)])
  }

  function GetLines(node: Node, def: int): Fields
    decreases node, 1
  {
    match node
    case Sequence(items, _) => map[DEFAULT_KEY := LineObject(def, SeqLines(items))]
    case Mapping(entries, _) => EntryLines(entries, def)
    case _ => map[DEFAULT_KEY := LineObject(def, [])]
  }

  function SeqLines(items: seq<Node>): seq<Json>
    decreases items, 0
  {
    if items == [] then []
    else
      var last := items[|items| - 1];
      SeqLines(items[..|items| - 1]) + [Obj(GetLines(last, last.line))]
  }

  function EntryLines(entries: seq<Pair>, def: int): Fields
    decreases entries, 0
  {
    if entries == [] then map[DEFAULT_KEY := LineObject(def, [])]
    else
      var last := entries[|entries| - 1];
      EntryLines(entries[..|entries| - 1], def)[Tagged(Text(last.key)) := LineObject(last.key.line, ArrayLines(last))]
  }

  /** The lines of the elements of an array value. */
  function ArrayLines(pair: Pair): seq<Json>
    decreases pair, 0
  {
    if pair.value.Sequence? then ElementLines(pair.value.items, pair.key.line) else []
  }

  /** The default line of an array element: its own, that of its first key, or that of the array's key. */
  function ElementLine(element: Node, keyLine: int): int {
    if element.Scalar? then element.line
    else if element.Mapping? && |element.entries| > 0 then element.entries[0].key.line
    else keyLine
  }

  function ElementLines(items: seq<Node>, keyLine: int): seq<Json>
    decreases items, 0
  {
    if items == [] then []
    else
      var last := items[|items| - 1];
      ElementLines(items[..|items| - 1], keyLine) + [Obj(GetLines(last, ElementLine(last, keyLine)))]
  }

  // ---- Conversion, with the line information or without ----

  function WithLines(fields: Fields, node: Node, def: int, annotate: bool): Fields {
    if annotate then fields[LINES_KEY := Obj(GetLines(node, def))] else fields
  }

  function Convert(node: Node, annotate: bool): Json
    decreases node, 1
  {
    match node
    case Sequence(items, _) => Obj(map["playbooks" := List(ConvertAll(items, annotate))])
    case Scalar(value, tag, _) => ScalarNodeResolver(value, tag)
    case Mapping(entries, _) => Obj(ConvertEntries(entries, annotate))
    case Alias(_, _, _) => Obj(map[])
  }

  function ConvertAll(items: seq<Node>, annotate: bool): seq<Json>
    decreases items, 0
  {
    if items == [] then []
    else ConvertAll(items[..|items| - 1], annotate) + [Convert(items[|items| - 1], annotate)]
  }

  function ConvertEntries(entries: seq<Pair>, annotate: bool): Fields
    decreases entries, 0
  {
    if entries == [] then map[]
    else PutEntry(ConvertEntries(entries[..|entries| - 1], annotate), entries[|entries| - 1], annotate)
  }

  /** A key with an alias merges the aliased mapping into the object itself. Only aliases of
      mappings, sequences and strings leave anything behind. */
  function PutEntry(fields: Fields, pair: Pair, annotate: bool): Fields
    decreases pair, 0
  {
    if !pair.key.Scalar? then fields
    else
      var key, line := pair.key.value, pair.key.line;
      match pair.value
      case Scalar(value, tag, _) => fields[key := ScalarNodeResolver(value, tag)]
      case Mapping(entries, _) =>
        fields[key := Obj(WithLines(ConvertEntries(entries, annotate), pair.value, line, annotate))]
      case Sequence(items, _) => fields[key := List(ConvertAll(items, annotate))]
      case Alias(_, target, _) =>
        match Convert(target, annotate) {
          case Obj(merged) => fields + WithLines(merged, pair.value, line, annotate)
          case Str(s) => fields[key := Str(s)]
          case _ => fields
        }
  }

  /** The document, with the lines of the top-level keys; None for a scalar at the top. */
  function Document(node: Node, annotate: bool): Option<Fields> {
    match Convert(node, annotate)
    case Obj(fields) => Some(WithLines(fields, node, 0, annotate))
    case _ => None
  }

  // ---- The loops that compute it ----

  method GetLinesOf(node: Node, def: int) returns (lines: Fields)
    ensures lines == GetLines(node, def)
    decreases node, 1
  {
    if node.Sequence? {
      lines := GetSeqLines(node.items, def);
      return;
    }
    lines := map[DEFAULT_KEY := LineObject(def, [])];
    if node.Mapping? {
      for i := 0 to |node.entries|
        invariant lines == EntryLines(node.entries[..i], def)
      {
        hide *;
        var pair := node.entries[i];
        EntryLinesStep(node.entries, i, def);
        var lineArr := [];
        if pair.value.Sequence? {
          lineArr := GetElementLines(pair.value.items, pair.key.line);
        }
        lines := lines[Tagged(Text(pair.key)) := LineObject(pair.key.line, lineArr)];
      }
      assert node.entries[..|node.entries|] == node.entries;
    }
  }

  lemma EntryLinesStep(entries: seq<Pair>, i: nat, def: int)
    requires i < |entries|
    ensures EntryLines(entries[..i + 1], def) ==
            EntryLines(entries[..i], def)[Tagged(Text(entries[i].key)) := LineObject(entries[i].key.line, ArrayLines(entries[i]))]
    ensures ArrayLines(entries[i]) ==
            if entries[i].value.Sequence? then ElementLines(entries[i].value.items, entries[i].key.line) else []
  {
    assert entries[..i + 1][..i] == entries[..i];
  }

  method GetElementLines(items: seq<Node>, keyLine: int) returns (arr: seq<Json>)
    ensures arr == ElementLines(items, keyLine)
    decreases items, 2
  {
    arr := [];
    for i := 0 to |items|
      invariant arr == ElementLines(items[..i], keyLine)
    {
      assert items[..i + 1][..i] == items[..i];
      var defaultLine := keyLine;
      if items[i].Scalar? {
        defaultLine := items[i].line;
      } else if items[i].Mapping? && |items[i].entries| > 0 {
        defaultLine := items[i].entries[0].key.line;
      }
      var lines := GetLinesOf(items[i], defaultLine);
      arr := arr + [Obj(lines)];
    }
    assert items[..|items|] == items;
  }

  method GetSeqLines(items: seq<Node>, def: int) returns (lines: Fields)
    ensures lines == map[DEFAULT_KEY := LineObject(def, SeqLines(items))]
    decreases items, 2
  {
    var arr := [];
    for i := 0 to |items|
      invariant arr == SeqLines(items[..i])
    {
      assert items[..i + 1][..i] == items[..i];
      var elementLines := GetLinesOf(items[i], items[i].line);
      arr := arr + [Obj(elementLines)];
    }
    assert items[..|items|] == items;
    lines := map[DEFAULT_KEY := LineObject(def, arr)];
  }

  method Unmarshal(node: Node) returns (j: Json)
    ensures j == Convert(node, true)
    decreases node, 1
  {
    match node {
      case Sequence(items, _) =>
        var contentArray := UnmarshalAll(items);
        j := Obj(map["playbooks" := List(contentArray)]);
      case Scalar(value, tag, _) =>
        j := ScalarNodeResolver(value, tag);
      case Alias(_, _, _) =>
        j := Obj(map[]);
      case Mapping(entries, _) =>
        var tmp: Fields := map[];
        for i := 0 to |entries|
          invariant tmp == ConvertEntries(entries[..i], true)
        {
          assert entries[..i + 1][..i] == entries[..i];
          tmp := UnmarshalEntry(tmp, entries[i]);
        }
        assert entries[..|entries|] == entries;
        j := Obj(tmp);
    }
  }

  method UnmarshalAll(items: seq<Node>) returns (contentArray: seq<Json>)
    ensures contentArray == ConvertAll(items, true)
    decreases items, 0
  {
    contentArray := [];
    for i := 0 to |items|
      invariant contentArray == ConvertAll(items[..i], true)
    {
      assert items[..i + 1][..i] == items[..i];
      var element := Unmarshal(items[i]);
      contentArray := contentArray + [element];
    }
    assert items[..|items|] == items;
  }

  method UnmarshalEntry(tmp: Fields, pair: Pair) returns (fields: Fields)
    ensures fields == PutEntry(tmp, pair, true)
    decreases pair, 0
  {
    fields := tmp;
    if pair.key.Scalar? {
      match pair.value {
        case Scalar(value, tag, _) =>
          fields := fields[pair.key.value := ScalarNodeResolver(value, tag)];
        case Mapping(_, _) =>
          var tt := Unmarshal(pair.value);
          var lines := GetLinesOf(pair.value, pair.key.line);
          fields := fields[pair.key.value := Obj(tt.fields[LINES_KEY := Obj(lines)])];
        case Sequence(items, _) =>
          var contentArray := UnmarshalAll(items);
          fields := fields[pair.key.value := List(contentArray)];
        case Alias(_, target, _) =>
          var t := Unmarshal(target);
          if t.Obj? {
            var lines := GetLinesOf(pair.value, pair.key.line);
            fields := fields + t.fields[LINES_KEY := Obj(lines)];
          } else if t.Str? {
            fields := fields[pair.key.value := t];
          }
      }
    }
  }

  method UnmarshalYAML(node: Node) returns (document: Option<Fields>)
    ensures document == Document(node, true)
  {
    var dpc := Unmarshal(node);
    if dpc.Obj? {
      var lines := GetLinesOf(node, 0);
      document := Some(dpc.fields[LINES_KEY := Obj(lines)]);
    } else {
      document := None;
    }
  }
}
