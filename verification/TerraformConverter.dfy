/** Conversion of a Terraform body into a document, and the simple grouping that it refines. */
module TerraformConverter {
  import opened TerraformBlocks
  import opened TerraformClashes
  import opened Wrappers
  import opened LineKeys

  type Document = map<string, Value>

  // ---- What the conversion computes ----

  function ValuesOf(attributes: map<string, Attribute>, keys: set<string>): Document
    requires keys <= attributes.Keys
  {
    map key | key in keys && attributes[key].converted.Success? :: attributes[key].converted.value
  }

  function AttributeValues(attributes: map<string, Attribute>): Document {
    ValuesOf(attributes, attributes.Keys)
  }

  ghost function TaggedLines(attributes: map<string, Attribute>, keys: set<string>): map<string, LineObject>
    requires keys <= attributes.Keys
  {
    assert forall a, b :: Tagged(a) == Tagged(b) ==> a == b by {
      forall b {
        TaggedOnce(b);
      }
    }
    map key | key in keys :: Tagged(key) := LineObject(attributes[key].line, attributes[key].arr)
  }

  /** The line of the body itself and those of the given attributes. */
  ghost function AttributeLines(defLine: int, attributes: map<string, Attribute>, keys: set<string>): map<string, LineObject>
    requires keys <= attributes.Keys
  {
    map[DEFAULT_KEY := LineObject(defLine, NO_ARRAY)] + TaggedLines(attributes, keys)
  }

  /** Each block type gets the line of its last block, be the block dropped or not. */
  function BlockLines(lines: map<string, LineObject>, blocks: seq<Block>): map<string, LineObject> {
    if blocks == [] then lines
    else
      var b := blocks[|blocks| - 1];
      BlockLines(lines, blocks[..|blocks| - 1])[Tagged(b.kind) := LineObject(b.line, NO_ARRAY)]
  }

  ghost function KicsLines(body: Body, defLine: int): map<string, LineObject> {
    BlockLines(AttributeLines(defLine, body.attributes, body.attributes.Keys), body.blocks)
  }

  ghost predicate SomeFails(attributes: map<string, Attribute>) {
    exists key :: key in attributes && attributes[key].converted.Failure?
  }

  /** The converted body; None for a body whose count is 0. */
  ghost function Conversion(body: Body, defLine: int): Result<Option<Document>>
    decreases body, 1
  {
    if body.count == 0 then Success(None)
    else if SomeFails(body.attributes) then Failure
    else
      match Blocks(body.blocks, AttributeValues(body.attributes))
      case Failure => Failure
      case Success(out) => Success(Some(out[LINES_KEY := Lines(KicsLines(body, defLine))]))
  }

  ghost function Blocks(blocks: seq<Block>, out: Document): Result<Document>
    decreases blocks, 0
  {
    if blocks == [] then Success(out)
    else
      match Blocks(blocks[..|blocks| - 1], out)
      case Failure => Failure
      case Success(o) => OneBlock(blocks[|blocks| - 1], o)
  }

  ghost function OneBlock(block: Block, out: Document): Result<Document>
    decreases block, 0
  {
    match Conversion(block.body, block.line)
    case Failure => Failure
    case Success(None) => Success(out)
    case Success(Some(entries)) => Insert(out, block.kind, block.labels, Doc(entries))
  }

  // ---- The loops that compute it ----

  method ConvertBody(body: Body, defLine: int) returns (r: Result<Option<Document>>)
    ensures r == Conversion(body, defLine)
    decreases body, 1
  {
    hide *;
    ConversionIs(body, defLine);
    if body.count == 0 {
      return Success(None);
    }
    var out, lines := ConvertAttributes(body.attributes, defLine);
    if out.Failure? {
      return Failure;
    }
    var document := out.value;
    ghost var before := lines;
    BlocksStart(body.blocks, document, lines);
    for n := 0 to |body.blocks|
      invariant Blocks(body.blocks[..n], AttributeValues(body.attributes)) == Success(document)
      invariant lines == BlockLines(before, body.blocks[..n])
    {
      var block := body.blocks[n];
      BlocksStep(body.blocks, n, AttributeValues(body.attributes), before);
      lines := lines[Tagged(block.kind) := LineObject(block.line, NO_ARRAY)];
      var next := ConvertBlock(block, document);
      if next.Failure? {
        BlocksFail(body.blocks, n + 1, AttributeValues(body.attributes));
        return Failure;
      }
      document := next.value;
    }
    assert body.blocks[..|body.blocks|] == body.blocks;
    r := Success(Some(document[LINES_KEY := Lines(lines)]));
  }

  lemma ConversionIs(body: Body, defLine: int)
    ensures body.count == 0 ==> Conversion(body, defLine) == Success(None)
    ensures body.count != 0 && SomeFails(body.attributes) ==> Conversion(body, defLine) == Failure
    ensures body.count != 0 && !SomeFails(body.attributes) ==>
              var out := Blocks(body.blocks, AttributeValues(body.attributes));
              var lines := BlockLines(AttributeLines(defLine, body.attributes, body.attributes.Keys), body.blocks);
              Conversion(body, defLine) == if out.Failure? then Failure else Success(Some(out.value[LINES_KEY := Lines(lines)]))
  {
    hide AttributeLines, BlockLines, Blocks, ValuesOf, SomeFails;
  }

  lemma BlocksStart(blocks: seq<Block>, out: Document, lines: map<string, LineObject>)
    ensures Blocks(blocks[..0], out) == Success(out) && BlockLines(lines, blocks[..0]) == lines
  {
    assert blocks[..0] == [];
  }

  lemma BlocksStep(blocks: seq<Block>, n: nat, out: Document, lines: map<string, LineObject>)
    requires n < |blocks|
    ensures
      var before, after := Blocks(blocks[..n], out), Blocks(blocks[..n + 1], out);
      after == if before.Failure? then Failure else OneBlock(blocks[n], before.value)
    ensures BlockLines(lines, blocks[..n + 1]) ==
            BlockLines(lines, blocks[..n])[Tagged(blocks[n].kind) := LineObject(blocks[n].line, NO_ARRAY)]
  {
    hide OneBlock, Tagged;
    assert blocks[..n + 1][..n] == blocks[..n];
  }

  lemma {:induction false} BlocksFail(blocks: seq<Block>, n: nat, out: Document)
    requires n <= |blocks| && Blocks(blocks[..n], out).Failure?
    ensures Blocks(blocks, out).Failure?
  {
    if n == |blocks| {
      assert blocks[..n] == blocks;
    } else {
      assert blocks[..|blocks| - 1][..n] == blocks[..n];
      BlocksFail(blocks[..|blocks| - 1], n, out);
    }
  }

  /** The attributes are visited in whatever order the map yields them. */
  method ConvertAttributes(attributes: map<string, Attribute>, defLine: int)
    returns (out: Result<Document>, lines: map<string, LineObject>)
    ensures out == if SomeFails(attributes) then Failure else Success(AttributeValues(attributes))
    ensures out.Success? ==> lines == AttributeLines(defLine, attributes, attributes.Keys)
  {
    hide AttributeLines, ValuesOf, Tagged;
    var document: Document := map[];
    lines := map[DEFAULT_KEY := LineObject(defLine, NO_ARRAY)];
    var rest := attributes.Keys;
    ghost var done: set<string> := {};
    AttributesStart(defLine, attributes);
    while rest != {}
      invariant done + rest == attributes.Keys
      invariant forall key | key in done :: attributes[key].converted.Success?
      invariant document == ValuesOf(attributes, done) && lines == AttributeLines(defLine, attributes, done)
      decreases rest
    {
      var key :| key in rest;
      var a := attributes[key];
      if a.converted.Failure? {
        return Failure, lines;
      }
      AttributesStep(defLine, attributes, done, key);
      document := document[key := a.converted.value];
      lines := lines[Tagged(key) := LineObject(a.line, a.arr)];
      rest, done := rest - {key}, done + {key};
    }
    assert done == attributes.Keys;
    out := Success(document);
  }

  lemma AttributesStart(defLine: int, attributes: map<string, Attribute>)
    ensures ValuesOf(attributes, {}) == map[]
    ensures AttributeLines(defLine, attributes, {}) == map[DEFAULT_KEY := LineObject(defLine, NO_ARRAY)]
  {
  }

  lemma AttributesStep(defLine: int, attributes: map<string, Attribute>, done: set<string>, key: string)
    requires done <= attributes.Keys && key in attributes && attributes[key].converted.Success?
    ensures ValuesOf(attributes, done + {key}) == ValuesOf(attributes, done)[key := attributes[key].converted.value]
    ensures AttributeLines(defLine, attributes, done + {key}) ==
            AttributeLines(defLine, attributes, done)[Tagged(key) := LineObject(attributes[key].line, attributes[key].arr)]
  {
    hide Tagged, TaggedLines;
    TaggedStep(attributes, done, key);
  }

  lemma TaggedStep(attributes: map<string, Attribute>, done: set<string>, key: string)
    requires done <= attributes.Keys && key in attributes
    ensures TaggedLines(attributes, done + {key}) ==
            TaggedLines(attributes, done)[Tagged(key) := LineObject(attributes[key].line, attributes[key].arr)]
  {
    hide Tagged;
    TaggedOnce(key);
  }

  method ConvertBlock(block: Block, out: Document) returns (r: Result<Document>)
    ensures r == OneBlock(block, out)
    decreases block, 0
  {
    var value := ConvertBody(block.body, block.line);
    match value {
      case Failure => r := Failure;
      case Success(None) => r := Success(out);
      case Success(Some(entries)) => r := Insert(out, block.kind, block.labels, Doc(entries));
    }
  }

  // ---- The grouping it refines ----

  predicate Live(b: Block) {
    b.body.count != 0
  }

  /** The attributes, the blocks grouped by type and labels, and the lines, at every depth. */
  ghost function Reference(body: Body, defLine: int): Document
    decreases body, 1
  {
    (AttributeValues(body.attributes) + Trie(Entries(body.blocks)))[LINES_KEY := Lines(KicsLines(body, defLine))]
  }

  /** The blocks whose count is not 0. */
  ghost function Entries(blocks: seq<Block>): seq<Entry>
    decreases blocks, 0
  {
    if blocks == [] then []
    else
      var es, b := Entries(blocks[..|blocks| - 1]), blocks[|blocks| - 1];
      if Live(b) then es + [Entry(b.kind, b.labels, Doc(Reference(b.body, b.line)))] else es
  }

  /** Two blocks of which one's path is a proper prefix of the other's. */
  predicate Overlap(b: Block, c: Block) {
    Live(b) && Live(c) && b.kind == c.kind && b.labels < c.labels
  }

  predicate NoOverlap(blocks: seq<Block>) {
    forall i, j | 0 <= i < |blocks| && 0 <= j < |blocks| :: !Overlap(blocks[i], blocks[j])
  }

  /** All expressions convert, no block has the name of an attribute and no paths overlap. */
  ghost predicate Regular(body: Body)
    decreases body, 1
  {
    body.count != 0 ==> NoOverlap(body.blocks) && Convertible(body)
  }

  ghost predicate Convertible(body: Body)
    decreases body, 0
  {
    && !SomeFails(body.attributes)
    && forall i | 0 <= i < |body.blocks| && Live(body.blocks[i]) ::
         body.blocks[i].kind !in body.attributes && Regular(body.blocks[i].body)
  }

  lemma {:induction false} EntriesFrom(blocks: seq<Block>, e: nat) returns (i: nat)
    requires e < |Entries(blocks)|
    ensures i < |blocks| && Live(blocks[i])
    ensures
      var entry := Entries(blocks)[e];
      entry == Entry(blocks[i].kind, blocks[i].labels, Doc(Reference(blocks[i].body, blocks[i].line)))
    decreases |blocks|
  {
    hide Reference;
    var front := blocks[..|blocks| - 1];
    if e < |Entries(front)| {
      i := EntriesFrom(front, e);
    } else {
      i := |blocks| - 1;
    }
  }

  lemma {:induction false} EntryOf(blocks: seq<Block>, i: nat) returns (e: nat)
    requires i < |blocks| && Live(blocks[i])
    ensures e < |Entries(blocks)|
    ensures
      var entry := Entries(blocks)[e];
      entry == Entry(blocks[i].kind, blocks[i].labels, Doc(Reference(blocks[i].body, blocks[i].line)))
    decreases |blocks|
  {
    hide Reference;
    var front := blocks[..|blocks| - 1];
    if i < |front| {
      e := EntryOf(front, i);
    } else {
      e := |Entries(front)|;
    }
  }

  lemma EntriesClash(blocks: seq<Block>)
    ensures NoClash(Entries(blocks)) <==> NoOverlap(blocks)
  {
    hide Entries;
    var es := Entries(blocks);
    if NoOverlap(blocks) {
      forall d, e | 0 <= d < |es| && 0 <= e < |es| ensures !Clash(es[d], es[e]) {
        var i := EntriesFrom(blocks, d);
        var j := EntriesFrom(blocks, e);
        assert !Overlap(blocks[i], blocks[j]);
      }
    }
    if NoClash(es) {
      forall i, j | 0 <= i < |blocks| && 0 <= j < |blocks| ensures !Overlap(blocks[i], blocks[j]) {
        if Live(blocks[i]) && Live(blocks[j]) {
          var d := EntryOf(blocks, i);
          var e := EntryOf(blocks, j);
          assert !Clash(es[d], es[e]);
        }
      }
    }
  }

  lemma EntriesFit(body: Body)
    requires Convertible(body)
    ensures AllDocs(Entries(body.blocks)) && AttributeValues(body.attributes).Keys !! Heads(Entries(body.blocks))
  {
    hide Entries;
    var es := Entries(body.blocks);
    forall e | 0 <= e < |es| ensures es[e].doc.Doc? && es[e].key !in body.attributes {
      var i := EntriesFrom(body.blocks, e);
    }
  }

  lemma {:induction false} BlocksInsert(blocks: seq<Block>, out: Document)
    requires forall i | 0 <= i < |blocks| && Live(blocks[i]) :: Regular(blocks[i].body)
    ensures Blocks(blocks, out) == InsertAll(out, Entries(blocks))
    decreases blocks, 0
  {
    hide Reference, Conversion, Insert, Regular;
    if blocks != [] {
      var front, b := blocks[..|blocks| - 1], blocks[|blocks| - 1];
      BlocksInsert(front, out);
      if Live(b) {
        RefinesGrouping(b.body, b.line);
        var es, e := Entries(front), Entry(b.kind, b.labels, Doc(Reference(b.body, b.line)));
        assert (es + [e])[..|es|] == es;
      } else {
        ConversionIs(b.body, b.line);
      }
    }
  }

  /** A regular body converts without error into its attributes and the simple grouping of its
      blocks, and so do the bodies inside it. */
  lemma {:induction false} RefinesGrouping(body: Body, defLine: int)
    requires Regular(body) && body.count != 0
    ensures Conversion(body, defLine) == Success(Some(Reference(body, defLine)))
    decreases body, 1
  {
    hide Entries, Blocks, BlockLines, AttributeLines, ValuesOf, InsertAll, Trie;
    BlocksInsert(body.blocks, AttributeValues(body.attributes));
    EntriesFit(body);
    EntriesClash(body.blocks);
    InsertAllGroups(AttributeValues(body.attributes), Entries(body.blocks));
    ConversionIs(body, defLine);
  }

  /** As long as the bodies inside convert, every block is found at its own path exactly if no
      paths of live blocks overlap. */
  lemma GroupedIffNoOverlap(body: Body)
    requires Convertible(body)
    ensures Grouped(Blocks(body.blocks, AttributeValues(body.attributes)), Entries(body.blocks)) <==> NoOverlap(body.blocks)
  {
    hide Entries, Blocks, InsertAll, Grouped, ValuesOf;
    BlocksInsert(body.blocks, AttributeValues(body.attributes));
    EntriesFit(body);
    EntriesClash(body.blocks);
    GroupedIffNoClash(AttributeValues(body.attributes), Entries(body.blocks));
  }

  // ---- Blocks of one type with equally many labels ----

  /** The converted bodies of the live blocks with this type and these labels, in source order. */
  ghost function Members(blocks: seq<Block>, kind: string, labels: seq<string>): seq<Value> {
    if blocks == [] then []
    else
      var docs, b := Members(blocks[..|blocks| - 1], kind, labels), blocks[|blocks| - 1];
      if Live(b) && b.kind == kind && b.labels == labels then docs + [Doc(Reference(b.body, b.line))] else docs
  }

  lemma {:induction false} MembersAreDocs(blocks: seq<Block>, kind: string, labels: seq<string>)
    ensures Docs(Entries(blocks), kind, labels) == Members(blocks, kind, labels)
  {
    hide Reference;
    if blocks != [] {
      var front, b := blocks[..|blocks| - 1], blocks[|blocks| - 1];
      MembersAreDocs(front, kind, labels);
      var es, e := Entries(front), Entry(b.kind, b.labels, Doc(Reference(b.body, b.line)));
      assert (es + [e])[..|es|] == es;
    }
  }

  ghost predicate SameLabelCount(blocks: seq<Block>, kind: string, n: nat) {
    forall i | 0 <= i < |blocks| && Live(blocks[i]) && blocks[i].kind == kind :: |blocks[i].labels| == n
  }

  /** All live blocks of one type have equally many labels. */
  ghost predicate Uniform(blocks: seq<Block>) {
    forall i | 0 <= i < |blocks| && Live(blocks[i]) :: SameLabelCount(blocks, blocks[i].kind, |blocks[i].labels|)
  }

  lemma UniformNeverOverlaps(blocks: seq<Block>)
    requires Uniform(blocks)
    ensures NoOverlap(blocks)
  {
    forall i, j | 0 <= i < |blocks| && 0 <= j < |blocks| ensures !Overlap(blocks[i], blocks[j]) {
      if Live(blocks[i]) && Live(blocks[j]) && blocks[i].kind == blocks[j].kind {
        assert |blocks[j].labels| == |blocks[i].labels|;
      }
    }
  }

  /** The converted body holds at `kind` and `labels` exactly the converted bodies of the blocks
      with that type and those labels: nothing, the one body, or a list in source order. */
  lemma ConvertedLookup(body: Body, defLine: int, kind: string, labels: seq<string>)
    requires body.count != 0 && Convertible(body) && Uniform(body.blocks)
    requires SameLabelCount(body.blocks, kind, |labels|) && kind !in body.attributes && kind != LINES_KEY
    ensures Conversion(body, defLine) == Success(Some(Reference(body, defLine)))
    ensures
      var docs := Members(body.blocks, kind, labels);
      Lookup(Reference(body, defLine), kind, labels) == if docs == [] then None else Some(Collapse(docs))
  {
    UniformNeverOverlaps(body.blocks);
    RefinesGrouping(body, defLine);
    ReferenceLookup(body, defLine, kind, labels);
    hide Reference, Entries, Members, Trie, Lookup, Conversion, Docs;
    var es := Entries(body.blocks);
    EntriesClash(body.blocks);
    LookupGroup(es, kind, labels);
    MembersAreDocs(body.blocks, kind, labels);
    DocsOf(es, kind, labels);
    if Docs(es, kind, labels) == [] {
      forall e | 0 <= e < |es| ensures !Related(es[e], kind, labels) {
        var i := EntriesFrom(body.blocks, e);
      }
    }
  }

  lemma ReferenceLookup(body: Body, defLine: int, kind: string, labels: seq<string>)
    requires kind !in body.attributes && kind != LINES_KEY
    ensures Lookup(Reference(body, defLine), kind, labels) == Lookup(Trie(Entries(body.blocks)), kind, labels)
  {
  }

  // ---- The recorded lines ----

  /** The index of the last block of a type, or -1. */
  function LastOf(blocks: seq<Block>, kind: string): (k: int)
    ensures -1 <= k < |blocks|
    ensures k >= 0 ==> blocks[k].kind == kind
    ensures forall i | k < i < |blocks| :: blocks[i].kind != kind
  {
    if blocks == [] then -1
    else if blocks[|blocks| - 1].kind == kind then |blocks| - 1
    else LastOf(blocks[..|blocks| - 1], kind)
  }

  function Find(lines: map<string, LineObject>, key: string): Option<LineObject> {
    if key in lines then Some(lines[key]) else None
  }

  lemma {:induction false} BlockLineOf(lines: map<string, LineObject>, blocks: seq<Block>, key: string)
    ensures Find(BlockLines(lines, blocks), Tagged(key)) ==
            var k := LastOf(blocks, key);
            if k >= 0 then Some(LineObject(blocks[k].line, NO_ARRAY)) else Find(lines, Tagged(key))
  {
    hide Tagged;
    if blocks != [] {
      BlockLineOf(lines, blocks[..|blocks| - 1], key);
      TaggedInjective(key, blocks[|blocks| - 1].kind);
    }
  }

  lemma AttributeLineOf(defLine: int, attributes: map<string, Attribute>, key: string)
    ensures Find(AttributeLines(defLine, attributes, attributes.Keys), Tagged(key)) ==
            if key in attributes then Some(LineObject(attributes[key].line, attributes[key].arr))
            else if Tagged(key) == DEFAULT_KEY then Some(LineObject(defLine, NO_ARRAY))
            else None
  {
    hide Tagged;
    TaggedOnce(key);
  }

  /** A name gets the line of its last block, dropped blocks included, or else the line of its
      attribute; only a name that is neither has none, apart from the line of the body itself. */
  lemma LineOfName(body: Body, defLine: int, key: string)
    ensures Find(KicsLines(body, defLine), Tagged(key)) ==
            var k := LastOf(body.blocks, key);
            if k >= 0 then Some(LineObject(body.blocks[k].line, NO_ARRAY))
            else if key in body.attributes then Some(LineObject(body.attributes[key].line, body.attributes[key].arr))
            else if Tagged(key) == DEFAULT_KEY then Some(LineObject(defLine, NO_ARRAY))
            else None
  {
    hide Tagged, BlockLines, AttributeLines, LastOf, Find;
    AttributeLineOf(defLine, body.attributes, key);
    BlockLineOf(AttributeLines(defLine, body.attributes, body.attributes.Keys), body.blocks, key);
  }
}
