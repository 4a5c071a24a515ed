/** Where a fix is inserted into a Terraform block: the structure around the line of a finding, and
    the line of the insertion. */
module TerraformInsertion {
  import opened Wrappers

  /** Only attributes whose expression is an object or a function call can be structures. */
  datatype Attribute = Attribute(start: int, end: int, structured: bool)

  datatype Block = Block(kind: string, start: int, end: int, blocks: seq<Block>, attributes: map<string, Attribute>)

  datatype Found = Found(name: string, start: int, end: int, isAttr: bool)

  predicate Holds(start: int, end: int, line: int) {
    start <= line <= end
  }

  function OfBlock(b: Block): Found {
    Found(b.kind, b.start, b.end, false)
  }

  function OfAttribute(name: string, a: Attribute): Found {
    Found(name, a.start, a.end, true)
  }

  // ---- Searching ----

  /** The index of the first block that holds the line, or the number of blocks. */
  function FirstHolding(blocks: seq<Block>, line: int): (k: nat)
    ensures k <= |blocks|
    ensures k < |blocks| ==> Holds(blocks[k].start, blocks[k].end, line)
    ensures forall i | 0 <= i < k :: !Holds(blocks[i].start, blocks[i].end, line)
  {
    if blocks == [] then 0
    else if Holds(blocks[0].start, blocks[0].end, line) then 0
    else 1 + FirstHolding(blocks[1..], line)
  }

  predicate AttributeHolds(b: Block, name: string, line: int) {
    && name in b.attributes && b.attributes[name].structured
    && Holds(b.attributes[name].start, b.attributes[name].end, line)
  }

  /** What the search can return: attributes are visited in whatever order the map yields them. */
  ghost predicate Possible(b: Block, line: int, f: Option<Found>)
    decreases b
  {
    var k := FirstHolding(b.blocks, line);
    if k < |b.blocks| then
      || (f.Some? && Possible(b.blocks[k], line, f))
      || (f == Some(OfBlock(b.blocks[k])) && Possible(b.blocks[k], line, None))
    else
      match f
      case None => forall name :: !AttributeHolds(b, name, line)
      case Some(x) => AttributeHolds(b, x.name, line) && x == OfAttribute(x.name, b.attributes[x.name])
  }

  method FindContainingStructure(b: Block, line: int) returns (f: Option<Found>)
    ensures Possible(b, line, f)
    decreases b
  {
    for i := 0 to |b.blocks|
      invariant FirstHolding(b.blocks, line) >= i
    {
      var nested := b.blocks[i];
      if line >= nested.start && line <= nested.end {
        var inner := FindContainingStructure(nested, line);
        if inner.Some? {
          return inner;
        }
        return Some(Found(nested.kind, nested.start, nested.end, false));
      }
    }
    var names := b.attributes.Keys;
    while names != {}
      invariant names <= b.attributes.Keys
      invariant forall name | AttributeHolds(b, name, line) :: name in names
    {
      var name :| name in names;
      var a := b.attributes[name];
      if line >= a.start && line <= a.end && a.structured {
        return Some(Found(name, a.start, a.end, true));
      }
      names := names - {name};
    }
    f := None;
  }

  // ---- Well-nested blocks ----

  predicate Inside(b: Block, start: int, end: int) {
    b.start < start <= end < b.end
  }

  predicate Apart(s: int, e: int, s': int, e': int) {
    e < s' || e' < s
  }

  /** Nested blocks and structured attributes lie strictly inside their block and share no lines. */
  ghost predicate WellNested(b: Block)
    decreases b
  {
    && (forall i | 0 <= i < |b.blocks| :: Inside(b, b.blocks[i].start, b.blocks[i].end) && WellNested(b.blocks[i]))
    && (forall i, j | 0 <= i < j < |b.blocks| :: Apart(b.blocks[i].start, b.blocks[i].end, b.blocks[j].start, b.blocks[j].end))
    && (forall n | Structured(b, n) :: Inside(b, b.attributes[n].start, b.attributes[n].end))
    && (forall n, m | Structured(b, n) && Structured(b, m) && n != m ::
          Apart(b.attributes[n].start, b.attributes[n].end, b.attributes[m].start, b.attributes[m].end))
    && (forall n, i | Structured(b, n) && 0 <= i < |b.blocks| ::
          Apart(b.attributes[n].start, b.attributes[n].end, b.blocks[i].start, b.blocks[i].end))
  }

  predicate Structured(b: Block, name: string) {
    name in b.attributes && b.attributes[name].structured
  }

  /** `x` is a nested block or a structured attribute of `b`, at any depth. */
  ghost predicate StructureOf(b: Block, x: Found)
    decreases b
  {
    || (Structured(b, x.name) && x == OfAttribute(x.name, b.attributes[x.name]))
    || exists i :: 0 <= i < |b.blocks| && (x == OfBlock(b.blocks[i]) || StructureOf(b.blocks[i], x))
  }

  /** The innermost structure that holds the line: all others that hold it are around it. */
  ghost predicate Innermost(b: Block, line: int, f: Option<Found>) {
    match f
    case None => forall x | StructureOf(b, x) :: !Holds(x.start, x.end, line)
    case Some(x) =>
      && StructureOf(b, x) && Holds(x.start, x.end, line)
      && forall y | StructureOf(b, y) && Holds(y.start, y.end, line) :: y.start <= x.start && x.end <= y.end
  }

  lemma {:induction false} StructuresInside(b: Block, x: Found)
    requires WellNested(b) && StructureOf(b, x)
    ensures Inside(b, x.start, x.end)
    decreases b
  {
    if !(Structured(b, x.name) && x == OfAttribute(x.name, b.attributes[x.name])) {
      var i :| 0 <= i < |b.blocks| && (x == OfBlock(b.blocks[i]) || StructureOf(b.blocks[i], x));
      assert Inside(b, b.blocks[i].start, b.blocks[i].end);
      if x != OfBlock(b.blocks[i]) {
        StructuresInside(b.blocks[i], x);
      }
    }
  }

  /** The nested block that `x` is or lies in, or -1 if it is an attribute of `b` itself. */
  lemma WhereIs(b: Block, x: Found) returns (i: int)
    requires WellNested(b) && StructureOf(b, x)
    ensures -1 <= i < |b.blocks|
    ensures i == -1 ==> Structured(b, x.name) && x == OfAttribute(x.name, b.attributes[x.name])
    ensures i >= 0 ==> x == OfBlock(b.blocks[i]) || StructureOf(b.blocks[i], x)
    ensures i >= 0 ==> b.blocks[i].start <= x.start && x.end <= b.blocks[i].end
  {
    if Structured(b, x.name) && x == OfAttribute(x.name, b.attributes[x.name]) {
      i := -1;
    } else {
      i :| 0 <= i < |b.blocks| && (x == OfBlock(b.blocks[i]) || StructureOf(b.blocks[i], x));
      if x != OfBlock(b.blocks[i]) {
        StructuresInside(b.blocks[i], x);
      }
    }
  }

  lemma BlocksApart(b: Block, i: nat, k: nat)
    requires WellNested(b) && i < |b.blocks| && k < |b.blocks| && i != k
    ensures Apart(b.blocks[i].start, b.blocks[i].end, b.blocks[k].start, b.blocks[k].end)
  {
  }

  lemma AttributeApart(b: Block, name: string, k: nat)
    requires WellNested(b) && Structured(b, name) && k < |b.blocks|
    ensures Apart(b.attributes[name].start, b.attributes[name].end, b.blocks[k].start, b.blocks[k].end)
  {
  }

  /** If a nested block holds the line, so does nothing but it and what is in it. */
  lemma OnlyInOne(b: Block, k: nat, line: int, x: Found)
    requires WellNested(b) && k < |b.blocks| && Holds(b.blocks[k].start, b.blocks[k].end, line)
    requires StructureOf(b, x) && Holds(x.start, x.end, line)
    ensures x == OfBlock(b.blocks[k]) || StructureOf(b.blocks[k], x)
  {
    hide WellNested, StructureOf;
    var i := WhereIs(b, x);
    if i == -1 {
      AttributeApart(b, x.name, k);
    } else if i != k {
      BlocksApart(b, i, k);
    }
  }

  lemma OnlyAttributes(b: Block, line: int, x: Found)
    requires WellNested(b) && FirstHolding(b.blocks, line) == |b.blocks|
    requires StructureOf(b, x) && Holds(x.start, x.end, line)
    ensures AttributeHolds(b, x.name, line) && x == OfAttribute(x.name, b.attributes[x.name])
  {
    hide WellNested, StructureOf;
    var i := WhereIs(b, x);
  }

  /** In a well-nested block the search finds the innermost structure around the line. */
  lemma {:induction false} FindsInnermost(b: Block, line: int, f: Option<Found>)
    requires WellNested(b) && Possible(b, line, f)
    ensures Innermost(b, line, f)
    decreases b
  {
    var k := FirstHolding(b.blocks, line);
    if k < |b.blocks| {
      var inner := if Possible(b.blocks[k], line, f) && f.Some? then f else None;
      FindsInnermost(b.blocks[k], line, inner);
      InnermostBelow(b, k, line, f, inner);
    } else {
      InnermostAttribute(b, line, f);
    }
  }

  lemma InnermostBelow(b: Block, k: nat, line: int, f: Option<Found>, inner: Option<Found>)
    requires WellNested(b) && k < |b.blocks| && Holds(b.blocks[k].start, b.blocks[k].end, line)
    requires Innermost(b.blocks[k], line, inner)
    requires f == if inner.Some? then inner else Some(OfBlock(b.blocks[k]))
    ensures Innermost(b, line, f)
  {
    hide WellNested;
    forall y | StructureOf(b, y) && Holds(y.start, y.end, line) ensures y.start <= f.value.start && f.value.end <= y.end {
      OnlyInOne(b, k, line, y);
      if y == OfBlock(b.blocks[k]) && inner.Some? {
        NestedIsWell(b, k);
        StructuresInside(b.blocks[k], inner.value);
      }
    }
    assert StructureOf(b, f.value);
  }

  lemma NestedIsWell(b: Block, k: nat)
    requires WellNested(b) && k < |b.blocks|
    ensures WellNested(b.blocks[k])
  {
  }

  lemma InnermostAttribute(b: Block, line: int, f: Option<Found>)
    requires WellNested(b) && FirstHolding(b.blocks, line) == |b.blocks| && Possible(b, line, f)
    ensures Innermost(b, line, f)
  {
    forall y | StructureOf(b, y) && Holds(y.start, y.end, line)
      ensures f.Some? && y == f.value
    {
      OnlyAttributes(b, line, y);
    }
  }

  /** So it finds the same whatever the order of the attributes. */
  lemma {:induction false} FindsTheSame(b: Block, line: int, f: Option<Found>, g: Option<Found>)
    requires WellNested(b) && Possible(b, line, f) && Possible(b, line, g)
    ensures f == g
    decreases b
  {
    var k := FirstHolding(b.blocks, line);
    if k < |b.blocks| {
      var inner := if f.Some? && Possible(b.blocks[k], line, f) then f else None;
      var inner' := if g.Some? && Possible(b.blocks[k], line, g) then g else None;
      FindsTheSame(b.blocks[k], line, inner, inner');
    }
  }

  // ---- The line of the insertion ----

  /** The last line before the end of the block that is in no attribute, on the way up. */
  ghost predicate LastFree(b: Block, at: int) {
    && b.start <= at < b.end
    && (forall line | at < line < b.end :: InAttribute(b, line))
    && !InAttribute(b, at)
  }

  ghost predicate InAttribute(b: Block, line: int) {
    exists x: Found :: x.isAttr && Possible(b, line, Some(x))
  }

  lemma {:induction false} PossibleIsStructure(b: Block, line: int, x: Found)
    requires WellNested(b) && Possible(b, line, Some(x))
    ensures Inside(b, x.start, x.end) && Holds(x.start, x.end, line)
  {
    FindsInnermost(b, line, Some(x));
    StructuresInside(b, x);
  }

  /** All lines of an attribute that is found on one of them find it. */
  lemma {:induction false} WholeAttribute(b: Block, line: int, x: Found, other: int)
    requires WellNested(b) && x.isAttr && Possible(b, line, Some(x)) && Holds(x.start, x.end, other)
    ensures Possible(b, other, Some(x))
    decreases b
  {
    var k := FirstHolding(b.blocks, line);
    if k < |b.blocks| {
      PossibleIsStructure(b.blocks[k], line, x);
      assert Holds(b.blocks[k].start, b.blocks[k].end, other);
      OnlyBlock(b, k, other);
      WholeAttribute(b.blocks[k], line, x, other);
    } else {
      NoBlock(b, x.name, other);
    }
  }

  lemma OnlyBlock(b: Block, k: nat, line: int)
    requires WellNested(b) && k < |b.blocks| && Holds(b.blocks[k].start, b.blocks[k].end, line)
    ensures FirstHolding(b.blocks, line) == k
  {
    var j := FirstHolding(b.blocks, line);
    assert j != k ==> Apart(b.blocks[j].start, b.blocks[j].end, b.blocks[k].start, b.blocks[k].end);
  }

  lemma NoBlock(b: Block, name: string, line: int)
    requires WellNested(b) && AttributeHolds(b, name, line)
    ensures FirstHolding(b.blocks, line) == |b.blocks|
  {
    var j := FirstHolding(b.blocks, line);
    assert Structured(b, name);
  }

  /** The loop for findings on the first line of a block: up over the attributes at its end. */
  method SkipAttributes(b: Block) returns (insertionLine: int)
    ensures WellNested(b) && b.start < b.end ==> LastFree(b, insertionLine)
    ensures b.start >= b.end ==> insertionLine == b.end - 1
  {
    insertionLine := b.end - 1;
    ghost var ready := WellNested(b) && b.start < b.end;
    var i := insertionLine;
    while i >= b.start
      invariant ready ==> b.start <= insertionLine <= i < b.end
      invariant ready ==> forall line | insertionLine < line < b.end :: InAttribute(b, line)
      invariant b.start >= b.end ==> insertionLine == b.end - 1 && i == insertionLine
      decreases i - b.start + 1
    {
      hide InAttribute, Possible, WellNested;
      var f := FindContainingStructure(b, i);
      if f.Some? && f.value.isAttr && f.value.end >= insertionLine {
        if ready {
          OverAttribute(b, i, f.value, insertionLine);
        }
        insertionLine := f.value.start - 1;
      } else {
        if ready {
          FreeLine(b, i, f, insertionLine);
        }
        break;
      }
      i := i - 1;
    }
  }

  lemma OverAttribute(b: Block, i: int, x: Found, insertionLine: int)
    requires WellNested(b) && x.isAttr && Possible(b, i, Some(x)) && insertionLine <= i < b.end
    ensures b.start <= x.start - 1 <= i - 1
    ensures forall line | x.start <= line <= i :: InAttribute(b, line)
  {
    PossibleIsStructure(b, i, x);
    forall line | x.start <= line <= i ensures InAttribute(b, line) {
      WholeAttribute(b, i, x, line);
    }
  }

  lemma FreeLine(b: Block, i: int, f: Option<Found>, insertionLine: int)
    requires WellNested(b) && Possible(b, i, f) && insertionLine <= i < b.end
    requires !(f.Some? && f.value.isAttr && f.value.end >= insertionLine)
    requires forall line | insertionLine < line < b.end :: InAttribute(b, line)
    ensures i == insertionLine && !InAttribute(b, insertionLine)
  {
    if InAttribute(b, i) {
      var x: Found :| x.isAttr && Possible(b, i, Some(x));
      FindsTheSame(b, i, f, Some(x));
      PossibleIsStructure(b, i, x);
    }
  }

  /** `wraps` says of a line whether it looks like a call around an object. */
  type LineTest = int -> bool

  /** Where a fix goes once the structure `f` was found: behind a wrapping call, next to the first or
      last line of the structure, at the last free line of the block, or at the line itself. */
  ghost predicate InsertsAt(b: Block, line: int, wraps: LineTest, f: Option<Found>, insertionLine: int) {
    match f
    case Some(x) =>
      insertionLine ==
      if x.isAttr && wraps(x.start) then x.end + 1
      else if line == x.end then x.end - 1
      else if line == x.start then x.start + 1
      else line
    case None =>
      if line != b.start then insertionLine == line
      else if b.start >= b.end then insertionLine == b.end - 1
      else WellNested(b) ==> LastFree(b, insertionLine)
  }

  method CalculateInsertionPoint(b: Block, line: int, wraps: LineTest) returns (insertionLine: int)
    ensures exists f :: Possible(b, line, f) && InsertsAt(b, line, wraps, f, insertionLine)
  {
    hide LastFree, WellNested, Possible;
    var f := FindContainingStructure(b, line);
    if f.Some? {
      var x := f.value;
      if x.isAttr && wraps(x.start) {
        insertionLine := x.end + 1;
      } else if line == x.end {
        insertionLine := x.end - 1;
      } else if line == x.start {
        insertionLine := x.start + 1;
      } else {
        insertionLine := line;
      }
    } else if line == b.start {
      insertionLine := SkipAttributes(b);
    } else {
      insertionLine := line;
    }
    assert InsertsAt(b, line, wraps, f, insertionLine);
  }

  /** The first block that holds the line decides; a line outside the file is an error. */
  method LocateTerraformBlock(blocks: seq<Block>, line: int, lineCount: nat, wraps: LineTest)
    returns (at: Option<nat>, insertionLine: int)
    ensures at == if 1 <= line <= lineCount && FirstHolding(blocks, line) < |blocks| then Some(FirstHolding(blocks, line)) else None
    ensures at.None? ==> insertionLine == 0
    ensures at.Some? ==> exists f :: Possible(blocks[at.value], line, f) && InsertsAt(blocks[at.value], line, wraps, f, insertionLine)
    ensures at.Some? && WellNested(blocks[at.value]) ==>
              var b := blocks[at.value];
              b.start <= insertionLine <= b.end <==> b.start < b.end
  {
    at, insertionLine := None, 0;
    if line <= 0 || line > lineCount {
      return;
    }
    for i := 0 to |blocks|
      invariant FirstHolding(blocks, line) >= i
    {
      if line >= blocks[i].start && line <= blocks[i].end {
        insertionLine := CalculateInsertionPoint(blocks[i], line, wraps);
        if WellNested(blocks[i]) {
          var f :| Possible(blocks[i], line, f) && InsertsAt(blocks[i], line, wraps, f, insertionLine);
          InsertionInside(blocks[i], line, wraps, insertionLine, f);
        }
        return Some(i), insertionLine;
      }
    }
  }

  /** In a well-nested block the line of the insertion lies between its first and its last line
      exactly if the block has more than one line. */
  lemma InsertionInside(b: Block, line: int, wraps: LineTest, insertionLine: int, f: Option<Found>)
    requires WellNested(b) && Holds(b.start, b.end, line)
    requires Possible(b, line, f) && InsertsAt(b, line, wraps, f, insertionLine)
    ensures b.start <= insertionLine <= b.end <==> b.start < b.end
  {
    if f.Some? {
      PossibleIsStructure(b, line, f.value);
    }
  }
}
