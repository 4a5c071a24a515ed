/** The parser accepts exactly the token lists of grammatical trees, and returns that very tree. */
module FilterRoundTrip {
  import opened FilterSyntax
  import opened FilterParser
  import opened FilterLeaves
  import opened Parsing
  import opened Wrappers

  // ---- What may come next ----

  predicate StartsWith(toks: seq<Token>, t: Token) {
    toks != [] && toks[0] == t
  }

  /** The tokens that end a leaf: a longer identifier or number would go on with these. */
  predicate EndsLeaf(rest: seq<Token>) {
    !StartsWith(rest, Dot) && !StartsWith(rest, LBracket)
  }

  /** An operator that the loop at strength `p` would take. */
  predicate GoesOn(p: nat, rest: seq<Token>) {
    (StartsWith(rest, And) && p <= 3) || (StartsWith(rest, Or) && p <= 2)
  }

  // ---- Leaves come back ----

  lemma Cons(t: Token, tail: seq<Token>)
    ensures ([t] + tail)[0] == t && ([t] + tail)[1..] == tail
  {
  }

  lemma Assoc(a: seq<Token>, b: seq<Token>, c: seq<Token>)
    ensures (a + b) + c == a + (b + c)
  {
  }

  lemma Uncons(toks: seq<Token>, t: Token, a: seq<Token>, rest: seq<Token>)
    requires toks != [] && toks[0] == t && toks[1..] == a + rest
    ensures toks == ([t] + a) + rest
  {
    assert toks == [t] + toks[1..];
  }

  lemma IndexStep(toks: seq<Token>, x: string, indices: seq<string>, rest: seq<Token>)
    requires ParseIndices(toks) == Ok(indices, rest)
    ensures ParseIndices([LBracket, Number(x), RBracket] + toks) == Ok([x] + indices, rest)
  {
    assert ([LBracket, Number(x), RBracket] + toks)[3..] == toks;
  }

  lemma {:induction false} IndicesReturn(indices: seq<string>, rest: seq<Token>)
    requires !StartsWith(rest, LBracket)
    ensures ParseIndices(IndexTokens(indices) + rest) == Ok(indices, rest)
  {
    if indices == [] {
      assert IndexTokens(indices) + rest == rest;
    } else {
      var x, tail := indices[0], indices[1..];
      IndicesReturn(tail, rest);
      IndexStep(IndexTokens(tail) + rest, x, tail, rest);
      Assoc([LBracket, Number(x), RBracket], IndexTokens(tail), rest);
      assert indices == [x] + tail;
    }
  }

  lemma MemberReturns(m: Member, rest: seq<Token>)
    requires !StartsWith(rest, LBracket)
    ensures ParseMember(MemberTokens(m) + rest) == Ok(m, rest)
  {
    IndicesReturn(m.indices, rest);
    hide ParseIndices;
    Assoc([Ident(m.name)], IndexTokens(m.indices), rest);
    Cons(Ident(m.name), IndexTokens(m.indices) + rest);
    hide IndexTokens;
  }

  lemma RestEnds(members: seq<Member>, rest: seq<Token>)
    requires EndsLeaf(rest)
    ensures !StartsWith(RestTokens(members) + rest, LBracket)
  {
    if members == [] {
      assert RestTokens(members) + rest == rest;
    } else {
      hide MemberTokens;
      assert (RestTokens(members) + rest)[0] == Dot;
    }
  }

  lemma RestStep(toks: seq<Token>, m: Member, more: seq<Token>, members: seq<Member>, rest: seq<Token>)
    requires ParseMember(toks) == Ok(m, more) && ParseRest(more) == Ok(members, rest)
    ensures ParseRest([Dot] + toks) == Ok([m] + members, rest)
  {
    hide ParseMember;
    Cons(Dot, toks);
  }

  lemma {:induction false} RestReturns(members: seq<Member>, rest: seq<Token>)
    requires EndsLeaf(rest)
    ensures ParseRest(RestTokens(members) + rest) == Ok(members, rest)
  {
    if members == [] {
      assert RestTokens(members) + rest == rest;
    } else {
      hide ParseMember, ParseRest, MemberTokens;
      var m, tail := members[0], members[1..];
      var more := RestTokens(tail) + rest;
      RestReturns(tail, rest);
      RestEnds(tail, rest);
      MemberReturns(m, more);
      RestStep(MemberTokens(m) + more, m, more, tail, rest);
      Assoc([Dot] + MemberTokens(m), RestTokens(tail), rest);
      Assoc([Dot], MemberTokens(m), more);
      assert members == [m] + tail;
    }
  }

  lemma IdReturns(id: QualifiedIdentifier, rest: seq<Token>)
    requires EndsLeaf(rest)
    ensures ParseId(IdTokens(id) + rest) == Ok(id, rest)
  {
    hide ParseMember, ParseRest, MemberTokens, RestTokens;
    var more := RestTokens(id.rest) + rest;
    RestReturns(id.rest, rest);
    RestEnds(id.rest, rest);
    MemberReturns(id.first, more);
    Assoc(MemberTokens(id.first), RestTokens(id.rest), rest);
  }

  lemma PartStep(toks: seq<Token>, part: NumberPart, parts: seq<NumberPart>, rest: seq<Token>)
    requires ParseParts(toks) == Ok(parts, rest)
    ensures ParseParts([Dot, if part.Digits? then Number(part.text) else Star] + toks) == Ok([part] + parts, rest)
  {
    assert ([Dot, if part.Digits? then Number(part.text) else Star] + toks)[2..] == toks;
  }

  lemma {:induction false} PartsReturn(parts: seq<NumberPart>, rest: seq<Token>)
    requires !StartsWith(rest, Dot)
    ensures ParseParts(PartTokens(parts) + rest) == Ok(parts, rest)
  {
    if parts == [] {
      assert PartTokens(parts) + rest == rest;
    } else {
      var part, tail := parts[0], parts[1..];
      PartsReturn(tail, rest);
      PartStep(PartTokens(tail) + rest, part, tail, rest);
      Assoc([Dot, if part.Digits? then Number(part.text) else Star], PartTokens(tail), rest);
      assert parts == [part] + tail;
    }
  }

  lemma PlainReturns(t: Token, rest: seq<Token>)
    requires PlainLiteral(t) && EndsLeaf(rest)
    ensures ParseValue([t] + rest) == Ok(Lit(Plain(t)), rest)
  {
    hide ParseParts, ParseId;
    Cons(t, rest);
  }

  lemma NumberPathReturns(first: string, parts: seq<NumberPart>, rest: seq<Token>)
    requires parts != [] && EndsLeaf(rest)
    ensures ParseValue([Number(first)] + (PartTokens(parts) + rest)) == Ok(Lit(NumberPath(first, parts)), rest)
  {
    PartsReturn(parts, rest);
    assert (PartTokens(parts) + rest)[0] == Dot;
    hide ParseParts, PartTokens, ParseId;
    Cons(Number(first), PartTokens(parts) + rest);
  }

  lemma PathStarts(id: QualifiedIdentifier, rest: seq<Token>)
    requires id.rest != [] || id.first.indices != []
    ensures StartsPath(IdTokens(id) + rest)
  {
    var toks := IdTokens(id) + rest;
    assert toks[0] == Ident(id.first.name);
    assert toks[1] == if id.first.indices != [] then LBracket else Dot;
  }

  lemma ValueReturns(v: Value, rest: seq<Token>)
    requires ValueOk(v) && EndsLeaf(rest)
    ensures ParseValue(ValueTokens(v) + rest) == Ok(v, rest)
  {
    match v
    case Lit(Plain(t)) =>
      PlainReturns(t, rest);
    case Lit(NumberPath(first, parts)) =>
      hide ParseValue, PartTokens;
      NumberPathReturns(first, parts, rest);
      Assoc([Number(first)], PartTokens(parts), rest);
    case Qual(id) =>
      hide ParseId, IdTokens;
      IdReturns(id, rest);
      PathStarts(id, rest);
  }

  lemma ExpStep(toks: seq<Token>, id: QualifiedIdentifier, op: string, more: seq<Token>, v: Value, rest: seq<Token>)
    requires ParseId(toks) == Ok(id, [Operator(op)] + more) && ParseValue(more) == Ok(v, rest)
    ensures ParseExp([SelStart] + toks) == Ok(Exp(id, op, v), rest)
  {
    hide ParseId, ParseValue;
    Cons(SelStart, toks);
    Cons(Operator(op), more);
  }

  lemma ExpReturns(e: Exp, rest: seq<Token>)
    requires ValueOk(e.value) && EndsLeaf(rest)
    ensures ParseExp(ExpTokens(e) + rest) == Ok(e, rest)
  {
    hide ParseExp, ParseId, ParseValue, IdTokens, ValueTokens, ValueOk;
    var more := ValueTokens(e.value) + rest;
    var tail := [Operator(e.op)] + more;
    Cons(Operator(e.op), more);
    IdReturns(e.selector, tail);
    ValueReturns(e.value, rest);
    ExpStep(IdTokens(e.selector) + tail, e.selector, e.op, more, e.value, rest);
    Assoc([SelStart] + IdTokens(e.selector) + [Operator(e.op)], ValueTokens(e.value), rest);
    Assoc([SelStart] + IdTokens(e.selector), [Operator(e.op)], more);
    Assoc([SelStart], IdTokens(e.selector), tail);
  }

  // ---- Trees come back ----

  lemma {:induction false} ShapeWeakens(t: Tree, p: nat, q: nat)
    requires Shape(t, p) && q <= p
    ensures Shape(t, q)
  {
  }

  lemma LeafReturns(e: Exp, p: nat, rest: seq<Token>)
    requires ValueOk(e.value) && EndsLeaf(rest)
    ensures Parse(p, ExpTokens(e) + rest) == Climb(p, Leaf(e), rest)
  {
    ExpReturns(e, rest);
    assert (ExpTokens(e) + rest)[0] == SelStart;
    hide ParseExp, ExpTokens, Climb;
  }

  lemma ParensReturn(p: nat, inner: Tree, toks: seq<Token>, rest: seq<Token>)
    requires Parse(0, toks) == Ok(inner, [RParen] + rest)
    ensures Parse(p, [LParen] + toks) == Climb(p, Parens(inner), rest)
  {
    hide ParseExp, Climb;
    Cons(LParen, toks);
    Cons(RParen, rest);
  }

  /** Where no operator goes on, the loop ends. */
  lemma ClimbEnds(p: nat, t: Tree, rest: seq<Token>)
    requires !GoesOn(p, rest)
    ensures Climb(p, t, rest) == Ok(t, rest)
  {
    hide Parse;
  }

  /** Reading a tree leaves the parser in its loop, with the tree as left operand. */
  lemma {:induction false} TreeReturns(t: Tree, p: nat, rest: seq<Token>)
    requires Shape(t, p) && EndsLeaf(rest)
    requires StartsWith(rest, And) ==> Shape(t, 3)
    ensures Parse(p, TreeTokens(t) + rest) == Climb(p, t, rest)
    decreases t
  {
    hide Parse, Climb, ExpTokens;
    match t
    case Leaf(e) =>
      LeafReturns(e, p, rest);
    case Parens(inner) =>
      var more := [RParen] + rest;
      Cons(RParen, rest);
      TreeReturns(inner, 0, more);
      ClimbEnds(0, inner, more);
      ParensReturn(p, inner, TreeTokens(inner) + more, rest);
      Assoc([LParen] + TreeTokens(inner), [RParen], rest);
      Assoc([LParen], TreeTokens(inner), more);
    case AndTree(l, r) =>
      ShapeWeakens(l, 3, p);
      OperatorReturns(p, l, And, r, rest, t);
    case OrTree(l, r) =>
      ShapeWeakens(l, 2, p);
      OperatorReturns(p, l, Or, r, rest, t);
  }

  lemma ClimbStep(p: nat, l: Tree, op: Token, toks: seq<Token>, r: Tree, rest: seq<Token>)
    requires GoesOn(p, [op] + toks) && Parse(if op.And? then 4 else 3, toks) == Ok(r, rest)
    ensures Climb(p, l, [op] + toks) == Climb(p, if op.And? then AndTree(l, r) else OrTree(l, r), rest)
  {
    hide Parse;
    Cons(op, toks);
  }

  lemma {:induction false} OperatorReturns(p: nat, l: Tree, op: Token, r: Tree, rest: seq<Token>, t: Tree)
    requires (op.And? && t == AndTree(l, r) && p <= 3) || (op.Or? && t == OrTree(l, r) && p <= 2)
    requires Shape(l, p) && (op.And? ==> Shape(l, 3)) && Shape(r, if op.And? then 4 else 3) && EndsLeaf(rest)
    requires StartsWith(rest, And) ==> op.And?
    ensures Parse(p, TreeTokens(t) + rest) == Climb(p, t, rest)
    decreases t, 0
  {
    var q := if op.And? then 4 else 3;
    var tail := TreeTokens(r) + rest;
    ShapeWeakens(r, q, 3);
    assert TreeTokens(t) == TreeTokens(l) + [op] + TreeTokens(r);
    hide Parse, Climb, TreeTokens, Shape;
    Cons(op, tail);
    TreeReturns(l, p, [op] + tail);
    TreeReturns(r, q, rest);
    ClimbEnds(q, r, rest);
    ClimbStep(p, l, op, tail, r, rest);
    Assoc(TreeTokens(l) + [op], TreeTokens(r), rest);
    Assoc(TreeTokens(l), [op], tail);
  }

  lemma ParseReturns(t: Tree, extra: seq<Token>)
    requires Shape(t, 0)
    ensures ParseFilter([LCurly] + TreeTokens(t) + [RCurly] + extra) == Some(t)
  {
    hide Parse, Climb, TreeTokens, Shape;
    var rest := [RCurly] + extra;
    Cons(RCurly, extra);
    TreeReturns(t, 0, rest);
    ClimbEnds(0, t, rest);
    Cons(LCurly, TreeTokens(t) + rest);
    Assoc([LCurly] + TreeTokens(t), [RCurly], extra);
    Assoc([LCurly], TreeTokens(t), rest);
  }

  // ---- Nothing else is accepted ----

  lemma IndexUnread(toks: seq<Token>, x: string, indices: seq<string>, rest: seq<Token>)
    requires |toks| >= 3 && toks[0] == LBracket && toks[1] == Number(x) && toks[2] == RBracket
    requires toks[3..] == IndexTokens(indices) + rest
    ensures toks == IndexTokens([x] + indices) + rest
  {
    assert ([x] + indices)[1..] == indices;
    assert IndexTokens([x] + indices) == [LBracket, Number(x), RBracket] + IndexTokens(indices);
    hide IndexTokens;
    assert toks == [LBracket, Number(x), RBracket] + toks[3..];
    Assoc([LBracket, Number(x), RBracket], IndexTokens(indices), rest);
  }

  lemma {:induction false} IndicesSound(toks: seq<Token>)
    ensures var r := ParseIndices(toks);
            r.Ok? ==> toks == IndexTokens(r.value) + r.rest && !StartsWith(r.rest, LBracket)
    decreases |toks|
  {
    if |toks| >= 3 && toks[0].LBracket? && toks[1].Number? && toks[2].RBracket? {
      IndicesSound(toks[3..]);
      var r := ParseIndices(toks[3..]);
      if r.Ok? {
        assert ParseIndices(toks) == Ok([toks[1].text] + r.value, r.rest);
        hide ParseIndices;
        IndexUnread(toks, toks[1].text, r.value, r.rest);
      }
    } else {
      assert IndexTokens([]) + toks == toks;
    }
  }

  lemma MemberSound(toks: seq<Token>)
    ensures var r := ParseMember(toks);
            r.Ok? ==> toks == MemberTokens(r.value) + r.rest && !StartsWith(r.rest, LBracket)
  {
    hide ParseIndices, IndexTokens;
    if toks != [] && toks[0].Ident? {
      IndicesSound(toks[1..]);
      var r := ParseIndices(toks[1..]);
      if r.Ok? {
        Uncons(toks, toks[0], IndexTokens(r.value), r.rest);
      }
    }
  }

  lemma {:induction false} RestSound(toks: seq<Token>)
    requires !StartsWith(toks, LBracket)
    ensures var r := ParseRest(toks); r.Ok? ==> toks == RestTokens(r.value) + r.rest && EndsLeaf(r.rest)
    decreases |toks|
  {
    if toks != [] && toks[0].Dot? && ParseMember(toks[1..]).Ok? {
      var m := ParseMember(toks[1..]);
      var r := ParseRest(m.rest);
      assert r.Ok? ==> ParseRest(toks) == Ok([m.value] + r.value, r.rest);
      assert r.Fail? ==> ParseRest(toks) == Fail;
      hide ParseMember, ParseRest, RestTokens, MemberTokens;
      MemberSound(toks[1..]);
      RestSound(m.rest);
      if r.Ok? {
        RestUnread(toks, m.value, m.rest, r.value, r.rest);
      }
    } else {
      assert RestTokens([]) + toks == toks;
    }
  }

  lemma RestUnread(toks: seq<Token>, m: Member, more: seq<Token>, members: seq<Member>, rest: seq<Token>)
    requires toks != [] && toks[0] == Dot && toks[1..] == MemberTokens(m) + more && more == RestTokens(members) + rest
    ensures toks == RestTokens([m] + members) + rest
  {
    assert ([m] + members)[1..] == members;
    assert RestTokens([m] + members) == [Dot] + MemberTokens(m) + RestTokens(members);
    hide RestTokens, MemberTokens;
    Uncons(toks, Dot, MemberTokens(m), more);
    Assoc([Dot] + MemberTokens(m), RestTokens(members), rest);
  }

  lemma IdSound(toks: seq<Token>)
    ensures var r := ParseId(toks); r.Ok? ==> toks == IdTokens(r.value) + r.rest && EndsLeaf(r.rest)
  {
    hide ParseMember, ParseRest, MemberTokens, RestTokens;
    MemberSound(toks);
    var m := ParseMember(toks);
    if m.Ok? {
      RestSound(m.rest);
      var r := ParseRest(m.rest);
      if r.Ok? {
        Assoc(MemberTokens(m.value), RestTokens(r.value), r.rest);
      }
    }
  }

  lemma {:induction false} PartsSound(toks: seq<Token>)
    ensures var r := ParseParts(toks); r.Ok? ==> toks == PartTokens(r.value) + r.rest && !StartsWith(r.rest, Dot)
    decreases |toks|
  {
    if |toks| >= 2 && toks[0].Dot? && (toks[1].Number? || toks[1].Star?) {
      PartsSound(toks[2..]);
      var r := ParseParts(toks[2..]);
      if r.Ok? {
        var part := if toks[1].Number? then Digits(toks[1].text) else Wildcard;
        assert ParseParts(toks) == Ok([part] + r.value, r.rest);
        hide ParseParts;
        PartsUnread(toks, part, r.value, r.rest);
      }
    } else {
      assert PartTokens([]) + toks == toks;
    }
  }

  lemma PartsUnread(toks: seq<Token>, part: NumberPart, parts: seq<NumberPart>, rest: seq<Token>)
    requires |toks| >= 2 && toks[0] == Dot && toks[1] == (if part.Digits? then Number(part.text) else Star)
    requires toks[2..] == PartTokens(parts) + rest
    ensures toks == PartTokens([part] + parts) + rest
  {
    assert ([part] + parts)[1..] == parts;
    assert PartTokens([part] + parts) == [Dot, toks[1]] + PartTokens(parts);
    hide PartTokens;
    assert toks == [Dot, toks[1]] + toks[2..];
    Assoc([Dot, toks[1]], PartTokens(parts), rest);
  }

  lemma ValueSound(toks: seq<Token>)
    ensures var r := ParseValue(toks); r.Ok? ==> toks == ValueTokens(r.value) + r.rest && ValueOk(r.value)
  {
    hide ParseId, IdTokens, ParseParts;
    if StartsPath(toks) {
      IdSound(toks);
      PathIsLong(toks);
    } else if toks != [] && PlainLiteral(toks[0]) {
      assert toks == [toks[0]] + toks[1..];
      if toks[0].Number? && |toks| > 1 && toks[1].Dot? {
        PartsSound(toks[1..]);
        DottedIsLong(toks[1..]);
        var r := ParseParts(toks[1..]);
        if r.Ok? {
          Uncons(toks, toks[0], PartTokens(r.value), r.rest);
        }
      }
    }
  }

  lemma DottedIsLong(toks: seq<Token>)
    requires StartsWith(toks, Dot)
    ensures ParseParts(toks).Ok? ==> ParseParts(toks).value != []
  {
  }

  lemma PathIsLong(toks: seq<Token>)
    requires StartsPath(toks)
    ensures var r := ParseId(toks); r.Ok? ==> r.value.rest != [] || r.value.first.indices != []
  {
  }

  lemma ExpSound(toks: seq<Token>)
    ensures var r := ParseExp(toks); r.Ok? ==> toks == ExpTokens(r.value) + r.rest && ValueOk(r.value.value)
  {
    hide ParseId, ParseValue, IdTokens, ValueTokens, ValueOk, ExpTokens;
    if toks != [] && toks[0].SelStart? {
      IdSound(toks[1..]);
      var id := ParseId(toks[1..]);
      if id.Ok? && id.rest != [] && id.rest[0].Operator? {
        ValueSound(id.rest[1..]);
        var v := ParseValue(id.rest[1..]);
        if v.Ok? {
          ExpUnread(toks, id.value, id.rest, v.value, v.rest);
        }
      }
    }
  }

  lemma ExpUnread(toks: seq<Token>, id: QualifiedIdentifier, more: seq<Token>, v: Value, rest: seq<Token>)
    requires toks != [] && toks[0] == SelStart && toks[1..] == IdTokens(id) + more
    requires more != [] && more[0].Operator? && more[1..] == ValueTokens(v) + rest
    ensures toks == ExpTokens(Exp(id, more[0].text, v)) + rest
  {
    hide IdTokens, ValueTokens;
    var op := [more[0]];
    Uncons(toks, SelStart, IdTokens(id), more);
    Uncons(more, more[0], ValueTokens(v), rest);
    Assoc(op, ValueTokens(v), rest);
    Assoc([SelStart] + IdTokens(id), op, ValueTokens(v) + rest);
    Assoc([SelStart] + IdTokens(id) + op, ValueTokens(v), rest);
  }

  lemma {:induction false} ParseSound(p: nat, toks: seq<Token>)
    requires p <= 4
    ensures var r := Parse(p, toks); r.Ok? ==> toks == TreeTokens(r.value) + r.rest && Shape(r.value, p) && !GoesOn(p, r.rest)
    decreases |toks|, 1
  {
    hide ParsePrimary, Climb, TreeTokens, Shape;
    PrimarySound(toks, p);
    PrimarySound(toks, 3);
    var t := ParsePrimary(toks);
    if t.Ok? {
      ClimbSound(p, t.value, t.rest);
    }
  }

  lemma {:induction false} PrimarySound(toks: seq<Token>, q: nat)
    ensures var r := ParsePrimary(toks); r.Ok? ==> toks == TreeTokens(r.value) + r.rest && Shape(r.value, q)
    decreases |toks|, 0
  {
    hide Parse, ParseExp, ExpTokens;
    if toks != [] {
      if toks[0].LParen? {
        ParseSound(0, toks[1..]);
        var r := Parse(0, toks[1..]);
        if r.Ok? && r.rest != [] && r.rest[0].RParen? {
          ParensUnread(toks, r.value, r.rest);
        }
      } else {
        ExpSound(toks);
      }
    }
  }

  lemma ParensUnread(toks: seq<Token>, inner: Tree, more: seq<Token>)
    requires toks != [] && toks[0] == LParen && toks[1..] == TreeTokens(inner) + more && more != [] && more[0] == RParen
    ensures toks == TreeTokens(Parens(inner)) + more[1..]
  {
    var body := TreeTokens(inner);
    assert TreeTokens(Parens(inner)) == [LParen] + body + [RParen];
    hide TreeTokens;
    Uncons(toks, LParen, body, more);
    assert more == [RParen] + more[1..];
    Assoc([LParen] + body, [RParen], more[1..]);
  }

  lemma {:induction false} ClimbSound(p: nat, lhs: Tree, toks: seq<Token>)
    requires p <= 4 && Shape(lhs, p) && (StartsWith(toks, And) ==> Shape(lhs, 3))
    ensures var r := Climb(p, lhs, toks);
            r.Ok? ==> TreeTokens(lhs) + toks == TreeTokens(r.value) + r.rest && Shape(r.value, p) && !GoesOn(p, r.rest)
    decreases |toks|, 0
  {
    hide Parse, TreeTokens, Shape;
    if GoesOn(p, toks) {
      var q := if toks[0].And? then 4 else 3;
      ParseSound(q, toks[1..]);
      var rhs := Parse(q, toks[1..]);
      if rhs.Ok? {
        var t := if toks[0].And? then AndTree(lhs, rhs.value) else OrTree(lhs, rhs.value);
        assert Climb(p, lhs, toks) == Climb(p, t, rhs.rest);
        hide Climb;
        TreeUnread(lhs, toks, rhs.value, rhs.rest, t);
        OperandShape(p, lhs, toks[0], rhs.value, t);
        ClimbSound(p, t, rhs.rest);
      }
    }
  }

  lemma TreeUnread(lhs: Tree, toks: seq<Token>, rhs: Tree, rest: seq<Token>, t: Tree)
    requires toks != [] && toks[1..] == TreeTokens(rhs) + rest
    requires (toks[0] == And && t == AndTree(lhs, rhs)) || (toks[0] == Or && t == OrTree(lhs, rhs))
    ensures TreeTokens(lhs) + toks == TreeTokens(t) + rest
  {
    var l, r := TreeTokens(lhs), TreeTokens(rhs);
    assert TreeTokens(t) == l + [toks[0]] + r;
    hide TreeTokens;
    Uncons(toks, toks[0], r, rest);
    Assoc([toks[0]], r, rest);
    Assoc(l, [toks[0]], r + rest);
    Assoc(l + [toks[0]], r, rest);
  }

  lemma OperandShape(p: nat, lhs: Tree, op: Token, rhs: Tree, t: Tree)
    requires Shape(lhs, p) && (op == And ==> Shape(lhs, 3))
    requires (op == And && t == AndTree(lhs, rhs) && p <= 3 && Shape(rhs, 4)) || (op == Or && t == OrTree(lhs, rhs) && p <= 2 && Shape(rhs, 3))
    ensures Shape(t, p) && (op == And ==> Shape(t, 3))
  {
    assert Shape(lhs, 0) ==> Shape(lhs, 2);
  }

  /** The parser accepts a token list exactly when it begins with a braced grammatical tree, and
      then returns that tree: no token list can be read in two ways. */
  lemma ParserIsExact(toks: seq<Token>, t: Tree)
    ensures ParseFilter(toks) == Some(t) <==>
            Shape(t, 0) && exists extra :: toks == [LCurly] + TreeTokens(t) + [RCurly] + extra
  {
    hide ParseFilter, TreeTokens, Shape;
    if ParseFilter(toks) == Some(t) {
      AcceptedIsTree(toks, t);
    }
    if Shape(t, 0) && exists extra :: toks == [LCurly] + TreeTokens(t) + [RCurly] + extra {
      var extra :| toks == [LCurly] + TreeTokens(t) + [RCurly] + extra;
      ParseReturns(t, extra);
    }
  }

  lemma AcceptedIsTree(toks: seq<Token>, t: Tree)
    requires ParseFilter(toks) == Some(t)
    ensures Shape(t, 0) && exists extra :: toks == [LCurly] + TreeTokens(t) + [RCurly] + extra
  {
    hide Parse, TreeTokens, Shape;
    ParseSound(0, toks[1..]);
    var more := Parse(0, toks[1..]).rest;
    Uncons(toks, LCurly, TreeTokens(t), more);
    assert more == [RCurly] + more[1..];
    Assoc([LCurly] + TreeTokens(t), [RCurly], more[1..]);
  }

  // ---- Filters ----

  /** What a filter text is resolved to; a syntax error leaves the text as it is. */
  function ResolveFilter(toks: seq<Token>): Option<Filter> {
    match ParseFilter(toks)
    case None => None
    case Some(t) => Some(Visit(t))
  }

  /** The parse tree of an expression with the parentheses it needs at strength `p`. */
  function ToTree(e: Expr, p: nat): Tree
    decreases e
  {
    var bare := match e
      case Sel(x) => Leaf(x)
      case Both(l, r) => AndTree(ToTree(l, 3), ToTree(r, 4))
      case Either(l, r) => OrTree(ToTree(l, 2), ToTree(r, 3));
    if p > Strength(e) then Parens(bare) else bare
  }

  lemma {:induction false} PrintedTree(e: Expr, p: nat)
    requires ExprOk(e) && p <= 4
    ensures Print(e, p) == TreeTokens(ToTree(e, p))
    ensures Shape(ToTree(e, p), p) && Parenthesized(ToTree(e, p), e)
    decreases e
  {
    hide ExpTokens, ValueOk;
    match e
    case Sel(_) =>
    case Both(l, r) =>
      PrintedTree(l, 3);
      PrintedTree(r, 4);
    case Either(l, r) =>
      PrintedTree(l, 2);
      PrintedTree(r, 3);
  }

  lemma {:induction false} ParensMeanNothing(t: Tree, e: Expr)
    requires Parenthesized(t, e)
    ensures Visit(t) == Meaning(e)
    decreases t
  {
    match t
    case Leaf(_) =>
    case Parens(inner) => ParensMeanNothing(inner, e);
    case AndTree(l, r) =>
      ParensMeanNothing(l, e.left);
      ParensMeanNothing(r, e.right);
    case OrTree(l, r) =>
      ParensMeanNothing(l, e.left);
      ParensMeanNothing(r, e.right);
  }

  /** Parentheses around any subexpressions of an expression, as long as the needed ones are
      there, do not change what is read. */
  lemma ExtraParensChangeNothing(t: Tree, e: Expr, extra: seq<Token>)
    requires Shape(t, 0) && Parenthesized(t, e)
    ensures ResolveFilter([LCurly] + TreeTokens(t) + [RCurly] + extra) == Some(Meaning(e))
  {
    ParseReturns(t, extra);
    ParensMeanNothing(t, e);
  }

  /** Writing an expression with the parentheses it needs and reading it back gives its meaning. */
  lemma PrintedFilterReturns(e: Expr, extra: seq<Token>)
    requires ExprOk(e)
    ensures ResolveFilter([LCurly] + Print(e, 0) + [RCurly] + extra) == Some(Meaning(e))
  {
    PrintedTree(e, 0);
    ExtraParensChangeNothing(ToTree(e, 0), e, extra);
  }

  /** No text that is read as the same expression is shorter than the printed one. */
  lemma {:induction false} PrintedIsShortest(t: Tree, e: Expr, p: nat)
    requires Shape(t, p) && Parenthesized(t, e) && p <= 4
    ensures |Print(e, p)| <= |TreeTokens(t)|
    decreases t
  {
    match t
    case Leaf(_) =>
    case Parens(inner) => PrintedIsShortest(inner, e, 0);
    case AndTree(l, r) =>
      PrintedIsShortest(l, e.left, 3);
      PrintedIsShortest(r, e.right, 4);
    case OrTree(l, r) =>
      PrintedIsShortest(l, e.left, 2);
      PrintedIsShortest(r, e.right, 3);
  }

  /** Whatever is accepted, the leaves of the filter say what stands between the parentheses and logical operators. */
  lemma ResolvedSays(toks: seq<Token>)
    ensures
      var f := ResolveFilter(toks);
      f.Some? ==> exists body, extra :: toks == [LCurly] + body + [RCurly] + extra && SaysAll(Leaves(f.value), Words(body, []))
  {
    hide ParseFilter, TreeTokens, Shape, Visit, Words, SaysAll;
    if ResolveFilter(toks).Some? {
      var t := ParseFilter(toks).value;
      AcceptedIsTree(toks, t);
      TreeSays(t);
    }
  }

  /** A leaf with one token behind its operator: it is accepted exactly if that is a literal, whose spelling becomes
      the value. */
  lemma OneTokenValue(name: string, op: string, t: Token)
    ensures
      ResolveFilter([LCurly, SelStart, Ident(name), Operator(op), t, RCurly]) ==
      match t
      case Number(text) => Some(FilterSelector("$." + name, op, Some(text)))
      case Str(text) => Some(FilterSelector("$." + name, op, Some(text)))
      case Ident(text) => Some(FilterSelector("$." + name, op, Some(text)))
      case Null => Some(FilterSelector("$." + name, op, Some("NULL")))
      case Exists => Some(FilterSelector("$." + name, op, Some("EXISTS")))
      case True => Some(FilterSelector("$." + name, op, Some("TRUE")))
      case False => Some(FilterSelector("$." + name, op, Some("FALSE")))
      case _ => None
  {
    var toks := [LCurly, SelStart, Ident(name), Operator(op), t, RCurly];
    var id := QualifiedIdentifier(Member(name, []), []);
    assert IdTokens(id) == [Ident(name)];
    if PlainLiteral(t) {
      var e := Exp(id, op, Lit(Plain(t)));
      assert ExpTokens(e) == [SelStart, Ident(name), Operator(op), t];
      assert toks == [LCurly] + Print(Sel(e), 0) + [RCurly] + [];
      PrintedFilterReturns(Sel(e), []);
      OneText(t);
      assert Texts([SelStart, Ident(name)]) == "$." + name by {
        assert [SelStart, Ident(name)][1..] == [Ident(name)];
        OneText(Ident(name));
      }
    } else {
      NoLiteral(name, op, t);
    }
  }

  /** A leaf with members, an index, a number path and a wildcard: all of it is spelled in the selector and the value. */
  lemma SpelledOut(a: string, i: string, b: string, op: string, n: string, m: string)
    ensures
      ResolveFilter([LCurly, SelStart, Ident(a), LBracket, Number(i), RBracket, Dot, Ident(b), Operator(op),
                     Number(n), Dot, Star, Dot, Number(m), RCurly]) ==
      Some(FilterSelector("$." + a + "[" + i + "]." + b, op, Some(n + ".*." + m)))
  {
    var id := QualifiedIdentifier(Member(a, [i]), [Member(b, [])]);
    var e := Exp(id, op, Lit(NumberPath(n, [Wildcard, Digits(m)])));
    IdSpelled(a, i, b);
    PathSpelled(n, m);
    assert [LCurly] + Print(Sel(e), 0) + [RCurly] + [] ==
           [LCurly, SelStart, Ident(a), LBracket, Number(i), RBracket, Dot, Ident(b), Operator(op),
            Number(n), Dot, Star, Dot, Number(m), RCurly];
    hide Texts, IdTokens, PartTokens;
    PrintedFilterReturns(Sel(e), []);
  }

  lemma IdSpelled(a: string, i: string, b: string)
    ensures
      var id := QualifiedIdentifier(Member(a, [i]), [Member(b, [])]);
      && IdTokens(id) == [Ident(a), LBracket, Number(i), RBracket, Dot, Ident(b)]
      && Texts([SelStart] + IdTokens(id)) == "$." + a + "[" + i + "]." + b
  {
    IdTokensAre(a, i, b);
    hide IdTokens;
    var head, index, rest := [SelStart, Ident(a)], [LBracket, Number(i), RBracket], [Dot, Ident(b)];
    IndexSpelled(i);
    TwoTexts(SelStart, Ident(a));
    TwoTexts(Dot, Ident(b));
    hide Texts;
    TextsConcat(head + index, rest);
    TextsConcat(head, index);
    assert [SelStart] + [Ident(a), LBracket, Number(i), RBracket, Dot, Ident(b)] == head + index + rest;
    assert "]" + "." == "].";
  }

  lemma IndexSpelled(i: string)
    ensures Texts([LBracket, Number(i), RBracket]) == "[" + i + "]"
  {
    TwoTexts(LBracket, Number(i));
    OneText(RBracket);
    hide Texts;
    TextsConcat([LBracket, Number(i)], [RBracket]);
    assert [LBracket, Number(i), RBracket] == [LBracket, Number(i)] + [RBracket];
  }

  lemma IdTokensAre(a: string, i: string, b: string)
    ensures
      var id := QualifiedIdentifier(Member(a, [i]), [Member(b, [])]);
      IdTokens(id) == [Ident(a), LBracket, Number(i), RBracket, Dot, Ident(b)]
  {
    var id := QualifiedIdentifier(Member(a, [i]), [Member(b, [])]);
    IndexTokensOne(i);
    MemberTokensOne(b);
    hide IndexTokens;
    assert id.rest[1..] == [];
    assert RestTokens([]) == [] && RestTokens(id.rest) == [Dot] + MemberTokens(Member(b, [])) + [];
  }

  lemma IndexTokensOne(i: string)
    ensures IndexTokens([i]) == [LBracket, Number(i), RBracket]
  {
    assert [i][1..] == [] && IndexTokens([]) == [];
  }

  lemma MemberTokensOne(b: string)
    ensures MemberTokens(Member(b, [])) == [Ident(b)]
  {
  }

  lemma PathSpelled(n: string, m: string)
    ensures
      var v := Lit(NumberPath(n, [Wildcard, Digits(m)]));
      ValueTokens(v) == [Number(n), Dot, Star, Dot, Number(m)] && Texts(ValueTokens(v)) == n + ".*." + m
  {
    PartTokensAre(m);
    TwoTexts(Number(n), Dot);
    TwoTexts(Star, Dot);
    OneText(Number(m));
    hide Texts, PartTokens;
    TextsConcat([Number(n), Dot] + [Star, Dot], [Number(m)]);
    TextsConcat([Number(n), Dot], [Star, Dot]);
    assert [Number(n)] + [Dot, Star, Dot, Number(m)] == [Number(n), Dot] + [Star, Dot] + [Number(m)];
  }

  lemma PartTokensAre(m: string)
    ensures PartTokens([Wildcard, Digits(m)]) == [Dot, Star, Dot, Number(m)]
  {
    assert [Wildcard, Digits(m)][1..] == [Digits(m)] && [Digits(m)][1..] == [];
    assert PartTokens([]) == [] && PartTokens([Digits(m)]) == [Dot, Number(m)] + [];
    assert PartTokens([Wildcard, Digits(m)]) == [Dot, Star] + PartTokens([Digits(m)]);
  }

  lemma TwoTexts(a: Token, b: Token)
    ensures Texts([a, b]) == Text(a) + Text(b)
  {
    assert [a, b][1..] == [b];
    OneText(b);
  }

  lemma OneText(t: Token)
    ensures Texts([t]) == Text(t)
  {
    assert [t][1..] == [];
  }

  lemma NoLiteral(name: string, op: string, t: Token)
    requires !PlainLiteral(t)
    ensures ParseFilter([LCurly, SelStart, Ident(name), Operator(op), t, RCurly]) == None
  {
    var value := [t, RCurly];
    assert ParseValue(value).Fail?;
    var more := [Operator(op), t, RCurly];
    assert more[1..] == value;
    var sel := [Ident(name)] + more;
    assert sel[1..] == more;
    assert ParseId(sel) == Ok(QualifiedIdentifier(Member(name, []), []), more);
    var exp := [SelStart] + sel;
    assert exp[1..] == sel;
    assert ParseExp(exp).Fail?;
    assert ParsePrimary(exp).Fail?;
    assert Parse(0, exp).Fail?;
    var toks := [LCurly, SelStart, Ident(name), Operator(op), t, RCurly];
    assert toks[1..] == exp;
  }

  /** The text of a filter field, resolved by parsing and visiting it. */
  method ResolveJSONFilter(toks: seq<Token>) returns (filter: Option<Filter>)
    ensures filter == ResolveFilter(toks)
    ensures forall e, extra | ExprOk(e) && toks == [LCurly] + Print(e, 0) + [RCurly] + extra :: filter == Some(Meaning(e))
    ensures filter.Some? ==>
              exists body, extra :: toks == [LCurly] + body + [RCurly] + extra && SaysAll(Leaves(filter.value), Words(body, []))
  {
    ResolvedSays(toks);
    var parser := new JSONFilterParser(toks);
    var tree := parser.Dotnotation();
    filter := if tree.None? then None else Some(Visit(tree.value));
    forall e, extra | ExprOk(e) && toks == [LCurly] + Print(e, 0) + [RCurly] + extra ensures filter == Some(Meaning(e)) {
      PrintedFilterReturns(e, extra);
    }
  }
}
