/** The recursive-descent parser with precedence climbing, as a function on token lists and as
    the imperative parser that consumes a token stream. */
module FilterParser {
  import opened FilterSyntax
  import opened Parsing
  import opened Wrappers

  // ---- Leaves ----

  function ParseIndices(toks: seq<Token>): (r: Parsed<seq<string>, Token>)
    ensures r.Ok? ==> |r.rest| <= |toks|
    decreases |toks|
  {
    if toks == [] || !toks[0].LBracket? then Ok([], toks)
    else if |toks| < 3 || !toks[1].Number? || !toks[2].RBracket? then Fail
    else
      match ParseIndices(toks[3..])
      case Fail => Fail
      case Ok(indices, rest) => Ok([toks[1].text] + indices, rest)
  }

  function ParseMember(toks: seq<Token>): (r: Parsed<Member, Token>)
    ensures r.Ok? ==> |r.rest| < |toks|
  {
    if toks == [] || !toks[0].Ident? then Fail
    else
      match ParseIndices(toks[1..])
      case Fail => Fail
      case Ok(indices, rest) => Ok(Member(toks[0].text, indices), rest)
  }

  function ParseRest(toks: seq<Token>): (r: Parsed<seq<Member>, Token>)
    ensures r.Ok? ==> |r.rest| <= |toks|
    decreases |toks|
  {
    if toks == [] || !toks[0].Dot? then Ok([], toks)
    else
      match ParseMember(toks[1..])
      case Fail => Fail
      case Ok(m, more) =>
        match ParseRest(more)
        case Fail => Fail
        case Ok(members, rest) => Ok([m] + members, rest)
  }

  function ParseId(toks: seq<Token>): (r: Parsed<QualifiedIdentifier, Token>)
    ensures r.Ok? ==> |r.rest| < |toks|
  {
    match ParseMember(toks)
    case Fail => Fail
    case Ok(first, more) =>
      match ParseRest(more)
      case Fail => Fail
      case Ok(members, rest) => Ok(QualifiedIdentifier(first, members), rest)
  }

  function ParseParts(toks: seq<Token>): (r: Parsed<seq<NumberPart>, Token>)
    ensures r.Ok? ==> |r.rest| <= |toks|
    decreases |toks|
  {
    if toks == [] || !toks[0].Dot? then Ok([], toks)
    else if |toks| < 2 || !(toks[1].Number? || toks[1].Star?) then Fail
    else
      match ParseParts(toks[2..])
      case Fail => Fail
      case Ok(parts, rest) => Ok([if toks[1].Number? then Digits(toks[1].text) else Wildcard] + parts, rest)
  }

  function ParseLiteral(toks: seq<Token>): (r: Parsed<Literal, Token>)
    ensures r.Ok? ==> |r.rest| < |toks|
  {
    if toks == [] || !PlainLiteral(toks[0]) then Fail
    else if toks[0].Number? && |toks| > 1 && toks[1].Dot? then
      match ParseParts(toks[1..])
      case Fail => Fail
      case Ok(parts, rest) => Ok(NumberPath(toks[0].text, parts), rest)
    else Ok(Plain(toks[0]), toks[1..])
  }

  /** The lookahead between the two kinds of value: only an identifier that goes on is a path. */
  predicate StartsPath(toks: seq<Token>) {
    |toks| > 1 && toks[0].Ident? && (toks[1].Dot? || toks[1].LBracket?)
  }

  function ParseValue(toks: seq<Token>): (r: Parsed<Value, Token>)
    ensures r.Ok? ==> |r.rest| < |toks|
  {
    if StartsPath(toks) then
      match ParseId(toks)
      case Fail => Fail
      case Ok(id, rest) => Ok(Qual(id), rest)
    else
      match ParseLiteral(toks)
      case Fail => Fail
      case Ok(l, rest) => Ok(Lit(l), rest)
  }

  function ParseExp(toks: seq<Token>): (r: Parsed<Exp, Token>)
    ensures r.Ok? ==> |r.rest| < |toks|
  {
    if toks == [] || !toks[0].SelStart? then Fail
    else
      match ParseId(toks[1..])
      case Fail => Fail
      case Ok(selector, more) =>
        if more == [] || !more[0].Operator? then Fail
        else
          match ParseValue(more[1..])
          case Fail => Fail
          case Ok(value, rest) => Ok(Exp(selector, more[0].text, value), rest)
  }

  // ---- Expressions ----

  function Parse(p: nat, toks: seq<Token>): (r: Parsed<Tree, Token>)
    ensures r.Ok? ==> |r.rest| < |toks|
    decreases |toks|, 1
  {
    match ParsePrimary(toks)
    case Fail => Fail
    case Ok(t, more) => Climb(p, t, more)
  }

  function ParsePrimary(toks: seq<Token>): (r: Parsed<Tree, Token>)
    ensures r.Ok? ==> |r.rest| < |toks|
    decreases |toks|, 0
  {
    if toks == [] then Fail
    else if toks[0].LParen? then
      match Parse(0, toks[1..])
      case Fail => Fail
      case Ok(t, more) => if more == [] || !more[0].RParen? then Fail else Ok(Parens(t), more[1..])
    else
      match ParseExp(toks)
      case Fail => Fail
      case Ok(e, rest) => Ok(Leaf(e), rest)
  }

  /** The loop: take operators as long as they bind at least as strongly as `p`. */
  function Climb(p: nat, lhs: Tree, toks: seq<Token>): (r: Parsed<Tree, Token>)
    ensures r.Ok? ==> |r.rest| <= |toks|
    decreases |toks|, 0
  {
    if toks != [] && toks[0].And? && p <= 3 then
      match Parse(4, toks[1..])
      case Fail => Fail
      case Ok(rhs, more) => Climb(p, AndTree(lhs, rhs), more)
    else if toks != [] && toks[0].Or? && p <= 2 then
      match Parse(3, toks[1..])
      case Fail => Fail
      case Ok(rhs, more) => Climb(p, OrTree(lhs, rhs), more)
    else Ok(lhs, toks)
  }

  /** Tokens after the closing brace are not looked at. */
  function ParseFilter(toks: seq<Token>): Option<Tree> {
    if toks == [] || !toks[0].LCurly? then None
    else
      match Parse(0, toks[1..])
      case Fail => None
      case Ok(t, rest) => if rest == [] || !rest[0].RCurly? then None else Some(t)
  }

  // ---- The imperative parser ----

  class JSONFilterParser {
    const tokens: seq<Token>
    var pos: nat

    ghost predicate Valid()
      reads this
    {
      pos <= |tokens|
    }

    ghost function Ahead(): seq<Token>
      requires Valid()
      reads this
    {
      tokens[pos..]
    }

    constructor (tokens: seq<Token>)
      ensures Valid() && Ahead() == tokens
    {
      this.tokens, pos := tokens, 0;
    }

    /** LA(k + 1) */
    function Peek(k: nat): (t: Option<Token>)
      requires Valid()
      reads this
      ensures t == if k < |Ahead()| then Some(Ahead()[k]) else None
    {
      if pos + k < |tokens| then Some(tokens[pos + k]) else None
    }

    method Consume()
      requires Valid() && Ahead() != []
      modifies this
      ensures Valid() && Ahead() == old(Ahead())[1..]
    {
      pos := pos + 1;
    }

    method Member() returns (m: Option<Member>)
      requires Valid()
      modifies this
      ensures Valid() && Delivers(ParseMember(old(Ahead())), m, Ahead())
    {
      ghost var start := Ahead();
      if Peek(0).None? || !Peek(0).value.Ident? {
        return None;
      }
      var name := Peek(0).value.text;
      Consume();
      var indices: seq<string> := [];
      PrependNone(ParseIndices(Ahead()));
      while Peek(0) == Some(LBracket)
        invariant Valid()
        invariant ParseIndices(start[1..]) == Prepend(indices, ParseIndices(Ahead()))
        decreases |Ahead()|
      {
        if Peek(1).None? || !Peek(1).value.Number? || Peek(2) != Some(RBracket) {
          return None;
        }
        ghost var here := Ahead();
        var text := Peek(1).value.text;
        Consume();
        Consume();
        Consume();
        assert here[3..] == Ahead();
        PrependOne(indices, text, ParseIndices(Ahead()));
        indices := indices + [text];
      }
      m := Some(FilterSyntax.Member(name, indices));
      assert indices + [] == indices;
    }

    method Qualifiedidentifier() returns (id: Option<QualifiedIdentifier>)
      requires Valid()
      modifies this
      ensures Valid() && Delivers(ParseId(old(Ahead())), id, Ahead())
    {
      ghost var start := Ahead();
      var first := Member();
      if first.None? {
        return None;
      }
      ghost var more := ParseMember(start).rest;
      var members: seq<FilterSyntax.Member> := [];
      PrependNone(ParseRest(Ahead()));
      while Peek(0) == Some(Dot)
        invariant Valid()
        invariant ParseRest(more) == Prepend(members, ParseRest(Ahead()))
        decreases |Ahead()|
      {
        ghost var here := Ahead();
        Consume();
        var m := Member();
        if m.None? {
          return None;
        }
        PrependOne(members, m.value, ParseRest(Ahead()));
        members := members + [m.value];
      }
      id := Some(QualifiedIdentifier(first.value, members));
      assert members + [] == members;
    }

    method Literal() returns (l: Option<Literal>)
      requires Valid()
      modifies this
      ensures Valid() && Delivers(ParseLiteral(old(Ahead())), l, Ahead())
    {
      ghost var start := Ahead();
      if Peek(0).None? || !PlainLiteral(Peek(0).value) {
        return None;
      }
      var tok := Peek(0).value;
      Consume();
      if !(tok.Number? && Peek(0) == Some(Dot)) {
        return Some(Plain(tok));
      }
      var parts: seq<NumberPart> := [];
      PrependNone(ParseParts(Ahead()));
      while Peek(0) == Some(Dot)
        invariant Valid()
        invariant ParseParts(start[1..]) == Prepend(parts, ParseParts(Ahead()))
        decreases |Ahead()|
      {
        if Peek(1).None? || !(Peek(1).value.Number? || Peek(1).value.Star?) {
          return None;
        }
        ghost var here := Ahead();
        var part := if Peek(1).value.Number? then Digits(Peek(1).value.text) else Wildcard;
        Consume();
        Consume();
        assert here[2..] == Ahead();
        PrependOne(parts, part, ParseParts(Ahead()));
        parts := parts + [part];
      }
      l := Some(NumberPath(tok.text, parts));
      assert parts + [] == parts;
    }

    method Exp() returns (e: Option<Exp>)
      requires Valid()
      modifies this
      ensures Valid() && Delivers(ParseExp(old(Ahead())), e, Ahead())
    {
      hide ParseId, ParseValue;
      if Peek(0) != Some(SelStart) {
        return None;
      }
      Consume();
      var selector := Qualifiedidentifier();
      if selector.None? || Peek(0).None? || !Peek(0).value.Operator? {
        return None;
      }
      var op := Peek(0).value.text;
      Consume();
      var value := RightSide();
      e := if value.None? then None else Some(FilterSyntax.Exp(selector.value, op, value.value));
    }

    /** The lookahead decides between a literal and a qualified identifier. */
    method RightSide() returns (v: Option<Value>)
      requires Valid()
      modifies this
      ensures Valid() && Delivers(ParseValue(old(Ahead())), v, Ahead())
    {
      hide ParseId, ParseLiteral;
      if Peek(0).Some? && Peek(0).value.Ident? && (Peek(1) == Some(Dot) || Peek(1) == Some(LBracket)) {
        var id := Qualifiedidentifier();
        v := if id.None? then None else Some(Qual(id.value));
      } else {
        var l := Literal();
        v := if l.None? then None else Some(Lit(l.value));
      }
    }

    /** The rule with the precedence loop: `localctx` becomes the left operand of each operator
        that binds at least as strongly as `p`. */
    method FilterExpr(p: nat) returns (t: Option<Tree>)
      requires Valid()
      modifies this
      ensures Valid() && Delivers(Parse(p, old(Ahead())), t, Ahead())
      decreases |Ahead()|, 1
    {
      ghost var start := Ahead();
      var first := Operand();
      if first.None? {
        return None;
      }
      var localctx := first.value;
      assert Parse(p, start) == Climb(p, localctx, Ahead());
      while (Peek(0) == Some(And) && p <= 3) || (Peek(0) == Some(Or) && p <= 2)
        invariant Valid() && |Ahead()| < |start|
        invariant Parse(p, start) == Climb(p, localctx, Ahead())
        decreases |Ahead()|
      {
        hide ParsePrimary, Parse;
        var and := Peek(0) == Some(And);
        Consume();
        var rhs := FilterExpr(if and then 4 else 3);
        if rhs.None? {
          return None;
        }
        localctx := if and then AndTree(localctx, rhs.value) else OrTree(localctx, rhs.value);
      }
      hide ParsePrimary, Parse;
      t := Some(localctx);
    }

    /** The first alternative: parentheses or a leaf. */
    method Operand() returns (t: Option<Tree>)
      requires Valid()
      modifies this
      ensures Valid() && Delivers(ParsePrimary(old(Ahead())), t, Ahead())
      decreases |Ahead()|, 0
    {
      hide ParseExp, Parse;
      if Peek(0) == Some(LParen) {
        Consume();
        var inner := FilterExpr(0);
        if inner.None? || Peek(0) != Some(RParen) {
          return None;
        }
        Consume();
        t := Some(Parens(inner.value));
      } else {
        var e := Exp();
        if e.None? {
          return None;
        }
        t := Some(Leaf(e.value));
      }
    }

    method Dotnotation() returns (t: Option<Tree>)
      requires Valid()
      modifies this
      ensures Valid() && t == ParseFilter(old(Ahead()))
    {
      if Peek(0) != Some(LCurly) {
        return None;
      }
      Consume();
      t := FilterExpr(0);
      if t.None? || Peek(0) != Some(RCurly) {
        return None;
      }
      Consume();
    }
  }
}
