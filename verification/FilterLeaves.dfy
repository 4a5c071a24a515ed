/** What the leaves of a filter say: selector, operator and value are the texts of the tokens between the
    parentheses and the logical operators. */
module FilterLeaves {
  import opened FilterSyntax
  import opened Wrappers

  // ---- The leaves of a token list ----

  predicate Separator(t: Token) {
    t.LParen? || t.RParen? || t.And? || t.Or?
  }

  /** What stands between separators; `current` was read before. */
  function Words(toks: seq<Token>, current: seq<Token>): seq<seq<Token>>
    decreases |toks|
  {
    var ended := if current == [] then [] else [current];
    if toks == [] then ended
    else if Separator(toks[0]) then ended + Words(toks[1..], [])
    else Words(toks[1..], current + [toks[0]])
  }

  predicate NoSeparators(toks: seq<Token>) {
    forall t | t in toks :: !Separator(t)
  }

  predicate Ended(rest: seq<Token>) {
    rest == [] || Separator(rest[0])
  }

  lemma {:induction false} OneWord(word: seq<Token>, rest: seq<Token>, current: seq<Token>)
    requires NoSeparators(word) && Ended(rest) && current + word != []
    ensures Words(word + rest, current) == [current + word] + Words(rest, [])
    decreases |word|
  {
    if word == [] {
      assert word + rest == rest && current + word == current;
      if rest == [] {
        assert Words(rest, []) == [];
      } else {
        assert Words(rest, []) == [] + Words(rest[1..], []);
      }
    } else {
      assert (word + rest)[0] == word[0] && (word + rest)[1..] == word[1..] + rest;
      assert current + [word[0]] + word[1..] == current + word;
      assert word[0] in word && forall t | t in word[1..] :: t in word;
      OneWord(word[1..], rest, current + [word[0]]);
    }
  }

  lemma SkipSeparator(t: Token, rest: seq<Token>)
    requires Separator(t)
    ensures Words([t] + rest, []) == Words(rest, [])
  {
    assert ([t] + rest)[1..] == rest;
  }

  // ---- The leaves of a tree ----

  function LeafTokens(t: Tree): seq<seq<Token>> {
    match t
    case Leaf(e) => [ExpTokens(e)]
    case Parens(inner) => LeafTokens(inner)
    case AndTree(l, r) => LeafTokens(l) + LeafTokens(r)
    case OrTree(l, r) => LeafTokens(l) + LeafTokens(r)
  }

  function Leaves(f: Filter): seq<Filter> {
    match f
    case FilterSelector(_, _, _) => [f]
    case FilterExp(_, l, r) => Leaves(l) + Leaves(r)
  }

  lemma {:induction false} IndicesPlain(indices: seq<string>)
    ensures NoSeparators(IndexTokens(indices)) && forall t | t in IndexTokens(indices) :: !t.Operator?
  {
    if indices != [] {
      IndicesPlain(indices[1..]);
    }
  }

  lemma {:induction false} RestPlain(rest: seq<Member>)
    ensures NoSeparators(RestTokens(rest)) && forall t | t in RestTokens(rest) :: !t.Operator?
  {
    if rest != [] {
      IndicesPlain(rest[0].indices);
      RestPlain(rest[1..]);
    }
  }

  lemma IdPlain(id: QualifiedIdentifier)
    ensures NoSeparators(IdTokens(id)) && forall t | t in IdTokens(id) :: !t.Operator?
  {
    IndicesPlain(id.first.indices);
    RestPlain(id.rest);
  }

  lemma {:induction false} PartsPlain(parts: seq<NumberPart>)
    ensures NoSeparators(PartTokens(parts))
  {
    if parts != [] {
      PartsPlain(parts[1..]);
    }
  }

  lemma LeafPlain(e: Exp)
    requires ValueOk(e.value)
    ensures NoSeparators(ExpTokens(e)) && ExpTokens(e) != []
  {
    hide IdTokens, PartTokens;
    IdPlain(e.selector);
    match e.value
    case Lit(Plain(t)) =>
    case Lit(NumberPath(_, parts)) => PartsPlain(parts);
    case Qual(id) => IdPlain(id);
  }

  lemma {:induction false} TreeWords(t: Tree, p: nat, rest: seq<Token>)
    requires Shape(t, p) && Ended(rest)
    ensures Words(TreeTokens(t) + rest, []) == LeafTokens(t) + Words(rest, [])
    decreases t
  {
    hide Words, ExpTokens, ValueOk;
    match t
    case Leaf(e) =>
      LeafPlain(e);
      OneWord(ExpTokens(e), rest, []);
      assert [] + ExpTokens(e) == ExpTokens(e);
    case Parens(inner) =>
      var more := [RParen] + rest;
      assert TreeTokens(t) + rest == [LParen] + (TreeTokens(inner) + more);
      SkipSeparator(LParen, TreeTokens(inner) + more);
      TreeWords(inner, 0, more);
      SkipSeparator(RParen, rest);
    case AndTree(l, r) => BothWords(l, And, r, rest, t, 3, 4);
    case OrTree(l, r) => BothWords(l, Or, r, rest, t, 2, 3);
  }

  lemma {:induction false} BothWords(l: Tree, op: Token, r: Tree, rest: seq<Token>, t: Tree, p: nat, q: nat)
    requires (t == AndTree(l, r) && op == And) || (t == OrTree(l, r) && op == Or)
    requires Shape(l, p) && Shape(r, q) && Ended(rest)
    ensures Words(TreeTokens(t) + rest, []) == LeafTokens(t) + Words(rest, [])
    decreases t, 0
  {
    hide Words, Shape, TreeTokens, LeafTokens;
    TreeWords(l, p, [op] + (TreeTokens(r) + rest));
    TreeWords(r, q, rest);
    BothAre(l, op, r, t);
    JoinWords(TreeTokens(l), op, TreeTokens(r), rest, LeafTokens(l), LeafTokens(r));
  }

  lemma BothAre(l: Tree, op: Token, r: Tree, t: Tree)
    requires (t == AndTree(l, r) && op == And) || (t == OrTree(l, r) && op == Or)
    ensures TreeTokens(t) == TreeTokens(l) + [op] + TreeTokens(r) && LeafTokens(t) == LeafTokens(l) + LeafTokens(r)
  {
  }

  lemma JoinWords(a: seq<Token>, op: Token, b: seq<Token>, rest: seq<Token>, x: seq<seq<Token>>, y: seq<seq<Token>>)
    requires Separator(op) && Words(a + ([op] + (b + rest)), []) == x + Words([op] + (b + rest), [])
    requires Words(b + rest, []) == y + Words(rest, [])
    ensures Words(a + [op] + b + rest, []) == x + y + Words(rest, [])
  {
    hide Words;
    SkipSeparator(op, b + rest);
    assert a + [op] + b + rest == a + ([op] + (b + rest));
    assert x + (y + Words(rest, [])) == x + y + Words(rest, []);
  }

  // ---- What a leaf says ----

  /** The tokens go on as a path: an identifier with members or indices. */
  predicate PathAhead(toks: seq<Token>) {
    |toks| > 1 && toks[0].Ident? && (toks[1].Dot? || toks[1].LBracket?)
  }

  /** The leaf has the text before the operator as its selector, and the text behind it as its value, unless a
      path stands there: that gives no value. */
  ghost predicate Says(f: Filter, word: seq<Token>) {
    && f.FilterSelector?
    && exists i ::
         && 0 <= i < |word| && word[i].Operator? && (forall j | 0 <= j < i :: !word[j].Operator?)
         && f.selector == Texts(word[..i]) && f.op == word[i].text
         && f.value == if PathAhead(word[i + 1..]) then None else Some(Texts(word[i + 1..]))
  }

  ghost predicate SaysAll(fs: seq<Filter>, words: seq<seq<Token>>) {
    |fs| == |words| && forall k | 0 <= k < |fs| :: Says(fs[k], words[k])
  }

  lemma LeafSays(e: Exp)
    requires ValueOk(e.value)
    ensures VisitExp(e).FilterSelector? && Says(VisitExp(e), ExpTokens(e))
  {
    hide IdTokens, Texts, PartTokens;
    IdPlain(e.selector);
    var before, word := [SelStart] + IdTokens(e.selector), ExpTokens(e);
    var i := |before|;
    assert word[..i] == before && word[i] == Operator(e.op) && word[i + 1..] == ValueTokens(e.value);
    forall j | 0 <= j < i ensures !word[j].Operator? {
      assert word[j] == before[j];
    }
    ValueIsPath(e.value);
  }

  lemma ValueIsPath(v: Value)
    requires ValueOk(v)
    ensures PathAhead(ValueTokens(v)) <==> v.Qual?
  {
    match v
    case Qual(id) =>
      var toks := IdTokens(id);
      assert toks[0] == Ident(id.first.name);
      assert toks[1] == if id.first.indices != [] then LBracket else Dot;
    case _ =>
  }

  lemma {:induction false} LeavesSay(t: Tree, p: nat)
    requires Shape(t, p)
    ensures SaysAll(Leaves(Visit(t)), LeafTokens(t))
    decreases t
  {
    hide Says, VisitExp, ExpTokens, ValueOk;
    match t
    case Leaf(e) => LeafSays(e);
    case Parens(inner) => LeavesSay(inner, 0);
    case AndTree(l, r) =>
      LeavesSay(l, 3);
      LeavesSay(r, 4);
    case OrTree(l, r) =>
      LeavesSay(l, 2);
      LeavesSay(r, 3);
  }

  /** The leaves of the filter that a grammatical tree is visited to say, one by one, what stands between the
      parentheses and logical operators of its tokens. */
  lemma TreeSays(t: Tree)
    requires Shape(t, 0)
    ensures SaysAll(Leaves(Visit(t)), Words(TreeTokens(t), []))
  {
    TreeWords(t, 0, []);
    LeavesSay(t, 0);
    assert TreeTokens(t) + [] == TreeTokens(t) && Words([], []) == [];
  }

  lemma {:induction false} TextsConcat(a: seq<Token>, b: seq<Token>)
    ensures Texts(a + b) == Texts(a) + Texts(b)
  {
    if a == [] {
      assert a + b == b;
    } else {
      assert (a + b)[1..] == a[1..] + b;
      TextsConcat(a[1..], b);
    }
  }

  /** Of a leaf with a value nothing is lost: selector, operator and value are the text of exactly its tokens. */
  lemma NothingLost(f: Filter, word: seq<Token>)
    requires Says(f, word)
    ensures f.value.Some? ==> f.selector + f.op + f.value.value == Texts(word)
  {
    hide Texts, PathAhead;
    var i :| 0 <= i < |word| && word[i].Operator? && f.selector == Texts(word[..i]) && f.op == word[i].text
             && f.value == if PathAhead(word[i + 1..]) then None else Some(Texts(word[i + 1..]));
    ThreeTexts(word, i);
  }

  lemma ThreeTexts(word: seq<Token>, i: nat)
    requires i < |word|
    ensures Texts(word) == Texts(word[..i]) + Text(word[i]) + Texts(word[i + 1..])
  {
    var tail := word[i..];
    assert word == word[..i] + tail;
    TextsConcat(word[..i], tail);
    assert tail[0] == word[i] && tail[1..] == word[i + 1..];
  }
}
