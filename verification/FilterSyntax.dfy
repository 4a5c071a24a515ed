/** The filter expressions of CloudWatch metric filters: tokens, parse trees, the trees the
    visitor makes of them, and how both are written down. */
module FilterSyntax {
  import opened Wrappers

  datatype Token =
    | LCurly | RCurly | LParen | RParen | LBracket | RBracket
    | Dot | Star | And | Or | SelStart
    | Operator(text: string)
    | Number(text: string) | Str(text: string) | Ident(text: string)
    | Null | Exists | True | False

  function Text(t: Token): string {
    match t
    case LCurly => "{"
    case RCurly => "}"
    case LParen => "("
    case RParen => ")"
    case LBracket => "["
    case RBracket => "]"
    case Dot => "."
    case Star => "*"
    case And => "&&"
    case Or => "||"
    case SelStart => "$."
    case Operator(text) => text
    case Number(text) => text
    case Str(text) => text
    case Ident(text) => text
    case Null => "NULL"
    case Exists => "EXISTS"
    case True => "TRUE"
    case False => "FALSE"
  }

  function Texts(toks: seq<Token>): string {
    if toks == [] then "" else Text(toks[0]) + Texts(toks[1..])
  }

  // ---- Parse trees ----

  datatype Member = Member(name: string, indices: seq<string>)

  datatype QualifiedIdentifier = QualifiedIdentifier(first: Member, rest: seq<Member>)

  datatype NumberPart = Digits(text: string) | Wildcard

  datatype Literal = Plain(tok: Token) | NumberPath(first: string, parts: seq<NumberPart>)

  datatype Value = Lit(literal: Literal) | Qual(id: QualifiedIdentifier)

  datatype Exp = Exp(selector: QualifiedIdentifier, op: string, value: Value)

  datatype Tree =
    | Leaf(exp: Exp)
    | Parens(inner: Tree)
    | AndTree(lhs: Tree, rhs: Tree)
    | OrTree(lhs: Tree, rhs: Tree)

  predicate PlainLiteral(t: Token) {
    t.Number? || t.Str? || t.Null? || t.Exists? || t.True? || t.False? || t.Ident?
  }

  /** A value that is a lone identifier is a literal; only longer identifiers are paths. */
  predicate ValueOk(v: Value) {
    match v
    case Lit(Plain(t)) => PlainLiteral(t)
    case Lit(NumberPath(_, parts)) => parts != []
    case Qual(id) => id.rest != [] || id.first.indices != []
  }

  /** The trees of the grammar at binding strength `p`: `&&` binds at 3, `||` at 2, and the right
      operand has to bind more strongly than its operator. */
  predicate Shape(t: Tree, p: nat) {
    match t
    case Leaf(e) => ValueOk(e.value)
    case Parens(inner) => Shape(inner, 0)
    case AndTree(l, r) => p <= 3 && Shape(l, 3) && Shape(r, 4)
    case OrTree(l, r) => p <= 2 && Shape(l, 2) && Shape(r, 3)
  }

  // ---- Writing parse trees ----

  function IndexTokens(indices: seq<string>): seq<Token> {
    if indices == [] then [] else [LBracket, Number(indices[0]), RBracket] + IndexTokens(indices[1..])
  }

  function MemberTokens(m: Member): seq<Token> {
    [Ident(m.name)] + IndexTokens(m.indices)
  }

  function RestTokens(rest: seq<Member>): seq<Token> {
    if rest == [] then [] else [Dot] + MemberTokens(rest[0]) + RestTokens(rest[1..])
  }

  function IdTokens(id: QualifiedIdentifier): seq<Token> {
    MemberTokens(id.first) + RestTokens(id.rest)
  }

  function PartTokens(parts: seq<NumberPart>): seq<Token> {
    if parts == [] then []
    else [Dot, if parts[0].Digits? then Number(parts[0].text) else Star] + PartTokens(parts[1..])
  }

  function ValueTokens(v: Value): seq<Token> {
    match v
    case Lit(Plain(t)) => [t]
    case Lit(NumberPath(first, parts)) => [Number(first)] + PartTokens(parts)
    case Qual(id) => IdTokens(id)
  }

  function ExpTokens(e: Exp): seq<Token> {
    [SelStart] + IdTokens(e.selector) + [Operator(e.op)] + ValueTokens(e.value)
  }

  function TreeTokens(t: Tree): seq<Token> {
    match t
    case Leaf(e) => ExpTokens(e)
    case Parens(inner) => [LParen] + TreeTokens(inner) + [RParen]
    case AndTree(l, r) => TreeTokens(l) + [And] + TreeTokens(r)
    case OrTree(l, r) => TreeTokens(l) + [Or] + TreeTokens(r)
  }

  // ---- Filters, as the visitor returns them ----

  /** The visitor returns no value for a qualified identifier. */
  datatype Filter =
    | FilterSelector(selector: string, op: string, value: Option<string>)
    | FilterExp(op: string, left: Filter, right: Filter)

  function VisitExp(e: Exp): Filter {
    var value := if e.value.Lit? then Some(Texts(ValueTokens(e.value))) else None;
    FilterSelector(Texts([SelStart] + IdTokens(e.selector)), e.op, value)
  }

  function Visit(t: Tree): Filter {
    match t
    case Leaf(e) => VisitExp(e)
    case Parens(inner) => Visit(inner)
    case AndTree(l, r) => FilterExp("&&", Visit(l), Visit(r))
    case OrTree(l, r) => FilterExp("||", Visit(l), Visit(r))
  }

  // ---- Expressions, written with the parentheses they need ----

  datatype Expr = Sel(exp: Exp) | Both(left: Expr, right: Expr) | Either(left: Expr, right: Expr)

  predicate ExprOk(e: Expr) {
    match e
    case Sel(x) => ValueOk(x.value)
    case Both(l, r) => ExprOk(l) && ExprOk(r)
    case Either(l, r) => ExprOk(l) && ExprOk(r)
  }

  function Meaning(e: Expr): Filter {
    match e
    case Sel(x) => VisitExp(x)
    case Both(l, r) => FilterExp("&&", Meaning(l), Meaning(r))
    case Either(l, r) => FilterExp("||", Meaning(l), Meaning(r))
  }

  function Strength(e: Expr): nat {
    match e
    case Sel(_) => 4
    case Both(_, _) => 3
    case Either(_, _) => 2
  }

  /** Parentheses go around a subexpression exactly when it binds more weakly than its place asks. */
  function Print(e: Expr, p: nat): seq<Token>
    decreases e
  {
    var bare := match e
      case Sel(x) => ExpTokens(x)
      case Both(l, r) => Print(l, 3) + [And] + Print(r, 4)
      case Either(l, r) => Print(l, 2) + [Or] + Print(r, 3);
    if p > Strength(e) then [LParen] + bare + [RParen] else bare
  }

  /** `t` is `e` with parentheses around any of its subexpressions, any number of times. */
  predicate Parenthesized(t: Tree, e: Expr)
    decreases t
  {
    match t
    case Parens(inner) => Parenthesized(inner, e)
    case Leaf(x) => e == Sel(x)
    case AndTree(l, r) => e.Both? && Parenthesized(l, e.left) && Parenthesized(r, e.right)
    case OrTree(l, r) => e.Either? && Parenthesized(l, e.left) && Parenthesized(r, e.right)
  }
}
