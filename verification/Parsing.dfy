/** What a parser makes of its input, and what an imperative parser has to deliver for it. */
module Parsing {
  import opened Wrappers

  /** A value and the rest of the input, or a syntax error. */
  datatype Parsed<+T, +C> = Fail | Ok(value: T, rest: seq<C>)

  /** `got` and the input still ahead are what `want` says, a syntax error being no result. */
  ghost predicate Delivers<T, C>(want: Parsed<T, C>, got: Option<T>, ahead: seq<C>) {
    match want
    case Fail => got == None
    case Ok(value, rest) => got == Some(value) && ahead == rest
  }

  function Prepend<T, C>(front: seq<T>, r: Parsed<seq<T>, C>): Parsed<seq<T>, C> {
    match r
    case Fail => Fail
    case Ok(more, rest) => Ok(front + more, rest)
  }

  lemma PrependNone<T, C>(r: Parsed<seq<T>, C>)
    ensures Prepend([], r) == r
  {
    if r.Ok? {
      assert [] + r.value == r.value;
    }
  }

  lemma PrependOne<T, C>(front: seq<T>, x: T, r: Parsed<seq<T>, C>)
    ensures Prepend(front + [x], r) == Prepend(front, Prepend([x], r))
  {
    if r.Ok? {
      assert (front + [x]) + r.value == front + ([x] + r.value);
    }
  }
}
