/** Values of tag attributes: quoted strings with escapes, nested arrays, comparison signs, and
    whatever the token scanner makes of anything else. */
module TagParser {
  import opened Wrappers
  import opened Parsing

  datatype Value = Str(s: string) | Arr(items: seq<Value>) | Scanned(id: int)

  /** What the token scanner reads: a value unless the token is no identifier or literal, and the
      number of characters it takes. */
  datatype Scan = Scan(value: Option<Value>, used: nat)

  type TokenScanner = string -> Scan

  function After(s: string, used: nat): string {
    if used <= |s| then s[used..] else ""
  }

  // ---- What the parser reads ----

  function Escaped(c: char): Option<char> {
    match c
    case 'a' => Some('\U{7}')
    case 'b' => Some('\U{8}')
    case 'f' => Some('\U{C}')
    case 'n' => Some('\n')
    case 'r' => Some('\r')
    case 't' => Some('\t')
    case 'v' => Some('\U{B}')
    case '\\' => Some('\\')
    case '"' => Some('"')
    case '\'' => Some('\'')
    case _ => None
  }

  /** A string up to its closing quote; the opening one has been read. */
  function ReadString(s: string): (r: Parsed<string, char>)
    ensures r.Ok? ==> |r.rest| < |s|
    decreases |s|
  {
    if s == "" then Fail
    else if s[0] == '\'' then Ok("", s[1..])
    else if s[0] == '\n' || s[0] == '\r' then Fail
    else if s[0] == '\\' then
      if |s| < 2 || Escaped(s[1]).None? then Fail else Prepend([Escaped(s[1]).value], ReadString(s[2..]))
    else Prepend([s[0]], ReadString(s[1..]))
  }

  function ReadValue(scan: TokenScanner, s: string): (r: Parsed<Value, char>)
    ensures r.Ok? ==> |r.rest| <= |s|
    decreases |s|, 1
  {
    var scanned := scan(s);
    if s == "" || s[0] !in "'*<>![" then
      if scanned.value.Some? then Ok(scanned.value.value, After(s, scanned.used)) else Fail
    else if s[0] == '\'' then
      match ReadString(s[1..])
      case Fail => Fail
      case Ok(t, rest) => Ok(Str(t), rest)
    else if s[0] == '[' then
      match ReadItems(scan, s[1..])
      case Fail => Fail
      case Ok(items, rest) => Ok(Arr(items), rest)
    else if s[0] == '*' then Ok(Str("*"), s[1..])
    else if |s| > 1 && s[1] == '=' then Ok(Str([s[0], '=']), s[2..])
    else if s[0] == '!' then Fail
    else Ok(Str([s[0]]), s[1..])
  }

  /** The elements of an array up to its closing bracket; the opening one has been read. */
  function ReadItems(scan: TokenScanner, s: string): (r: Parsed<seq<Value>, char>)
    ensures r.Ok? ==> |r.rest| < |s|
    decreases |s|, 2
  {
    match ReadValue(scan, s)
    case Fail => Fail
    case Ok(v, more) =>
      if more != "" && more[0] == ']' then Ok([v], more[1..])
      else if more != "" && more[0] == ',' then Prepend([v], ReadItems(scan, more[1..]))
      else Fail
  }

  // ---- The parser ----

  class AttributeScanner {
    const source: string
    const scan: TokenScanner
    var pos: nat

    ghost predicate Valid()
      reads this
    {
      pos <= |source|
    }

    ghost function Rest(): string
      requires Valid()
      reads this
    {
      source[pos..]
    }

    constructor (source: string, scan: TokenScanner)
      ensures Valid() && Rest() == source && this.scan == scan
    {
      this.source, this.scan, pos := source, scan, 0;
    }

    function Peek(): (c: Option<char>)
      requires Valid()
      reads this
      ensures c == if Rest() == "" then None else Some(Rest()[0])
    {
      if pos < |source| then Some(source[pos]) else None
    }

    method Next() returns (c: Option<char>)
      requires Valid()
      modifies this
      ensures Valid() && c == (if old(Rest()) == "" then None else Some(old(Rest())[0]))
      ensures Rest() == if old(Rest()) == "" then "" else old(Rest())[1..]
    {
      c := Peek();
      if c.Some? {
        pos := pos + 1;
      }
    }

    method ParseEscape() returns (c: Option<char>)
      requires Valid()
      modifies this
      ensures Valid() && (c.Some? <==> old(Rest()) != "" && Escaped(old(Rest())[0]).Some?)
      ensures c.Some? ==> c == Escaped(old(Rest())[0]) && Rest() == old(Rest())[1..]
    {
      var ch := Next();
      c := if ch.Some? then Escaped(ch.value) else None;
    }

    method ParseString() returns (t: Option<string>)
      requires Valid()
      modifies this
      ensures Valid() && Delivers(ReadString(old(Rest())), t, Rest())
    {
      var buf: string := "";
      ghost var start, ahead := Rest(), Rest();
      PrependNone(ReadString(start));
      var ch := Next();
      while ch != Some('\'')
        invariant Valid() && ReadString(start) == Prepend(buf, ReadString(ahead))
        invariant ch == if ahead == "" then None else Some(ahead[0])
        invariant Rest() == if ahead == "" then "" else ahead[1..]
        decreases |ahead|
      {
        if ch.None? || ch.value == '\n' || ch.value == '\r' {
          return None;
        }
        var c := ch;
        if ch.value == '\\' {
          c := ParseEscape();
          if c.None? {
            return None;
          }
        }
        PrependOne(buf, c.value, ReadString(Rest()));
        buf, ahead := buf + [c.value], Rest();
        ch := Next();
      }
      assert buf + [] == buf;
      t := Some(buf);
    }

    method ParseArray() returns (items: Option<seq<Value>>)
      requires Valid()
      modifies this
      ensures Valid() && Delivers(ReadItems(scan, old(Rest())), items, Rest())
      decreases |Rest()|, 2
    {
      var result: seq<Value> := [];
      ghost var start := Rest();
      PrependNone(ReadItems(scan, start));
      hide ReadValue;
      while true
        invariant Valid() && |Rest()| <= |start|
        invariant ReadItems(scan, start) == Prepend(result, ReadItems(scan, Rest()))
        decreases |Rest()|
      {
        ghost var here := Rest();
        var value := ParseValue();
        if value.None? {
          return None;
        }
        ghost var more := Rest();
        var next := Next();
        if next == Some(']') {
          return Some(result + [value.value]);
        }
        if next != Some(',') {
          return None;
        }
        PrependOne(result, value.value, ReadItems(scan, Rest()));
        result := result + [value.value];
      }
    }

    method ParseValue() returns (v: Option<Value>)
      requires Valid()
      modifies this
      ensures Valid() && Delivers(ReadValue(scan, old(Rest())), v, Rest())
      decreases |Rest()|, 1
    {
      hide ReadString, ReadItems;
      ghost var here := Rest();
      var c := Peek();
      if c == Some('\'') {
        var _ := Next();
        var t := ParseString();
        v := if t.Some? then Some(Str(t.value)) else None;
      } else if c == Some('*') {
        var _ := Next();
        v := Some(Str("*"));
      } else if c == Some('<') || c == Some('>') || c == Some('!') {
        var _ := Next();
        if Peek() == Some('=') {
          var _ := Next();
          v := Some(Str([c.value, '=']));
        } else {
          v := if c == Some('!') then None else Some(Str([c.value]));
        }
      } else if c == Some('[') {
        var _ := Next();
        var items := ParseArray();
        v := if items.Some? then Some(Arr(items.value)) else None;
      } else {
        var scanned := scan(source[pos..]);
        pos := if scanned.used <= |source| - pos then pos + scanned.used else |source|;
        v := scanned.value;
      }
    }
  }

  // ---- Writing values ----

  /** The letter that stands for a character behind a backslash; other characters stand for themselves. */
  function EscapeLetter(c: char): Option<char> {
    match c
    case '\U{7}' => Some('a')
    case '\U{8}' => Some('b')
    case '\U{C}' => Some('f')
    case '\n' => Some('n')
    case '\r' => Some('r')
    case '\t' => Some('t')
    case '\U{B}' => Some('v')
    case '\\' => Some('\\')
    case '"' => Some('"')
    case '\'' => Some('\'')
    case _ => None
  }

  function QuotedChar(c: char): string {
    match EscapeLetter(c) case Some(letter) => ['\\', letter] case None => [c]
  }

  function Quoted(s: string): string {
    if s == "" then ""
    else QuotedChar(s[0]) + Quoted(s[1..])
  }

  function Write(v: Value): string {
    match v
    case Str(s) => "'" + Quoted(s) + "'"
    case Arr(items) => "[" + WriteItems(items) + "]"
    case Scanned(_) => ""
  }

  function WriteItems(items: seq<Value>): string {
    if items == [] then ""
    else if |items| == 1 then Write(items[0])
    else Write(items[0]) + "," + WriteItems(items[1..])
  }

  /** Nested arrays of strings. */
  predicate OnlyStrings(v: Value) {
    match v
    case Str(_) => true
    case Arr(items) => forall i | 0 <= i < |items| :: OnlyStrings(items[i])
    case Scanned(_) => false
  }

  predicate NoEmptyArray(v: Value) {
    match v
    case Arr(items) => items != [] && forall i | 0 <= i < |items| :: NoEmptyArray(items[i])
    case _ => true
  }

  // ---- Reading what was written ----

  lemma LetterEscapes(c: char)
    ensures EscapeLetter(c).Some? ==> Escaped(EscapeLetter(c).value) == Some(c)
    ensures EscapeLetter(c).None? ==> c !in "\\'\n\r"
  {
  }

  /** Exactly the letters that stand for some character are supported, and stand for that one. */
  lemma EscapesExactly(letter: char, c: char)
    ensures Escaped(letter) == Some(c) <==> EscapeLetter(c) == Some(letter)
  {
  }

  lemma CharReturns(c: char, tail: string)
    ensures ReadString(QuotedChar(c) + tail) == Prepend([c], ReadString(tail))
  {
    LetterEscapes(c);
    hide Escaped, EscapeLetter, Prepend;
    var all := QuotedChar(c) + tail;
    if EscapeLetter(c).Some? {
      assert all[2..] == tail;
    } else {
      assert all[1..] == tail;
    }
  }

  lemma QuotedParts(s: string, rest: string)
    requires s != ""
    ensures Quoted(s) + "'" + rest == QuotedChar(s[0]) + (Quoted(s[1..]) + "'" + rest)
    ensures [s[0]] + s[1..] == s
  {
    hide QuotedChar;
  }

  lemma {:induction false} QuotedReturns(s: string, rest: string)
    ensures ReadString(Quoted(s) + "'" + rest) == Ok(s, rest)
  {
    if s == "" {
      assert Quoted(s) + "'" + rest == "'" + rest;
    } else {
      hide ReadString, Quoted, QuotedChar;
      QuotedReturns(s[1..], rest);
      QuotedParts(s, rest);
      CharReturns(s[0], Quoted(s[1..]) + "'" + rest);
    }
  }

  lemma StringReturns(scan: TokenScanner, s: string, rest: string)
    ensures ReadValue(scan, Write(Str(s)) + rest) == Ok(Str(s), rest)
  {
    hide Quoted, ReadString, ReadItems;
    QuotedReturns(s, rest);
    var all := Write(Str(s)) + rest;
    assert all[0] == '\'' && all[1..] == Quoted(s) + "'" + rest;
  }

  lemma ArrayUnread(scan: TokenScanner, items: seq<Value>, rest: string)
    ensures
      var r := ReadItems(scan, WriteItems(items) + "]" + rest);
      ReadValue(scan, Write(Arr(items)) + rest) == if r.Ok? then Ok(Arr(r.value), r.rest) else Fail
  {
    var all := Write(Arr(items)) + rest;
    hide WriteItems, ReadString, ReadItems;
    assert all[0] == '[' && all[1..] == WriteItems(items) + "]" + rest;
  }

  /** What follows the first element of a written array. */
  function Follow(items: seq<Value>): string
    requires items != []
  {
    if |items| == 1 then "]" else "," + WriteItems(items[1..]) + "]"
  }

  lemma Regroup(w: string, more: string, rest: string)
    ensures w + "]" + rest == w + ("]" + rest)
    ensures w + "," + more + "]" + rest == w + ("," + more + "]" + rest)
    ensures "," + more + "]" + rest == "," + (more + "]" + rest)
  {
    var tail := more + "]" + rest;
    assert "," + more + "]" + rest == "," + tail;
    assert w + "," + more + "]" + rest == w + "," + tail;
  }

  lemma FirstItem(items: seq<Value>, rest: string)
    requires items != []
    ensures WriteItems(items) + "]" + rest == Write(items[0]) + (Follow(items) + rest)
    ensures
      var more := Follow(items) + rest;
      if |items| == 1 then more == "]" + rest && items == [items[0]]
      else more == "," + (WriteItems(items[1..]) + "]" + rest)
  {
    hide Write;
    var w, tail := Write(items[0]), if |items| == 1 then "" else WriteItems(items[1..]);
    WriteItemsIs(items, w, tail);
    hide WriteItems, Follow;
    Regroup(w, tail, rest);
  }

  lemma WriteItemsIs(items: seq<Value>, w: string, tail: string)
    requires items != [] && w == Write(items[0]) && tail == if |items| == 1 then "" else WriteItems(items[1..])
    ensures WriteItems(items) == if |items| == 1 then w else w + "," + tail
    ensures Follow(items) == if |items| == 1 then "]" else "," + tail + "]"
    ensures |items| == 1 ==> items == [items[0]]
  {
    hide Write;
  }

  lemma NextItem(scan: TokenScanner, s: string, v: Value, end: char, more: string)
    requires ReadValue(scan, s) == Ok(v, [end] + more)
    ensures end == ']' ==> ReadItems(scan, s) == Ok([v], more)
    ensures end == ',' ==> ReadItems(scan, s) == Prepend([v], ReadItems(scan, more))
  {
    assert ([end] + more)[1..] == more;
    hide ReadValue, Prepend;
  }

  lemma ItemsUnread(scan: TokenScanner, items: seq<Value>, rest: string)
    requires items != []
    requires ReadValue(scan, Write(items[0]) + (Follow(items) + rest)) == Ok(items[0], Follow(items) + rest)
    ensures
      var r := ReadItems(scan, WriteItems(items) + "]" + rest);
      if |items| == 1 then r == Ok(items, rest)
      else r == Prepend([items[0]], ReadItems(scan, WriteItems(items[1..]) + "]" + rest))
  {
    hide *;
    FirstItem(items, rest);
    var s := Write(items[0]) + (Follow(items) + rest);
    if |items| == 1 {
      NextItem(scan, s, items[0], ']', rest);
    } else {
      NextItem(scan, s, items[0], ',', WriteItems(items[1..]) + "]" + rest);
    }
  }

  /** Writing a nested array of strings and reading it gives it back and leaves the remaining
      input untouched. */
  lemma {:induction false} WrittenReturns(scan: TokenScanner, v: Value, rest: string)
    requires OnlyStrings(v) && NoEmptyArray(v)
    ensures ReadValue(scan, Write(v) + rest) == Ok(v, rest)
    decreases v, 1
  {
    match v
    case Str(s) => StringReturns(scan, s, rest);
    case Arr(items) =>
      ItemsReturn(scan, items, rest);
      ArrayUnread(scan, items, rest);
  }

  lemma {:induction false} ItemsReturn(scan: TokenScanner, items: seq<Value>, rest: string)
    requires items != [] && forall i | 0 <= i < |items| :: OnlyStrings(items[i]) && NoEmptyArray(items[i])
    ensures ReadItems(scan, WriteItems(items) + "]" + rest) == Ok(items, rest)
    decreases items, 0
  {
    hide ReadValue, ReadItems, Write, WriteItems;
    WrittenReturns(scan, items[0], Follow(items) + rest);
    ItemsUnread(scan, items, rest);
    if |items| > 1 {
      ItemsReturn(scan, items[1..], rest);
      assert [items[0]] + items[1..] == items;
    }
  }

  // ---- Empty arrays ----

  /** The token scanner takes a closing bracket for a token of its own, which is no value. */
  ghost predicate NoValueAtBracket(scan: TokenScanner) {
    forall s | s != "" && s[0] == ']' :: scan(s).value.None?
  }

  /** An array that is empty or holds an empty array, at any depth, cannot be read back. */
  lemma {:induction false} EmptyFails(scan: TokenScanner, v: Value, rest: string)
    requires NoValueAtBracket(scan) && OnlyStrings(v) && !NoEmptyArray(v)
    ensures ReadValue(scan, Write(v) + rest) == Fail
    decreases v, 1
  {
    var items := v.items;
    ArrayUnread(scan, items, rest);
    if items == [] {
      var s := WriteItems(items) + "]" + rest;
      assert s[0] == ']' && scan(s).value.None?;
    } else {
      ItemsFail(scan, items, rest);
    }
  }

  lemma {:induction false} ItemsFail(scan: TokenScanner, items: seq<Value>, rest: string)
    requires NoValueAtBracket(scan) && items != []
    requires forall i | 0 <= i < |items| :: OnlyStrings(items[i])
    requires exists i :: 0 <= i < |items| && !NoEmptyArray(items[i])
    ensures ReadItems(scan, WriteItems(items) + "]" + rest) == Fail
    decreases items, 0
  {
    var more := Follow(items) + rest;
    FirstItem(items, rest);
    if !NoEmptyArray(items[0]) {
      EmptyFails(scan, items[0], more);
    } else {
      WrittenReturns(scan, items[0], more);
      ItemsUnread(scan, items, rest);
      hide ReadValue, ReadItems, Write, WriteItems;
      var i :| 0 <= i < |items| && !NoEmptyArray(items[i]);
      assert items[1..][i - 1] == items[i];
      ItemsFail(scan, items[1..], rest);
    }
  }

  /** A written nested array of strings is read back exactly if no array in it is empty. */
  lemma ReturnsIffNoEmptyArray(scan: TokenScanner, v: Value, rest: string)
    requires NoValueAtBracket(scan) && OnlyStrings(v)
    ensures ReadValue(scan, Write(v) + rest) == Ok(v, rest) <==> NoEmptyArray(v)
  {
    if NoEmptyArray(v) {
      WrittenReturns(scan, v, rest);
    } else {
      EmptyFails(scan, v, rest);
    }
  }

  // ---- Strings are read exactly ----

  /** `text` is a way to write `s` between quotes: every character plainly or behind a backslash. */
  predicate Spells(text: string, s: string)
    decreases |text|
  {
    if text == "" then s == ""
    else if s == "" then false
    else if text[0] == '\\' then |text| > 1 && Escaped(text[1]) == Some(s[0]) && Spells(text[2..], s[1..])
    else text[0] !in "'\n\r" && text[0] == s[0] && Spells(text[1..], s[1..])
  }

  lemma {:induction false} SpelledReturns(text: string, s: string, rest: string)
    requires Spells(text, s)
    ensures ReadString(text + "'" + rest) == Ok(s, rest)
    decreases |text|
  {
    var all := text + "'" + rest;
    if text == "" {
      assert all == "'" + rest;
    } else {
      var n := if text[0] == '\\' then 2 else 1;
      SpelledReturns(text[n..], s[1..], rest);
      assert all[n..] == text[n..] + "'" + rest;
      assert [s[0]] + s[1..] == s;
    }
  }

  lemma {:induction false} ReadIsSpelled(input: string) returns (text: string)
    requires ReadString(input).Ok?
    ensures
      var r := ReadString(input);
      Spells(text, r.value) && input == text + "'" + r.rest
    decreases |input|
  {
    if input[0] == '\'' {
      text := "";
      assert input == "" + "'" + input[1..];
    } else {
      var n := if input[0] == '\\' then 2 else 1;
      var tail := ReadIsSpelled(input[n..]);
      text := input[..n] + tail;
      assert text[n..] == tail && input == input[..n] + input[n..];
      assert ReadString(input).value[1..] == ReadString(input[n..]).value;
    }
  }

  /** A string is read from exactly the inputs that spell it and then close the quote. */
  lemma StringsReadExactly(input: string, s: string, rest: string)
    ensures ReadString(input) == Ok(s, rest) <==> exists text :: Spells(text, s) && input == text + "'" + rest
  {
    if ReadString(input) == Ok(s, rest) {
      var text := ReadIsSpelled(input);
      assert Spells(text, s) && input == text + "'" + rest;
    }
    if text :| Spells(text, s) && input == text + "'" + rest {
      SpelledReturns(text, s, rest);
    }
  }
}
