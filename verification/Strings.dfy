/** Operations on texts. */
module Strings {

  predicate Space(c: char) {
    || c in " \t\n\r\U{B}\U{C}\U{85}\U{A0}\U{1680}\U{2028}\U{2029}\U{202F}\U{205F}\U{3000}"
    || '\U{2000}' <= c <= '\U{200A}'
  }

  function TrimSpace(s: string): string {
    if s != "" && Space(s[0]) then TrimSpace(s[1..])
    else if s != "" && Space(s[|s| - 1]) then TrimSpace(s[..|s| - 1])
    else s
  }

  /** The first occurrence of `before` in `s` replaced by `after`; an empty one is found at the start. */
  function ReplaceFirst(s: string, before: string, after: string): string {
    if before <= s then after + s[|before|..]
    else if s == "" then s
    else [s[0]] + ReplaceFirst(s[1..], before, after)
  }

  /** The pieces between the separators. */
  function Split(s: string, separator: char): (parts: seq<string>)
    ensures |parts| > 0
  {
    if s == "" then [""]
    else
      var parts := Split(s[..|s| - 1], separator);
      if s[|s| - 1] == separator then parts + [""] else parts[|parts| - 1 := parts[|parts| - 1] + [s[|s| - 1]]]
  }

  lemma {:induction false} NotSplit(s: string, separator: char)
    requires separator !in s
    ensures Split(s, separator) == [s]
  {
    if s != "" {
      NotSplit(s[..|s| - 1], separator);
      assert s[..|s| - 1] + [s[|s| - 1]] == s;
    }
  }

  /** The text `t` stands at position `k` of `s`. */
  predicate StandsAt(s: string, t: string, k: int) {
    0 <= k && k + |t| <= |s| && s[k..k + |t|] == t
  }

  /** Where `t` stands first, if anywhere. */
  ghost predicate StandsFirst(s: string, t: string, k: int) {
    StandsAt(s, t, k) && forall j | 0 <= j < k :: !StandsAt(s, t, j)
  }

  lemma StandsBehind(s: string, t: string, k: int)
    requires s != "" && k > 0
    ensures StandsAt(s, t, k) <==> StandsAt(s[1..], t, k - 1)
  {
    if k + |t| <= |s| {
      assert s[k..k + |t|] == s[1..][k - 1..k - 1 + |t|];
    }
  }

  /** The first occurrence is replaced. */
  lemma {:induction false} ReplacedFirst(s: string, before: string, after: string, k: int)
    requires StandsFirst(s, before, k)
    ensures ReplaceFirst(s, before, after) == s[..k] + after + s[k + |before|..]
    decreases |s|
  {
    if k == 0 {
      assert before <= s && s[..0] == "";
    } else {
      assert !StandsAt(s, before, 0);
      FirstBehind(s, before, k);
      hide StandsFirst, StandsAt;
      ReplacedFirst(s[1..], before, after, k - 1);
      PutInFront(s, before, after, k);
    }
  }

  lemma PutInFront(s: string, before: string, after: string, k: int)
    requires 0 < k && k + |before| <= |s|
    ensures [s[0]] + (s[1..][..k - 1] + after + s[1..][k - 1 + |before|..]) == s[..k] + after + s[k + |before|..]
  {
    assert s[1..][k - 1 + |before|..] == s[k + |before|..];
    assert [s[0]] + s[1..][..k - 1] == s[..k];
  }

  /** Nothing is replaced where there is no occurrence. */
  lemma {:induction false} ReplacedNowhere(s: string, before: string, after: string)
    requires forall k :: !StandsAt(s, before, k)
    ensures ReplaceFirst(s, before, after) == s
    decreases |s|
  {
    assert !StandsAt(s, before, 0);
    if s != "" {
      forall k ensures !StandsAt(s[1..], before, k) {
        if k >= 0 {
          StandsBehind(s, before, k + 1);
          assert !StandsAt(s, before, k + 1);
        }
      }
      ReplacedNowhere(s[1..], before, after);
    }
  }

  lemma FirstBehind(s: string, t: string, k: int)
    requires s != "" && k > 0 && StandsFirst(s, t, k)
    ensures StandsFirst(s[1..], t, k - 1)
  {
    StandsBehind(s, t, k);
    forall j | 0 <= j < k - 1 ensures !StandsAt(s[1..], t, j) {
      StandsBehind(s, t, j + 1);
    }
  }

  ghost predicate AllSpace(s: string) {
    forall c | c in s :: Space(c)
  }

  /** Exactly the spaces at both ends are taken away. */
  lemma {:induction false} TrimmedIs(s: string) returns (before: string, after: string)
    ensures s == before + TrimSpace(s) + after && AllSpace(before) && AllSpace(after)
    ensures var t := TrimSpace(s); t != "" ==> !Space(t[0]) && !Space(t[|t| - 1])
    decreases |s|
  {
    hide Space;
    if s != "" && Space(s[0]) {
      var inner;
      inner, after := TrimmedIs(s[1..]);
      before := [s[0]] + inner;
      OneMoreBefore(s, inner, TrimSpace(s[1..]), after);
    } else if s != "" && Space(s[|s| - 1]) {
      var inner;
      before, inner := TrimmedIs(s[..|s| - 1]);
      after := inner + [s[|s| - 1]];
      OneMoreAfter(s, before, TrimSpace(s[..|s| - 1]), inner);
    } else {
      before, after := "", "";
      assert s == "" + s + "";
    }
  }

  lemma OneMoreBefore(s: string, before: string, t: string, after: string)
    requires s != "" && s[1..] == before + t + after && Space(s[0]) && AllSpace(before)
    ensures s == [s[0]] + before + t + after && AllSpace([s[0]] + before)
  {
    hide Space;
    assert s == [s[0]] + s[1..];
  }

  lemma OneMoreAfter(s: string, before: string, t: string, after: string)
    requires s != "" && s[..|s| - 1] == before + t + after && Space(s[|s| - 1]) && AllSpace(after)
    ensures s == before + t + (after + [s[|s| - 1]]) && AllSpace(after + [s[|s| - 1]])
  {
    hide Space;
    assert s == s[..|s| - 1] + [s[|s| - 1]];
  }

  // ---- Numbers ----

  function DecimalDigits(n: nat): string {
    if n < 10 then [('0' as int + n) as char] else DecimalDigits(n / 10) + [('0' as int + n % 10) as char]
  }

  function Decimal(n: int): string {
    if n < 0 then "-" + DecimalDigits(-n) else DecimalDigits(n)
  }

  lemma {:induction false} DigitsInjective(m: nat, n: nat)
    ensures DecimalDigits(m) == DecimalDigits(n) ==> m == n
    decreases m
  {
    assert |DecimalDigits(m)| > 1 <==> m >= 10;
    assert |DecimalDigits(n)| > 1 <==> n >= 10;
    if DecimalDigits(m) == DecimalDigits(n) && m >= 10 {
      var a, b := DecimalDigits(m), DecimalDigits(n);
      assert a[..|a| - 1] == DecimalDigits(m / 10) && b[..|b| - 1] == DecimalDigits(n / 10);
      assert a[|a| - 1] == b[|b| - 1];
      DigitsInjective(m / 10, n / 10);
    }
  }

  lemma {:induction false} DigitsAreDigits(n: nat)
    ensures DecimalDigits(n) != "" && forall i | 0 <= i < |DecimalDigits(n)| :: '0' <= DecimalDigits(n)[i] <= '9'
  {
    if n >= 10 {
      DigitsAreDigits(n / 10);
    }
  }
}
