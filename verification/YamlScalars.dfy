/** What tagged scalars are read as. */
module YamlScalars {
  import opened YamlDocument
  import opened SearchLine
  import opened Strings
  import opened Wrappers

  lemma {:induction false} DigitsReturn(n: nat)
    ensures Digits(DecimalDigits(n)) == Some(n)
    ensures DecimalDigits(n) != "" && DecimalDigits(n)[0] != '-' && DecimalDigits(n)[0] != '+'
  {
    var s := DecimalDigits(n);
    if n >= 10 {
      DigitsReturn(n / 10);
      assert s[..|s| - 1] == DecimalDigits(n / 10);
    } else {
      assert s[..|s| - 1] == "";
    }
  }

  /** An integer in decimal digits is read as that number, and stays a text if it has more than 64 bits. */
  lemma IntegersRead(n: int)
    ensures ScalarNodeResolver(Decimal(n), "!!int") ==
            if -0x8000_0000_0000_0000 <= n < 0x8000_0000_0000_0000 then Num(n) else Str(Decimal(n))
  {
    DigitsReturn(if n < 0 then -n else n);
    hide Digits, DecimalDigits;
    if n < 0 {
      assert Decimal(n)[1..] == DecimalDigits(-n);
    }
  }

  lemma {:induction false} OnlyDigits(s: string)
    ensures Digits(s).Some? <==> forall c | c in s :: '0' <= c <= '9'
    decreases |s|
  {
    if s != "" {
      var front, last := s[..|s| - 1], s[|s| - 1];
      OnlyDigits(front);
      assert s == front + [last];
      assert last in s && forall c | c in front :: c in s;
    }
  }

  /** Only digits behind an optional sign can be a number. */
  lemma NumbersHaveDigits(s: string)
    ensures Atoi(s).Some? ==>
              var digits := if s[0] == '-' || s[0] == '+' then s[1..] else s;
              digits != "" && forall c | c in digits :: '0' <= c <= '9'
  {
    OnlyDigits(if s != "" && (s[0] == '-' || s[0] == '+') then s[1..] else s);
    hide Digits;
  }

  /** Truth values and nulls depend on the tag, and any other tag leaves the text. */
  lemma OtherScalarsRead(value: string, tag: string)
    requires tag != "!!int"
    ensures ScalarNodeResolver(value, tag) == Bool(true) <==> tag == "!!bool" && value in {"true", "True"}
    ensures ScalarNodeResolver(value, tag) == Bool(false) <==> tag == "!!bool" && value !in {"true", "True"}
    ensures ScalarNodeResolver(value, tag) == Null <==> tag == "!!null"
    ensures ScalarNodeResolver(value, tag) == Str(value) <==> tag !in {"!!bool", "!!null"}
  {
  }

  /** A line that is found as a text of decimal digits counts as that number, truth values count as one and zero, and
      anything else as none. */
  lemma FoundNumber(n: int, j: Json)
    requires -0x8000_0000_0000_0000 <= n < 0x8000_0000_0000_0000
    ensures AsInt(Some(Num(n))) == n == AsInt(Some(Str(Decimal(n))))
    ensures AsInt(Some(Bool(true))) == 1 && AsInt(Some(Bool(false))) == 0
    ensures j.Null? || j.List? || j.Obj? ==> AsInt(Some(j)) == 0
  {
    IntegersRead(n);
    hide Digits, DecimalDigits;
    assert Atoi(Decimal(n)) == Some(n);
  }
}
