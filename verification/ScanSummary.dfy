/** The results of a scan: storing them, dropping repetitions, and summing them up by query. */
module ScanSummary {
  import opened Sorting
  import opened Strings

  datatype Severity = Critical | High | Medium | Low | Info | Trace | Unknown(text: string)

  /** `rest` stands for the fields that neither tell results apart nor are counted. */
  datatype Vulnerability = Vulnerability(
    queryID: string, queryName: string, severity: Severity,
    fileName: string, line: int, similarityID: string, searchKey: string, keyActualValue: string, rest: int)

  // ---- Keys ----

  function Joined(parts: seq<string>): string {
    if parts == [] then "" else if |parts| == 1 then parts[0] else parts[0] + ":" + Joined(parts[1..])
  }

  function Identity(v: Vulnerability): seq<string> {
    [v.queryID, v.fileName, Decimal(v.line), v.similarityID, v.searchKey, v.keyActualValue]
  }

  function Key(v: Vulnerability): string {
    Joined(Identity(v))
  }

  lemma DecimalInjective(m: int, n: int)
    ensures Decimal(m) == Decimal(n) ==> m == n
    ensures ':' !in Decimal(m)
  {
    var a, b: nat := if m < 0 then -m else m, if n < 0 then -n else n;
    DigitsAreDigits(a);
    DigitsAreDigits(b);
    DigitsInjective(a, b);
    hide DecimalDigits;
    assert (m < 0 <==> Decimal(m)[0] == '-') && (n < 0 <==> Decimal(n)[0] == '-');
    if m < 0 && n < 0 {
      assert Decimal(m)[1..] == DecimalDigits(a) && Decimal(n)[1..] == DecimalDigits(b);
    }
  }

  lemma SplitAtColon(x: string, a: string, y: string, b: string)
    requires ':' !in x && ':' !in y && x + ":" + a == y + ":" + b
    ensures x == y && a == b
  {
    var s := x + ":" + a;
    assert s[|x|] == ':' && s[|y|] == ':';
    assert forall i | 0 <= i < |x| :: s[i] == x[i];
    assert forall i | 0 <= i < |y| :: s[i] == y[i];
    assert |x| == |y|;
    assert x == s[..|x|] && y == s[..|y|];
    assert a == s[|x| + 1..] && b == s[|y| + 1..];
  }

  lemma {:induction false} JoinedInjective(a: seq<string>, b: seq<string>)
    requires |a| == |b| && Joined(a) == Joined(b)
    requires forall i | 0 <= i < |a| - 1 :: ':' !in a[i] && ':' !in b[i]
    ensures a == b
  {
    if |a| == 1 {
      assert a == [a[0]] && b == [b[0]];
    } else if |a| > 1 {
      SplitAtColon(a[0], Joined(a[1..]), b[0], Joined(b[1..]));
      JoinedInjective(a[1..], b[1..]);
      assert a == [a[0]] + a[1..] && b == [b[0]] + b[1..];
    }
  }

  predicate SameResult(v: Vulnerability, w: Vulnerability) {
    && v.queryID == w.queryID && v.fileName == w.fileName && v.line == w.line
    && v.similarityID == w.similarityID && v.searchKey == w.searchKey && v.keyActualValue == w.keyActualValue
  }

  predicate NoColons(v: Vulnerability) {
    ':' !in v.queryID && ':' !in v.fileName && ':' !in v.similarityID && ':' !in v.searchKey
  }

  /** Without colons in the fields before the last one, equal keys mean equal results. */
  lemma KeysTellResultsApart(v: Vulnerability, w: Vulnerability)
    requires NoColons(v) && NoColons(w)
    ensures Key(v) == Key(w) <==> SameResult(v, w)
  {
    DecimalInjective(v.line, w.line);
    DecimalInjective(w.line, v.line);
    if Key(v) == Key(w) {
      hide Joined;
      var a, b := Identity(v), Identity(w);
      hide Decimal;
      JoinedInjective(a, b);
      assert forall i | 0 <= i < 6 :: a[i] == b[i];
      assert a[0] == b[0] && a[1] == b[1] && a[2] == b[2] && a[3] == b[3] && a[4] == b[4] && a[5] == b[5];
    }
  }

  function Colons(s: string): nat {
    if s == "" then 0 else (if s[0] == ':' then 1 else 0) + Colons(s[1..])
  }

  lemma {:induction false} ColonsConcat(a: string, b: string)
    ensures Colons(a + b) == Colons(a) + Colons(b)
  {
    if a == "" {
      assert a + b == b;
    } else {
      ColonsConcat(a[1..], b);
      assert (a + b)[1..] == a[1..] + b;
    }
  }

  lemma {:induction false} NoColonIsZero(s: string)
    ensures Colons(s) == 0 <==> ':' !in s
  {
    if s != "" {
      NoColonIsZero(s[1..]);
      assert s == [s[0]] + s[1..];
    }
  }

  function AllColons(parts: seq<string>): nat {
    if parts == [] then 0 else Colons(parts[0]) + AllColons(parts[1..])
  }

  lemma {:induction false} ColonsOfJoined(parts: seq<string>)
    requires parts != []
    ensures Colons(Joined(parts)) == |parts| - 1 + AllColons(parts)
  {
    if |parts| > 1 {
      ColonsOfJoined(parts[1..]);
      ColonsConcat(parts[0] + ":", Joined(parts[1..]));
      ColonsConcat(parts[0], ":");
    }
  }

  lemma {:induction false} NoColonsAtAll(parts: seq<string>)
    ensures AllColons(parts) == 0 <==> forall i | 0 <= i < |parts| :: ':' !in parts[i]
  {
    if parts != [] {
      NoColonIsZero(parts[0]);
      NoColonsAtAll(parts[1..]);
      assert parts == [parts[0]] + parts[1..];
    }
  }

  /** No field of the result holds a colon. */
  predicate Colonless(v: Vulnerability) {
    NoColons(v) && ':' !in v.keyActualValue
  }

  lemma ColonlessIsZero(v: Vulnerability)
    ensures Colonless(v) <==> AllColons(Identity(v)) == 0
  {
    DecimalInjective(v.line, v.line);
    NoColonsAtAll(Identity(v));
    hide AllColons, Decimal;
    var parts := Identity(v);
    assert parts[0] == v.queryID && parts[1] == v.fileName && parts[3] == v.similarityID && parts[4] == v.searchKey;
    assert parts[2] == Decimal(v.line) && parts[5] == v.keyActualValue;
  }

  lemma KeyIs(v: Vulnerability)
    ensures Key(v) == v.queryID + ":" + (v.fileName + ":" + (Decimal(v.line) + ":" +
                      (v.similarityID + ":" + (v.searchKey + ":" + v.keyActualValue))))
  {
    hide Decimal;
    var p := Identity(v);
    assert p[1..] == [p[1], p[2], p[3], p[4], p[5]] && p[2..] == [p[2], p[3], p[4], p[5]];
    assert p[3..] == [p[3], p[4], p[5]] && p[4..] == [p[4], p[5]] && p[5..] == [p[5]];
    assert p[1..][1..] == p[2..] && p[2..][1..] == p[3..] && p[3..][1..] == p[4..] && p[4..][1..] == p[5..];
    assert Joined(p[5..]) == p[5];
    assert Joined(p[4..]) == p[4] + ":" + Joined(p[5..]);
    assert Joined(p[3..]) == p[3] + ":" + Joined(p[4..]);
    assert Joined(p[2..]) == p[2] + ":" + Joined(p[3..]);
    assert Joined(p[1..]) == p[1] + ":" + Joined(p[2..]);
  }

  lemma CutAtColon(s: string) returns (a: string, b: string)
    requires ':' in s
    ensures s == a + ":" + b
  {
    var k :| 0 <= k < |s| && s[k] == ':';
    a, b := s[..k], s[k + 1..];
  }

  lemma MoveColon(a: string, b: string, c: string)
    ensures a + ":" + (b + ":" + c) == (a + ":" + b) + ":" + c
  {
  }

  /** A result with a colon in some field can be mistaken for another one. */
  lemma Mistaken(v: Vulnerability) returns (w: Vulnerability)
    requires !Colonless(v)
    ensures Key(w) == Key(v) && !SameResult(v, w)
  {
    hide Key, Decimal;
    KeyIs(v);
    var line := Decimal(v.line);
    var tail := v.similarityID + ":" + (v.searchKey + ":" + v.keyActualValue);
    if ':' in v.queryID {
      var a, b := CutAtColon(v.queryID);
      w := v.(queryID := a, fileName := b + ":" + v.fileName);
      MoveColon(a, b, v.fileName + ":" + (line + ":" + tail));
      MoveColon(b, v.fileName, line + ":" + tail);
    } else if ':' in v.fileName {
      var a, b := CutAtColon(v.fileName);
      w := v.(queryID := v.queryID + ":" + a, fileName := b);
      MoveColon(a, b, line + ":" + tail);
      MoveColon(v.queryID, a, b + ":" + (line + ":" + tail));
      assert |w.queryID| > |v.queryID|;
    } else if ':' in v.similarityID {
      var a, b := CutAtColon(v.similarityID);
      w := v.(similarityID := a, searchKey := b + ":" + v.searchKey);
      MoveColon(a, b, v.searchKey + ":" + v.keyActualValue);
      MoveColon(b, v.searchKey, v.keyActualValue);
    } else if ':' in v.searchKey {
      var a, b := CutAtColon(v.searchKey);
      w := v.(similarityID := v.similarityID + ":" + a, searchKey := b);
      MoveColon(a, b, v.keyActualValue);
      MoveColon(v.similarityID, a, b + ":" + v.keyActualValue);
      assert |w.similarityID| > |v.similarityID|;
    } else {
      var a, b := CutAtColon(v.keyActualValue);
      w := v.(searchKey := v.searchKey + ":" + a, keyActualValue := b);
      MoveColon(v.searchKey, a, b);
      assert |w.searchKey| > |v.searchKey|;
    }
    KeyIs(w);
  }

  /** The key of a result is the key of no different result exactly if the result holds no colon. */
  lemma KeyIsUnmistakable(v: Vulnerability)
    ensures (forall w :: Key(w) == Key(v) ==> SameResult(v, w)) <==> Colonless(v)
  {
    hide Key, SameResult;
    if !Colonless(v) {
      var w := Mistaken(v);
    } else {
      forall w | Key(w) == Key(v) ensures SameResult(v, w) {
        SameKeySameResult(v, w);
      }
    }
  }

  lemma SameKeySameResult(v: Vulnerability, w: Vulnerability)
    requires Colonless(v) && Key(w) == Key(v)
    ensures SameResult(v, w)
  {
    ColonlessIsZero(v);
    ColonlessIsZero(w);
    ColonsOfJoined(Identity(v));
    ColonsOfJoined(Identity(w));
    hide AllColons, Decimal, Joined;
    KeysTellResultsApart(v, w);
  }

  // ---- Storage ----

  function Dictionary(vs: seq<Vulnerability>): map<string, Vulnerability> {
    if vs == [] then map[] else Dictionary(vs[..|vs| - 1])[Key(vs[|vs| - 1]) := vs[|vs| - 1]]
  }

  /** One result per key: the last one that was saved with it. */
  ghost predicate Unique(saved: seq<Vulnerability>, vs: seq<Vulnerability>) {
    && (forall i, j | 0 <= i < j < |vs| :: Key(vs[i]) != Key(vs[j]))
    && (forall i | 0 <= i < |vs| :: IsLast(saved, vs[i]))
    && (forall v | v in saved :: exists i :: 0 <= i < |vs| && Key(vs[i]) == Key(v))
  }

  ghost predicate IsLast(saved: seq<Vulnerability>, v: Vulnerability) {
    exists k :: 0 <= k < |saved| && saved[k] == v && forall j | k < j < |saved| :: Key(saved[j]) != Key(v)
  }

  lemma {:induction false} DictionaryIs(vs: seq<Vulnerability>)
    ensures forall v | v in vs :: Key(v) in Dictionary(vs)
    ensures forall key | key in Dictionary(vs) :: Key(Dictionary(vs)[key]) == key && IsLast(vs, Dictionary(vs)[key])
  {
    hide Key;
    if vs != [] {
      var front, last := vs[..|vs| - 1], vs[|vs| - 1];
      DictionaryIs(front);
      assert vs == front + [last];
      forall key | key in Dictionary(vs) ensures IsLast(vs, Dictionary(vs)[key]) {
        if key == Key(last) {
          assert vs[|vs| - 1] == last;
        } else {
          var k :| 0 <= k < |front| && front[k] == Dictionary(front)[key] && forall j | k < j < |front| :: Key(front[j]) != key;
          assert vs[k] == front[k];
        }
      }
    }
  }

  /** `vs` lists the values of all keys of `d` except those in `rest`. */
  ghost predicate Listed(vs: seq<Vulnerability>, d: map<string, Vulnerability>, rest: set<string>) {
    && rest <= d.Keys
    && (forall i | 0 <= i < |vs| :: Key(vs[i]) in d && Key(vs[i]) !in rest && d[Key(vs[i])] == vs[i])
    && (forall i, j | 0 <= i < j < |vs| :: Key(vs[i]) != Key(vs[j]))
    && (forall key | key in d && key !in rest :: d[key] in vs)
  }

  lemma ListedStep(vs: seq<Vulnerability>, d: map<string, Vulnerability>, rest: set<string>, key: string)
    requires Listed(vs, d, rest) && key in rest && Key(d[key]) == key
    ensures Listed(vs + [d[key]], d, rest - {key})
  {
    hide Key;
  }

  lemma ListedAll(saved: seq<Vulnerability>, vs: seq<Vulnerability>)
    requires Listed(vs, Dictionary(saved), {})
    ensures Unique(saved, vs) && (vs == [] ==> saved == [])
  {
    DictionaryIs(saved);
    hide Key, Dictionary, IsLast;
    forall v | v in saved ensures exists i :: 0 <= i < |vs| && Key(vs[i]) == Key(v) {
      var w := Dictionary(saved)[Key(v)];
      var i :| 0 <= i < |vs| && vs[i] == w;
    }
    assert saved != [] ==> saved[0] in saved;
  }

  class MemoryStorage {
    var vulnerabilities: seq<Vulnerability>

    constructor ()
      ensures vulnerabilities == []
    {
      vulnerabilities := [];
    }

    method SaveVulnerabilities(vs: seq<Vulnerability>)
      modifies this
      ensures vulnerabilities == old(vulnerabilities) + vs
    {
      vulnerabilities := vulnerabilities + vs;
    }

    /** The map is read in whatever order it yields its keys. */
    method GetVulnerabilities() returns (vs: seq<Vulnerability>)
      ensures Unique(vulnerabilities, vs)
    {
      hide Key, IsLast, Unique;
      var vulnDictionary: map<string, Vulnerability> := map[];
      for i := 0 to |vulnerabilities|
        invariant vulnDictionary == Dictionary(vulnerabilities[..i])
      {
        assert vulnerabilities[..i + 1][..i] == vulnerabilities[..i];
        vulnDictionary := vulnDictionary[Key(vulnerabilities[i]) := vulnerabilities[i]];
      }
      assert vulnerabilities[..|vulnerabilities|] == vulnerabilities;
      DictionaryIs(vulnerabilities);
      vs := [];
      var rest := vulnDictionary.Keys;
      assert Listed(vs, vulnDictionary, rest);
      hide Listed, Dictionary;
      while rest != {}
        invariant rest <= vulnDictionary.Keys && Listed(vs, vulnDictionary, rest)
      {
        var key :| key in rest;
        ListedStep(vs, vulnDictionary, rest, key);
        vs := vs + [vulnDictionary[key]];
        rest := rest - {key};
      }
      ListedAll(vulnerabilities, vs);
      if |vs| == 0 {
        vs := vulnerabilities;
      }
    }
  }

  ghost function Keys(vs: seq<Vulnerability>): set<string> {
    set v | v in vs :: Key(v)
  }

  lemma {:induction false} DistinctKeysCount(vs: seq<Vulnerability>)
    requires forall i, j | 0 <= i < j < |vs| :: Key(vs[i]) != Key(vs[j])
    ensures |Keys(vs)| == |vs|
  {
    hide Key;
    if vs != [] {
      var front, last := vs[..|vs| - 1], vs[|vs| - 1];
      DistinctKeysCount(front);
      assert vs == front + [last];
      assert Keys(vs) == Keys(front) + {Key(last)};
    }
  }

  /** There are as many unique results as different keys were ever saved. */
  lemma UniqueCount(saved: seq<Vulnerability>, vs: seq<Vulnerability>)
    requires Unique(saved, vs)
    ensures |vs| == |Keys(saved)|
  {
    hide Key;
    DistinctKeysCount(vs);
    forall key ensures key in Keys(vs) <==> key in Keys(saved) {
      if v :| v in vs && Key(v) == key {
        assert IsLast(saved, v);
      }
      if v :| v in saved && Key(v) == key {
        var i :| 0 <= i < |vs| && Key(vs[i]) == Key(v);
        assert vs[i] in vs;
      }
    }
    assert Keys(vs) == Keys(saved);
  }

  // ---- Grouping by query ----

  datatype File = File(path: string, v: Vulnerability)

  datatype QueryResult = QueryResult(queryID: string, queryName: string, severity: Severity, files: seq<File>)

  type Resolver = string -> string

  /** The findings of one query, in their order. */
  function FilesOf(vs: seq<Vulnerability>, id: string, resolve: Resolver): seq<File> {
    if vs == [] then []
    else
      var v := vs[|vs| - 1];
      FilesOf(vs[..|vs| - 1], id, resolve) + if v.queryID == id then [File(resolve(v.fileName), v)] else []
  }

  ghost predicate IsFirst(vs: seq<Vulnerability>, k: int, id: string) {
    0 <= k < |vs| && vs[k].queryID == id && forall i | 0 <= i < k :: vs[i].queryID != id
  }

  ghost predicate HasQuery(vs: seq<Vulnerability>, id: string) {
    exists i :: 0 <= i < |vs| && vs[i].queryID == id
  }

  /** The result of a query: name and severity of its first finding, and all its findings. */
  ghost predicate IsResult(q: QueryResult, vs: seq<Vulnerability>, id: string, resolve: Resolver) {
    && q.queryID == id && q.files == FilesOf(vs, id, resolve)
    && exists k :: IsFirst(vs, k, id) && q.queryName == vs[k].queryName && q.severity == vs[k].severity
  }

  ghost predicate Grouped(q: map<string, QueryResult>, vs: seq<Vulnerability>, resolve: Resolver) {
    && (forall id :: id in q <==> HasQuery(vs, id))
    && (forall id | id in q :: IsResult(q[id], vs, id, resolve))
  }

  lemma {:induction false} NoFiles(vs: seq<Vulnerability>, id: string, resolve: Resolver)
    ensures FilesOf(vs, id, resolve) == [] <==> !HasQuery(vs, id)
  {
    if vs != [] {
      var front := vs[..|vs| - 1];
      NoFiles(front, id, resolve);
      assert vs == front + [vs[|vs| - 1]];
      if HasQuery(front, id) {
        var i :| 0 <= i < |front| && front[i].queryID == id;
        assert vs[i] == front[i];
      }
    }
  }

  lemma HasQueryStep(vs: seq<Vulnerability>, v: Vulnerability, id: string)
    ensures HasQuery(vs + [v], id) <==> HasQuery(vs, id) || v.queryID == id
  {
    var vs' := vs + [v];
    assert vs'[|vs|] == v;
    if HasQuery(vs, id) {
      var i :| 0 <= i < |vs| && vs[i].queryID == id;
      assert vs'[i].queryID == id;
    }
  }

  lemma FilesStep(vs: seq<Vulnerability>, v: Vulnerability, id: string, resolve: Resolver)
    ensures FilesOf(vs + [v], id, resolve) ==
            FilesOf(vs, id, resolve) + if v.queryID == id then [File(resolve(v.fileName), v)] else []
  {
    assert (vs + [v])[..|vs|] == vs;
  }

  /** A query with findings keeps the name and severity of the first one. */
  lemma ResultGrows(vs: seq<Vulnerability>, v: Vulnerability, q: QueryResult, id: string, resolve: Resolver)
    requires IsResult(q, vs, id, resolve)
    ensures IsResult(if v.queryID == id then q.(files := q.files + [File(resolve(v.fileName), v)]) else q, vs + [v], id, resolve)
  {
    FilesStep(vs, v, id, resolve);
    hide FilesOf;
    var k :| IsFirst(vs, k, id) && q.queryName == vs[k].queryName && q.severity == vs[k].severity;
    assert IsFirst(vs + [v], k, id) && (vs + [v])[k] == vs[k];
  }

  lemma ResultStarts(vs: seq<Vulnerability>, v: Vulnerability, resolve: Resolver)
    requires !HasQuery(vs, v.queryID)
    ensures IsResult(QueryResult(v.queryID, v.queryName, v.severity, [File(resolve(v.fileName), v)]), vs + [v], v.queryID, resolve)
  {
    FilesStep(vs, v, v.queryID, resolve);
    NoFiles(vs, v.queryID, resolve);
    hide FilesOf;
    assert IsFirst(vs + [v], |vs|, v.queryID);
  }

  lemma GroupedStep(q: map<string, QueryResult>, vs: seq<Vulnerability>, resolve: Resolver, v: Vulnerability, r: QueryResult)
    requires Grouped(q, vs, resolve)
    requires
      var start := if v.queryID in q then q[v.queryID] else QueryResult(v.queryID, v.queryName, v.severity, []);
      r == start.(files := start.files + [File(resolve(v.fileName), v)])
    ensures Grouped(q[v.queryID := r], vs + [v], resolve)
  {
    hide IsResult, HasQuery;
    var q', vs' := q[v.queryID := r], vs + [v];
    forall id ensures id in q' <==> HasQuery(vs', id) {
      HasQueryStep(vs, v, id);
    }
    forall id | id in q' ensures IsResult(q'[id], vs', id, resolve) {
      if id in q {
        ResultGrows(vs, v, q[id], id, resolve);
      } else {
        ResultStarts(vs, v, resolve);
        assert [] + [File(resolve(v.fileName), v)] == [File(resolve(v.fileName), v)];
      }
    }
  }

  // ---- Counting ----

  /** The number of findings of the queries `ids`. */
  function Count(vs: seq<Vulnerability>, ids: set<string>): nat {
    if vs == [] then 0 else Count(vs[..|vs| - 1], ids) + if vs[|vs| - 1].queryID in ids then 1 else 0
  }

  lemma {:induction false} CountOneMore(vs: seq<Vulnerability>, ids: set<string>, id: string, resolve: Resolver)
    requires id !in ids
    ensures Count(vs, ids + {id}) == Count(vs, ids) + |FilesOf(vs, id, resolve)|
  {
    if vs != [] {
      CountOneMore(vs[..|vs| - 1], ids, id, resolve);
    }
  }

  lemma {:induction false} CountAll(vs: seq<Vulnerability>, ids: set<string>)
    requires forall i | 0 <= i < |vs| :: vs[i].queryID in ids
    ensures Count(vs, ids) == |vs|
  {
    if vs != [] {
      CountAll(vs[..|vs| - 1], ids);
    }
  }

  lemma {:induction false} CountSplit(vs: seq<Vulnerability>, a: set<string>, b: set<string>)
    requires a !! b
    ensures Count(vs, a + b) == Count(vs, a) + Count(vs, b)
  {
    if vs != [] {
      CountSplit(vs[..|vs| - 1], a, b);
    }
  }

  ghost function SumOf(m: map<Severity, nat>): nat {
    if m == map[] then 0
    else
      var s :| s in m;
      m[s] + SumOf(m - {s})
  }

  lemma {:induction false} SumWithout(m: map<Severity, nat>, s: Severity)
    requires s in m
    ensures SumOf(m) == m[s] + SumOf(m - {s})
    decreases m
  {
    var t :| t in m && SumOf(m) == m[t] + SumOf(m - {t});
    if t != s {
      SumWithout(m - {t}, s);
      SumWithout(m - {s}, t);
      assert m - {t} - {s} == m - {s} - {t};
    }
  }

  lemma SumUpdate(m: map<Severity, nat>, s: Severity, n: nat)
    ensures SumOf(m[s := n]) == SumOf(m) - (if s in m then m[s] else 0) + n
  {
    SumWithout(m[s := n], s);
    if s in m {
      SumWithout(m, s);
    }
    assert m[s := n] - {s} == m - {s};
    assert s !in m ==> m - {s} == m;
  }

  // ---- The order of the queries ----

  /** A severity that the order does not list is looked up as 0. */
  function Rank(s: Severity): nat {
    match s
    case Critical => 0
    case High => 1
    case Medium => 2
    case Low => 3
    case Info => 4
    case Trace => 5
    case Unknown(_) => 0
  }

  predicate Before(a: string, b: string) {
    if b == "" then false else if a == "" then true
    else a[0] < b[0] || (a[0] == b[0] && Before(a[1..], b[1..]))
  }

  lemma {:induction false} NotBeforeTransitive(a: string, b: string, c: string)
    requires !Before(b, a) && !Before(c, b)
    ensures !Before(c, a)
    decreases |a|
  {
    if a != "" && b != "" && c != "" && a[0] == b[0] == c[0] {
      NotBeforeTransitive(a[1..], b[1..], c[1..]);
    }
  }

  lemma {:induction false} NotBeforeBoth(a: string, b: string)
    ensures !Before(a, b) || !Before(b, a)
    decreases |a|
  {
    if a != "" && b != "" && a[0] == b[0] {
      NotBeforeBoth(a[1..], b[1..]);
    }
  }

  predicate Sooner(p: QueryResult, q: QueryResult) {
    if Rank(p.severity) == Rank(q.severity) then Before(p.queryName, q.queryName) else Rank(p.severity) < Rank(q.severity)
  }

  const NOT_LATER: (QueryResult, QueryResult) -> bool := (p, q) => !Sooner(q, p)

  lemma OrderOfQueries()
    ensures Transitive(NOT_LATER) && Total(NOT_LATER)
  {
    hide Before;
    forall p, q, r | NOT_LATER(p, q) && NOT_LATER(q, r) ensures NOT_LATER(p, r) {
      if Rank(p.severity) == Rank(q.severity) == Rank(r.severity) {
        NotBeforeTransitive(p.queryName, q.queryName, r.queryName);
      }
    }
    forall p, q ensures NOT_LATER(p, q) || NOT_LATER(q, p) {
      NotBeforeBoth(p.queryName, q.queryName);
    }
  }

  /** From the most severe one on; an unknown severity counts as critical. */
  const SEVERITIES: seq<Severity> := [Critical, High, Medium, Low, Info, Trace]

  ghost predicate HasSeverity(q: QueryResult, k: int) {
    0 <= k < 6 && (q.severity == SEVERITIES[k] || (q.severity.Unknown? && k == 0))
  }

  /** More severe queries come first, and those of the same severity are in the order of their names. */
  ghost predicate BySeverity(qs: seq<QueryResult>) {
    forall i, j, a, b | 0 <= i < j < |qs| && HasSeverity(qs[i], a) && HasSeverity(qs[j], b) ::
      a < b || (a == b && !Before(qs[j].queryName, qs[i].queryName))
  }

  lemma RankIs(q: QueryResult, k: int)
    requires HasSeverity(q, k)
    ensures Rank(q.severity) == k
  {
    assert k == 0 || k == 1 || k == 2 || k == 3 || k == 4 || k == 5;
  }

  lemma OrderedBySeverity(qs: seq<QueryResult>)
    requires Ordered(qs, NOT_LATER)
    ensures BySeverity(qs)
  {
    hide Before, HasSeverity;
    forall i, j, a, b | 0 <= i < j < |qs| && HasSeverity(qs[i], a) && HasSeverity(qs[j], b)
      ensures a < b || (a == b && !Before(qs[j].queryName, qs[i].queryName))
    {
      RankIs(qs[i], a);
      RankIs(qs[j], b);
      assert NOT_LATER(qs[i], qs[j]);
    }
  }

  /** A name comes before another exactly if it is a proper start of it or has the smaller character where they
      first differ. */
  lemma {:induction false} BeforeIs(a: string, b: string)
    ensures Before(a, b) <==> exists k :: DiffersAt(a, b, k)
    decreases |a|
  {
    if a != "" && b != "" && a[0] == b[0] {
      BeforeIs(a[1..], b[1..]);
      forall k | k > 0 ensures DiffersAt(a, b, k) <==> DiffersAt(a[1..], b[1..], k - 1) {
        DiffersBehind(a, b, k);
      }
      assert !DiffersAt(a, b, 0);
      if k :| DiffersAt(a[1..], b[1..], k) {
        assert DiffersAt(a, b, k + 1);
      }
    } else if a != "" && b != "" {
      forall k ensures DiffersAt(a, b, k) ==> k == 0 {
        DiffersInFront(a, b, k);
      }
      assert a[0] < b[0] ==> DiffersAt(a, b, 0);
    } else if b != "" {
      assert DiffersAt(a, b, 0);
    }
  }

  lemma DiffersInFront(a: string, b: string, k: int)
    requires a != "" && b != "" && a[0] != b[0]
    ensures DiffersAt(a, b, k) ==> k == 0
  {
    if 0 < k <= |a| && k < |b| {
      assert a[..k][0] == a[0] && b[..k][0] == b[0];
    }
  }

  ghost predicate DiffersAt(a: string, b: string, k: int) {
    0 <= k <= |a| && k < |b| && a[..k] == b[..k] && (k == |a| || a[k] < b[k])
  }

  lemma DiffersBehind(a: string, b: string, k: int)
    requires a != "" && b != "" && a[0] == b[0] && k > 0
    ensures DiffersAt(a, b, k) <==> DiffersAt(a[1..], b[1..], k - 1)
  {
    if k <= |a| && k <= |b| {
      assert a[..k] == [a[0]] + a[1..][..k - 1] && b[..k] == [b[0]] + b[1..][..k - 1];
      assert a[..k][1..] == a[1..][..k - 1] && b[..k][1..] == b[1..][..k - 1];
    }
  }

  // ---- The summary ----

  datatype Summary = Summary(
    queries: seq<QueryResult>, bom: seq<QueryResult>,
    severityCounters: map<Severity, nat>, totalCounter: nat, totalBOMResources: nat,
    filePaths: map<string, string>)

  const NO_COUNTS: map<Severity, nat> :=
    map[Trace := 0, Info := 0, Low := 0, Medium := 0, High := 0, Critical := 0]

  /** `qs` lists the results of exactly the queries `ids`, each once. */
  ghost predicate ListsQueries(qs: seq<QueryResult>, q: map<string, QueryResult>, ids: set<string>) {
    && ids <= q.Keys
    && (forall i | 0 <= i < |qs| :: qs[i].queryID in ids && qs[i] == q[qs[i].queryID])
    && (forall i, j | 0 <= i < j < |qs| :: qs[i].queryID != qs[j].queryID)
    && (forall id | id in ids :: q[id] in qs)
  }

  ghost predicate IDsMatch(q: map<string, QueryResult>) {
    forall id | id in q :: q[id].queryID == id
  }

  lemma ListOneMore(qs: seq<QueryResult>, q: map<string, QueryResult>, ids: set<string>, id: string)
    requires IDsMatch(q) && ListsQueries(qs, q, ids) && id in q && id !in ids
    ensures ListsQueries(qs + [q[id]], q, ids + {id})
  {
  }

  lemma ListSorted(qs: seq<QueryResult>, sorted: seq<QueryResult>, q: map<string, QueryResult>, ids: set<string>)
    requires IDsMatch(q) && ListsQueries(qs, q, ids) && multiset(sorted) == multiset(qs)
    ensures ListsQueries(sorted, q, ids)
  {
    forall i | 0 <= i < |sorted| ensures sorted[i] in qs {
      assert sorted[i] in multiset(sorted);
    }
    forall id | id in ids ensures q[id] in sorted {
      assert q[id] in multiset(qs);
    }
    forall i, j | 0 <= i < j < |sorted| ensures sorted[i].queryID != sorted[j].queryID {
      if sorted[i].queryID == sorted[j].queryID {
        assert sorted[i] == sorted[j];
        assert sorted == sorted[..j] + sorted[j..];
        assert sorted[..j][i] == sorted[j..][0];
        assert multiset(sorted)[sorted[i]] >= 2;
        Once(qs, sorted[i]);
      }
    }
  }

  lemma {:induction false} Once(qs: seq<QueryResult>, x: QueryResult)
    requires forall i, j | 0 <= i < j < |qs| :: qs[i].queryID != qs[j].queryID
    ensures multiset(qs)[x] <= 1
  {
    if qs != [] {
      Once(qs[..|qs| - 1], x);
      assert qs == qs[..|qs| - 1] + [qs[|qs| - 1]];
      if x == qs[|qs| - 1] {
        assert x !in qs[..|qs| - 1];
      }
    }
  }

  ghost function WithSeverity(q: map<string, QueryResult>, done: set<string>, s: Severity): set<string>
    requires done <= q.Keys
  {
    set id | id in done && q[id].severity == s
  }

  ghost predicate CountsOk(counts: map<Severity, nat>, vs: seq<Vulnerability>, q: map<string, QueryResult>, done: set<string>)
    requires done <= q.Keys
  {
    && NO_COUNTS.Keys <= counts.Keys
    && (forall s | s in counts :: counts[s] == Count(vs, WithSeverity(q, done, s)))
    && (forall id | id in done :: q[id].severity in counts)
    && SumOf(counts) == Count(vs, done)
  }

  lemma {:induction false} CountNone(vs: seq<Vulnerability>)
    ensures Count(vs, {}) == 0
  {
    if vs != [] {
      CountNone(vs[..|vs| - 1]);
    }
  }

  lemma NoCounts(vs: seq<Vulnerability>, q: map<string, QueryResult>)
    ensures CountsOk(NO_COUNTS, vs, q, {})
  {
    CountNone(vs);
    forall s ensures WithSeverity(q, {}, s) == {} {
    }
    SumZero(NO_COUNTS);
  }

  lemma {:induction false} SumZero(m: map<Severity, nat>)
    requires forall s | s in m :: m[s] == 0
    ensures SumOf(m) == 0
    decreases m
  {
    if m != map[] {
      var s :| s in m && SumOf(m) == m[s] + SumOf(m - {s});
      SumZero(m - {s});
    }
  }

  lemma SeverityStep(counts: map<Severity, nat>, vs: seq<Vulnerability>, q: map<string, QueryResult>, done: set<string>, id: string,
                     resolve: Resolver, t: Severity)
    requires done <= q.Keys && id in q && id !in done && CountsOk(counts, vs, q, done)
    requires q[id].files == FilesOf(vs, id, resolve) && (t in counts || t == q[id].severity)
    ensures Count(vs, WithSeverity(q, done + {id}, t)) ==
            (if t in counts then counts[t] else 0) + if t == q[id].severity then |q[id].files| else 0
  {
    CountNone(vs);
    CountOneMore(vs, WithSeverity(q, done, t), id, resolve);
    hide SumOf, Count, FilesOf;
    if t == q[id].severity {
      assert WithSeverity(q, done + {id}, t) == WithSeverity(q, done, t) + {id};
      assert t !in counts ==> WithSeverity(q, done, t) == {};
    } else {
      assert WithSeverity(q, done + {id}, t) == WithSeverity(q, done, t);
    }
  }

  lemma CountsStep(counts: map<Severity, nat>, vs: seq<Vulnerability>, q: map<string, QueryResult>, done: set<string>, id: string, resolve: Resolver)
    requires done <= q.Keys && id in q && id !in done && CountsOk(counts, vs, q, done)
    requires q[id].files == FilesOf(vs, id, resolve)
    ensures
      var s := q[id].severity;
      CountsOk(counts[s := (if s in counts then counts[s] else 0) + |q[id].files|], vs, q, done + {id})
  {
    hide SumOf, Count, FilesOf, WithSeverity;
    var s := q[id].severity;
    var counts' := counts[s := (if s in counts then counts[s] else 0) + |q[id].files|];
    CountOneMore(vs, done, id, resolve);
    SumUpdate(counts, s, counts'[s]);
    forall t | t in counts' ensures counts'[t] == Count(vs, WithSeverity(q, done + {id}, t)) {
      SeverityStep(counts, vs, q, done, id, resolve, t);
    }
  }

  lemma ReportedStep(q: map<string, QueryResult>, done: set<string>, id: string)
    requires done <= q.Keys && id in q
    ensures Reported(q, done + {id}) == if q[id].severity != Trace then Reported(q, done) + {id} else Reported(q, done)
    ensures WithSeverity(q, done + {id}, Trace) ==
            if q[id].severity == Trace then WithSeverity(q, done, Trace) + {id} else WithSeverity(q, done, Trace)
    ensures id !in done ==> id !in Reported(q, done) && id !in WithSeverity(q, done, Trace)
  {
  }

  ghost function Reported(q: map<string, QueryResult>, done: set<string>): set<string>
    requires done <= q.Keys
  {
    set id | id in done && q[id].severity != Trace
  }

  /** Where two findings resolve to the same path, the later file name stays. */
  function PathsOf(vs: seq<Vulnerability>, resolve: Resolver): map<string, string> {
    if vs == [] then map[]
    else PathsOf(vs[..|vs| - 1], resolve)[resolve(vs[|vs| - 1].fileName) := vs[|vs| - 1].fileName]
  }

  lemma {:induction false} PathsLeadBack(vs: seq<Vulnerability>, resolve: Resolver)
    ensures forall p :: p in PathsOf(vs, resolve) <==> exists v :: v in vs && resolve(v.fileName) == p
    ensures forall p | p in PathsOf(vs, resolve) :: resolve(PathsOf(vs, resolve)[p]) == p
  {
    if vs != [] {
      PathsLeadBack(vs[..|vs| - 1], resolve);
      assert vs == vs[..|vs| - 1] + [vs[|vs| - 1]];
    }
  }

  method GroupByQuery(vs: seq<Vulnerability>, resolve: Resolver)
    returns (q: map<string, QueryResult>, filePaths: map<string, string>)
    ensures Grouped(q, vs, resolve)
    ensures filePaths == PathsOf(vs, resolve)
  {
    q, filePaths := map[], map[];
    for i := 0 to |vs|
      invariant Grouped(q, vs[..i], resolve)
      invariant filePaths == PathsOf(vs[..i], resolve)
    {
      var item := vs[i];
      ghost var before := q;
      assert vs[..i + 1] == vs[..i] + [item];
      hide Grouped;
      if item.queryID !in q {
        q := q[item.queryID := QueryResult(item.queryID, item.queryName, item.severity, [])];
      }
      var qItem := q[item.queryID];
      qItem := qItem.(files := qItem.files + [File(resolve(item.fileName), item)]);
      filePaths := filePaths[resolve(item.fileName) := item.fileName];
      q := q[item.queryID := qItem];
      assert q == before[item.queryID := qItem];
      GroupedStep(before, vs[..i], resolve, item, qItem);
    }
    assert vs[..|vs|] == vs;
  }

  /** What a summary says about the findings it was made of. */
  ghost predicate Summarizes(s: Summary, vs: seq<Vulnerability>, q: map<string, QueryResult>, resolve: Resolver) {
    && Grouped(q, vs, resolve)
    && ListsQueries(s.queries, q, Reported(q, q.Keys)) && Ordered(s.queries, NOT_LATER)
    && ListsQueries(s.bom, q, WithSeverity(q, q.Keys, Trace))
    && CountsOk(s.severityCounters, vs, q, q.Keys)
    && s.totalCounter == Count(vs, Reported(q, q.Keys))
    && s.totalBOMResources == Count(vs, WithSeverity(q, q.Keys, Trace))
  }

  lemma GroupedFiles(q: map<string, QueryResult>, vs: seq<Vulnerability>, resolve: Resolver)
    requires Grouped(q, vs, resolve)
    ensures IDsMatch(q) && forall id | id in q :: q[id].files == FilesOf(vs, id, resolve)
    ensures forall i | 0 <= i < |vs| :: vs[i].queryID in q
  {
    forall i | 0 <= i < |vs| ensures vs[i].queryID in q {
      assert HasQuery(vs, vs[i].queryID);
    }
  }

  method CountQueries(vs: seq<Vulnerability>, q: map<string, QueryResult>, resolve: Resolver)
    returns (queries: seq<QueryResult>, sevs: map<Severity, nat>, total: nat)
    requires IDsMatch(q) && forall id | id in q :: q[id].files == FilesOf(vs, id, resolve)
    ensures ListsQueries(queries, q, Reported(q, q.Keys)) && CountsOk(sevs, vs, q, q.Keys)
    ensures total == Count(vs, Reported(q, q.Keys))
  {
    hide *;
    queries, sevs, total := [], NO_COUNTS, 0;
    ghost var done: set<string> := {};
    var todo := q.Keys;
    NothingCounted(vs, q);
    while todo != {}
      invariant todo !! done && todo + done == q.Keys
      invariant ListsQueries(queries, q, Reported(q, done)) && CountsOk(sevs, vs, q, done)
      invariant total == Count(vs, Reported(q, done))
    {
      var idx :| idx in todo;
      ReportedStep(q, done, idx);
      CountsStep(sevs, vs, q, done, idx, resolve);
      CountOneMore(vs, Reported(q, done), idx, resolve);
      ListOneMore(queries, q, Reported(q, done), idx);
      var s := q[idx].severity;
      sevs := sevs[s := (if s in sevs then sevs[s] else 0) + |q[idx].files|];
      if s != Trace {
        queries := queries + [q[idx]];
        total := total + |q[idx].files|;
      }
      todo, done := todo - {idx}, done + {idx};
    }
    assert done == q.Keys;
  }

  lemma NothingCounted(vs: seq<Vulnerability>, q: map<string, QueryResult>)
    ensures CountsOk(NO_COUNTS, vs, q, {})
    ensures ListsQueries([], q, Reported(q, {})) && Count(vs, Reported(q, {})) == 0
    ensures ListsQueries([], q, WithSeverity(q, {}, Trace)) && Count(vs, WithSeverity(q, {}, Trace)) == 0
  {
    NoCounts(vs, q);
    CountNone(vs);
    hide CountsOk, Count;
    assert Reported(q, {}) == {} == WithSeverity(q, {}, Trace);
  }

  method ListMaterials(vs: seq<Vulnerability>, q: map<string, QueryResult>, resolve: Resolver)
    returns (materials: seq<QueryResult>, total: nat)
    requires IDsMatch(q) && forall id | id in q :: q[id].files == FilesOf(vs, id, resolve)
    ensures ListsQueries(materials, q, WithSeverity(q, q.Keys, Trace))
    ensures total == Count(vs, WithSeverity(q, q.Keys, Trace))
  {
    hide *;
    materials, total := [], 0;
    ghost var done: set<string> := {};
    var todo := q.Keys;
    NothingCounted(vs, q);
    while todo != {}
      invariant todo !! done && todo + done == q.Keys
      invariant ListsQueries(materials, q, WithSeverity(q, done, Trace))
      invariant total == Count(vs, WithSeverity(q, done, Trace))
    {
      var idx :| idx in todo;
      ReportedStep(q, done, idx);
      CountOneMore(vs, WithSeverity(q, done, Trace), idx, resolve);
      ListOneMore(materials, q, WithSeverity(q, done, Trace), idx);
      if q[idx].severity == Trace {
        materials := materials + [q[idx]];
        total := total + |q[idx].files|;
      }
      todo, done := todo - {idx}, done + {idx};
    }
    assert done == q.Keys;
  }

  method CreateSummary(vs: seq<Vulnerability>, resolve: Resolver) returns (s: Summary, ghost q: map<string, QueryResult>)
    ensures Summarizes(s, vs, q, resolve)
    ensures s.filePaths == PathsOf(vs, resolve)
    ensures BySeverity(s.queries)
  {
    var groups, filePaths := GroupByQuery(vs, resolve);
    q := groups;
    GroupedFiles(groups, vs, resolve);
    hide Grouped, ListsQueries, CountsOk, Count, FilesOf, IDsMatch;
    var queries, sevs, total := CountQueries(vs, groups, resolve);
    OrderOfQueries();
    var sorted := SortBy(queries, NOT_LATER);
    OrderedBySeverity(sorted);
    ListSorted(queries, sorted, groups, Reported(groups, groups.Keys));
    var materials, boms := ListMaterials(vs, groups, resolve);
    s := Summary(sorted, materials, sevs, total, boms, filePaths);
  }

  /** Every finding is counted exactly once among the reported ones and the bill of materials, and
      exactly once under some severity. */
  lemma SummaryConserves(s: Summary, vs: seq<Vulnerability>, q: map<string, QueryResult>, resolve: Resolver)
    requires Summarizes(s, vs, q, resolve)
    ensures s.totalCounter + s.totalBOMResources == |vs| == SumOf(s.severityCounters)
  {
    GroupedFiles(q, vs, resolve);
    CountAll(vs, q.Keys);
    var a, b := Reported(q, q.Keys), WithSeverity(q, q.Keys, Trace);
    CountSplit(vs, a, b);
    assert a + b == q.Keys;
  }

  /** The totals of a scan are the number of different keys ever saved. */
  method Report(storage: MemoryStorage, resolve: Resolver) returns (s: Summary)
    ensures s.totalCounter + s.totalBOMResources == |Keys(storage.vulnerabilities)| == SumOf(s.severityCounters)
  {
    var vs := storage.GetVulnerabilities();
    ghost var q;
    s, q := CreateSummary(vs, resolve);
    SummaryConserves(s, vs, q, resolve);
    UniqueCount(storage.vulnerabilities, vs);
  }
}
