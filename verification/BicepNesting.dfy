/** Nesting of Bicep resources under the resources they name as their parent. */
module BicepNesting {
  import opened Sequences
  import opened Strings

  datatype Json =
    | JStr(s: string)
    | JObj(fields: map<string, Json>)
    | JList(items: seq<Json>)
    | JOther(id: int)

  type Fields = map<string, Json>

  // ---- Resources as values ----

  datatype Info = Info(name: string, fullType: string, parent: string, data: Fields)

  function StringField(fields: Fields, key: string): (s: seq<string>)
    ensures |s| <= 1
  {
    if key in fields && fields[key].JStr? then [fields[key].s] else []
  }

  /** A resource needs a name and a type, and its parent, if it has one, has to be a string. */
  predicate WellFormed(res: Json) {
    && res.JObj?
    && StringField(res.fields, "identifier") != []
    && StringField(res.fields, "type") != []
    && ("parent" in res.fields ==> StringField(res.fields, "parent") != [])
  }

  function ToInfo(res: Json): Info
    requires WellFormed(res)
  {
    var parent := if "parent" in res.fields then StringField(res.fields, "parent")[0] else "";
    Info(StringField(res.fields, "identifier")[0], StringField(res.fields, "type")[0], parent, res.fields)
  }

  /** The resources up to the first ill-formed one. */
  function ToInfos(resources: seq<Json>): seq<Info> {
    if resources == [] || !WellFormed(resources[0]) then [] else [ToInfo(resources[0])] + ToInfos(resources[1..])
  }

  // ---- The parent links ----

  /** The index of the last resource with this name, or -1. */
  function LastNamed(rs: seq<Info>, name: string): (k: int)
    ensures -1 <= k < |rs|
  {
    if rs == [] then -1
    else if rs[|rs| - 1].name == name then |rs| - 1
    else LastNamed(rs[..|rs| - 1], name)
  }

  /** The index of the parent, or -1 for a root and for a dangling parent name. */
  function ParentOf(rs: seq<Info>, i: nat): (k: int)
    requires i < |rs|
    ensures -1 <= k < |rs|
  {
    if rs[i].parent == "" then -1 else LastNamed(rs, rs[i].parent)
  }

  function ChildrenBelow(rs: seq<Info>, i: nat, n: nat): (cs: seq<nat>)
    requires n <= |rs|
  {
    if n == 0 then []
    else if ParentOf(rs, n - 1) == i then ChildrenBelow(rs, i, n - 1) + [n - 1]
    else ChildrenBelow(rs, i, n - 1)
  }

  lemma {:induction false} ChildrenAre(rs: seq<Info>, i: nat, n: nat)
    requires n <= |rs|
    ensures forall c :: c in ChildrenBelow(rs, i, n) <==> 0 <= c < n && ParentOf(rs, c) == i
    ensures Distinct(ChildrenBelow(rs, i, n))
  {
    if n > 0 {
      ChildrenAre(rs, i, n - 1);
    }
  }

  /** The children of `i` in source order. */
  function ChildrenOf(rs: seq<Info>, i: nat): seq<nat> {
    ChildrenBelow(rs, i, |rs|)
  }

  lemma {:induction false} RootsAre(rs: seq<Info>, n: nat)
    requires n <= |rs|
    ensures forall r :: r in RootsBelow(rs, n) <==> 0 <= r < n && rs[r].parent == ""
    ensures Distinct(RootsBelow(rs, n))
  {
    if n > 0 {
      RootsAre(rs, n - 1);
    }
  }

  function RootsBelow(rs: seq<Info>, n: nat): (roots: seq<nat>)
    requires n <= |rs|
  {
    if n == 0 then []
    else if rs[n - 1].parent == "" then RootsBelow(rs, n - 1) + [n - 1]
    else RootsBelow(rs, n - 1)
  }

  function Roots(rs: seq<Info>): seq<nat> {
    RootsBelow(rs, |rs|)
  }

  /** The parent chain of `i` ends at a root after `d` steps. */
  ghost predicate RootedAt(rs: seq<Info>, i: nat, d: nat)
    requires i < |rs|
    decreases d
  {
    if d == 0 then rs[i].parent == ""
    else ParentOf(rs, i) >= 0 && RootedAt(rs, ParentOf(rs, i), d - 1)
  }

  ghost predicate Rooted(rs: seq<Info>, i: nat)
    requires i < |rs|
  {
    exists d :: RootedAt(rs, i, d)
  }

  lemma {:induction false} DepthUnique(rs: seq<Info>, i: nat, d: nat, e: nat)
    requires i < |rs| && RootedAt(rs, i, d) && RootedAt(rs, i, e)
    ensures d == e
    decreases d
  {
    if d > 0 && e > 0 {
      DepthUnique(rs, ParentOf(rs, i), d - 1, e - 1);
    }
  }

  /** The chain from `i` up to its root. */
  ghost function Chain(rs: seq<Info>, i: nat, d: nat): (c: seq<nat>)
    requires i < |rs| && RootedAt(rs, i, d)
    ensures |c| == d + 1 && Within(c, |rs|)
    ensures forall k | 0 <= k <= d :: RootedAt(rs, c[k], d - k)
    decreases d
  {
    if d == 0 then [i]
    else
      var rest := Chain(rs, ParentOf(rs, i), d - 1);
      assert forall k | 1 <= k <= d :: ([i] + rest)[k] == rest[k - 1];
      [i] + rest
  }

  /** A chain never meets a resource twice, so it is shorter than the list, cyclic parent links or not. */
  lemma DepthBound(rs: seq<Info>, i: nat, d: nat)
    requires i < |rs| && RootedAt(rs, i, d)
    ensures d < |rs|
  {
    var c := Chain(rs, i, d);
    forall k, l | 0 <= k < l < |c| ensures c[k] != c[l] {
      if c[k] == c[l] {
        DepthUnique(rs, c[k], d - k, d - l);
      }
    }
    Pigeonhole(c, |rs|);
  }

  // ---- The nested output ----

  function WithChildType(fields: Fields, parentType: string): Fields {
    if "type" in fields && fields["type"].JStr? && parentType != "" then
      fields["type" := JStr(ReplaceFirst(fields["type"].s, parentType + "/", ""))]
    else fields
  }

  ghost predicate AllRootedAt(rs: seq<Info>, cs: seq<nat>, d: nat) {
    forall k | 0 <= k < |cs| :: cs[k] < |rs| && RootedAt(rs, cs[k], d)
  }

  lemma ChildrenRooted(rs: seq<Info>, i: nat, d: nat)
    requires i < |rs| && RootedAt(rs, i, d)
    ensures AllRootedAt(rs, ChildrenOf(rs, i), d + 1)
  {
    var cs := ChildrenOf(rs, i);
    ChildrenAre(rs, i, |rs|);
    forall k | 0 <= k < |cs| ensures cs[k] < |rs| && RootedAt(rs, cs[k], d + 1) {
      assert cs[k] in cs;
    }
  }

  lemma RootsRooted(rs: seq<Info>)
    ensures AllRootedAt(rs, Roots(rs), 0)
  {
    var roots := Roots(rs);
    RootsAre(rs, |rs|);
    forall k | 0 <= k < |roots| ensures roots[k] < |rs| && RootedAt(rs, roots[k], 0) {
      assert roots[k] in roots;
    }
  }

  /** The formatted resource `i`: its formatted children under `resources`, then its own data. */
  ghost function Format(rs: seq<Info>, i: nat, d: nat): Fields
    requires i < |rs| && RootedAt(rs, i, d)
    decreases |rs| - d, 0
  {
    DepthBound(rs, i, d);
    ChildrenRooted(rs, i, d);
    var children := FormatChildren(rs, i, ChildrenOf(rs, i), d + 1);
    (if children != [] then map["resources" := JList(children)] else map[]) + rs[i].data
  }

  ghost function FormatChildren(rs: seq<Info>, parent: nat, cs: seq<nat>, d: nat): (items: seq<Json>)
    requires parent < |rs|
    requires AllRootedAt(rs, cs, d)
    ensures |items| == |cs|
    decreases |rs| - d, 1 + |cs|
  {
    if cs == [] then []
    else
      var c := cs[|cs| - 1];
      FormatChildren(rs, parent, cs[..|cs| - 1], d)
      + [JObj(WithChildType(Format(rs, c, d), rs[parent].fullType))]
  }

  // ---- Every rooted resource comes out exactly once ----

  /** The resources in the order in which the nested output lists them. */
  ghost function Preorder(rs: seq<Info>, i: nat, d: nat): seq<nat>
    requires i < |rs| && RootedAt(rs, i, d)
    decreases |rs| - d, 0
  {
    DepthBound(rs, i, d);
    ChildrenRooted(rs, i, d);
    [i] + Forest(rs, ChildrenOf(rs, i), d + 1)
  }

  ghost function Forest(rs: seq<Info>, cs: seq<nat>, d: nat): seq<nat>
    requires AllRootedAt(rs, cs, d)
    decreases |rs| - d, 1 + |cs|
  {
    if cs == [] then []
    else Forest(rs, cs[..|cs| - 1], d) + Preorder(rs, cs[|cs| - 1], d)
  }

  ghost function Order(rs: seq<Info>): seq<nat> {
    RootsRooted(rs);
    Forest(rs, Roots(rs), 0)
  }

  /** `x` hangs below `i`, which is at depth `d`: following its parent links leads to `i`. */
  ghost predicate HangsBelow(rs: seq<Info>, x: nat, i: nat, d: nat)
  {
    x < |rs| && exists e :: e >= d && RootedAt(rs, x, e) && Chain(rs, x, e)[e - d] == i
  }

  lemma HangsStep(rs: seq<Info>, x: nat, c: nat, i: nat, d: nat)
    requires HangsBelow(rs, x, c, d + 1) && c < |rs| && ParentOf(rs, c) == i
    ensures HangsBelow(rs, x, i, d)
  {
    hide RootedAt, Chain, ParentOf;
    var e :| e >= d + 1 && RootedAt(rs, x, e) && Chain(rs, x, e)[e - (d + 1)] == c;
    ChainNext(rs, x, e, e - (d + 1));
  }

  lemma {:induction false} ChainNext(rs: seq<Info>, x: nat, e: nat, k: nat)
    requires x < |rs| && RootedAt(rs, x, e) && k < e
    ensures Chain(rs, x, e)[k + 1] == ParentOf(rs, Chain(rs, x, e)[k])
    decreases e
  {
    if k > 0 {
      ChainNext(rs, ParentOf(rs, x), e - 1, k - 1);
    }
  }

  lemma HangsOnce(rs: seq<Info>, x: nat, i: nat, j: nat, d: nat)
    requires HangsBelow(rs, x, i, d) && HangsBelow(rs, x, j, d)
    ensures i == j
  {
    hide RootedAt, Chain;
    var e :| e >= d && RootedAt(rs, x, e) && Chain(rs, x, e)[e - d] == i;
    var f :| f >= d && RootedAt(rs, x, f) && Chain(rs, x, f)[f - d] == j;
    DepthUnique(rs, x, e, f);
  }

  lemma {:induction false} PreorderHangs(rs: seq<Info>, i: nat, d: nat)
    requires i < |rs| && RootedAt(rs, i, d)
    ensures forall x | x in Preorder(rs, i, d) :: HangsBelow(rs, x, i, d)
    ensures Distinct(Preorder(rs, i, d))
    decreases |rs| - d, 0
  {
    DepthBound(rs, i, d);
    ChildrenRooted(rs, i, d);
    var cs := ChildrenOf(rs, i);
    var below := Forest(rs, cs, d + 1);
    assert Preorder(rs, i, d) == [i] + below;
    HangsSelf(rs, i, d);
    ChildrenAre(rs, i, |rs|);
    hide Preorder, Forest, HangsBelow, RootedAt, Chain, ChildrenBelow, ParentOf;
    ForestHangs(rs, cs, d + 1);
    forall x | x in below ensures HangsBelow(rs, x, i, d) && x != i {
      var k :| 0 <= k < |cs| && HangsBelow(rs, x, cs[k], d + 1);
      assert cs[k] in cs;
      BelowChild(rs, x, cs[k], i, d);
    }
  }

  lemma HangsSelf(rs: seq<Info>, i: nat, d: nat)
    requires i < |rs| && RootedAt(rs, i, d)
    ensures HangsBelow(rs, i, i, d)
  {
    assert Chain(rs, i, d)[0] == i;
  }

  lemma BelowChild(rs: seq<Info>, x: nat, c: nat, i: nat, d: nat)
    requires HangsBelow(rs, x, c, d + 1) && c < |rs| && i < |rs| && ParentOf(rs, c) == i && RootedAt(rs, i, d)
    ensures HangsBelow(rs, x, i, d) && x != i
  {
    HangsStep(rs, x, c, i, d);
    hide RootedAt, Chain, ParentOf;
    var e :| e >= d + 1 && RootedAt(rs, x, e) && Chain(rs, x, e)[e - (d + 1)] == c;
    if x == i {
      DepthUnique(rs, i, d, e);
    }
  }

  lemma {:induction false} ForestHangs(rs: seq<Info>, cs: seq<nat>, d: nat)
    requires AllRootedAt(rs, cs, d) && Distinct(cs)
    ensures forall x | x in Forest(rs, cs, d) :: exists k :: 0 <= k < |cs| && HangsBelow(rs, x, cs[k], d)
    ensures Distinct(Forest(rs, cs, d))
    decreases |rs| - d, 1 + |cs|
  {
    if cs != [] {
      var front, c := cs[..|cs| - 1], cs[|cs| - 1];
      ForestHangs(rs, front, d);
      PreorderHangs(rs, c, d);
      var a, b := Forest(rs, front, d), Preorder(rs, c, d);
      forall x | x in a ensures x !in b && exists k :: 0 <= k < |cs| && HangsBelow(rs, x, cs[k], d) {
        var k :| 0 <= k < |front| && HangsBelow(rs, x, front[k], d);
        assert cs[k] == front[k];
        if x in b {
          HangsOnce(rs, x, front[k], c, d);
        }
      }
      DistinctConcat(a, b);
    }
  }

  lemma DistinctConcat(a: seq<nat>, b: seq<nat>)
    requires Distinct(a) && Distinct(b) && forall x | x in a :: x !in b
    ensures Distinct(a + b)
  {
    forall i, j | 0 <= i < j < |a + b| ensures (a + b)[i] != (a + b)[j] {
      if i < |a| <= j {
        assert a[i] in a && b[j - |a|] in b;
      }
    }
  }

  lemma {:induction false} ForestContains(rs: seq<Info>, cs: seq<nat>, d: nat, c: nat)
    requires AllRootedAt(rs, cs, d) && c in cs
    ensures c < |rs| && RootedAt(rs, c, d)
    ensures forall x | x in Preorder(rs, c, d) :: x in Forest(rs, cs, d)
    decreases |cs|
  {
    if c != cs[|cs| - 1] {
      assert cs == cs[..|cs| - 1] + [cs[|cs| - 1]];
      ForestContains(rs, cs[..|cs| - 1], d, c);
    }
  }

  lemma PreorderSelf(rs: seq<Info>, i: nat, d: nat)
    requires i < |rs|
    ensures RootedAt(rs, i, d) ==> i in Preorder(rs, i, d)
  {
    if RootedAt(rs, i, d) {
      DepthBound(rs, i, d);
      ChildrenRooted(rs, i, d);
    }
  }

  /** If a resource is listed below `i`, so are its children. */
  lemma {:induction false} PreorderClosed(rs: seq<Info>, i: nat, d: nat, x: nat, c: nat)
    requires i < |rs| && RootedAt(rs, i, d) && x in Preorder(rs, i, d)
    requires x < |rs| && c < |rs| && ParentOf(rs, c) == x
    ensures c in Preorder(rs, i, d)
    decreases |rs| - d, 0
  {
    DepthBound(rs, i, d);
    ChildrenRooted(rs, i, d);
    var cs := ChildrenOf(rs, i);
    assert Preorder(rs, i, d) == [i] + Forest(rs, cs, d + 1);
    ChildrenAre(rs, i, |rs|);
    PreorderSelf(rs, c, d + 1);
    hide Preorder, Forest, ChildrenBelow, RootedAt, ParentOf;
    if x == i {
      ForestContains(rs, cs, d + 1, c);
    } else {
      ForestClosed(rs, cs, d + 1, x, c);
    }
  }

  lemma {:induction false} ForestClosed(rs: seq<Info>, cs: seq<nat>, d: nat, x: nat, c: nat)
    requires AllRootedAt(rs, cs, d) && x in Forest(rs, cs, d)
    requires x < |rs| && c < |rs| && ParentOf(rs, c) == x
    ensures c in Forest(rs, cs, d)
    decreases |rs| - d, 1 + |cs|
  {
    var front, last := cs[..|cs| - 1], cs[|cs| - 1];
    if x in Forest(rs, front, d) {
      ForestClosed(rs, front, d, x, c);
    } else {
      PreorderClosed(rs, last, d, x, c);
    }
  }

  lemma {:induction false} RootedListed(rs: seq<Info>, i: nat, d: nat)
    requires i < |rs| && RootedAt(rs, i, d)
    ensures i in Order(rs)
    decreases d
  {
    RootsRooted(rs);
    RootsAre(rs, |rs|);
    PreorderSelf(rs, i, d);
    if d == 0 {
      ForestContains(rs, Roots(rs), 0, i);
    } else {
      RootedListed(rs, ParentOf(rs, i), d - 1);
      ForestClosed(rs, Roots(rs), 0, ParentOf(rs, i), i);
    }
  }

  /** The nested output lists every resource whose parent chain ends at a root exactly once, and
      no other resource. Duplicate names, dangling parents and cycles are allowed. */
  lemma EachRootedOnce(rs: seq<Info>)
    ensures Distinct(Order(rs))
    ensures forall i :: i in Order(rs) <==> 0 <= i < |rs| && Rooted(rs, i)
  {
    RootsRooted(rs);
    RootsAre(rs, |rs|);
    ForestHangs(rs, Roots(rs), 0);
    forall i ensures i in Order(rs) <==> 0 <= i < |rs| && Rooted(rs, i) {
      if 0 <= i < |rs| && Rooted(rs, i) {
        var d :| RootedAt(rs, i, d);
        RootedListed(rs, i, d);
      }
      if i in Order(rs) {
        var k :| 0 <= k < |Roots(rs)| && HangsBelow(rs, i, Roots(rs)[k], 0);
      }
    }
  }

  // ---- What the output holds ----

  ghost function FormatRoots(rs: seq<Info>, roots: seq<nat>): seq<Json>
    requires AllRootedAt(rs, roots, 0)
  {
    if roots == [] then []
    else FormatRoots(rs, roots[..|roots| - 1]) + [JObj(Format(rs, roots[|roots| - 1], 0))]
  }

  /** The nested structure made of a list of resources. */
  ghost function Nested(rs: seq<Info>): seq<Json> {
    RootsRooted(rs);
    FormatRoots(rs, Roots(rs))
  }

  /** Reads the data of all resources back out of a nested structure. */
  ghost function Flatten(j: Json): seq<Fields>
    decreases j, 1
  {
    if !j.JObj? then []
    else
      [j.fields - {"resources"}]
      + if "resources" in j.fields && j.fields["resources"].JList? then FlattenAll(j.fields["resources"].items) else []
  }

  ghost function FlattenAll(items: seq<Json>): seq<Fields>
    decreases items, 0
  {
    if items == [] then [] else FlattenAll(items[..|items| - 1]) + Flatten(items[|items| - 1])
  }

  /** The data of a resource with its type shortened by the type of its parent. */
  ghost function Adjusted(rs: seq<Info>, i: nat): Fields
    requires i < |rs|
  {
    if ParentOf(rs, i) < 0 then rs[i].data else WithChildType(rs[i].data, rs[ParentOf(rs, i)].fullType)
  }

  ghost function DataOf(rs: seq<Info>, ids: seq<nat>): seq<Fields>
    requires Within(ids, |rs|)
  {
    if ids == [] then []
    else DataOf(rs, ids[..|ids| - 1]) + [Adjusted(rs, ids[|ids| - 1])]
  }

  /** What a list of resources leaves in the output: the data of each, and what its own `resources`
      list holds. */
  ghost function PartsOf(rs: seq<Info>, ids: seq<nat>): seq<Fields>
    requires Within(ids, |rs|)
  {
    if ids == [] then []
    else PartsOf(rs, ids[..|ids| - 1]) + Flatten(JObj(Adjusted(rs, ids[|ids| - 1])))
  }

  lemma {:induction false} PartsOfConcat(rs: seq<Info>, a: seq<nat>, b: seq<nat>)
    requires Within(a, |rs|) && Within(b, |rs|)
    ensures Within(a + b, |rs|) && PartsOf(rs, a + b) == PartsOf(rs, a) + PartsOf(rs, b)
    decreases |b|
  {
    hide Adjusted, Flatten, FlattenAll;
    if b == [] {
      assert a + b == a;
    } else {
      var front, own := b[..|b| - 1], Flatten(JObj(Adjusted(rs, b[|b| - 1])));
      PartsOfConcat(rs, a, front);
      assert (a + b)[..|a + b| - 1] == a + front;
      assert (PartsOf(rs, a) + PartsOf(rs, front)) + own == PartsOf(rs, a) + (PartsOf(rs, front) + own);
    }
  }

  lemma NoParts(rs: seq<Info>)
    ensures Within([], |rs|) && PartsOf(rs, []) == []
  {
  }

  ghost predicate Owns(rs: seq<Info>, i: nat)
    requires i < |rs|
  {
    "resources" in rs[i].data
  }

  // ---- Which resources come out ----

  /** No strict ancestor on the parent chain of `i` has a `resources` key of its own. */
  ghost predicate OpenAt(rs: seq<Info>, i: nat, d: nat)
    requires i < |rs| && RootedAt(rs, i, d)
  {
    forall k | 1 <= k <= d :: !Owns(rs, Chain(rs, i, d)[k])
  }

  ghost predicate Open(rs: seq<Info>, i: nat)
    requires i < |rs|
  {
    exists d :: RootedAt(rs, i, d) && OpenAt(rs, i, d)
  }

  lemma OpenIs(rs: seq<Info>, i: nat, d: nat)
    requires i < |rs| && RootedAt(rs, i, d)
    ensures Open(rs, i) <==> OpenAt(rs, i, d)
  {
    hide RootedAt, OpenAt;
    if e :| RootedAt(rs, i, e) && OpenAt(rs, i, e) {
      DepthUnique(rs, i, d, e);
    }
  }

  lemma RootOpen(rs: seq<Info>, i: nat)
    requires i < |rs| && RootedAt(rs, i, 0)
    ensures Open(rs, i)
  {
    assert OpenAt(rs, i, 0);
  }

  /** A child comes out if its parent does and has no `resources` key. */
  lemma ChildOpen(rs: seq<Info>, c: nat, i: nat, d: nat)
    requires c < |rs| && i < |rs| && RootedAt(rs, i, d) && ParentOf(rs, c) == i && RootedAt(rs, c, d + 1)
    ensures Open(rs, c) <==> Open(rs, i) && !Owns(rs, i)
  {
    hide Open, RootedAt, Owns, ParentOf;
    OpenIs(rs, c, d + 1);
    OpenIs(rs, i, d);
    var up, own := Chain(rs, i, d), Chain(rs, c, d + 1);
    ChainUp(rs, c, i, d);
    if OpenAt(rs, c, d + 1) {
      assert own[1] == i;
      forall k | 1 <= k <= d ensures !Owns(rs, up[k]) {
        assert own[k + 1] == up[k];
      }
    }
    if OpenAt(rs, i, d) && !Owns(rs, i) {
      forall k | 1 <= k <= d + 1 ensures !Owns(rs, own[k]) {
        assert own[k] == up[k - 1];
      }
    }
  }

  lemma ChainUp(rs: seq<Info>, c: nat, i: nat, d: nat)
    requires c < |rs| && i < |rs| && RootedAt(rs, i, d) && ParentOf(rs, c) == i && RootedAt(rs, c, d + 1)
    ensures Chain(rs, c, d + 1) == [c] + Chain(rs, i, d) && Chain(rs, i, d)[0] == i
  {
  }

  ghost function OnlyOpen(rs: seq<Info>, ids: seq<nat>): (open: seq<nat>)
    requires Within(ids, |rs|)
    ensures Within(open, |rs|)
  {
    if ids == [] then []
    else
      var front, last := OnlyOpen(rs, ids[..|ids| - 1]), ids[|ids| - 1];
      if Open(rs, last) then front + [last] else front
  }

  lemma {:induction false} OnlyOpenConcat(rs: seq<Info>, a: seq<nat>, b: seq<nat>)
    requires Within(a, |rs|) && Within(b, |rs|)
    ensures Within(a + b, |rs|) && OnlyOpen(rs, a + b) == OnlyOpen(rs, a) + OnlyOpen(rs, b)
    decreases |b|
  {
    hide Open;
    if b == [] {
      assert a + b == a;
    } else {
      OnlyOpenConcat(rs, a, b[..|b| - 1]);
      assert (a + b)[..|a + b| - 1] == a + b[..|b| - 1];
    }
  }

  lemma {:induction false} OnlyOpenAre(rs: seq<Info>, ids: seq<nat>)
    requires Within(ids, |rs|) && Distinct(ids)
    ensures Distinct(OnlyOpen(rs, ids))
    ensures forall i :: i in OnlyOpen(rs, ids) <==> i in ids && i < |rs| && Open(rs, i)
  {
    hide Open;
    if ids != [] {
      var front, last := ids[..|ids| - 1], ids[|ids| - 1];
      OnlyOpenAre(rs, front);
      assert ids == front + [last];
    }
  }

  /** Nothing comes out below a resource that does not come out, or that has a `resources` key. */
  lemma {:induction false} NoneOpen(rs: seq<Info>, i: nat, d: nat)
    requires i < |rs| && RootedAt(rs, i, d) && !Open(rs, i)
    ensures Within(Preorder(rs, i, d), |rs|) && OnlyOpen(rs, Preorder(rs, i, d)) == []
    decreases |rs| - d, 0
  {
    hide *;
    var cs, _ := FormatIs(rs, i, d);
    NoneOpenBelow(rs, i, d, cs);
    OneOpen(rs, i);
    OnlyOpenConcat(rs, [i], Forest(rs, cs, d + 1));
  }

  lemma OneOpen(rs: seq<Info>, i: nat)
    requires i < |rs|
    ensures Within([i], |rs|) && OnlyOpen(rs, [i]) == if Open(rs, i) then [i] else []
  {
    hide Open;
    assert [i][..0] == [];
  }

  lemma {:induction false} NoneOpenBelow(rs: seq<Info>, i: nat, d: nat, cs: seq<nat>)
    requires i < |rs| && RootedAt(rs, i, d) && d < |rs| && (!Open(rs, i) || Owns(rs, i))
    requires AllRootedAt(rs, cs, d + 1) && forall k | 0 <= k < |cs| :: ParentOf(rs, cs[k]) == i
    ensures Within(Forest(rs, cs, d + 1), |rs|) && OnlyOpen(rs, Forest(rs, cs, d + 1)) == []
    decreases |rs| - d, 0, |cs|
  {
    hide Open, RootedAt, Preorder, ParentOf, Owns;
    if cs != [] {
      var front, c := cs[..|cs| - 1], cs[|cs| - 1];
      NoneOpenBelow(rs, i, d, front);
      ChildOpen(rs, c, i, d);
      NoneOpen(rs, c, d + 1);
      OnlyOpenConcat(rs, Forest(rs, front, d + 1), Preorder(rs, c, d + 1));
    }
  }

  // ---- Reading the output back ----

  lemma FlattenOne(data: Fields, items: seq<Json>, j: Json)
    requires "resources" !in data
    requires j == JObj((if items != [] then map["resources" := JList(items)] else map[]) + data)
    ensures Flatten(j) == [data] + FlattenAll(items) && Flatten(JObj(data)) == [data]
  {
    assert j.fields - {"resources"} == data && data - {"resources"} == data;
    if items == [] {
      assert j.fields == data;
    }
  }

  lemma ChildTypeInside(data: Fields, items: seq<Json>, parentType: string)
    ensures
      var resources := if items != [] then map["resources" := JList(items)] else map[];
      && ("resources" in data <==> "resources" in WithChildType(data, parentType))
      && ("resources" !in data ==> WithChildType(resources + data, parentType) == resources + WithChildType(data, parentType))
      && ("resources" in data ==> resources + data == data)
  {
  }

  /** What the formatted resource `i` leaves: its own part, and that of its children unless it has
      a `resources` key. */
  lemma OnePart(rs: seq<Info>, i: nat, items: seq<Json>, shortened: bool, parentType: string)
    requires i < |rs|
    requires Adjusted(rs, i) == if shortened then WithChildType(rs[i].data, parentType) else rs[i].data
    ensures Within([i], |rs|)
    ensures
      var f := (if items != [] then map["resources" := JList(items)] else map[]) + rs[i].data;
      Flatten(JObj(if shortened then WithChildType(f, parentType) else f))
      == PartsOf(rs, [i]) + if Owns(rs, i) then [] else FlattenAll(items)
  {
    hide Adjusted, Flatten, FlattenAll, WithChildType;
    var data := Adjusted(rs, i);
    ChildTypeInside(rs[i].data, items, parentType);
    assert [i][..0] == [];
    assert PartsOf(rs, [i]) == Flatten(JObj(data));
    if !Owns(rs, i) {
      var j := JObj((if items != [] then map["resources" := JList(items)] else map[]) + data);
      FlattenOne(data, items, j);
    }
  }

  lemma {:induction false} FormatFlattens(rs: seq<Info>, i: nat, d: nat, shortened: bool, parentType: string)
    requires i < |rs| && RootedAt(rs, i, d) && Open(rs, i)
    requires Adjusted(rs, i) == if shortened then WithChildType(rs[i].data, parentType) else rs[i].data
    ensures Within(Preorder(rs, i, d), |rs|)
    ensures
      var f := Format(rs, i, d);
      Flatten(JObj(if shortened then WithChildType(f, parentType) else f)) == PartsOf(rs, OnlyOpen(rs, Preorder(rs, i, d)))
    decreases |rs| - d, 0
  {
    hide *;
    var cs, items := FormatIs(rs, i, d);
    OneOpen(rs, i);
    OnePart(rs, i, items, shortened, parentType);
    if Owns(rs, i) {
      NoneOpenBelow(rs, i, d, cs);
      NoParts(rs);
    } else {
      ChildrenFlatten(rs, i, cs, d + 1);
    }
    OnlyOpenConcat(rs, [i], Forest(rs, cs, d + 1));
    PartsOfConcat(rs, [i], OnlyOpen(rs, Forest(rs, cs, d + 1)));
  }

  lemma FormatIs(rs: seq<Info>, i: nat, d: nat) returns (cs: seq<nat>, items: seq<Json>)
    requires i < |rs| && RootedAt(rs, i, d)
    ensures d < |rs| && AllRootedAt(rs, cs, d + 1) && forall k | 0 <= k < |cs| :: ParentOf(rs, cs[k]) == i
    ensures cs == ChildrenOf(rs, i) && items == FormatChildren(rs, i, cs, d + 1)
    ensures Format(rs, i, d) == (if items != [] then map["resources" := JList(items)] else map[]) + rs[i].data
    ensures Preorder(rs, i, d) == [i] + Forest(rs, cs, d + 1)
  {
    DepthBound(rs, i, d);
    ChildrenRooted(rs, i, d);
    cs := ChildrenOf(rs, i);
    ChildrenAre(rs, i, |rs|);
    assert forall k | 0 <= k < |cs| :: cs[k] in cs;
    items := FormatChildren(rs, i, cs, d + 1);
  }

  lemma {:induction false} ChildrenFlatten(rs: seq<Info>, parent: nat, cs: seq<nat>, d: nat)
    requires parent < |rs| && AllRootedAt(rs, cs, d) && d > 0
    requires RootedAt(rs, parent, d - 1) && Open(rs, parent) && !Owns(rs, parent)
    requires forall k | 0 <= k < |cs| :: ParentOf(rs, cs[k]) == parent
    ensures Within(Forest(rs, cs, d), |rs|)
    ensures FlattenAll(FormatChildren(rs, parent, cs, d)) == PartsOf(rs, OnlyOpen(rs, Forest(rs, cs, d)))
    decreases |rs| - d, 1 + |cs|
  {
    hide Open, RootedAt, Owns, Flatten, Preorder, Format, WithChildType, ParentOf;
    if cs != [] {
      var front, c := cs[..|cs| - 1], cs[|cs| - 1];
      ChildrenFlatten(rs, parent, front, d);
      ChildOpen(rs, c, parent, d - 1);
      FormatFlattens(rs, c, d, true, rs[parent].fullType);
      var items, last := FormatChildren(rs, parent, front, d), JObj(WithChildType(Format(rs, c, d), rs[parent].fullType));
      assert (items + [last])[..|items|] == items;
      OnlyOpenConcat(rs, Forest(rs, front, d), Preorder(rs, c, d));
      PartsOfConcat(rs, OnlyOpen(rs, Forest(rs, front, d)), OnlyOpen(rs, Preorder(rs, c, d)));
    }
  }

  lemma {:induction false} RootsFlatten(rs: seq<Info>, roots: seq<nat>)
    requires AllRootedAt(rs, roots, 0)
    ensures Within(Forest(rs, roots, 0), |rs|)
    ensures FlattenAll(FormatRoots(rs, roots)) == PartsOf(rs, OnlyOpen(rs, Forest(rs, roots, 0)))
  {
    hide Open, Flatten, Preorder, Format, WithChildType;
    if roots != [] {
      var front, r := roots[..|roots| - 1], roots[|roots| - 1];
      RootsFlatten(rs, front);
      RootOpen(rs, r);
      FormatFlattens(rs, r, 0, false, "");
      var items, last := FormatRoots(rs, front), JObj(Format(rs, r, 0));
      assert (items + [last])[..|items|] == items;
      OnlyOpenConcat(rs, Forest(rs, front, 0), Preorder(rs, r, 0));
      PartsOfConcat(rs, OnlyOpen(rs, Forest(rs, front, 0)), OnlyOpen(rs, Preorder(rs, r, 0)));
    }
  }

  /** The resources that come out, in the order of the output. */
  ghost function Visible(rs: seq<Info>): seq<nat>
    requires Within(Order(rs), |rs|)
  {
    OnlyOpen(rs, Order(rs))
  }

  /** Reading the nested output back gives the parts of the visible resources, in order and with
      their types shortened by their parents'. A resource is visible, and then exactly once, exactly
      if its parent chain ends at a root and no strict ancestor on it has its own `resources` key. */
  lemma NestingConserves(rs: seq<Info>)
    ensures Within(Order(rs), |rs|) && FlattenAll(Nested(rs)) == PartsOf(rs, Visible(rs))
    ensures Distinct(Visible(rs))
    ensures forall i :: i in Visible(rs) <==> 0 <= i < |rs| && Open(rs, i)
  {
    RootsRooted(rs);
    RootsFlatten(rs, Roots(rs));
    EachRootedOnce(rs);
    OnlyOpenAre(rs, Order(rs));
    forall i | 0 <= i < |rs| && Open(rs, i) ensures Rooted(rs, i) {
    }
  }

  /** No resource brings a `resources` key of its own. */
  ghost predicate NoOwnResources(rs: seq<Info>) {
    forall i | 0 <= i < |rs| :: "resources" !in rs[i].data
  }

  /** The parts are the data of the resources alone exactly if no resource among them has a
      `resources` key. */
  lemma {:induction false} PartsAreData(rs: seq<Info>, ids: seq<nat>)
    requires Within(ids, |rs|)
    ensures PartsOf(rs, ids) == DataOf(rs, ids) <==> forall k | 0 <= k < |ids| :: !Owns(rs, ids[k])
  {
    hide Adjusted, Flatten;
    if ids != [] {
      var front, last := ids[..|ids| - 1], ids[|ids| - 1];
      PartsAreData(rs, front);
      PartIsData(rs, last);
      LongerParts(rs, front);
      assert ids == front + [last];
      if PartsOf(rs, ids) == DataOf(rs, ids) {
        var own := Flatten(JObj(Adjusted(rs, last)));
        assert |PartsOf(rs, front)| + |own| == |DataOf(rs, front)| + 1;
        assert PartsOf(rs, front) == PartsOf(rs, ids)[..|DataOf(rs, front)|] == DataOf(rs, front);
        assert own == PartsOf(rs, ids)[|DataOf(rs, front)|..] == [Adjusted(rs, last)];
      }
    }
  }

  lemma PartIsData(rs: seq<Info>, i: nat)
    requires i < |rs|
    ensures |Flatten(JObj(Adjusted(rs, i)))| >= 1
    ensures Flatten(JObj(Adjusted(rs, i))) == [Adjusted(rs, i)] <==> !Owns(rs, i)
  {
    var data := Adjusted(rs, i);
    assert "resources" in data <==> Owns(rs, i);
    if !Owns(rs, i) {
      assert data - {"resources"} == data;
    } else {
      assert "resources" !in Flatten(JObj(data))[0];
    }
  }

  lemma {:induction false} LongerParts(rs: seq<Info>, ids: seq<nat>)
    requires Within(ids, |rs|)
    ensures |PartsOf(rs, ids)| >= |DataOf(rs, ids)| == |ids|
  {
    hide Adjusted, Flatten;
    if ids != [] {
      PartIsData(rs, ids[|ids| - 1]);
      LongerParts(rs, ids[..|ids| - 1]);
    }
  }

  /** Without `resources` keys, all rooted resources come out and nothing but their data. */
  lemma PlainNestingConserves(rs: seq<Info>)
    requires NoOwnResources(rs)
    ensures Within(Order(rs), |rs|) && FlattenAll(Nested(rs)) == DataOf(rs, Order(rs))
  {
    NestingConserves(rs);
    EachRootedOnce(rs);
    hide Order, Chain, RootedAt, OnlyOpen, PartsOf, DataOf, FlattenAll, Nested;
    var ids := Order(rs);
    forall k | 0 <= k < |ids| ensures Open(rs, ids[k]) {
      assert ids[k] in ids;
      var d :| RootedAt(rs, ids[k], d);
      assert OpenAt(rs, ids[k], d);
    }
    AllOpen(rs, ids);
    PartsAreData(rs, ids);
  }

  lemma {:induction false} AllOpen(rs: seq<Info>, ids: seq<nat>)
    requires Within(ids, |rs|) && forall k | 0 <= k < |ids| :: Open(rs, ids[k])
    ensures OnlyOpen(rs, ids) == ids
  {
    hide Open;
    if ids != [] {
      AllOpen(rs, ids[..|ids| - 1]);
    }
  }

  /** A resource whose data has a `resources` key hides all resources nested under it. */
  lemma OwnResourcesHide(rs: seq<Info>, i: nat, d: nat)
    requires i < |rs| && RootedAt(rs, i, d)
    ensures Format(rs, i, d) == rs[i].data <==> "resources" in rs[i].data || ChildrenOf(rs, i) == []
  {
    var cs, items := FormatIs(rs, i, d);
    hide FormatChildren, Format, Preorder, Forest, RootedAt, ParentOf, ChildrenBelow;
    if items != [] && "resources" !in rs[i].data {
      assert "resources" in Format(rs, i, d);
    }
  }
}
