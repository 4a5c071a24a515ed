/** The nested output read against the resources as they are given: what hangs under what, and under which type. */
module BicepOutput {
  import opened Sequences
  import opened Strings
  import opened BicepNesting

  // ---- Resources as given ----

  predicate HasText(res: Json, key: string, s: string) {
    res.JObj? && key in res.fields && res.fields[key] == JStr(s)
  }

  /** A resource has a name and a type, and its parent, if it names one, by a text. */
  ghost predicate Accepted(res: Json) {
    && res.JObj? && (exists s :: HasText(res, "identifier", s)) && (exists s :: HasText(res, "type", s))
    && ("parent" in res.fields ==> exists s :: HasText(res, "parent", s))
  }

  /** The first `n` resources, up to the first that is not accepted. */
  ghost predicate AcceptedFirst(resources: seq<Json>, n: nat) {
    && n <= |resources| && (forall k | 0 <= k < n :: Accepted(resources[k]))
    && (n < |resources| ==> !Accepted(resources[n]))
  }

  ghost predicate IsRoot(res: Json) {
    res.JObj? && ("parent" !in res.fields || HasText(res, "parent", ""))
  }

  /** Of the first `n` resources, `i` is the last one with the name that `j` gives as its parent. */
  ghost predicate HangsUnder(resources: seq<Json>, n: nat, i: nat, j: nat) {
    && i < n <= |resources| && j < n
    && exists name :: name != "" && HasText(resources[j], "parent", name) && LastWithName(resources, n, i, name)
  }

  ghost predicate LastWithName(resources: seq<Json>, n: nat, i: nat, name: string)
    requires i < n <= |resources|
  {
    HasText(resources[i], "identifier", name) && forall k | i < k < n :: !HasText(resources[k], "identifier", name)
  }

  /** The type `u` without the first occurrence of the type `t` above it and a slash. */
  ghost predicate Shortened(t: string, u: string, x: string) {
    if t == "" || forall k :: !StandsAt(u, t + "/", k) then x == u
    else exists k :: StandsFirst(u, t + "/", k) && x == u[..k] + u[k + |t| + 1..]
  }

  ghost predicate Increasing(cs: seq<nat>) {
    forall k, l | 0 <= k < l < |cs| :: cs[k] < cs[l]
  }

  /** The output `out` for resource `i` under the type `t`: its own data with a shortened type, and under `resources`
      its own ones if it has such a key, and else the outputs of exactly the resources that hang under it, in
      order. */
  ghost predicate ShowsTree(resources: seq<Json>, n: nat, i: nat, t: string, out: Json)
    requires i < n <= |resources|
    decreases out
  {
    && out.JObj? && resources[i].JObj?
    && out.fields - {"type", "resources"} == resources[i].fields - {"type", "resources"}
    && (forall u | HasText(resources[i], "type", u) :: exists x :: HasText(out, "type", x) && Shortened(t, u, x))
    && if "resources" in resources[i].fields then
         "resources" in out.fields && out.fields["resources"] == resources[i].fields["resources"]
       else
         exists cs: seq<nat> :: AreUnder(resources, n, i, cs) && ShowsChildren(resources, n, i, cs, out)
  }

  ghost predicate AreUnder(resources: seq<Json>, n: nat, i: nat, cs: seq<nat>) {
    Increasing(cs) && forall j: nat :: j in cs <==> HangsUnder(resources, n, i, j)
  }

  ghost predicate ShowsChildren(resources: seq<Json>, n: nat, i: nat, cs: seq<nat>, out: Json)
    requires i < n <= |resources| && out.JObj? && AreUnder(resources, n, i, cs)
    decreases out, 0
  {
    if cs == [] then "resources" !in out.fields
    else
      && "resources" in out.fields && out.fields["resources"].JList? && |out.fields["resources"].items| == |cs|
      && forall k, t | 0 <= k < |cs| && HasText(resources[i], "type", t) ::
           cs[k] in cs && ShowsTree(resources, n, cs[k], t, out.fields["resources"].items[k])
  }

  /** The nested output: the outputs of exactly the accepted resources without a parent, in order. */
  ghost predicate ShowsAll(resources: seq<Json>, n: nat, nested: seq<Json>) {
    && n <= |resources|
    && exists roots: seq<nat> ::
         && Increasing(roots) && (forall j: nat :: j in roots <==> j < n && IsRoot(resources[j]))
         && |nested| == |roots| && forall k | 0 <= k < |roots| :: roots[k] < n && ShowsTree(resources, n, roots[k], "", nested[k])
  }

  // ---- The values made of them ----

  lemma {:induction false} AcceptedAre(resources: seq<Json>)
    ensures AcceptedFirst(resources, |ToInfos(resources)|)
    ensures forall k | 0 <= k < |ToInfos(resources)| ::
              && HasText(resources[k], "identifier", ToInfos(resources)[k].name)
              && HasText(resources[k], "type", ToInfos(resources)[k].fullType)
              && ToInfos(resources)[k].data == resources[k].fields
              && (if "parent" in resources[k].fields then HasText(resources[k], "parent", ToInfos(resources)[k].parent)
                  else ToInfos(resources)[k].parent == "")
    decreases |resources|
  {
    if resources != [] {
      WellFormedIs(resources[0]);
      if WellFormed(resources[0]) {
        var rest := ToInfos(resources[1..]);
        AcceptedAre(resources[1..]);
        assert ToInfos(resources) == [ToInfo(resources[0])] + rest;
        assert forall k | 0 < k < |resources| :: resources[k] == resources[1..][k - 1];
        hide Accepted, WellFormed, HasText;
        forall k | 0 <= k < |ToInfos(resources)| ensures Accepted(resources[k]) {
          if k > 0 {
            assert Accepted(resources[1..][k - 1]);
          }
        }
      }
    }
  }

  lemma WellFormedIs(res: Json)
    ensures WellFormed(res) <==> Accepted(res)
    ensures WellFormed(res) ==>
              var info := ToInfo(res);
              && HasText(res, "identifier", info.name) && HasText(res, "type", info.fullType) && info.data == res.fields
              && (if "parent" in res.fields then HasText(res, "parent", info.parent) else info.parent == "")
  {
    if WellFormed(res) {
      var info := ToInfo(res);
      assert HasText(res, "identifier", info.name) && HasText(res, "type", info.fullType);
      assert "parent" in res.fields ==> HasText(res, "parent", info.parent);
    }
  }

  lemma OneText(res: Json, key: string, a: string, b: string)
    requires HasText(res, key, a) && HasText(res, key, b)
    ensures a == b
  {
  }

  /** The first `n` resources as given and as values. */
  ghost predicate Stand(resources: seq<Json>, rs: seq<Info>) {
    && |rs| <= |resources|
    && forall k | 0 <= k < |rs| ::
         && HasText(resources[k], "identifier", rs[k].name) && HasText(resources[k], "type", rs[k].fullType)
         && rs[k].data == resources[k].fields
         && (if "parent" in resources[k].fields then HasText(resources[k], "parent", rs[k].parent) else rs[k].parent == "")
  }

  lemma StandBound(resources: seq<Json>, rs: seq<Info>)
    requires Stand(resources, rs)
    ensures |rs| <= |resources|
  {
  }

  lemma {:induction false} LastNamedIs(resources: seq<Json>, rs: seq<Info>, name: string, m: nat)
    requires Stand(resources, rs) && m <= |rs|
    ensures var k := LastNamed(rs[..m], name);
            if k < 0 then forall i | 0 <= i < m :: !HasText(resources[i], "identifier", name)
            else k < m && LastWithName(resources, m, k, name)
    decreases m
  {
    if m > 0 {
      assert rs[..m][..m - 1] == rs[..m - 1];
      LastNamedIs(resources, rs, name, m - 1);
    }
  }

  /** The parent links are those of the resources as given. */
  lemma ParentIs(resources: seq<Json>, rs: seq<Info>, i: nat, j: nat)
    requires Stand(resources, rs) && i < |rs| && j < |rs|
    ensures ParentOf(rs, j) == i <==> HangsUnder(resources, |rs|, i, j)
    ensures rs[j].parent == "" <==> IsRoot(resources[j])
  {
    hide LastNamed;
    var n := |rs|;
    assert rs[..n] == rs;
    LastNamedIs(resources, rs, rs[j].parent, n);
    if ParentOf(rs, j) == i {
      assert HasText(resources[j], "parent", rs[j].parent) && LastWithName(resources, n, i, rs[j].parent);
    }
    if HangsUnder(resources, n, i, j) {
      var name :| name != "" && HasText(resources[j], "parent", name) && LastWithName(resources, n, i, name);
      assert name == rs[j].parent;
    }
  }

  lemma {:induction false} ChildrenIncrease(rs: seq<Info>, i: nat, n: nat)
    requires n <= |rs|
    ensures Increasing(ChildrenBelow(rs, i, n)) && forall k | 0 <= k < |ChildrenBelow(rs, i, n)| :: ChildrenBelow(rs, i, n)[k] < n
  {
    if n > 0 {
      ChildrenIncrease(rs, i, n - 1);
    }
  }

  lemma {:induction false} RootsIncrease(rs: seq<Info>, n: nat)
    requires n <= |rs|
    ensures Increasing(RootsBelow(rs, n)) && forall k | 0 <= k < |RootsBelow(rs, n)| :: RootsBelow(rs, n)[k] < n
  {
    if n > 0 {
      RootsIncrease(rs, n - 1);
    }
  }

  lemma ChildrenUnder(resources: seq<Json>, rs: seq<Info>, i: nat)
    requires Stand(resources, rs) && i < |rs|
    ensures AreUnder(resources, |rs|, i, ChildrenOf(rs, i))
  {
    hide Stand, ParentOf;
    ChildrenAre(rs, i, |rs|);
    ChildrenIncrease(rs, i, |rs|);
    forall j: nat ensures j in ChildrenOf(rs, i) <==> HangsUnder(resources, |rs|, i, j) {
      if j < |rs| {
        ParentIs(resources, rs, i, j);
      }
    }
  }

  // ---- Types ----

  lemma ShortenedIs(t: string, u: string)
    ensures Shortened(t, u, if t == "" then u else ReplaceFirst(u, t + "/", ""))
  {
    if t != "" {
      if k :| StandsAt(u, t + "/", k) {
        var first := FirstOf(u, t + "/", k);
        ReplacedFirst(u, t + "/", "", first);
        assert u[..first] + "" == u[..first];
      } else {
        ReplacedNowhere(u, t + "/", "");
      }
    }
  }

  lemma FirstOf(u: string, t: string, k: int) returns (first: int)
    requires StandsAt(u, t, k)
    ensures StandsFirst(u, t, first)
    decreases k
  {
    if j :| 0 <= j < k && StandsAt(u, t, j) {
      first := FirstOf(u, t, j);
    } else {
      first := k;
    }
  }

  /** A type that goes on from the type above it comes out as what it adds. */
  lemma ShortenedBelow(t: string, x: string, y: string)
    requires t != "" && Shortened(t, t + "/" + x, y)
    ensures y == x
  {
    var u := t + "/" + x;
    assert StandsAt(u, t + "/", 0);
    var k :| StandsFirst(u, t + "/", k) && y == u[..k] + u[k + |t| + 1..];
    assert k == 0;
  }

  // ---- The output ----

  lemma {:induction false} FormatChildrenAt(rs: seq<Info>, parent: nat, cs: seq<nat>, d: nat, k: nat)
    requires parent < |rs| && AllRootedAt(rs, cs, d) && k < |cs|
    ensures cs[k] < |rs| && RootedAt(rs, cs[k], d)
    ensures FormatChildren(rs, parent, cs, d)[k] == JObj(WithChildType(Format(rs, cs[k], d), rs[parent].fullType))
    decreases |cs|
  {
    hide Format, WithChildType, RootedAt;
    if k < |cs| - 1 {
      FormatChildrenAt(rs, parent, cs[..|cs| - 1], d, k);
    }
  }

  lemma {:induction false} FormatShows(resources: seq<Json>, rs: seq<Info>, i: nat, d: nat, t: string)
    requires Stand(resources, rs) && i < |rs| && RootedAt(rs, i, d)
    ensures ShowsTree(resources, |rs|, i, t, JObj(WithChildType(Format(rs, i, d), t)))
    decreases |rs| - d
  {
    hide Format, FormatChildren, RootedAt, WithChildType, Preorder, Forest, ParentOf, ChildrenBelow, ShowsTree, Stand;
    StandBound(resources, rs);
    var cs, items := FormatIs(rs, i, d);
    forall k | 0 <= k < |cs|
      ensures cs[k] < |rs| && |items| == |cs| && items[k] == JObj(WithChildType(Format(rs, cs[k], d + 1), rs[i].fullType))
      ensures ShowsTree(resources, |rs|, cs[k], rs[i].fullType, items[k])
    {
      FormatChildrenAt(rs, i, cs, d + 1, k);
      FormatShows(resources, rs, cs[k], d + 1, rs[i].fullType);
    }
    ChildrenUnder(resources, rs, i);
    TreeShown(resources, rs, i, cs, items, t, Format(rs, i, d));
  }

  lemma TreeShown(resources: seq<Json>, rs: seq<Info>, i: nat, cs: seq<nat>, items: seq<Json>, t: string, fields: Fields)
    requires Stand(resources, rs) && i < |rs| && AreUnder(resources, |rs|, i, cs) && |items| == |cs|
    requires fields == (if items != [] then map["resources" := JList(items)] else map[]) + rs[i].data
    requires forall k | 0 <= k < |cs| :: cs[k] < |rs| && ShowsTree(resources, |rs|, cs[k], rs[i].fullType, items[k])
    ensures ShowsTree(resources, |rs|, i, t, JObj(WithChildType(fields, t)))
  {
    hide AreUnder, Shortened;
    var own, u := resources[i].fields, rs[i].fullType;
    var out := JObj(WithChildType(fields, t));
    assert HasText(resources[i], "type", u) && own == rs[i].data;
    TypeShown(fields, u, t);
    assert out.fields - {"type", "resources"} == own - {"type", "resources"};
    forall v | HasText(resources[i], "type", v) ensures exists x :: HasText(out, "type", x) && Shortened(t, v, x) {
      OneText(resources[i], "type", u, v);
    }
    if "resources" !in own {
      assert "resources" in fields <==> items != [];
      forall k, v | 0 <= k < |cs| && HasText(resources[i], "type", v) ensures ShowsTree(resources, |rs|, cs[k], v, items[k]) {
        OneText(resources[i], "type", u, v);
      }
      assert ShowsChildren(resources, |rs|, i, cs, out);
    }
  }

  lemma TypeShown(fields: Fields, u: string, t: string)
    requires "type" in fields && fields["type"] == JStr(u)
    ensures
      var out := WithChildType(fields, t);
      && (exists x :: HasText(JObj(out), "type", x) && Shortened(t, u, x))
      && out.Keys == fields.Keys && forall key | key in fields && key != "type" :: out[key] == fields[key]
  {
    ShortenedIs(t, u);
    assert HasText(JObj(WithChildType(fields, t)), "type", if t == "" then u else ReplaceFirst(u, t + "/", ""));
  }

  lemma {:induction false} RootsShown(resources: seq<Json>, rs: seq<Info>, roots: seq<nat>)
    requires Stand(resources, rs) && AllRootedAt(rs, roots, 0)
    ensures |FormatRoots(rs, roots)| == |roots|
    ensures forall k | 0 <= k < |roots| :: roots[k] < |rs| && ShowsTree(resources, |rs|, roots[k], "", FormatRoots(rs, roots)[k])
    decreases |roots|
  {
    hide Format, RootedAt, ShowsTree, Stand;
    if roots != [] {
      var front, last := roots[..|roots| - 1], roots[|roots| - 1];
      RootsShown(resources, rs, front);
      FormatShows(resources, rs, last, 0, "");
      NoTypeAbove(Format(rs, last, 0));
    }
  }

  lemma NoTypeAbove(fields: Fields)
    ensures WithChildType(fields, "") == fields
  {
  }

  /** The nested structure of the resources, read against the resources as they are given. */
  lemma NestedShows(resources: seq<Json>)
    ensures AcceptedFirst(resources, |ToInfos(resources)|)
    ensures ShowsAll(resources, |ToInfos(resources)|, Nested(ToInfos(resources)))
  {
    hide RootedAt, ShowsTree, ToInfos, Accepted, HasText, IsRoot;
    var rs := ToInfos(resources);
    var roots := Roots(rs);
    AcceptedAre(resources);
    RootsRooted(rs);
    RootsAre(rs, |rs|);
    RootsIncrease(rs, |rs|);
    RootsShown(resources, rs, roots);
    forall j: nat ensures j in roots <==> j < |rs| && IsRoot(resources[j]) {
      if j < |rs| {
        ParentIs(resources, rs, j, j);
      }
    }
  }
}
