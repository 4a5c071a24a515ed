/** The resources as objects that are linked in place: converting, linking under parents and
    formatting, each proved against the nesting of plain values. */
module BicepParser {
  import opened Sequences
  import opened BicepNesting
  import opened BicepOutput

  class Resource {
    const Name: string
    const FullType: string
    const Parent: string
    const ResourceData: Fields
    var Children: seq<Resource>

    constructor (info: Info)
      ensures Holds(info) && Children == []
    {
      Name, FullType, Parent, ResourceData := info.name, info.fullType, info.parent, info.data;
      Children := [];
    }

    ghost predicate Holds(info: Info) {
      Name == info.name && FullType == info.fullType && Parent == info.parent && ResourceData == info.data
    }
  }

  /** The object has name, type, parent and data of the resource as given. */
  ghost predicate MadeOf(r: Resource, res: Json) {
    && HasText(res, "identifier", r.Name) && HasText(res, "type", r.FullType) && r.ResourceData == res.fields
    && if "parent" in res.fields then HasText(res, "parent", r.Parent) else r.Parent == ""
  }

  ghost predicate Represents(rs: seq<Resource>, infos: seq<Info>) {
    && |rs| == |infos|
    && (forall i | 0 <= i < |rs| :: rs[i].Holds(infos[i]))
    && Distinct(rs)
  }

  /** The resources `children` are the ones at the positions `cs` of `rs`. */
  ghost predicate AreAt(children: seq<Resource>, rs: seq<Resource>, cs: seq<nat>) {
    |children| == |cs| && forall k | 0 <= k < |cs| :: cs[k] < |rs| && children[k] == rs[cs[k]]
  }

  /** The children of `rs[i]` are those of the first `n` resources that name it as their parent. */
  ghost predicate Linked(rs: seq<Resource>, infos: seq<Info>, i: nat, n: nat)
    requires i < |rs| == |infos| && n <= |rs|
    reads rs[i]
  {
    AreAt(rs[i].Children, rs, ChildrenBelow(infos, i, n))
  }

  ghost predicate AllLinked(rs: seq<Resource>, infos: seq<Info>, n: nat)
    requires |rs| == |infos| && n <= |rs|
    reads rs
  {
    forall i | 0 <= i < |rs| :: Linked(rs, infos, i, n)
  }

  method ConvertOriginalResourcesToStruct(resources: seq<Json>) returns (rs: seq<Resource>)
    ensures Represents(rs, ToInfos(resources)) && AllLinked(rs, ToInfos(resources), 0)
    ensures fresh(rs)
    ensures AcceptedFirst(resources, |rs|) && forall k | 0 <= k < |rs| :: MadeOf(rs[k], resources[k])
  {
    rs := [];
    ghost var infos: seq<Info> := [];
    var i := 0;
    assert resources[0..] == resources;
    while i < |resources|
      invariant 0 <= i <= |resources|
      invariant Represents(rs, infos) && fresh(rs) && forall k | 0 <= k < |rs| :: rs[k].Children == []
      invariant ToInfos(resources) == infos + ToInfos(resources[i..])
    {
      hide Represents, WellFormed, ToInfo, StringField, ToInfos, AllLinked;
      var res := resources[i];
      ToInfosStep(resources, infos, i);
      if !WellFormed(res) {
        NoneLinked(rs, infos);
        AllMade(resources, rs, infos);
        return;
      }
      var r := new Resource(ToInfo(res));
      Extended(rs, infos, r, ToInfo(res));
      rs := rs + [r];
      infos := infos + [ToInfo(res)];
      i := i + 1;
    }
    assert ToInfos(resources) == infos;
    NoneLinked(rs, infos);
    AllMade(resources, rs, infos);
  }

  lemma AllMade(resources: seq<Json>, rs: seq<Resource>, infos: seq<Info>)
    requires Represents(rs, infos) && infos == ToInfos(resources)
    ensures AcceptedFirst(resources, |rs|) && forall k | 0 <= k < |rs| :: MadeOf(rs[k], resources[k])
  {
    hide HasText, Accepted, ToInfos;
    AcceptedAre(resources);
    forall k | 0 <= k < |rs| ensures MadeOf(rs[k], resources[k]) {
      assert rs[k].Holds(infos[k]);
    }
  }

  lemma ToInfosStep(resources: seq<Json>, infos: seq<Info>, i: nat)
    requires i < |resources| && ToInfos(resources) == infos + ToInfos(resources[i..])
    ensures ToInfos(resources) ==
            if WellFormed(resources[i]) then infos + [ToInfo(resources[i])] + ToInfos(resources[i + 1..]) else infos
  {
    assert resources[i..][1..] == resources[i + 1..];
    hide WellFormed, ToInfo;
    if WellFormed(resources[i]) {
      Reassociate(infos, ToInfo(resources[i]), ToInfos(resources[i + 1..]));
    }
  }

  lemma Reassociate(a: seq<Info>, x: Info, rest: seq<Info>)
    ensures a + ([x] + rest) == a + [x] + rest
  {
  }

  lemma Extended(rs: seq<Resource>, infos: seq<Info>, r: Resource, info: Info)
    requires Represents(rs, infos) && r.Holds(info) && r !in rs
    ensures Represents(rs + [r], infos + [info])
  {
    forall k | 0 <= k < |rs| ensures rs[k] != r {
      assert rs[k] in rs;
    }
  }

  lemma NoneLinked(rs: seq<Resource>, infos: seq<Info>)
    requires Represents(rs, infos) && forall k | 0 <= k < |rs| :: rs[k].Children == []
    ensures AllLinked(rs, infos, 0)
  {
  }

  /** The map from names to resources holds the last of the first `n` resources of each name. */
  ghost predicate Indexed(byName: map<string, Resource>, rs: seq<Resource>, infos: seq<Info>, n: nat)
    requires n <= |rs| == |infos|
  {
    forall name :: (name in byName <==> LastNamed(infos[..n], name) >= 0)
                && (name in byName ==> byName[name] == rs[LastNamed(infos[..n], name)])
  }

  lemma IndexedStep(byName: map<string, Resource>, rs: seq<Resource>, infos: seq<Info>, n: nat)
    requires n < |rs| == |infos| && Indexed(byName, rs, infos, n)
    ensures Indexed(byName[infos[n].name := rs[n]], rs, infos, n + 1)
  {
    assert infos[..n + 1][..n] == infos[..n];
  }

  lemma ChildrenStep(children: seq<Resource>, rs: seq<Resource>, infos: seq<Info>, i: nat, n: nat)
    requires n < |infos| == |rs| && AreAt(children, rs, ChildrenBelow(infos, i, n))
    ensures AreAt(if ParentOf(infos, n) == i then children + [rs[n]] else children, rs, ChildrenBelow(infos, i, n + 1))
  {
  }

  method Adopt(parent: Resource, resource: Resource, rs: seq<Resource>, ghost infos: seq<Info>, ghost n: nat)
    requires n < |rs| == |infos| && resource == rs[n] && Distinct(rs)
    requires 0 <= ParentOf(infos, n) && parent == rs[ParentOf(infos, n)] && AllLinked(rs, infos, n)
    modifies parent
    ensures AllLinked(rs, infos, n + 1)
  {
    ghost var p, m := ParentOf(infos, n), n + 1;
    hide ChildrenBelow, ParentOf, AreAt;
    assert forall i | 0 <= i < |rs| :: i != p ==> rs[i] != rs[p];
    assert forall i | 0 <= i < |rs| :: Linked(rs, infos, i, n);
    parent.Children := parent.Children + [resource];
    forall i | 0 <= i < |rs| ensures Linked(rs, infos, i, m) {
      assert old(Linked(rs, infos, i, n));
      ChildrenStep(old(rs[i].Children), rs, infos, i, n);
    }
  }

  lemma NotLinked(rs: seq<Resource>, infos: seq<Info>, n: nat)
    requires n < |rs| == |infos| && ParentOf(infos, n) < 0 && AllLinked(rs, infos, n)
    ensures AllLinked(rs, infos, n + 1)
  {
    var m := n + 1;
    hide ChildrenBelow, ParentOf, AreAt;
    forall i | 0 <= i < |rs| ensures Linked(rs, infos, i, m) {
      assert Linked(rs, infos, i, n);
      ChildrenStep(rs[i].Children, rs, infos, i, n);
    }
  }

  method LinkToParent(resource: Resource, byName: map<string, Resource>, rs: seq<Resource>, ghost infos: seq<Info>, ghost n: nat)
    requires Represents(rs, infos) && Indexed(byName, rs, infos, |rs|)
    requires n < |rs| && resource == rs[n] && AllLinked(rs, infos, n)
    modifies rs
    ensures AllLinked(rs, infos, n + 1)
  {
    assert infos[..|rs|] == infos;
    assert resource.Holds(infos[n]);
    ghost var p := ParentOf(infos, n);
    assert p >= 0 <==> resource.Parent != "" && resource.Parent in byName;
    assert p >= 0 ==> byName[resource.Parent] == rs[p];
    hide LastNamed, ParentOf, Indexed, AllLinked;
    if resource.Parent != "" && resource.Parent in byName {
      Adopt(byName[resource.Parent], resource, rs, infos, n);
    } else {
      NotLinked(rs, infos, n);
    }
  }

  method AddChildrenToParents(rs: seq<Resource>, ghost infos: seq<Info>)
    requires Represents(rs, infos) && AllLinked(rs, infos, 0)
    modifies rs
    ensures AllLinked(rs, infos, |rs|)
  {
    var resourceMap: map<string, Resource> := map[];
    for n := 0 to |rs|
      invariant Indexed(resourceMap, rs, infos, n)
      invariant AllLinked(rs, infos, 0)
    {
      assert rs[n].Holds(infos[n]);
      hide Indexed, AllLinked;
      IndexedStep(resourceMap, rs, infos, n);
      resourceMap := resourceMap[rs[n].Name := rs[n]];
    }
    hide Indexed, AllLinked, Represents;
    for n := 0 to |rs|
      invariant AllLinked(rs, infos, n)
    {
      LinkToParent(rs[n], resourceMap, rs, infos, n);
    }
  }

  /** Formats the resource `rs[i]` at depth `d` with everything that hangs below it. */
  method ReformatTestTree(resource: Resource, ghost rs: seq<Resource>, ghost infos: seq<Info>, ghost i: nat, ghost d: nat)
    returns (reformatted: Fields)
    requires Represents(rs, infos) && AllLinked(rs, infos, |rs|)
    requires i < |rs| && resource == rs[i] && RootedAt(infos, i, d)
    ensures reformatted == Format(infos, i, d)
    decreases |rs| - d
  {
    hide *;
    ghost var cs := Below(rs, infos, i, d);
    var children: seq<Json> := [];
    FormatNone(infos, i, cs, d + 1);
    for k := 0 to |resource.Children|
      invariant AllRootedAt(infos, cs[..k], d + 1)
      invariant children == FormatChildren(infos, i, cs[..k], d + 1)
    {
      FormatChildrenStep(infos, i, cs, k, d + 1);
      var formattedChild := ReformatTestTree(resource.Children[k], rs, infos, cs[k], d + 1);
      children := children + [JObj(WithChildType(formattedChild, resource.FullType))];
    }
    assert cs[..|cs|] == cs;
    reformatted := map[];
    if |children| > 0 {
      reformatted := map["resources" := JList(children)];
    }
    reformatted := reformatted + resource.ResourceData;
  }

  /** What `ReformatTestTree` finds in the object `rs[i]`. */
  lemma Below(rs: seq<Resource>, infos: seq<Info>, i: nat, d: nat) returns (cs: seq<nat>)
    requires Represents(rs, infos) && AllLinked(rs, infos, |rs|) && i < |rs| && RootedAt(infos, i, d)
    ensures |infos| == |rs| && d < |rs| && AllRootedAt(infos, cs, d + 1)
    ensures rs[i].ResourceData == infos[i].data && rs[i].FullType == infos[i].fullType
    ensures |rs[i].Children| == |cs| && forall k | 0 <= k < |cs| :: cs[k] < |rs| && rs[i].Children[k] == rs[cs[k]]
    ensures
      var items := FormatChildren(infos, i, cs, d + 1);
      Format(infos, i, d) == (if items != [] then map["resources" := JList(items)] else map[]) + infos[i].data
  {
    hide RootedAt, Format, FormatChildren, Preorder, Forest, ParentOf, ChildrenBelow;
    ghost var items;
    cs, items := FormatIs(infos, i, d);
    assert Linked(rs, infos, i, |rs|) && rs[i].Holds(infos[i]);
  }

  lemma FormatNone(infos: seq<Info>, parent: nat, cs: seq<nat>, d: nat)
    requires parent < |infos|
    ensures AllRootedAt(infos, cs[..0], d) && FormatChildren(infos, parent, cs[..0], d) == []
  {
  }

  lemma FormatChildrenStep(infos: seq<Info>, parent: nat, cs: seq<nat>, k: nat, d: nat)
    requires parent < |infos| && AllRootedAt(infos, cs, d) && k < |cs|
    ensures cs[k] < |infos| && RootedAt(infos, cs[k], d)
    ensures AllRootedAt(infos, cs[..k], d) && AllRootedAt(infos, cs[..k + 1], d)
    ensures FormatChildren(infos, parent, cs[..k + 1], d) ==
            FormatChildren(infos, parent, cs[..k], d)
            + [JObj(WithChildType(Format(infos, cs[k], d), infos[parent].fullType))]
  {
    hide Format, RootedAt, WithChildType;
    assert cs[..k + 1][..k] == cs[..k];
  }

  method FilterParentStructs(rs: seq<Resource>, ghost infos: seq<Info>) returns (filtered: seq<Json>)
    requires Represents(rs, infos) && AllLinked(rs, infos, |rs|)
    ensures filtered == Nested(infos)
  {
    hide *;
    filtered := [];
    Starting(rs, infos);
    for n := 0 to |rs|
      invariant AllRootedAt(infos, RootsBelow(infos, n), 0)
      invariant filtered == FormatRoots(infos, RootsBelow(infos, n))
    {
      FormatRootsStep(infos, n);
      if rs[n].Parent == "" {
        var formattedNode := ReformatTestTree(rs[n], rs, infos, n, 0);
        filtered := filtered + [JObj(formattedNode)];
      }
    }
  }

  lemma Starting(rs: seq<Resource>, infos: seq<Info>)
    requires Represents(rs, infos)
    ensures |rs| == |infos| && forall n | 0 <= n < |rs| :: rs[n].Parent == infos[n].parent
    ensures AllRootedAt(infos, RootsBelow(infos, 0), 0) && FormatRoots(infos, RootsBelow(infos, 0)) == []
    ensures AllRootedAt(infos, RootsBelow(infos, |rs|), 0)
    ensures Nested(infos) == FormatRoots(infos, RootsBelow(infos, |rs|))
  {
    hide RootedAt, Format;
    assert forall n | 0 <= n < |rs| :: rs[n].Holds(infos[n]);
    RootsRooted(infos);
  }

  lemma FormatRootsStep(infos: seq<Info>, n: nat)
    requires n < |infos| && AllRootedAt(infos, RootsBelow(infos, n), 0)
    ensures AllRootedAt(infos, RootsBelow(infos, n + 1), 0)
    ensures infos[n].parent == "" ==> RootedAt(infos, n, 0)
    ensures FormatRoots(infos, RootsBelow(infos, n + 1)) ==
            FormatRoots(infos, RootsBelow(infos, n)) + if infos[n].parent == "" then [JObj(Format(infos, n, 0))] else []
  {
    hide Format;
    if infos[n].parent == "" {
      assert RootsBelow(infos, n + 1)[..|RootsBelow(infos, n)|] == RootsBelow(infos, n);
    }
  }

  /** The nested structure holds the parts of exactly the resources whose parent chain ends at a root
      without meeting a strict ancestor with its own `resources` key, each exactly once. */
  method MakeResourcesNestedStructure(resources: seq<Json>) returns (nested: seq<Json>)
    ensures nested == Nested(ToInfos(resources))
    ensures
      var infos := ToInfos(resources);
      && Within(Order(infos), |infos|) && FlattenAll(nested) == PartsOf(infos, Visible(infos))
      && Distinct(Visible(infos)) && (forall i :: i in Visible(infos) <==> 0 <= i < |infos| && Open(infos, i))
      && (NoOwnResources(infos) ==> FlattenAll(nested) == DataOf(infos, Order(infos)))
    // Read against the resources as given: what hangs under what, with which type and data.
    ensures exists n :: AcceptedFirst(resources, n) && ShowsAll(resources, n, nested)
  {
    NestedShows(resources);
    ghost var infos := ToInfos(resources);
    var rs := ConvertOriginalResourcesToStruct(resources);
    AddChildrenToParents(rs, infos);
    nested := FilterParentStructs(rs, infos);
    NestingConserves(infos);
    if NoOwnResources(infos) {
      PlainNestingConserves(infos);
    }
  }
}
