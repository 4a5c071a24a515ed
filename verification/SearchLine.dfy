/** Looking up the line of a path of keys in an annotated document. */
module SearchLine {
  import opened YamlDocument
  import opened Strings
  import opened Wrappers
  import opened LineKeys

  // ---- Paths in a document ----

  /** Plain path lookup: keys into objects, decimal indices into lists. */
  function Get(j: Json, path: seq<string>): Option<Json>
    decreases path
  {
    if path == [] then Some(j)
    else
      match j
      case Obj(fields) => if path[0] in fields then Get(fields[path[0]], path[1..]) else None
      case List(items) =>
        match (if path[0] == "" then None else Digits(path[0])) {
          case Some(i) => if 0 <= i < |items| then Get(items[i], path[1..]) else None
          case None => None
        }
      case _ => None
  }

  /** A found value read as an integer, 0 if there is none. */
  function AsInt(j: Option<Json>): int {
    match j
    case Some(Num(n)) => n
    case Some(Bool(b)) => if b then 1 else 0
    case Some(Str(s)) => (match Atoi(s) case Some(n) => n case None => 0)
    case _ => 0
  }

  function Escape(s: string): string {
    if s == "" then ""
    else Escape(s[..|s| - 1]) + if s[|s| - 1] == '.' then "\\." else [s[|s| - 1]]
  }

  lemma {:induction false} EscapeKeepsDots(s: string)
    ensures '.' in Escape(s) <==> '.' in s
    ensures '.' !in s ==> Escape(s) == s
  {
    if s != "" {
      var front := s[..|s| - 1];
      EscapeKeepsDots(front);
      assert s == front + [s[|s| - 1]];
    }
  }

  // ---- What the detector looks up ----

  /** The key of the last array that the first `n` items index into; "" if there is none. */
  function ArrayObject(items: seq<string>, n: nat, found: bool): string
    requires n <= |items|
  {
    if n == 0 then ""
    else if Atoi(items[n - 1]).Some? then ArrayObject(items, n - 1, true)
    else if found then items[n - 1]
    else ArrayObject(items, n - 1, found)
  }

  function ArrayPart(item: string): seq<string> {
    [LINES_KEY, Tagged(item), ARR_KEY]
  }

  function ObjectPath(items: seq<string>): seq<string>
    requires items != []
  {
    if |items| == 1 then items else items[..|items| - 1]
  }

  function ArrayPath(items: seq<string>, arrayObject: string): seq<string>
    requires items != []
    decreases |items|
  {
    if |items| <= 2 then (if arrayObject == Escape(items[0]) then ArrayPart(items[0]) else [items[0]])
    else
      var item := items[|items| - 2];
      ArrayPath(items[..|items| - 1], arrayObject) + if item == arrayObject then ArrayPart(item) else [item]
  }

  function Candidates(objectPath: seq<string>, arrayPath: seq<string>, target: string): seq<seq<string>> {
    [objectPath + [LINES_KEY] + Split(Tagged(target), '.') + [LINE_KEY],
     objectPath + Split(target, '.') + [LINES_KEY, DEFAULT_KEY, LINE_KEY],
     arrayPath + Split(target, '.') + [DEFAULT_KEY, LINE_KEY],
     arrayPath + Split(Tagged(target), '.') + [LINE_KEY]]
  }

  /** The first positive line that the paths lead to. */
  function FirstLine(content: Json, paths: seq<seq<string>>): int {
    if paths == [] then -1
    else if AsInt(Get(content, paths[0])) > 0 then AsInt(Get(content, paths[0]))
    else FirstLine(content, paths[1..])
  }

  function SearchedLine(content: Json, items: seq<string>): int {
    if items == [] then 1
    else
      FirstLine(content, Candidates(ObjectPath(items), ArrayPath(items, ArrayObject(items, |items|, false)), items[|items| - 1]))
  }

  class SearchLineDetector {
    const content: Json
    var resolvedPath: seq<string>
    var resolvedArrayPath: seq<string>
    var targetObj: string

    constructor (content: Json)
      ensures this.content == content
    {
      this.content := content;
      resolvedPath, resolvedArrayPath, targetObj := [], [], "";
    }

    method PreparePath(pathItems: seq<string>) returns (line: int)
      modifies this
      ensures line == SearchedLine(content, pathItems)
      ensures pathItems != [] ==>
                && resolvedPath == ObjectPath(pathItems) && targetObj == pathItems[|pathItems| - 1]
                && resolvedArrayPath == ArrayPath(pathItems, ArrayObject(pathItems, |pathItems|, false))
    {
      hide *;
      SearchedLineIs(content, pathItems);
      if |pathItems| == 0 {
        return 1;
      }
      var arrayObject := FindArrayObject(pathItems);
      var objPath, arrPath := BuildPaths(pathItems, arrayObject);
      resolvedPath, resolvedArrayPath, targetObj := objPath, arrPath, pathItems[|pathItems| - 1];
      line := GetResult();
    }

    method GetResult() returns (result: int)
      ensures result == FirstLine(content, Candidates(resolvedPath, resolvedArrayPath, targetObj))
    {
      var pathObjects := [
        resolvedPath + [LINES_KEY] + Split(Tagged(targetObj), '.') + [LINE_KEY],
        resolvedPath + Split(targetObj, '.') + [LINES_KEY, DEFAULT_KEY, LINE_KEY],
        resolvedArrayPath + Split(targetObj, '.') + [DEFAULT_KEY, LINE_KEY],
        resolvedArrayPath + Split(Tagged(targetObj), '.') + [LINE_KEY]];
      assert pathObjects == Candidates(resolvedPath, resolvedArrayPath, targetObj);
      hide *;
      result := -1;
      var n := 0;
      FirstLineStep(content, pathObjects, 0);
      while n < |pathObjects|
        invariant 0 <= n <= |pathObjects| && result == -1
        invariant FirstLine(content, pathObjects) == FirstLine(content, pathObjects[n..])
      {
        FirstLineStep(content, pathObjects, n);
        var tmpResult := AsInt(Get(content, pathObjects[n]));
        if tmpResult > 0 {
          result := tmpResult;
          break;
        }
        n := n + 1;
      }
      FirstLineStep(content, pathObjects, n);
    }
  }

  lemma SearchedLineIs(content: Json, items: seq<string>)
    ensures items == [] ==> SearchedLine(content, items) == 1
    ensures items != [] ==>
              SearchedLine(content, items) ==
              FirstLine(content, Candidates(ObjectPath(items), ArrayPath(items, ArrayObject(items, |items|, false)), items[|items| - 1]))
  {
    hide FirstLine, Candidates, ArrayPath, ArrayObject, ObjectPath;
  }

  method BuildPaths(pathItems: seq<string>, arrayObject: string) returns (objPath: seq<string>, arrPath: seq<string>)
    requires pathItems != []
    ensures objPath == ObjectPath(pathItems) && arrPath == ArrayPath(pathItems, arrayObject)
  {
    hide Escape;
    objPath, arrPath := [pathItems[0]], [pathItems[0]];
    if arrayObject == Escape(pathItems[0]) {
      arrPath := [LINES_KEY, Tagged(pathItems[0]), ARR_KEY];
    }
    var treatedPathItems := [];
    if |pathItems| > 1 {
      treatedPathItems := pathItems[1..|pathItems| - 1];
      assert pathItems[..2][0] == pathItems[0];
      for n := 0 to |treatedPathItems|
        invariant objPath == pathItems[..n + 1] && arrPath == ArrayPath(pathItems[..n + 2], arrayObject)
      {
        ArrayPathStep(pathItems, n + 1, arrayObject);
        var pathItem := treatedPathItems[n];
        if pathItem == arrayObject {
          arrPath := arrPath + [LINES_KEY, Tagged(pathItem), ARR_KEY];
        } else {
          arrPath := arrPath + [pathItem];
        }
        objPath := objPath + [pathItem];
      }
      assert pathItems[..|pathItems|] == pathItems;
    }
  }

  lemma FirstLineStep(content: Json, paths: seq<seq<string>>, n: nat)
    requires n <= |paths|
    ensures paths[0..] == paths
    ensures FirstLine(content, paths[n..]) ==
            if n == |paths| then -1
            else if AsInt(Get(content, paths[n])) > 0 then AsInt(Get(content, paths[n]))
            else FirstLine(content, paths[n + 1..])
  {
    if n < |paths| {
      assert paths[n..][1..] == paths[n + 1..];
    }
  }

  lemma ArrayPathStep(items: seq<string>, i: nat, arrayObject: string)
    requires 1 <= i < |items| - 1
    ensures ArrayPath(items[..i + 2], arrayObject) ==
            ArrayPath(items[..i + 1], arrayObject) + if items[i] == arrayObject then ArrayPart(items[i]) else [items[i]]
  {
    assert items[..i + 2][..i + 1] == items[..i + 1];
  }

  method FindArrayObject(pathItems: seq<string>) returns (arrayObject: string)
    ensures arrayObject == ArrayObject(pathItems, |pathItems|, false)
  {
    var foundArrayIdx, i := false, |pathItems|;
    while i > 0
      invariant 0 <= i <= |pathItems|
      invariant ArrayObject(pathItems, |pathItems|, false) == ArrayObject(pathItems, i, foundArrayIdx)
    {
      if Atoi(pathItems[i - 1]).Some? {
        foundArrayIdx := true;
      } else if foundArrayIdx {
        return pathItems[i - 1];
      }
      i := i - 1;
    }
    arrayObject := "";
  }
}
