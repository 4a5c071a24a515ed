# KICS: a verified model

KICS scans infrastructure-as-code files. Between parsing a file and reporting a finding lies code
that is easy to get wrong: flat state machines that have to agree with nested documents, workers
that talk over channels, parsers, in-place graph and list surgery, and lookups across several
passes. This project models that code and proves what it is for.

The model keeps the form of the code. Objects that are updated in place are classes (the path
tracker, the queues of lines, the filter parser, the tag scanner, the Bicep resources, the search
line detector, the storage, the remediation summary, the line detector, the reference resolver),
loops are loops with invariants, and the goroutines with their channels are state machines whose
steps are the atomic channel operations. Every method is proved against a function or a relation on
values, and the lemmas say what that function means. Where Go iterates over a map, the model picks
the keys in an arbitrary order, so every result holds for all orders.

| files | what they model |
|---|---|
| `JsonDocument`, `JsonTracker`, `JsonLevels`, `JsonLines`, `JsonSlots`, `JsonElements`, `JsonAnnotator` | the two passes that give every JSON key and array element its line |
| `InspectionPool`, `ScanRun` | the query workers of one service, and a scan of several services with one progress bar |
| `FilterSyntax`, `FilterParser`, `FilterLeaves`, `FilterRoundTrip` | the parser and visitor of filter expressions |
| `BicepNesting`, `BicepOutput`, `BicepParser` | nesting Bicep resources under their parents |
| `TerraformBlocks`, `TerraformClashes`, `TerraformConverter` | converting Terraform bodies into documents |
| `SharedMemory`, `References`, `ReferencePaths`, `Inclusions`, `InclusionDepth`, `ResolverMemory`, `ResolverAnswers`, `ResolverReferences`, `ResolverContainers`, `ResolverReading`, `ResolverStates`, `ResolverLoads`, `FileResolver`, `ResolverFaults` | replacing references by what they refer to, across files that include files, in documents that are shared and changed in place |
| `LineKeys`, `YamlDocument`, `YamlScalars`, `SearchLine`, `LineLookup`, `ScanDocument` | YAML line annotation, looking lines up by path, and stripping the annotation again |
| `Remediation` | replacements and additions in a file |
| `AnalyzerFanIn` | the file analyzer's workers and collector |
| `ScanSummary` | deduplication, grouping and counting of results |
| `TerraformInsertion` | where a fix goes in a Terraform block |
| `TagParser` | values of tag attributes |
| `LineSelection` | the line of a finding and the preview around it |
| `Sequences`, `Sorting`, `Strings`, `Parsing`, `Wrappers` | shared helpers |

`dafny verify dfyconfig.toml` checks everything.

Some properties one might expect do not hold of the code. For these there is an input that shows it, and
a lemma that says exactly when they hold:

* The flat JSON tracker records every token under the names of the containers around it exactly for level
  documents (`JsonLevels.RightIffLevel`), which for documents without empty containers are those in which
  nothing follows a lost name (`JsonLevels.RightIffKeeps`). `{"a": [[[1]]]}` is recorded correctly,
  `{"x": {"a": [[[1]]], "b": 2}}` is not (`JsonLevels.LossAtTheEnd`, `JsonLevels.KeyBehindLoss`).
* In regular JSON documents whose nested arrays are printed like no text at their path, every scalar element of an
  array has one line map with its own line exactly if, under every text and path, the lines of the elements looked
  up there are the first ones recorded there (`JsonAnnotator.AnnotateLines`). That is so if elements are printed as
  their tokens and no other token has the text of an element at its path (`JsonAnnotator.PlainElementsFirst`), and
  not so for `{"a": [{"k": "x"}, "x"]}` on several lines (`JsonAnnotator.ElementMisled`).
* A scan completes exactly if every service with queries has a worker (`ScanRun.ScansComplete`).
* The data of a Bicep resource comes out of the nested structure exactly if its parent chain ends at a root
  and no strict ancestor on it has a `resources` key of its own (`BicepNesting.NestingConserves`).
* Terraform blocks are found at their own paths exactly if no path of a block is a proper prefix of
  another block's path (`TerraformConverter.GroupedIffNoOverlap`).
* Annotating and stripping a YAML document gives the plain conversion exactly if the plain conversion holds
  no line key (`ScanDocument.AnnotateThenStrip`); a source that does not use the line key has such a
  conversion (`ScanDocument.PlainHasNoLines`).
* A written tag value is read back exactly if no array in it is empty
  (`TagParser.ReturnsIffNoEmptyArray`).
* The insertion line lies inside its block exactly if the block has more than one line
  (`TerraformInsertion.InsertionInside`).
* The analyzer reports all unwanted paths in every interleaving exactly if no file has one
  (`AnalyzerFanIn.ReportedIffNone`, `AnalyzerFanIn.UnwantedCanBeLost`).
* Two different results can have the same key: the key of a result is the key of no different result exactly
  if no field of the result holds a colon (`ScanSummary.KeyIsUnmistakable`, `ScanSummary.Mistaken`).
* The check for circular references is right about every value exactly if each reference at its depth or
  deeper is repeated above (`References.CheckRightIff`, `References.CheckMisses`).
* The resolver puts the object of a file in several places at once and writes metadata into it. Where sharing
  can be foreseen, what a document comes to is what it would be if every file was loaded anew for each use
  exactly if all its uses of a file agree (`FileResolver.ResolveDocument`); two uses of which one has a field
  beside its reference do not (`ResolverFaults.SharedMetadata`). Sharing can be foreseen if the documents are
  orderly, the uses inside of files agree with all others, no file leads to itself and a file comes to the same
  at every depth. The last two always hold if no chain of files meets the bound on the depth
  (`InclusionDepth.UncutIsFree`). Where one does, a file that was loaded at the bound is served without what it
  includes (`FileResolver.TruncatedServed`, `ResolverFaults.SecondFileDiffers`).
* A resolved orderly value can be written exactly if no object without a reference key stands under a reference
  key (`ResolverReading.UnfoldsIffNotCyclic`): such an object becomes its own metadata. `{"x": {"$ref": {"a": 1}}}`
  comes back unresolved (`ResolverFaults.ObjectIsCyclic`, `FileResolver.ResolveDocument`), while
  `{"$ref": {"$ref": "s"}}` does not (`ResolverFaults.ReferenceIsNotCyclic`).
* A reference to a section that holds something to resolve depends on the order of the keys
  (`ResolverFaults.SectionDependsOnOrder`). Its answer is the same before and after the section was resolved
  exactly if the section and what it shows then are answered with the same (`ResolverFaults.SectionSameIff`). A
  section that is reached through objects without references and holds nothing to resolve is answered with the
  same in every order (`ResolverAnswers.FindAnchored`).

## Model

| member | source | states |
|---|---|---|
| JsonLines.PathTracker.DelimSetup | pkg/parser/json/json_line.go:127-152 | A delimiter moves the whole tracker state (path stack, do-not-pop marks, last name) as the machine of `JsonTracker` says, keeps the joined path in step with the stack, and never leaves the stack empty |
| JsonLines.PathTracker.CloseBrackets | pkg/parser/json/json_line.go:156-180 | A closing delimiter spends a mark or pops a name, the same for braces and brackets, and never pops the root |
| JsonTracker.MachineFollowsDocument | pkg/parser/json/json_line.go:42-180 | For an object of regular shape, the flat machine records every token under exactly the names of the containers around it in the tree, and ends with the path of the root and no marks |
| JsonTracker.FollowsItems | pkg/parser/json/json_line.go:127-180 | Reading the elements of an array records the entries the tree gives them and restores path and marks |
| JsonTracker.FollowsNamed | pkg/parser/json/json_line.go:127-180 | Reading the value of a key, of any nesting, records it below that key and restores path and marks at its closing delimiter |
| JsonTracker.ContainerAfterScalar | pkg/parser/json/json_line.go:132-134 | A container right after a scalar is recorded one path segment too deep, so it is right exactly if it holds no token at all |
| JsonTracker.NestedUnnamedLosesName | pkg/parser/json/json_line.go:135-144 | A nameless container inside a nameless container shares its mark: after both are closed the name around them is gone |
| JsonLevels.RightIffLevel | pkg/parser/json/json_line.go:42-180 | For every object: the flat machine records each token under exactly the names of the containers around it if and only if the document is level, a condition on its nesting alone |
| JsonLevels.RightIffKeeps | pkg/parser/json/json_line.go:127-180 | For every object without empty containers: that holds if and only if in each member, at every depth, no token follows after nameless containers in nameless containers have used up a name, and no container follows a scalar in an array |
| JsonLevels.RegularIsLevel | pkg/parser/json/json_line.go:127-180 | Documents of regular shape are level, so the general condition covers the ones the two passes are proved for |
| JsonLevels.LossAtTheEnd | pkg/parser/json/json_line.go:135-144 | A document that is not of regular shape and is recorded correctly: the lost name is missed by no token |
| JsonLevels.KeyBehindLoss | pkg/parser/json/json_line.go:156-172 | A document that is recorded wrongly: the key behind three nested arrays loses the name around it |
| JsonTracker.SharedMark | pkg/parser/json/json_line.go:156-172 | A nameless container inside a marked one is recorded correctly but uses up the mark |
| JsonLines.AdvanceLine | pkg/parser/json/json_line.go:91-98 | The running line is 1 plus the newlines before the end of the token, and never goes back |
| JsonLines.InsertLine | pkg/parser/json/json_line.go:100-119 | One line is added at the end of the queue of exactly one text and path; all other queues stay |
| JsonLines.InitializeJSONLine | pkg/parser/json/json_line.go:42-124 | For any token stream of the decoder, every queue holds exactly the lines of the tokens recorded for its text and path, in document order, and is non-decreasing |
| JsonDocument.JoinInjective | pkg/parser/json/json_line.go:147-147 | Dot-free paths with the same joined text are the same path |
| JsonAnnotator.FirstPassSupplies | pkg/parser/json/json_line.go:42-187 | After the first pass over a regular document, the queue of every key slot starts with the lines of exactly that slot's keys, which is what the second pass needs |
| JsonAnnotator.JsonLine.Pop | pkg/parser/json/json_line.go:312-316 | Takes the head of one queue and leaves all others alone |
| JsonAnnotator.JsonLine.SetLine | pkg/parser/json/json_line.go:193-244 | In whatever order the keys are visited, every key of the object gets its own line, at every depth; each queue loses exactly the lines of the object's keys if lines are popped; the default line is the one asked for |
| JsonAnnotator.JsonLine.SetMember | pkg/parser/json/json_line.go:202-242 | The entry of one key: its own line, the lines of its elements if it is an array, the line map with the key's line as default if it is an object |
| JsonAnnotator.JsonLine.SetSeqLines | pkg/parser/json/json_line.go:248-279 | Popping shared queues serves every object of an array its own lines in order, uses up exactly the lines of the array's keys, and, if all objects have the same keys, gives each object the least line of its own keys as default |
| JsonAnnotator.JsonLine.SetItem | pkg/parser/json/json_line.go:258-276 | One array element: an object takes exactly its own lines with the default line asked for, anything else leaves the queues of all keys alone; a scalar gets one line map with its own line exactly if that line comes next in its queue, and then takes exactly that one |
| JsonAnnotator.JsonLine.GetMapDefaultLine | pkg/parser/json/json_line.go:282-304 | The least head among the keys of the last object that still has lines, or -1 |
| JsonAnnotator.DefaultIsOwn | pkg/parser/json/json_line.go:254-304 | In an array of objects with the same keys, the shared heads are the element's own, so the default line is the least line of its own keys |
| JsonAnnotator.AnnotateLines | pkg/parser/json/json_line.go:42-304 | Both passes together: in a regular document every key occurrence, at every depth and inside arrays, ends up with exactly its own line, and the root's default line is 0; every scalar element of an array ends up with one line map that holds its own line, if and only if the lines of elements are the first ones recorded under their texts and paths |
| JsonElements.ElementTaken | pkg/parser/json/json_line.go:262-275 | What is popped for a scalar element is its own line exactly if the queue of its printed text at its path starts with that line; no other queue of an element changes |
| JsonElements.ServedBoth | pkg/parser/json/json_line.go:248-279 | Serving one part of a document after another gives all elements their own lines exactly if the queues held the lines of both parts, in order, at the start |
| JsonAnnotator.PlainElementsFirst | pkg/parser/json/json_line.go:42-124 | If elements are printed as their tokens and no key, no scalar value and nothing in a nested array has the text of an element at its path, the condition for right element lines holds |
| JsonAnnotator.ElementMisled | pkg/parser/json/json_line.go:262-275 | A regular document in which an element is looked up where a value was recorded before it: if the two are on different lines, the condition fails |
| InspectionPool.BeginInv | pkg/engine/inspector.go:289-319 | The invariant of one inspection holds before the first step |
| InspectionPool.StepKeepsInv | pkg/engine/inspector.go:226-346 | Every channel operation keeps it: the jobs channel holds the untaken indices in order, a job in hand was taken by that worker and has no result yet, the results channel holds what was sent and not collected, and the output is that of the collected results |
| InspectionPool.ReportNeverBlocks | pkg/engine/inspector.go:262-263 | A worker with a result finds the results channel open and with a free place |
| InspectionPool.OneWorkerPerQuery | pkg/engine/inspector.go:234-265 | No index is in two workers' hands, in hand after its result was sent, still in the channel while in hand, or sent twice |
| InspectionPool.CanMove | pkg/engine/inspector.go:226-346 | An inspection that has not returned and is not just waiting to announce a query can take a step |
| InspectionPool.StepsRunOut | pkg/engine/inspector.go:226-346 | Every step uses up a measure, an announcement twice as much |
| InspectionPool.AnyOrder | pkg/engine/inspector.go:322-345 | Collecting each finding query once, in any order, yields the same multiset of findings |
| InspectionPool.ReturnsAllFindings | pkg/engine/inspector.go:267-346 | When Inspect returns, all queries were taken, its findings are the multiset union of those of the error-free queries, and exactly the queries that failed to run are recorded as failed |
| ScanRun.GetQueriesByPlat | pkg/engine/inspector.go:360-368 | The queries at strictly increasing indices, in order: every common one, those for k8s exactly if a given platform is Kubernetes in some case of letters, any other exactly if a given platform is its own |
| ScanRun.LenQueriesByPlat | pkg/engine/inspector.go:349-358 | Counts exactly those queries |
| ScanRun.SelectedAre | pkg/engine/inspector.go:582-596 | For any queries and platforms: what is selected for the scan are the outcomes of exactly those queries, each once and in order |
| ScanRun.GetQueriesLength | pkg/scanner/scanner.go:108-115 | The total for the progress bar is the number of queries that the services will announce |
| ScanRun.StartInv | pkg/scanner/scanner.go:64-92 | The scan invariant holds at the start for any services |
| ScanRun.ActionKeepsInv | pkg/scanner/scanner.go:64-121 | Every step of any service, the bar or the closing goroutine keeps it: received and buffered progress add up to what was announced, the bar runs exactly while less than the total was received, and the channel is closed only after everybody is done |
| ScanRun.TakersStay | pkg/engine/inspector.go:234-265 | In every run of a scan, a query that a worker of a service took stays that worker's: no other worker takes it later |
| ScanRun.SafeInEveryRun | pkg/progress/counter/counter_progress.go:57-74 | In every run no send meets a closed channel, no result waits for a place, the bar never reads a closed channel, and a closed progress channel is empty with all progress received |
| ScanRun.NotStuck | pkg/scanner/scanner.go:64-105 | If every service with queries has a worker, somebody can move until the scan is done |
| ScanRun.RunsAreShort | pkg/scanner/scanner.go:64-105 | Every run uses up a measure fixed at its start |
| ScanRun.NeverDone | pkg/scanner/scanner.go:64-105 | With a service that has queries and no worker the bar waits forever |
| ScanRun.ScansComplete | pkg/scanner/scanner.go:64-121 | Every run stops within a bound, and where it stops the scan is done, with all queries announced, received and reported, exactly if every service with queries has a worker |
| FilterParser.JSONFilterParser.FilterExpr | pkg/parser/jsonfilter/parser/jsonfilter_parser.go:719-881 | The precedence loop consumes the token stream as the recursive grammar function says, for every binding strength, syntax errors included |
| FilterParser.JSONFilterParser.Operand | pkg/parser/jsonfilter/parser/jsonfilter_parser.go:738-775 | The first alternative: parentheses or a leaf |
| FilterParser.JSONFilterParser.Exp | pkg/parser/jsonfilter/parser/jsonfilter_parser.go:1014-1060 | Selector, operator and value, consuming exactly those tokens |
| FilterParser.JSONFilterParser.Qualifiedidentifier | pkg/parser/jsonfilter/parser/jsonfilter_parser.go:1293-1350 | Members separated by dots |
| FilterParser.JSONFilterParser.Member | pkg/parser/jsonfilter/parser/jsonfilter_parser.go:1450-1545 | An identifier with any number of indices |
| FilterParser.JSONFilterParser.Literal | pkg/parser/jsonfilter/parser/jsonfilter_parser.go:1804-1962 | Plain literals and dotted numbers with wildcards |
| FilterParser.JSONFilterParser.Dotnotation | pkg/parser/jsonfilter/parser/jsonfilter_parser.go:361-397 | A braced expression or a syntax error |
| FilterRoundTrip.TreeReturns | pkg/parser/jsonfilter/parser/jsonfilter_parser.go:719-881 | Reading the tokens of a grammatical tree puts that tree into the loop as left operand, whatever follows |
| FilterRoundTrip.ParseSound | pkg/parser/jsonfilter/parser/jsonfilter_parser.go:719-881 | Whatever the parser accepts are the tokens of the tree it returns, that tree is grammatical at the strength asked for, and no operator it should have taken is left |
| FilterRoundTrip.ParserIsExact | pkg/parser/jsonfilter/parser/jsonfilter_parser.go:361-881 | A token list is accepted with a tree if and only if it starts with that braced tree and the tree is grammatical: precedence, associativity and unambiguity in one |
| FilterRoundTrip.ParensMeanNothing | pkg/parser/jsonfilter/parser/jsonfilter_tree_visitor.go:69-111 | The visitor gives the meaning of an expression whatever parentheses stand around its parts |
| FilterRoundTrip.ExtraParensChangeNothing | pkg/parser/jsonfilter/parser/jsonfilter_tree_visitor.go:69-111 | Extra parentheses around any subexpressions do not change what a filter is read as |
| FilterRoundTrip.PrintedFilterReturns | pkg/parser/jsonfilter/parser/jsonfilter_tree_visitor.go:69-111 | Every expression printed with only the parentheses it needs is read back as its meaning |
| FilterRoundTrip.PrintedIsShortest | pkg/parser/jsonfilter/parser/jsonfilter_parser.go:719-881 | No token list that is read as the same expression is shorter than the printed one |
| FilterRoundTrip.ResolveJSONFilter | pkg/parser/jsonfilter/parser/jsonfilter_tree_visitor.go:43-111 | Parser and visitor together return the meaning of every printed expression, and nothing for a syntax error; whatever is accepted, the leaves of the filter say, one by one, what stands between parentheses and logical operators in the tokens |
| FilterLeaves.TreeSays | pkg/parser/jsonfilter/parser/jsonfilter_tree_visitor.go:94-127 | The leaves of a visited tree are as many as the pieces between parentheses and logical operators; each has the text before its first operator as selector, that operator, and the text behind it as value, or none exactly if a path stands there |
| FilterLeaves.NothingLost | pkg/parser/jsonfilter/parser/jsonfilter_tree_visitor.go:94-127 | Selector, operator and value of a leaf with a value are the text of exactly its tokens |
| FilterRoundTrip.OneTokenValue | pkg/parser/jsonfilter/parser/jsonfilter_parser.go:1804-1962 | A leaf with one token behind its operator is accepted exactly if that is a number, a string, an identifier or one of the four words, and its spelling is the value |
| FilterRoundTrip.SpelledOut | pkg/parser/jsonfilter/parser/jsonfilter_tree_visitor.go:94-127 | Members, indices, dots and wildcards are spelled in selector and value exactly as they stand in the filter |
| BicepParser.ConvertOriginalResourcesToStruct | pkg/parser/bicep/parser.go:144-186 | Fresh objects, not linked yet, for exactly the resources up to the first without a name, a type or a readable parent, each with the texts under `identifier`, `type` and `parent` and with its data |
| BicepParser.LinkToParent | pkg/parser/bicep/parser.go:132-140 | Appends one resource to the children of the last resource with its parent's name, if there is one, and changes no other list |
| BicepParser.AddChildrenToParents | pkg/parser/bicep/parser.go:124-141 | Every resource ends up with exactly its children, in source order |
| BicepParser.ReformatTestTree | pkg/parser/bicep/parser.go:99-121 | Terminates on linked objects with cyclic, dangling and duplicate parent names and gives the nested form |
| BicepParser.FilterParentStructs | pkg/parser/bicep/parser.go:70-81 | The nested forms of the roots in order |
| BicepParser.MakeResourcesNestedStructure | pkg/parser/bicep/parser.go:188-196 | From the raw resources to the nested structure, which holds the parts of exactly the visible resources, each once, and without `resources` keys the data of every rooted resource; and it shows the resources as given, each with its name, type and data where its parent text puts it |
| BicepOutput.NestedShows | pkg/parser/bicep/parser.go:70-190 | Read against the resources as given: the output holds exactly the accepted resources without a parent, and under each, at every depth, exactly those whose parent text names it as the last resource of that identifier, in order, with their own data and types shortened by the type above |
| BicepOutput.ShortenedBelow | pkg/parser/bicep/parser.go:84-98 | Under a type, a type that goes on from it behind a slash comes out as what it adds |
| Strings.ReplacedFirst | pkg/parser/bicep/parser.go:95-95 | Replacing once replaces exactly the first occurrence |
| BicepNesting.DepthBound | pkg/parser/bicep/parser.go:99-141 | A parent chain that ends at a root never meets a resource twice, so it is shorter than the list |
| BicepNesting.EachRootedOnce | pkg/parser/bicep/parser.go:70-141 | The nested output lists exactly the resources whose parent chain ends at a root, each once |
| BicepNesting.NestingConserves | pkg/parser/bicep/parser.go:70-196 | For any resources, reading the nested output back gives the parts of the visible ones, in order, each once, with types shortened by the parent's; visible are exactly the resources whose parent chain ends at a root without a strict ancestor that has its own `resources` key |
| BicepNesting.PartsAreData | pkg/parser/bicep/parser.go:99-121 | The parts of resources are their data and nothing else exactly if none of them has a `resources` key |
| BicepNesting.PlainNestingConserves | pkg/parser/bicep/parser.go:70-196 | Without `resources` keys the output holds the data of every rooted resource exactly once and nothing else |
| BicepNesting.OwnResourcesHide | pkg/parser/bicep/parser.go:99-121 | The children of a resource leave no trace in its formatted form exactly if it has a `resources` key or no children |
| TerraformBlocks.InsertFails | pkg/parser/terraform/converter/default.go:184-222 | Storing a block fails exactly if a proper prefix of its path leads to something that is no document |
| TerraformBlocks.InsertAllGroups | pkg/parser/terraform/converter/default.go:184-222 | Storing blocks one by one into nested maps and lists gives the simple grouping by path, beside what was there |
| TerraformBlocks.LookupGroup | pkg/parser/terraform/converter/default.go:184-222 | A path in the grouping leads to exactly the documents of the blocks with that path, and unrelated paths lead nowhere |
| TerraformClashes.GroupedIffNoClash | pkg/parser/terraform/converter/default.go:184-222 | All blocks are found at their own paths, alone or listed in order, if and only if no block's path is a proper prefix of another's |
| TerraformConverter.ConvertBody | pkg/parser/terraform/converter/default.go:64-138 | The loops over attributes and blocks give the conversion, its errors, the dropped bodies with count 0 and the line map |
| TerraformConverter.ConvertAttributes | pkg/parser/terraform/converter/default.go:94-115 | In any order of the attributes: the values and lines of all of them, or an error if one fails |
| TerraformConverter.ConvertBlock | pkg/parser/terraform/converter/default.go:184-222 | Converts the body of a block and stores it at the block's type and labels |
| TerraformConverter.RefinesGrouping | pkg/parser/terraform/converter/default.go:64-222 | A regular body converts without error into its attributes and the grouping of its live blocks, at every nesting depth |
| TerraformConverter.GroupedIffNoOverlap | pkg/parser/terraform/converter/default.go:64-222 | The blocks of a body are found at their own paths if and only if no paths of live blocks overlap |
| TerraformConverter.ConvertedLookup | pkg/parser/terraform/converter/default.go:64-222 | If all blocks of a type have equally many labels, the converted body holds at type and labels exactly the converted bodies of those blocks: nothing, the one, or a list in source order |
| TerraformConverter.LineOfName | pkg/parser/terraform/converter/default.go:94-138 | A name gets the line of its last block, dropped blocks included, or else that of its attribute |
| FileResolver.Resolver.Resolve | pkg/resolver/file/file.go:62-95 | Terminates on any files, mutually including ones too; a document that is left alone or has nothing to resolve comes back as itself; where the files are as expected, an orderly one comes back as what is displayed for it, or as it was if it holds a cycle, and loads only files it leads to; a panic ends this document only; cached paths only grow, a cached object changes in its metadata only, and no more than the allowed number of files is being loaded at once |
| FileResolver.Resolver.Walk | pkg/resolver/file/file.go:97-128 | Resolving a place changes only that place, the roots of shared documents and new documents; at the depth bound nothing is loaded; where nothing is to be resolved nothing changes; an orderly value ends up showing what it is to show, with references to the very objects of the cached files |
| FileResolver.Resolver.WalkItems | pkg/resolver/file/file.go:114-120 | A list stays in place with its length, each element written back while the others stay, and of an orderly one every element shows what it is to show |
| FileResolver.Resolver.HandleMap | pkg/resolver/file/file.go:130-159 | In any order of the keys: an object without references stays in place with its keys, its fields written back one by one; any other gives way to an object, shared or not, with one of its references written into it as metadata, or to a section that is no object; an orderly one shows what it is to show |
| FileResolver.Resolver.ResolvePath | pkg/resolver/file/file.go:401-454 | A string stays, gives way to a section of the document as it is now, or to the cached object of a file itself or a section of it; a cached file is not loaded again, and what is recorded about resolved files is exact |
| FileResolver.Resolver.ResolvePathReturnValue | pkg/resolver/file/file.go:456-487 | Takes from memory what lies under the keys that the reference spells, all of them in order, as it is, copying an object and sharing anything else; answers with the reference if nothing lies there or it refers to itself; records a document that refers to itself |
| FileResolver.Resolver.ResolveFile | pkg/resolver/file/file.go:343-390 | A loaded file is cached with its raw content; where files are as expected its object is what the file comes to without a cache, references to further files included, whatever was loaded and tagged before; only files it leads to are loaded with it, and those it uses are; a missing one changes nothing |
| FileResolver.ResolveDocument | pkg/resolver/file/file.go:62-95 | From an empty cache, in any order of the keys, through files that include files: if sharing can be foreseen, a document with an object without references under a reference comes back as it was, and any other is written as displayed with one metadata per file, which is the document resolved without sharing if and only if all its uses of a file agree |
| SharedMemory.ReadMore | pkg/resolver/file/file.go:88-94 | A value in memory unfolds to at most one tree, however deep it is allowed to be, so what is written for it is well defined |
| SharedMemory.LoopUnread | pkg/resolver/file/file.go:88-94 | A value from which some value is reached that holds itself, at any depth, never unfolds to a tree, so it cannot be written |
| References.ShownIffAgree | pkg/resolver/file/file.go:137-151 | If each file shows metadata of one of its uses, whichever was last, in this document or in other files that agree with it, then every use shows its own metadata if and only if all uses of a file agree |
| References.DisplayIff | pkg/resolver/file/file.go:137-151 | Two ways to choose metadata display the same document if and only if they show the same at every use of a file |
| References.StillDisplays | pkg/resolver/file/file.go:97-159 | A value without reference keys and without strings that lead to a file is orderly and displayed as it is |
| References.NothingAtTheBound | pkg/resolver/file/file.go:408-410 | At the depth bound a value uses no file |
| ReferencePaths.OwnReferenceLeads | pkg/resolver/file/file.go:524-539 | A reference of keys behind slashes or backslashes leads to the value under the first key, then the next, through all of them, in the document, if that is there and does not refer to itself, and nowhere otherwise |
| ReferencePaths.FileReferenceLeads | pkg/resolver/file/file.go:418-439 | The same for the keys behind the path of a file, in the object of that file |
| ReferencePaths.SpelledTaken | pkg/resolver/file/file.go:456-487 | In any state of memory, a reference of such keys is answered with a copy of the object under them, with what else lies there, or with itself |
| ReferencePaths.BeforeLastHash | pkg/resolver/file/file.go:392-398 | A file is recorded under the text before the last hash sign |
| References.FileShown | pkg/resolver/file/file.go:343-390 | Whatever metadata the objects of files hold when a file has been resolved, it comes to the object it has if each of its uses shows its own metadata, given that these agree with all expected ones |
| Inclusions.PlanIsSound | pkg/resolver/file/file.go:343-390 | If sharing can be foreseen, then at every depth at which a file is loaded for the document, through other files or not, it is orderly with the files it uses, comes to its object without a cache, and does not lead to itself |
| Inclusions.UnsharedIffAgree | pkg/resolver/file/file.go:62-159 | With the files as foreseen, showing one of the latest metadata per file shows the document as resolved without sharing, at all levels of inclusion, if and only if the uses of the document agree |
| InclusionDepth.SameObject | pkg/resolver/file/file.go:408-410 | A file from which no chain of files meets the bound, at either of two depths, comes to the same object at both |
| InclusionDepth.NoLoop | pkg/resolver/file/file.go:401-439 | A file from which no chain meets the bound is not loaded again while it is loaded |
| InclusionDepth.UncutIsFree | pkg/resolver/file/file.go:401-439 | If no chain of files from the document meets the bound, no file leads to itself and every file comes to the same wherever it is loaded |
| InclusionDepth.AgreeingIsForeseen | pkg/resolver/file/file.go:62-159 | If moreover all uses of a file agree, in the document and in all files it includes, sharing can be foreseen and makes no difference |
| InclusionDepth.StillFilesForeseen | pkg/resolver/file/file.go:62-159 | Sharing can be foreseen for every orderly document whose files hold nothing to resolve |
| ResolverReading.ReadShows | pkg/resolver/file/file.go:86-92 | A resolved orderly value, with lists and references under references too, unfolds to what is displayed, with the metadata that the objects of files hold now |
| ResolverReading.CycleUnread | pkg/resolver/file/file.go:137-151 | A resolved value that holds an object without references under a reference, at any depth, in lists or below further references, unfolds to no tree |
| ResolverReading.UnfoldsIffNotCyclic | pkg/resolver/file/file.go:86-94 | A resolved orderly value unfolds to a tree, then to the one displayed, if and only if no object without references stands under a reference |
| ResolverReading.UsedIsCached | pkg/resolver/file/file.go:418-439 | The files whose objects a resolved value uses are in the cache |
| ResolverReferences.ReferencePut | pkg/resolver/file/file.go:137-157 | An object with a reference gives way to the file's own object, to a copy of a section, to what a reference under it gave way to, to the object under it itself, or to a new object, with the reference and whether it was alone written into it; every other file's object stays |
| ResolverAnswers.FindAnchored | pkg/resolver/file/file.go:524-539 | A section that is reached through objects without references and holds nothing to resolve is found as in the original document, however much of the document is resolved |
| ResolverAnswers.FindInFile | pkg/resolver/file/file.go:524-539 | In a cached object a section is found as in the file, whatever metadata was written into the object |
| ResolverAnswers.CircularUntouched | pkg/resolver/file/file.go:541-566 | On what is still as decoded, the check in memory is the check on the tree |
| ResolverStates.MetaAdded | pkg/resolver/file/file.go:143-151 | Writing metadata keeps every cached object as decoded apart from its metadata, and reaches nothing but the place itself, shared roots and new documents |
| ResolverFaults.SharedMetadata | pkg/resolver/file/file.go:143-151 | A document in which two objects refer to the same file, one with a field beside the reference: sharing can be foreseen and its uses do not agree, so it does not come to what it is without sharing |
| ResolverFaults.ObjectIsCyclic | pkg/resolver/file/file.go:137-151 | For the document `{"x": {"$ref": {"a": 1}}}` sharing can be foreseen, and it holds a cycle when resolved |
| ResolverFaults.ReferenceIsNotCyclic | pkg/resolver/file/file.go:130-159 | The document `{"$ref": {"$ref": s}}` holds no cycle, and shows the inner reference untouched as metadata of an object that is empty otherwise |
| ResolverFaults.SectionSameIff | pkg/resolver/file/file.go:456-487 | What a section is answered with unfolds to the same trees before and after the section was resolved if and only if the section and what it displays then are answered with the same |
| ResolverFaults.CircularUnfolded | pkg/resolver/file/file.go:541-566 | On any value in memory that unfolds to a tree, changed or not, the check for circular references is the check on that tree |
| ResolverFaults.SectionDependsOnOrder | pkg/resolver/file/file.go:456-487 | In a chain of two references within a document, what the first one is answered with depends on which is visited first |
| ResolverFaults.SecondFileDiffers | pkg/resolver/file/file.go:408-439 | Of two files that a document includes, the first includes the second and that a third, one too many for the bound: the second comes to different objects at the two depths at which it is loaded, and a chain meets the bound |
| FileResolver.TruncatedServed | pkg/resolver/file/file.go:418-439 | Resolving the names of these files one after the other: the second one is served as it was loaded at the bound with the first, without the third file, which it includes if nothing is shared |
| References.CheckIsExact | pkg/resolver/file/file.go:541-566 | The check for circular references raises no false alarm and is exact for sections within its depth |
| References.CheckRightIff | pkg/resolver/file/file.go:541-566 | For every section and depth: the check is right about all values if and only if each reference found at that depth or deeper is also found above |
| References.CheckMisses | pkg/resolver/file/file.go:541-566 | For every depth there is a section one level deeper whose self-reference the check misses |
| YamlDocument.GetLinesOf | pkg/model/model_yaml.go:121-159 | The line map of a node: every key's own line, and the lines of the elements of array values |
| YamlDocument.GetElementLines | pkg/model/model_yaml.go:136-149 | One line map per array element, starting from the element's own line, that of its first key, or that of the array's key |
| YamlDocument.GetSeqLines | pkg/model/model_yaml.go:163-178 | The lines of a sequence at the top |
| YamlDocument.Unmarshal | pkg/model/model_yaml.go:68-117 | The annotated conversion of a node, kind by kind |
| YamlDocument.UnmarshalEntry | pkg/model/model_yaml.go:85-114 | One key of a mapping, with aliases merged into the object around them |
| YamlDocument.UnmarshalYAML | pkg/model/model_yaml.go:20-32 | The document with the lines of its top-level keys, or an error for a scalar |
| SearchLine.SearchLineDetector.PreparePath | pkg/detector/search_line_detector.go:46-97 | Splits a search path into object path, array path and target and returns the line they lead to; an empty path gives line 1 |
| SearchLine.SearchLineDetector.GetResult | pkg/detector/search_line_detector.go:100-117 | The first positive line among the four candidate paths, or -1 |
| SearchLine.FindArrayObject | pkg/detector/search_line_detector.go:58-70 | The key of the last array that the path indexes into |
| LineLookup.FollowPath | pkg/detector/search_line_detector.go:46-117 | Following keys through the annotated document arrives at the annotated form of the mapping they lead to in the source |
| LineLookup.FindsKeyLine | pkg/detector/search_line_detector.go:46-117 | Searching for a key below mappings finds the line of that key's own node |
| LineLookup.FindsElementKeyLine | pkg/detector/search_line_detector.go:46-117 | Searching for a key of an array element finds that key's own line, although the element carries no line information |
| LineLookup.FindsElementLine | pkg/detector/search_line_detector.go:46-117 | Searching for an array element finds its own line if it is a scalar, that of its first key if it is a mapping, and that of the key of the array otherwise |
| YamlScalars.IntegersRead | pkg/model/model_yaml.go:180-200 | A decimal integer tagged as such is read as that number, and stays a text beyond 64 bits |
| YamlScalars.NumbersHaveDigits | pkg/model/model_yaml.go:187-192 | No text but decimal digits behind an optional sign is read as a number |
| YamlScalars.OtherScalarsRead | pkg/model/model_yaml.go:180-209 | Truth values, nulls and texts are told apart by their tags alone |
| YamlScalars.FoundNumber | pkg/detector/search_line_detector.go:110-115 | A line found as a number or as its decimal digits counts as that number, truth values as one and zero, anything else as no line |
| ScanDocument.PrepareScanDocumentRoot | pkg/kics/service.go:214-223 | Strips any value, elements of lists included |
| ScanDocument.PrepareScanDocumentValue | pkg/kics/service.go:225-241 | In any order of the keys: line information goes at every depth, filter patterns are rewritten, the rest stays |
| ScanDocument.StripCleans | pkg/kics/service.go:214-241 | No line information is left at any depth |
| ScanDocument.StripFixes | pkg/kics/service.go:214-241 | Without filter patterns, stripping changes nothing exactly if there is no line information |
| ScanDocument.StripDocument | pkg/model/model_yaml.go:20-117 | Annotating and stripping gives what stripping the plain conversion gives, for every document |
| ScanDocument.AnnotateThenStrip | pkg/kics/service.go:199-241 | For sources without filter patterns it gives the plain conversion, exactly if the plain conversion holds no line key |
| ScanDocument.PlainHasNoLines | pkg/model/model_yaml.go:68-117 | The plain conversion of a source that does not use the line key has none at any depth |
| Remediation.Replacement | pkg/remediation/remediation.go:106-127 | Writes the replaced line into the buffer it was given, accepted or not, and returns that very buffer or nothing |
| Remediation.ReplacementsStay | pkg/remediation/remediation.go:70-79 | A rejected replacement is not undone: the buffer does not depend on the verdicts |
| Remediation.Addition | pkg/remediation/remediation.go:129-159 | Builds the buffer with the addition from copies and leaves the given buffer alone |
| Remediation.SortDown | pkg/remediation/remediation.go:83-86 | The additions from the bottom to the top, none lost |
| Remediation.Summary.WriteRemediation | pkg/remediation/remediation.go:161-173 | A written remediation becomes the buffer and is counted; otherwise the old buffer stays |
| Remediation.Summary.ReplaceAll | pkg/remediation/remediation.go:70-79 | The loop over the replacements, in place, counting the accepted ones |
| Remediation.Summary.AddAll | pkg/remediation/remediation.go:88-95 | The loop over the additions; the buffer it starts from is not changed |
| Remediation.Summary.RemediateFile | pkg/remediation/remediation.go:59-98 | Replacements, then additions from the bottom up, for arbitrary verdicts; the counter counts the accepted ones |
| Remediation.AdditionsAreWoven | pkg/remediation/remediation.go:81-95 | The additions loop weaves exactly the accepted additions into the lines it starts from |
| Remediation.AdditionsInPlace | pkg/remediation/remediation.go:81-95 | Afterwards all earlier lines are there in order, and between line L and line L+1 are exactly the accepted additions for line L |
| Remediation.PlacedAreAdditions | pkg/remediation/remediation.go:129-159 | What is put in are the texts of additions, each behind blanks and dashes, at its own line and in order |
| Remediation.BeforeIs | pkg/remediation/remediation.go:150-150 | The indentation taken from a line is all of its blanks and dashes up to the first other character |
| Remediation.FirstLineIs | pkg/remediation/remediation.go:137-137 | The first line of a remediation is all of it up to the first newline |
| Strings.TrimmedIs | pkg/remediation/remediation.go:139-142 | Trimming takes away spaces at both ends and no other character, until none is left there |
| AnalyzerFanIn.ComputeValues | pkg/analyzer/analyzer.go:571-591 | The collector's loop takes what it is served, in that order, up to the first value of the done channel, and returns exactly that |
| AnalyzerFanIn.StepKeepsInv | pkg/analyzer/analyzer.go:322-403 | Every step keeps: the collected types are exactly those sent, the total is exactly the lines sent, an unwanted path is collected or buffered exactly if it was sent |
| AnalyzerFanIn.SafeInEveryRun | pkg/analyzer/analyzer.go:322-350 | No value is read from or sent on a closed channel, and an unwanted path always finds a free place |
| AnalyzerFanIn.NotStuck | pkg/analyzer/analyzer.go:322-350 | Until all channels are closed somebody can move |
| AnalyzerFanIn.RunsAreShort | pkg/analyzer/analyzer.go:322-350 | Every run uses up a measure fixed at its start |
| AnalyzerFanIn.ReturnedIsComplete | pkg/analyzer/analyzer.go:571-591 | A collector that returned has all types, all lines, and all unwanted paths exactly if none is left in the buffer only |
| AnalyzerFanIn.AnalysesComplete | pkg/analyzer/analyzer.go:322-403 | In every interleaving the analysis stops with everything closed and that result |
| AnalyzerFanIn.UnwantedCanBeLost | pkg/analyzer/analyzer.go:322-348 | For any files there is an interleaving that runs to its end and in which no unwanted path is ever collected |
| AnalyzerFanIn.ReportedIffNone | pkg/analyzer/analyzer.go:322-403 | For any files: every interleaving that runs to its end reports all unwanted paths if and only if no file has one |
| ScanSummary.KeyIsUnmistakable | internal/storage/memory.go:51-61 | For every result: no different result has its key if and only if none of its fields holds a colon |
| ScanSummary.Mistaken | internal/storage/memory.go:51-61 | For every result with a colon in some field, a different result with the same key |
| ScanSummary.MemoryStorage.SaveVulnerabilities | internal/storage/memory.go:39-44 | Appends the results |
| ScanSummary.MemoryStorage.GetVulnerabilities | internal/storage/memory.go:47-73 | In any order of the map: one result per key ever saved, and the last one saved with it |
| ScanSummary.UniqueCount | internal/storage/memory.go:51-73 | As many results as different keys were ever saved |
| ScanSummary.GroupByQuery | pkg/model/summary.go:203-252 | Each query holds exactly its findings in input order, with name and severity of the first one |
| ScanSummary.PathsLeadBack | pkg/model/summary.go:249-249 | The path map has exactly the resolved paths of the findings, and each leads back to a file that resolves to it |
| ScanSummary.CountQueries | pkg/model/summary.go:254-265 | Every query is listed once unless it is bill of materials, and the counters are the numbers of findings |
| ScanSummary.ListMaterials | pkg/model/summary.go:282-288 | The bill of materials and its number of findings |
| ScanSummary.OrderOfQueries | pkg/model/summary.go:267-280 | The order by severity and name is a total preorder, so sorting by it is well defined |
| ScanSummary.OrderedBySeverity | pkg/model/summary.go:267-280 | In that order critical queries come before high, medium, low, info and trace ones, unknown severities count as critical, and names decide among equals |
| ScanSummary.BeforeIs | pkg/model/summary.go:277-277 | A name comes first exactly if it is a proper start of the other or has the smaller character where they first differ |
| ScanSummary.CreateSummary | pkg/model/summary.go:194-301 | Findings partitioned by query with their order kept, queries sorted by severity and name, counters exact |
| ScanSummary.SummaryConserves | pkg/model/summary.go:254-290 | Total plus bill of materials, and also the sum of the severity counters, is the number of findings |
| ScanSummary.Report | pkg/model/summary.go:194-301 | From storage to summary: those sums are the number of different keys ever saved |
| Sorting.SortBy | pkg/model/summary.go:275-280 | An ordered permutation, for any order that is total and transitive |
| TerraformInsertion.FindContainingStructure | pkg/detector/terraform/terraform_detect.go:205-229 | The search returns one of the structures it can return in some order of the attributes |
| TerraformInsertion.FindsInnermost | pkg/detector/terraform/terraform_detect.go:205-229 | In a well-nested block the structure found is the innermost one that holds the line, and none is found exactly if none holds it |
| TerraformInsertion.FindsTheSame | pkg/detector/terraform/terraform_detect.go:205-229 | It is the same one whatever the order of the attributes |
| TerraformInsertion.SkipAttributes | pkg/detector/terraform/terraform_detect.go:180-190 | Going up from the end of a block over its attributes stops at the last line that is in none |
| TerraformInsertion.CalculateInsertionPoint | pkg/detector/terraform/terraform_detect.go:152-203 | For every position of the finding: behind a wrapping call, next to the first or last line of the structure found, at the last free line of the block, or at the line itself |
| TerraformInsertion.LocateTerraformBlock | pkg/detector/terraform/terraform_detect.go:98-142 | The first block that holds the line, an error for a line outside the file or outside all blocks, and an insertion line inside the block exactly if it has more than one line |
| TerraformInsertion.InsertionInside | pkg/detector/terraform/terraform_detect.go:152-203 | In a well-nested block the insertion line lies between first and last line exactly if there is more than one line |
| TagParser.AttributeScanner.ParseEscape | pkg/builder/parser/tag/tag_parser.go:225-250 | Exactly the supported escapes, each consuming one character |
| TagParser.AttributeScanner.ParseString | pkg/builder/parser/tag/tag_parser.go:204-223 | Reads up to the closing quote and leaves the rest |
| TagParser.AttributeScanner.ParseArray | pkg/builder/parser/tag/tag_parser.go:111-128 | Reads elements up to the closing bracket and leaves the rest |
| TagParser.AttributeScanner.ParseValue | pkg/builder/parser/tag/tag_parser.go:130-174 | Strings, arrays, comparison signs and scanned tokens, with their errors |
| TagParser.WrittenReturns | pkg/builder/parser/tag/tag_parser.go:111-174 | A written nested array of strings is read back and the remaining input is untouched |
| TagParser.ReturnsIffNoEmptyArray | pkg/builder/parser/tag/tag_parser.go:111-174 | That happens if and only if no array in it is empty |
| TagParser.StringsReadExactly | pkg/builder/parser/tag/tag_parser.go:204-250 | A string is read from exactly the inputs that spell it, plainly or with escapes, and close the quote |
| TagParser.EscapesExactly | pkg/builder/parser/tag/tag_parser.go:225-250 | Exactly the letters that stand for a character are supported behind a backslash, and stand for that one |
| LineSelection.SelectLineWithMinimumDistance | pkg/detector/helper.go:286-296 | In any order of the map: the least line among those at minimum distance |
| LineSelection.DefaultDetectLineResponse.DetectCurrentLine | pkg/detector/helper.go:345-367 | Moves to the nearest matching line from the current one on, or breaks exactly if none matches and then changes nothing else |
| LineSelection.DetectLine | pkg/detector/default_detect.go:52-84 | The parts lead from nearest line to nearest line until one has none; the result is the last line reached with its preview, or nothing if not even the first part matched |
| LineSelection.TraceNeverDecreases | pkg/detector/default_detect.go:52-62 | The current line never goes back |
| LineSelection.TraceIsUnique | pkg/detector/helper.go:286-296 | The lines do not depend on the order in which any map is read |
| LineSelection.CreateVulnLines | pkg/detector/helper.go:273-283 | The given lines under their true numbers |
| LineSelection.WindowFits | pkg/detector/helper.go:235-269 | The window lies in the file, holds the line and is no longer than asked for |
| LineSelection.GetAdjacentVulnLines | pkg/detector/helper.go:235-269 | The window's branches give the preview |
| LineSelection.PreviewIs | pkg/detector/helper.go:235-283 | The preview is a contiguous run under true line numbers with the line in it, of at most the length asked for, and of exactly that length (or all lines) at both ends and away from them |

## Left out

- File system, HTTP, Kubernetes, console, logging, metrics and the report writers: I/O and plumbing. Files, verdicts of a rescan and outcomes of queries are arbitrary parameters.
- Rego evaluation, HCL and cty evaluation, the JSON and YAML libraries, regular expressions and edit distances: foreign code, passed in as functions or as already decoded values.
- gjson: paths are looked up key by key; its special characters (wildcards, modifiers, pipes) in keys are not modelled.
- The ANTLR runtime and its error recovery: a syntax error is no result. Tokens are given, so the lexer is not modelled either.
- The YAML variant of the reference resolver (yamlResolve, yamlWalk, resolveYamlPath, findSectionYaml, checkIfCircularYaml): the same recursion over another tree type with the same bound and cache.
- FileResolver.ResolveDocument: the exact result is for documents for which sharing can be foreseen. They and the files they include are orderly: an object has at most one reference key and nothing to resolve beside it; an object under a reference key does not lead on to the whole object of a file; sections of a document itself are reached through objects without references and hold nothing to resolve. A file comes to the same at every depth, does not lead to itself, and its uses of files agree with all others. That the uses inside of files agree is sufficient only: where they do not, the result depends on which file is loaded first. For any other document only the general part of the contracts holds.
- ResolverFaults.SectionSameIff: compares the answers before and after the section was resolved as a whole, not while it is being resolved.
- FileResolver.Resolver.HandleMap: outside orderly documents the contract gives frame, shape and metadata, not the values of all fields.
- Memory of the resolver: a decoded container is known by its document and its place there; the JSON library is a parameter that writes what a value unfolds to and fails on a cycle.
- FileResolver.Resolver.ResolvePath: the file system does not change during a run, and the lines of a resolved file are not split.
- JsonAnnotator.AnnotateLines: lines of elements are promised where nested arrays are printed like no text at their path; what is printed for a number is given.
- JsonAnnotator.JsonLine.SetLine: promises lines only for regular documents (in an array no container after a scalar, no container elements in a container without a name, distinct dot-free keys, no other text equal to a key at the same path); outside this class the shared queues mix up lines.
- JsonAnnotator.JsonLine.SetSeqLines: the default lines of array objects are related to their own keys only where all objects have the same keys; elsewhere the default comes from the keys of the last object and can belong to another element.
- The text of a number as a token and as an array element, which can differ, is a parameter of the document.
- InspectionPool.ReturnsAllFindings: failed queries are recorded by index, where the code uses the query's text, so equal texts share an entry there.
- ScanRun.ScansComplete: runs without a service error; on an error the code returns while goroutines may still be running.
- Choosing queries by include and exclude filters, and the secrets inspector, which the scan does not use.
- Bicep parsing itself: the resources are the maps that the visitor made.
- TerraformConverter.ConvertAttributes: converted expressions, the lines inside array expressions and the value of `count` are given.
- YamlDocument.Unmarshal: documents are finite trees; an alias carries its target.
- LineLookup.FindsKeyLine: paths of at least two keys that lead through mappings without aliases; for one key or keys with dots the candidate paths differ.
- ScanDocument.PrepareScanDocumentValue: rebuilds the map where the code deletes and overwrites entries in place, and how a filter pattern is rewritten is a parameter (its own model is `FilterRoundTrip`).
- Remediation.Summary.RemediateFile: replacements are for lines in the file and additions for lines that are not negative; the code panics otherwise. Whether a remediation removes its result and can be written is an arbitrary verdict per step.
- Remediation.SortDown: sorts a copy where the code sorts in place; the order of additions for the same line is left open, as it is in the code.
- AnalyzerFanIn.ComputeValues: the select statement appears as the order in which values are served, with nothing served after the done value mattering; finding out the type of a file is a given outcome per file.
- ScanSummary.CreateSummary: fields that are only copied are one opaque field, and resolving paths is a function.
- TerraformInsertion.CalculateInsertionPoint: the column is not modelled, and whether a line looks like a call around an object is a parameter.
- TerraformInsertion.LocateTerraformBlock: returns the block and the insertion line; the locations and the source text of the block are copied fields, and a file that cannot be parsed is an error before the search.
- TagParser.ReturnsIffNoEmptyArray: assumes that the token scanner takes a closing bracket for no value. Whole tags and argument lists (parseTag, parseArgs) are not modelled.
- LineSelection.DetectLine: how a part is split into two substrings and how far a line is from them are parameters; getting bracket values out of a key is not modelled because its search does not stop on every string.
- LineSelection.GetAdjacentVulnLines: the line is in the file and at least one line is asked for.
- Helm line removal edits the slice it ranges over and is not modelled.
