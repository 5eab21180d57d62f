# swagger-extractor, modelled in Dafny

swagger-extractor is a web page for Swagger 2 / OpenAPI 3 documents. It
extracts a slice of a document for one tag or for one endpoint. The slice
keeps the document's metadata, the matching operations and every schema
they reference, directly or through other schemas. The page also groups a
document's endpoints by tag for display and names the files it downloads.
This project models that core: `lib/swagger-utils.ts` (tag slices) and the
pure logic of `components/swagger-viewer.tsx` (endpoint slices, tag lists,
tag grouping and sorting, tag descriptions, parameter types, file names).

## How the model is organised

- `json.dfy` (`JsonValues`): a parsed document as a `Json` value.
  - Objects are ordered lists of bindings. Reading `o[k]` takes the first binding of `k`.
  - JavaScript truthiness follows the language for every value the model can hold: `{}` and `[]` are truthy; `""`, `0`, `false`, `null` and an absent key are not. Numbers are integers only (see "Left out").
  - `InfoCopy` is the object spread `{ ...info }`: an object's bindings, or an array's elements and a string's characters under their index keys `"0"`, `"1"`, ….
  - `LastSegment` is the last element of `s.split("/")`.
- `pools.dfy` (`SchemaPools`): the schema pools (`definitions`, `components.schemas`) and the order-keeping `usedSchemas` set.
  - The specification of a filled pool, `LeastClosure`: the smallest sub-pool that holds every seed name the source pool defines and is closed under a "names this schema links to" function.
  - The loop invariants of the two walks: `Walking` for the library's walk and `Marking` for the viewer's.
- `slices.dfy` (`Slices`): the output document and the header both extractors copy.
- `swagger_utils.dfy` (`SwaggerUtils`): `extractSchemaRefs`, `collectSchemasFromOperation` and `collectNestedSchemas`.
  - These are imperative methods over `usedSchemas` and the target pool.
  - Each is proved against a function: `SchemaRefs`, `OperationRefs` or `NestedLinks`.
- `tag_slicer.dfy` (`TagSlicer`): `extractApiDocForTag`.
- `endpoint_slicer.dfy` (`EndpointSlicer`): the viewer's `extractApiEndpoint`, with its own `collectSchemasFromOperation` and `collectNestedSchemas`.
- `viewer_helpers.dfy` (`ViewerHelpers`): `getTagDescription`, `getParameterType` and the download file names.
- `tag_groups.dfy` (`TagGroups`): the tag list of `SwaggerViewer`, and the grouping and sorted sections of `CustomSwaggerUI`.

The two nested walks differ, and the model keeps the difference:

- **The library's `collectNestedSchemas`** follows a schema's `properties[*].$ref`, `properties[*].items.$ref` and the `$ref` of each `allOf`/`anyOf`/`oneOf` member. It does not follow the schema's own `items`.
- **The viewer's copy** follows `properties[*].$ref` and the schema's own `items.$ref`. It does not follow compositions or a property's `items`.

An array definition such as `PetList = {type: "array", items: {$ref: "#/definitions/Pet"}}` shows the gap. A tag slice seeded with `PetList` keeps `PetList` and leaves out `Pet`, so the `$ref` to `Pet` dangles in the output (`SwaggerUtils.OwnItemsNotFollowed`). An endpoint slice seeded with `PetList` keeps both (`EndpointSlicer.OwnItemsFollowed`).

## Where the code departs from the documented behaviour

In each case below, the model follows the code.

- **`$ref` siblings:** the library's `extractSchemaRefs` does not treat `$ref` as terminal. It also walks `items`, `properties` and compositions next to a `$ref`.
- **Other schema forms:** no walker follows `additionalProperties`.
- **Untagged operations:** an operation without `tags` never matches a tag slice, not even the tag "default" (`TagSlicer.UntaggedDropped`). The page does list it under "default" (`TagGroups.UntaggedUnderDefault`).
- **Dialect isolation:** every output carries `definitions: {}`. It also carries `components: {schemas: {}}` whenever the source's `components` is truthy, even when `definitions` were filled (`Slices.Header`). Because the saved slice always has a truthy `definitions`, slicing a saved OpenAPI 3 slice again takes the `definitions` branch and copies no schema (`TagSlicer.ReSliceDropsSchemas`).
- **Closure depth:** the closure is taken under the nested walks, not under every deep reference. An array definition's own `items.$ref` is not followed by the library (`SwaggerUtils.OwnItemsNotFollowed`).
- **Endpoint responses:** the viewer's endpoint slice ignores `responses[*].content`, so no OpenAPI 3 response schema is copied (`EndpointSlicer.CollectEndpointRefs`).

## Model

| member | source | states |
|---|---|---|
| JsonValues.Get | lib/swagger-utils.ts:71 | a value read for a key is the value of the key's first binding |
| JsonValues.GetBinding | lib/swagger-utils.ts:71 | when no earlier binding has the key, the read yields the value of binding `m` |
| JsonValues.Values | lib/swagger-utils.ts:166 | `Object.values` gives an object's values in binding order, an array's elements, and nothing for other values |
| JsonValues.LastSegmentSuffix | lib/swagger-utils.ts:154-155 | the name taken from a `$ref` is its suffix after the last '/' (the whole string when there is none) |
| JsonValues.LastSegmentOfPointer | lib/swagger-utils.ts:154-155 | the name taken from `prefix/Name` is `Name` when `Name` holds no '/' |
| JsonValues.RefNameOfRefTo | lib/swagger-utils.ts:153-156 | the schema `{$ref: "#/definitions/Name"}` names `Name` |
| JsonValues.Decimal | lib/swagger-utils.ts:26 | the key of an index is a non-empty string of decimal digits with no leading zero |
| JsonValues.NumeralOfDecimal | lib/swagger-utils.ts:26 | reading the key of an index as a number gives the index back |
| JsonValues.DecimalInjective | lib/swagger-utils.ts:26 | different indices have different keys |
| SchemaPools.Add | lib/swagger-utils.ts:156 | `Set.add` adds exactly the one element, appends it only when new, and keeps the elements distinct |
| SchemaPools.CopyGrows | lib/swagger-utils.ts:194-195 | recording a name and copying its source schema keeps the target a sub-pool of the source and `usedSchemas` a superset of the target's names |
| SchemaPools.WalkingStart | lib/swagger-utils.ts:40 | an empty target with `usedSchemas` equal to the seeds satisfies the library walk's loop invariant |
| SchemaPools.WalkingSkip | lib/swagger-utils.ts:71 | a visited name the source pool lacks leaves the invariant intact |
| SchemaPools.WalkingStep | lib/swagger-utils.ts:70-82 | copying and walking a visited name keeps the invariant: the target stays closed and below every closed pool holding the seeds |
| SchemaPools.WalkingDone | lib/swagger-utils.ts:70-82 | when every name in `usedSchemas` has been visited, the target is the least closure of the seeds |
| SchemaPools.WalkingBound | lib/swagger-utils.ts:70-82 | `usedSchemas` never exceeds the seeds plus the source pool's names, so the `forEach` ends |
| SchemaPools.MarkingStart | components/swagger-viewer.tsx:455 | the start state satisfies the viewer walk's loop invariant |
| SchemaPools.MarkingSkip | components/swagger-viewer.tsx:463 | a visited name the source pool lacks leaves the invariant intact |
| SchemaPools.MarkingStep | components/swagger-viewer.tsx:462-474 | copying and walking a visited name keeps the invariant; every name the walk marks and the pool defines gets copied |
| SchemaPools.MarkingDone | components/swagger-viewer.tsx:462-474 | when every marked name has been visited, the target is the least closure of the seeds under the viewer's walk |
| SchemaPools.MarkingBound | components/swagger-viewer.tsx:462-474 | `usedSchemas` never exceeds the seeds plus every name a pool schema links to, so the `forEach` ends |
| SchemaPools.LeastClosureOfNothing | lib/swagger-utils.ts:68-97 | with no seed names the filled pool is empty |
| SchemaPools.LeastClosureUnique | lib/swagger-utils.ts:68-97 | the filled pool is determined by the source pool, the seeds and the walker alone, whatever the visiting order |
| SchemaPools.LeastClosureMonotone | lib/swagger-utils.ts:68-97 | more seeds and a walker that follows more give a pool that contains the smaller one, with the same schemas |
| SchemaPools.LinksInUniverse | components/swagger-viewer.tsx:529-555 | every name a pool schema links to lies in the pool's link universe |
| Slices.FilterTags | lib/swagger-utils.ts:32 | the filtered tags are exactly the tags whose `name` is the tag name, and no more than the input |
| Slices.FilterTagsAppend | lib/swagger-utils.ts:32 | filtering keeps document order: it distributes over concatenation |
| Slices.Version | lib/swagger-utils.ts:25 | `swagger` when truthy, otherwise `openapi` |
| Slices.Header | lib/swagger-utils.ts:24-36 | the header copies `swagger \|\| openapi`, `info`, `host`, `basePath`, `schemes`, `consumes` and `produces`; it keeps a `tags` array filtered to the tag; it starts with empty `paths` and `definitions`; it has empty `components.schemas` exactly when `components` is truthy |
| Slices.InfoCopy | lib/swagger-utils.ts:26 | the copy of an array or string `info` has one binding per element or character; `undefined` and other primitives give none |
| Slices.IndexKeyedGet | lib/swagger-utils.ts:26 | in the spread of an array or string, key `"i"` reads element `i`, and no other key is defined |
| Slices.InfoCopyReads | lib/swagger-utils.ts:26 | the copy reads like `info`: the same value under every key of an object; element or character `i` under `"i"` of an array or string, and nothing under any other key |
| SwaggerUtils.PropertyValues | lib/swagger-utils.ts:165-166 | the values of `schema.properties` when it is truthy, none otherwise |
| SwaggerUtils.Members | lib/swagger-utils.ts:172-173 | the elements of `schema[key]` when it is an array, none otherwise |
| SwaggerUtils.SchemaRefs | lib/swagger-utils.ts:149-178 | a node's own `$ref` name is always among its deep names |
| SwaggerUtils.SchemaFieldsRefsCover | lib/swagger-utils.ts:120-124 | every name under each node's `schema` is collected |
| SwaggerUtils.SchemaFieldsRefsFrom | lib/swagger-utils.ts:120-124 | every collected name comes from the `schema` of one of the nodes |
| SwaggerUtils.ResponsesRefsCover | lib/swagger-utils.ts:129-142 | every name under each response is collected |
| SwaggerUtils.ResponsesRefsFrom | lib/swagger-utils.ts:129-142 | every collected name comes from one of the responses |
| SwaggerUtils.ParameterCover | lib/swagger-utils.ts:119-125 | every name under each parameter's `schema` is among the parameters' names |
| SwaggerUtils.ResponseSectionCover | lib/swagger-utils.ts:128-143 | with truthy `responses`, every name under each response is among the responses' names |
| SwaggerUtils.OperationRefs | lib/swagger-utils.ts:105-144 | the operation's names include every parameter's schema names, every response's names when `responses` is truthy, and the request body's media-type names when `requestBody` is truthy |
| SwaggerUtils.ExtractSchemaRefs | lib/swagger-utils.ts:149-178 | adds to `usedSchemas` exactly the names of `SchemaRefs(schema)`, found at every depth through `$ref`, `items`, `properties` and compositions; it keeps the set distinct and only appends |
| SwaggerUtils.ExtractPropertyRefs | lib/swagger-utils.ts:165-169 | adds exactly the deep names of every property value |
| SwaggerUtils.ExtractCompositionRefs | lib/swagger-utils.ts:171-177 | adds exactly the deep names of every `allOf`/`anyOf`/`oneOf` member |
| SwaggerUtils.ExtractMemberRefs | lib/swagger-utils.ts:172-176 | adds exactly the deep names of the members under one composition key |
| SwaggerUtils.CollectSchemasFromOperation | lib/swagger-utils.ts:105-144 | adds exactly the deep names of the request body's media types, the parameters' schemas and the responses' `schema` and `content` schemas |
| SwaggerUtils.ExtractBodyRefs | lib/swagger-utils.ts:107-116 | adds exactly the deep names under `requestBody.content` |
| SwaggerUtils.ExtractParameterRefs | lib/swagger-utils.ts:119-125 | adds exactly the deep names of the parameters' schemas |
| SwaggerUtils.ExtractResponseSectionRefs | lib/swagger-utils.ts:128-143 | adds exactly the deep names under `responses` |
| SwaggerUtils.ExtractResponsesRefs | lib/swagger-utils.ts:129-142 | adds exactly the deep names of each response's `schema` and `content` schemas |
| SwaggerUtils.ExtractContentRefs | lib/swagger-utils.ts:135-141 | adds exactly the deep names of the media types' schemas |
| SwaggerUtils.ExtractSchemaFieldRefs | lib/swagger-utils.ts:130-132 | adds exactly the deep names of a node's truthy `schema` |
| SwaggerUtils.ExtractSchemaFieldsRefs | lib/swagger-utils.ts:120-124 | adds exactly the deep names of each node's truthy `schema` |
| SwaggerUtils.Follow | lib/swagger-utils.ts:193-199 | a name the target lacks and the source defines is recorded, copied and walked. The name then lies in the target, and every newly copied schema is expanded. The growth stays below any closed pool that already holds the target and reaches the name. |
| SwaggerUtils.CollectNestedSchemas | lib/swagger-utils.ts:183-236 | after walking a schema, every name it links to through `properties[*].$ref`, `properties[*].items.$ref` and composition members is in the target if the source defines it, and the target grows only by such names |
| SwaggerUtils.CollectPropertyLinks | lib/swagger-utils.ts:187-216 | every property link the source defines is reached, with the same growth bound |
| SwaggerUtils.FollowProperty | lib/swagger-utils.ts:189-214 | the property's own `$ref`, then its `items.$ref`, are reached |
| SwaggerUtils.CollectCompositionLinks | lib/swagger-utils.ts:218-235 | every link of the schema is reached, with the same growth bound |
| SwaggerUtils.CollectMemberLinks | lib/swagger-utils.ts:219-234 | the members' links under one composition key are reached |
| SwaggerUtils.FollowMembers | lib/swagger-utils.ts:220-233 | every member's `$ref` the source defines is reached |
| SwaggerUtils.FollowMember | lib/swagger-utils.ts:221-232 | one member's `$ref` is reached |
| SwaggerUtils.AddReferencedSchemas | lib/swagger-utils.ts:69-97 | the `usedSchemas.forEach` loop fills the target with the least closure of the seeds under `NestedLinks`; `usedSchemas` ends as the seeds plus the copied names |
| SwaggerUtils.VisitUsed | lib/swagger-utils.ts:71-81 | one visit of the `forEach` keeps the walk's invariant |
| SwaggerUtils.NestedLinks | lib/swagger-utils.ts:183-236 | every name the nested walk follows is also one `extractSchemaRefs` collects |
| SwaggerUtils.KeyLinksWithin | lib/swagger-utils.ts:187-235 | the links under each of `properties`, `allOf`, `anyOf`, `oneOf` are deep names of the schema |
| SwaggerUtils.LinksUnderWithin | lib/swagger-utils.ts:187-235 | the links under the first `c` nested keys are deep names of the schema |
| SwaggerUtils.NestedClosureWithinDeep | lib/swagger-utils.ts:68-97 | a tag slice's pool is a sub-map of the pool a walk following every deep name would fill from the same seeds |
| SwaggerUtils.PetListLinks | lib/swagger-utils.ts:183-236 | the nested walk finds no link in the array definition `PetList`, although its deep names include `Pet` |
| SwaggerUtils.OwnItemsNotFollowed | lib/swagger-utils.ts:68-97 | a pool seeded with `PetList` keeps `PetList`, still referring to `Pet`, and leaves `Pet` out |
| TagSlicer.Includes | lib/swagger-utils.ts:48 | only an array or a string can include the tag; an array includes it exactly when it holds the string; a string includes itself, and no shorter string includes it |
| TagSlicer.Selected | lib/swagger-utils.ts:48 | a selected operation is present and its `tags` include the tag; one without `tags` is never selected; one with a `tags` array is selected exactly when the array holds the tag |
| TagSlicer.ScanOperation | lib/swagger-utils.ts:48-53 | an operation is selected exactly when it is present, has truthy `tags` and those include the tag; a selected operation adds exactly its deep names |
| TagSlicer.ScanPathItem | lib/swagger-utils.ts:44-54 | the path item is kept exactly when some operation is selected; the seeds grow by exactly the names of the selected operations |
| TagSlicer.CopyPathItem | lib/swagger-utils.ts:58-64 | the copied path item holds exactly the selected operations, in method order |
| TagSlicer.SelectPaths | lib/swagger-utils.ts:42-66 | the output `paths` are the tagged paths in document order, and the seeds are exactly the names of every selected operation |
| TagSlicer.ExtractApiDocForTag | lib/swagger-utils.ts:22-100 | the header is as above and `paths` holds the tagged paths. With truthy `definitions`, the output `definitions` is their least closure from the seeds; otherwise, with truthy `components.schemas`, the output `components.schemas` is theirs; otherwise no schema is copied. |
| TagSlicer.MatchedUpToSpec | lib/swagger-utils.ts:60-64 | an operation is copied under the first `c` methods exactly when it is selected |
| TagSlicer.MatchedSpec | lib/swagger-utils.ts:60-64 | the copied path item holds an operation under a method exactly when that operation is selected |
| TagSlicer.MatchedIffSelected | lib/swagger-utils.ts:47-56 | a path item is kept exactly when one of its seven methods is selected |
| TagSlicer.TaggedPathsSpec | lib/swagger-utils.ts:42-66 | a path appears in `paths` with operations `ops` exactly when some binding of it has `ops` as its non-empty selected operations |
| TagSlicer.UntaggedDropped | lib/swagger-utils.ts:48 | operations without `tags` are never selected, not even for "default" |
| TagSlicer.SeedsUpToSpec | lib/swagger-utils.ts:47-54 | a seed comes from a path exactly when it is a deep name of one of its selected operations |
| TagSlicer.SeedsUpToFrom | lib/swagger-utils.ts:47-54 | each seed of a path comes from one of its methods |
| TagSlicer.SeedsUpToCover | lib/swagger-utils.ts:47-54 | each method contributes all its seeds |
| TagSlicer.ReSliceDropsSchemas | lib/swagger-utils.ts:34-69 | a slice saved with empty `definitions` still has them truthy; slicing it again fills `definitions` from an empty pool, so no schema is copied, and `components.schemas` comes back empty |
| TagSlicer.DroppedPathNoSeeds | lib/swagger-utils.ts:47-56 | a dropped path contributes no seed |
| EndpointSlicer.CollectSchemaRefName | components/swagger-viewer.tsx:497-501 | adds the last segment of `schema.$ref` when that is a non-empty string, nothing else |
| EndpointSlicer.CollectSchemaRefNames | components/swagger-viewer.tsx:496-503 | adds exactly the top-level `$ref` names of the nodes' schemas |
| EndpointSlicer.CollectEndpointRefs | components/swagger-viewer.tsx:494-527 | adds exactly the top-level `$ref` names of the parameters, the responses' `schema` and the request body's media types |
| EndpointSlicer.CollectParameterRefNames | components/swagger-viewer.tsx:495-504 | adds exactly the parameters' names |
| EndpointSlicer.CollectResponseRefNames | components/swagger-viewer.tsx:506-515 | adds exactly the responses' names |
| EndpointSlicer.CollectBodyRefNames | components/swagger-viewer.tsx:517-526 | adds exactly the request body's names |
| EndpointSlicer.FollowRef | components/swagger-viewer.tsx:532-540 | an unmarked name is marked; it is copied and walked when the pool defines it; the growth stays below any closed pool reaching the name |
| EndpointSlicer.CopyAndWalk | components/swagger-viewer.tsx:536-539 | a defined name ends in the target, with the same growth bound |
| EndpointSlicer.CollectEndpointNested | components/swagger-viewer.tsx:529-555 | every name the local walk finds in the schema (`properties[*].$ref` and the schema's own `items.$ref`) ends marked, and the target grows only by such names |
| EndpointSlicer.CollectEndpointProperties | components/swagger-viewer.tsx:530-543 | every property's `$ref` name ends marked |
| EndpointSlicer.FollowFrom | components/swagger-viewer.tsx:538 | the recursive walk of a copied schema keeps the invariants |
| EndpointSlicer.AddEndpointSchemas | components/swagger-viewer.tsx:461-489 | the `forEach` fills the target with the least closure of the seeds under `EndpointLinks`; the seeds stay first in `usedSchemas` |
| EndpointSlicer.VisitMarked | components/swagger-viewer.tsx:463-473 | one visit keeps the marking invariant |
| EndpointSlicer.EndpointSeedList | components/swagger-viewer.tsx:446-458 | the output `paths` and the seeds are those of the one path and method |
| EndpointSlicer.ExtractApiEndpoint | components/swagger-viewer.tsx:430-492 | the header is as for a tag slice, with `tags` filtered by the given tag; `paths` holds only the path and method; the one pool is the least closure of the operation's names under the local walk |
| EndpointSlicer.EndpointPathsSpec | components/swagger-viewer.tsx:447-452 | `paths` has at most the one path, present exactly when the path item is truthy; under it at most the one method, holding the source operation, present exactly when that is truthy |
| EndpointSlicer.NoOperationEmptyPool | components/swagger-viewer.tsx:456-458 | with no such path or method, no schema is copied |
| EndpointSlicer.EndpointRefs | components/swagger-viewer.tsx:494-527 | the viewer's operation names are among those the library collects |
| EndpointSlicer.EndpointLinks | components/swagger-viewer.tsx:529-555 | the viewer's nested links are deep names of the schema |
| EndpointSlicer.PetListEndpointLinks | components/swagger-viewer.tsx:545-554 | the viewer's walk links `PetList` to `Pet` |
| EndpointSlicer.OwnItemsFollowed | components/swagger-viewer.tsx:461-489 | an endpoint pool seeded with `PetList` holds both `PetList` and `Pet` |
| ViewerHelpers.TagDescription | components/swagger-viewer.tsx:157-163 | the description is "" or the truthy `description` of a declared tag with the name |
| ViewerHelpers.ParameterType | components/swagger-viewer.tsx:412-428 | a truthy `param.type` wins; without either `type` the shown type is a string holding no '/' |
| ViewerHelpers.ParameterTypeCascade | components/swagger-viewer.tsx:412-428 | the shown type is `param.type` when truthy, else `schema.type` when truthy, else the last segment of a string `$ref`, else "object" |
| ViewerHelpers.TagFileName | components/swagger-viewer.tsx:191 | the file name is the tag followed by `-api-doc.json` |
| ViewerHelpers.EndpointFileName | components/swagger-viewer.tsx:278 | the file name is the path with every '/' replaced by '_', then `-`, the method and `-api-doc.json` |
| ViewerHelpers.FirstNamed | components/swagger-viewer.tsx:159 | `find` returns the first tag with the name, or none |
| ViewerHelpers.TagDescriptionFirst | components/swagger-viewer.tsx:157-163 | the description is that of the first declared tag with the name when truthy, "" otherwise |
| ViewerHelpers.TagDescriptionUndeclared | components/swagger-viewer.tsx:157-163 | an undeclared tag, or a document without a `tags` array, has description "" |
| ViewerHelpers.ParameterTypeOfRef | components/swagger-viewer.tsx:412-428 | a parameter whose schema is only `{$ref: "#/definitions/Name"}` shows `Name` |
| ViewerHelpers.ParameterTypeEmpty | components/swagger-viewer.tsx:412-428 | the shown type is "" exactly when neither `type` is truthy and `schema.$ref` is a string ending in '/'; otherwise it is truthy |
| ViewerHelpers.LastSegmentEmpty | components/swagger-viewer.tsx:422-423 | the last segment is empty exactly when the string is empty or ends in '/' |
| ViewerHelpers.ReplaceSlashes | components/swagger-viewer.tsx:278 | every '/' becomes '_', and nothing else changes |
| ViewerHelpers.TagFileNameInjective | components/swagger-viewer.tsx:191 | different tags download to different files |
| ViewerHelpers.EndpointFileNameFlat | components/swagger-viewer.tsx:278 | an endpoint file name holds no '/' and has the expected length |
| ViewerHelpers.EndpointFileNameInjective | components/swagger-viewer.tsx:278 | for paths without '_', the file name determines the path |
| ViewerHelpers.EndpointFileNameCollision | components/swagger-viewer.tsx:278 | `/pets/{id}` and `/pets_{id}` download their `get` to the same file |
| TagGroups.BelowIrreflexive | components/swagger-viewer.tsx:142 | the sort order never puts a tag before itself |
| TagGroups.BelowTransitive | components/swagger-viewer.tsx:142 | the sort order is transitive |
| TagGroups.BelowTotal | components/swagger-viewer.tsx:142 | any two different tags are ordered |
| TagGroups.Insert | components/swagger-viewer.tsx:142 | inserting adds exactly the one tag |
| TagGroups.SortTags | components/swagger-viewer.tsx:141-142 | sorting keeps exactly the tags |
| TagGroups.InsertSorted | components/swagger-viewer.tsx:142 | inserting a new tag into a sorted list keeps it strictly sorted |
| TagGroups.SortTagsSorted | components/swagger-viewer.tsx:141-142 | the sorted tags of a distinct list are strictly increasing |
| TagGroups.SortedUnique | components/swagger-viewer.tsx:141-142 | two strictly sorted lists with the same tags are equal, so the order is fixed by the set of tags |
| TagGroups.Strings | components/swagger-viewer.tsx:111 | the string tags of a tag array |
| TagGroups.TagNamesSpec | components/swagger-viewer.tsx:99 | a name is listed exactly when some declared tag has it |
| TagGroups.PushesSpec | components/swagger-viewer.tsx:111-122 | the pushes of one endpoint put it under exactly the tags of its list |
| TagGroups.ListedUnderAppend | components/swagger-viewer.tsx:103-125 | grouping keeps visiting order: it distributes over concatenation |
| TagGroups.ListedUnderSpec | components/swagger-viewer.tsx:111-122 | an endpoint is listed under a tag exactly when one of its entries carries the tag |
| TagGroups.OperationTags | components/swagger-viewer.tsx:109 | "default" alone when `tags` is falsy; otherwise exactly the string elements of `tags` |
| TagGroups.ItemEntriesSpec | components/swagger-viewer.tsx:104-109 | a path item's entries are its present operations, under the listed methods, each with `operation.tags \|\| ["default"]` |
| TagGroups.PathEntriesSpec | components/swagger-viewer.tsx:103-125 | the entries are exactly the present operations of every path |
| TagGroups.ListedIff | components/swagger-viewer.tsx:103-125 | an endpoint is listed under a tag exactly when its operation is present under a listed method of some path and the tag is among `operation.tags \|\| ["default"]` |
| TagGroups.UntaggedUnderDefault | components/swagger-viewer.tsx:109 | an operation without truthy `tags` is listed under "default" and nowhere else; one with `tags: []` is listed nowhere |
| TagGroups.GroupedTrans | components/swagger-viewer.tsx:103-125 | the grouping of two runs of entries in turn is the grouping of their concatenation |
| TagGroups.ListEntry | components/swagger-viewer.tsx:111-122 | pushing one operation under each of its tags groups it and adds its tags to `allTags` |
| TagGroups.ListOperation | components/swagger-viewer.tsx:106-124 | one method of a path item is grouped |
| TagGroups.ListPathItem | components/swagger-viewer.tsx:104-124 | one path item is grouped |
| TagGroups.ListPaths | components/swagger-viewer.tsx:103-125 | `endpointsByTag` ends as the grouping of all entries, in visiting order; `allTags` ends with every entry tag |
| TagGroups.AddDeclaredTags | components/swagger-viewer.tsx:97-100 | `allTags` starts with the declared names, each once, in declaration order |
| TagGroups.Sections | components/swagger-viewer.tsx:141-150 | one section per tag of the order, with its endpoints (or none) and its description |
| TagGroups.SectionTags | components/swagger-viewer.tsx:141-150 | the sections carry exactly the tags of the order |
| TagGroups.CustomSwaggerUI | components/swagger-viewer.tsx:93-150 | the sections are strictly sorted; their tags are exactly the declared and operation tags; each lists the endpoints grouped under its tag and shows its description |
| TagGroups.Dedup | components/swagger-viewer.tsx:37-52 | a `Set` built by adding in order holds each element once and exactly the elements added |
| TagGroups.DedupDistinct | components/swagger-viewer.tsx:37-52 | a list without repeats is kept as it is |
| TagGroups.AddTags | components/swagger-viewer.tsx:45-47 | adding an operation's tags one by one to the set gives the deduplicated concatenation |
| TagGroups.AddOperationTags | components/swagger-viewer.tsx:43-49 | one method's tags are added |
| TagGroups.AddItemTags | components/swagger-viewer.tsx:40-50 | one path item's tags are added, in method order |
| TagGroups.ViewerTags | components/swagger-viewer.tsx:33-53 | with a `tags` array, the names of the declared tags; otherwise the distinct operation tags in first-met order |
| TagGroups.OperationTagList | components/swagger-viewer.tsx:44-47 | a tag is in the list exactly when the operation is present, its `tags` are truthy and they contain the string |
| TagGroups.ItemTagsSpec | components/swagger-viewer.tsx:41-49 | a tag is among a path item's tags exactly when one of the methods holds a present operation whose truthy `tags` contain it |
| TagGroups.ItemTagsFrom | components/swagger-viewer.tsx:41-49 | each tag of a path item comes from one of its methods |
| TagGroups.ItemTagsCover | components/swagger-viewer.tsx:41-49 | each method contributes all its tags |
| TagGroups.AllItemTagsSpec | components/swagger-viewer.tsx:40-50 | a tag is among the operation tags exactly when some path item holds, under one of the methods, a present operation whose truthy `tags` contain it |
| TagGroups.AllItemTagsFrom | components/swagger-viewer.tsx:40-50 | each operation tag comes from one path item |
| TagGroups.AllItemTagsCover | components/swagger-viewer.tsx:40-50 | each path item contributes all its tags |
| TagGroups.ViewerTagsDistinct | components/swagger-viewer.tsx:36-52 | without declared tags, the list holds every operation tag exactly once |

## Left out

- `parseSwaggerDocument` (JSON/YAML parsing): the model starts from a parsed `Json` value.
- Rendering, React state, tabs, badges, toasts, `localStorage`, `Blob` and the download mechanics: these are I/O and UI. Only the file names are modelled.
- `JSON.stringify` of the output: the output is a `Slice` value.
- Numbers: `Json` numbers are integers. Fractional and non-finite numbers, such as `0.5` or `NaN`, are not modelled, so neither is their truthiness.
- Key order: bindings keep document order, but JavaScript enumerates integer-like keys (such as the response codes `"200"` and `"404"`) first, in ascending order. Only the order of visits depends on it: seeds, copied schemas and grouped lists hold the same elements in either order.
- Duplicate keys: JavaScript objects have unique keys. The model reads the first binding, and `Object.keys` and `Object.values` walk every binding.
- Output key order: the output pools are modelled as maps, so the order of the keys in `definitions` and `components.schemas` is not modelled.
- Aliasing: the output holds the very schema and operation objects of the input, and the model holds copies of their values. Later mutation of either is not modelled.
- Ill-typed data: where the source would throw a `TypeError` (a `null` property value, `null` array members, non-array `parameters`), the model treats the data as absent. Where it would call `split` on a non-string `$ref`, the model also treats the data as absent. The lines below name the cases the model handles differently.
- `Object.prototype` names: inherited members such as `constructor`, read through `schemaName` lookups, are not modelled. A name is in a pool only when the pool binds it.
- TagGroups.ListPaths: an operation tag that names an inherited member (`constructor`, `toString`, `__proto__`) makes `endpointsByTag[tag]` an inherited, truthy value, so the source's `push` throws. The model groups such tags like any other. CustomSwaggerUI inherits this.
- JavaScript `Set` and `Record` details: `Set` equality by identity and `Record` key coercion are not modelled. Tags and schema names are strings.
- TagGroups.TagNames: declared tags whose `name` is not a string are skipped. The source would list `undefined`.
- TagGroups.Strings: operation tags that are not strings are skipped.
- TagGroups.OperationTags: for a truthy `operation.tags` that is not an array (a string, a number, an object), the source throws at components/swagger-viewer.tsx:111, because the value has no `forEach`. The model gives no tags, so the operation is listed under no tag. It is not treated as untagged, which would list it under "default". TagGroups.OperationTagList does the same for the tag list at line 45.
- TagGroups.Below: the order compares Unicode code points, while `Array.prototype.sort` compares UTF-16 code units. The two differ only above U+FFFF.
- Slices.InfoCopy: spreading a string gives one key per UTF-16 code unit; the model gives one per character, which differs only above U+FFFF.
- TagSlicer.Includes: only arrays and strings have `includes`. For any other truthy `tags` (a number, `true`, an object), the source throws a `TypeError` at line 48. The model treats the operation as not selected.
- Array or string `paths`, `definitions` and `components.schemas`: JavaScript reads such a value under its index keys. `Object.keys`/`Object.entries` of an array `paths` give `"0"`, `"1"`, …, and `definitions["0"]` reads an element (lib/swagger-utils.ts:71, components/swagger-viewer.tsx:463). The model treats these as empty in the slicers (`TagSlicer.PathBindings`, `EndpointSlicer.PathItem`), in `CustomSwaggerUI` and in the schema pools (`TagSlicer.PoolOf`). So an array `paths` yields no paths, and an array or string pool yields no schema. `TagGroups.ViewerTags` is the exception: like `Object.values`, it reads an array `paths` element by element.
- The source's recursion depth: the model needs no stack-depth limit. The proofs bound `usedSchemas` by the seeds plus the pool's link universe.
- EndpointSlicer.CollectEndpointRefs: as in the source, the viewer ignores `responses[*].content` and every `items` or nested `$ref` of an operation's schemas.
- ViewerHelpers.ParameterType: a non-string `$ref` that is truthy falls through to "object" in the model. In the source, `split` on it would throw.
