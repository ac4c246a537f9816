# Sync-patch pruning, delete-job REST models and the role/group creation form

This project models three small pieces of the Pydio Cells file-sync/share
platform in Dafny and proves what each promises.

- **`SyncFilter`** models `TreePatch.FilterToTarget`. It walks a tree of pending
  sync operations and drops the ones the target endpoint does not need:
  - a data transfer when the target already has a node with the same ETag;
  - a CreateFolder when the folder already exists;
  - a Delete when the node is already gone.

  Processed operations are never touched. `TreeNode` is a class whose two
  operation fields are cleared in place. The walk is a loop over the visited
  nodes, proved against the per-node decision function `Prune`. Each endpoint's
  `LoadNode` is modelled by a snapshot: a map from path to what loading that
  path returns.
- **`DeleteModels`** models the generated REST models `RestDeleteJobResult`
  (fields `Uuid`, `Label`) and `RestDeleteNodesResponse` (field `DeleteJobs`, an
  array of `RestDeleteJobResult`). Their `constructFromObject` methods populate a
  caller-supplied instance, or a new one, from a plain JavaScript value:
  - nothing happens for a falsy value;
  - each declared key is copied only if it is an own property;
  - every other key is ignored.

  Both models are classes mutated in place. Their methods are proved against the
  value-level functions `PopulateJob` and `PopulateResponse`.
- **`RoleGroupForm`** models the decision logic of `CreateRoleOrGroupForm`:
  whether submit sends a request, and which one. For a group, that covers the
  validation, the choice of parent node, and the path rewrite (only the first
  `/idm/users` is removed, with `/` as the fallback). For a role, it covers the
  role record. It also models the title key.

`ApiClient.convertToType` is not part of this model. These assumptions stand in
for it:
- its conversion to `'String'` is a parameter of the model (`asString`);
- its conversion to `[RestDeleteJobResult]` is taken to map an array element by
  element with `RestDeleteJobResult.constructFromObject` (no instance supplied),
  keeping length and order;
- for a value that is not an array, the model chooses to store the value as it is.
  This is a stand-in, not a statement of what `convertToType` does.

`constructFromObject` fills a caller-supplied instance in place when one is
given, keeping the fields whose keys are absent. These files contain no
record-to-payload conversion and no per-field type diagnostics.

The own-property test is the method call `data.hasOwnProperty(key)`. A payload
object with its own `hasOwnProperty` key hides that method with a value that is
not a function, since a decoded JSON value never is one. The call then throws a TypeError before any field is assigned,
and the model returns `Thrown`, leaving the supplied instance as it was.

## Model

| member | source | states |
|---|---|---|
| SyncFilter.Sources | common/sync/merger/tree-patch-filter-target.go:36-46 | The source endpoint always has an entry: its cache, or the endpoint itself. The target has an entry exactly when it offers a cache, is a path-sync source, or is the source endpoint itself; its own entry prefers the cache. No other endpoint has an entry, and the target's entry wins when both are the same endpoint |
| SyncFilter.Exists | common/sync/merger/tree-patch-filter-target.go:49-62 | An endpoint without a source never has anything. Without a node to compare, the result means "a node was loaded and no error came back". With a node, it means "the loaded node has that ETag", even when an error came back beside the node |
| SyncFilter.Prune | common/sync/merger/tree-patch-filter-target.go:65-83 | For one node: each operation is either kept or dropped, never replaced. At most one of the two is dropped. Processed operations are kept, and so are path operations other than CreateFolder and Delete |
| SyncFilter.DataDroppedIffSameEtag | common/sync/merger/tree-patch-filter-target.go:56-68 | A data operation is dropped exactly when it is unprocessed and its target has a node at the processed path with the node's ETag |
| SyncFilter.CreateFolderDroppedIffPresent | common/sync/merger/tree-patch-filter-target.go:69-74 | An unprocessed CreateFolder is dropped exactly when its target has a node at the processed path and the data operation was not dropped in the same visit |
| SyncFilter.DeleteDroppedIffAbsent | common/sync/merger/tree-patch-filter-target.go:75-79 | An unprocessed Delete is dropped exactly when its target has no node at the path (a load error counts as no node) and the data operation was not dropped |
| SyncFilter.TargetWithoutSource | common/sync/merger/tree-patch-filter-target.go:42-53 | If the target has neither a cache nor a path-sync source, operations aimed at it keep their data and CreateFolder operations and lose their unprocessed Delete operations |
| SyncFilter.VisitNode | common/sync/merger/tree-patch-filter-target.go:65-83 | The walk callback sets only the node's two operation fields, to what Prune decides, and returns false |
| SyncFilter.TreePatch.FilterToTarget | common/sync/merger/tree-patch-filter-target.go:34-85 | After the walk, every node's operations are Prune of its own old operations under the `sources` map. No other field of any node changes |
| DeleteModels.PopulateJob | frontend/front-srv/assets/gui.ajax/res/js/core/http/gen/model/RestDeleteJobResult.js:59-64 | A `data` with its own `hasOwnProperty` key throws. Otherwise `Uuid` is set to the converted value exactly when `data` has `Uuid` as an own property, and keeps its previous value when not. `Label` behaves the same way |
| DeleteModels.PopulateJobIgnoresUnknownKeys | frontend/front-srv/assets/gui.ajax/res/js/core/http/gen/model/RestDeleteJobResult.js:59-64 | Removing every key other than `Uuid`, `Label` and the method-hiding `hasOwnProperty` from the data object gives the same outcome |
| DeleteModels.PopulateJobIdempotent | frontend/front-srv/assets/gui.ajax/res/js/core/http/gen/model/RestDeleteJobResult.js:59-64 | When populating does not throw, populating a second time from the same data changes nothing |
| DeleteModels.PopulateJobFromNonObject | frontend/front-srv/assets/gui.ajax/res/js/core/http/gen/model/RestDeleteJobResult.js:59-64 | A truthy value that is not an object (a non-empty string, a number, an array) has no own `Uuid` or `Label`, so it leaves the fields as they were |
| DeleteModels.PopulateJobExample | frontend/front-srv/assets/gui.ajax/res/js/core/http/gen/model/RestDeleteJobResult.js:59-64 | With a conversion that keeps strings, `{"Uuid": "abc-123", "Label": "Finance"}` gives `Uuid` "abc-123" and `Label` "Finance" |
| DeleteModels.PopulateJobFromEmptyObject | frontend/front-srv/assets/gui.ajax/res/js/core/http/gen/model/RestDeleteJobResult.js:59-64 | An empty object leaves a new instance with both fields undefined |
| DeleteModels.PopulateJobShadowedExample | frontend/front-srv/assets/gui.ajax/res/js/core/http/gen/model/RestDeleteJobResult.js:59 | `{"hasOwnProperty": 1, "Uuid": "a"}` throws instead of setting `Uuid` |
| DeleteModels.RestDeleteJobResult.constructor | frontend/front-srv/assets/gui.ajax/res/js/core/http/gen/model/RestDeleteJobResult.js:72-76 | A new instance has `Uuid` and `Label` undefined |
| DeleteModels.RestDeleteJobResult.ConstructFromObject | frontend/front-srv/assets/gui.ajax/res/js/core/http/gen/model/RestDeleteJobResult.js:51-67 | Falsy data returns `obj` untouched (null when none was given). It throws exactly when `data` hides `hasOwnProperty`, and a throw leaves `obj` untouched. Otherwise it returns the supplied `obj`, or a fresh instance, whose fields are PopulateJob of the old fields (or of undefined ones) |
| DeleteModels.ConvertJob | frontend/front-srv/assets/gui.ajax/res/js/core/http/gen/model/RestDeleteJobResult.js:51-67 | `constructFromObject(item)` with no instance supplied, as the array conversion applies it. A falsy item gives undefined. Any other item throws exactly when it hides `hasOwnProperty`, and otherwise gives a new instance populated by PopulateJob |
| DeleteModels.ConvertJobs | frontend/front-srv/assets/gui.ajax/res/js/core/http/gen/model/RestDeleteNodesResponse.js:61 | The array conversion throws exactly when the conversion of some element throws. Otherwise it keeps length and order, and each element is what `constructFromObject` makes of the item at the same index: undefined for a falsy item |
| DeleteModels.ConvertJobList | frontend/front-srv/assets/gui.ajax/res/js/core/http/gen/model/RestDeleteNodesResponse.js:61 | `convertToType(data['DeleteJobs'], [RestDeleteJobResult])`. An array is converted element-wise as ConvertJobs does, throwing exactly when it throws. Any other value is stored as it is (the model's stand-in) |
| DeleteModels.ConvertJobArray | frontend/front-srv/assets/gui.ajax/res/js/core/http/gen/model/RestDeleteNodesResponse.js:61 | The imperative array conversion throws exactly when ConvertJobs does. Otherwise it builds pairwise distinct, fresh instances, one per truthy item, whose fields equal ConvertJobs of the items |
| DeleteModels.PopulateResponse | frontend/front-srv/assets/gui.ajax/res/js/core/http/gen/model/RestDeleteNodesResponse.js:60-62 | A `data` that hides `hasOwnProperty` throws. Otherwise `DeleteJobs` is assigned the conversion of `data.DeleteJobs` exactly when `data` has it as an own property: an array becomes instances of the same length, any other value is stored as it is. When `data` lacks the key, the previous value is kept |
| DeleteModels.PopulateResponseElementwise | frontend/front-srv/assets/gui.ajax/res/js/core/http/gen/model/RestDeleteNodesResponse.js:61 | When the conversion does not throw, the k-th converted job is the conversion of the k-th item of `data.DeleteJobs` |
| DeleteModels.RestDeleteNodesResponse.constructor | frontend/front-srv/assets/gui.ajax/res/js/core/http/gen/model/RestDeleteNodesResponse.js:70 | A new instance has `DeleteJobs` undefined |
| DeleteModels.RestDeleteNodesResponse.ConstructFromObject | frontend/front-srv/assets/gui.ajax/res/js/core/http/gen/model/RestDeleteNodesResponse.js:52-66 | Falsy data returns `obj` untouched. It throws exactly when PopulateResponse does, and a throw leaves `obj` untouched. Otherwise it returns the supplied `obj`, or a fresh instance, whose `DeleteJobs` (seen through its instances' fields) is PopulateResponse of the old value. When the key is absent, a supplied `obj` keeps the very same `DeleteJobs` value, instances included. A converted array holds fresh, pairwise distinct instances |
| RoleGroupForm.TitleKey | frontend/front-srv/assets/access.settings/res/js/AdminPeople/forms/CreateRoleOrGroupForm.js:41-47 | The title key is `ajxp_admin.user.15` exactly for groups and `ajxp_admin.user.14` exactly for every other type |
| RoleGroupForm.FindFrom | frontend/front-srv/assets/access.settings/res/js/AdminPeople/forms/CreateRoleOrGroupForm.js:76 | The result is the first index at or after `from` where the pattern occurs, or None when it occurs nowhere from there |
| RoleGroupForm.IndexOf | frontend/front-srv/assets/access.settings/res/js/AdminPeople/forms/CreateRoleOrGroupForm.js:76 | The result is the first occurrence of the pattern, or None when there is none |
| RoleGroupForm.RemoveFirst | frontend/front-srv/assets/access.settings/res/js/AdminPeople/forms/CreateRoleOrGroupForm.js:76 | String `replace` with an empty replacement leaves a string without the pattern unchanged. Otherwise it shortens the string by exactly one pattern length |
| RoleGroupForm.RemoveFirstUndone | frontend/front-srv/assets/access.settings/res/js/AdminPeople/forms/CreateRoleOrGroupForm.js:76 | Re-inserting the pattern at its first occurrence index gives back the original string, so exactly the first occurrence was removed |
| RoleGroupForm.GroupPath | frontend/front-srv/assets/access.settings/res/js/AdminPeople/forms/CreateRoleOrGroupForm.js:76-77 | The group path sent is never empty, because an empty result falls back to `/` |
| RoleGroupForm.GroupPathUnderUsers | frontend/front-srv/assets/access.settings/res/js/AdminPeople/forms/CreateRoleOrGroupForm.js:76-77 | `/idm/users` followed by `rest` becomes `rest`, or `/` when `rest` is empty |
| RoleGroupForm.GroupPathRemovesOnlyFirst | frontend/front-srv/assets/access.settings/res/js/AdminPeople/forms/CreateRoleOrGroupForm.js:76 | `/idm/users/idm/users` becomes `/idm/users`: only the first occurrence is removed |
| RoleGroupForm.GroupPathOutsideUsers | frontend/front-srv/assets/access.settings/res/js/AdminPeople/forms/CreateRoleOrGroupForm.js:76-77 | A path without `/idm/users` is sent as it is, and the empty path as `/` |
| RoleGroupForm.GroupParent | frontend/front-srv/assets/access.settings/res/js/AdminPeople/forms/CreateRoleOrGroupForm.js:71-75 | The parent is the first selected node when any are selected, otherwise the context node |
| RoleGroupForm.Submit | frontend/front-srv/assets/access.settings/res/js/AdminPeople/forms/CreateRoleOrGroupForm.js:61-96 | createGroup is called exactly for a group with a non-empty id and label, with arguments (GroupPath of the parent's path, id, label) in that order. setRole is called exactly for a role, keyed by the generated Uuid that is also stored on the record, with Label set to the typed text. Any other type sends nothing |
| RoleGroupForm.RoleLabelNotChecked | frontend/front-srv/assets/access.settings/res/js/AdminPeople/forms/CreateRoleOrGroupForm.js:82-88 | A role with an empty label is still sent |

## Left out

- Logging (`log.Logger`, `zap`) in FilterToTarget has no effect on the outcome. `context.Context` is passed to `CachedBranchFromEndpoint` and `LoadNode`. Its effect, for example a cancelled context turning into a load error, is absorbed into the snapshots' load results and their `failed` flag.
- `CachedBranchFromEndpoint`, `LoadNode`, `Walk` and `ProcessedPath` are not part of this model. They become the endpoint snapshots, a sequence of distinct visited nodes, and a node field. The model takes each node's processed path as fixed during the walk, and each visit writes only its own node, so the order of the visits does not matter.
- `Walk` is not part of this model, so what it does with the callback's return value is not modelled. The model only states that the value is false.
- Operation types other than CreateFolder and Delete are modelled as one `OpOther` case, because FilterToTarget does not tell them apart.
- `ApiClient.convertToType` is not part of this model: the assumptions stated above replace it.
- A TypeError is modelled as a `threw` flag on the method that throws it. Its propagation through callers is not modelled, and neither is any throw from the `'String'` conversion.
- JavaScript numbers are modelled as integers, so NaN, which is falsy, is not represented.
- Own properties of arrays and strings (indices, `length`) are not modelled: a key such as `Uuid` is an own property only of a plain object.
- The REST calls of submit, their promises, `dismiss`, and the node reload or `reload` callback are left out. The model returns the request that would be sent, and the node to reload with it.
- `uuid.sync()` is randomness, so the generated identifier is an input.
- The role record is built as a value (`IdmRole`): it is created inside submit, and nothing else refers to it before it is sent.
- The `roleNode` assignment in the role branch has no effect on the request and is left out.
- `getMessage` is left out: the title is modelled by its message key.
- Mixins, `render`, `getPadding` and `getSize` are user-interface wiring.
- `cmd/install.go` and `EditorTab.js` are not part of this model. They are CLI and I/O plumbing and React rendering.
