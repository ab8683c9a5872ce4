# Arvados Workbench helpers and the arvbox override merge, in Dafny

This project models the small, self-contained pieces of logic in the Arvados
Workbench 2 client, plus the YAML override merge of the arvbox development
tool. It then proves the properties those pieces promise. Each source file is
one Dafny module:

- `YmlOverride` models `recursiveMerge`, the override merge of two YAML
  documents. `YamlDict.MergeFrom` updates a mapping in place. The function
  `Merge` gives its value.
- `CommonService` models the key renaming of API request and response
  bodies (`mapKeys`). It also models how `list` builds its query parameters
  and chooses between a GET and a POST that carries `_method=GET`.
- `MaxLength` models the `maxLength` form validator factory.
- `PropertyValueField` models the suggestions and validation of a property
  value against the tag vocabulary. The vocabulary's tags are a plain object,
  so a tag name it does not own reads `Object.prototype`.
- `AuthService` models the session store: the API token and the signed-in
  user, kept under fixed keys of the browser's local storage. `Store` is the
  class whose methods write and delete keys.
- `AuthAction` models the start-up decisions. These are whether a pending
  account-link operation is cancelled, which cluster is the home cluster,
  and whether the stored token is restored.
- `CollectionPanelReducer` models the collection panel's reducer. It also
  describes what any run of its actions leaves behind.
- `DataTable` models the module-wide map of checked rows and the
  checkbox-column rules of the data table.
- `ProcessIOCard` models the Keep URL and path helpers of the process I/O
  card, how a file array with secondary files is flattened for display, and
  the loading flag.
- `ContextMenuActions` models the choice of context menu and the position
  where it opens.
- `WorkbenchActions` models how a looked-up project is classified as owned,
  shared or trashed, and the steps `loadProject` takes. It also models
  project reloading and the first-load indicator.
- `PublicFavorites` models the paging, sort order and result handling of the
  public favourites request.

Some modules are helpers:

- `Common`: `Option`, which stands for `undefined`, `null` and `None`.
- `Resources`: the kinds of resource.
- `JsObjects`: the names every plain JavaScript object inherits from
  `Object.prototype`. Reading one of them from an object without an own
  property of that name gives a truthy function.
- `Assoc`: insertion-ordered association lists. These stand for JavaScript
  objects and Python dicts. Assigning to an existing key keeps its
  position, and a new key goes last.
- `Seqs`: `filter` and `find`.
- `Strings`: `startsWith`, `endsWith`, `includes`, `split`, `join`, and
  decimal printing.

Library functions and I/O the code calls are parameters of the model:

- lodash `camelCase` and `snakeCase`;
- the length of the query-string encoding;
- `extractUuidKind`, as an already extracted kind;
- local storage, as a map field;
- the server's responses.

## Model

| member | source | states |
|---|---|---|
| YmlOverride.Merge | tools/arvbox/lib/arvbox/docker/yml_override.py:20-27 | merging two mappings gives a mapping |
| YmlOverride.MergeNonDict | tools/arvbox/lib/arvbox/docker/yml_override.py:26-27 | if either side is not a mapping, the result is exactly the override |
| YmlOverride.MergeKeys | tools/arvbox/lib/arvbox/docker/yml_override.py:21-25 | the merged mapping has exactly the keys of both sides; the base's keys come first, in their order |
| YmlOverride.MergeOverrides | tools/arvbox/lib/arvbox/docker/yml_override.py:22-24 | every key of the override holds the merge of the base's value (None when absent) with the override's value |
| YmlOverride.MergeNewKey | tools/arvbox/lib/arvbox/docker/yml_override.py:24-27 | a key only the override has takes the override's value unchanged |
| YmlOverride.MergeKeepsBase | tools/arvbox/lib/arvbox/docker/yml_override.py:21-25 | keys of the base that the override lacks keep their value |
| YmlOverride.MergeLeafWins | tools/arvbox/lib/arvbox/docker/yml_override.py:20-27 | at any depth, a non-mapping node of the override ends up at the same path in the result |
| YmlOverride.MergeKeepsUntouched | tools/arvbox/lib/arvbox/docker/yml_override.py:20-27 | at any depth, a node of the base that the override does not reach is kept |
| YmlOverride.YamlDict.MergeFrom | tools/arvbox/lib/arvbox/docker/yml_override.py:20-25 | assigning each override key into the mapping in place leaves it equal to the merge, and returns the same mapping |
| CommonService.MapKeys | src/services/common-service/common-service.ts:53-69 | objects stay objects and arrays stay arrays of the same length; every other value is returned unchanged |
| CommonService.MapKeysArray | src/services/common-service/common-service.ts:64-65 | each array element is transformed in place, so order is kept |
| CommonService.MapKeysObjectKeys | src/services/common-service/common-service.ts:56-63 | the keys of a renamed object are exactly the renamed keys, each once |
| CommonService.MapKeysObjectValue | src/services/common-service/common-service.ts:59-63 | a renamed key holds the value of the last original key renamed to it; only under `items` is that value transformed |
| CommonService.MapKeysRoundTrip | src/services/common-service/common-service.ts:53-69 | renaming with an inverse renaming that fixes `items` gives back any object with unique keys |
| CommonService.ListParams | src/services/common-service/common-service.ts:117-123 | filters become `[filters]` and order is copied; an absent or empty one is undefined; the other arguments are snake-cased |
| CommonService.ListParamsOrder | src/services/common-service/common-service.ts:119-123 | the renamed arguments come first in their order, then `filters`, then `order`; a renamed argument that already has one of those names keeps its place |
| CommonService.List | src/services/common-service/common-service.ts:117-148 | a GET exactly when the encoded parameters are at most 1500 characters; otherwise a POST whose form is `_method=GET` then the defined parameters in order, with `_method=GET` in the query |
| CommonService.PostForm | src/services/common-service/common-service.ts:132-138 | the form built in a loop is `_method=GET` followed by every parameter that is not undefined, in order |
| MaxLength.MakeRule | src/validators/max-length.tsx:5-14 | a missing limit is 60 and a missing message is the default message |
| MaxLength.Complaint | src/validators/max-length.tsx:17 | the error is exactly the message (the default when the message is empty), a space and the limit: it starts with the one, ends with the other, and is no longer than both |
| MaxLength.Utf16Length | src/validators/max-length.tsx:17 | JavaScript's `length`: at least the number of characters and at most twice it; equal to it when no character is above U+FFFF, twice it when every character is |
| MaxLength.Check | src/validators/max-length.tsx:14-22 | accepts exactly the absent, empty and short-enough values, measured in UTF-16 code units (the bound is inclusive); otherwise returns the message (the default if empty), a space and the limit |
| MaxLength.CheckMonotone | src/validators/max-length.tsx:17 | a value accepted under a limit is accepted under any larger limit |
| MaxLength.ComplaintNamesLimit | src/validators/max-length.tsx:17 | the error ends in the limit's decimal notation, which reads back as the limit |
| MaxLength.AstralCharactersCountTwice | src/validators/max-length.tsx:5-17 | 31 characters above U+FFFF are 62 code units, so the default limit of 60 refuses them |
| MaxLength.CodeUnitsNotCharacters | src/validators/max-length.tsx:17 | a value of 31 emoji, within 60 characters, is still refused under the defaults |
| MaxLength.DefaultRule | src/validators/max-length.tsx:5-17 | with both defaults, a 61-character value gets "Maximum string length of this field is:  60" |
| PropertyValueField.GetTagValues | src/views-components/resource-properties-form/property-value-field.tsx:67-70 | an own tag gives its values, or none when it has none; a name that is not an own tag gives none, except `constructor`, which reads the inherited function `Object.values` |
| PropertyValueField.IsStrictTag | src/views-components/resource-properties-form/property-value-field.tsx:62-65 | true exactly for a known tag marked strict; an inherited name is never strict |
| PropertyValueField.GetSuggestions | src/views-components/resource-properties-form/property-value-field.tsx:59-60 | throws a `TypeError` exactly when the values read is `Object.values`; otherwise every suggestion contains the typed text and differs from it |
| PropertyValueField.SuggestionsExact | src/views-components/resource-properties-form/property-value-field.tsx:59-60 | the suggestions are exactly those tag values, in vocabulary order and with their multiplicity |
| PropertyValueField.MatchTagValues | src/views-components/resource-properties-form/property-value-field.tsx:53-57 | throws a `TypeError` exactly when the values read is `Object.values`; the only error is "Incorrect value"; the typed text is accepted exactly when the first tag value containing it is non-empty |
| PropertyValueField.MatchTagValuesAccepts | src/views-components/resource-properties-form/property-value-field.tsx:53-57 | non-empty typed text is accepted exactly when some tag value contains it |
| PropertyValueField.MatchTagValuesNoValues | src/views-components/resource-properties-form/property-value-field.tsx:53-57 | with no tag values, every input gets "Incorrect value" |
| PropertyValueField.MatchTagValuesEmptyInput | src/views-components/resource-properties-form/property-value-field.tsx:53-57 | empty input is accepted exactly when the first tag value is non-empty, because `find` returns that first value |
| PropertyValueField.FindFirstContaining | src/views-components/resource-properties-form/property-value-field.tsx:55 | `find` returns the unique first tag value containing the typed text, and returns one exactly when such a value exists |
| PropertyValueField.InheritedTagNames | src/views-components/resource-properties-form/property-value-field.tsx:53-70 | a name inherited from `Object.prototype` is never strict; `constructor` makes suggestions and matching throw, and any other inherited name has no values |
| PropertyValueField.GetValidation | src/views-components/resource-properties-form/property-value-field.tsx:48-51 | `require` always comes first; the vocabulary match is added exactly for a strict tag |
| AuthService.StoredValue | src/services/auth-service/auth-service.ts:42-52 | a stored value reads back when present and non-empty; otherwise it is absent |
| AuthService.GetApiToken | src/services/auth-service/auth-service.ts:42-44 | the stored token; a missing or empty one reads as absent |
| AuthService.GetUuid | src/services/auth-service/auth-service.ts:46-48 | the stored user uuid; a missing or empty one reads as absent |
| AuthService.GetOwnerUuid | src/services/auth-service/auth-service.ts:50-52 | the stored owner uuid; a missing or empty one reads as absent |
| AuthService.GetIsAdmin | src/services/auth-service/auth-service.ts:54-56 | true exactly when the stored text is `true` |
| AuthService.GetUser | src/services/auth-service/auth-service.ts:58-69 | a user exactly when all five string fields are stored and non-empty, made of those fields and the admin flag |
| AuthService.WithUser | src/services/auth-service/auth-service.ts:71-78 | after saving, the same user reads back exactly when its strings are non-empty; the admin flag round-trips through JSON text; the token and other keys are kept |
| AuthService.WithoutUser | src/services/auth-service/auth-service.ts:80-87 | after removal, no user and no admin flag are read; the token and other keys are kept |
| AuthService.GetRootUuid | src/services/auth-service/auth-service.ts:122-126 | a root uuid exactly when the owner uuid holds a `-`, and then it holds a `-` itself |
| AuthService.RootUuidShape | src/services/auth-service/auth-service.ts:122-126 | the root uuid exists exactly when the owner uuid holds a `-`; it is the owner uuid's prefix up to its second `-` |
| AuthService.Store.SaveApiToken | src/services/auth-service/auth-service.ts:34-44 | the token reads back, or is absent when empty; the user is unchanged |
| AuthService.Store.RemoveApiToken | src/services/auth-service/auth-service.ts:38-40 | the token is gone and no user key is touched |
| AuthService.Store.SaveUser | src/services/auth-service/auth-service.ts:71-78 | the six key writes leave the storage that `WithUser` describes |
| AuthService.Store.RemoveUser | src/services/auth-service/auth-service.ts:80-87 | the six key deletions leave the storage that `WithoutUser` describes |
| AuthAction.InitAuthSteps | src/store/auth/auth-action.ts:35-47 | linking is cancelled before init exactly when the path is on neither token route and there is no link-op status |
| AuthAction.HomeCluster | src/store/auth/auth-action.ts:51-56 | the login cluster if set, else the stored cluster if its `remoteHosts` entry is truthy, else the uuid prefix; a stored cluster kept has a non-empty host entry or is a name inherited from `Object.prototype` |
| AuthAction.InheritedClusterSurvives | src/store/auth/auth-action.ts:51-56 | a stored cluster named `constructor` is kept even when there are no remote hosts |
| AuthAction.Init | src/store/auth/auth-action.ts:49-61 | CONFIG, then SET_HOME_CLUSTER with that cluster, then the token restore exactly when the token is present and not `"undefined"` |
| CollectionPanelReducer.InitialState | src/store/collection-panel/collection-panel-reducer.ts:14-17 | no collection and no tags |
| CollectionPanelReducer.Reduce | src/store/collection-panel/collection-panel-reducer.ts:19-25 | the item load replaces only the item; the tags load replaces only the tags; creating a tag appends it; any other action changes nothing |
| CollectionPanelReducer.ReplayState | src/store/collection-panel/collection-panel-reducer.ts:19-25 | after any run of actions: the last loaded item; the last loaded tags, followed by every tag created after that load |
| DataTable.InitialChecked | src/components/data-table/data-table.tsx:96-107 | after re-initialising, the keys are exactly the rows and all are unchecked |
| DataTable.InitialCheckedAsWritten | src/components/data-table/data-table.tsx:96-107 | as written, the rows named like a property of a function object are left out |
| DataTable.AsWrittenSkipsName | src/components/data-table/data-table.tsx:103-104 | a row named `name` is reset by the intended code but not by the code as written |
| DataTable.AsWrittenAgrees | src/components/data-table/data-table.tsx:102-106 | both versions agree when no row is named like a function property |
| DataTable.CheckedList.Initialize | src/components/data-table/data-table.tsx:96-107 | the delete loop and the assign loop leave the map `InitialChecked` describes |
| DataTable.Toggle | src/components/data-table/data-table.tsx:109-116 | a row that reads as unchecked becomes checked, and one that reads as checked becomes unchecked; an absent row reads as checked exactly when its name is inherited from `Object.prototype`; no other row changes |
| DataTable.ToggleTwice | src/components/data-table/data-table.tsx:109-114 | toggling twice restores a present row; an absent row comes back unchecked, or checked when its name is inherited from `Object.prototype` |
| DataTable.ToggleInheritedName | src/components/data-table/data-table.tsx:109-114 | selecting a row named `toString` for the first time stores unchecked |
| DataTable.CheckedList.HandleResourceSelect | src/components/data-table/data-table.tsx:109-116 | updates the map in place as `Toggle` describes |
| DataTable.WithCheckBox | src/components/data-table/data-table.tsx:144 | the checkbox column is first; it is prepended only if it was not already first |
| DataTable.WithCheckBoxIdempotent | src/components/data-table/data-table.tsx:144 | rendering again changes nothing, and adds at most one checkbox column |
| DataTable.VisibleColumns | src/components/data-table/data-table.tsx:237-239 | only selected columns are kept |
| DataTable.VisibleColumnsExact | src/components/data-table/data-table.tsx:237-239 | exactly the selected columns, in order and with their multiplicity; after render the checkbox column is the first visible one |
| ProcessIOCard.GetKeepUrl | services/workbench2/src/views/process-panel/process-io-card.tsx:832-836 | a `keep:` location loses the prefix; otherwise a non-empty hash gives `hash/location` (`undefined` when there is no location); otherwise the location or `""` |
| ProcessIOCard.GetResourcePdhUrl | services/workbench2/src/views/process-panel/process-io-card.tsx:844-847 | a prefix of the Keep URL that holds no `/` |
| ProcessIOCard.KeepUrlPath | services/workbench2/src/views/process-panel/process-io-card.tsx:867-870 | the path is empty when the Keep URL holds no `/` |
| ProcessIOCard.DisplayedPath | services/workbench2/src/views/process-panel/process-io-card.tsx:867-881 | an empty path shows as `/` and any other path as it is; a shown path other than `/` is what follows the collection part and a `/` in the Keep URL |
| ProcessIOCard.KeepUrlParts | services/workbench2/src/views/process-panel/process-io-card.tsx:844-870 | the Keep URL is the collection part, `/` and the path; with no `/` it is the part alone and the path is empty |
| ProcessIOCard.KeepUrlOfCollectionFile | services/workbench2/src/views/process-panel/process-io-card.tsx:832-870 | `keep:hash/path`, or a relative path next to a hash, shows that hash as its collection and that path as its path |
| ProcessIOCard.NormalizeDirectoryLocation | services/workbench2/src/views/process-panel/process-io-card.tsx:914-922 | a missing or empty location is kept, and so is one already ending with `/`; any other location gets at most one added character and ends with `/` |
| ProcessIOCard.NormalizeIdempotent | services/workbench2/src/views/process-panel/process-io-card.tsx:914-922 | normalising twice is normalising once |
| ProcessIOCard.IsExternalValue | services/workbench2/src/views/process-panel/process-io-card.tsx:1003 | true exactly when a key is `$import` or `$include` |
| ProcessIOCard.FileArrayValues | services/workbench2/src/views/process-panel/process-io-card.tsx:765-780 | the loop yields each main file followed by its secondary files, in order; an empty result becomes one empty value |
| ProcessIOCard.FlattenedCounts | services/workbench2/src/views/process-panel/process-io-card.tsx:771-780 | each present main file gives one value not flagged secondary; each secondary file gives one flagged value; the result is empty exactly when every main file is null |
| ProcessIOCard.FlattenedFirst | services/workbench2/src/views/process-panel/process-io-card.tsx:767-775 | a present first main file comes first and hides no hash |
| ProcessIOCard.SubProcessLoading | services/workbench2/src/views/process-panel/process-io-card.tsx:309-320 | loading exactly when raw or params are missing and there are neither input mounts nor an output collection |
| ContextMenuActions.ResourceKindToContextMenuKind | src/store/context-menu/context-menu-actions.ts:196-212 | a menu for exactly the five known kinds: projects give PROJECT or PROJECT_ADMIN, collections COLLECTION_RESOURCE or COLLECTION_ADMIN, processes PROCESS_RESOURCE or PROCESS_ADMIN (the admin menu exactly for an admin), users ROOT_PROJECT and links LINK |
| ContextMenuActions.MenuDeterminesKind | src/store/context-menu/context-menu-actions.ts:196-212 | the menu determines the kind; for projects, collections and processes it also determines the admin flag |
| ContextMenuActions.MenuPosition | src/store/context-menu/context-menu-actions.ts:43-56 | each coordinate is the pointer's, or the element's left or top edge when it is 0 |
| ContextMenuActions.CollectionFilesMenuKind | src/store/context-menu/context-menu-actions.ts:58-68 | COLLECTION_FILES exactly when the serialised file state contains `"selected":true` |
| ContextMenuActions.SelectedEntryGivesFilesMenu | src/store/context-menu/context-menu-actions.ts:60-66 | a selected entry anywhere in the serialisation gives COLLECTION_FILES |
| ContextMenuActions.SidePanelContextMenu | src/store/context-menu/context-menu-actions.ts:167-177 | nothing for a category; the root-project menu for a user, the project menu for a project, nothing otherwise |
| WorkbenchActions.Classify | src/store/workbench/workbench-actions.ts:448-465 | a trashed collection or project is TRASHED; any other item is OWNED; with no item the result is SHARED, fetched from the service of the uuid's kind |
| WorkbenchActions.TrashedOtherKindIsOwned | src/store/workbench/workbench-actions.ts:450-453 | a trashed item of another kind is OWNED |
| WorkbenchActions.ContentsPage.Shift | src/store/workbench/workbench-actions.ts:448 | removes and returns the first item; no item when the list is empty |
| WorkbenchActions.LoadGroupContentsResource | src/store/workbench/workbench-actions.ts:435-469 | only the first item of the lookup decides the classification, and it is consumed |
| WorkbenchActions.FinishLoadingProject | src/store/workbench/workbench-actions.ts:425-433 | opens the project panel and details panel for the uuid, and stores the resource when one is given |
| WorkbenchActions.LoadProjectSteps | src/store/workbench/workbench-actions.ts:126-158 | the trashed flag is cleared first; nothing follows exactly when nobody is signed in |
| WorkbenchActions.LoadProjectOutcome | src/store/workbench/workbench-actions.ts:126-158 | nothing is loaded when nobody is signed in; the user's own uuid skips the lookup and opens the home project; otherwise the panel is marked trashed exactly for a trashed lookup, and the resource is opened and stored |
| WorkbenchActions.ReloadProjectMatchingUuid | src/store/workbench/workbench-actions.ts:367-373 | reloads exactly when the current project uuid is set and listed |
| WorkbenchActions.IsWorkbenchLoading | src/store/workbench/workbench-actions.ts:64-67 | loading exactly when the indicator exists and is working |
| WorkbenchActions.HandleFirstTimeLoad | src/store/workbench/workbench-actions.ts:69-78 | the action is awaited first; the loading screen is stopped after it exactly when still working, so afterwards the workbench is never loading; the action's throw or normal finish is passed on; an indicator that was not working is left alone |
| WorkbenchActions.FirstLoadIgnoresOutcome | src/store/workbench/workbench-actions.ts:71-77 | the `finally` block takes the same steps and leaves the same indicator whether the action finished or threw |
| PublicFavorites.Direction | src/store/public-favorites-panel/public-favorites-middleware-service.ts:45-47 | ascending exactly for ASC; anything else is descending |
| PublicFavorites.OrderBuilder.AddOrder | src/store/public-favorites-panel/public-favorites-middleware-service.ts:49-53 | appends one ordering clause |
| PublicFavorites.BuildOrders | src/store/public-favorites-panel/public-favorites-middleware-service.ts:41-54 | no ordering unless sorted by Name; then links by name, and contents by name for collections, processes and projects, in that order |
| PublicFavorites.RequestPaging | src/store/public-favorites-panel/public-favorites-middleware-service.ts:59-60 | limit is rowsPerPage and offset is page × rowsPerPage |
| PublicFavorites.FloorDiv | src/store/public-favorites-panel/public-favorites-middleware-service.ts:75 | the floor of offset ÷ limit, for either sign of the limit; no number when the limit is 0 |
| PublicFavorites.StoredPageRoundTrip | src/store/public-favorites-panel/public-favorites-middleware-service.ts:59-75 | a response echoing the request's paging stores the requested page |
| PublicFavorites.RequestItems | src/store/public-favorites-panel/public-favorites-middleware-service.ts:31-88 | no data explorer means "not ready" and no request; a response gives its items, count, page and limit; a failure empties the items and sets count and page to 0, keeping rowsPerPage |

## Left out

- File and YAML I/O and the `print(k)` in `recursiveMerge`. Mapping keys are strings. Aliasing between nested mappings is not modelled: `MergeFrom` updates only the top-level mapping in place, and nested mappings are values.
- Key order: JavaScript objects list integer-like keys first. The association lists keep plain insertion order for every key.
- `CommonService.List`: the HTTP calls, `defaultResponse` with its progress and error callbacks, and the string conversion `FormData` applies to values.
- `CommonService.MapKeys`: lodash's `isPlainObject` is taken to hold exactly for JSON objects. Numbers are integers.
- `MaxLength.Check`: the limit is an integer. Non-integer limits and their printing are not modelled.
- `AuthService`: `login`, `logout` and `getUserDetails` (window redirects and HTTP).
- `AuthAction.Init`: the stored home cluster is a parameter. The service method that reads it is not part of this model. The user-details request behind `saveApiToken` is not modelled either.
- `DataTable`: the React rendering, and the `console.log` calls.
- `DataTable.CheckedList`: assigning to the key `__proto__` of a plain object has no effect in JavaScript. The map treats that key like any other.
- `DataTable.WithCheckBox`: `unshift` puts the checkbox column into the caller's array in place. The model returns the new column list as a value, so it does not capture that the caller's array itself changes.
- `DataTable.InitialCheckedAsWritten`: indexing a function with `arguments` or `caller` throws. Those names are not modelled.
- `ProcessIOCard`: the JSX, the navigation URLs built with `getInlineFileUrl`, and the other branches of `getIOParamDisplayValue`.
- `ProcessIOCard.SubProcessLoading`: raw and params are reduced to whether they are loaded.
- `ContextMenuActions`: `extractUuidKind` and `isSidePanelTreeCategory` are inputs. The serialisation of the collection files state is an input string.
- `WorkbenchActions`: the group-contents request, the fetch from a service and the dispatching are inputs or ordered step lists. The asynchrony between steps is not modelled.
- `PublicFavorites`: the text form of an ordering (the order builder's own source is not part of this model), the filters, the request itself and the progress indicator.
- `PublicFavorites.FloorDiv`: the JavaScript quotient for a zero limit (Infinity or NaN) is represented as no number.

## Findings

| source | as written | input that shows it | evidently intended | confidence | as-written member | corrected member |
|---|---|---|---|---|---|---|
| src/components/data-table/data-table.tsx:103 | `!checkedList.hasOwnProperty[uuid]` indexes the function `hasOwnProperty` instead of calling it. For a row named like a property of a function object (`name`, `length`, `call`, `toString`, …) the index is truthy, so that row is not reset to unchecked. | rows `["name"]` | `!checkedList.hasOwnProperty(uuid)`: every row is reset to unchecked | not executed | DataTable.AsWrittenSkipsName | DataTable.CheckedList.Initialize |
