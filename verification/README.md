# Data mapping studio: a Dafny model of the client logic

The application is a browser front end over a remote mapping service. A
*mapping* pairs a transformation template (YAML) with tags and sample payloads.
The service keeps every saved version, and the client can show and restore them.
The client has no algorithm of its own. What it has is a set of small, stated
behaviours spread over its components, and this project models and proves them:

- the stand-alone mapper screen (`DataMapper`): its state, the format switch,
  transformation output and the sample-data list editor;
- YAML/JSON conversion and output formatting (`FormatConverter`). The YAML
  library, `JSON.parse`/`JSON.stringify` and js-beautify are not interpreted:
  they are passed in as functions, and `None` means "the call threw";
- the create dialog (`CreateMapping`): tag entry, validation, the request body
  and the submitting flag;
- the list page (`MappingsList`): normalising fetched records, search and the
  YAML preview;
- the history page (`MappingHistory`) and the history sidebar
  (`MappingHistorySidebar`): initial selection, version labels, highlighting,
  the restore payload and the tag summary;
- the HTTP client (`Api`): default headers, header merging, status
  classification and per-verb options;
- the authentication gate (`ProtectedRoute`);
- the endpoint and route builders (`Constants`).

Helper modules: `Wrappers` (Option, Result), `Seqs` (order-preserving filter
and the sublist relation), `Text` (ECMAScript `trim`, lower-casing, `includes`,
decimal numerals and their parsing) and `Types` (the records in `src/types`).

Components that keep state (`useState` plus handlers) are classes. Their fields
are the state variables and their methods are the handlers. Each handler's
`ensures` gives the whole new state. An async handler is split in two: a method
for the part before the network call and a method for the part after it. The
second one takes the network outcome as a parameter. Pure expressions (the
filter, the preview, the payloads, the gate) are functions, and their contracts
state what they mean.

Truthiness follows the code exactly:
- `if (editingId)` ignores an empty id;
- `if (newMappingId)` ignores id 0;
- `!!restoringVersion` is false for an empty transaction id;
- `error.message || default` replaces an empty message.

Behaviours of the code that are easy to miss, all modelled as written:
- On a conversion failure `convertFormat` returns its input unchanged, and
  `transformData` returns `""`.
- A failed transformation leaves the mapper screen's previous output in place.
- Creating a mapping reads the response with `response.json()`. A `201` with an
  empty body therefore takes the failure path
  (`CreateMapping.EmptyCreatedBodyFails`): the caller is not notified and the
  form is kept, although the server created the mapping. On success the caller
  is notified without an id (`CreateMapping.tsx:83`), so the list page only
  ever refreshes.
- A restore sends only `yaml` and `tags`.
- A restore never returns to the mapping, even when the server accepts it. The
  success toast formats the date with `UI_CONFIG.DATETIME_FORMAT`, which the
  configuration does not define, and date-fns throws on it. The handler lands
  in its catch and shows the failure notice (see "## Findings").
- `ROUTES.MAPPING_HISTORY(id)` builds `/mappings/{id}/history`, while the
  router and the history endpoint both use `/_history`
  (`Constants.HistoryRouteIsNotEndpoint`).

## Model

| member | source | states |
|---|---|---|
| `Constants.MappingsPathsAgree` | src/config/constants.ts:13-25 | the list endpoint and the list route are both `/mappings`, and the detail route of the empty id is `/mappings/` |
| `Constants.MappingHistoryEndpoint` | src/config/constants.ts:14 | the history endpoint is `/mappings/`, then the id, then `/_history`, and the id can be read back from it |
| `Constants.MappingDetailRoute` | src/config/constants.ts:25 | the detail route is `/mappings/` followed by the id and nothing else |
| `Constants.MappingHistoryRoute` | src/config/constants.ts:26 | the history route is `/mappings/`, then the id, then `/history`, and the id can be read back from it |
| `Constants.PathsDetermineId` | src/config/constants.ts:14-26 | each of the three builders maps distinct ids to distinct paths |
| `Constants.DetailPrefixesHistory` | src/config/constants.ts:14-26 | the detail route is a proper prefix of the history endpoint and of the history route for the same id |
| `Constants.HistoryRouteIsNotEndpoint` | src/config/constants.ts:14-26 | for any two ids, the history route (`/history`) never equals a history endpoint path (`/_history`), which is also the shape the router registers |
| `FormatConverter.ConvertFormat` | src/utils/format-converter.ts:7-53 | same formats return the input untouched; a parse failure in either direction returns the input; a successful YAML→JSON conversion is the 2-space JSON print of the parsed value, and JSON→YAML is the YAML print; every other outcome is the input, so the conversion never fails |
| `FormatConverter.FormatOutput` | src/utils/format-converter.ts:57-59 | JSON output is the beautified raw text; YAML output exists exactly when the text parses as JSON and prints as YAML, and is that print |
| `FormatConverter.TransformData` | src/utils/format-converter.ts:55-75 | the formatted text on success and the empty string on any failure |
| `FormatConverter.FailurePolicies` | src/utils/format-converter.ts:33-74 | on JSON that does not parse, conversion hands back the input while transformation yields `""` |
| `DataMapper.SwitchedRules` | src/components/DataMapper.tsx:30-36 | switching to the current format keeps the rules; a failed YAML or JSON parse yields no new rules; a JSON→YAML result is the YAML print of the parsed rules; a YAML→JSON result is the beautified compact JSON print of the parsed rules |
| `DataMapper.NewSample` | src/components/DataMapper.tsx:67-71 | the new item has the given id, empty data and the name `Sample Data {n+1}` |
| `DataMapper.WithoutId` | src/components/DataMapper.tsx:78 | no kept item has the id; every item with another id is kept; the result is an order-preserving sublist |
| `DataMapper.WithData` | src/components/DataMapper.tsx:92-94 | same length, and each item is unchanged except that an item with the id gets the new data |
| `DataMapper.SaveKeepsIdentity` | src/components/DataMapper.tsx:92-94 | saving keeps the ids, their order and the names |
| `DataMapper.DeleteRemovesExactly` | src/components/DataMapper.tsx:78 | after deleting an id it no longer occurs, and the list shrinks by exactly its number of occurrences |
| `DataMapper.DataMapperState.constructor` | src/components/DataMapper.tsx:21-26 | the initial state: empty rules, list and output, YAML format, no edit in progress |
| `DataMapper.DataMapperState.HandleFormatChange` | src/components/DataMapper.tsx:28-45 | on success the rules and the format are both updated; on failure neither changes; nothing else changes |
| `DataMapper.DataMapperState.HandleTransform` | src/components/DataMapper.tsx:47-64 | the output is replaced only when formatting succeeds, otherwise the previous output stays |
| `DataMapper.DataMapperState.AddSampleData` | src/components/DataMapper.tsx:66-75 | exactly one new item is appended after the unchanged old items, and it becomes the one being edited with empty text |
| `DataMapper.DataMapperState.DeleteSampleData` | src/components/DataMapper.tsx:77-83 | the list loses the id; editing state is cleared if and only if that id was being edited |
| `DataMapper.DataMapperState.StartEditing` | src/components/DataMapper.tsx:85-88 | the editing id and text become the item's, and the list is untouched |
| `DataMapper.DataMapperState.SaveEditing` | src/components/DataMapper.tsx:90-98 | with a non-empty editing id the edited text is stored in the matching items and editing is cleared; otherwise nothing changes |
| `CreateMapping.AddTag` | src/components/CreateMapping.tsx:34-36 | the trimmed tag is present afterwards, appended only if absent, so a duplicate-free list stays duplicate-free |
| `CreateMapping.RemoveTag` | src/components/CreateMapping.tsx:41-43 | every occurrence of the tag is gone; every other tag keeps all its occurrences (same multiset count) and their order; duplicate-freedom is kept |
| `CreateMapping.SubmitRequest` | src/components/CreateMapping.tsx:48-66 | no request if and only if the title is blank; otherwise the title is `title.trim()`, which is non-empty, and the content is the current tags, empty yaml and empty test data |
| `CreateMapping.Succeeded` | src/components/CreateMapping.tsx:77-83 | a creation succeeds exactly when a response arrived, its status is in the same 2xx range the API client accepts, and its body parses as JSON |
| `CreateMapping.EmptyCreatedBodyFails` | src/components/CreateMapping.tsx:77-85 | for every status, a body that is not JSON (such as an empty 201) fails; with a JSON body, success is exactly a 2xx status; a rejected fetch fails |
| `CreateMapping.CreateMappingForm.constructor` | src/components/CreateMapping.tsx:26-29 | the dialog starts with empty title, input and tags, not submitting |
| `CreateMapping.CreateMappingForm.HandleAddTag` | src/components/CreateMapping.tsx:31-39 | only Enter with a non-blank input is accepted; then the tag is added and the input cleared (even for a duplicate); otherwise nothing changes |
| `CreateMapping.CreateMappingForm.HandleRemoveTag` | src/components/CreateMapping.tsx:41-43 | the tags become the list without that tag |
| `CreateMapping.CreateMappingForm.BeginSubmit` | src/components/CreateMapping.tsx:45-66 | a blank title changes nothing and builds nothing; otherwise the request is built and the form is submitting |
| `CreateMapping.CreateMappingForm.FinishSubmit` | src/components/CreateMapping.tsx:68-94 | the caller is notified and the form reset exactly on success; the form stops submitting on both paths |
| `CreateMapping.CreateMappingForm.ResetForm` | src/components/CreateMapping.tsx:97-101 | title, input and tags are cleared |
| `CreateMapping.CreateMappingForm.HandleOpenChange` | src/components/CreateMapping.tsx:104-107 | closing the dialog resets the form, opening keeps it, and the new state is forwarded |
| `MappingsList.Normalize` | src/pages/MappingsList.tsx:35-44 | non-array tags become `[]` and non-string yaml becomes `""`; all other fields are kept; a record without content fails |
| `MappingsList.NormalizeAll` | src/pages/MappingsList.tsx:35-46 | succeeds exactly when every record has content, and then normalises each element in place |
| `MappingsList.Matches` | src/pages/MappingsList.tsx:65-67 | the search rule (the lower-cased term occurs in the lower-cased title or in a lower-cased tag); the empty term matches every mapping |
| `MappingsList.SearchIgnoresTermCase` | src/pages/MappingsList.tsx:65-67 | a term and its lower-cased form select the same mappings |
| `MappingsList.FilteredMappings` | src/pages/MappingsList.tsx:64-68 | every matching mapping is kept as many times as it occurs and every other one is dropped; the result is an order-preserving sublist |
| `MappingsList.EmptySearchKeepsAll` | src/pages/MappingsList.tsx:64-68 | an empty search term keeps every mapping, in order |
| `MappingsList.YamlPreview` | src/pages/MappingsList.tsx:136-148 | empty yaml gives the fixed message; yaml of at most 150 characters comes back unchanged; longer yaml gives its first 150 characters followed by `...`; the preview never exceeds 153 characters |
| `MappingsList.AfterCreation` | src/pages/MappingsList.tsx:90-96 | a truthy new id navigates to its detail route, anything else refreshes the list |
| `MappingsList.DeletePath` | src/pages/MappingsList.tsx:101 | the hand-written delete path is the detail route of the same id |
| `MappingsList.MappingsListPage.constructor` | src/pages/MappingsList.tsx:19-22 | the page starts with no mappings, loading, with an empty search and the dialog closed |
| `MappingsList.MappingsListPage.Visible` | src/pages/MappingsList.tsx:64-68 | the shown mappings are the loaded ones filtered by the current search term; each matches the term; they are an order-preserving sublist, and all of them when the search is empty |
| `MappingsList.MappingsListPage.StartFetch` | src/pages/MappingsList.tsx:30 | loading is set |
| `MappingsList.MappingsListPage.FinishFetch` | src/pages/MappingsList.tsx:29-58 | a successful fetch stores the normalised records; a failed fetch, or a record that cannot be normalised, leaves the list empty; loading ends on both paths |
| `MappingsList.MappingsListPage.HandleCreateMapping` | src/pages/MappingsList.tsx:78-80 | the create dialog opens |
| `MappingsList.MappingsListPage.FinishDelete` | src/pages/MappingsList.tsx:99-118 | a successful delete starts a refresh of the list; a failed one changes nothing |
| `MappingsList.MappingsListPage.HandleCreationSuccess` | src/pages/MappingsList.tsx:82-97 | the dialog closes; the follow-up is that of AfterCreation, and a refresh starts loading again |
| `MappingHistory.VersionLabel` | src/pages/MappingHistory.tsx:173 | the label of index i among n is between 1 and n, n for the first and 1 for the last |
| `MappingHistory.LabelsDecrease` | src/pages/MappingHistory.tsx:173 | labels strictly decrease along the list, so they are distinct |
| `MappingHistory.RestorePayloadOf` | src/pages/MappingHistory.tsx:86-91 | the payload holds exactly the version's yaml and its tags, `[]` when absent |
| `MappingHistory.SelectionAfterLoad` | src/pages/MappingHistory.tsx:49-54 | after a load the first version is selected if there is one, otherwise the selection is unchanged |
| `MappingHistory.FormatDate` | src/pages/MappingHistory.tsx:107 | a format pattern that is not a string makes the call throw; a string pattern is passed to the formatter |
| `MappingHistory.RestoreFollowUp` | src/pages/MappingHistory.tsx:101-118 | the restore navigates to the mapping's detail route exactly when the PUT was accepted and the toast's date formatting did not throw; otherwise it ends with the failure notice |
| `MappingHistory.RestoreNeverNavigates` | src/pages/MappingHistory.tsx:105-111 | with the undefined toast format, no restore navigates, whatever the PUT's result and the formatter |
| `MappingHistory.RestoreNavigatesWithDefinedFormat` | src/config/constants.ts:37 | with the defined `DATE_TIME_FORMAT`, an accepted PUT navigates back exactly when the date formats, and a rejected PUT never does |
| `MappingHistory.RestoreDisabled` | src/pages/MappingHistory.tsx:200 | the restore button is enabled if and only if a version is selected and no restore (of a non-empty txnid) is running |
| `MappingHistory.MappingHistoryPage.constructor` | src/pages/MappingHistory.tsx:27-32 | the page starts loading, with no versions, no selection and no restore running |
| `MappingHistory.MappingHistoryPage.HistoryUrl` | src/pages/MappingHistory.tsx:43 | the hand-built history URL is the base URL followed by the history endpoint of the id |
| `MappingHistory.MappingHistoryPage.RestoreUrl` | src/pages/MappingHistory.tsx:93 | the restore URL is the base URL followed by the detail path of the id |
| `MappingHistory.MappingHistoryPage.StartFetch` | src/pages/MappingHistory.tsx:41 | loading is set |
| `MappingHistory.MappingHistoryPage.FinishFetch` | src/pages/MappingHistory.tsx:40-70 | a successful load stores the versions and selects the first; a failed load changes neither; loading ends on both paths |
| `MappingHistory.MappingHistoryPage.HandleVersionSelect` | src/pages/MappingHistory.tsx:72-74 | the chosen version becomes the selection |
| `MappingHistory.MappingHistoryPage.IsHighlighted` | src/pages/MappingHistory.tsx:167 | a version is highlighted if and only if its txnid equals the selected version's |
| `MappingHistory.MappingHistoryPage.BeginRestore` | src/pages/MappingHistory.tsx:80-91 | with no selection nothing happens; otherwise the selected txnid is marked as restoring and its payload is built |
| `MappingHistory.MappingHistoryPage.FinishRestore` | src/pages/MappingHistory.tsx:101-121 | the restoring mark is cleared on every path; the outcome is RestoreFollowUp with the undefined toast format, so it is always the failure notice |
| `MappingHistorySidebar.SummarizeTags` | src/components/MappingHistorySidebar.tsx:99-108 | at most the first two tags are shown, in order; with two or fewer all are shown and there is no badge; with more than two exactly the first two are shown and the badge counts the rest, k = length - 2; non-array tags show nothing |
| `MappingHistorySidebar.OverflowBadge` | src/components/MappingHistorySidebar.tsx:105 | the badge is `+` followed by the canonical decimal numeral of k (no leading zero) |
| `MappingHistorySidebar.RenderBody` | src/components/MappingHistorySidebar.tsx:45-60 | the spinner shows exactly while loading; the empty message shows exactly when loaded with no versions; the current-version block shows exactly when there is a current mapping |
| `MappingHistorySidebar.IsHighlighted` | src/components/MappingHistorySidebar.tsx:86-89 | a version is highlighted if and only if its txnid equals the selected version's |
| `Api.CheckStatus` | src/services/api.ts:50-58 | a 2xx status passes through; 401 gives `Authentication required`; any other status gives `HTTP error! status: ` followed by the canonical decimal numeral of that status |
| `Api.ErrorIdentifiesStatus` | src/services/api.ts:50-58 | two failing statuses with the same error are the same status, so a 401 is never confused with another error |
| `Api.OptionsFor` | src/services/api.ts:64-98 | GET sends no method and no body; POST and PUT send their verb and the stringified data; DELETE sends its verb and no body; no verb adds headers |
| `Api.ApiService.constructor` | src/services/api.ts:10-13 | the service uses the configured base URL |
| `Api.ApiService.GetHeaders` | src/services/api.ts:25-36 | the headers always hold `Content-Type: application/json`, hold `Authorization: Bearer {token}` if and only if the token is truthy, and hold nothing else |
| `Api.ApiService.PrepareRequest` | src/services/api.ts:41-48 | the URL is the base URL joined to the path; the caller's method and body are kept; the header keys are the defaults plus the caller's; caller headers override defaults with the same key |
| `ProtectedRoute.Decide` | src/components/auth/ProtectedRoute.tsx:29-115 | loading wins whatever the other flags are; the error screen shows if and only if not loading with an error flag and an error; the login prompt shows if and only if neither applies and the user is not authenticated; the children show in the remaining case; an empty error message is replaced by the default text |
| `ProtectedRoute.ErrorOverridesAuthentication` | src/components/auth/ProtectedRoute.tsx:43 | for every error message and authentication state, a reported error is shown when not loading, even to an authenticated user |
| `Text.Trim` | src/components/CreateMapping.tsx:32-35 | `trim` removes a blank prefix and a blank suffix, leaves no whitespace at either end, and is empty exactly for blank input |
| `Text.TrimIdempotent` | src/components/CreateMapping.tsx:34-35 | trimming twice is trimming once |
| `Text.ParseNatToString` | src/components/DataMapper.tsx:69 | the decimal numeral of n parses back to n |
| `Text.NumeralIsCanonical` | src/services/api.ts:55 | a digit string without a leading zero whose value is n is exactly the numeral a template string renders for n |
| `Text.NatToString` | src/components/DataMapper.tsx:69 | the numeral of `sampleDataList.length + 1` is non-empty, all decimal digits, with no leading zero |
| `Text.Lower` | src/pages/MappingsList.tsx:65-67 | `toLowerCase` keeps the length, leaves no upper-case letter, changes nothing that is not an upper-case letter, and maps each upper-case letter to its lower-case partner |
| `Text.Contains` | src/pages/MappingsList.tsx:65-67 | `includes` holds only when the needle is no longer than the text; the empty needle and the text itself are always included |
| `Seqs.Filter` | src/components/DataMapper.tsx:78 | `Array.prototype.filter`: every element of the result comes from the input and satisfies the predicate, every input element that satisfies it is in the result, and the result is no longer than the input (order and counts are the lemmas `FilterIsSublist` and `FilterCount`) |
| `Seqs.FilterIsSublist` | src/components/DataMapper.tsx:78 | `filter` keeps the surviving elements in their original order |
| `Seqs.FilterCount` | src/components/DataMapper.tsx:78 | `filter` keeps every occurrence of an element that satisfies the predicate and none of one that does not |

## Left out

- Network I/O is not modelled: the `fetch` calls, `response.json()` and `response.text()`. Responses enter as parameters: the records received, a status, or "failed".
- The error texts thrown on a failed create, history fetch or restore are not modelled; only success or failure is.
- Async handlers are split at the network call. Overlapping calls and the order in which their responses arrive are not modelled.
- React's batching of state updates is not modelled. Each handler is modelled as running to completion on the state it started from, which is what the handlers rely on.
- The YAML library, `JSON.parse`, `JSON.stringify` and js-beautify are not interpreted. They are function parameters returning Option, so no YAML or JSON round-trip is claimed. `JsonValue` numbers are integers.
- Toasts, console logging, the debug panels and `OIDC_DEBUG` are left out. They are side effects only.
- The date text produced by date-fns (`formatDate`, `formatVersionDate`, the restore toast) is not modelled. It is a library call. Only whether the restore toast's call throws is modelled, through a formatter parameter.
- The sample id `Date.now().toString()` is a parameter of `AddSampleData`. Uniqueness is not assumed, since the code never checks it.
- Authentication plumbing (`useAuth`, `AuthProvider`, `auth-debug`, Keycloak) is left out. It wraps an external library.
- The `fetch` that creates a mapping goes to the list endpoint and sends only a JSON content type, with no Authorization header. Its URL and headers are not modelled.
- Navigation by click (`handleMappingClick`, `handleReturnToMapping`) is not modelled separately. It goes to the same detail route as `AfterCreation` and `RestoreFollowUp`.
- The history page's `useEffect` fetches only for a truthy route id. This guard is not modelled.
- Purely presentational components with no logic of their own are left out: the editors, the sample-data dropdown and editor, the header, the router table, the index page and the API context.
- `ApiService.getToken` and `createApiService` only forward their argument and are not modelled.
- Text.Lower: only ASCII letters are lower-cased, while `toLowerCase` covers all of Unicode. Search matches on other letters are therefore not modelled exactly.
- MappingsList.YamlPreview: the limit counts Unicode scalar values, while `substring` counts UTF-16 code units. The two differ only for characters outside the Basic Multilingual Plane. The `Error displaying YAML content` branch cannot be reached for a string and is not modelled.
- MappingsList.Normalize: "not an array" and "not a string" are each one case. Fields beyond the declared record fields, which the spread operator would copy, are not modelled.
- MappingHistory.RestorePayloadOf: `tags` is either an array or absent. A truthy non-array value, which `tags || []` would send unchanged, is not modelled.

## Findings

| source | as written | input that shows it | evidently intended | confidence | as-written member | corrected member |
|---|---|---|---|---|---|---|
| src/pages/MappingHistory.tsx:105-111 | the success toast formats the date with `UI_CONFIG.DATETIME_FORMAT`, an entry the configuration (src/config/constants.ts:30-38) does not define, so date-fns throws before `navigate` | any restore whose PUT returns 2xx: the server has restored the version, but the page shows "Restore failed" and stays | the defined `UI_CONFIG.DATE_TIME_FORMAT`, so an accepted restore navigates back to the mapping | high for the undefined entry; it relies on date-fns rejecting an undefined pattern; not executed | `MappingHistory.RestoreNeverNavigates` | `MappingHistory.RestoreNavigatesWithDefinedFormat` |
