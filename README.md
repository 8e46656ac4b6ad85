# Bucket nesting and transform install, modelled in Dafny

This project models two small pieces of Kibana.

**Lens bucket nesting editor.** `nestColumn` reorders a layer's column order.
It drops every occurrence of the inner column, then puts one copy of it
right after the outer column (at the front when the outer column is
absent). `BucketNestingEditor` makes four decisions around it:

- which other columns are nesting candidates;
- when the editor is hidden;
- which column precedes the edited one (`prevColumn`);
- which new order a radio toggle or a dropdown choice hands to `setColumns`.

The model is in `bucket_nesting.dfy` (module `BucketNesting`). `nestColumn`
is a function: its splice works on a fresh copy, so no caller sees an update
in place. The editor's decisions are a `Control` value. The orders handed to
`setColumns` are the results of `ToggleNesting` and `SelectNesting`.

**Ingest manager `installTransformForDataset`, as its three unit tests fix
it.** Installing a package's transforms works like this:

- stop and delete each transform of the previous installation;
- create and then start one transform per bundled transform file of a declared dataset;
- write at most two updates of the package's `installed_es` list to the
  `epm-packages` saved object.

Two files model this:

- `transform_install.dfy` (module `TransformInstall`) has the pure parts:
  - targets and ids;
  - the request log and the update log as functions of the inputs.
- It also has the imperative part:
  - `ClusterClient` records every cluster call;
  - `PackageStore` holds the saved lists and records every update;
  - the method `InstallTransformForDataset` drives both, in loop order, and
    is proved to produce exactly those logs.

`transform_scenarios.dfy` (module `TransformScenarios`) states the three
tests as exact values of both logs. `wrappers.dfy` holds the `Option` type.

The tests leave some choices open, and the model makes them parameters:

- `IdRule`: does the third part of a transform id come from the file name
  `default.json` or from the dataset's `ingest_pipeline`? Both are `default`
  in every test.
- `keepReinstalled`: does a prior transform whose ref is installed again
  stay in the pruned list? With `keepReinstalled` its id is not removed;
  without it, every prior transform's id is. Either way the cluster side
  still stops and deletes that transform before creating it again.

The three scenario lemmas hold for every value of both parameters.

When both updates happen, the first test (transform.test.ts:191-236)
expects the append update first, then the pruned list, and the model writes
them in that order.

## Model

| member | source | states |
|---|---|---|
| BucketNesting.Without | x-pack/plugins/lens/public/indexpattern_datasource/dimension_panel/bucket_nesting_editor.tsx:16 | the filtered order no longer holds the dropped column and is no longer than the input |
| BucketNesting.WithoutMembers | x-pack/plugins/lens/public/indexpattern_datasource/dimension_panel/bucket_nesting_editor.tsx:16 | every other column is in the filtered order exactly when it is in the input |
| BucketNesting.WithoutMultiset | x-pack/plugins/lens/public/indexpattern_datasource/dimension_panel/bucket_nesting_editor.tsx:16 | filtering removes every copy of the column and keeps every other column with its multiplicity |
| BucketNesting.IndexOf | x-pack/plugins/lens/public/indexpattern_datasource/dimension_panel/bucket_nesting_editor.tsx:17 | `indexOf` is -1 exactly when the value is absent, and otherwise the position of its first occurrence |
| BucketNesting.NestColumn | x-pack/plugins/lens/public/indexpattern_datasource/dimension_panel/bucket_nesting_editor.tsx:15-22 | the result is the input with every copy of `inner` replaced by exactly one copy (a permutation of that multiset), so its length is the input length minus the count of `inner` plus one |
| BucketNesting.NestInnerPosition | x-pack/plugins/lens/public/indexpattern_datasource/dimension_panel/bucket_nesting_editor.tsx:17-19 | `inner` lands one past `outer`'s index in the filtered order |
| BucketNesting.NestPlacesInnerAfterOuter | x-pack/plugins/lens/public/indexpattern_datasource/dimension_panel/bucket_nesting_editor.tsx:16-19 | when `outer` differs from `inner` and is present, `inner` sits immediately after `outer` in the result |
| BucketNesting.NestAtFront | x-pack/plugins/lens/public/indexpattern_datasource/dimension_panel/bucket_nesting_editor.tsx:17-19 | when `outer` equals `inner` or is absent, the result is `inner` followed by the filtered order |
| BucketNesting.NestKeepsOthersInOrder | x-pack/plugins/lens/public/indexpattern_datasource/dimension_panel/bucket_nesting_editor.tsx:16-19 | dropping `inner` from the result gives the input with `inner` dropped: all other columns keep their relative order |
| BucketNesting.NestIdempotent | x-pack/plugins/lens/public/indexpattern_datasource/dimension_panel/bucket_nesting_editor.tsx:15-22 | nesting the same pair twice equals nesting it once |
| BucketNesting.NestDetermined | x-pack/plugins/lens/public/indexpattern_datasource/dimension_panel/bucket_nesting_editor.tsx:15-22 | any order with one copy of `inner`, at the position above, and with the other columns in input order, equals the result |
| BucketNesting.NestColumnExampleUnderFirst | x-pack/plugins/lens/public/indexpattern_datasource/dimension_panel/bucket_nesting_editor.tsx:15-22 | nesting c under a in a, b, c gives a, c, b |
| BucketNesting.NestColumnExampleUnderLast | x-pack/plugins/lens/public/indexpattern_datasource/dimension_panel/bucket_nesting_editor.tsx:15-22 | nesting a under c in a, b, c gives b, c, a |
| BucketNesting.LookupColumn | x-pack/plugins/lens/public/indexpattern_datasource/dimension_panel/bucket_nesting_editor.tsx:35 | the lookup is undefined exactly when no column has the id, and otherwise returns a column stored under that id |
| BucketNesting.AggColumns | x-pack/plugins/lens/public/indexpattern_datasource/dimension_panel/bucket_nesting_editor.tsx:36-43 | the candidates are exactly the ids of bucketed columns other than the edited one |
| BucketNesting.AggColumnsDistinct | x-pack/plugins/lens/public/indexpattern_datasource/dimension_panel/bucket_nesting_editor.tsx:36-43 | over a `columns` record whose ids are distinct, as an object's keys are, each candidate is offered once |
| BucketNesting.SingleCandidateGivesToggle | x-pack/plugins/lens/public/indexpattern_datasource/dimension_panel/bucket_nesting_editor.tsx:45-62 | in a record with distinct ids, when the edited column is bucketed and exactly one other column is, the editor shows the two radios over that column, not the dropdown |
| BucketNesting.PrevColumn | x-pack/plugins/lens/public/indexpattern_datasource/dimension_panel/bucket_nesting_editor.tsx:51 | `prevColumn` is undefined exactly when the edited column is first or missing, and otherwise is the entry just before its first occurrence |
| BucketNesting.BucketNestingEditor | x-pack/plugins/lens/public/indexpattern_datasource/dimension_panel/bucket_nesting_editor.tsx:45-134 | hidden exactly when the column is missing, not bucketed or has no candidates; a toggle over the single candidate, with "top level" checked exactly when `prevColumn` is falsy; otherwise a dropdown of '' followed by the candidates, showing `prevColumn` |
| BucketNesting.TopLevelWhenNoPredecessor | x-pack/plugins/lens/public/indexpattern_datasource/dimension_panel/bucket_nesting_editor.tsx:51-104 | the "top level" radio (`!prevColumn`) is checked exactly when the edited column is missing, first, or preceded by the id ''; otherwise the nested radio (`!!prevColumn`) is |
| BucketNesting.ToggleNesting | x-pack/plugins/lens/public/indexpattern_datasource/dimension_panel/bucket_nesting_editor.tsx:56-62 | either radio moves only the column it nests (the target when `prevColumn` is truthy, the edited column otherwise): that column appears once and all other columns keep their relative order |
| BucketNesting.SelectNesting | x-pack/plugins/lens/public/indexpattern_datasource/dimension_panel/bucket_nesting_editor.tsx:135 | a dropdown choice moves only the edited column: it appears once and all other columns keep their relative order |
| BucketNesting.ToggleFromNested | x-pack/plugins/lens/public/indexpattern_datasource/dimension_panel/bucket_nesting_editor.tsx:56-58 | with a truthy `prevColumn`, the toggle nests the target under the edited column, which then precedes the target |
| BucketNesting.ToggleFromTopLevel | x-pack/plugins/lens/public/indexpattern_datasource/dimension_panel/bucket_nesting_editor.tsx:56-61 | with a falsy `prevColumn`, the toggle nests the edited column under the target, so afterwards `prevColumn` is the target and "top level" is unchecked |
| BucketNesting.SelectNestsUnderChoice | x-pack/plugins/lens/public/indexpattern_datasource/dimension_panel/bucket_nesting_editor.tsx:135 | choosing a column in the dropdown makes it the edited column's predecessor |
| BucketNesting.SelectEntireDataSet | x-pack/plugins/lens/public/indexpattern_datasource/dimension_panel/bucket_nesting_editor.tsx:125-135 | choosing "Entire data set" ('') moves the edited column to the front, leaving it with no predecessor |
| TransformInstall.FindDataset | x-pack/plugins/ingest_manager/server/services/epm/elasticsearch/transform/transform.test.ts:98-133 | the dataset found is one whose `path` is the path's dataset segment, and none is found only when no dataset has that path |
| TransformInstall.TargetOf | x-pack/plugins/ingest_manager/server/services/epm/elasticsearch/transform/transform.test.ts:129-133 | a bundled path yields a target exactly when it is a `dataset/<path>/elasticsearch/transform/<file>` path whose dataset segment is some declared dataset's `path`; the target carries that path and such a dataset |
| TransformInstall.Targets | x-pack/plugins/ingest_manager/server/services/epm/elasticsearch/transform/transform.test.ts:129-133 | every target comes from a bundled `dataset/*/elasticsearch/transform/*` path of a declared dataset; the pipeline path yields none |
| TransformInstall.TargetsCoverTransformPaths | x-pack/plugins/ingest_manager/server/services/epm/elasticsearch/transform/transform.test.ts:129-174 | every bundled transform path of a declared dataset yields a target |
| TransformInstall.TargetsAppend | x-pack/plugins/ingest_manager/server/services/epm/elasticsearch/transform/transform.test.ts:157-188 | targets follow bundled-path order |
| TransformInstall.TransformId | x-pack/plugins/ingest_manager/server/services/epm/elasticsearch/transform/transform.test.ts:161-170 | a transform id starts with the dataset type and a dash and ends with a dash and the package version |
| TransformInstall.TransformIdCarriesVersion | x-pack/plugins/ingest_manager/server/services/epm/elasticsearch/transform/transform.test.ts:138-174 | the same target at two different versions gets two different ids, so an upgrade creates a new transform instead of overwriting the old one |
| TransformInstall.TargetRefs | x-pack/plugins/ingest_manager/server/services/epm/elasticsearch/transform/transform.test.ts:205-212 | the new refs are `{id, transform}`, one per target, in target order |
| TransformInstall.Installations | x-pack/plugins/ingest_manager/server/services/epm/elasticsearch/transform/transform.test.ts:157-174 | each target is created under its id, with its bundled file's text as body, in target order |
| TransformInstall.PriorTransforms | x-pack/plugins/ingest_manager/server/services/epm/elasticsearch/transform/transform.test.ts:43-53 | the refs torn down are exactly the transform-type entries of the previous installation; the ingest pipeline is not among them |
| TransformInstall.PriorTransformsAppend | x-pack/plugins/ingest_manager/server/services/epm/elasticsearch/transform/transform.test.ts:43-53 | prior transforms are taken in the previous installation's order |
| TransformInstall.StopRequest | x-pack/plugins/ingest_manager/server/services/epm/elasticsearch/transform/transform.test.ts:138-147 | a stop is a POST on `_transform/<id>/_stop`, from whose path the id reads back, with query `force=true` and no body, tolerating a 404 |
| TransformInstall.DeleteRequest | x-pack/plugins/ingest_manager/server/services/epm/elasticsearch/transform/transform.test.ts:148-156 | a delete is a DELETE on `_transform/<id>`, from whose path the id reads back, with query `force=true` and no body, tolerating a 404 |
| TransformInstall.CreateRequest | x-pack/plugins/ingest_manager/server/services/epm/elasticsearch/transform/transform.test.ts:157-174 | a create is a PUT on `_transform/<id>` with query `defer_validation=true`, whose body is the transform's definition, tolerating no error |
| TransformInstall.StartRequest | x-pack/plugins/ingest_manager/server/services/epm/elasticsearch/transform/transform.test.ts:175-188 | a start is a POST on `_transform/<id>/_start` with no query and no body, tolerating no error |
| TransformInstall.TeardownRequests | x-pack/plugins/ingest_manager/server/services/epm/elasticsearch/transform/transform.test.ts:138-156 | two teardown requests per prior transform |
| TransformInstall.CreateRequests | x-pack/plugins/ingest_manager/server/services/epm/elasticsearch/transform/transform.test.ts:157-174 | one create per item |
| TransformInstall.StartRequests | x-pack/plugins/ingest_manager/server/services/epm/elasticsearch/transform/transform.test.ts:175-188 | one start per item |
| TransformInstall.InstallRequests | x-pack/plugins/ingest_manager/server/services/epm/elasticsearch/transform/transform.test.ts:138-189 | two requests per prior transform and two per item |
| TransformInstall.TeardownKinds | x-pack/plugins/ingest_manager/server/services/epm/elasticsearch/transform/transform.test.ts:138-156 | every teardown request goes through `transport.request` and tolerates a 404 |
| TransformInstall.CreateAndStartKinds | x-pack/plugins/ingest_manager/server/services/epm/elasticsearch/transform/transform.test.ts:157-188 | every create is a PUT and every start a POST, all through `transport.request`, none tolerating an error |
| TransformInstall.TeardownAt | x-pack/plugins/ingest_manager/server/services/epm/elasticsearch/transform/transform.test.ts:138-156 | each prior transform gets a stop (`force=true`, ignore 404) immediately followed by a delete (`force=true`, ignore 404) |
| TransformInstall.CreateAndStartAt | x-pack/plugins/ingest_manager/server/services/epm/elasticsearch/transform/transform.test.ts:157-188 | the j-th create is the PUT of the j-th item (`defer_validation=true`, body) and the j-th start is its POST `_start` |
| TransformInstall.InstallRequestsLayout | x-pack/plugins/ingest_manager/server/services/epm/elasticsearch/transform/transform.test.ts:138-189 | the request log is every teardown pair, then every create, then every start, position by position |
| TransformInstall.TeardownAppend | x-pack/plugins/ingest_manager/server/services/epm/elasticsearch/transform/transform.test.ts:138-156 | teardowns follow the previous installation's order |
| TransformInstall.CreateAppend | x-pack/plugins/ingest_manager/server/services/epm/elasticsearch/transform/transform.test.ts:157-174 | creates follow item order |
| TransformInstall.StartAppend | x-pack/plugins/ingest_manager/server/services/epm/elasticsearch/transform/transform.test.ts:175-188 | starts follow item order |
| TransformInstall.RemovedIds | x-pack/plugins/ingest_manager/server/services/epm/elasticsearch/transform/transform.test.ts:216-235 | only prior transforms' ids are removed; every prior transform that is not installed again is removed; without `keepReinstalled`, every prior transform is removed; with it, only the ids of prior transforms that are not installed again are removed |
| TransformInstall.ReinstalledRemovedUnlessKept | x-pack/plugins/ingest_manager/server/services/epm/elasticsearch/transform/transform.test.ts:216-235 | a prior transform that is installed again keeps its id with `keepReinstalled` and loses it without |
| TransformInstall.Pruned | x-pack/plugins/ingest_manager/server/services/epm/elasticsearch/transform/transform.test.ts:216-235 | the pruned list is no longer than the current one |
| TransformInstall.PrunedMembers | x-pack/plugins/ingest_manager/server/services/epm/elasticsearch/transform/transform.test.ts:216-235 | the pruned list holds exactly the current entries whose id is not removed |
| TransformInstall.PrunedAppend | x-pack/plugins/ingest_manager/server/services/epm/elasticsearch/transform/transform.test.ts:216-235 | pruning keeps the current list's order |
| TransformInstall.PrunedKeepsAll | x-pack/plugins/ingest_manager/server/services/epm/elasticsearch/transform/transform.test.ts:216-235 | a list with no removed id comes through pruning unchanged |
| TransformInstall.InstallUpdates | x-pack/plugins/ingest_manager/server/services/epm/elasticsearch/transform/transform.test.ts:191-236 | at most two updates, all on `epm-packages` under the package name: an append of the new refs to the saved list iff there are targets, then the pruned current list iff there were prior transforms |
| TransformInstall.PrunedDropsExactlyRemoved | x-pack/plugins/ingest_manager/server/services/epm/elasticsearch/transform/transform.test.ts:216-235 | the second update's list keeps only current entries, drops every removed prior transform, and keeps every entry no prior transform shares an id with; with `keepReinstalled`, it also keeps the entries of prior transforms that are installed again |
| TransformInstall.ExpectedRequests | x-pack/plugins/ingest_manager/server/services/epm/elasticsearch/transform/transform.test.ts:138-189 | the install sends everything through `transport.request`: two requests per prior transform and two per target |
| TransformInstall.ExpectedUpdates | x-pack/plugins/ingest_manager/server/services/epm/elasticsearch/transform/transform.test.ts:191-236 | the install writes at most two updates, all to the package's own `epm-packages` object, and none exactly when there is no prior transform and no target |
| TransformInstall.ClusterClient.constructor | x-pack/plugins/ingest_manager/server/services/epm/elasticsearch/transform/transform.test.ts:29-32 | a fresh client has recorded no call |
| TransformInstall.ClusterClient.Call | x-pack/plugins/ingest_manager/server/services/epm/elasticsearch/transform/transform.test.ts:138 | each call is appended to the recorded calls |
| TransformInstall.PackageStore.constructor | x-pack/plugins/ingest_manager/server/services/epm/elasticsearch/transform/transform.test.ts:84-92 | the store starts with the given saved lists and no recorded update |
| TransformInstall.PackageStore.SavedInstalledEs | x-pack/plugins/ingest_manager/server/services/epm/elasticsearch/transform/transform.test.ts:84-92 | reading the saved object returns the package's saved `installed_es` |
| TransformInstall.PackageStore.UpdateInstalledEs | x-pack/plugins/ingest_manager/server/services/epm/elasticsearch/transform/transform.test.ts:191-194 | an update is recorded on `epm-packages` under the package name and replaces that package's saved list |
| TransformInstall.InstallTransformForDataset | x-pack/plugins/ingest_manager/server/services/epm/elasticsearch/transform/transform.test.ts:94-236 | the install appends exactly the expected requests to the cluster log and the expected updates to the store log, and leaves the package's saved list as the last update wrote it |
| TransformInstall.RecordInstalledEs | x-pack/plugins/ingest_manager/server/services/epm/elasticsearch/transform/transform.test.ts:191-236 | the saved-object side writes the conditional append update, then the conditional pruning update |
| TransformInstall.DeleteTransforms | x-pack/plugins/ingest_manager/server/services/epm/elasticsearch/transform/transform.test.ts:138-156 | the teardown loop appends each prior transform's stop and delete, in order |
| TransformInstall.CreateTransforms | x-pack/plugins/ingest_manager/server/services/epm/elasticsearch/transform/transform.test.ts:157-174 | the create loop appends one PUT per item, in order |
| TransformInstall.StartTransforms | x-pack/plugins/ingest_manager/server/services/epm/elasticsearch/transform/transform.test.ts:175-188 | the start loop appends one POST `_start` per item, in order |
| TransformScenarios.RunInstall | x-pack/plugins/ingest_manager/server/services/epm/elasticsearch/transform/transform.test.ts:26-36 | an install on fresh mocks records exactly the expected request log and update log |
| TransformScenarios.TestTransformIds | x-pack/plugins/ingest_manager/server/services/epm/elasticsearch/transform/transform.test.ts:161-170 | under either id rule, the test datasets' ids are `metrics-endpoint.metadata-default-0.16.0-dev.0` and `metrics-endpoint.metadata_current-default-0.16.0-dev.0` |
| TransformScenarios.TestTargets | x-pack/plugins/ingest_manager/server/services/epm/elasticsearch/transform/transform.test.ts:129-133 | of the first test's three paths, the ingest-pipeline file yields nothing and the two transform files yield the metadata then the metadata_current target |
| TransformScenarios.FirstTestTargets | x-pack/plugins/ingest_manager/server/services/epm/elasticsearch/transform/transform.test.ts:94-174 | the first test creates metadata then metadata_current, both with the test asset text, under the 0.16 ids |
| TransformScenarios.RemovedOfFirstTest | x-pack/plugins/ingest_manager/server/services/epm/elasticsearch/transform/transform.test.ts:216-235 | in the first test only the 0.15 id is removed, whether or not reinstalled transforms are kept |
| TransformScenarios.PrunedOfFirstTest | x-pack/plugins/ingest_manager/server/services/epm/elasticsearch/transform/transform.test.ts:216-235 | pruning the 0.15 id from the first test's current list gives policy, metadata_current 0.16, metadata 0.16 |
| TransformScenarios.CanInstallNewVersionsAndRemoveOlderRequests | x-pack/plugins/ingest_manager/server/services/epm/elasticsearch/transform/transform.test.ts:138-189 | the first test's six requests, exactly |
| TransformScenarios.CanInstallNewVersionsAndRemoveOlderUpdates | x-pack/plugins/ingest_manager/server/services/epm/elasticsearch/transform/transform.test.ts:191-236 | the first test's two updates, exactly |
| TransformScenarios.CanInstallNewVersionWithNoOlder | x-pack/plugins/ingest_manager/server/services/epm/elasticsearch/transform/transform.test.ts:239-322 | the second test's create and start and its single append update, exactly, whatever the current installation holds |
| TransformScenarios.CanRemoveOlderWhenNoNewInstall | x-pack/plugins/ingest_manager/server/services/epm/elasticsearch/transform/transform.test.ts:324-419 | the third test's stop and delete and its single update to the empty list, exactly |

## Left out

- Rendering is not modelled: JSX, `EuiRadio`, `EuiSelect`, `EuiFormRow`, `htmlIdGenerator` and the i18n labels. The `Control` value keeps only what the widgets show.
- Field display names are not modelled. `hasField` lives in `../utils`, which is not part of this model, and `fieldMap` is only used for labels.
- The candidates' `text` and `fieldName` are dropped; a candidate is its id.
- `setColumns` is not called: `ToggleNesting` and `SelectNesting` return the order it would receive.
- A column is reduced to its label and `isBucketed`. `layer.columns` is a sequence of id/column pairs in `Object.entries` order.
- BucketNesting.AggColumns: states which ids are candidates, not their order (the enumeration order of `layer.columns`), which only affects the dropdown's layout. That each candidate appears once is proved separately, in `BucketNesting.AggColumnsDistinct`, for records with distinct ids.
- The real `install.ts` is not part of this model. Its behaviour is what the three tests assert, with the choices they leave open made parameters.
- Asset loading (`getAsset`, `Buffer`) is a function from bundled path to text. The two `getInstallation` answers and the saved list are parameters.
- Failing calls, and error propagation when a create or start fails, are not modelled. `ignore: [404]` is only a field of the request record.
- async/await sequencing and concurrent installs are not modelled. The calls happen in program order.
- When there are several prior transforms, the teardown order is not fixed by the tests (each has at most one). The model stops then deletes each in previous-installation order.
- Targets follow bundled-path order. In every test this is also dataset order, so that choice is not pinned down either.
- Bundled paths are lists of segments, and a transform path has exactly six: `{pkg}-{version}`, `dataset`, the dataset path, `elasticsearch`, `transform`, the file name. Parsing a path string into segments is not modelled.
- The append update is written when at least one target exists, not whenever a transform path is bundled. The two differ when a transform path names an undeclared dataset, which no test covers.
- TransformInstall.InstallTransformForDataset: requires the package's saved object to exist in the store (`pkg.name in store.installedEs`). The install flow creates it before assets are installed, and reading a missing one is an error path that is not modelled.
- A layer is not checked for well-formedness as a whole. Only the distinct ids of `columns` are stated (`DistinctIds`), where the toggle-versus-dropdown lemmas need them. The model accepts a `columns` list with a repeated id, or a column order that misses or repeats an id, which a real layer never holds. `BucketNesting.ToggleFromTopLevel` and `BucketNesting.SelectNestsUnderChoice` instead state the two facts they need (the target is in the column order, and is not '').
- Whether an install with no datasets returns before any call is not modelled, since no test covers it.
- TransformScenarios: the scenario lemmas write each request path as `"_transform/" + id + suffix`, with the id spelled out as in the test, rather than as a single string literal.
