# Grafana dashboard backup and restore, modelled in Dafny

This project models the part of the observability tooling that carries Grafana
dashboards from one server to another. There are two sides.

- **Backup** (`grafana_backup.py`) asks the source server for its datasources and
  dashboards.
  - It strips the server-assigned `id` from every datasource record.
  - It normalises every fetched dashboard: each object-valued `datasource` on a
    panel it visits becomes that object's `name`, or `""`. It visits the
    top-level `panels`, the `panels` of each entry of a top-level legacy `rows`
    list, and nested `panels` at any depth below those. `rows` is looked at
    only at the top level of the dashboard (grafana_backup.py:45-49).
- **Restore** (`grafana_restore.py`) builds two lookup tables: the backup's
  uid→name table and the set of datasource names on the target server. For each
  backed-up dashboard it then does four things:
  - It remaps every object-valued `datasource` anywhere in the tree. The
    precedence chain is: the built-in `"-- Grafana --"` uid, the candidate name
    (stripped `name`, else the backup name for the stripped `uid`, else stripped
    `type`), the operator's `datasourceMapping`, and finally `defaultDatasource`.
  - It back-fills an empty `datasource` of each top-level panel from the first
    query target that offers one. An object target offers its `name` stripped
    (grafana_restore.py:122). Only the elements of the dashboard's own
    `panels` list are back-filled, not nested or row panels
    (grafana_restore.py:158-160).
  - It drops `id` and `uid` and sets `version` to 0.
  - It posts the result.

The model has four modules.

- `Text` (text.dfy): Python's `str.strip()` over Python's whitespace characters.
- `JsonTree` (json.dfy):
  - The JSON value type. Objects are entry sequences kept in insertion order.
  - The dictionary operations the scripts use: `in`, `[]`, `.get`, `.pop`, item
    assignment and iteration.
  - Python's failure behaviour: an `AttributeError` or `TypeError` becomes
    `Fail(Raised)`, and `sys.exit(1)` becomes `Fail(Exit(1))`.
  - Generic loop specifications (map, fold, flat-map, first-hit scan) with their "a failing
    prefix fails the whole loop" lemmas.
- `GrafanaRestore` (restore.dfy): the restore side.
- `GrafanaBackup` (backup.dfy): the backup side.

The scripts mutate the parsed JSON in place. Each such loop is a `method` whose
`ensures` ties its result to a specification function. The properties the
scripts promise are proved about those functions as lemmas.

HTTP responses and files are inputs:
- A response is a status and a parsed body.
- A file is `None` when it does not exist, else its parsed content.
- The per-uid dashboard fetch is a function `server` from uid to response.

## Model

| member | source | states |
|---|---|---|
| Text.Trim | observability/python_config/grafana_restore.py:40 | `strip()` leaves no leading or trailing whitespace, never lengthens, and leaves a stripped string as it is; the result is the slice of the input left after dropping whitespace-only runs at both ends |
| Text.TrimStart | observability/python_config/grafana_restore.py:40 | the result is a suffix of the input, what was removed is all whitespace, and the result does not start with whitespace |
| Text.TrimEnd | observability/python_config/grafana_restore.py:40 | the result is a prefix of the input, what was removed is all whitespace, and the result does not end with whitespace |
| Text.TrimEmptyIffAllSpace | observability/python_config/grafana_restore.py:85 | a stripped string is empty (falsy) exactly when the original is all whitespace |
| JsonTree.Get | observability/python_config/grafana_restore.py:80 | a lookup finds a value exactly when the key is present, namely the value of its first entry |
| JsonTree.GetOr | observability/python_config/grafana_restore.py:84 | `.get(k, default)` gives the default exactly when the key is absent |
| JsonTree.SetKey | observability/python_config/grafana_restore.py:164 | after `d[k] = v`, `k` maps to `v` and every other key keeps its value; an existing key is updated in its place, a new key is appended; assigning the current value changes nothing |
| JsonTree.PopKey | observability/python_config/grafana_restore.py:162-163 | after `d.pop(k, None)` the key is gone, every other key keeps its value, and a missing key changes nothing |
| JsonTree.PyIn | observability/python_config/grafana_backup.py:30 | `k in d` on a dict is key membership, on a list element membership of the string `k`, on a string a substring test; it raises on anything that is not a dict, list or string |
| JsonTree.PyGet | observability/python_config/grafana_backup.py:31 | `d[k]` succeeds exactly on a dict holding `k`, and then gives that key's value |
| JsonTree.DictGet | observability/python_config/grafana_restore.py:116 | `.get` succeeds exactly on a dict, and gives the value or the default |
| JsonTree.PyIter | observability/python_config/grafana_restore.py:38 | iterating a list gives its elements, a dict its keys, a string its characters; anything else raises |
| JsonTree.Strip | observability/python_config/grafana_restore.py:40 | `.strip()` succeeds exactly on a string and gives `Trim` of that string |
| JsonTree.MapOutcome | observability/python_config/grafana_restore.py:159-160 | a loop applying `f` to each element succeeds exactly when every step does, and then gives each step's result in order |
| JsonTree.MapOutcomePrefixFail | observability/python_config/grafana_restore.py:159-160 | once a prefix of the loop raised, the whole loop raised the same way |
| JsonTree.FoldOutcomePrefixFail | observability/python_config/grafana_restore.py:38-40 | once a prefix of an accumulating loop raised, the whole loop raised the same way |
| JsonTree.FlatMapOutcomePrefixFail | observability/python_config/grafana_backup.py:80-90 | once a prefix of an appending loop raised, the whole loop raised the same way |
| JsonTree.FlatMapOutcomeAppend | observability/python_config/grafana_backup.py:80-90 | an appending loop over `xs + ys` yields the output of `xs` followed by the output of `ys` |
| JsonTree.YieldsSnoc | observability/python_config/grafana_restore.py:38-40 | a value is produced by a list of records exactly when it is produced by the records before the last one or by the last one |
| JsonTree.FirstSomeAt | observability/python_config/grafana_restore.py:115-125 | in a scan that returns at the first hit (as over a panel's targets), an element that finds something after elements that found nothing decides the result |
| JsonTree.FirstSomeFound | observability/python_config/grafana_restore.py:115-125 | whatever the scan returns was found by some element, and every earlier element found nothing |
| JsonTree.FirstSomeNone | observability/python_config/grafana_restore.py:115-125 | the scan finds nothing exactly when every element was inspected and found nothing |
| JsonTree.MapOutcomeStep | observability/python_config/grafana_restore.py:159-160 | one more successful step of a per-element loop appends that step's result |
| JsonTree.FindAfterWrite | observability/python_config/grafana_backup.py:34-39 | assigning to a key the dict already holds (`panel["datasource"] = …`, `panel["panels"]` walked in place, and `item[key] = …` on the restore side) keeps every key at its position |
| JsonTree.MapOutcomeIdentity | observability/python_config/grafana_backup.py:38-39 | a loop whose every step returns its element unchanged returns the list unchanged |
| GrafanaRestore.StrippedField | observability/python_config/grafana_restore.py:84 | `value.get(k, "").strip()` is `""` for a missing key and the stripped string for a string value, and raises exactly on a non-string |
| GrafanaRestore.BackupLookup | observability/python_config/grafana_restore.py:86 | `backup_ds_mapping.get(uid, "").strip()`: the stripped table name for a uid in the table, `""` otherwise |
| GrafanaRestore.UidName | observability/python_config/grafana_restore.py:85-86 | the backup-table lookup gives a stripped name, and gives `""` when the reference has no `uid`; with a `uid` it raises exactly when the uid is not a string, and otherwise gives `BackupLookup` of the stripped uid: the stripped table name, or `""` for a uid the table lacks |
| GrafanaRestore.FirstNonEmpty | observability/python_config/grafana_restore.py:84-88 | the result is `""` exactly when all inputs are empty; otherwise it is the first non-empty input |
| GrafanaRestore.CandidateName | observability/python_config/grafana_restore.py:84-88 | a non-string `name` raises; every candidate is stripped |
| GrafanaRestore.CandidateIsFirstNonEmpty | observability/python_config/grafana_restore.py:84-88 | a computed candidate is the first non-empty one of the stripped `name`, the backup name for the stripped `uid`, and the stripped `type`; the lookup raises exactly when a source it reaches (the name always, the uid only after an empty name, the type only after an empty uid name) is present and not a string, so a `type` of any kind is harmless once the name or uid gives a candidate |
| GrafanaRestore.Choose | observability/python_config/grafana_restore.py:90-101 | a candidate on the target is kept verbatim; otherwise a string mapping for it, stripped, is used exactly when that stripped name is on the target, and the default otherwise; an unmapped candidate gets the default; it raises exactly on a non-string mapping of a candidate not on the target; every result is the built-in name, a target name or the default |
| GrafanaRestore.Resolve | observability/python_config/grafana_restore.py:78-101 | a reference whose stripped `uid` is `"-- Grafana --"` becomes that string whatever else it holds; every result is closed (built-in, a target name, or the default); a non-string uid raises; any other reference raises exactly as `CandidateName` raises, and otherwise gets `Choose` of its candidate name |
| GrafanaRestore.ResolveTotal | observability/python_config/grafana_restore.py:80-101 | resolution cannot raise when the reference's uid, name and type are strings or absent and every mapping is a string |
| GrafanaRestore.Remap | observability/python_config/grafana_restore.py:75-107 | the pass keeps dicts as dicts and non-dicts as non-dicts |
| GrafanaRestore.RemapEntriesPrefixFail | observability/python_config/grafana_restore.py:76-104 | once the walk over a prefix of a dict's entries raised, the walk over the dict raised the same way |
| GrafanaRestore.RemapElemsPrefixFail | observability/python_config/grafana_restore.py:105-107 | once the walk over a prefix of a list raised, the walk over the list raised the same way |
| GrafanaRestore.UpdateDatasourceReferencesTarget | observability/python_config/grafana_restore.py:59-107 | the recursive in-place walk computes exactly the tree `Remap` specifies, and stops at the first exception |
| GrafanaRestore.UpdateEntries | observability/python_config/grafana_restore.py:76-104 | the loop over a dict's items rewrites each entry in order, as `RemapEntries` specifies, stopping at the first exception |
| GrafanaRestore.UpdateEntry | observability/python_config/grafana_restore.py:77-104 | one entry: a `datasource` dict is resolved, any other `datasource` value is kept, and any other key's value is walked, as `RemapEntry` specifies |
| GrafanaRestore.UpdateElems | observability/python_config/grafana_restore.py:105-107 | the loop over a list walks each element in order, as `RemapElems` specifies |
| GrafanaRestore.RemapSound | observability/python_config/grafana_restore.py:75-107 | a successful pass yields the input with every reachable object `datasource` resolved; non-object `datasource` values and the insides of resolved objects are kept, and every other value is walked |
| GrafanaRestore.RemapComplete | observability/python_config/grafana_restore.py:75-107 | every tree related to the input that way is what the pass yields |
| GrafanaRestore.RemapEntrySound | observability/python_config/grafana_restore.py:77-104 | one dict entry: a `datasource` object is resolved, a non-object `datasource` value is kept, and any other value is walked |
| GrafanaRestore.RemapEntryComplete | observability/python_config/grafana_restore.py:77-104 | the converse for one dict entry |
| GrafanaRestore.RemapEntriesSound | observability/python_config/grafana_restore.py:76-104 | the walk over a dict's entries transforms each entry as above, keeping count and order |
| GrafanaRestore.RemapEntriesComplete | observability/python_config/grafana_restore.py:76-104 | the converse for a dict's entries |
| GrafanaRestore.RemapElemsSound | observability/python_config/grafana_restore.py:105-107 | the walk over a list transforms each element, keeping the length |
| GrafanaRestore.RemapElemsComplete | observability/python_config/grafana_restore.py:105-107 | the converse for a list |
| GrafanaRestore.RemapCharacterization | observability/python_config/grafana_restore.py:75-107 | the pass yields `b` if and only if `b` is the input with its reachable object references resolved |
| GrafanaRestore.RemappedFromKeepsSkeleton | observability/python_config/grafana_restore.py:75-107 | the pass keeps the key set and key order of every dict and the length of every list; only values under `datasource` keys change |
| GrafanaRestore.ResolvedIsNoObject | observability/python_config/grafana_restore.py:80-101 | a resolved reference is never an object unless the default is one |
| GrafanaRestore.RemappedFromResolvesAll | observability/python_config/grafana_restore.py:75-107 | after the pass no reachable `datasource` holds an object, unless the default is one |
| GrafanaRestore.NoObjectRefsRemapsToItself | observability/python_config/grafana_restore.py:73-78 | a tree whose reachable `datasource` values are all non-objects is its own remapping; strings, including `""`, are left alone |
| GrafanaRestore.RemapIdempotent | observability/python_config/grafana_restore.py:75-107 | remapping a remapped tree changes nothing |
| GrafanaRestore.RemapTotal | observability/python_config/grafana_restore.py:75-107 | the pass cannot raise when every reference it resolves has string-or-absent uid, name and type and every mapping is a string |
| GrafanaRestore.RemapEntriesTotal | observability/python_config/grafana_restore.py:76-104 | the same for a dict's entries |
| GrafanaRestore.RemapElemsTotal | observability/python_config/grafana_restore.py:105-107 | the same for a list |
| GrafanaRestore.TargetOffer | observability/python_config/grafana_restore.py:116-125 | a target offers its non-empty string `datasource` as is, or exactly the non-empty stripped `name` of an object `datasource`; an object without `name`, and any other `datasource`, offers nothing; it raises exactly on a non-dict target or an object datasource whose `name` is present and not a string; an offer is never empty |
| GrafanaRestore.FirstOfferNonEmpty | observability/python_config/grafana_restore.py:117-124 | a picked name is never empty |
| GrafanaRestore.Backfill | observability/python_config/grafana_restore.py:114-125 | a dict panel whose `datasource` is not `""`, or which has no `targets`, is returned unchanged without raising; so is one whose targets offer nothing; for a repairable panel it raises exactly when iterating `targets` or scanning them raises; a non-dict panel is returned unchanged when it does not contain `"datasource"` and raises otherwise; a panel changes only if it is a dict whose `datasource` is `""` and which has `targets` |
| GrafanaRestore.BackfillSetsFirstOffer | observability/python_config/grafana_restore.py:114-125 | such a panel gets the first offered name as its `datasource` and nothing else changes; a panel that changes is exactly such a panel; if the scan completes and no target offers a name, the panel is returned unchanged without raising |
| GrafanaRestore.FixPanelDatasource | observability/python_config/grafana_restore.py:109-125 | the scanning loop with its early return computes exactly `Backfill` |
| GrafanaRestore.AddBackupRecord | observability/python_config/grafana_restore.py:39-40 | a record with string `uid` and `name` sets stripped uid → stripped name, overwriting; a dict missing either key is skipped; a dict holding both raises exactly when either is not a string; a list or string raises exactly when it holds both `"uid"` and `"name"`, and is skipped otherwise; any other value raises |
| GrafanaRestore.BackupNamesKeys | observability/python_config/grafana_restore.py:38-40 | the table's keys are exactly the stripped uids of the records holding both `uid` and `name` |
| GrafanaRestore.AddBackupRecordKeeps | observability/python_config/grafana_restore.py:40 | a record naming another uid leaves this uid's entry alone |
| GrafanaRestore.BackupNamesLastWins | observability/python_config/grafana_restore.py:38-40 | each uid maps to the stripped name of the last record that names it |
| GrafanaRestore.LoadBackupDsMapping | observability/python_config/grafana_restore.py:28-41 | loading the backup file gives exactly `BackupMapping`; a missing file gives the empty table |
| GrafanaRestore.CollectBackupNames | observability/python_config/grafana_restore.py:38-40 | the loop over the records builds exactly the table `BackupNames` folds up, stopping at the first exception |
| GrafanaRestore.AddTargetName | observability/python_config/grafana_restore.py:55-56 | a record with a string `name` adds its stripped name; a dict without `name` is skipped; a dict with a non-string `name` raises; a list or string raises exactly when it holds `"name"`; any other value raises |
| GrafanaRestore.TargetNamesContents | observability/python_config/grafana_restore.py:53-56 | the set holds exactly the stripped names of the records that have `name` |
| GrafanaRestore.FetchTargetDatasources | observability/python_config/grafana_restore.py:43-57 | the fetch gives exactly `TargetSet`, which exits with status 1 on any status but 200 |
| GrafanaRestore.CollectTargetNames | observability/python_config/grafana_restore.py:53-56 | the loop over the records builds exactly the set `TargetNames` folds up, stopping at the first exception |
| GrafanaRestore.ResetIdentity | observability/python_config/grafana_restore.py:162-164 | the dashboard ends with no `id`, no `uid` and `version` 0; every other key keeps its value |
| GrafanaRestore.BackfillTopPanels | observability/python_config/grafana_restore.py:158-160 | a list `panels` is replaced by its elements back-filled one by one, and the whole fails exactly when one panel's back-fill fails; a dashboard without a list `panels` is unchanged; no key but `panels` changes |
| GrafanaRestore.PrepareDashboard | observability/python_config/grafana_restore.py:150-164 | an entry is skipped exactly when it is a dict whose `dashboard` is missing or falsy; a non-dict entry raises; an entry with a truthy `dashboard` is prepared exactly when that dashboard is a dict whose remap and top-level back-fill both succeed; every prepared dashboard has no `id` or `uid` and `version` 0, and every other key holds what the remapped, back-filled dashboard holds |
| GrafanaRestore.RestoreAllPrefixStop | observability/python_config/grafana_restore.py:149-174 | once the loop over a prefix of the entries stopped on an exception, the whole run is that prefix's run |
| GrafanaRestore.FixPanels | observability/python_config/grafana_restore.py:159-160 | the panel loop back-fills each panel in order and stops at the first exception |
| GrafanaRestore.FixTopPanels | observability/python_config/grafana_restore.py:158-160 | the panel loop runs only when `panels` is a list, as `BackfillTopPanels` says |
| GrafanaRestore.PrepareForRestore | observability/python_config/grafana_restore.py:150-164 | the per-entry steps (remap, back-fill, identity reset) compute exactly `PrepareDashboard` |
| GrafanaRestore.RestoreDashboards | observability/python_config/grafana_restore.py:142-174 | the restore posts exactly the payloads `RestoreFile` lists and stops as it says; a missing file exits with status 1 before posting |
| GrafanaRestore.RestoreEach | observability/python_config/grafana_restore.py:149-174 | the loop over the entries posts exactly the payloads `RestoreAll` lists, stopping at the first exception with the earlier posts kept |
| GrafanaRestore.RestoreAllPostsResetDashboards | observability/python_config/grafana_restore.py:162-170 | every posted payload is `{dashboard, folderId: 0, overwrite: false}` around a dashboard with no `id`, no `uid` and `version` 0 |
| GrafanaRestore.RestoreAllCompleteRunDicts | observability/python_config/grafana_restore.py:149-153 | a run that nothing stopped met only dict entries |
| GrafanaRestore.RestoreAllCompleteRunCount | observability/python_config/grafana_restore.py:149-153 | a run that nothing stopped posted exactly one payload per entry with a truthy `dashboard`; skipped entries do not end the loop |
| GrafanaRestore.RestoreAllStopsAtFirstFailure | observability/python_config/grafana_restore.py:149-174 | a stopped run posted exactly what the entries before the failing one posted, and the failing entry's preparation raised that exception |
| GrafanaBackup.NameDatasource | observability/python_config/grafana_backup.py:30-35 | an object `datasource` becomes its `name`, or `""` without one, not stripped, in place; a string or absent `datasource` is kept; no other key changes |
| GrafanaBackup.NormalizePanel | observability/python_config/grafana_backup.py:28-39 | non-dict elements are ignored and dicts stay dicts; a dict's `datasource` ends up as `NameDatasource` sets it: an object becomes its `name` (or `""`), anything else is kept; a list `panels` becomes the walk of each nested panel, any other `panels` is kept, and every other key is kept |
| GrafanaBackup.NormalizeAll | observability/python_config/grafana_backup.py:38-39 | walking a panel list keeps its length and walks each element in its place |
| GrafanaBackup.UpdatePanel | observability/python_config/grafana_backup.py:28-39 | the recursive in-place `update_panel` computes exactly `NormalizePanel` |
| GrafanaBackup.UpdatePanelList | observability/python_config/grafana_backup.py:38-39 | the loop over a `panels` list computes exactly `NormalizeAll` |
| GrafanaBackup.FlatIsFixed | observability/python_config/grafana_backup.py:31-35 | a panel tree without object datasources is left unchanged |
| GrafanaBackup.AllFlatIsFixed | observability/python_config/grafana_backup.py:38-39 | the same for a panel list |
| GrafanaBackup.FlatByGet | observability/python_config/grafana_backup.py:30-37 | a dict whose `datasource` is not an object and whose nested panels are flat is itself flat |
| GrafanaBackup.NormalizeFlattens | observability/python_config/grafana_backup.py:28-39 | after the walk no visited panel holds an object datasource, provided every object datasource's `name` is not itself an object |
| GrafanaBackup.NormalizeAllFlattens | observability/python_config/grafana_backup.py:38-39 | the same for a panel list |
| GrafanaBackup.NormalizePanelIdempotent | observability/python_config/grafana_backup.py:31-35 | normalising a normalised panel tree changes nothing |
| GrafanaBackup.NormalizeKeepsSkeleton | observability/python_config/grafana_backup.py:28-39 | once the `datasource` entry of every visited panel is blanked, the walked panel equals the original: every other key, its position and its value (`targets` included) are kept |
| GrafanaBackup.NormalizeAllKeepsSkeleton | observability/python_config/grafana_backup.py:38-39 | the same for a panel list: its length and every panel apart from the visited `datasource` entries are kept |
| GrafanaBackup.BlankWriteDatasource | observability/python_config/grafana_backup.py:33 | assigning any value to a panel's `datasource` changes nothing but that entry |
| GrafanaBackup.BlankWritePanels | observability/python_config/grafana_backup.py:37-39 | replacing a panel's `panels` list by one that differs only in visited `datasource` entries changes nothing else |
| GrafanaBackup.NormalizePanels | observability/python_config/grafana_backup.py:37-43 | the top-level (or row-level) `panels` walk succeeds exactly on a dict or on a list or string not containing `"panels"`; it keeps a dict a dict and leaves a non-dict alone; a following `"rows" in` test cannot raise; on a dict, a list `panels` becomes the walk of each of its panels, every other key is kept, and a dict without a list `panels` is returned as it is |
| GrafanaBackup.NormalizeRows | observability/python_config/grafana_backup.py:45-49 | on a dict, the `rows` walk succeeds exactly when every row of a list `rows` walks without raising, so always when every row is a dict; a non-dict succeeds exactly when it does not contain `"rows"` and is left alone; a dict stays a dict |
| GrafanaBackup.NormalizeDashboard | observability/python_config/grafana_backup.py:23-50 | a dict dashboard normalises exactly when its rows walk would, so always when every entry of a list `rows` is a dict; a non-dict normalises exactly when it contains neither `"panels"` nor `"rows"`; the dashboard stays a dict exactly when it was one; a list `panels` becomes the walk of each panel, a list `rows` becomes the panels walk of each row, and every other key is kept |
| GrafanaBackup.UpdateTopPanels | observability/python_config/grafana_backup.py:41-43 | the in-place loop computes exactly `NormalizePanels` |
| GrafanaBackup.UpdateDatasourceReferences | observability/python_config/grafana_backup.py:23-50 | the in-place passes over `panels` and `rows[].panels` compute exactly `NormalizeDashboard` |
| GrafanaBackup.NormalizePanelsKeepsSkeleton | observability/python_config/grafana_backup.py:41-43 | the walk of a dashboard's or row's `panels` changes nothing but the `datasource` entries of the panels it visits; every other key, position and value is kept |
| GrafanaBackup.NormalizeRowsKeepsSkeleton | observability/python_config/grafana_backup.py:45-49 | the walk of the `rows` changes nothing but the `datasource` entries of the panels it visits in each row |
| GrafanaBackup.BlankWriteRows | observability/python_config/grafana_backup.py:46-49 | replacing a dashboard's `rows` list by one that differs only in visited `datasource` entries changes nothing else |
| GrafanaBackup.NormalizeRowsWrites | observability/python_config/grafana_backup.py:45-49 | when `rows` is a list, the walk succeeds only if every row's walk does, and writes the walked rows into that same entry |
| GrafanaBackup.BlankPanelsKeys | observability/python_config/grafana_backup.py:41-43 | blanking the visited panels keeps a dashboard's keys in their order |
| GrafanaBackup.BlankPanelsKeepsRows | observability/python_config/grafana_backup.py:41-49 | the top-level panel walk leaves the `rows` entry where and as it is |
| GrafanaBackup.BlankPanelsWriteRows | observability/python_config/grafana_backup.py:41-49 | the rows pass and the top-level panel pass write different entries |
| GrafanaBackup.BlankPanelsWalkRows | observability/python_config/grafana_backup.py:41-49 | walking the rows commutes with blanking the top-level panels |
| GrafanaBackup.NormalizeDashboardKeepsSkeleton | observability/python_config/grafana_backup.py:23-50 | once the `datasource` entry of every panel the walk visits (top-level panels, panels of top-level rows, and their nested panels) is blanked, the normalised dashboard equals the original: every other key, its position and its value, `targets` included, are kept |
| GrafanaBackup.NormalizePanelsIdempotent | observability/python_config/grafana_backup.py:41-43 | walking the top-level panels twice equals walking them once |
| GrafanaBackup.NormalizePanelsSamePanels | observability/python_config/grafana_backup.py:41-43 | the walk depends only on the `panels` value |
| GrafanaBackup.NormalizeDashboardIdempotent | observability/python_config/grafana_backup.py:23-50 | normalising a normalised dashboard changes nothing |
| GrafanaBackup.NormalizeDashboardFlattens | observability/python_config/grafana_backup.py:23-50 | after the walk, no panel it reaches through `panels` or `rows[].panels`, at any depth, holds an object `datasource`, when no object datasource is named by an object |
| GrafanaBackup.NormalizePanelExample | observability/python_config/grafana_backup.py:30-35 | `{uid: "x", name: "Foo"}` becomes `"Foo"`, `{uid: "x"}` becomes `""`, and the string `"Bar"` is kept |
| GrafanaBackup.StripId | observability/python_config/grafana_backup.py:63 | `ds.pop("id", None)` succeeds exactly on a dict; the result has no `id`, and every other entry and key value is kept |
| GrafanaBackup.BackupDatasources | observability/python_config/grafana_backup.py:57-63 | a status other than 200 exits with 1; a 200 response is saved exactly when iterating its body yields only dicts, so always for a list of dict records; the backed-up list has the same length and order, and each record is a dict without `id` whose other fields are unchanged |
| GrafanaBackup.FetchDatasources | observability/python_config/grafana_backup.py:52-66 | the in-place loop computes exactly `BackupDatasources` |
| GrafanaBackup.UidOf | observability/python_config/grafana_backup.py:77 | a dict result contributes its `uid`, or nothing without one; only a dict can contribute; a non-dict result succeeds exactly when `'uid' in item` is false, so a list or string holding `"uid"` raises |
| GrafanaBackup.DashboardUidsContents | observability/python_config/grafana_backup.py:77 | the uid list holds exactly the `uid` values of the results that have one |
| GrafanaBackup.DashboardUidsInOrder | observability/python_config/grafana_backup.py:77 | the uid list of a split result list is the concatenation of the two parts' lists, so uids keep result order |
| GrafanaBackup.KeepFetched | observability/python_config/grafana_backup.py:83-90 | a non-200 response keeps nothing; a 200 response is kept exactly when its body does not contain `"dashboard"` or is a dict whose `dashboard` normalises, and then keeps one body; a body with `dashboard` has it normalised and keeps its other keys; a body without it is kept as is |
| GrafanaBackup.SaveFetched | observability/python_config/grafana_backup.py:83-90 | the loop body computes exactly `KeepFetched` |
| GrafanaBackup.FetchDashboards | observability/python_config/grafana_backup.py:68-93 | the backup computes exactly `BackupDashboards`: status check, uid list, then per-uid fetch |
| GrafanaBackup.FetchEach | observability/python_config/grafana_backup.py:80-90 | the loop over the uids keeps exactly the dashboards `KeptDashboards` lists, in uid order |
| GrafanaBackup.KeptDashboardsCount | observability/python_config/grafana_backup.py:80-90 | the number of kept dashboards is the number of uids fetched with status 200 |
| GrafanaBackup.KeptDashboardsInOrder | observability/python_config/grafana_backup.py:80-90 | the kept dashboards of a split uid list are the first part's followed by the second's, so uid order is kept |

## Left out

- All HTTP requests, file reads and writes, `os.chdir`, config loading and every
  `print`. Responses and files are parameters. Messages and warnings are dropped.
- How `response.json()` and `json.load` fail on malformed text. Parsing is outside
  the model, and bodies arrive already parsed.
- The status of each restore post (lines 170-174). That status only selects a
  message, so the model records every payload as posted. A post that raises a
  network error is not modelled.
- `restore_datasources` (lines 127-140) and `main`. They are a post loop and
  wiring with no transformation of their own.
- The other scripts in the directory: `mqtt_init.py`, `grafana_init.py`,
  `influxdb_init.py`, `grafana_datasource_health.py`,
  `grafana_mqtt_datasource.py`, `grafana_dashboard.py` and `visual_config.py`.
  They are I/O and process glue.
- Floating-point numbers. `JNum` holds an integer. The only numeric test in the
  core is the truthiness of an entry's `dashboard` (`Truthy`: zero is false),
  which an integer captures for every number but a non-zero float below one,
  not representable here.
- Shapes of `datasourceMapping` other than a dict. The script only applies `in`
  and `[]` to it; `RestoreConfig.mappingConfig` is a map from names to JSON
  values, so a list or string mapping, where `in` tests membership and `[]`
  raises, is not represented.
- Exception kinds. `KeyError`, `TypeError` and `AttributeError` are all `Raised`;
  only `sys.exit(1)` is kept distinct.
- Update in place and aliasing. The scripts mutate the parsed tree. The model
  computes a new tree. After `item[key] = default_ds` one object default can be
  shared by several references, but no later step mutates a `datasource` value
  in place, so the new tree is what the mutated one holds.
- Objects with duplicate keys. Parsed JSON objects have unique keys. On a
  sequence with duplicates, lookup and assignment use the first entry.
- Python dict iteration order while the restore pass assigns. Assignment to an
  existing key does not reorder a dict, so the model walks entries in order.
- GrafanaBackup.NormalizeFlattens: it needs each object datasource's `name` not
  to be an object itself. Without that, the copied `name` is again an object
  datasource, which the script leaves in place.
- GrafanaBackup.NormalizePanelIdempotent: it needs the same condition on `name`. Without it, a second walk would rewrite the copied object.
- GrafanaBackup.NormalizePanelsIdempotent: it needs the same condition on `name`.
- GrafanaBackup.NormalizeDashboardIdempotent: it needs the same condition on `name`.
- GrafanaBackup.NormalizeDashboardFlattens: it needs the same condition on `name`.
- GrafanaRestore.RemapIdempotent: it needs the default datasource not to be an
  object. An object default would be resolved again on a second pass.
- GrafanaBackup.NormalizeRows: it states no exception kind for its failures,
  because those come through the generic list loop.
