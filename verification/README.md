# Genie services SDK core, modelled in Dafny

This project models a few parts of the Genie services Android SDK, written in Java:

- **Content records** (`content_model.dfy`). A `ContentRecord` is the database row of one piece of
  content. The model covers how it is built from server or local JSON data and read back from a row.
  It also covers the columns it writes, its derived timestamps, its search-index source, its child and
  prerequisite identifiers, and its setters.
- **Configuration service** (`config_service.dfy`). Master data, resource bundles and ordinals are
  served from local tables. Each dataset has an expiry time kept in a key-value store. The first read
  seeds the tables from a bundled file. A read after expiry refreshes them from the server. The model
  covers the gate deciding this, the ttl-based expiry arithmetic, the upsert of a fetched payload and
  the read responses, including NO_DATA_FOUND.
- **Profile export cleanup** (`export_cleanup.dfy`). Before an exported profile database is shipped, it
  drops every table outside a fixed list. It keeps only the requested users' profiles and users. It
  deletes learner assessment and summary rows whose uid is outside a quoted `NOT IN` list. The model
  states the resulting snapshot as a function and proves the deleting methods against it.
- **Export chains** (`export_chain.dfy`). The export steps form a chain of responsibility:
  `CreateTempLoc`, `CleanupExportedFile` and other links. Each link either answers or forwards to the
  next link, and a link with no successor fails with EXPORT_FAILED. The model gives the chain's
  semantics as a function (`Run`), with imperative linked `Link` objects proved to compute it.
- **Request builders** (`requests.dfy`). These are the builders of `ContentImportRequest`,
  `ProfileExportRequest` and `ProfileVisibilityRequest`. Each builder's argument checks and `build()`
  checks are modelled, with exceptions as values.
- **Telemetry END event** (`telemetry_end.dfy`). This is the builder of the END event and its `edata`
  normalisation.

`common.dfy` holds the shared JSON value type, the response and exception types, and the null-or-empty
helpers.

## Model

| member | source | states |
|---|---|---|
| ContentModel.ContentRecord.Empty | content-services-lib/src/main/java/org/ekstep/genieservices/content/db/model/ContentModel.java:118-120 | `build()` yields a record with every field unset: id -1, no maps or strings, refCount 1 |
| ContentModel.ContentRecord.ForIdentifier | content-services-lib/src/main/java/org/ekstep/genieservices/content/db/model/ContentModel.java:70-73 | the record `find` reads into carries only the identifier: id -1, ref count 1, every other field null, 0 or false |
| ContentModel.ContentRecord.Build | content-services-lib/src/main/java/org/ekstep/genieservices/content/db/model/ContentModel.java:75-105 | null data leaves every field unset; otherwise refCount starts at 1, id, path, state and times are unset, and the received map is taken in as `Hydrated` describes |
| ContentModel.ContentRecord.Hydrate | content-services-lib/src/main/java/org/ekstep/genieservices/content/db/model/ContentModel.java:82-104 | the received map becomes local data together with the manifest version, or server data, and the attributes are read from it |
| ContentModel.ContentRecord.ReadAttributes | content-services-lib/src/main/java/org/ekstep/genieservices/content/db/model/ContentModel.java:89-104 | identifier and mime type are read when present; `contentType` is present iff the key holds a string and is then the lower-cased string; visibility defaults to DEFAULT only when the key is absent |
| ContentModel.Find | content-services-lib/src/main/java/org/ekstep/genieservices/content/db/model/ContentModel.java:107-116 | null exactly when no row is stored under the identifier or the read leaves id -1; otherwise the record holds every column the read loads (id, identifier, both data maps, mime type, path, visibility, ref count, state, content type, local update time) and the external flag recomputed from the path, while the manifest version stays null and the file time 0, as the read does not load them |
| ContentModel.ContentRecord.ReadWithoutMoving | content-services-lib/src/main/java/org/ekstep/genieservices/content/db/model/ContentModel.java:327-344 | every stored column is loaded and the external-content flag is recomputed from the path; manifest version and file time are kept |
| ContentModel.ContentRecord.ReadContentColumns | content-services-lib/src/main/java/org/ekstep/genieservices/content/db/model/ContentModel.java:328-333 | id, identifier, server and local data, mime type and path are the row's |
| ContentModel.ContentRecord.ReadStateColumns | content-services-lib/src/main/java/org/ekstep/genieservices/content/db/model/ContentModel.java:334-340 | visibility, ref count, state, content type and local update time are the row's; the external-content flag is recomputed from the row's path |
| ContentModel.ContentRecord.AddOrUpdateRefCount | content-services-lib/src/main/java/org/ekstep/genieservices/content/db/model/ContentModel.java:407-412 | the stored reference count is `max(n, 0)`, never negative |
| ContentModel.ContentRecord.AddOrUpdateContentState | content-services-lib/src/main/java/org/ekstep/genieservices/content/db/model/ContentModel.java:446-448 | the content state becomes the given value |
| ContentModel.ContentRecord.SetVisibility | content-services-lib/src/main/java/org/ekstep/genieservices/content/db/model/ContentModel.java:438-440 | the visibility becomes the given value, null included |
| ContentModel.ContentRecord.SetFileLastModified | content-services-lib/src/main/java/org/ekstep/genieservices/content/db/model/ContentModel.java:462-464 | the file's modification time becomes the given value |
| ContentModel.ContentRecord.UpdateId | content-services-lib/src/main/java/org/ekstep/genieservices/content/db/model/ContentModel.java:193-196 | the row id becomes the one the insert produced |
| ContentModel.ContentRecord.Clean | content-services-lib/src/main/java/org/ekstep/genieservices/content/db/model/ContentModel.java:234-237 | the row id is reset to -1 |
| ContentModel.IsExternalContent | content-services-lib/src/main/java/org/ekstep/genieservices/content/db/model/ContentModel.java:346-348 | true iff the path is non-null, non-empty and the extracted-archive folder name occurs in it at some index |
| ContentModel.ContainsAt | content-services-lib/src/main/java/org/ekstep/genieservices/content/db/model/ContentModel.java:346-348 | the recursive `contains` holds exactly when the part occurs at some index of the string |
| ContentModel.ToLower | content-services-lib/src/main/java/org/ekstep/genieservices/content/db/model/ContentModel.java:97-102 | the lower-cased content type keeps its length, maps each upper-case ASCII letter to its lower-case letter, leaves every other character as it was and has no upper-case ASCII letter |
| ContentModel.ToLowerIdempotent | content-services-lib/src/main/java/org/ekstep/genieservices/content/db/model/ContentModel.java:97-102 | lower-casing a stored content type again changes nothing |
| ContentModel.ContentRecord.SearchIndexSource | content-services-lib/src/main/java/org/ekstep/genieservices/content/db/model/ContentModel.java:389-401 | for the application mime type the index comes only from server data (none without it, even with local data); otherwise local data wins over server data; none iff neither applies |
| ContentModel.ContentRecord.LocalLastUpdatedOn | content-services-lib/src/main/java/org/ekstep/genieservices/content/db/model/ContentModel.java:362-376 | external content takes the file's modification time; other content with local data takes the current time; null iff neither |
| ContentModel.ContentRecord.ServerLastUpdatedOn | content-services-lib/src/main/java/org/ekstep/genieservices/content/db/model/ContentModel.java:378-382 | the server data's `lastUpdatedOn` string, null without server data or without that entry |
| ContentModel.ContentRecord.IdentifiersUnder | content-services-lib/src/main/java/org/ekstep/genieservices/content/db/model/ContentModel.java:141-169 | one identifier per listed child object, in list order, each rendered as `String.valueOf` renders it, a missing identifier as "null" |
| Common.Render | content-services-lib/src/main/java/org/ekstep/genieservices/content/db/model/ContentModel.java:146 | `String.valueOf` of a decoded value: a string is itself, null is "null", a list is bracketed |
| Common.DigitsRoundTrip | content-services-lib/src/main/java/org/ekstep/genieservices/content/db/model/ContentModel.java:146 | the decimal digits a number is printed with read back as that number |
| Common.NumberRendering | content-services-lib/src/main/java/org/ekstep/genieservices/content/db/model/ContentModel.java:146 | a number Gson decoded to a Double below ten million prints as its sign, its digits and ".0", and reads back as that number |
| ContentModel.ContentRecord.GetChildContentsIdentifiers | content-services-lib/src/main/java/org/ekstep/genieservices/content/db/model/ContentModel.java:158-169 | one identifier per entry of `children`, in order |
| ContentModel.ContentRecord.HasChildren | content-services-lib/src/main/java/org/ekstep/genieservices/content/db/model/ContentModel.java:154-156 | true iff local data exists and has a `children` entry that is not null |
| ContentModel.ContentRecord.HasPreRequisites | content-services-lib/src/main/java/org/ekstep/genieservices/content/db/model/ContentModel.java:137-139 | true iff local data exists and has a `pre_requisites` entry that is not null |
| ContentModel.ContentRecord.GetPreRequisitesIdentifiers | content-services-lib/src/main/java/org/ekstep/genieservices/content/db/model/ContentModel.java:141-152 | one identifier per entry of `pre_requisites`, in order |
| ContentModel.ContentRecord.GetContentValues | content-services-lib/src/main/java/org/ekstep/genieservices/content/db/model/ContentModel.java:171-227 | each nullable column of the content row is present iff its value is non-null (local time, server time and search index included) and then holds that value; refCount and contentState are always present |
| ContentModel.With | content-services-lib/src/main/java/org/ekstep/genieservices/content/db/model/ContentModel.java:350-360 | a null value leaves the column as it was; a non-null value is put |
| ConfigService.Gate | config-services-lib/src/main/java/org/ekstep/genieservices/config/ConfigServiceImpl.java:56-60 | expiry 0 seeds and refreshes; otherwise a refresh starts iff `now > expiry`, strictly, so a read at the expiry instant only serves |
| ConfigService.WithExpiration | config-services-lib/src/main/java/org/ekstep/genieservices/config/ConfigServiceImpl.java:265-273 | with a ttl the expiry key becomes `ttl * MILLISECONDS_IN_AN_HOUR + now`; without one the store is unchanged; other keys never change |
| ConfigService.Extract | config-services-lib/src/main/java/org/ekstep/genieservices/config/ConfigServiceImpl.java:89-106 | master data: every `result` entry but `ttl` becomes a row, ttl from `result`; resource bundles: only when `result.resourcebundles` is present, ttl from `result`; ordinals: one row under `ordinals_key`, ttl from the top level |
| ConfigService.SavedTable | config-services-lib/src/main/java/org/ekstep/genieservices/config/ConfigServiceImpl.java:96-104 | a save upserts by key: the keys afterwards are the old keys plus the payload's; payload keys take the payload's value, rows for all other keys are untouched |
| ConfigService.HasExpired | config-services-lib/src/main/java/org/ekstep/genieservices/config/ConfigServiceImpl.java:275-279 | the comparison is strict: at the expiry instant the data has not expired, one millisecond later it has |
| ConfigService.ExpiredStaysExpired | config-services-lib/src/main/java/org/ekstep/genieservices/config/ConfigServiceImpl.java:275-279 | once expired, data stays expired at every later time |
| ConfigService.ReadMasterData | config-services-lib/src/main/java/org/ekstep/genieservices/config/ConfigServiceImpl.java:64-78 | success with the stored value iff a row exists for the type, else NO_DATA_FOUND |
| ConfigService.ReadResourceBundle | config-services-lib/src/main/java/org/ekstep/genieservices/config/ConfigServiceImpl.java:132-149 | success with a one-entry map from the language to its bundle iff a row exists, else NO_DATA_FOUND |
| ConfigService.ReadOrdinals | config-services-lib/src/main/java/org/ekstep/genieservices/config/ConfigServiceImpl.java:211-223 | success with the stored ordinals object iff the `ordinals_key` row holds one, else NO_DATA_FOUND |
| ConfigService.SaveKeepsOtherReads | config-services-lib/src/main/java/org/ekstep/genieservices/config/ConfigServiceImpl.java:96-104 | a save never changes what a read of a key outside the payload returns |
| ConfigService.FreshUntilExpiry | config-services-lib/src/main/java/org/ekstep/genieservices/config/ConfigServiceImpl.java:265-279 | after a save with a ttl, reads up to the new expiry only serve and the first read after it refreshes |
| ConfigService.ConfigStore.SaveDataExpirationTime | config-services-lib/src/main/java/org/ekstep/genieservices/config/ConfigServiceImpl.java:265-273 | the key-value store becomes `WithExpiration` of the old store |
| ConfigService.ConfigStore.PutRow | config-services-lib/src/main/java/org/ekstep/genieservices/config/ConfigServiceImpl.java:97-103 | one row is updated or inserted; the other datasets' tables are untouched |
| ConfigService.ConfigStore.Upsert | config-services-lib/src/main/java/org/ekstep/genieservices/config/ConfigServiceImpl.java:96-104 | after the loop over the payload keys the table is the old table overridden by the payload |
| ConfigService.ConfigStore.Save | config-services-lib/src/main/java/org/ekstep/genieservices/config/ConfigServiceImpl.java:89-106 | the expiry store and the dataset's table become the saved ones; the other tables are untouched |
| ConfigService.ConfigStore.Refresh | config-services-lib/src/main/java/org/ekstep/genieservices/config/ConfigServiceImpl.java:108-120 | a failed fetch changes nothing; a successful one saves the fetched payload |
| ConfigService.ConfigStore.Seed | config-services-lib/src/main/java/org/ekstep/genieservices/config/ConfigServiceImpl.java:81-87 | a missing or empty bundled file changes nothing; otherwise its content is saved |
| ConfigService.ConfigStore.Get | config-services-lib/src/main/java/org/ekstep/genieservices/config/ConfigServiceImpl.java:50-79 | a refresh runs iff the gate says so; the response is read from the persisted tables (the seeded ones on first use), never from the refresh; an expired read with a failed fetch keeps data and expiry |
| ExportCleanup.ExclusionList | usermanagement-services-lib/src/main/java/org/ekstep/genieservices/profile/chained/export/CleanupExportedFile.java:86-96 | exactly meta, users, profiles, learner assessments and learner summary are excluded from dropping |
| ExportCleanup.Dropped | usermanagement-services-lib/src/main/java/org/ekstep/genieservices/profile/chained/export/CleanupExportedFile.java:98-106 | only tables in the exclusion list remain, and those are untouched |
| ExportCleanup.First | usermanagement-services-lib/src/main/java/org/ekstep/genieservices/profile/chained/export/CleanupExportedFile.java:112-122 | the row a uid lookup finds is stored with that uid; none iff no row has it |
| ExportCleanup.Rebuilt | usermanagement-services-lib/src/main/java/org/ekstep/genieservices/profile/chained/export/CleanupExportedFile.java:132-135 | each re-inserted user row keeps its uid and nothing else, in order |
| ExportCleanup.WithUids | usermanagement-services-lib/src/main/java/org/ekstep/genieservices/profile/chained/export/CleanupExportedFile.java:143-156 | a row survives the `NOT IN` delete iff its uid is in the list |
| ExportCleanup.Pruned | usermanagement-services-lib/src/main/java/org/ekstep/genieservices/profile/chained/export/CleanupExportedFile.java:40-48 | after pruning only the excluded tables exist and the four row-filtered tables are still present |
| ExportCleanup.FirstInRetained | usermanagement-services-lib/src/main/java/org/ekstep/genieservices/profile/chained/export/CleanupExportedFile.java:108-136 | in the rebuilt table a requested uid finds the row it found before and any other uid finds nothing |
| ExportCleanup.InRetained | usermanagement-services-lib/src/main/java/org/ekstep/genieservices/profile/chained/export/CleanupExportedFile.java:108-136 | a row is re-inserted iff its uid was requested and it is the row the lookup found |
| ExportCleanup.RetainedExactly | usermanagement-services-lib/src/main/java/org/ekstep/genieservices/profile/chained/export/CleanupExportedFile.java:108-136 | with unique uids, the rebuilt table holds exactly the earlier rows whose uid was requested |
| ExportCleanup.RetainedIdempotent | usermanagement-services-lib/src/main/java/org/ekstep/genieservices/profile/chained/export/CleanupExportedFile.java:108-136 | rebuilding twice with the same ids gives the rows of rebuilding once |
| ExportCleanup.RetainedRebuilt | usermanagement-services-lib/src/main/java/org/ekstep/genieservices/profile/chained/export/CleanupExportedFile.java:127-135 | reducing user rows to their uid commutes with retention |
| ExportCleanup.WithUidsIdempotent | usermanagement-services-lib/src/main/java/org/ekstep/genieservices/profile/chained/export/CleanupExportedFile.java:143-156 | the `NOT IN` delete run twice removes nothing more |
| ExportCleanup.LiteralsOfQuotedList | usermanagement-services-lib/src/main/java/org/ekstep/genieservices/profile/chained/export/CleanupExportedFile.java:147-149 | the quoted, comma-joined list denotes exactly the requested ids, or the single empty string when none were requested |
| ExportCleanup.SummaryRowsKept | usermanagement-services-lib/src/main/java/org/ekstep/genieservices/profile/chained/export/CleanupExportedFile.java:143-156 | an assessment or summary row survives iff its uid was requested (with no ids, iff its uid is empty) |
| ExportCleanup.PrunedTables | usermanagement-services-lib/src/main/java/org/ekstep/genieservices/profile/chained/export/CleanupExportedFile.java:40-48 | after pruning, profiles hold the retained rows, users the retained users rebuilt from their uid, the two learner tables the rows whose uid is in the quoted id list, and every other kept table is as it was |
| ExportCleanup.RebuiltRetainedExactly | usermanagement-services-lib/src/main/java/org/ekstep/genieservices/profile/chained/export/CleanupExportedFile.java:127-135 | with unique uids, the re-inserted users are exactly the requested users reduced to their uid |
| ExportCleanup.Retained | usermanagement-services-lib/src/main/java/org/ekstep/genieservices/profile/chained/export/CleanupExportedFile.java:112-122 | at most one row per requested uid is collected, and every collected row is a stored row whose uid was requested |
| ExportCleanup.Join | usermanagement-services-lib/src/main/java/org/ekstep/genieservices/profile/chained/export/CleanupExportedFile.java:147 | a single id is joined as itself; quote-free ids give exactly two quotes per separator |
| ExportCleanup.QuotedList | usermanagement-services-lib/src/main/java/org/ekstep/genieservices/profile/chained/export/CleanupExportedFile.java:147 | the list starts and ends with a quote; quote-free ids give exactly two quotes per id, so each id becomes one literal |
| ExportCleanup.RetainedStep | usermanagement-services-lib/src/main/java/org/ekstep/genieservices/profile/chained/export/CleanupExportedFile.java:112-122 | one more requested uid appends the row found for it, or nothing when none is found |
| ExportCleanup.PrunedProfilesAndUsers | usermanagement-services-lib/src/main/java/org/ekstep/genieservices/profile/chained/export/CleanupExportedFile.java:108-136 | with unique uids, profiles hold exactly the requested users' earlier rows and users exactly the requested users, rebuilt from their uid |
| ExportCleanup.PrunedIdempotent | usermanagement-services-lib/src/main/java/org/ekstep/genieservices/profile/chained/export/CleanupExportedFile.java:45-48 | pruning a pruned snapshot with the same ids leaves the same tables and rows |
| ExportCleanup.SnapshotDb.AllTables | usermanagement-services-lib/src/main/java/org/ekstep/genieservices/profile/chained/export/CleanupExportedFile.java:72-84 | every table name, each once |
| ExportCleanup.SnapshotDb.RemoveTables | usermanagement-services-lib/src/main/java/org/ekstep/genieservices/profile/chained/export/CleanupExportedFile.java:98-106 | every listed table outside the exclusion list is dropped; all others stay as they were |
| ExportCleanup.SnapshotDb.CleanTable | usermanagement-services-lib/src/main/java/org/ekstep/genieservices/profile/chained/export/CleanupExportedFile.java:138-141 | the table is emptied and nothing else changes |
| ExportCleanup.SnapshotDb.SaveRow | usermanagement-services-lib/src/main/java/org/ekstep/genieservices/profile/chained/export/CleanupExportedFile.java:127-135 | one row is appended to the table |
| ExportCleanup.SnapshotDb.DeleteUnwantedProfilesAndUsers | usermanagement-services-lib/src/main/java/org/ekstep/genieservices/profile/chained/export/CleanupExportedFile.java:108-136 | profiles become the retained profile rows and users the retained users rebuilt from their uid; other tables are untouched |
| ExportCleanup.SnapshotDb.CollectRetained | usermanagement-services-lib/src/main/java/org/ekstep/genieservices/profile/chained/export/CleanupExportedFile.java:109-122 | the collected profiles and users are, for each requested uid in order, the first row with that uid, when there is one; nothing is changed |
| ExportCleanup.SnapshotDb.SaveProfiles | usermanagement-services-lib/src/main/java/org/ekstep/genieservices/profile/chained/export/CleanupExportedFile.java:127-130 | the retained profile rows are appended to the profiles table in order; nothing else changes |
| ExportCleanup.SnapshotDb.SaveUsers | usermanagement-services-lib/src/main/java/org/ekstep/genieservices/profile/chained/export/CleanupExportedFile.java:132-135 | each retained user is appended, rebuilt from its uid alone; nothing else changes |
| ExportCleanup.SnapshotDb.DeleteUnwantedProfileSummary | usermanagement-services-lib/src/main/java/org/ekstep/genieservices/profile/chained/export/CleanupExportedFile.java:143-156 | both learner tables lose the rows outside the list in one step; other tables are untouched |
| ExportCleanup.SnapshotDb.Prune | usermanagement-services-lib/src/main/java/org/ekstep/genieservices/profile/chained/export/CleanupExportedFile.java:40-48 | the snapshot becomes `Pruned` of the old snapshot |
| ExportChain.Dangling | content-services-lib/src/main/java/org/ekstep/genieservices/content/chained/export/CreateTempLoc.java:31-35 | a link with no next link fails with EXPORT_FAILED, its own tag and its fixed message: "Export content failed" for CreateTempLoc, "Export profile failed" for CleanupExportedFile |
| ExportChain.StepExec | usermanagement-services-lib/src/main/java/org/ekstep/genieservices/profile/chained/export/CleanupExportedFile.java:40-57 | each link logs itself once; a link removes a directory only if it is one of the paths that link deletes, so CreateTempLoc and CleanupExportedFile remove none; a snapshot whose rewritten tables exist keeps them |
| ExportChain.CreateTempLocStep | content-services-lib/src/main/java/org/ekstep/genieservices/content/chained/export/CreateTempLoc.java:23-29 | CreateTempLoc answers EXPORT_FAILED with the `mkdirs` message iff `mkdirs` throws; otherwise it forwards, with the temporary directory existing when `mkdirs` did its work and the directories unchanged when it returned false; files and snapshot are untouched |
| ExportChain.CleanupStep | usermanagement-services-lib/src/main/java/org/ekstep/genieservices/profile/chained/export/CleanupExportedFile.java:40-57 | CleanupExportedFile prunes the snapshot in every case, then answers EXPORT_FAILED with the message iff removing `<path>-journal` throws; otherwise it forwards, with that file gone when `delete` did its work and the files unchanged when it returned false |
| ExportChain.Drive | content-services-lib/src/main/java/org/ekstep/genieservices/content/chained/export/CreateTempLoc.java:23-36 | links run in chain order, each once, up to and including the first that answers: the run counts the links it executed, and the log holds exactly their tags |
| ExportChain.DriveFirst | content-services-lib/src/main/java/org/ekstep/genieservices/content/chained/export/CreateTempLoc.java:23-36 | an answering first link ends the run after one link; a forwarding one leaves the run to the remaining links, from the world it produced |
| ExportChain.DriveRemovesOnlyListed | content-services-lib/src/main/java/org/ekstep/genieservices/content/chained/export/CreateTempLoc.java:23-36 | the driver deletes nothing of its own: a directory gone after a run was deleted by one of the links that ran |
| ExportChain.Run | usermanagement-services-lib/src/main/java/org/ekstep/genieservices/profile/chained/export/CleanupExportedFile.java:59-63 | the chain's response is the first answer, or the last link's dangling failure; a directory is gone afterwards only if some link of the chain deletes it |
| ExportChain.ShortCircuit | usermanagement-services-lib/src/main/java/org/ekstep/genieservices/profile/chained/export/CleanupExportedFile.java:50-57 | links after an answering link are never run: appending links changes neither response nor effects |
| ExportChain.PassThrough | content-services-lib/src/main/java/org/ekstep/genieservices/content/chained/export/CreateTempLoc.java:31-32 | after links that all forward, the next link's outcome is returned unchanged: chains compose left to right |
| ExportChain.DanglingChain | usermanagement-services-lib/src/main/java/org/ekstep/genieservices/profile/chained/export/CleanupExportedFile.java:59-63 | a chain whose links all forward fails with EXPORT_FAILED from its last link, after running every link in order |
| ExportChain.TempLocationKept | content-services-lib/src/main/java/org/ekstep/genieservices/content/chained/export/CreateTempLoc.java:23-36 | the temp directory CreateTempLoc made is still there when the chain ends, however later links end, unless a later link that ran deletes it |
| ExportChain.TempLocationFailureStops | content-services-lib/src/main/java/org/ekstep/genieservices/content/chained/export/CreateTempLoc.java:24-29 | a failing mkdirs answers EXPORT_FAILED with its message and no further link runs |
| ExportChain.Link.Then | usermanagement-services-lib/src/main/java/org/ekstep/genieservices/profile/chained/export/CleanupExportedFile.java:66-70 | the next link is set to the argument, which is returned |
| ExportChain.Link.Execute | usermanagement-services-lib/src/main/java/org/ekstep/genieservices/profile/chained/export/CleanupExportedFile.java:40-64 | executing the first link of a chain yields exactly `Run` of the chain's steps |
| ExportChain.Assemble | content-services-lib/src/main/java/org/ekstep/genieservices/content/chained/export/CreateTempLoc.java:38-42 | `then` calls build a chain whose links carry the given steps in order |
| ExportChain.Prepend | content-services-lib/src/main/java/org/ekstep/genieservices/content/chained/export/CreateTempLoc.java:38-42 | `then` on a fresh link in front of a chain gives a chain whose steps are the new step followed by the old ones |
| Requests.ContentImportBuilder.ChildContent | commons-lib/src/main/java/org/ekstep/genieservices/commons/bean/ContentImportRequest.java:55-58 | the child-content flag becomes true |
| Requests.ContentImportBuilder.ToFolder | commons-lib/src/main/java/org/ekstep/genieservices/commons/bean/ContentImportRequest.java:63-69 | a null or empty folder throws IllegalArgumentException and changes nothing; otherwise the folder is stored |
| Requests.ContentImportBuilder.ContentIds | commons-lib/src/main/java/org/ekstep/genieservices/commons/bean/ContentImportRequest.java:74-77 | the ids are stored unchecked |
| Requests.ContentImportBuilder.CorrelationDataIs | commons-lib/src/main/java/org/ekstep/genieservices/commons/bean/ContentImportRequest.java:82-85 | the correlation data is stored unchecked |
| Requests.ContentImportBuilder.Build | commons-lib/src/main/java/org/ekstep/genieservices/commons/bean/ContentImportRequest.java:87-97 | succeeds iff the folder is non-empty and the id list non-empty, carrying exactly the builder's values; otherwise IllegalStateException with the folder checked first |
| Requests.ProfileExportBuilder.ExportUsers | commons-lib/src/main/java/org/ekstep/genieservices/commons/bean/ProfileExportRequest.java:35-38 | the user list is stored, null and empty included |
| Requests.ProfileExportBuilder.ToFolder | commons-lib/src/main/java/org/ekstep/genieservices/commons/bean/ProfileExportRequest.java:43-49 | a null or empty folder throws IllegalArgumentException and changes nothing; otherwise the folder is stored |
| Requests.ProfileExportBuilder.Build | commons-lib/src/main/java/org/ekstep/genieservices/commons/bean/ProfileExportRequest.java:51-56 | succeeds iff a folder was set, carrying the user list unchecked; otherwise IllegalStateException |
| Requests.ProfileVisibilityBuilder.ForUser | commons-lib/src/main/java/org/ekstep/genieservices/commons/bean/ProfileVisibilityRequest.java:46-53 | a null or empty id throws IllegalArgumentException and changes nothing; otherwise the id is stored |
| Requests.ProfileVisibilityBuilder.AddPrivateField | commons-lib/src/main/java/org/ekstep/genieservices/commons/bean/ProfileVisibilityRequest.java:56-68 | null throws and changes nothing; otherwise the field is appended, the list created if absent |
| Requests.ProfileVisibilityBuilder.AddPrivateFields | commons-lib/src/main/java/org/ekstep/genieservices/commons/bean/ProfileVisibilityRequest.java:70-84 | null throws and changes nothing; otherwise the fields are appended in order, the list created even for an empty argument |
| Requests.ProfileVisibilityBuilder.AddPublicField | commons-lib/src/main/java/org/ekstep/genieservices/commons/bean/ProfileVisibilityRequest.java:86-98 | null throws and changes nothing; otherwise the field is appended, the list created if absent |
| Requests.ProfileVisibilityBuilder.AddPublicFields | commons-lib/src/main/java/org/ekstep/genieservices/commons/bean/ProfileVisibilityRequest.java:100-114 | null throws and changes nothing; otherwise the fields are appended in order, the list created even for an empty argument |
| Requests.ProfileVisibilityBuilder.Build | commons-lib/src/main/java/org/ekstep/genieservices/commons/bean/ProfileVisibilityRequest.java:116-127 | succeeds iff a user is set and at least one list is non-empty; otherwise IllegalStateException, the user checked first |
| Requests.EmptyAddKeepsListEmpty | commons-lib/src/main/java/org/ekstep/genieservices/commons/bean/ProfileVisibilityRequest.java:121-123 | adding an empty list leaves a list that still counts as empty; adding one field makes it non-empty |
| TelemetryEnd.CreateEData | commons-lib/src/main/java/org/ekstep/genieservices/commons/bean/telemetry/End.java:25-32 | edata has exactly type, mode, duration, pageid and summary; type and duration pass through; mode and pageid are "" iff null or empty, else the input; summary is the entries in order, empty for a null or empty list |
| TelemetryEnd.NullAndEmptyAlike | commons-lib/src/main/java/org/ekstep/genieservices/commons/bean/telemetry/End.java:28-31 | a null and an empty mode, pageid or summary list give the same edata |
| TelemetryEnd.EDataRecoversInputs | commons-lib/src/main/java/org/ekstep/genieservices/commons/bean/telemetry/End.java:25-32 | reading edata back recovers every non-empty builder value |
| TelemetryEnd.EndBuilder.Type | commons-lib/src/main/java/org/ekstep/genieservices/commons/bean/telemetry/End.java:51-57 | a null or empty type throws IllegalArgumentException and changes nothing; otherwise it is stored |
| TelemetryEnd.EndBuilder.Mode | commons-lib/src/main/java/org/ekstep/genieservices/commons/bean/telemetry/End.java:62-65 | the mode is stored unchecked |
| TelemetryEnd.EndBuilder.Duration | commons-lib/src/main/java/org/ekstep/genieservices/commons/bean/telemetry/End.java:70-73 | the duration is stored |
| TelemetryEnd.EndBuilder.Pageid | commons-lib/src/main/java/org/ekstep/genieservices/commons/bean/telemetry/End.java:78-81 | the page id is stored unchecked |
| TelemetryEnd.EndBuilder.AddSummary | commons-lib/src/main/java/org/ekstep/genieservices/commons/bean/telemetry/End.java:86-94 | the list is created if absent; a non-null summary is appended, a null one adds nothing |
| TelemetryEnd.EndBuilder.Build | commons-lib/src/main/java/org/ekstep/genieservices/commons/bean/telemetry/End.java:96-102 | succeeds iff a type is set, with event id END and `CreateEData` of the builder's values; otherwise IllegalStateException |

## Left out

- Threads: the source refreshes configuration data on a background thread. The model runs that refresh synchronously, after the read that triggered it. So a read always serves the persisted copy, as it does when the thread has not yet finished.
- Time, the network and the bundled asset files are parameters: `now`, the fetched payload (`None` for a failed call) and the bundled file's content.
- The ttl in a fetched configuration payload is a JSON double in the source. The model reads it as a whole number of hours.
- Gson parsing and Java casts are not modelled. Where a cast would throw, the model states the well-formedness it needs as a precondition: `Saveable`, `StringEntries`, `IdentifierList` (each listed child is a map) and `ServerTimestampReadable`.
- ReadOrdinals: a missing `ordinals_key` row, or a stored value that is not a JSON object, gives NO_DATA_FOUND. The source dereferences the missing model, or its Gson call throws, so it ends in an exception. The missing row is reachable on first use when there is no bundled file and the fetch fails.
- ReadMasterData, ReadResourceBundle: a missing row gives NO_DATA_FOUND, where the source would dereference the missing model. `MasterDataModel`, `ResourceBundleModel` and `OrdinalsModel` are not part of this model; tables are maps from key to value.
- Telemetry logging of successes and failures (`TelemetryLogger`) is not modelled.
- ToLower: only ASCII letters are lower-cased; Java's locale-aware `toLowerCase` is not modelled.
- JSON serialisation of the data maps, date formatting of timestamps and the search-index text are abstracted: the model states which source each value comes from, not its rendering.
- `ContentValues` is a record with one optional slot per column of the content table rather than a string-keyed map; an absent slot is a column not put.
- `getFieldsToUpdate` writes exactly the columns `getContentValues` writes, so `GetContentValues` models both.
- SQL and the file system are abstracted: a database is a map from table name to rows, and files and directories are sets of paths.
- `UserProfileModel` and `UserModel` are not part of this model. A profile row is kept whole, and a user row is rebuilt from its uid alone.
- ExportCleanup.SnapshotDb.DeleteUnwantedProfilesAndUsers: duplicate ids in the request are outside what the model matches. The model re-inserts the found row once per occurrence, whereas in the source the second `save()` of the same row meets whatever constraint the table schema puts on uid, and may throw or be ignored; the schema is not part of this model. `RetainedExactly` and `PrunedProfilesAndUsers` assume unique uids in the stored rows.
- ContentModel.ContentRecord.GetChildContentsIdentifiers, ContentModel.ContentRecord.GetPreRequisitesIdentifiers: the model requires local data holding the list. On null local data or a missing or null list the source throws a NullPointerException; that exception path is not modelled.
- ExportChain.ExportContext: the user ids are a list, never null. A profile export request built without users carries a null list, and the source's loop over it in `deleteUnwantedProfilesAndUsers` then throws a NullPointerException; that path is not modelled.
- ContentModel.ContentRecord.IdentifiersUnder, ContentModel.ContentRecord.GetChildContentsIdentifiers, ContentModel.ContentRecord.GetPreRequisitesIdentifiers: a child whose identifier is itself a JSON object is excluded, because Java prints a map's entries in insertion order and the model's maps do not keep one. Whole numbers beyond 2^53 are printed from their exact digits, whereas the Double Gson decodes them to is rounded.
- ExportCleanup.Prunable: `Pruned`, `SnapshotDb.Prune`, `StepExec` and `CleanupStep` require the snapshot to hold the profiles, users, learner assessments and learner summary tables. Without one of them the source's SQL fails, and the exception escapes `execute`, because only the journal removal is inside its try block; the chain then ends in that exception rather than EXPORT_FAILED. The model does not cover that path: the snapshot is a copy of the local database, which has all four tables.
- ExportCleanup.LiteralsOfQuotedList: ids containing a quote character are excluded, since the source builds the SQL by concatenation and such ids change the statement.
- Transactions are modelled as one atomic update; rollback on failure is not modelled.
- How `mkdirs` and `File.delete` end is a parameter (`Faults`): they do their work, return false without doing it, or throw. The source ignores the returned boolean, so the model forwards in both non-throwing cases. Which of the three happens is not derived from the file system's state.
- The source's generic chain classes are merged into one `Link` class. Links other than the two modelled ones are abstract: each deletes a given set of paths, directories or files, and then either answers a given response or forwards. Their other work (copying rows, writing the archive, changing the snapshot) is not modelled.
- Builders return `this` for chaining; the model's methods return nothing or an `Outcome`. List arguments are stored as values, so later changes by the caller to a list passed in are not modelled, and null list elements are not modelled. Likewise the built object shares the builder's own list by reference in the source: an `addSummary` on the END builder, or an `addPrivateField`/`addPublicField` on the visibility builder, after `build()` also grows the built event's or request's list. The model's built values are copies, so that aliasing is not modelled.
- Fields that the END event inherits from the telemetry base class (context, actor, timestamps) are not modelled.
- ConfigService.ConfigStore.Get: on first use the response and the seeding are stated, but the final state after seeding and then refreshing is stated only through `Seed` and `Refresh`, not in `Get`'s own contract.
