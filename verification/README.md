# Application reconciliation and machine imaging, modelled in Dafny

This project models two parts of the Atmosphere cloud service.

**The `admin_application_fix` maintenance script** (`admin_application_fix.dfy`, module `AdminApplicationFix`).
The script reconciles one provider's machine records (`ProviderMachine`) with the application catalog (`Application`).

- **Classification.** Every record is put into one of five lists:
  - *deleted*: no application has the record's derived UUID, and the provider no longer lists the image;
  - *incorrect*: the first application found by UUID, or by the image's name, is not the one the record is linked to;
  - *create*: no application has the UUID, the provider lists the image, and no application has the image's name;
  - *name match*: no application has the UUID, and the first application with the image's name is the linked one;
  - *correct*: the first application with the UUID is the linked one.
- **Fix list.** The script then walks a list of identifiers:
  - deleted and correct records are skipped;
  - name matches are skipped unless the run is forced;
  - every other known identifier is fixed;
  - an unknown identifier draws a warning.
- **Fixing.** A fix links the record to the first application with the derived UUID, creating that application when there is none. It is named after the image and is private when the image is not public.
- **State.** `FixSession` is a class whose fields are the two catalog tables, the script's global image cache `Images` and its global `Force` flag.
  - Its invariant `Valid` is that of the database: application keys are distinct and below the next free key, and every machine record's link names an existing application (the foreign key).
  - `GetImage` refills the cache only when it is empty.
  - Classification, a single fix and the fix-list loop are methods. Each is proved equal to a pure function: `Classification`, `ApplyFixSpec` or `RunFixes`.
  - The properties are proved about those functions.

**Imaging tasks** (`machine_tasks.dfy`, module `MachineTasks`).
`start_machine_imaging` marks a request `processing`, saves it, builds a Celery task graph and submits it with an error sink.

- **Task graph.** On an OpenStack source, a freeze step comes first. A migration runs when a destination with different credentials is given; otherwise an imaging step runs. A post-processing step is linked last.
  - Celery signatures are modelled as data: an entry step plus its callbacks, in link order.
  - Every `link` in the source targets the entry task. So with a freeze step, the work step and the post-processing step are both callbacks of the freeze step. The model keeps that shape.
- **The other operations:**
  - `set_machine_request_metadata` chooses a manager and computes the metadata writes;
  - `freeze_instance_task` computes its two deploy calls;
  - `machine_request_error` stores a diagnostic as the request's status.
- **Save before submit.** The database and the task queue are the `Backend` class, with an event log. The log shows that the status is saved before the graph is submitted.

**Where the code names something it never binds, the model follows the evident intent.** The behaviour as written is recorded under Findings:

- `_apply_fix` reads `image` where `g_img` is meant, and calls `create_application` without importing it. The intended call is modelled as appending a new application row with the next free key.
- `set_machine_request_metadata` reads `new_manager`, where `new_managerCls` is meant. It also extends `metadata`, where a fresh `{'deployed': 'True'}` is meant.
- `start_machine_imaging` tests `init_task` before binding it off OpenStack. The model starts it as no task.
- `machine_request_error` reads `uuid`, where `result_uuid` is meant. Its format string has three conversions for two values.

An exception from `_apply_fix` is not caught in `main`, so the fix list stops at the first failing fix and `RunFixes` does the same.

Python's `==` on models compares primary keys, so an application is identified by its key (`AppId`). The UUID derivation `_generate_app_uuid` is a function parameter `derive`. What the provider's image service lists is the constant `upstream` of a session.

## Model

| member | source | states |
|---|---|---|
| AdminApplicationFix.Filter | scripts/admin_application_fix.py:142-155 | a catalog query returns exactly the rows that match it, and never more rows than the table |
| AdminApplicationFix.FilterEmpty | scripts/admin_application_fix.py:142-155 | a query that no row matches returns nothing |
| AdminApplicationFix.FilterFirst | scripts/admin_application_fix.py:155-156 | the first row a query returns (`apps[0]`, `apps_2[0]`) is the first matching row of the table |
| AdminApplicationFix.FilterAppend | scripts/admin_application_fix.py:116-118 | creating an application appends it to the result of every query it matches and changes no other result |
| AdminApplicationFix.OfProvider | scripts/admin_application_fix.py:138 | the machine records walked are exactly those of the provider |
| AdminApplicationFix.FirstImageIndex | scripts/admin_application_fix.py:104-106 | the index found is the first image carrying the id, with no earlier image carrying it |
| AdminApplicationFix.FindImage | scripts/admin_application_fix.py:100-107 | `get_image` gives nothing exactly when no cached image has the id, and otherwise a cached image with that id |
| AdminApplicationFix.Snapshot | scripts/admin_application_fix.py:102-103 | the image list `get_image` searches is the cache when it is non-empty and the provider's listing otherwise; it is empty only when both are |
| AdminApplicationFix.FixSession.GetImage | scripts/admin_application_fix.py:100-107 | the cache is refilled from the provider only when empty, and the result is the first cached image with the id |
| AdminApplicationFix.FilterHead | scripts/admin_application_fix.py:155-156 | a query returns nothing if and only if no row matches; otherwise its first row is the row at the first matching position, and that position is unique |
| AdminApplicationFix.ClassifyCases | scripts/admin_application_fix.py:139-180 | three categories over table positions: correct if and only if the first application with the derived UUID is the linked one; create if and only if no application has the UUID, a first listed image carries the identifier and no application has its name; name match if and only if no application has the UUID and the first application named after the first listed image is the linked one |
| AdminApplicationFix.ClassifyByUuid | scripts/admin_application_fix.py:171-180 | with an application carrying the derived UUID, the record is correct when the first such application is its linked one and incorrect otherwise |
| AdminApplicationFix.ClassifyDeletedIff | scripts/admin_application_fix.py:142-150 | a record is deleted if and only if no application has its UUID and the provider lists no image with its identifier |
| AdminApplicationFix.ClassifyByName | scripts/admin_application_fix.py:151-170 | without a UUID match, a listed image's name decides: create when no application has the name, name match when the first one with the name is linked, incorrect otherwise |
| AdminApplicationFix.InCategoryAppend | scripts/admin_application_fix.py:138-181 | each list keeps the table order of the records: classifying more records only appends |
| AdminApplicationFix.InCategoryMembership | scripts/admin_application_fix.py:138-181 | a record is in a list if and only if it is one of the provider's records and that is its category |
| AdminApplicationFix.Classification | scripts/admin_application_fix.py:129-181 | a record is in the list of a category if and only if it is one of the provider's records and the classifier gives it that category |
| AdminApplicationFix.ClassificationPartitions | scripts/admin_application_fix.py:129-181 | the five lists together hold every record of the provider exactly once (multiset equality) |
| AdminApplicationFix.FixSession.CategoryOf | scripts/admin_application_fix.py:139-180 | the loop body computes the record's category, refilling the cache at most once |
| AdminApplicationFix.FixSession.IdentifyProblemApps | scripts/admin_application_fix.py:129-181 | the five lists returned are the classification of the provider's records against the cache as refilled |
| AdminApplicationFix.Dispatch | scripts/admin_application_fix.py:72-98 | an identifier is fixed if and only if it is not deleted or correct, is known, and is forced when it is a name match; an unknown identifier is warned about if and only if it is in no list |
| AdminApplicationFix.DispatchFollowsCategory | scripts/admin_application_fix.py:74-95 | on the classifier's lists, with unique identifiers, the action for a record is the one its category calls for |
| AdminApplicationFix.DispatchWarnsUnknown | scripts/admin_application_fix.py:93-95 | an identifier no record of the provider carries only draws a warning |
| AdminApplicationFix.FindMachine | scripts/admin_application_fix.py:114 | when `get` returns a row, it is a record of the provider with the identifier and no other record matches |
| AdminApplicationFix.FindMachineErrors | scripts/admin_application_fix.py:114 | `get` raises "not found" if and only if no record matches, and "multiple" if and only if two records match |
| AdminApplicationFix.ApplyFixErrors | scripts/admin_application_fix.py:109-123 | a fix fails for a missing image if and only if the cache has no image with the id, and for a missing record if and only if the image exists and the provider has no such record |
| AdminApplicationFix.Relink | scripts/admin_application_fix.py:116-123 | re-linking keeps the number of records, points record `k` at the application returned and changes nothing else of it, and afterwards the first application with the UUID is that application |
| AdminApplicationFix.RelinkFrame | scripts/admin_application_fix.py:116-123 | re-linking record `k` leaves every other record as it was and keeps the catalog invariant: application keys unique and below the next key, and every record linked to an existing application |
| AdminApplicationFix.RelinkKeepsLinksValid | scripts/admin_application_fix.py:116-123 | after a re-link every record still links to an application that exists: the others keep theirs, record `k` gets the one reused or created |
| AdminApplicationFix.RelinkFreshApplication | scripts/admin_application_fix.py:116-123 | in a valid catalog, an application created by a fix takes the next free key and is linked by the fixed record and by no other |
| AdminApplicationFix.RelinkSameRecords | scripts/admin_application_fix.py:114-123 | a fix changes no identifier or provider, so `get` finds afterwards what it found before |
| AdminApplicationFix.RelinkIdempotent | scripts/admin_application_fix.py:116-123 | re-linking a record a second time changes nothing |
| AdminApplicationFix.ApplyFixFrame | scripts/admin_application_fix.py:114-123 | a fix changes only the link of the one matching record and keeps the catalog invariant (unique keys below the next key, every record linked to an existing application) |
| AdminApplicationFix.ApplyFixLinksByUuid | scripts/admin_application_fix.py:116-123 | after a fix the record is linked to the first application with its UUID, so the classifier calls it correct |
| AdminApplicationFix.ApplyFixReusesOrCreatesOne | scripts/admin_application_fix.py:116-120 | a fix reuses the first application with the UUID, or creates exactly one named after the image and private when the image is not public |
| AdminApplicationFix.ApplyFixIdempotent | scripts/admin_application_fix.py:109-123 | applying the same fix twice gives the catalog of applying it once |
| AdminApplicationFix.FixSession.ApplyFix | scripts/admin_application_fix.py:109-127 | the method's new tables and result are those of `ApplyFixSpec`, on error the tables are unchanged, and the catalog invariant is kept |
| AdminApplicationFix.FixSession.LinkRecord | scripts/admin_application_fix.py:116-123 | the reuse-or-create and link steps leave the tables exactly as the successful fix of `ApplyFixSpec` describes |
| AdminApplicationFix.RunFixes | scripts/admin_application_fix.py:72-98 | a fix list takes at most one action per identifier, and exactly one per identifier when no fix raises |
| AdminApplicationFix.RunFixesActions | scripts/admin_application_fix.py:74-98 | the actions taken are the dispatch of the identifiers, in list order |
| AdminApplicationFix.RunFixesStopsAtFix | scripts/admin_application_fix.py:96-98 | a fix list stops only at a fix that raises, and that fix is the last action taken |
| AdminApplicationFix.RunFixesFrame | scripts/admin_application_fix.py:72-98 | a fix list adds or removes no record and changes a record only if it is the provider's and its identifier is dispatched to a fix |
| AdminApplicationFix.RunFixesKeepsSkipped | scripts/admin_application_fix.py:75-95 | a record whose identifier is skipped or warned about is left as it was |
| AdminApplicationFix.SameIdentifierAsNameMatch | scripts/admin_application_fix.py:139-180 | records with the identifier of a record matched by name share its UUID and image lookups, so none of them is deleted or correct |
| AdminApplicationFix.NameMatchSkipped | scripts/admin_application_fix.py:75-85 | without `--force`, the identifier of a record matched by name is skipped, whatever other records carry it |
| AdminApplicationFix.NameMatchUntouchedWithoutForce | scripts/admin_application_fix.py:81-85 | without `--force`, no record matched by name is changed by any fix list |
| AdminApplicationFix.ApplyFixEstablishesLink | scripts/admin_application_fix.py:114-123 | after a fix, the record of its identifier exists and is linked to the first application with the identifier's UUID |
| AdminApplicationFix.ApplyFixKeepsLink | scripts/admin_application_fix.py:114-123 | a fix of any identifier keeps every identifier already linked by UUID linked |
| AdminApplicationFix.RunFixesKeepsLink | scripts/admin_application_fix.py:72-98 | a fix list keeps every identifier already linked by UUID linked |
| AdminApplicationFix.RunFixesLinksFixed | scripts/admin_application_fix.py:72-98 | when no fix raises, every identifier sent to a fix ends linked by UUID |
| AdminApplicationFix.RunFixesRelinks | scripts/admin_application_fix.py:72-98 | when no fix raises, every identifier sent to a fix names exactly one record of the provider, and the classifier now calls that record correct |
| AdminApplicationFix.FixSession.FixOne | scripts/admin_application_fix.py:75-98 | one turn of the loop: the action is the dispatch of the identifier, and the tables and the error are those of one step of `RunFixes` |
| AdminApplicationFix.FixSession.FixList | scripts/admin_application_fix.py:72-98 | the loop's actions, failure and tables are those of `RunFixes`, stopping at the first failing fix |
| AdminApplicationFix.FixSession.Run | scripts/admin_application_fix.py:44-98 | a run lists the images, classifies, sets `Force` from the flag and runs the fix list on those lists |
| AdminApplicationFix.FixSession.constructor | scripts/admin_application_fix.py:11-13 | a session starts with the force flag set and an empty image cache |
| AdminApplicationFix.DispatchAsWritten | scripts/admin_application_fix.py:74-95 | as written, every identifier of a fix list draws the warning |
| AdminApplicationFix.MembershipCounterexample | scripts/admin_application_fix.py:87-89 | a record in the create list is warned about as written and fixed by identifier |
| AdminApplicationFix.ApplyFixAsWritten | scripts/admin_application_fix.py:116-120 | as written a fix succeeds if and only if the intended fix does and an application with the UUID already exists |
| AdminApplicationFix.CreateFixCounterexample | scripts/admin_application_fix.py:116-118 | a record classified create fails to be fixed as written, while the intended fix creates its application and links it |
| MachineTasks.TaskGraph | service/tasks/machine.py:35-57 | the graph starts with a freeze step if and only if the source is OpenStack, whose callbacks are then the work step and post-processing; otherwise the work step is the entry and post-processing its only callback; there is exactly one work step, a migration if and only if a destination with other credentials is given |
| MachineTasks.Link | service/tasks/machine.py:47 | linking keeps the entry, adds the step after all steps already there, and adds one work step exactly when the step linked is one |
| MachineTasks.BuildImagingTasks | service/tasks/machine.py:35-57 | the chain built step by step is the task graph |
| MachineTasks.TaskGraphAsWritten | service/tasks/machine.py:36-54 | as written the construction raises `UnboundLocalError` if and only if the source is not OpenStack, and otherwise builds the task graph |
| MachineTasks.InitTaskUnboundOffOpenStack | service/tasks/machine.py:36-52 | on a Eucalyptus source no task is built as written, while the intended graph runs the imaging step and then post-processing |
| MachineTasks.MachineRequest.Save | service/tasks/machine.py:28 | saving writes the request's status to its row and logs the write |
| MachineTasks.StartMachineImaging | service/tasks/machine.py:21-61 | the request becomes `processing`, the status is saved before the task graph with its error sink is submitted, and nothing else is written |
| MachineTasks.RequestMetadata | service/tasks/machine.py:74-78 | the metadata marks the image deployed, and holds a description or tags if and only if the request has them |
| MachineTasks.MetadataWrites | service/tasks/machine.py:67-81 | metadata is written if and only if the driver supports it; every write marks the image deployed, and the last write is the full metadata |
| MachineTasks.SetMachineRequestMetadata | service/tasks/machine.py:64-82 | the destination manager is used when there is one and the source otherwise; without metadata support nothing is written, otherwise `deployed` first and then the full metadata |
| MachineTasks.MetadataWritesAsWritten | service/tasks/machine.py:65-67 | as written the operation raises before any write |
| MachineTasks.MetadataNeverWritten | service/tasks/machine.py:67-81 | for every request and driver, the writes as written differ from the intended writes, which are not empty when the driver supports metadata |
| MachineTasks.FreezeInstanceTask | service/tasks/machine.py:106-130 | the sync script is deployed at once, then the freeze script is queued, both on the instance with the same key path and a 120-second timeout |
| MachineTasks.ErrorReport | service/tasks/machine.py:90 | the diagnostic stored is never the `processing` status, so a failed request no longer reads as processing |
| MachineTasks.ErrorSinkSpec | service/tasks/machine.py:86-94 | the intended sink succeeds if and only if the request exists, fails with "does not exist" otherwise, and changes only that request's status, which is no longer `processing` |
| MachineTasks.MachineRequestError | service/tasks/machine.py:86-94 | the error sink does what `ErrorSinkSpec` describes: it stores the diagnostic of the failed task as the request's status, or fails with "does not exist" and writes nothing when the request is missing |
| MachineTasks.ErrorSinkAsWritten | service/tasks/machine.py:87-90 | as written the error sink always raises before writing |
| MachineTasks.ErrorSinkDiffers | service/tasks/machine.py:86-94 | for every failure, the sink as written does not leave the intended status table, and the intended sink writes whenever the request exists |
| MachineTasks.ErrorSinkCounterexample | service/tasks/machine.py:86-94 | a request left `processing` stays so as written, while the intended sink records the failure |

## Left out

- The command line is not modelled: argument parsing, `--provider-list`, and the `--identify` report. Lists are printed and diagnostics logged, but the model does not compute the text.
- `print_log` is not modelled: it only controls printing.
- The body of `_generate_app_uuid` is not part of this model. It is the parameter `derive`.
- `admin_list_images` is not modelled: the provider's image listing is the session constant `upstream`.
- `app.update_images()` is not part of this model. As in the script, the image re-read after a fix finds the global cache non-empty and returns the cached image.
- `create_application` is not part of this model. Its evident effect is modelled as appending an application row whose key is the next free key. Its fourth argument, `not image.is_public` with `g_img` meant for `image`, is read as the new application's private flag.
- Table order is taken as the order in which the ORM returns rows. The ORM itself is not modelled: no ordering clause, transactions or concurrent writers.
- Celery is not executed. Signatures, `link`, `apply_async` and `link_error` are data, and `delay`/`result.get()` waiting is not modelled. The result passed from one step to its callback is not modelled either.
- `process_request` is not part of this model. It reads a name `machine` it never binds, and calls `process_machine_request` and `send_image_request_email`, which are not part of this model.
- In `set_machine_request_metadata`, `prepare_manager` and driver construction are not modelled. The `hasattr` test is a parameter, and the libcloud call is recorded as the metadata it writes.
- In `freeze_instance_task`, the request, identity, driver and instance lookups are not modelled, nor are the SSH deploys, the deploy scripts' contents and `time.sleep`.
- ErrorReport: the `%r` renderings of task id, exception and traceback are taken as given text. The fetch of the result through `AsyncResult` and the logging are not modelled.

## Findings

| source | as written | input that shows it | evidently intended | confidence | as-written member | corrected member |
|---|---|---|---|---|---|---|
| scripts/admin_application_fix.py:75-90 | `image_id in deleted_list` (and the four other tests) compares the identifier string with `ProviderMachine` instances, which is never true | fix list `img-2` where the provider's record `img-2` is in the create list: it only draws the warning | membership by the record's identifier | high; not executed | AdminApplicationFix.DispatchAsWritten | AdminApplicationFix.Dispatch |
| scripts/admin_application_fix.py:118 | the create path calls `create_application`, never imported, and reads `image`, never bound | fixing a record with no application of its UUID (`img-1`, empty catalog) raises before linking | create the application from `g_img` and link the record | high; not executed | AdminApplicationFix.ApplyFixAsWritten | AdminApplicationFix.ApplyFixSpec |
| service/tasks/machine.py:36-52 | `init_task` is bound only when the source is OpenStack, then tested with `not init_task` | a Eucalyptus source raises `UnboundLocalError` and no task is submitted | `init_task` starts as no task | high; not executed | MachineTasks.TaskGraphAsWritten | MachineTasks.BuildImagingTasks |
| service/tasks/machine.py:67-76 | tests `new_manager` (unbound; the unpacked name is `new_managerCls`) and fills `metadata`, never created | any request: raises `NameError` before choosing a manager | choose by `new_managerCls`, fill a fresh `{'deployed': 'True'}` | high; not executed | MachineTasks.MetadataWritesAsWritten | MachineTasks.SetMachineRequestMetadata |
| service/tasks/machine.py:88-90 | reads `uuid` (unbound) instead of `result_uuid`, and formats two values into three conversions | any failed imaging task: the sink raises and the request stays `processing` | `AsyncResult(result_uuid)` and the format `(result_uuid, exc, traceback)` | high; not executed | MachineTasks.ErrorSinkAsWritten | MachineTasks.MachineRequestError |
