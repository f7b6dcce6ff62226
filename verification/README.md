# Translation-job tracking of the Onshape glTF and release-export examples

This project models, in Dafny, the stateful core of two Express routers that
track asynchronous glTF translations on the Onshape platform, and the URL
normaliser their proxy helper uses.

- **gltf-viewer-flow** keeps one job table (`razaClient`). Starting a
  translation records its id as `"in-progress"`. The
  `onshape.model.translation.complete` webhook replaces that value with the
  id of the webhook to tear down. Collecting the result answers 404 (unknown
  id), 202 (still in progress), or the result (500 with the failure reason
  when the translation failed). It is then meant to unregister the webhook
  and forget the id. As written, the result route never gets that far (see
  "## Findings"). Modelled as the class `FlowJobs.JobTable`, one method per
  route.
- **release-package-exports** keeps two stores. `appSettings` holds the
  export settings, and it is also where `/gltf/:tid` looks ids up.
  `translatedFiles` holds the per-translation state. The `/event` handler is
  a state machine:
  - it acknowledges the registration ping;
  - for a workflow event on a release package, it decides readiness from the
    audit log and marks the triggered translations in progress;
  - for a translation-complete event, it stores the failure reason or the
    asset path `documents/d/<document>/externaldata/<id>`;
  - when no translation is left in progress and the destination is Google
    Drive, it requests the export (302) and clears the store.

  As written, the settings route stores the email address as the destination,
  and the marking loop marks only the key `"undefined"`, so the export never
  fires (see "## Findings"). Modelled as the class `ReleaseExports.Exporter`,
  whose settings capture and marking loop are the corrected versions; the
  as-written ones are separate functions. The readiness filter, the
  asset path and the in-progress count are functions.
- **URL normaliser** (`forwardRequestToOnshape`): a path that already starts
  with the API base is kept; any other path becomes `base + "/" + path`.
  Modelled as `ApiUrl.Normalise`, against a model of
  `String.prototype.indexOf` (`JsString.IndexOf`) that decides the `=== 0`
  and `>= 0` tests the handlers make.

Every upstream call is an input to the method that makes it: the translate
reply, the translation status, the proxied download, the audit log, the
release package name and the trigger-flow reply. Webhook registration results
are inputs too. What a handler unregisters or exports is an out-parameter.
The constants that release-package-exports/api.js imports from its utilities
module are not defined in any file modelled here. They are fields of the
datatype `ReleaseExports.Names`, given to the constructor.

Where the code and its own comments or configuration differ, the model
follows the code:
- release-package-exports/raza-client.js:4-9 configures both stores as LRU
  caches with at most 500 entries and a 5-minute time-to-live. The handlers
  index the cache object directly, and the model is an unbounded map with no
  eviction.
- The doc comment of `/event` at release-package-exports/api.js:146-149
  promises 200. The handler answers 404 with `{}` for any event it does not
  handle, and for a translation completion that does not trigger the
  export.
- A repeated completion notification overwrites the stored value in both
  routers (gltf-viewer-flow/api.js:190, release-package-exports/api.js:247
  and 260).

## Model

| member | source | states |
|---|---|---|
| `JsString.IndexOf` | gltf-viewer-oauth/utils.js:20 | `s.indexOf(sub)` is the least index where `sub` occurs, or -1 exactly when it occurs nowhere |
| `JsString.IndexOfZeroIsPrefix` | gltf-viewer-flow/utils.js:15 | `indexOf(base) === 0` holds exactly when `base` is a prefix of the path |
| `ApiUrl.Normalise` | gltf-viewer-oauth/utils.js:20 | a path that starts with the base is returned unchanged; any other path becomes `base + "/" + path`; the result always starts with the base (the same expression is at gltf-viewer-flow/utils.js:15) |
| `ApiUrl.NormaliseIdempotent` | gltf-viewer-flow/utils.js:15 | normalising an already normalised URL returns it unchanged |
| `FlowJobs.JobTable.constructor` | gltf-viewer-flow/api.js:5 | the job table starts empty |
| `FlowJobs.JobTable.Start` | gltf-viewer-flow/api.js:107-121 | a JSON reply records its id as `"in-progress"`; a non-JSON reply records nothing; both are passed through with 200; a thrown call or an unparsable JSON body gives 500 and records nothing |
| `FlowJobs.JobTable.Collect` | gltf-viewer-flow/api.js:134-178 | the result route as intended (the corrected half of the first finding): no entry: 404, no change; `"in-progress"`: 202, no change; any other value: 500 with the failure reason when the state is FAILED, else the proxied download; the webhook unregistered is exactly the stored value; `tid` is removed and every other key is unchanged |
| `FlowJobs.JobTable.CollectAsWritten` | gltf-viewer-flow/api.js:134-153 | the result route as written: 404 and 202 as above; for any other value the reply to the translation-status request is sent, no webhook is unregistered and the table is not changed |
| `FlowJobs.JobTable.Receive` | gltf-viewer-flow/api.js:186-196 | a translation-complete event sets `table[translationId] := webhookId`; any other event leaves the table unchanged; every event gets 200 |
| `FlowJobs.Lifecycle` | gltf-viewer-flow/api.js:107-196 | with the intended result route: start T, poll (202), complete event (T, W), collect: W is unregistered; collecting T again answers 404 |
| `FlowJobs.LifecycleAsWritten` | gltf-viewer-flow/api.js:107-196 | with the result route as written: start T, complete event (T, W), collect twice: both answer the translation-status reply and neither unregisters anything; the second is not the route's own empty-bodied 404, and the table still maps T to W |
| `ReleaseExports.Settings` | release-package-exports/api.js:49-71 | `/notifications` stores exactly the three settings keys |
| `ReleaseExports.SettingsDecideExport` | release-package-exports/api.js:268-269 | after the settings are captured, the export condition holds exactly when the query asked for the Google Drive destination |
| `ReleaseExports.ExportDestinationTakenFromEmail` | release-package-exports/api.js:50 | as written, a Google Drive request with an email address stores the email address as the destination; the corrected settings store Google Drive |
| `ReleaseExports.CompletedEntries` | release-package-exports/api.js:192-194 | the filter keeps every audit entry whose state is the completed constant, as many times as it occurs in the log, and nothing else; it is no longer than the log |
| `ReleaseExports.ReadyIffSomeCompleted` | release-package-exports/api.js:192-196 | translations are triggered exactly when some audit entry's `workflowState` is the completed constant |
| `ReleaseExports.AssetPathShape` | release-package-exports/api.js:253-259 | the joined asset path is `"documents/d/" + documentId + "/externaldata/" + id` |
| `ReleaseExports.NoneInProgress` | release-package-exports/api.js:267-268 | the in-progress count is 0 exactly when no stored value equals the in-progress constant |
| `ReleaseExports.ResolveLowersCount` | release-package-exports/api.js:246-267 | storing a result for a translation lowers the count by one if it was in progress, and otherwise leaves it unchanged |
| `ReleaseExports.ForInMarksUndefined` | release-package-exports/api.js:221-227 | as written, the `for...in` loop marks the key `"undefined"`, not the requested translation; the intended marking records it |
| `ReleaseExports.AsWrittenCountStaysPositive` | release-package-exports/api.js:221-227 | as written, after any completion event the in-progress count is still at least 1, because of the key `"undefined"`, so the export at line 268 never fires |
| `ReleaseExports.Exporter.constructor` | release-package-exports/raza-client.js:12-14 | both stores start empty |
| `ReleaseExports.Exporter.CaptureSettings` | release-package-exports/api.js:47-81 | as intended (the corrected half of the api.js:50 finding): the settings are added to `appSettings` and `translatedFiles` is untouched; the answer is 200 with the webhook id, or 500 with the registration error |
| `ReleaseExports.Exporter.Collect` | release-package-exports/api.js:98-143 | the lookup reads `appSettings`: absent gives 404, the in-progress value gives 202, both with no change; otherwise 500 with the reason on FAILED, else the proxied download; the webhook named by the stored value is unregistered and only that key is deleted |
| `ReleaseExports.Exporter.MarkInProgress` | release-package-exports/api.js:221-227 | as intended (the corrected half of the api.js:221-222 finding): every requested translation id maps to the in-progress value; all other keys and `appSettings` are unchanged |
| `ReleaseExports.Exporter.Receive` | release-package-exports/api.js:151-298 | as intended (it marks through the corrected `MarkInProgress` and reads the settings the corrected `CaptureSettings` stored): the registration ping gives 200 "Ready to receive webhook notifications!" and no store change; a workflow event on a completed release package records the folder name and package id and marks its translations in progress (200 or 400); a translation-complete event unregisters the webhook its `webhookID` field names (`"undefined"` when it has none) and stores the failure reason or the asset path; it exports (302, store cleared) only when no value is in progress and the destination is Google Drive, and otherwise answers 404 with the entries kept; an unhandled event gives 404 `{}` with no change; `appSettings` is never changed |
| `ReleaseExports.ReleaseLifecycle` | release-package-exports/api.js:192-294 | on a release with two translations, the first completion answers 404 with no export; the second answers 302 and exports both outcomes |
| `ReleaseExports.CollectReadsSettings` | release-package-exports/api.js:99-104 | a translation that the release event marked in progress is answered 404, because the lookup reads `appSettings` |

## Findings

| source | as written | input that shows it | evidently intended | confidence | as-written member | corrected member |
|---|---|---|---|---|---|---|
| release-package-exports/api.js:50 | `exportDestination` is set from `req.query.emailAddress` | `exportDestination=googleDrive&emailAddress=a@b.c`, the query the settings form sends: the stored destination is `a@b.c`, so the export at line 268-269 never fires | store `req.query.exportDestination` | high (not executed) | `ReleaseExports.SettingsAsWritten` | `ReleaseExports.Settings` |
| release-package-exports/api.js:221-222 | `for...in` over the results array yields the indices `"0"`, `"1"`, …; their `.id` is undefined | one translation request with id `T1`: the key `"undefined"` is marked and `T1` is not. No completion event names `"undefined"`, so the count at 267 never drops below 1 and the export never fires | `for...of`, marking each result's `id` | high (not executed) | `ReleaseExports.MarkedAsWritten` | `ReleaseExports.Exporter.MarkInProgress` |
| gltf-viewer-flow/api.js:148-153 | the translation-status request passes `res: res`, so a helper that proxies like release-package-exports/utils.js:31-39 sends the status reply itself and resolves to `undefined`; `transResp.json()` then throws and lines 154-175 never run | table `{T: "W"}`: collecting `T` answers the status reply, does not unregister `W` and keeps `T`; collecting `T` again does the same instead of answering 404 | request the status without `res` and read its JSON, as release-package-exports/api.js:112-117 does | high (not executed) | `FlowJobs.JobTable.CollectAsWritten` | `FlowJobs.JobTable.Collect` |

## Left out

- Network calls are not modelled: the webhook services' register and unregister, the proxy helper `forwardRequestToFlow`, the direct `fetch` calls, and the trigger and export POSTs to the automation flows. Their replies are inputs. An unregister and an export request are out-parameters.
- The fire-and-forget `registerWebhook` at gltf-viewer-flow/api.js:96 is not recorded. Its failure is only logged.
- At gltf-viewer-flow/api.js:108-109, `partId` only selects which upstream translate call answers. That answer is an input, so the choice is not modelled.
- Upstream bodies are taken to be well-formed JSON. A `.json()` that rejects would leave the request unanswered; that case is not modelled. The only parse failure modelled is `JSON.parse` in the start handler.
- Missing body and query fields are not modelled, except the release router's `webhookID` and the `/notifications` query parameters (`ReleaseExports.NotificationQuery`): an undefined `webhookId` in the flow router, or an array-valued query parameter, is not modelled. Ids and values are plain strings.
- The two routers read the webhook id under different names: gltf-viewer-flow/api.js:191 reads `webhookId`, release-package-exports/api.js:236 reads `webhookID`. `Http.Notification` carries both, and a notification with only `webhookId` makes the release router unregister `"undefined"`.
- The flow router imports `forwardRequestToFlow` from gltf-viewer-flow/utils.js, which does not export it, so as written every call of it throws a `TypeError`. That reading is not modelled. The model takes the helper to proxy the way release-package-exports/utils.js does. Under that reading the result route is modelled both as written (`FlowJobs.JobTable.CollectAsWritten`) and as intended (`FlowJobs.JobTable.Collect`); see "## Findings".
- The download URL that gltf-viewer-flow/api.js:163-164 builds is not modelled; only its reply is. One template literal there spans two array elements.
- At release-package-exports/api.js:238, `req.params.tid` is undefined in `/event`. The translation status input is taken to be that of the event's `translationId`.
- `translationTriggerFlowResp.success` (release-package-exports/api.js:228) is read off the fetch response object. The model takes it as an input, and a fetch response carries no such property, so in practice the input is `None` and the answer is 400.
- The export's `catch` (release-package-exports/api.js:287-290) only catches synchronous throws of an un-awaited `fetch`, so it is not modelled.
- `clearDataStore` is not part of this model. It is taken to empty `translatedFiles`.
- The LRU cache's capacity (500) and time-to-live (5 minutes) are not modelled. Both stores are unbounded maps with no eviction. The handlers bypass the cache's own API anyway.
- JavaScript property-descriptor rules are not modelled. `Object.defineProperty` writes non-enumerable, non-configurable properties, so as written `delete` (gltf-viewer-flow/api.js:175, release-package-exports/api.js:139) fails silently and `Object.values` (release-package-exports/api.js:267) skips those keys. The model uses plain map updates and removals.
- A webhook that arrives before its start entry is written (an interleaving of asynchronous handlers) is not modelled. Each handler runs to completion in order.
- JsString.IndexOf: indices count Unicode scalar values, not the UTF-16 code units JavaScript counts, so the two differ after a character outside the Basic Multilingual Plane. They agree on the `=== 0` and `>= 0` tests the handlers make (gltf-viewer-oauth/utils.js:20, gltf-viewer-flow/utils.js:15, gltf-viewer-flow/api.js:112).
- ReleaseExports.Exporter.Collect and FlowJobs.JobTable.Collect (and `CollectAsWritten`) treat a key that names an inherited property as absent. In the source, the stores are a plain object (`razaClient`) and LRU caches (`appSettings` and `translatedFiles`, release-package-exports/raza-client.js:12-14). A lookup of `constructor`, `toString`, or a cache member such as `get` or `size` finds that property and takes the ready branch instead of answering 404. The cache's own fields are likewise left out of `Object.values` (release-package-exports/api.js:267) and `JSON.stringify` (release-package-exports/api.js:276).
- Logging is not modelled, and neither are the forwarding-only routes (`/elements`, `/parts`, `/email`), the Express wiring, OAuth and token refresh, or the browser viewer and export form.
