/**
 * The release-package export service of release-package-exports/api.js.
 *
 * Two in-memory stores are updated in place by the route handlers:
 * - `appSettings` holds the export settings captured by `/notifications`, and
 *   is also the store that `/gltf/:tid` looks translation ids up in;
 * - `translatedFiles` holds, per translation id, the in-progress marker, a
 *   failure reason or the translated asset's path, plus the export folder name
 *   and the release package id; `/event` writes it, counts the translations
 *   still in progress and, when none remain and the destination is Google
 *   Drive, requests the export and clears it.
 *
 * Both stores are modelled as plain maps. The source writes most keys with
 * `Object.defineProperty`, which makes them non-enumerable and
 * non-configurable, so `Object.values` would not see them and `delete` would
 * silently fail; the model follows the intended map semantics instead.
 */
module ReleaseExports {
  import opened Http
  import JsString

  /**
   * The constants the handlers import from their utilities module. Their
   * values are not part of this model, so they are parameters.
   */
  datatype Names = Names(
    googleDriveDestination: string,
    workflowEvent: string,
    releaseObjectType: string,
    releaseStateCompleted: string,
    translationCompletedEvent: string,
    translationInProgress: string,
    webhookRegistrationEvent: string)
  {
    /** The three event names the `/event` handler dispatches on differ. */
    predicate DistinctEvents() {
      webhookRegistrationEvent != workflowEvent &&
      webhookRegistrationEvent != translationCompletedEvent &&
      workflowEvent != translationCompletedEvent
    }
  }

  const ReadyMessage := "Ready to receive webhook notifications!"
  /** `Found a workflow package: ${eventJson}` with an object interpolated. */
  const WorkflowMessage := "Found a workflow package: [object Object]"
  const ExportMessage := "Flow has been requested to process your export!"

  /** The query string of `GET /notifications` (`None` for an absent parameter). */
  datatype NotificationQuery = NotificationQuery(
    companyId: Option<string>,
    exportDestination: Option<string>,
    emailAddress: Option<string>,
    emailMessage: Option<string>)

  /** A query parameter that JavaScript treats as true: present and non-empty. */
  predicate Truthy(v: Option<string>) {
    v.Some? && v.value != ""
  }

  /** `v ? v : ""` */
  function OrEmpty(v: Option<string>): string {
    if Truthy(v) then v.value else ""
  }

  // ---------------------------------------------------------------------------
  // Export settings

  /**
   * The settings `/notifications` stores AS WRITTEN: `exportDestination` is
   * taken from `emailAddress` whenever an export destination is given, and is
   * undefined (`None`) when no email address is given either.
   */
  function SettingsAsWritten(q: NotificationQuery): map<string, Option<string>> {
    map[
      "exportDestination" := (if Truthy(q.exportDestination) then q.emailAddress else Some("")),
      "emailAddress" := Some(OrEmpty(q.emailAddress)),
      "emailMessage" := Some(OrEmpty(q.emailMessage))]
  }

  /**
   * The settings `/notifications` is meant to store: each of the three query
   * parameters, or "" when it is absent or empty.
   */
  function Settings(q: NotificationQuery): (s: map<string, string>)
    ensures s.Keys == {"exportDestination", "emailAddress", "emailMessage"}
  {
    map[
      "exportDestination" := OrEmpty(q.exportDestination),
      "emailAddress" := OrEmpty(q.emailAddress),
      "emailMessage" := OrEmpty(q.emailMessage)]
  }

  /** `appSettings.exportDestination === GOOGLE_DRIVE_EXPORT_DESTINATION` */
  predicate ExportsToGoogleDrive(settings: map<string, string>, names: Names) {
    "exportDestination" in settings && settings["exportDestination"] == names.googleDriveDestination
  }

  /**
   * With the intended settings, whatever was stored before, the export is
   * enabled exactly when the query asked for Google Drive.
   */
  lemma SettingsDecideExport(before: map<string, string>, q: NotificationQuery, names: Names)
    requires names.googleDriveDestination != ""
    ensures ExportsToGoogleDrive(before + Settings(q), names) <==> q.exportDestination == Some(names.googleDriveDestination)
  {
  }

  /**
   * As written, a query that asks for Google Drive and gives an email address
   * stores the email address as the destination, so the export condition
   * never holds; the intended settings store Google Drive.
   */
  lemma ExportDestinationTakenFromEmail(q: NotificationQuery, names: Names, email: string)
    requires q.exportDestination == Some(names.googleDriveDestination) && names.googleDriveDestination != ""
    requires q.emailAddress == Some(email) && email != names.googleDriveDestination
    ensures SettingsAsWritten(q)["exportDestination"] == Some(email)
    ensures Settings(q)["exportDestination"] == names.googleDriveDestination
  {
  }

  // ---------------------------------------------------------------------------
  // Readiness, asset paths, in-progress count

  /**
   * `auditLog.entries.filter(entry => entry.workflowState === completed)`:
   * every completed entry, as often as it occurs in the log, and nothing else.
   */
  function CompletedEntries(entries: seq<AuditEntry>, completed: string): (r: seq<AuditEntry>)
    ensures |r| <= |entries|
    ensures forall e :: e in r <==> e in entries && e.workflowState == completed
    ensures forall e :: multiset(r)[e] == if e.workflowState == completed then multiset(entries)[e] else 0
  {
    if entries == [] then []
    else
      assert entries == [entries[0]] + entries[1..];
      if entries[0].workflowState == completed then [entries[0]] + CompletedEntries(entries[1..], completed)
      else CompletedEntries(entries[1..], completed)
  }

  /** `isReadyToStartTranslation`: the filter is non-empty. */
  predicate ReadyToTranslate(entries: seq<AuditEntry>, completed: string) {
    |CompletedEntries(entries, completed)| > 0
  }

  /** Translations are triggered exactly when some audit entry is in the completed state. */
  lemma ReadyIffSomeCompleted(entries: seq<AuditEntry>, completed: string)
    ensures ReadyToTranslate(entries, completed) <==> exists i :: 0 <= i < |entries| && entries[i].workflowState == completed
  {
    var r := CompletedEntries(entries, completed);
    if |r| > 0 {
      assert r[0] in r;
      var i :| 0 <= i < |entries| && entries[i] == r[0];
      assert entries[i].workflowState == completed;
    }
    if i :| 0 <= i < |entries| && entries[i].workflowState == completed {
      assert entries[i] in r;
    }
  }

  /** `["documents", "d", documentId, "externaldata", externalDataId].join("/")` */
  function AssetPath(documentId: string, externalDataId: string): string {
    JsString.Join(["documents", "d", documentId, "externaldata", externalDataId], "/")
  }

  /** The asset path is `documents/d/<document>/externaldata/<external data id>`. */
  lemma AssetPathShape(documentId: string, externalDataId: string)
    ensures AssetPath(documentId, externalDataId) == "documents/d/" + documentId + "/externaldata/" + externalDataId
  {
    var parts := ["documents", "d", documentId, "externaldata", externalDataId];
    assert parts[1..][1..] == parts[2..] && parts[2..][1..] == parts[3..] && parts[3..][1..] == parts[4..];
    var last := JsString.Join(parts[4..], "/");
    assert last == externalDataId;
    var fromExternal := JsString.Join(parts[3..], "/");
    assert fromExternal == "externaldata" + "/" + last;
    var fromDocument := JsString.Join(parts[2..], "/");
    assert fromDocument == documentId + "/" + fromExternal;
    var fromD := JsString.Join(parts[1..], "/");
    assert fromD == "d" + "/" + fromDocument;
    assert AssetPath(documentId, externalDataId) == "documents" + "/" + fromD;
    assert "documents" + "/" + ("d" + "/" + fromDocument) == "documents/d/" + fromDocument;
    assert "/" + ("externaldata" + "/" + externalDataId) == "/externaldata/" + externalDataId;
  }

  /**
   * The value a translation-complete event stores for its translation: the
   * failure reason when the translation failed, otherwise the asset path of
   * its first result.
   */
  function TranslationOutcome(t: TranslationStatus): string {
    if t.requestState == Failed then t.failureReason
    else AssetPath(t.documentId, FirstOrUndefined(t.resultExternalDataIds))
  }

  /** The keys whose value is the in-progress marker. */
  function InProgressKeys(files: map<string, string>, inProgress: string): set<string> {
    set k | k in files && files[k] == inProgress
  }

  /** `Object.values(files).filter(status => status === inProgress).length` */
  function InProgressCount(files: map<string, string>, inProgress: string): nat {
    |InProgressKeys(files, inProgress)|
  }

  /** No translation is in progress exactly when no stored value is the marker. */
  lemma NoneInProgress(files: map<string, string>, inProgress: string)
    ensures InProgressCount(files, inProgress) == 0 <==> forall k :: k in files ==> files[k] != inProgress
  {
    if k :| k in files && files[k] == inProgress {
      assert k in InProgressKeys(files, inProgress);
    }
  }

  /**
   * Storing a result (anything but the marker) for one translation lowers the
   * count by one if that translation was in progress, and leaves it alone
   * otherwise.
   */
  lemma ResolveLowersCount(files: map<string, string>, t: string, v: string, inProgress: string)
    requires v != inProgress
    ensures InProgressCount(files[t := v], inProgress) ==
      InProgressCount(files, inProgress) - (if t in files && files[t] == inProgress then 1 else 0)
  {
    var before := InProgressKeys(files, inProgress);
    var after := InProgressKeys(files[t := v], inProgress);
    assert after == before - {t};
    if t in files && files[t] == inProgress {
      assert t in before;
      assert |before - {t}| == |before| - 1;
    } else {
      assert before - {t} == before;
    }
  }

  /** Every id of `ids` mapped to the marker, on top of `files`. */
  function MarkedInProgress(files: map<string, string>, ids: seq<string>, inProgress: string): map<string, string> {
    files + map k | k in ids :: inProgress
  }

  /**
   * The `for...in` loop AS WRITTEN: it iterates over the array's indices, whose
   * `.id` is undefined, so it marks the single key "undefined" whenever there
   * is at least one translation request.
   */
  function MarkedAsWritten(files: map<string, string>, ids: seq<string>, inProgress: string): map<string, string> {
    if |ids| == 0 then files else files["undefined" := inProgress]
  }

  /**
   * As written, a triggered translation is never marked in progress; the
   * intended loop marks it.
   */
  lemma ForInMarksUndefined(files: map<string, string>, id: string, inProgress: string)
    requires id != "undefined" && id !in files
    ensures id !in MarkedAsWritten(files, [id], inProgress)
    ensures id in MarkedInProgress(files, [id], inProgress) && MarkedInProgress(files, [id], inProgress)[id] == inProgress
  {
  }

  /**
   * As written, the key "undefined" stays marked in progress, and no
   * completion event names it, so however the triggered translations
   * complete, the count stays positive and the export never fires.
   */
  lemma AsWrittenCountStaysPositive(files: map<string, string>, ids: seq<string>, inProgress: string,
                                    t: string, v: string)
    requires |ids| > 0 && t != "undefined" && v != inProgress
    ensures InProgressCount(MarkedAsWritten(files, ids, inProgress)[t := v], inProgress) >= 1
  {
    assert "undefined" in InProgressKeys(MarkedAsWritten(files, ids, inProgress)[t := v], inProgress);
  }

  /** What the export request sends to the export flow. */
  datatype ExportRequest = ExportRequest(
    exportDestination: string,
    email: Option<string>,
    emailMessage: Option<string>,
    translatedFiles: map<string, string>)

  /** `m[k]`, with `None` for a missing key. */
  function Get(m: map<string, string>, k: string): Option<string> {
    if k in m then Some(m[k]) else None
  }

  /** The documents the upstream calls of one `/event` request return. */
  datatype EventUpstream = EventUpstream(
    auditLog: seq<AuditEntry>,           // GET workflow/obj/<id>/auditlog
    packageName: string,                 // GET releasepackages/<id>?detailed=true
    triggerSuccess: Option<string>,      // the `success` property of the trigger-flow response
    translationRequestIds: seq<string>,  // the ids of its translationRequestResults
    translation: TranslationStatus)      // GET translations/<id>

  class Exporter {
    const names: Names
    /** `appSettings` */
    var appSettings: map<string, string>
    /** `translatedFiles` */
    var translatedFiles: map<string, string>

    constructor(names: Names)
      ensures this.names == names && appSettings == map[] && translatedFiles == map[]
    {
      this.names := names;
      appSettings := map[];
      translatedFiles := map[];
    }

    /**
     * `GET /notifications`: store the export settings, then answer with the
     * registered webhook's id, or 500 when registration failed.
     */
    method CaptureSettings(q: NotificationQuery, registration: Result<string>) returns (resp: Response)
      modifies this
      ensures appSettings == old(appSettings) + Settings(q)
      ensures translatedFiles == old(translatedFiles)
      ensures registration.Ok? ==> resp == Response(200, WebhookCreated(registration.value))
      ensures registration.Thrown? ==> resp == Response(500, ErrorObject(registration.error))
    {
      appSettings := appSettings["exportDestination" := OrEmpty(q.exportDestination)];
      appSettings := appSettings["emailAddress" := OrEmpty(q.emailAddress)];
      appSettings := appSettings["emailMessage" := OrEmpty(q.emailMessage)];
      match registration
      case Ok(webhookId) => resp := Response(200, WebhookCreated(webhookId));
      case Thrown(err) => resp := Response(500, ErrorObject(err));
    }

    /**
     * `GET /gltf/:tid`, which looks `tid` up in `appSettings`:
     * - no entry: 404, nothing changes;
     * - the in-progress marker: 202, nothing changes;
     * - any other value: 500 with the reason when the translation failed,
     *   the proxied download otherwise; either way the webhook named by the
     *   stored value is unregistered and the key alone is removed.
     */
    method Collect(tid: string, translation: TranslationStatus, download: Proxied)
      returns (resp: Response, unregistered: Option<string>)
      modifies this
      ensures translatedFiles == old(translatedFiles)
      ensures tid !in old(appSettings) ==>
        resp == Response(404, NoBody) && unregistered == None && appSettings == old(appSettings)
      ensures tid in old(appSettings) && old(appSettings)[tid] == names.translationInProgress ==>
        resp == Response(202, NoBody) && unregistered == None && appSettings == old(appSettings)
      ensures tid in old(appSettings) && old(appSettings)[tid] != names.translationInProgress ==>
        unregistered == Some(old(appSettings)[tid]) &&
        appSettings == old(appSettings) - {tid} &&
        (translation.requestState == Failed ==> resp == Response(500, ErrorObject(translation.failureReason))) &&
        (translation.requestState != Failed ==> resp == Forwarded(download))
    {
      if tid !in appSettings {
        resp, unregistered := Response(404, NoBody), None;
      } else if appSettings[tid] == names.translationInProgress {
        resp, unregistered := Response(202, NoBody), None;
      } else {
        resp := ReadyResponse(translation, download);
        unregistered := Some(appSettings[tid]);
        appSettings := appSettings - {tid};
      }
    }

    /** The loop that marks every requested translation as in progress. */
    method MarkInProgress(ids: seq<string>)
      modifies this
      ensures appSettings == old(appSettings)
      ensures translatedFiles == MarkedInProgress(old(translatedFiles), ids, names.translationInProgress)
    {
      for i := 0 to |ids|
        invariant appSettings == old(appSettings)
        invariant translatedFiles == MarkedInProgress(old(translatedFiles), ids[..i], names.translationInProgress)
      {
        assert ids[..i + 1] == ids[..i] + [ids[i]];
        translatedFiles := translatedFiles[ids[i] := names.translationInProgress];
      }
      assert ids[..|ids|] == ids;
    }

    /**
     * `POST /event`. `upstream` holds what the upstream calls return;
     * `unregistered` is the webhook the handler unregisters and `exportRequest` the
     * export request it sends, if any.
     */
    method Receive(event: Notification, upstream: EventUpstream)
      returns (resp: Response, unregistered: Option<string>, exportRequest: Option<ExportRequest>)
      modifies this
      ensures appSettings == old(appSettings)
      // the registration ping
      ensures event.event == names.webhookRegistrationEvent ==>
        resp == Response(200, OutputMessage(ReadyMessage)) &&
        unregistered == None && exportRequest == None && translatedFiles == old(translatedFiles)
      // a workflow event about something other than a release package
      ensures (event.event != names.webhookRegistrationEvent && event.event == names.workflowEvent &&
        event.objectType != names.releaseObjectType) ==>
        resp == Response(200, OutputMessage(WorkflowMessage)) &&
        unregistered == None && exportRequest == None && translatedFiles == old(translatedFiles)
      // a release package not yet completed
      ensures (event.event != names.webhookRegistrationEvent && event.event == names.workflowEvent &&
        event.objectType == names.releaseObjectType &&
        !ReadyToTranslate(upstream.auditLog, names.releaseStateCompleted)) ==>
        resp == Response(200, OutputAuditLog(upstream.auditLog)) &&
        unregistered == None && exportRequest == None && translatedFiles == old(translatedFiles)
      // a completed release package: record it and mark its translations in progress
      ensures (event.event != names.webhookRegistrationEvent && event.event == names.workflowEvent &&
        event.objectType == names.releaseObjectType &&
        ReadyToTranslate(upstream.auditLog, names.releaseStateCompleted)) ==>
        resp == Response(if upstream.triggerSuccess == Some("true") then 200 else 400,
                         TranslationRequests(upstream.translationRequestIds)) &&
        unregistered == None && exportRequest == None &&
        translatedFiles == MarkedInProgress(
          old(translatedFiles)["exportFolderName" := "Release-" + upstream.packageName + "-Export"]
                              ["releasePackageId" := event.objectId],
          upstream.translationRequestIds, names.translationInProgress)
      // a finished translation: store its outcome, export once none is in progress
      ensures (event.event != names.webhookRegistrationEvent && event.event != names.workflowEvent &&
        event.event == names.translationCompletedEvent) ==>
        var written := old(translatedFiles)[event.translationId := TranslationOutcome(upstream.translation)];
        unregistered == Some(OrUndefined(event.webhookID)) &&
        if InProgressCount(written, names.translationInProgress) == 0 && ExportsToGoogleDrive(appSettings, names) then
          resp == Response(302, ResultMessage(ExportMessage)) && translatedFiles == map[] &&
          exportRequest == Some(ExportRequest(names.googleDriveDestination, Get(appSettings, "emailAddress"),
                                       Get(appSettings, "emailMessage"), written))
        else
          resp == Response(404, EmptyObject) && translatedFiles == written && exportRequest == None
      // any other event
      ensures (event.event != names.webhookRegistrationEvent && event.event != names.workflowEvent &&
        event.event != names.translationCompletedEvent) ==>
        resp == Response(404, EmptyObject) &&
        unregistered == None && exportRequest == None && translatedFiles == old(translatedFiles)
    {
      resp, unregistered, exportRequest := Response(404, EmptyObject), None, None;
      if event.event == names.webhookRegistrationEvent {
        resp := Response(200, OutputMessage(ReadyMessage));
      } else if event.event == names.workflowEvent {
        resp := Response(200, OutputMessage(WorkflowMessage));
        if event.objectType == names.releaseObjectType {
          resp := Response(200, OutputAuditLog(upstream.auditLog));
          if ReadyToTranslate(upstream.auditLog, names.releaseStateCompleted) {
            translatedFiles := translatedFiles["exportFolderName" := "Release-" + upstream.packageName + "-Export"];
            translatedFiles := translatedFiles["releasePackageId" := event.objectId];
            MarkInProgress(upstream.translationRequestIds);
            var status := if upstream.triggerSuccess == Some("true") then 200 else 400;
            resp := Response(status, TranslationRequests(upstream.translationRequestIds));
          }
        }
      } else if event.event == names.translationCompletedEvent {
        unregistered := Some(OrUndefined(event.webhookID));
        translatedFiles := translatedFiles[event.translationId := TranslationOutcome(upstream.translation)];
        if InProgressCount(translatedFiles, names.translationInProgress) == 0 && ExportsToGoogleDrive(appSettings, names) {
          exportRequest := Some(ExportRequest(appSettings["exportDestination"], Get(appSettings, "emailAddress"),
                                       Get(appSettings, "emailMessage"), translatedFiles));
          resp := Response(302, ResultMessage(ExportMessage));
          translatedFiles := map[];
        }
      }
    }
  }

  /**
   * A release package end to end, on a fresh exporter: the user asks for a
   * Google Drive export, a completed release package triggers translations
   * `t1` and `t2`, and their completion events arrive one after the other.
   * The first completion leaves `t2` in progress, so nothing is exported (404);
   * the second completes the set, so the export is requested (302) carrying
   * both outcomes, and the store is cleared.
   */
  method ReleaseLifecycle(names: Names, q: NotificationQuery, releasePackageId: string, packageName: string,
                          t1: string, t2: string, status1: TranslationStatus, status2: TranslationStatus)
    returns (first: Response, firstExport: Option<ExportRequest>, second: Response, secondExport: Option<ExportRequest>)
    requires names.DistinctEvents()
    requires names.googleDriveDestination != "" && q.exportDestination == Some(names.googleDriveDestination)
    requires t1 != t2
    requires TranslationOutcome(status1) != names.translationInProgress
    requires TranslationOutcome(status2) != names.translationInProgress
    requires "Release-" + packageName + "-Export" != names.translationInProgress
    requires releasePackageId != names.translationInProgress
    ensures first == Response(404, EmptyObject) && firstExport == None
    ensures second == Response(302, ResultMessage(ExportMessage))
    ensures secondExport.Some? && secondExport.value.exportDestination == names.googleDriveDestination
    ensures var files := secondExport.value.translatedFiles;
      t1 in files && files[t1] == TranslationOutcome(status1) &&
      t2 in files && files[t2] == TranslationOutcome(status2)
  {
    var exporter := new Exporter(names);
    var registered := exporter.CaptureSettings(q, Ok("release-webhook"));
    SettingsDecideExport(map[], q, names);
    assert ExportsToGoogleDrive(exporter.appSettings, names);

    var log := [AuditEntry(names.releaseStateCompleted)];
    ReadyIffSomeCompleted(log, names.releaseStateCompleted);
    assert log[0].workflowState == names.releaseStateCompleted;
    var upstream := EventUpstream(log, packageName, None, [t1, t2], status1);
    var released := Notification(names.workflowEvent, names.releaseObjectType, releasePackageId, "", "", None);
    var triggered, noHook, noExport := exporter.Receive(released, upstream);
    var marked := exporter.translatedFiles;
    assert t2 in marked && marked[t2] == names.translationInProgress by {
      assert t2 in [t1, t2];
    }
    assert forall k :: k in marked && k != t1 && k != t2 ==> marked[k] != names.translationInProgress;

    var hook1;
    var done1 := Notification(names.translationCompletedEvent, "", "", t1, "", Some("hook-1"));
    first, hook1, firstExport := exporter.Receive(done1, upstream);
    var written1 := marked[t1 := TranslationOutcome(status1)];
    assert t2 in InProgressKeys(written1, names.translationInProgress);

    var hook2;
    var done2 := Notification(names.translationCompletedEvent, "", "", t2, "", Some("hook-2"));
    second, hook2, secondExport := exporter.Receive(done2, upstream.(translation := status2));
    var written2 := written1[t2 := TranslationOutcome(status2)];
    NoneInProgress(written2, names.translationInProgress);
  }

  /**
   * `/gltf/:tid` looks ids up in `appSettings`, while translations are
   * recorded in `translatedFiles`: after a completed release package marks
   * `tid` in progress, asking for `tid` answers 404, not 202, unless `tid`
   * happens to be one of the three settings keys.
   */
  method CollectReadsSettings(names: Names, q: NotificationQuery, releasePackageId: string, tid: string,
                              translation: TranslationStatus, download: Proxied)
    returns (resp: Response, unregistered: Option<string>)
    requires names.DistinctEvents()
    requires tid !in {"exportDestination", "emailAddress", "emailMessage"}
    ensures resp == Response(404, NoBody) && unregistered == None
  {
    var exporter := new Exporter(names);
    var registered := exporter.CaptureSettings(q, Ok("release-webhook"));
    var log := [AuditEntry(names.releaseStateCompleted)];
    ReadyIffSomeCompleted(log, names.releaseStateCompleted);
    assert log[0].workflowState == names.releaseStateCompleted;
    var upstream := EventUpstream(log, "package", Some("true"), [tid], translation);
    var released := Notification(names.workflowEvent, names.releaseObjectType, releasePackageId, "", "", None);
    var triggered, noHook, noExport := exporter.Receive(released, upstream);
    assert tid in exporter.translatedFiles by {
      assert tid in [tid];
    }
    resp, unregistered := exporter.Collect(tid, translation, download);
  }
}
