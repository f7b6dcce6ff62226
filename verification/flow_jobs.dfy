/**
 * The translation-job table of gltf-viewer-flow/api.js: the module-level
 * `razaClient` object, keyed by translation id, that the `/gltf`, `/gltf/:tid`
 * and `/event` routes update in place.
 *
 * A key maps to "in-progress" from the moment a translation is started until
 * the completion webhook arrives; the webhook replaces it with the id of the
 * webhook to tear down; collecting the result is meant to unregister that
 * webhook and remove the key (`JobTable.Collect`). As written, the result
 * route stops before either (`JobTable.CollectAsWritten`).
 *
 * The source writes with `Object.defineProperty(razaClient, id, {value,
 * writable: true})` and removes with `delete razaClient[tid]`. Such a property
 * is non-configurable, so in sloppy mode that `delete` silently does nothing.
 * The model follows the intended map semantics instead: a write is a map
 * update and `delete` removes the key.
 */
module FlowJobs {
  import opened Http
  import JsString

  /** The value that marks a started translation whose webhook has not fired. */
  const InProgress := "in-progress"
  /** The webhook event that reports a finished translation. */
  const TranslationComplete := "onshape.model.translation.complete"

  /**
   * The reply of the upstream translate call: its content type, its raw body,
   * and the `id` field of that body once parsed (`Thrown` when `JSON.parse`
   * throws).
   */
  datatype TranslationReply = TranslationReply(contentType: string, data: string, parsedId: Result<string>)

  /** The content-type test of the start handler: `contentType.indexOf('json') >= 0`. */
  predicate IsJson(contentType: string) {
    JsString.Contains(contentType, "json")
  }

  class JobTable {
    /** `razaClient`: translation id -> "in-progress" or the webhook id to unregister. */
    var entries: map<string, string>

    constructor()
      ensures entries == map[]
    {
      entries := map[];
    }

    /**
     * `GET /gltf`: the answer of the upstream translate call is `reply`
     * (`Thrown` when the awaited call rejects). A JSON reply records its id as
     * in progress; every reply is passed through with 200; a thrown call, or a
     * JSON reply whose body does not parse, gives 500 and records nothing.
     */
    method Start(reply: Result<TranslationReply>) returns (resp: Response)
      modifies this
      ensures reply.Thrown? ==> resp == Response(500, ErrorObject(reply.error)) && entries == old(entries)
      ensures reply.Ok? && !IsJson(reply.value.contentType) ==>
        resp == Response(200, Raw(reply.value.contentType, reply.value.data)) && entries == old(entries)
      ensures reply.Ok? && IsJson(reply.value.contentType) && reply.value.parsedId.Ok? ==>
        resp == Response(200, Raw(reply.value.contentType, reply.value.data)) &&
        entries == old(entries)[reply.value.parsedId.value := InProgress]
      ensures reply.Ok? && IsJson(reply.value.contentType) && reply.value.parsedId.Thrown? ==>
        resp == Response(500, ErrorObject(reply.value.parsedId.error)) && entries == old(entries)
    {
      match reply
      case Thrown(err) =>
        resp := Response(500, ErrorObject(err));
      case Ok(r) =>
        if IsJson(r.contentType) {
          match r.parsedId
          case Thrown(err) =>
            resp := Response(500, ErrorObject(err));
            return;
          case Ok(id) =>
            entries := entries[id := InProgress];
        }
        resp := Response(200, Raw(r.contentType, r.data));
    }

    /**
     * `GET /gltf/:tid`. The upstream translation status is `translation` and
     * the external-data download is `download`; `unregistered` is the webhook
     * the handler unregisters, if any.
     * - no entry: 404, nothing changes;
     * - "in-progress": 202, nothing changes;
     * - any other value: the FAILED state gives 500 with its reason, any
     *   other state the proxied download; in both cases the webhook named by
     *   the stored value is unregistered and the key alone is removed.
     */
    method Collect(tid: string, translation: TranslationStatus, download: Proxied)
      returns (resp: Response, unregistered: Option<string>)
      modifies this
      ensures tid !in old(entries) ==>
        resp == Response(404, NoBody) && unregistered == None && entries == old(entries)
      ensures tid in old(entries) && old(entries)[tid] == InProgress ==>
        resp == Response(202, NoBody) && unregistered == None && entries == old(entries)
      ensures tid in old(entries) && old(entries)[tid] != InProgress ==>
        unregistered == Some(old(entries)[tid]) &&
        entries == old(entries) - {tid} &&
        (translation.requestState == Failed ==> resp == Response(500, ErrorObject(translation.failureReason))) &&
        (translation.requestState != Failed ==> resp == Forwarded(download))
    {
      if tid !in entries {
        resp, unregistered := Response(404, NoBody), None;
      } else if entries[tid] == InProgress {
        resp, unregistered := Response(202, NoBody), None;
      } else {
        resp := ReadyResponse(translation, download);
        unregistered := Some(entries[tid]);
        entries := entries - {tid};
      }
    }

    /**
     * `GET /gltf/:tid` AS WRITTEN, with `forwardRequestToFlow` taken to proxy
     * as the helper of release-package-exports/utils.js does. The status
     * request passes `res`, so the helper itself sends the status reply
     * `statusReply` and resolves to `undefined`; `transResp.json()` then
     * throws, and nothing after it runs: no result is sent, no webhook is
     * unregistered and the key stays.
     */
    method CollectAsWritten(tid: string, statusReply: Proxied) returns (resp: Response, unregistered: Option<string>)
      ensures unregistered == None
      ensures tid !in entries ==> resp == Response(404, NoBody)
      ensures tid in entries && entries[tid] == InProgress ==> resp == Response(202, NoBody)
      ensures tid in entries && entries[tid] != InProgress ==> resp == Forwarded(statusReply)
    {
      unregistered := None;
      if tid !in entries {
        resp := Response(404, NoBody);
      } else if entries[tid] == InProgress {
        resp := Response(202, NoBody);
      } else {
        resp := Forwarded(statusReply);
      }
    }

    /**
     * `POST /event`: a translation-complete notification stores its webhook
     * id under its translation id; every other event changes nothing. Every
     * notification is acknowledged with 200.
     */
    method Receive(event: Notification) returns (resp: Response)
      modifies this
      ensures resp == Response(200, NoBody)
      ensures event.event == TranslationComplete ==> entries == old(entries)[event.translationId := event.webhookId]
      ensures event.event != TranslationComplete ==> entries == old(entries)
    {
      if event.event == TranslationComplete {
        entries := entries[event.translationId := event.webhookId];
      }
      resp := Response(200, NoBody);
    }
  }

  /** A translate reply with a JSON content type whose body carries `id`. */
  function JsonReply(id: string): TranslationReply {
    TranslationReply("application/json", "{\"id\":\"" + id + "\"}", Ok(id))
  }

  /**
   * The whole lifecycle of one translation on a fresh table: start it (the
   * upstream reply is JSON and carries `tid`), poll it while in progress, receive its completion webhook, collect it, and
   * collect it again. The poll answers 202, the collection unregisters exactly
   * the webhook the event named, and the second collection answers 404.
   */
  method Lifecycle(tid: string, webhookId: string, translation: TranslationStatus, download: Proxied)
    returns (started: Response, poll: Response, collected: Response, unregistered: Option<string>, again: Response)
    requires webhookId != InProgress
    ensures started.status == 200
    ensures poll == Response(202, NoBody)
    ensures unregistered == Some(webhookId)
    ensures collected == ReadyResponse(translation, download)
    ensures again == Response(404, NoBody)
  {
    var table := new JobTable();
    assert IsJson("application/json") by {
      assert JsString.OccursAt("application/json", "json", 12);
    }
    started := table.Start(Ok(JsonReply(tid)));
    poll, unregistered := table.Collect(tid, translation, download);
    var ack := table.Receive(Notification(TranslationComplete, "", "", tid, webhookId, None));
    collected, unregistered := table.Collect(tid, translation, download);
    var none;
    again, none := table.Collect(tid, translation, download);
  }

  /**
   * The same lifecycle against the result route as written: once the
   * completion webhook has arrived, every collection answers with the
   * translation-status reply, never unregisters the webhook and never removes
   * the key, so collecting again does not give the route's own empty 404 and
   * the table still names the webhook.
   */
  method LifecycleAsWritten(tid: string, webhookId: string, statusReply: Proxied)
    returns (collected: Response, unregistered: Option<string>, again: Response, unregisteredAgain: Option<string>,
             left: map<string, string>)
    requires webhookId != InProgress
    ensures collected == Forwarded(statusReply) && unregistered == None
    ensures again == collected && again != Response(404, NoBody) && unregisteredAgain == None
    ensures left == map[tid := webhookId]
  {
    var table := new JobTable();
    assert IsJson("application/json") by {
      assert JsString.OccursAt("application/json", "json", 12);
    }
    var started := table.Start(Ok(JsonReply(tid)));
    var ack := table.Receive(Notification(TranslationComplete, "", "", tid, webhookId, None));
    collected, unregistered := table.CollectAsWritten(tid, statusReply);
    again, unregisteredAgain := table.CollectAsWritten(tid, statusReply);
    left := table.entries;
  }
}
