/**
 * Values the route handlers exchange with their client and with the upstream
 * CAD platform. Every upstream call is answered by one of the documents below,
 * which the handlers receive as inputs.
 */
module Http {
  datatype Option<+T> = None | Some(value: T)

  /** The outcome of an upstream call that may throw. */
  datatype Result<+T> = Ok(value: T) | Thrown(error: string)

  /** What a handler sends back to its client. */
  datatype Body =
    | NoBody                                  // `res.end()` or `res.send()`
    | EmptyObject                             // `{}`
    | Raw(contentType: string, data: string)  // an upstream reply passed through
    | ErrorObject(error: string)              // `{ error: ... }`
    | OutputMessage(message: string)          // `{ output: "<text>" }`
    | OutputAuditLog(log: seq<AuditEntry>)    // `{ output: <audit log> }`
    | TranslationRequests(ids: seq<string>)   // the translation-trigger reply
    | ResultMessage(message: string)          // `{ result: "<text>" }`
    | WebhookCreated(webhookId: string)       // `{ webhookID: ... }`

  datatype Response = Response(status: int, body: Body)

  /** One entry of a release package's audit log. */
  datatype AuditEntry = AuditEntry(workflowState: string)

  /** The JSON the platform returns for `GET translations/<id>`. */
  datatype TranslationStatus = TranslationStatus(
    requestState: string,
    failureReason: string,
    documentId: string,
    resultExternalDataIds: seq<string>)

  /** A proxied upstream call: its reply, or the error it threw. */
  datatype Proxied = Replied(status: int, contentType: string, data: string) | ProxyFailed(error: string)

  /**
   * An inbound webhook notification (the fields the handlers read). The two
   * routers read the webhook id under different names: gltf-viewer-flow reads
   * `webhookId`, release-package-exports reads `webhookID`, which is `None`
   * when the notification does not carry it.
   */
  datatype Notification = Notification(
    event: string,
    objectType: string,
    objectId: string,
    translationId: string,
    webhookId: string,
    webhookID: Option<string>)

  const Failed := "FAILED"

  /**
   * The response a proxying call sends: the upstream status, content type and
   * body, or 500 with the error when the call throws.
   */
  function Forwarded(p: Proxied): Response {
    match p
    case Replied(status, contentType, data) => Response(status, Raw(contentType, data))
    case ProxyFailed(error) => Response(500, ErrorObject(error))
  }

  /**
   * The response to a result request whose translation is no longer in
   * progress: 500 with the failure reason when the translation failed,
   * otherwise the proxied external-data download.
   */
  function ReadyResponse(t: TranslationStatus, download: Proxied): Response {
    if t.requestState == Failed then Response(500, ErrorObject(t.failureReason))
    else Forwarded(download)
  }

  /** A possibly undefined value interpolated into a template string. */
  function OrUndefined(v: Option<string>): string {
    if v.Some? then v.value else "undefined"
  }

  /** `ids[0]` interpolated into a template string: "undefined" when empty. */
  function FirstOrUndefined(ids: seq<string>): string {
    if |ids| > 0 then ids[0] else "undefined"
  }
}
