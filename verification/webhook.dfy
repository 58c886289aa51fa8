/**
 * The lead webhook: `POST` checks its configuration, the optional shared
 * secret and the lead's name, collects the UTM warnings it logs, inserts
 * the lead with its defaults and records one `created` event.  The
 * environment variables and request headers are parameters; the console
 * output is returned as the list of warnings.
 */
module Webhook {
  import opened Wrappers
  import opened LeadTypes
  import opened LeadEvents
  import opened Leads

  /** The environment: the datastore URL and service key, and the optional secret. */
  datatype Config = Config(url: Option<string>, serviceKey: Option<string>, webhookSecret: Option<string>)

  /** The request headers the route reads. */
  datatype Headers = Headers(secret: Option<string>, forwardedFor: Option<string>, userAgent: Option<string>)

  /** The JSON body; a field the sender left out is `None`. */
  datatype WebhookBody = WebhookBody(
    name: Option<string>,
    email: Option<string>,
    phone: Option<string>,
    firstName: Option<string>,
    lastName: Option<string>,
    source: Option<string>,
    expectedRevenue: Option<int>,
    probability: Option<int>,
    customFields: Option<map<string, string>>,
    utmSource: Option<string>,
    utmMedium: Option<string>,
    utmCampaign: Option<string>,
    utmContent: Option<string>,
    utmTerm: Option<string>,
    gclid: Option<string>,
    landingPage: Option<string>,
    referrer: Option<string>,
    ipAddress: Option<string>,
    userAgent: Option<string>)

  /** The JSON reply: `{ success, lead_id, message }` or `{ error, details? }` with a status. */
  datatype Response = Accepted(leadId: string) | Error(status: int, error: string, details: Option<string>)

  const NotConfigured: string := "Webhook not configured - missing SUPABASE_SERVICE_ROLE_KEY"
  const Unauthorized: string := "Unauthorized"
  const NameRequired: string := "Name is required"
  const CreateFailed: string := "Failed to create lead"
  const InternalError: string := "Internal server error"
  const GclidWithoutSource: string := "gclid present but utm_source missing (should be google)"
  /** The `user_email` and metadata `source` of the event the webhook records. */
  const WebhookActor: string := "webhook"

  /** JavaScript truthiness of an optional string. */
  predicate Truthy(s: Option<string>) {
    s.Some? && s.value != ""
  }

  /** `a || b` on optional strings. */
  function OrElse(a: Option<string>, b: Option<string>): (r: Option<string>)
    ensures Truthy(a) ==> r == a
    ensures !Truthy(a) ==> r == b
  {
    if Truthy(a) then a else b
  }

  function MediumMissing(source: string): string {
    "utm_medium missing for source: " + source
  }

  function CampaignMissing(source: string): string {
    "utm_campaign missing for source: " + source
  }

  /** `utmWarnings`, in the order the three checks run. */
  function UtmWarnings(body: WebhookBody): (ws: seq<string>)
    ensures Truthy(body.utmSource) && !Truthy(body.utmMedium) <==> MediumMissing(body.utmSource.GetOr("")) in ws
    ensures Truthy(body.utmSource) && !Truthy(body.utmCampaign) <==> CampaignMissing(body.utmSource.GetOr("")) in ws
    ensures Truthy(body.gclid) && !Truthy(body.utmSource) <==> GclidWithoutSource in ws
  {
    var source := body.utmSource.GetOr("");
    WarningsDiffer(source);
    (if Truthy(body.utmSource) && !Truthy(body.utmMedium) then [MediumMissing(source)] else [])
    + (if Truthy(body.utmSource) && !Truthy(body.utmCampaign) then [CampaignMissing(source)] else [])
    + (if Truthy(body.gclid) && !Truthy(body.utmSource) then [GclidWithoutSource] else [])
  }

  /**
   * The source warnings and the `gclid` warning exclude each other, so at
   * most two warnings are logged; the medium warning comes before the
   * campaign warning, and a complete set of UTM fields logs nothing.
   */
  lemma UtmWarningsShape(body: WebhookBody)
    ensures |UtmWarnings(body)| <= 2
    ensures GclidWithoutSource in UtmWarnings(body) ==> UtmWarnings(body) == [GclidWithoutSource]
    ensures |UtmWarnings(body)| == 2 ==>
              UtmWarnings(body) == [MediumMissing(body.utmSource.value), CampaignMissing(body.utmSource.value)]
    ensures Truthy(body.utmSource) && Truthy(body.utmMedium) && Truthy(body.utmCampaign) ==> UtmWarnings(body) == []
  {
    WarningsDiffer(body.utmSource.GetOr(""));
  }

  /** The `gclid` warning starts with `g`, where the other two start with `u`. */
  lemma GclidWarningStart()
    ensures GclidWithoutSource[0] == 'g'
  {
    assert GclidWithoutSource == "gclid present but utm_source " + "missing (should be google)";
  }

  /** The three warnings are different texts whatever the source is. */
  lemma WarningsDiffer(source: string)
    ensures MediumMissing(source) != CampaignMissing(source)
    ensures GclidWithoutSource != MediumMissing(source) && GclidWithoutSource != CampaignMissing(source)
  {
    var m := "utm_medium missing for source: ";
    var c := "utm_campaign missing for source: ";
    GclidWarningStart();
    assert m[4] == 'm' && c[4] == 'c' && m[0] == 'u' && c[0] == 'u';
    assert MediumMissing(source)[4] == m[4] && CampaignMissing(source)[4] == c[4];
    assert MediumMissing(source)[0] == m[0] && CampaignMissing(source)[0] == c[0];
  }

  /** The row the webhook inserts: the body's columns with the webhook's defaults. */
  function WebhookInsert(body: WebhookBody, headers: Headers): (ins: LeadInsert)
    requires Truthy(body.name)
    ensures ins.name == body.name.value
    ensures ins.source == Some(if Truthy(body.source) then body.source.value else WebhookActor)
    ensures ins.customFields == (if body.customFields.Some? then body.customFields.value else map[])
    ensures ins.tracking.ipAddress == (if Truthy(body.ipAddress) then body.ipAddress else headers.forwardedFor)
    ensures ins.tracking.userAgent == (if Truthy(body.userAgent) then body.userAgent else headers.userAgent)
    ensures ins.tracking.utmSource == body.utmSource && ins.tracking.gclid == body.gclid
  {
    LeadInsert(
      body.name.value, body.email, body.phone, body.firstName, body.lastName,
      Some(if Truthy(body.source) then body.source.value else WebhookActor),
      body.expectedRevenue, body.probability, body.customFields.GetOr(map[]),
      Tracking(body.utmSource, body.utmMedium, body.utmCampaign, body.utmContent, body.utmTerm,
               body.gclid, body.landingPage, body.referrer,
               OrElse(body.ipAddress, headers.forwardedFor), OrElse(body.userAgent, headers.userAgent)))
  }

  /**
   * The `created` event of a webhook lead.  A `None` UTM source is a key the
   * stored JSON omits when the body left it `undefined`.
   */
  function WebhookCreatedEvent(leadId: string, body: WebhookBody): (e: LeadEvent)
    requires Truthy(body.name)
    ensures e.leadId == leadId && e.eventType == LeadTypes.Created
    ensures e.userEmail == Some(WebhookActor) && e.newValue == body.name
    ensures e.metadata == map["source" := Some(WebhookActor), "utm_source" := body.utmSource]
  {
    LeadEvent(leadId, LeadTypes.Created, None, None, body.name, Some(WebhookActor),
              map["source" := Some(WebhookActor), "utm_source" := body.utmSource])
  }

  /**
   * The answer of the checks that run before the insert, in their order, or
   * `None` when the request gets through to the insert.  `body` is `None`
   * when the request body is not JSON, which the route's `catch` answers.
   */
  function Rejection(config: Config, headers: Headers, body: Option<WebhookBody>): (r: Option<Response>)
    ensures r.None? <==> Truthy(config.url) && Truthy(config.serviceKey)
                         && (Truthy(config.webhookSecret) ==> headers.secret == config.webhookSecret)
                         && body.Some? && Truthy(body.value.name)
    ensures !Truthy(config.url) || !Truthy(config.serviceKey) ==> r == Some(Error(503, NotConfigured, None))
    ensures (&& Truthy(config.url) && Truthy(config.serviceKey) && Truthy(config.webhookSecret)
             && headers.secret != config.webhookSecret)
            ==> r == Some(Error(401, Unauthorized, None))
    ensures (&& Truthy(config.url) && Truthy(config.serviceKey)
             && (Truthy(config.webhookSecret) ==> headers.secret == config.webhookSecret)
             && body.None?)
            ==> r == Some(Error(500, InternalError, None))
    ensures (&& Truthy(config.url) && Truthy(config.serviceKey)
             && (Truthy(config.webhookSecret) ==> headers.secret == config.webhookSecret)
             && body.Some? && !Truthy(body.value.name))
            ==> r == Some(Error(400, NameRequired, None))
  {
    if !Truthy(config.url) || !Truthy(config.serviceKey) then Some(Error(503, NotConfigured, None))
    else if Truthy(config.webhookSecret) && headers.secret != config.webhookSecret then Some(Error(401, Unauthorized, None))
    else if body.None? then Some(Error(500, InternalError, None))
    else if !Truthy(body.value.name) then Some(Error(400, NameRequired, None))
    else None
  }

  /** With a configured route and no secret set, the secret header makes no difference. */
  lemma SecretIgnoredWhenUnset(config: Config, h1: Headers, h2: Headers, body: Option<WebhookBody>)
    requires !Truthy(config.webhookSecret)
    ensures Rejection(config, h1, body) == Rejection(config, h2, body)
  {
  }

  /**
   * When a secret is set, a request whose header is missing or differs from
   * it is refused whatever its body.
   */
  lemma MissingSecretRefused(config: Config, headers: Headers, body: Option<WebhookBody>)
    requires Truthy(config.url) && Truthy(config.serviceKey) && Truthy(config.webhookSecret)
    requires headers.secret != config.webhookSecret
    ensures Rejection(config, headers, body) == Some(Error(401, Unauthorized, None))
  {
  }

  /**
   * `POST`.  `id` is the id the datastore generates for the row; the
   * warnings are what the route logs before the insert.
   */
  method Post(config: Config, headers: Headers, body: Option<WebhookBody>, id: string,
              leads: LeadTable, log: EventLog)
    returns (resp: Response, warnings: seq<string>)
    modifies leads, log
    ensures Rejection(config, headers, body).Some? ==>
              && resp == Rejection(config, headers, body).value && warnings == []
              && leads.rows == old(leads.rows) && log.entries == old(log.entries)
    ensures Rejection(config, headers, body).None? ==> warnings == UtmWarnings(body.value)
    ensures Rejection(config, headers, body).None? && id in old(leads.rows) ==>
              && resp == Error(500, CreateFailed, Some(DuplicateKey))
              && leads.rows == old(leads.rows) && log.entries == old(log.entries)
    ensures Rejection(config, headers, body).None? && id !in old(leads.rows) ==>
              && resp == Accepted(id)
              && leads.rows == old(leads.rows)[id := InsertedRow(id, WebhookInsert(body.value, headers))]
              && log.entries == old(log.entries) + [WebhookCreatedEvent(id, body.value)]
  {
    warnings := [];
    var rejected := Rejection(config, headers, body);
    if rejected.Some? {
      return rejected.value, warnings;
    }
    var b := body.value;
    warnings := UtmWarnings(b);
    var inserted := leads.Insert(id, WebhookInsert(b, headers));
    if inserted.Failure? {
      return Error(500, CreateFailed, Some(inserted.error)), warnings;
    }
    log.Append(WebhookCreatedEvent(id, b));
    resp := Accepted(id);
  }

  /** A webhook lead is stored as a new, unseen, live lead with the webhook's source default. */
  lemma WebhookLeadDefaults(body: WebhookBody, headers: Headers, id: string)
    requires Truthy(body.name) && !Truthy(body.source) && body.customFields.None?
    ensures var l := InsertedRow(id, WebhookInsert(body, headers));
            && l.status == Some("new") && l.isNew == Some(true) && l.deletedAt.None?
            && l.source == Some("webhook") && l.customFields == Some(map[])
  {
  }
}
