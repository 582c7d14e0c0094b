/**
 * The campaign tools: list segments, create a draft, send or schedule, read
 * statistics, list and delete campaigns. Creating needs a template or HTML
 * content, and sending needs explicit confirmation; either guard refuses
 * without calling the API.
 */
module Campaigns {
  import opened Wrappers
  import opened JsonValue
  import opened Client
  import opened ToolCommon

  datatype CampaignStatus = Draft | Scheduled | Sending | Sent | Paused | Cancelled

  function CampaignStatusName(s: CampaignStatus): string
  {
    match s
    case Draft => "draft"
    case Scheduled => "scheduled"
    case Sending => "sending"
    case Sent => "sent"
    case Paused => "paused"
    case Cancelled => "cancelled"
  }

  datatype NewCampaign = NewCampaign(
    name: string,
    subject: string,
    previewText: Option<string>,
    fromName: string,
    fromEmail: string,
    replyTo: Option<string>,
    templateId: Option<string>,
    htmlContent: Option<string>,
    segmentIds: Option<seq<string>>,
    listIds: Option<seq<string>>)

  const ContentRequired := "Either templateId or htmlContent must be provided"
  const SendNotConfirmed := "Campaign send not confirmed. Set confirmSend to true to proceed."
  const SendSafetyWarning := "SAFETY: Campaign sending requires explicit confirmation to prevent accidental sends."
  const DraftWarning := "Campaign created but NOT sent. Review and use send_campaign tool to send."

  const CampaignSummary: map<string, string> := map["id" := "id", "name" := "name", "subject" := "subject", "status" := "status"]
  const SendSummary: map<string, string> := map["id" := "id", "status" := "status", "scheduledAt" := "scheduledAt"]

  /** The statistics the result passes on. */
  const StatKeys: set<string> := {
    "campaignId", "sent", "delivered", "opened", "clicked", "bounced", "unsubscribed",
    "openRate", "clickRate", "bounceRate", "unsubscribeRate", "revenue", "topLinks"}
  /** The statistics that read 0 when missing or falsy; the others (the
      campaign id, revenue and top links) are passed on as they come. */
  const StatCounters: set<string> := {
    "sent", "delivered", "opened", "clicked", "bounced", "unsubscribed",
    "openRate", "clickRate", "bounceRate", "unsubscribeRate"}

  // ---------------------------------------------------------------- segments

  function ListSegments(limit: int, offset: int, response: APIResponse): (run: ToolRun)
    ensures run.call == Some(Call(GET, "/segments?" + Query("limit", limit) + "&" + Query("offset", offset), None))
    ensures run.result == ListResult(response, "segments", "Failed to list segments", "segments")
  {
    ToolRun(Some(Call(GET, "/segments?" + Query("limit", limit) + "&" + Query("offset", offset), None)),
            ListResult(response, "segments", "Failed to list segments", "segments"))
  }

  // ---------------------------------------------------------------- create

  /** The body `create` posts: the input in snake_case, as a regular draft. */
  function NewCampaignPayload(c: NewCampaign): (p: Json)
    ensures p.JObj?
    ensures Field(Some(p), "name") == Some(JStr(c.name))
    ensures Field(Some(p), "subject") == Some(JStr(c.subject))
    ensures Field(Some(p), "preview_text") == Str(c.previewText)
    ensures Field(Some(p), "from_name") == Some(JStr(c.fromName))
    ensures Field(Some(p), "from_email") == Some(JStr(c.fromEmail))
    ensures Field(Some(p), "reply_to") == Str(c.replyTo)
    ensures Field(Some(p), "template_id") == Str(c.templateId)
    ensures Field(Some(p), "html_content") == Str(c.htmlContent)
    ensures Field(Some(p), "segment_ids") == StrArrayOpt(c.segmentIds)
    ensures Field(Some(p), "list_ids") == StrArrayOpt(c.listIds)
    ensures Field(Some(p), "status") == Some(JStr("draft"))
    ensures Field(Some(p), "type") == Some(JStr("regular"))
  {
    JObj(map[
      "name" := JStr(c.name), "subject" := JStr(c.subject), "preview_text" := Val(Str(c.previewText)),
      "from_name" := JStr(c.fromName), "from_email" := JStr(c.fromEmail), "reply_to" := Val(Str(c.replyTo)),
      "template_id" := Val(Str(c.templateId)), "html_content" := Val(Str(c.htmlContent)),
      "segment_ids" := Val(StrArrayOpt(c.segmentIds)), "list_ids" := Val(StrArrayOpt(c.listIds)),
      "status" := JStr("draft"), "type" := JStr("regular")])
  }

  /** The create message quotes the campaign's name after `Campaign `. */
  function DraftMessage(name: string): (r: string)
    ensures |r| > 10 + |name| && r[..10] == "Campaign \"" && r[10..10 + |name|] == name
  {
    "Campaign \"" + name + "\" created as draft. Use bayengage_send_campaign to send it."
  }

  /** What create returns: `Saved`'s mapping, with a warning on success
      that nothing was sent. */
  function CampaignCreated(response: APIResponse, name: string): (r: Json)
    ensures response.Failure? ==> r == FailureResult(response.error, "Failed to create campaign")
    ensures response.Success? ==>
      && Field(Some(r), "warning") == Some(JStr(DraftWarning))
      && forall k :: k != "warning" ==>
           Field(Some(r), k) == Field(Some(Saved(response, "Failed to create campaign", "campaign", CampaignSummary, DraftMessage(name))), k)
  {
    var saved := Saved(response, "Failed to create campaign", "campaign", CampaignSummary, DraftMessage(name));
    if response.Failure? then saved else JObj(saved.fields["warning" := JStr(DraftWarning)])
  }

  function CreateCampaign(c: NewCampaign, response: APIResponse): (run: ToolRun)
    ensures run.call.None? <==> !Present(c.templateId) && !Present(c.htmlContent)
    ensures run.call.None? ==> run.result == Rejection(ContentRequired, map[])
    ensures run.call.Some? ==> run.call.value == Call(POST, "/campaigns", Some(NewCampaignPayload(c)))
    ensures run.call.Some? ==> run.result == CampaignCreated(response, c.name)
  {
    if !Present(c.templateId) && !Present(c.htmlContent) then ToolRun(None, Rejection(ContentRequired, map[]))
    else ToolRun(Some(Call(POST, "/campaigns", Some(NewCampaignPayload(c)))), CampaignCreated(response, c.name))
  }

  // ---------------------------------------------------------------- send

  /** `payload`: created with its status, then given `scheduled_at` only when
      a schedule is set. */
  method SendPayload(scheduledAt: Option<string>) returns (payload: map<string, Json>)
    ensures Present(scheduledAt) ==> payload == map["status" := JStr("scheduled"), "scheduled_at" := JStr(scheduledAt.value)]
    ensures !Present(scheduledAt) ==> payload == map["status" := JStr("sending")]
  {
    payload := map["status" := JStr(if Present(scheduledAt) then "scheduled" else "sending")];
    if Present(scheduledAt) {
      payload := payload["scheduled_at" := JStr(scheduledAt.value)];
    }
  }

  const ScheduledPrefix := "Campaign scheduled for "

  /** A scheduled send names its time; an immediate one says it is sending. */
  function SendMessage(scheduledAt: Option<string>): (r: string)
    ensures Present(scheduledAt) ==> |r| >= |ScheduledPrefix| && r[..|ScheduledPrefix|] == ScheduledPrefix && r[|ScheduledPrefix|..] == scheduledAt.value
    ensures !Present(scheduledAt) ==> r == "Campaign is now sending"
  {
    if Present(scheduledAt) then ScheduledPrefix + scheduledAt.value else "Campaign is now sending"
  }

  method SendCampaign(campaignId: string, scheduledAt: Option<string>, confirmSend: bool, response: APIResponse)
    returns (run: ToolRun)
    ensures run.call.None? <==> !confirmSend
    ensures run.call.None? ==> run.result == Rejection(SendNotConfirmed, map["warning" := JStr(SendSafetyWarning)])
    ensures run.call.Some? ==>
      && run.call.value.verb == PATCH
      && run.call.value.endpoint == "/campaigns/" + campaignId + "/send"
      && run.call.value.payload.Some? && run.call.value.payload.value.JObj?
      && (Present(scheduledAt) ==>
            run.call.value.payload.value.fields == map["status" := JStr("scheduled"), "scheduled_at" := JStr(scheduledAt.value)])
      && (!Present(scheduledAt) ==> run.call.value.payload.value.fields == map["status" := JStr("sending")])
    ensures run.call.Some? ==> run.result == Saved(response, "Failed to send campaign", "campaign", SendSummary, SendMessage(scheduledAt))
  {
    if !confirmSend {
      return ToolRun(None, Rejection(SendNotConfirmed, map["warning" := JStr(SendSafetyWarning)]));
    }
    var payload := SendPayload(scheduledAt);
    var result := Saved(response, "Failed to send campaign", "campaign", SendSummary, SendMessage(scheduledAt));
    run := ToolRun(Some(Call(PATCH, "/campaigns/" + campaignId + "/send", Some(JObj(payload)))), result);
  }

  // ---------------------------------------------------------------- stats

  /** `stats`: the counters and rates read 0 when missing or falsy, the rest
      are passed on as they come. */
  function StatsObject(data: Json): (r: Json)
    ensures r.JObj? && r.fields.Keys == StatKeys
    ensures forall k :: k in StatCounters ==> Field(Some(r), k) == Some(Or(Field(Some(data), k), JNum(0.0)))
    ensures forall k :: k in StatKeys && k !in StatCounters ==> Field(Some(r), k) == Field(Some(data), k)
  {
    JObj(map k | k in StatKeys :: if k in StatCounters then Or(Field(Some(data), k), JNum(0.0)) else Val(Field(Some(data), k)))
  }

  function GetCampaignStats(campaignId: string, response: APIResponse): (run: ToolRun)
    ensures run.call == Some(Call(GET, "/campaigns/" + campaignId + "/stats", None))
    ensures response.Failure? ==> run.result == FailureResult(response.error, "Failed to retrieve campaign stats")
    ensures response.Success? ==>
      && Field(Some(run.result), "success") == Some(JBool(true))
      && Field(Some(run.result), "stats") == Some(StatsObject(response.data))
  {
    var result :=
      if response.Failure? then FailureResult(response.error, "Failed to retrieve campaign stats")
      else Succeeded(map["stats" := StatsObject(response.data)]);
    ToolRun(Some(Call(GET, "/campaigns/" + campaignId + "/stats", None)), result)
  }

  // ---------------------------------------------------------------- list, delete

  /** `endpoint`: limit and offset always, `&status=` only under a filter. */
  method CampaignsEndpoint(status: Option<CampaignStatus>, limit: int, offset: int) returns (endpoint: string)
    ensures status.None? ==> endpoint == "/campaigns?" + Query("limit", limit) + "&" + Query("offset", offset)
    ensures status.Some? ==> endpoint == "/campaigns?" + Query("limit", limit) + "&" + Query("offset", offset)
                                         + "&status=" + CampaignStatusName(status.value)
  {
    endpoint := "/campaigns?" + Query("limit", limit) + "&" + Query("offset", offset);
    if status.Some? {
      endpoint := endpoint + "&status=" + CampaignStatusName(status.value);
    }
  }

  method ListCampaigns(status: Option<CampaignStatus>, limit: int, offset: int, response: APIResponse)
    returns (run: ToolRun)
    ensures run.call.Some? && run.call.value.verb == GET && run.call.value.payload.None?
    ensures status.None? ==> run.call.value.endpoint == "/campaigns?" + Query("limit", limit) + "&" + Query("offset", offset)
    ensures status.Some? ==> run.call.value.endpoint == "/campaigns?" + Query("limit", limit) + "&" + Query("offset", offset)
                                                        + "&status=" + CampaignStatusName(status.value)
    ensures run.result == ListResult(response, "campaigns", "Failed to list campaigns", "campaigns")
  {
    var endpoint := CampaignsEndpoint(status, limit, offset);
    run := ToolRun(Some(Call(GET, endpoint, None)), ListResult(response, "campaigns", "Failed to list campaigns", "campaigns"));
  }

  function DeleteCampaign(campaignId: string, response: APIResponse): (run: ToolRun)
    ensures run.call == Some(Call(DELETE, "/campaigns/" + campaignId, None))
    ensures response.Failure? ==> run.result == FailureResult(response.error, "Failed to delete campaign")
    ensures response.Success? ==>
      && Field(Some(run.result), "success") == Some(JBool(true))
      && Field(Some(run.result), "message") == Some(JStr("Campaign deleted successfully"))
      && run.result.JObj? && run.result.fields.Keys == {"success", "message"}
  {
    var result :=
      if response.Failure? then FailureResult(response.error, "Failed to delete campaign")
      else Succeeded(map["message" := JStr("Campaign deleted successfully")]);
    ToolRun(Some(Call(DELETE, "/campaigns/" + campaignId, None)), result)
  }
}
