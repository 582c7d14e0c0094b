/**
 * The automation tools: drip campaigns (create, activate, list), A/B tests
 * (create, start) and recurring newsletters (create, pause). An A/B test
 * whose variants claim more than 100% of the audience is refused, and so is
 * an unconfirmed start; neither calls the API.
 */
module Automation {
  import opened Wrappers
  import opened JsonValue
  import opened Client
  import opened ToolCommon

  datatype TriggerType = Signup | Purchase | AbandonedCart | CustomTrigger
  datatype DelayUnit = Minutes | Hours | Days
  datatype TestType = SubjectTest | ContentTest | SendTimeTest
  datatype WinnerMetric = OpenRate | ClickRate | ConversionRate
  datatype Frequency = Daily | Weekly | Monthly
  datatype DripStatus = DripActive | DripPaused | DripDraft

  function TriggerName(t: TriggerType): string
  {
    match t
    case Signup => "signup"
    case Purchase => "purchase"
    case AbandonedCart => "abandoned_cart"
    case CustomTrigger => "custom"
  }

  function DelayUnitName(u: DelayUnit): string
  {
    match u
    case Minutes => "minutes"
    case Hours => "hours"
    case Days => "days"
  }

  function TestTypeName(t: TestType): string
  {
    match t
    case SubjectTest => "subject"
    case ContentTest => "content"
    case SendTimeTest => "send_time"
  }

  function MetricName(m: WinnerMetric): string
  {
    match m
    case OpenRate => "open_rate"
    case ClickRate => "click_rate"
    case ConversionRate => "conversion_rate"
  }

  function FrequencyName(f: Frequency): string
  {
    match f
    case Daily => "daily"
    case Weekly => "weekly"
    case Monthly => "monthly"
  }

  function DripStatusName(s: DripStatus): string
  {
    match s
    case DripActive => "active"
    case DripPaused => "paused"
    case DripDraft => "draft"
  }

  datatype DripEmail = DripEmail(delay: real, delayUnit: DelayUnit, templateId: string, subject: string)

  datatype NewDrip = NewDrip(name: string, description: Option<string>, triggerType: TriggerType, emails: seq<DripEmail>)

  datatype Variant = Variant(name: string, subject: Option<string>, templateId: Option<string>, percentage: real)

  datatype NewABTest = NewABTest(
    name: string,
    testType: TestType,
    variants: seq<Variant>,
    winnerMetric: WinnerMetric,
    testDuration: real,
    segmentIds: seq<string>)

  datatype NewNewsletter = NewNewsletter(
    name: string,
    frequency: Frequency,
    sendDay: Option<string>,
    sendTime: string,
    templateId: string,
    segmentIds: seq<string>)

  const PercentageOver := "Total percentage across variants cannot exceed 100%"
  const StartedMessage := "A/B test started. Winner will be automatically sent after test duration."
  const StartNotConfirmed := "A/B test start not confirmed. Set confirmStart to true to proceed."

  const CreatedSummary: map<string, string> := map["id" := "id", "name" := "name", "status" := "status"]
  const StatusSummary: map<string, string> := map["id" := "id", "status" := "status"]
  const NewsletterSummary: map<string, string> := map["id" := "id", "name" := "name", "frequency" := "frequency", "status" := "status"]

  // ---------------------------------------------------------------- drip campaigns

  /** One drip email in the request body, in snake_case. */
  function DripEmailObject(e: DripEmail): (j: Json)
    ensures Field(Some(j), "delay") == Some(JNum(e.delay))
    ensures Field(Some(j), "delay_unit") == Some(JStr(DelayUnitName(e.delayUnit)))
    ensures Field(Some(j), "template_id") == Some(JStr(e.templateId))
    ensures Field(Some(j), "subject") == Some(JStr(e.subject))
  {
    JObj(map["delay" := JNum(e.delay), "delay_unit" := JStr(DelayUnitName(e.delayUnit)),
             "template_id" := JStr(e.templateId), "subject" := JStr(e.subject)])
  }

  /** `emails.map(...)`: one object per email, in the same order. */
  function DripEmails(es: seq<DripEmail>): (j: Json)
    ensures j.JArr? && |j.items| == |es|
    ensures forall i :: 0 <= i < |es| ==> j.items[i] == DripEmailObject(es[i])
  {
    JArr(seq(|es|, i requires 0 <= i < |es| => DripEmailObject(es[i])))
  }

  function DripPayload(d: NewDrip): (p: Json)
    ensures Field(Some(p), "name") == Some(JStr(d.name))
    ensures Field(Some(p), "description") == Str(d.description)
    ensures Field(Some(p), "trigger_type") == Some(JStr(TriggerName(d.triggerType)))
    ensures Field(Some(p), "emails") == Some(DripEmails(d.emails))
    ensures Field(Some(p), "status") == Some(JStr("draft"))
  {
    JObj(map["name" := JStr(d.name), "description" := Val(Str(d.description)),
             "trigger_type" := JStr(TriggerName(d.triggerType)), "emails" := DripEmails(d.emails),
             "status" := JStr("draft")])
  }

  function CreateDripCampaign(d: NewDrip, response: APIResponse): (run: ToolRun)
    ensures run.call == Some(Call(POST, "/automation/drip-campaigns", Some(DripPayload(d))))
    ensures run.result == SavedCounted(response, "Failed to create drip campaign", "dripCampaign", CreatedSummary,
                                       "emailCount", |d.emails|,
                                       "Drip campaign \"" + d.name + "\" created with " + NatToString(|d.emails|) + " emails")
  {
    ToolRun(Some(Call(POST, "/automation/drip-campaigns", Some(DripPayload(d)))),
            SavedCounted(response, "Failed to create drip campaign", "dripCampaign", CreatedSummary,
                         "emailCount", |d.emails|,
                         "Drip campaign \"" + d.name + "\" created with " + NatToString(|d.emails|) + " emails"))
  }

  function ActivateDripCampaign(dripCampaignId: string, response: APIResponse): (run: ToolRun)
    ensures run.call == Some(Call(PATCH, "/automation/drip-campaigns/" + dripCampaignId + "/activate",
                                  Some(JObj(map["status" := JStr("active")]))))
    ensures run.result == Saved(response, "Failed to activate drip campaign", "dripCampaign", StatusSummary,
                                "Drip campaign activated successfully")
  {
    ToolRun(Some(Call(PATCH, "/automation/drip-campaigns/" + dripCampaignId + "/activate",
                      Some(JObj(map["status" := JStr("active")])))),
            Saved(response, "Failed to activate drip campaign", "dripCampaign", StatusSummary,
                  "Drip campaign activated successfully"))
  }

  /** `endpoint`: the limit always, `&status=` only under a filter. */
  method DripListEndpoint(status: Option<DripStatus>, limit: int) returns (endpoint: string)
    ensures status.None? ==> endpoint == "/automation/drip-campaigns?" + Query("limit", limit)
    ensures status.Some? ==> endpoint == "/automation/drip-campaigns?" + Query("limit", limit)
                                         + "&status=" + DripStatusName(status.value)
  {
    endpoint := "/automation/drip-campaigns?" + Query("limit", limit);
    if status.Some? {
      endpoint := endpoint + "&status=" + DripStatusName(status.value);
    }
  }

  method ListDripCampaigns(status: Option<DripStatus>, limit: int, response: APIResponse) returns (run: ToolRun)
    ensures run.call.Some? && run.call.value.verb == GET && run.call.value.payload.None?
    ensures status.None? ==> run.call.value.endpoint == "/automation/drip-campaigns?" + Query("limit", limit)
    ensures status.Some? ==> run.call.value.endpoint == "/automation/drip-campaigns?" + Query("limit", limit)
                                                        + "&status=" + DripStatusName(status.value)
    ensures run.result == ListResult(response, "dripCampaigns", "Failed to list drip campaigns", "drip campaigns")
  {
    var endpoint := DripListEndpoint(status, limit);
    run := ToolRun(Some(Call(GET, endpoint, None)),
                   ListResult(response, "dripCampaigns", "Failed to list drip campaigns", "drip campaigns"));
  }

  // ---------------------------------------------------------------- A/B tests

  /** `variants.reduce((sum, v) => sum + v.percentage, 0)`: a left fold. */
  function TotalPercentage(vs: seq<Variant>): (r: real)
    ensures (forall i :: 0 <= i < |vs| ==> 0.0 <= vs[i].percentage) ==> 0.0 <= r
    ensures (forall i :: 0 <= i < |vs| ==> vs[i].percentage <= 100.0) ==> r <= 100.0 * |vs| as real
  {
    if |vs| == 0 then 0.0 else TotalPercentage(vs[..|vs| - 1]) + vs[|vs| - 1].percentage
  }

  /** The same sum taken from the front, as a reference definition. */
  function SumFromFront(vs: seq<Variant>): real
  {
    if |vs| == 0 then 0.0 else vs[0].percentage + SumFromFront(vs[1..])
  }

  /** Each percentage is between 0 and 100, and there are at least two variants. */
  predicate WellFormedVariants(vs: seq<Variant>)
  {
    |vs| >= 2 && forall i :: 0 <= i < |vs| ==> 0.0 <= vs[i].percentage <= 100.0
  }

  lemma {:induction false} SumFromFrontSnoc(vs: seq<Variant>, v: Variant)
    ensures SumFromFront(vs + [v]) == SumFromFront(vs) + v.percentage
    decreases |vs|
  {
    if |vs| == 0 {
      assert (vs + [v])[1..] == [];
    } else {
      assert (vs + [v])[1..] == vs[1..] + [v];
      SumFromFrontSnoc(vs[1..], v);
    }
  }

  /** The fold the tool runs and the front-first sum agree on every input. */
  lemma {:induction false} FoldsAgree(vs: seq<Variant>)
    ensures TotalPercentage(vs) == SumFromFront(vs)
    decreases |vs|
  {
    if |vs| > 0 {
      var init := vs[..|vs| - 1];
      FoldsAgree(init);
      SumFromFrontSnoc(init, vs[|vs| - 1]);
      assert init + [vs[|vs| - 1]] == vs;
    }
  }

  /** With no negative percentage, no prefix of the variants claims more than
      all of them: the total bounds every partial sum. */
  lemma {:induction false} PrefixWithinTotal(vs: seq<Variant>, k: nat)
    requires k <= |vs|
    requires forall i :: 0 <= i < |vs| ==> 0.0 <= vs[i].percentage
    ensures TotalPercentage(vs[..k]) <= TotalPercentage(vs)
    decreases |vs|
  {
    if k < |vs| {
      var init := vs[..|vs| - 1];
      assert init[..k] == vs[..k];
      PrefixWithinTotal(init, k);
    } else {
      assert vs[..k] == vs;
    }
  }


  function VariantObject(v: Variant): (j: Json)
    ensures Field(Some(j), "name") == Some(JStr(v.name))
    ensures Field(Some(j), "subject") == Str(v.subject)
    ensures Field(Some(j), "template_id") == Str(v.templateId)
    ensures Field(Some(j), "percentage") == Some(JNum(v.percentage))
  {
    JObj(map["name" := JStr(v.name), "subject" := Val(Str(v.subject)),
             "template_id" := Val(Str(v.templateId)), "percentage" := JNum(v.percentage)])
  }

  /** `variants.map(...)`: one object per variant, in the same order. */
  function VariantObjects(vs: seq<Variant>): (j: Json)
    ensures j.JArr? && |j.items| == |vs|
    ensures forall i :: 0 <= i < |vs| ==> j.items[i] == VariantObject(vs[i])
  {
    JArr(seq(|vs|, i requires 0 <= i < |vs| => VariantObject(vs[i])))
  }

  function ABTestPayload(t: NewABTest): (p: Json)
    ensures Field(Some(p), "name") == Some(JStr(t.name))
    ensures Field(Some(p), "test_type") == Some(JStr(TestTypeName(t.testType)))
    ensures Field(Some(p), "variants") == Some(VariantObjects(t.variants))
    ensures Field(Some(p), "winner_metric") == Some(JStr(MetricName(t.winnerMetric)))
    ensures Field(Some(p), "test_duration") == Some(JNum(t.testDuration))
    ensures Field(Some(p), "segment_ids") == Some(StrArray(t.segmentIds))
    ensures Field(Some(p), "status") == Some(JStr("draft"))
  {
    JObj(map["name" := JStr(t.name), "test_type" := JStr(TestTypeName(t.testType)),
             "variants" := VariantObjects(t.variants), "winner_metric" := JStr(MetricName(t.winnerMetric)),
             "test_duration" := JNum(t.testDuration), "segment_ids" := StrArray(t.segmentIds),
             "status" := JStr("draft")])
  }

  /** The create message quotes the test's name and ends with its variant count. */
  function ABTestMessage(t: NewABTest): (r: string)
    ensures var count := NatToString(|t.variants|) + " variants";
      |r| >= 10 + |t.name| + |count| && r[10..10 + |t.name|] == t.name && r[|r| - |count|..] == count
  {
    "A/B test \"" + t.name + "\" created with " + NatToString(|t.variants|) + " variants"
  }

  function CreateABTest(t: NewABTest, response: APIResponse): (run: ToolRun)
    requires WellFormedVariants(t.variants)
    ensures run.call.None? <==> TotalPercentage(t.variants) > 100.0
    ensures run.call.None? ==> run.result == Rejection(PercentageOver, map[])
    ensures run.call.Some? ==> run.call.value == Call(POST, "/campaigns/ab-tests", Some(ABTestPayload(t)))
    ensures run.call.Some? ==>
      run.result == SavedCounted(response, "Failed to create A/B test", "abTest", CreatedSummary,
                                 "variantCount", |t.variants|, ABTestMessage(t))
  {
    if TotalPercentage(t.variants) > 100.0 then ToolRun(None, Rejection(PercentageOver, map[]))
    else ToolRun(Some(Call(POST, "/campaigns/ab-tests", Some(ABTestPayload(t)))),
                 SavedCounted(response, "Failed to create A/B test", "abTest", CreatedSummary,
                              "variantCount", |t.variants|, ABTestMessage(t)))
  }

  /** A test whose shares fold to at most 100 is accepted, and then no run of
      leading variants, summed either way, claims more than the whole audience. */
  lemma AcceptedTestFits(t: NewABTest, response: APIResponse, k: nat)
    requires WellFormedVariants(t.variants) && k <= |t.variants|
    requires TotalPercentage(t.variants) <= 100.0
    ensures CreateABTest(t, response).call.Some?
    ensures TotalPercentage(t.variants[..k]) <= 100.0
    ensures SumFromFront(t.variants) <= 100.0
    ensures SumFromFront(t.variants[..k]) <= 100.0
  {
    PrefixWithinTotal(t.variants, k);
    FoldsAgree(t.variants);
    FoldsAgree(t.variants[..k]);
  }

  function StartABTest(abTestId: string, confirmStart: bool, response: APIResponse): (run: ToolRun)
    ensures run.call.None? <==> !confirmStart
    ensures run.call.None? ==> run.result == Rejection(StartNotConfirmed, map[])
    ensures run.call.Some? ==> run.call.value == Call(PATCH, "/campaigns/ab-tests/" + abTestId + "/start",
                                                      Some(JObj(map["status" := JStr("testing")])))
    ensures run.call.Some? ==>
      run.result == Saved(response, "Failed to start A/B test", "abTest", StatusSummary,
                          StartedMessage)
  {
    if !confirmStart then ToolRun(None, Rejection(StartNotConfirmed, map[]))
    else ToolRun(Some(Call(PATCH, "/campaigns/ab-tests/" + abTestId + "/start", Some(JObj(map["status" := JStr("testing")])))),
                 Saved(response, "Failed to start A/B test", "abTest", StatusSummary,
                       StartedMessage))
  }

  // ---------------------------------------------------------------- newsletters

  function NewsletterPayload(n: NewNewsletter): (p: Json)
    ensures Field(Some(p), "name") == Some(JStr(n.name))
    ensures Field(Some(p), "frequency") == Some(JStr(FrequencyName(n.frequency)))
    ensures Field(Some(p), "send_day") == Str(n.sendDay)
    ensures Field(Some(p), "send_time") == Some(JStr(n.sendTime))
    ensures Field(Some(p), "template_id") == Some(JStr(n.templateId))
    ensures Field(Some(p), "segment_ids") == Some(StrArray(n.segmentIds))
    ensures Field(Some(p), "status") == Some(JStr("active"))
  {
    JObj(map["name" := JStr(n.name), "frequency" := JStr(FrequencyName(n.frequency)),
             "send_day" := Val(Str(n.sendDay)), "send_time" := JStr(n.sendTime),
             "template_id" := JStr(n.templateId), "segment_ids" := StrArray(n.segmentIds),
             "status" := JStr("active")])
  }

  /** The create message quotes the newsletter's name and ends with its frequency. */
  function NewsletterMessage(n: NewNewsletter): (r: string)
    ensures var freq := FrequencyName(n.frequency) + " frequency";
      |r| >= 12 + |n.name| + |freq| && r[12..12 + |n.name|] == n.name && r[|r| - |freq|..] == freq
  {
    "Newsletter \"" + n.name + "\" created and activated with " + FrequencyName(n.frequency) + " frequency"
  }

  function CreateNewsletter(n: NewNewsletter, response: APIResponse): (run: ToolRun)
    ensures run.call == Some(Call(POST, "/automation/newsletters", Some(NewsletterPayload(n))))
    ensures run.result == Saved(response, "Failed to create newsletter", "newsletter", NewsletterSummary,
                                NewsletterMessage(n))
  {
    ToolRun(Some(Call(POST, "/automation/newsletters", Some(NewsletterPayload(n)))),
            Saved(response, "Failed to create newsletter", "newsletter", NewsletterSummary, NewsletterMessage(n)))
  }

  function PauseNewsletter(newsletterId: string, response: APIResponse): (run: ToolRun)
    ensures run.call == Some(Call(PATCH, "/automation/newsletters/" + newsletterId,
                                  Some(JObj(map["status" := JStr("paused")]))))
    ensures run.result == Saved(response, "Failed to pause newsletter", "newsletter", StatusSummary,
                                "Newsletter paused successfully")
  {
    ToolRun(Some(Call(PATCH, "/automation/newsletters/" + newsletterId, Some(JObj(map["status" := JStr("paused")])))),
            Saved(response, "Failed to pause newsletter", "newsletter", StatusSummary, "Newsletter paused successfully"))
  }
}
