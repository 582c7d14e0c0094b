/**
 * Properties that relate several tool members: the partial-update bodies are
 * fully determined by their specifications, the counts a result reports
 * agree with the arrays the request carried, and the A/B percentage guard
 * sits exactly at 100.
 */
module ToolProperties {
  import opened Wrappers
  import opened JsonValue
  import opened Client
  import opened ToolCommon
  import opened Contacts
  import opened Campaigns
  import opened Automation
  import opened Templates

  /** Only one body meets the contact-update specification, so
      `ContactUpdateBody` computes it exactly. */
  lemma ContactUpdateBodyDetermined(d1: map<string, Json>, d2: map<string, Json>, u: ContactChanges)
    requires SendsTruthyChanges(d1, u) && SendsTruthyChanges(d2, u)
    ensures d1 == d2
  {
    assert d1.Keys == d2.Keys;
    forall k | k in d1
      ensures d1[k] == d2[k]
    {
    }
  }

  /** An update that changes nothing truthy still goes out, with `{}`. */
  lemma NoContactChangesEmptyBody(d: map<string, Json>, u: ContactChanges)
    requires SendsTruthyChanges(d, u)
    requires !Present(u.firstName) && !Present(u.lastName) && !Present(u.phone)
    requires u.tags.None? && u.customFields.None? && u.subscriptionStatus.None?
    ensures d == map[]
  {
    assert d.Keys == {};
  }

  /** Only one body meets the template-update specification. */
  lemma TemplateUpdateBodyDetermined(d1: map<string, Json>, d2: map<string, Json>, u: TemplateChanges)
    requires SendsTruthyTemplateChanges(d1, u) && SendsTruthyTemplateChanges(d2, u)
    ensures d1 == d2
  {
    assert d1.Keys == d2.Keys;
    forall k | k in d1
      ensures d1[k] == d2[k]
    {
    }
  }

  /** A template update with no non-empty field patches with `{}`. */
  lemma NoTemplateChangesEmptyBody(d: map<string, Json>, u: TemplateChanges)
    requires SendsTruthyTemplateChanges(d, u)
    requires !Present(u.name) && !Present(u.subject) && !Present(u.htmlContent) && !Present(u.category)
    ensures d == map[]
  {
    assert d.Keys == {};
  }

  /** The `emailCount` a drip result reports is the number of emails the
      request carried. */
  lemma DripCountMatchesPayload(d: NewDrip, response: APIResponse)
    requires response.Success?
    ensures var run := CreateDripCampaign(d, response);
      && run.call.Some? && run.call.value.payload.Some?
      && Field(run.call.value.payload, "emails").Some?
      && Field(run.call.value.payload, "emails").value.JArr?
      && Field(Field(Some(run.result), "dripCampaign"), "emailCount")
         == Some(JNum(|Field(run.call.value.payload, "emails").value.items| as real))
  {
  }

  /** The `variantCount` an accepted A/B test reports is the number of
      variants the request carried. */
  lemma VariantCountMatchesPayload(t: NewABTest, response: APIResponse)
    requires WellFormedVariants(t.variants) && TotalPercentage(t.variants) <= 100.0
    requires response.Success?
    ensures var run := CreateABTest(t, response);
      && run.call.Some? && run.call.value.payload.Some?
      && Field(run.call.value.payload, "variants").Some?
      && Field(run.call.value.payload, "variants").value.JArr?
      && Field(Field(Some(run.result), "abTest"), "variantCount")
         == Some(JNum(|Field(run.call.value.payload, "variants").value.items| as real))
  {
  }

  /** Two variants splitting the audience evenly pass the guard; one more
      point is refused without a call. */
  lemma PercentageBoundary(v: Variant, response: APIResponse)
    ensures var t := NewABTest("t", SubjectTest, [v.(percentage := 50.0), v.(percentage := 50.0)], OpenRate, 24.0, []);
      CreateABTest(t, response).call.Some?
    ensures var t := NewABTest("t", SubjectTest, [v.(percentage := 50.0), v.(percentage := 51.0)], OpenRate, 24.0, []);
      CreateABTest(t, response).call.None? && CreateABTest(t, response).result == Rejection(PercentageOver, map[])
  {
    var t := NewABTest("t", SubjectTest, [v.(percentage := 50.0), v.(percentage := 50.0)], OpenRate, 24.0, []);
    TwoVariantTotal(t.variants[0], t.variants[1]);
    var u := NewABTest("t", SubjectTest, [v.(percentage := 50.0), v.(percentage := 51.0)], OpenRate, 24.0, []);
    TwoVariantTotal(u.variants[0], u.variants[1]);
  }

  lemma TwoVariantTotal(a: Variant, b: Variant)
    ensures TotalPercentage([a, b]) == a.percentage + b.percentage
  {
    var both := [a, b];
    assert both[..|both| - 1] == [a];
    assert TotalPercentage(both) == TotalPercentage([a]) + b.percentage;
    assert [a][..0] == [];
    assert TotalPercentage([a]) == a.percentage;
  }
}
