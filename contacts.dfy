/**
 * The contact tools: create, update, get and delete a contact. Update, get
 * and delete address a contact by id or by e-mail and refuse, without
 * calling the API, when neither is given.
 */
module Contacts {
  import opened Wrappers
  import opened JsonValue
  import opened Client
  import opened ToolCommon

  datatype SubscriptionStatus = Subscribed | Unsubscribed | Pending

  function SubscriptionName(s: SubscriptionStatus): string
  {
    match s
    case Subscribed => "subscribed"
    case Unsubscribed => "unsubscribed"
    case Pending => "pending"
  }

  datatype NewContact = NewContact(
    email: string,
    firstName: Option<string>,
    lastName: Option<string>,
    phone: Option<string>,
    tags: Option<seq<string>>,
    customFields: Option<map<string, Json>>,
    listIds: Option<seq<string>>)

  datatype ContactChanges = ContactChanges(
    contactId: Option<string>,
    email: Option<string>,
    firstName: Option<string>,
    lastName: Option<string>,
    phone: Option<string>,
    tags: Option<seq<string>>,
    customFields: Option<map<string, Json>>,
    subscriptionStatus: Option<SubscriptionStatus>)

  const IdOrEmailRequired := "Either contactId or email must be provided"

  /** The response fields the create and update results pass on, camelCased. */
  const ContactSummary: map<string, string> := map[
    "id" := "id", "email" := "email", "firstName" := "first_name",
    "lastName" := "last_name", "subscriptionStatus" := "subscription_status"]

  /** The response fields the get result passes on, camelCased. */
  const ContactDetail: map<string, string> := map[
    "id" := "id", "email" := "email", "firstName" := "first_name",
    "lastName" := "last_name", "phone" := "phone", "tags" := "tags",
    "subscriptionStatus" := "subscription_status", "customFields" := "custom_fields",
    "createdAt" := "created_at", "updatedAt" := "updated_at"]

  /** A contact is addressed by id when one is given, by e-mail otherwise. */
  function ContactEndpoint(contactId: Option<string>, email: Option<string>, encode: string -> string): (e: string)
    requires Present(contactId) || Present(email)
    ensures Present(contactId) ==> e == "/contacts/" + contactId.value
    ensures !Present(contactId) ==> e == "/contacts/by-email/" + encode(email.value)
  {
    if Present(contactId) then "/contacts/" + contactId.value
    else "/contacts/by-email/" + encode(email.value)
  }

  // ---------------------------------------------------------------- create

  /** The body `create` posts: the input in snake_case, subscribed. */
  function NewContactPayload(c: NewContact): (p: Json)
    ensures p.JObj?
    ensures Field(Some(p), "email") == Some(JStr(c.email))
    ensures Field(Some(p), "first_name") == Str(c.firstName)
    ensures Field(Some(p), "last_name") == Str(c.lastName)
    ensures Field(Some(p), "phone") == Str(c.phone)
    ensures Field(Some(p), "tags") == StrArrayOpt(c.tags)
    ensures Field(Some(p), "custom_fields") == ObjOpt(c.customFields)
    ensures Field(Some(p), "list_ids") == StrArrayOpt(c.listIds)
    ensures Field(Some(p), "subscription_status") == Some(JStr("subscribed"))
  {
    JObj(map[
      "email" := JStr(c.email), "first_name" := Val(Str(c.firstName)), "last_name" := Val(Str(c.lastName)),
      "phone" := Val(Str(c.phone)), "tags" := Val(StrArrayOpt(c.tags)), "custom_fields" := Val(ObjOpt(c.customFields)),
      "list_ids" := Val(StrArrayOpt(c.listIds)), "subscription_status" := JStr("subscribed")])
  }

  function CreateContact(c: NewContact, response: APIResponse): (run: ToolRun)
    ensures run.call == Some(Call(POST, "/contacts", Some(NewContactPayload(c))))
    ensures run.result == Saved(response, "Failed to create contact", "contact", ContactSummary, "Contact " + c.email + " created successfully")
  {
    ToolRun(Some(Call(POST, "/contacts", Some(NewContactPayload(c)))),
            Saved(response, "Failed to create contact", "contact", ContactSummary, "Contact " + c.email + " created successfully"))
  }

  // ---------------------------------------------------------------- update

  /** The update body holds exactly the changes that are truthy, in snake_case:
      an empty string is not sent, while an empty `tags` array is. */
  predicate SendsTruthyChanges(d: map<string, Json>, u: ContactChanges)
  {
    && d.Keys <= {"first_name", "last_name", "phone", "tags", "custom_fields", "subscription_status"}
    && ("first_name" in d <==> Present(u.firstName))
    && ("first_name" in d ==> d["first_name"] == JStr(u.firstName.value))
    && ("last_name" in d <==> Present(u.lastName))
    && ("last_name" in d ==> d["last_name"] == JStr(u.lastName.value))
    && ("phone" in d <==> Present(u.phone))
    && ("phone" in d ==> d["phone"] == JStr(u.phone.value))
    && ("tags" in d <==> u.tags.Some?)
    && ("tags" in d ==> d["tags"] == StrArray(u.tags.value))
    && ("custom_fields" in d <==> u.customFields.Some?)
    && ("custom_fields" in d ==> d["custom_fields"] == JObj(u.customFields.value))
    && ("subscription_status" in d <==> u.subscriptionStatus.Some?)
    && ("subscription_status" in d ==> d["subscription_status"] == JStr(SubscriptionName(u.subscriptionStatus.value)))
  }

  /** `updateData`, filled by one guarded assignment per optional field. */
  method ContactUpdateBody(u: ContactChanges) returns (updateData: map<string, Json>)
    ensures SendsTruthyChanges(updateData, u)
  {
    updateData := map[];
    if Present(u.firstName) {
      updateData := updateData["first_name" := JStr(u.firstName.value)];
    }
    if Present(u.lastName) {
      updateData := updateData["last_name" := JStr(u.lastName.value)];
    }
    if Present(u.phone) {
      updateData := updateData["phone" := JStr(u.phone.value)];
    }
    if u.tags.Some? {
      updateData := updateData["tags" := StrArray(u.tags.value)];
    }
    if u.customFields.Some? {
      updateData := updateData["custom_fields" := JObj(u.customFields.value)];
    }
    if u.subscriptionStatus.Some? {
      updateData := updateData["subscription_status" := JStr(SubscriptionName(u.subscriptionStatus.value))];
    }
  }

  method UpdateContact(u: ContactChanges, encode: string -> string, response: APIResponse) returns (run: ToolRun)
    ensures run.call.None? <==> !Present(u.contactId) && !Present(u.email)
    ensures run.call.None? ==> run.result == Rejection(IdOrEmailRequired, map[])
    ensures run.call.Some? ==>
      && run.call.value.verb == PATCH
      && run.call.value.endpoint == ContactEndpoint(u.contactId, u.email, encode)
      && run.call.value.payload.Some? && run.call.value.payload.value.JObj?
      && SendsTruthyChanges(run.call.value.payload.value.fields, u)
    ensures run.call.Some? ==> run.result == Saved(response, "Failed to update contact", "contact", ContactSummary, "Contact updated successfully")
  {
    if !Present(u.contactId) && !Present(u.email) {
      return ToolRun(None, Rejection(IdOrEmailRequired, map[]));
    }
    var endpoint := ContactEndpoint(u.contactId, u.email, encode);
    var updateData := ContactUpdateBody(u);
    var result := Saved(response, "Failed to update contact", "contact", ContactSummary, "Contact updated successfully");
    run := ToolRun(Some(Call(PATCH, endpoint, Some(JObj(updateData)))), result);
  }

  // ---------------------------------------------------------------- get, delete

  function GetContact(contactId: Option<string>, email: Option<string>, encode: string -> string,
                      response: APIResponse): (run: ToolRun)
    ensures run.call.None? <==> !Present(contactId) && !Present(email)
    ensures run.call.None? ==> run.result == Rejection(IdOrEmailRequired, map[])
    ensures run.call.Some? ==> run.call.value == Call(GET, ContactEndpoint(contactId, email, encode), None)
    ensures run.call.Some? && response.Failure? ==> run.result == FailureResult(response.error, "Failed to retrieve contact")
    ensures run.call.Some? && response.Success? ==>
      && Field(Some(run.result), "success") == Some(JBool(true))
      && Field(Some(run.result), "contact").Some?
      && Renamed(Field(Some(run.result), "contact").value, response.data, ContactDetail)
      && Field(Some(run.result), "contact").value.fields.Keys == ContactDetail.Keys
      && run.result.JObj? && run.result.fields.Keys == {"success", "contact"}
  {
    if !Present(contactId) && !Present(email) then ToolRun(None, Rejection(IdOrEmailRequired, map[]))
    else
      var result :=
        if response.Failure? then FailureResult(response.error, "Failed to retrieve contact")
        else Succeeded(map["contact" := Project(response.data, ContactDetail)]);
      ToolRun(Some(Call(GET, ContactEndpoint(contactId, email, encode), None)), result)
  }

  function DeleteContact(contactId: Option<string>, email: Option<string>, encode: string -> string,
                         response: APIResponse): (run: ToolRun)
    ensures run.call.None? <==> !Present(contactId) && !Present(email)
    ensures run.call.None? ==> run.result == Rejection(IdOrEmailRequired, map[])
    ensures run.call.Some? ==> run.call.value == Call(DELETE, ContactEndpoint(contactId, email, encode), None)
    ensures run.call.Some? && response.Failure? ==> run.result == FailureResult(response.error, "Failed to delete contact")
    ensures run.call.Some? && response.Success? ==>
      && Field(Some(run.result), "success") == Some(JBool(true))
      && Field(Some(run.result), "message") == Some(JStr("Contact deleted successfully"))
      && run.result.JObj? && run.result.fields.Keys == {"success", "message"}
  {
    if !Present(contactId) && !Present(email) then ToolRun(None, Rejection(IdOrEmailRequired, map[]))
    else
      var result :=
        if response.Failure? then FailureResult(response.error, "Failed to delete contact")
        else Succeeded(map["message" := JStr("Contact deleted successfully")]);
      ToolRun(Some(Call(DELETE, ContactEndpoint(contactId, email, encode), None)), result)
  }
}
