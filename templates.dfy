/**
 * The template tools: list (optionally by category), get, create, update
 * and delete an e-mail template. `encodeURIComponent` is the parameter
 * `encode`.
 */
module Templates {
  import opened Wrappers
  import opened JsonValue
  import opened Client
  import opened ToolCommon

  datatype NewTemplate = NewTemplate(name: string, subject: Option<string>, htmlContent: string, category: Option<string>)

  datatype TemplateChanges = TemplateChanges(
    templateId: string,
    name: Option<string>,
    subject: Option<string>,
    htmlContent: Option<string>,
    category: Option<string>)

  const TemplateSummary: map<string, string> := map["id" := "id", "name" := "name"]

  /** The response fields the get result passes on, under the same names. */
  const TemplateDetail: map<string, string> := map[
    "id" := "id", "name" := "name", "subject" := "subject", "htmlContent" := "htmlContent",
    "category" := "category", "thumbnailUrl" := "thumbnailUrl", "createdAt" := "createdAt", "updatedAt" := "updatedAt"]

  // ---------------------------------------------------------------- list

  /** `endpoint`: limit and offset always, the encoded category only when it
      is non-empty. */
  method TemplatesEndpoint(category: Option<string>, limit: int, offset: int, encode: string -> string)
    returns (endpoint: string)
    ensures !Present(category) ==> endpoint == "/templates?" + Query("limit", limit) + "&" + Query("offset", offset)
    ensures Present(category) ==> endpoint == "/templates?" + Query("limit", limit) + "&" + Query("offset", offset)
                                              + "&category=" + encode(category.value)
  {
    endpoint := "/templates?" + Query("limit", limit) + "&" + Query("offset", offset);
    if Present(category) {
      endpoint := endpoint + "&category=" + encode(category.value);
    }
  }

  method ListTemplates(category: Option<string>, limit: int, offset: int, encode: string -> string,
                       response: APIResponse) returns (run: ToolRun)
    ensures run.call.Some? && run.call.value.verb == GET && run.call.value.payload.None?
    ensures !Present(category) ==> run.call.value.endpoint == "/templates?" + Query("limit", limit) + "&" + Query("offset", offset)
    ensures Present(category) ==> run.call.value.endpoint == "/templates?" + Query("limit", limit) + "&" + Query("offset", offset)
                                                             + "&category=" + encode(category.value)
    ensures run.result == ListResult(response, "templates", "Failed to list templates", "templates")
  {
    var endpoint := TemplatesEndpoint(category, limit, offset, encode);
    run := ToolRun(Some(Call(GET, endpoint, None)), ListResult(response, "templates", "Failed to list templates", "templates"));
  }

  // ---------------------------------------------------------------- get, create

  function GetTemplate(templateId: string, response: APIResponse): (run: ToolRun)
    ensures run.call == Some(Call(GET, "/templates/" + templateId, None))
    ensures response.Failure? ==> run.result == FailureResult(response.error, "Failed to retrieve template")
    ensures response.Success? ==>
      && Field(Some(run.result), "success") == Some(JBool(true))
      && Field(Some(run.result), "template").Some?
      && run.result.JObj? && run.result.fields.Keys == {"success", "template"}
      && Renamed(Field(Some(run.result), "template").value, response.data, TemplateDetail)
      && Field(Some(run.result), "template").value.fields.Keys == TemplateDetail.Keys
  {
    var result :=
      if response.Failure? then FailureResult(response.error, "Failed to retrieve template")
      else Succeeded(map["template" := Project(response.data, TemplateDetail)]);
    ToolRun(Some(Call(GET, "/templates/" + templateId, None)), result)
  }

  /** The body `create` posts: `htmlContent` becomes `html_content`. */
  function NewTemplatePayload(t: NewTemplate): (p: Json)
    ensures Field(Some(p), "name") == Some(JStr(t.name))
    ensures Field(Some(p), "subject") == Str(t.subject)
    ensures Field(Some(p), "html_content") == Some(JStr(t.htmlContent))
    ensures Field(Some(p), "category") == Str(t.category)
  {
    JObj(map["name" := JStr(t.name), "subject" := Val(Str(t.subject)),
             "html_content" := JStr(t.htmlContent), "category" := Val(Str(t.category))])
  }

  function CreateTemplate(t: NewTemplate, response: APIResponse): (run: ToolRun)
    ensures run.call == Some(Call(POST, "/templates", Some(NewTemplatePayload(t))))
    ensures run.result == Saved(response, "Failed to create template", "template", TemplateSummary,
                                "Template \"" + t.name + "\" created successfully")
  {
    ToolRun(Some(Call(POST, "/templates", Some(NewTemplatePayload(t)))),
            Saved(response, "Failed to create template", "template", TemplateSummary,
                  "Template \"" + t.name + "\" created successfully"))
  }

  // ---------------------------------------------------------------- update

  /** The update body holds exactly the changes that are non-empty strings. */
  predicate SendsTruthyTemplateChanges(d: map<string, Json>, u: TemplateChanges)
  {
    && d.Keys <= {"name", "subject", "html_content", "category"}
    && ("name" in d <==> Present(u.name))
    && ("name" in d ==> d["name"] == JStr(u.name.value))
    && ("subject" in d <==> Present(u.subject))
    && ("subject" in d ==> d["subject"] == JStr(u.subject.value))
    && ("html_content" in d <==> Present(u.htmlContent))
    && ("html_content" in d ==> d["html_content"] == JStr(u.htmlContent.value))
    && ("category" in d <==> Present(u.category))
    && ("category" in d ==> d["category"] == JStr(u.category.value))
  }

  /** `updateData`, filled by one guarded assignment per optional field. */
  method TemplateUpdateBody(u: TemplateChanges) returns (updateData: map<string, Json>)
    ensures SendsTruthyTemplateChanges(updateData, u)
  {
    updateData := map[];
    if Present(u.name) {
      updateData := updateData["name" := JStr(u.name.value)];
    }
    if Present(u.subject) {
      updateData := updateData["subject" := JStr(u.subject.value)];
    }
    if Present(u.htmlContent) {
      updateData := updateData["html_content" := JStr(u.htmlContent.value)];
    }
    if Present(u.category) {
      updateData := updateData["category" := JStr(u.category.value)];
    }
  }

  method UpdateTemplate(u: TemplateChanges, response: APIResponse) returns (run: ToolRun)
    ensures run.call.Some? && run.call.value.verb == PATCH
    ensures run.call.value.endpoint == "/templates/" + u.templateId
    ensures run.call.value.payload.Some? && run.call.value.payload.value.JObj?
    ensures SendsTruthyTemplateChanges(run.call.value.payload.value.fields, u)
    ensures run.result == Saved(response, "Failed to update template", "template", TemplateSummary,
                                "Template updated successfully")
  {
    var updateData := TemplateUpdateBody(u);
    run := ToolRun(Some(Call(PATCH, "/templates/" + u.templateId, Some(JObj(updateData)))),
                   Saved(response, "Failed to update template", "template", TemplateSummary, "Template updated successfully"));
  }

  // ---------------------------------------------------------------- delete

  function DeleteTemplate(templateId: string, response: APIResponse): (run: ToolRun)
    ensures run.call == Some(Call(DELETE, "/templates/" + templateId, None))
    ensures response.Failure? ==> run.result == FailureResult(response.error, "Failed to delete template")
    ensures response.Success? ==>
      && Field(Some(run.result), "success") == Some(JBool(true))
      && Field(Some(run.result), "message") == Some(JStr("Template deleted successfully"))
      && run.result.JObj? && run.result.fields.Keys == {"success", "message"}
  {
    var result :=
      if response.Failure? then FailureResult(response.error, "Failed to delete template")
      else Succeeded(map["message" := JStr("Template deleted successfully")]);
    ToolRun(Some(Call(DELETE, "/templates/" + templateId, None)), result)
  }
}
