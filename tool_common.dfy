/**
 * What every tool's `execute` shares: object literals whose undefined
 * entries vanish, the projection of response fields into a result, the
 * mapping of a client response to `{ success, ... }`, and the shape of a
 * run (the client call it makes, if any, and the result it returns).
 */
module ToolCommon {
  import opened Wrappers
  import opened JsonValue
  import opened Client

  /** The client call a tool makes. */
  datatype Call = Call(verb: Verb, endpoint: string, payload: Option<Json>)

  /** One `execute`: the call it makes (None when a guard rejects first) and
      the result it returns, given the response the client gives that call. */
  datatype ToolRun = ToolRun(call: Option<Call>, result: Json)

  /** Every field of `obj` named by a key of `renames` is the field of `data`
      that key maps to. */
  predicate Renamed(obj: Json, data: Json, renames: map<string, string>)
  {
    obj.JObj? && forall k :: k in renames ==> Field(Some(obj), k) == Field(Some(data), renames[k])
  }

  /** `{ out1: data?.in1, out2: data?.in2, ... }`, the table mapping each
      output key to the response key it copies. */
  function Project(data: Json, renames: map<string, string>): (r: Json)
    ensures r.JObj? && r.fields.Keys == renames.Keys
    ensures Renamed(r, data, renames)
  {
    JObj(map k | k in renames :: Val(Field(Some(data), renames[k])))
  }

  /** `response.error` as the object a tool passes on in `details`. */
  function ErrorObject(e: ErrorInfo): (r: Json)
    ensures Field(Some(r), "code") == Some(JStr(CodeName(e.code)))
    ensures Field(Some(r), "message") == Some(e.message) || (e.message.JUndefined? && Field(Some(r), "message").None?)
    ensures e.details.None? ==> Field(Some(r), "details").None?
    ensures e.details.Some? && !e.details.value.JUndefined? ==> Field(Some(r), "details") == e.details
  {
    JObj(map["code" := JStr(CodeName(e.code)), "message" := e.message] + Entry("details", e.details))
  }

  /** `{ success: false, error: response.error?.message || fallback, details: response.error }` */
  function FailureResult(e: ErrorInfo, fallback: string): (r: Json)
    ensures Field(Some(r), "success") == Some(JBool(false))
    ensures Truthy(Some(e.message)) ==> Field(Some(r), "error") == Some(e.message)
    ensures !Truthy(Some(e.message)) ==> Field(Some(r), "error") == Some(JStr(fallback))
    ensures Field(Some(r), "details") == Some(ErrorObject(e))
  {
    JObj(map["success" := JBool(false), "error" := Or(Some(e.message), JStr(fallback)), "details" := ErrorObject(e)])
  }

  /** A guard's early return: `{ success: false, error: message, ...extra }`. */
  function Rejection(message: string, extra: map<string, Json>): (r: Json)
    requires "success" !in extra && "error" !in extra
    ensures Field(Some(r), "success") == Some(JBool(false))
    ensures Field(Some(r), "error") == Some(JStr(message))
    ensures forall k :: k in extra ==> Field(Some(r), k) == Field(Some(JObj(extra)), k)
    ensures r.JObj? && r.fields.Keys == extra.Keys + {"success", "error"}
  {
    JObj(extra["success" := JBool(false)]["error" := JStr(message)])
  }

  /** A successful call's result: `{ success: true, ...fields }`. */
  function Succeeded(fields: map<string, Json>): (r: Json)
    requires "success" !in fields
    ensures Field(Some(r), "success") == Some(JBool(true))
    ensures forall k :: k in fields ==> Field(Some(r), k) == Field(Some(JObj(fields)), k)
    ensures r.JObj? && r.fields.Keys == fields.Keys + {"success"}
  {
    JObj(fields["success" := JBool(true)])
  }

  /** `limit=${n}` and friends. */
  function Query(name: string, n: int): string
  {
    name + "=" + IntToString(n)
  }

  /** An entity summary `{ out: data?.in, ..., key: v }`: a projection of the
      response plus one value the tool computes itself. */
  function ProjectWith(data: Json, renames: map<string, string>, key: string, v: Json): (r: Json)
    requires key !in renames && !v.JUndefined?
    ensures r.JObj? && r.fields.Keys == renames.Keys + {key}
    ensures Field(Some(r), key) == Some(v)
    ensures forall k :: k in renames ==> Field(Some(r), k) == Field(Some(data), renames[k])
  {
    JObj(Project(data, renames).fields[key := v])
  }

  /** What the list tools return: the failure mapping, or the listed array
      (`[]` when missing or falsy), `total` (0 when missing or falsy) and a
      message counting the listed items. */
  function ListResult(response: APIResponse, key: string, fallback: string, noun: string): (r: Json)
    requires key != "success" && key != "total" && key != "message"
    ensures response.Failure? ==> r == FailureResult(response.error, fallback)
    ensures response.Success? ==>
      && Field(Some(r), "success") == Some(JBool(true))
      && Field(Some(r), key) == Some(Or(Field(Some(response.data), key), JArr([])))
      && Field(Some(r), "total") == Some(Or(Field(Some(response.data), "total"), JNum(0.0)))
      && Field(Some(r), "message") == Some(JStr("Retrieved " + NatToString(Count(Field(Some(response.data), key))) + " " + noun))
  {
    if response.Failure? then FailureResult(response.error, fallback)
    else
      var items := Field(Some(response.data), key);
      Succeeded(map[key := Or(items, JArr([])),
                    "total" := Or(Field(Some(response.data), "total"), JNum(0.0)),
                    "message" := JStr("Retrieved " + NatToString(Count(items)) + " " + noun)])
  }

  /** What a create or update returns: the failure mapping, or the entity's
      summary under `key` with `message`. */
  function Saved(response: APIResponse, fallback: string, key: string, renames: map<string, string>,
                 message: string): (r: Json)
    requires key != "success" && key != "message"
    ensures response.Failure? ==> r == FailureResult(response.error, fallback)
    ensures response.Success? ==>
      && r.JObj? && r.fields.Keys == {"success", key, "message"}
      && Field(Some(r), "success") == Some(JBool(true))
      && Field(Some(r), "message") == Some(JStr(message))
      && Field(Some(r), key).Some?
      && Renamed(Field(Some(r), key).value, response.data, renames)
      && Field(Some(r), key).value.fields.Keys == renames.Keys
  {
    if response.Failure? then FailureResult(response.error, fallback)
    else
      var summary := Project(response.data, renames);
      var fields := map[key := summary, "message" := JStr(message)];
      assert Field(Some(JObj(fields)), key) == Some(summary);
      Succeeded(fields)
  }

  /** As `Saved`, with the summary also reporting `count` under `countKey`. */
  function SavedCounted(response: APIResponse, fallback: string, key: string, renames: map<string, string>,
                        countKey: string, count: nat, message: string): (r: Json)
    requires key != "success" && key != "message" && countKey !in renames
    ensures response.Failure? ==> r == FailureResult(response.error, fallback)
    ensures response.Success? ==>
      && r.JObj? && r.fields.Keys == {"success", key, "message"}
      && Field(Some(r), "success") == Some(JBool(true))
      && Field(Some(r), "message") == Some(JStr(message))
      && Field(Some(r), key).Some?
      && Renamed(Field(Some(r), key).value, response.data, renames)
      && Field(Some(r), key).value.fields.Keys == renames.Keys + {countKey}
      && Field(Field(Some(r), key), countKey) == Some(JNum(count as real))
  {
    if response.Failure? then FailureResult(response.error, fallback)
    else
      var summary := ProjectWith(response.data, renames, countKey, JNum(count as real));
      var fields := map[key := summary, "message" := JStr(message)];
      assert Field(Some(JObj(fields)), key) == Some(summary);
      Succeeded(fields)
  }
}
