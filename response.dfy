/** The uniform reply envelope `{success, data | message}` of utils/response.ts.
    Each builder starts from a record holding only `success` and adds the
    payload field only when the payload is truthy. */
module Response {
  import opened Js

  /** What a handler sends: an HTTP status and a JSON object body. */
  datatype Reply = Reply(status: int, body: map<string, Json>)

  /** "Missing parameters": the message of every rejected request. */
  const MissingParameter: string := "パラメータが不足しています"

  /** The status `res.send(...)` uses when none was set. */
  const DefaultStatus: int := 200

  /** r carries `success: ok` and, exactly when `payload` is truthy, `key: payload`,
      and no other field. */
  predicate Enveloped(r: Reply, status: int, ok: bool, key: string, payload: Json) {
    && r.status == status
    && r.body.Keys == {"success"} + (if Truthy(payload) then {key} else {})
    && r.body["success"] == Bool(ok)
    && (Truthy(payload) ==> r.body[key] == payload)
  }

  predicate IsSuccess(r: Reply, data: Json) {
    Enveloped(r, 200, true, "data", data)
  }

  predicate IsError(r: Reply, status: int, message: Json) {
    Enveloped(r, status, false, "message", message)
  }

  /** A body written out literally as `{success: false, message}` (handlers
      that call `res.send` directly always include the message). */
  function FailureBody(message: string): (b: map<string, Json>)
    ensures b.Keys == {"success", "message"}
    ensures b["success"] == Bool(false) && b["message"] == Str(message)
  {
    map["success" := Bool(false), "message" := Str(message)]
  }

  /** `success(res, data)`; `data` is `Undefined` when the argument is omitted. */
  method Success(data: Json) returns (r: Reply)
    ensures IsSuccess(r, data)
  {
    var response := map["success" := Bool(true)];
    if Truthy(data) {
      response := response["data" := data];
    }
    r := Reply(200, response);
  }

  /** `error400(res, message)` */
  method Error400(message: Json) returns (r: Reply)
    ensures IsError(r, 400, message)
  {
    var response := map["success" := Bool(false)];
    if Truthy(message) {
      response := response["message" := message];
    }
    r := Reply(400, response);
  }

  /** `error500(res, message)` */
  method Error500(message: Json) returns (r: Reply)
    ensures IsError(r, 500, message)
  {
    var response := map["success" := Bool(false)];
    if Truthy(message) {
      response := response["message" := message];
    }
    r := Reply(500, response);
  }

  /** The envelope is a function of its arguments: the four properties of
      `Enveloped` leave no freedom in the reply. */
  lemma EnvelopeDetermined(r1: Reply, r2: Reply, status: int, ok: bool, key: string, payload: Json)
    requires key != "success"
    requires Enveloped(r1, status, ok, key, payload) && Enveloped(r2, status, ok, key, payload)
    ensures r1 == r2
  {
    assert forall k :: k in r1.body ==> r1.body[k] == r2.body[k];
    assert r1.body == r2.body;
  }

  /** Falsy payloads are dropped altogether: `success(res)`, `success(res, 0)`,
      `success(res, "")` and `success(res, false)` send the same reply, and
      likewise for the error builders. */
  lemma FalsyPayloadsAgree(r1: Reply, r2: Reply, status: int, ok: bool, key: string, p1: Json, p2: Json)
    requires !Truthy(p1) && !Truthy(p2)
    requires Enveloped(r1, status, ok, key, p1) && Enveloped(r2, status, ok, key, p2)
    ensures r1 == r2 && r1 == Reply(status, map["success" := Bool(ok)])
  {
    assert r1.body == map["success" := Bool(ok)];
    assert r2.body == map["success" := Bool(ok)];
  }

  /** A success reply and an error reply never coincide, whatever their payloads. */
  lemma SuccessIsNotError(r: Reply, data: Json, status: int, message: Json)
    requires IsSuccess(r, data)
    ensures !IsError(r, status, message)
  {
    assert r.body["success"] == Bool(true);
  }
}
