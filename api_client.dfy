/**
 * How the web client reads an HTTP response (`req` in the client library): 204 means
 * success with no body, a body that is not JSON counts as `{}`, an unsuccessful status or a
 * body that says `ok: false` becomes an error, and otherwise the `data` envelope is unwrapped
 * when there is one.
 */
module ApiClient {
  import opened Wrappers
  import opened Js

  /** What `req` throws. */
  datatype Thrown =
    | Error(message: string)
    /** Reading a property of a `null` body. */
    | TypeError

  /** What `req` resolves to, or what it rejects with. */
  datatype Reply = Returned(value: Value) | Threw(thrown: Thrown)

  /** `res.ok` */
  predicate StatusOk(status: int)
  {
    200 <= status <= 299
  }

  /** `body.k` for a parsed JSON value: `undefined` for a key an object lacks and for every
      primitive, a `TypeError` on `null`. */
  function Field(body: Value, k: string): (r: Result<Value, Thrown>)
    ensures r.Failure? <==> body.Null? || body.Undefined?
    ensures body.Obj? ==> r == Success(Get(body.fields, k))
  {
    match body
    case Null => Failure(TypeError)
    case Undefined => Failure(TypeError)
    case Obj(fields) => Success(Get(fields, k))
    case _ => Success(Undefined)
  }

  /** `"HTTP " + status` */
  function HttpMessage(status: int): string
  {
    "HTTP " + IntToString(status)
  }

  /** `new Error(body.message || "HTTP " + status)` */
  function ErrorOf(body: Value, status: int): Reply
  {
    match Field(body, "message")
    case Failure(e) => Threw(e)
    case Success(m) => Threw(Error(if Truthy(m) then ToStr(m) else HttpMessage(status)))
  }

  /** `req(path)` after `fetch` has answered with `status` and a body whose JSON parse is
      `parsed` (`None` when it does not parse). */
  function Req(status: int, parsed: Option<Value>): (r: Reply)
    ensures status == 204 ==> r == Returned(Bool(true))
  {
    if status == 204 then Returned(Bool(true))
    else
      var body := if parsed.Some? then parsed.value else Obj(map[]);
      if !StatusOk(status) then ErrorOf(body, status)
      else
        match Field(body, "ok")
        case Failure(e) => Threw(e)
        case Success(ok) =>
          if ok == Bool(false) then ErrorOf(body, status)
          else
            match Field(body, "data")
            case Failure(e) => Threw(e)
            case Success(data) => Returned(Coalesce(data, body))
  }

  /** A predicate that says when a JSON object reply counts as a failure. */
  predicate Fails(status: int, fields: Object)
  {
    !StatusOk(status) || Get(fields, "ok") == Bool(false)
  }

  /** For a JSON object body other than 204: it is an error exactly when the status is not
      2xx or the body says `ok: false`; the message is the body's truthy `message` or
      `HTTP <status>`; otherwise the reply is the body's `data` unless that is null or missing,
      in which case it is the body itself. */
  lemma ObjectReply(status: int, fields: Object)
    requires status != 204
    ensures Fails(status, fields) ==>
              Req(status, Some(Obj(fields))) == Threw(Error(
                if Truthy(Get(fields, "message")) then ToStr(Get(fields, "message")) else HttpMessage(status)))
    ensures !Fails(status, fields) ==>
              Req(status, Some(Obj(fields)))
              == Returned(if Nullish(Get(fields, "data")) then Obj(fields) else Get(fields, "data"))
  {
  }

  /** A body that is not JSON is read as `{}`: an error carries `HTTP <status>` and a 2xx
      reply is that empty object. */
  lemma UnparseableBody(status: int)
    requires status != 204
    ensures !StatusOk(status) ==> Req(status, None) == Threw(Error(HttpMessage(status)))
    ensures StatusOk(status) ==> Req(status, None) == Returned(Obj(map[]))
  {
    ObjectReply(status, map[]);
  }

  /** A 2xx reply with `ok: false` in its body is still an error. */
  lemma OkFalseWins(status: int, fields: Object)
    requires StatusOk(status) && status != 204 && Get(fields, "ok") == Bool(false)
    ensures Req(status, Some(Obj(fields))).Threw?
  {
    ObjectReply(status, fields);
  }

  /** A JSON `null` body makes the property read throw, whatever the status (other than 204). */
  lemma NullBodyThrows(status: int)
    requires status != 204
    ensures Req(status, Some(Null)) == Threw(TypeError)
  {
  }

  /** The fallback message names the status in decimal, so different statuses give different
      messages. */
  lemma HttpMessageInjective(a: int, b: int)
    requires HttpMessage(a) == HttpMessage(b)
    ensures a == b
  {
    assert IntToString(a) == HttpMessage(a)[5..];
    assert IntToString(b) == HttpMessage(b)[5..];
    IntToStringInjective(a, b);
  }
}
