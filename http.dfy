/**
 * The HTTP vocabulary the client uses through its axios instance. The network
 * itself is not modelled: what the server answers is an input (Reply).
 */
module Http {
  import opened Wrappers
  import opened JsValues

  /** The baseURL of the shared axios instance. */
  const BaseUrl := "http://localhost:5081/api"

  datatype Verb = GET | POST | PUT | DELETE

  /**
   * What an API helper asks of the instance: httpClient.get(path, { params }),
   * httpClient.post(path, body), httpClient.put(path, body) or httpClient.delete(path).
   * An argument the helper does not pass is undefined.
   */
  datatype Call = Call(verb: Verb, path: string, params: JsValue, body: JsValue)

  datatype Response = Response(status: int, data: JsValue)

  /** Why a promise was rejected. */
  datatype Error =
    | AxiosError(response: Option<Response>) // the server answered outside 2xx (Some), or not at all (None)
    | TypeError(message: string)
    | SyntaxError(message: string)

  /** How a promise settled. */
  datatype Settled<+T> = Resolved(value: T) | Rejected(reason: Error)

  /** What the server does with a request that reaches it. */
  datatype Reply = Answered(response: Response) | NoAnswer

  /** error.response && error.response.status === 401 */
  predicate IsUnauthorized(e: Error) {
    e.AxiosError? && e.response.Some? && e.response.value.status == 401
  }

  /** axios' default validateStatus: a 2xx answer resolves, any other answer or none rejects. */
  function Dispatch(reply: Reply): (r: Settled<Response>)
    ensures r.Resolved? <==> reply.Answered? && 200 <= reply.response.status < 300
    ensures r.Resolved? ==> r.value == reply.response
    ensures r.Rejected? ==> r.reason == AxiosError(if reply.Answered? then Some(reply.response) else None)
  {
    match reply
    case Answered(res) => if 200 <= res.status < 300 then Resolved(res) else Rejected(AxiosError(Some(res)))
    case NoAnswer => Rejected(AxiosError(None))
  }

  /** The { success, message, data } envelope every endpoint answers with. */
  datatype Envelope = Envelope(success: JsValue, message: JsValue, data: JsValue)

  /** const { success, message, data } = response.data; a TypeError when data is null or undefined. */
  function ReadEnvelope(response: Response): (r: Result<Envelope, Error>)
    ensures r.Failure? <==> response.data.Undefined? || response.data.Null?
    ensures r.Failure? ==> r.error.TypeError?
    ensures r.Success? ==> Get(response.data, "success") == Success(r.value.success)
    ensures r.Success? ==> Get(response.data, "message") == Success(r.value.message)
    ensures r.Success? ==> Get(response.data, "data") == Success(r.value.data)
  {
    var d := response.data;
    match Get(d, "success")
    case Failure(m) => Failure(TypeError(m))
    case Success(s) => Success(Envelope(s, Get(d, "message").value, Get(d, "data").value))
  }

  /** The envelope a server writes: every field present. */
  lemma ReadWrittenEnvelope(status: int, success: JsValue, message: JsValue, data: JsValue)
    ensures ReadEnvelope(Response(status, Obj([Prop("success", success), Prop("message", message), Prop("data", data)])))
         == Success(Envelope(success, message, data))
  {
    var props := [Prop("success", success), Prop("message", message), Prop("data", data)];
    assert Lookup(props, "message") == Some(message) by {
      assert props[1..][0].key == "message";
    }
    assert Lookup(props, "data") == Some(data) by {
      assert props[1..][1..][0].key == "data";
    }
  }
}
