/**
 * The HTTP requests the API services hand to the host framework's HTTP
 * service, and how a request's promise settles once the service's
 * `.catch` handler has run. The network itself is not modelled: the
 * server's answer is a parameter.
 */
module Http {
  import opened Json

  /** The prefix of every URL the API services build; the server side
      forwards everything below it to the DNS service. */
  const ApiPassthroughUrl: string := "/api/dns/"

  datatype Verb = GET | POST | PUT | PATCH | DELETE

  /** `httpService.<verb>(url, arg)`: `arg` is the request config for GET
      and the request body for POST, PUT and PATCH; absent is `Undefined`. */
  datatype Request = Request(verb: Verb, url: string, arg: Value)

  /** The server's answer: a response object, or an error status. */
  datatype Reply = Success(response: Value) | Failure

  /** How an API promise settles. */
  datatype Settled = Fulfilled(value: Value) | Rejected

  /** A settled API promise together with the error toast its handler
      showed, if any. */
  datatype Handled = Handled(settled: Settled, toast: Option<string>)

  /** `.catch(function () { toastService.add('error', message); })`: a
      failure shows one error toast and then FULFILS the promise with
      `undefined`, so a caller's rejection handler never runs. */
  function Caught(reply: Reply, message: string): (h: Handled)
    ensures h.settled.Fulfilled?
    ensures reply.Success? ==> h == Handled(Fulfilled(reply.response), None)
    ensures reply.Failure? ==> h == Handled(Fulfilled(Undefined), Some(message))
  {
    match reply
    case Success(response) => Handled(Fulfilled(response), None)
    case Failure => Handled(Fulfilled(Undefined), Some(message))
  }

  /** The handler the callers evidently expect: the same error toast, then
      the failure is passed on (rethrown), so the caller's rejection
      handler runs. */
  function Rethrown(reply: Reply, message: string): (h: Handled)
    ensures reply.Success? ==> h == Caught(reply, message)
    ensures reply.Failure? ==> h == Handled(Rejected, Some(message))
    ensures h.settled.Rejected? <==> reply.Failure?
  {
    match reply
    case Success(response) => Handled(Fulfilled(response), None)
    case Failure => Handled(Rejected, Some(message))
  }

  /** A request body as the server parses it: `JSON.stringify` leaves out
      the members whose value is `undefined`. */
  function Wire(body: Object): (w: Object)
    ensures forall k :: k in w <==> k in body && !body[k].Undefined?
    ensures forall k :: k in w ==> w[k] == body[k]
  {
    map k | k in body && !body[k].Undefined? :: body[k]
  }

  /** `params ? {params: params} : {}` */
  function ParamsConfig(params: Value): (config: Value)
    ensures config.Obj?
    ensures Truthy(params) <==> "params" in config.fields
    ensures Truthy(params) ==> config.fields == map["params" := params]
    ensures !Truthy(params) ==> config.fields == map[]
  {
    if Truthy(params) then Obj(map["params" := params]) else Obj(map[])
  }
}
