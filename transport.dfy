/**
 * The transport handle (an `XMLHttpRequest` instance) as src/fetch-please.js uses
 * it: the calls the client makes on it are recorded in order, the network's
 * answer arrives as one terminal event, and the two promises `request` builds
 * around it are kept beside it.
 */
module Transport {
  import opened Wrappers

  /** A value a caller may put into a header object or a query object. */
  datatype Scalar = Str(s: string) | Num(n: int) | Bool(b: bool) | Null | Undefined

  /** A value `JSON.parse` yields and `JSON.stringify` accepts (numbers as integers). */
  datatype Json =
    | JNull
    | JBool(b: bool)
    | JNumber(n: int)
    | JString(s: string)
    | JArray(items: seq<Json>)
    | JObject(members: seq<(string, Json)>)

  /**
   * A JSON value other than `null` and a string: the values `serialize` hands to
   * `JSON.stringify`. Nested `null`s and strings may still occur inside it.
   */
  type JsonOther = j: Json | !j.JNull? && !j.JString? witness JBool(false)

  /**
   * The `data` argument of `request` and the body handed to `send`: a `FormData`
   * or `Blob` instance (named by identity), `null`, a string, or any other value.
   * Each JavaScript value has one encoding: `null` is only `NoBody`, a string
   * only `Text`.
   */
  datatype Payload = FormData(form: nat) | Blob(blob: nat) | NoBody | Text(text: string) | Value(value: JsonOther)

  /** What the handle reports once the server answered: `status`, the Content-Type header, `responseText`. */
  datatype Response = Response(status: int, contentType: Option<string>, text: string)

  /** The handle's state before any answer: status 0, no headers, empty text. */
  const NoResponse := Response(0, None, "")

  /** The four terminal events the client listens to. */
  datatype Event = Load(response: Response) | Error | Abort | Timeout

  /** A call the client makes on the handle. */
  datatype Call =
    | Open(httpMethod: string, url: string)
    | SetRequestHeader(name: string, value: Scalar)
    | SetTimeout(ms: int)
    | Send(body: Payload)
    | Cancel

  /** The promise `request` wires to the four events. */
  datatype Settlement = Pending | Resolved(response: Response) | Rejected(reason: string)

  /** What `handleJson` passes on: a parsed value, or nothing for a non-JSON response. */
  datatype Delivered = Parsed(json: Json) | NoValue

  /** The promise `request` returns, after the post-processing chain. */
  datatype Outcome = Unsettled | Fulfilled(value: Delivered) | Failed(message: string)

  /** Everything observable about a handle at one moment. */
  datatype XhrState = XhrState(trace: seq<Call>, done: bool, response: Response, settlement: Settlement, result: Outcome)

  class Xhr {
    /** Every call made on the handle, oldest first. */
    var trace: seq<Call>
    /** The handle has fired its terminal event. */
    var done: bool
    var response: Response
    /** The promise fed by the event listeners. */
    var settlement: Settlement
    /** The promise handed back to the caller. */
    var result: Outcome

    /** The handle's fields as a value. */
    function State(): XhrState
      reads this
    {
      XhrState(trace, done, response, settlement, result)
    }

    /** A handle as `new XMLHttpRequest()` creates it, with both promises pending. */
    ghost predicate Idle()
      reads this
    {
      trace == [] && !done && response == NoResponse && settlement == Pending && result == Unsettled
    }

    constructor ()
      ensures Idle()
    {
      trace := [];
      done := false;
      response := NoResponse;
      settlement := Pending;
      result := Unsettled;
    }

    /** `xhr.open(method, url)` */
    method Open(httpMethod: string, url: string)
      modifies this`trace
      ensures trace == old(trace) + [Call.Open(httpMethod, url)]
    {
      trace := trace + [Call.Open(httpMethod, url)];
    }

    /** `xhr.setRequestHeader(name, value)` */
    method SetRequestHeader(name: string, value: Scalar)
      modifies this`trace
      ensures trace == old(trace) + [Call.SetRequestHeader(name, value)]
    {
      trace := trace + [Call.SetRequestHeader(name, value)];
    }

    /** `xhr.timeout = ms` */
    method SetTimeout(ms: int)
      modifies this`trace
      ensures trace == old(trace) + [Call.SetTimeout(ms)]
    {
      trace := trace + [Call.SetTimeout(ms)];
    }

    /** `xhr.send(body)` */
    method Send(body: Payload)
      modifies this`trace
      ensures trace == old(trace) + [Call.Send(body)]
    {
      trace := trace + [Call.Send(body)];
    }

    /** `xhr.abort()`, as called; the `abort` event it may raise is delivered separately. */
    method Cancel()
      modifies this`trace
      ensures trace == old(trace) + [Call.Cancel]
    {
      trace := trace + [Call.Cancel];
    }

    /**
     * The network ends the exchange with `ev`. A handle fires at most one
     * terminal event: once done, later ones are not raised (`fired` is false).
     */
    method Finish(ev: Event) returns (fired: bool)
      modifies this`done, this`response
      ensures fired == !old(done) && done
      ensures response == if fired && ev.Load? then ev.response else old(response)
    {
      fired := !done;
      if fired {
        done := true;
        if ev.Load? {
          response := ev.response;
        }
      }
    }
  }
}
