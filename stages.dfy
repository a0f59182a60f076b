/**
 * The constants and the pure decisions of src/fetch-please.js: the request
 * guards, `serialize`, the three post-processing stages, the listeners' mapping
 * from transport event to promise settlement, and the calls `request` makes on
 * a new handle.
 */
module Stages {
  import opened Wrappers
  import opened Helpers
  import opened Builtins
  import opened Transport

  const HTTP_METHOD_GET := "GET"
  const HTTP_METHOD_PUT := "PUT"
  const HTTP_METHOD_POST := "POST"
  const HTTP_METHOD_DELETE := "DELETE"
  const ALLOWED_METHODS: seq<string> := [HTTP_METHOD_GET, HTTP_METHOD_PUT, HTTP_METHOD_POST, HTTP_METHOD_DELETE]

  const CONTENT_TYPE_JSON := "application/json"
  const MIN_SUCCESSFUL_HTTP_CODE := 200
  const MAX_SUCCESSFUL_HTTP_CODE := 299

  const ERROR_XHR_NOT_FOUND := "Constructor XMLHttpRequest not found"
  const ERROR_PROMISE_NOT_FOUND := "Constructor Promise not found"
  const ERROR_UNKNOWN_HTTP_METHOD := "Unknown HTTP method"
  const ERROR_UNACCEPTABLE_HTTP_CODE := "Unacceptable HTTP code"
  const ERROR_INVALID_DATA := "Invalid data for sending"
  const ERROR_JSON_PARSE := "Invalid JSON"

  const ERROR_CONNECTION_TIMEOUT := "Connection timeout"
  const ERROR_RESOURCE_ABORTED := "Resource has been aborted"
  const ERROR_RESOURCE_FAILED := "Resource failed to load"

  /**
   * What the client takes from its JavaScript environment: whether the globals
   * `XMLHttpRequest` and `Promise` exist, `JSON.stringify` and `JSON.parse`
   * (`None` where they throw), and the `joinParams` helper.
   */
  datatype Globals = Globals(
    xmlHttpRequest: bool,
    promise: bool,
    stringify: Json -> Option<string>,
    parse: string -> Option<Json>,
    joinParams: (string, Source<Scalar>) -> string)

  /** The client's own settings as `request` reads them (`this.path`, `this.timeout`, ...). */
  datatype Config = Config(path: string, timeout: int, headers: Source<Scalar>, xmlHttpRequest: bool) {
    ghost predicate WellFormed() {
      headers.Plain? ==> headers.obj.Valid()
    }
  }

  /**
   * The per-call `settings` of `request`; `null` is `NoSettings`. A timeout of 0
   * stands for every falsy value (0, `undefined`, `null`).
   */
  datatype CallSettings = CallSettings(headers: Source<Scalar>, timeout: int) {
    ghost predicate WellFormed() {
      headers.Plain? ==> headers.obj.Valid()
    }
  }

  const NoSettings := CallSettings(Nullish, 0)

  /** `ALLOWED_METHODS.indexOf(verb) !== -1` */
  predicate IsAllowedMethod(verb: string) {
    ArrayIndexOf(ALLOWED_METHODS, verb) != -1
  }

  /** The checks `request` makes before it creates a handle, in their order. */
  function Guard(xmlHttpRequest: bool, promise: bool, verb: string): (r: Option<string>)
    ensures r == None <==> xmlHttpRequest && promise && verb in ALLOWED_METHODS
    ensures !xmlHttpRequest ==> r == Some(ERROR_XHR_NOT_FOUND)
    ensures xmlHttpRequest && !promise ==> r == Some(ERROR_PROMISE_NOT_FOUND)
    ensures xmlHttpRequest && promise && verb !in ALLOWED_METHODS ==> r == Some(ERROR_UNKNOWN_HTTP_METHOD)
  {
    if !xmlHttpRequest then Some(ERROR_XHR_NOT_FOUND)
    else if !promise then Some(ERROR_PROMISE_NOT_FOUND)
    else if !IsAllowedMethod(verb) then Some(ERROR_UNKNOWN_HTTP_METHOD)
    else None
  }

  /**
   * `serialize(data)`: `FormData`, `Blob`, `null` and strings go out as they are;
   * anything else through `JSON.stringify`, whose failure becomes `ERROR_INVALID_DATA`.
   */
  function Serialize(data: Payload, stringify: Json -> Option<string>): (r: Result<Payload>)
    ensures r.Ok? ==> !r.value.Value?
    ensures !data.Value? ==> r == Ok(data)
    ensures data.Value? ==> (r.Ok? <==> stringify(data.value).Some?)
    ensures data.Value? && r.Ok? ==> r.value == Text(stringify(data.value).value)
    ensures r.Err? ==> r.error == ERROR_INVALID_DATA
  {
    match data
    case FormData(_) => Ok(data)
    case Blob(_) => Ok(data)
    case NoBody => Ok(data)
    case Text(_) => Ok(data)
    case Value(v) =>
      match stringify(v)
      case Some(s) => Ok(Text(s))
      case None => Err(ERROR_INVALID_DATA)
  }

  /**
   * A body `serialize` produced goes through `serialize` again unchanged: data a
   * caller serialized beforehand (`JSON.stringify(x)`, a string) is sent as the
   * very text the caller built, never stringified a second time.
   */
  lemma SerializeIdempotent(data: Payload, stringify: Json -> Option<string>)
    requires Serialize(data, stringify).Ok?
    ensures Serialize(Serialize(data, stringify).value, stringify) == Serialize(data, stringify)
  {
  }

  /** `handleResponse(xhr)`: the handle goes on unchanged exactly when its status is 2xx. */
  function HandleResponse(resp: Response): (r: Result<Response>)
    ensures r.Ok? <==> MIN_SUCCESSFUL_HTTP_CODE <= resp.status <= MAX_SUCCESSFUL_HTTP_CODE
    ensures r.Ok? ==> r.value == resp
    ensures r.Err? ==> r.error == ERROR_UNACCEPTABLE_HTTP_CODE
  {
    if resp.status < MIN_SUCCESSFUL_HTTP_CODE || resp.status > MAX_SUCCESSFUL_HTTP_CODE then
      Err(ERROR_UNACCEPTABLE_HTTP_CODE)
    else
      Ok(resp)
  }

  /** The lower-cased Content-Type (missing counts as `''`) contains `application/json`. */
  predicate IsJsonContentType(contentType: Option<string>) {
    var ct := match contentType case Some(s) => s case None => "";
    Includes(ToLower(ct), CONTENT_TYPE_JSON)
  }

  /**
   * The Content-Type test ignores case: `application/json` in any ASCII casing,
   * anywhere in the header value, selects JSON decoding.
   */
  lemma JsonContentTypeAnyCase(s: string, i: nat)
    requires i + |CONTENT_TYPE_JSON| <= |s|
    requires ToLower(s[i..i + |CONTENT_TYPE_JSON|]) == CONTENT_TYPE_JSON
    ensures IsJsonContentType(Some(s))
  {
    var t := ToLower(s);
    var n := |CONTENT_TYPE_JSON|;
    var u := s[i..i + n];
    forall k | 0 <= k < n ensures t[i + k] == ToLower(u)[k] {
      assert u[k] == s[i + k];
    }
    assert t[i..i + n] == ToLower(u);
    assert OccursAt(t, CONTENT_TYPE_JSON, i);
    IncludesIff(t, CONTENT_TYPE_JSON);
  }

  /** A response without a Content-Type header is never decoded as JSON. */
  lemma NoContentTypeNotJson()
    ensures !IsJsonContentType(None)
  {
    assert ToLower("") == "";
    IncludesIff("", CONTENT_TYPE_JSON);
  }

  /**
   * `handleJson(xhr)`: parses the text of a JSON response, a parse failure
   * becoming `ERROR_JSON_PARSE`; any other response yields no value and no error.
   */
  function HandleJson(resp: Response, parse: string -> Option<Json>): (r: Result<Delivered>)
    ensures r == Ok(NoValue) <==> !IsJsonContentType(resp.contentType)
    ensures r.Err? <==> IsJsonContentType(resp.contentType) && parse(resp.text).None?
    ensures r.Err? ==> r.error == ERROR_JSON_PARSE
    ensures r.Ok? && r.value.Parsed? ==> parse(resp.text) == Some(r.value.json)
  {
    if IsJsonContentType(resp.contentType) then
      match parse(resp.text)
      case Some(j) => Ok(Parsed(j))
      case None => Err(ERROR_JSON_PARSE)
    else
      Ok(NoValue)
  }

  /** `handleError(error)`: rethrows an error with the same message. */
  function HandleError(message: string): (r: string)
    ensures r == message
  {
    message
  }

  /**
   * The listeners of `request`: `error`, `abort` and `timeout` reject with their
   * fixed message, `load` resolves only when the status is non-zero, and a
   * promise that has settled stays as it is.
   */
  function OnEvent(current: Settlement, ev: Event): (r: Settlement)
    ensures !current.Pending? ==> r == current
    ensures current.Pending? && !ev.Load? ==> r == Rejected(RejectionMessage(ev).value)
    ensures current.Pending? && ev.Load? ==>
      r == if ev.response.status != 0 then Resolved(ev.response) else Pending
  {
    if !current.Pending? then current
    else
      match ev
      case Load(resp) => if resp.status != 0 then Resolved(resp) else Pending
      case _ => Rejected(RejectionMessage(ev).value)
  }

  /** The message each non-load event rejects with. */
  function RejectionMessage(ev: Event): (r: Option<string>)
    ensures r == None <==> ev.Load?
    ensures ev.Error? ==> r == Some(ERROR_RESOURCE_FAILED)
    ensures ev.Abort? ==> r == Some(ERROR_RESOURCE_ABORTED)
    ensures ev.Timeout? ==> r == Some(ERROR_CONNECTION_TIMEOUT)
  {
    match ev
    case Load(_) => None
    case Error => Some(ERROR_RESOURCE_FAILED)
    case Abort => Some(ERROR_RESOURCE_ABORTED)
    case Timeout => Some(ERROR_CONNECTION_TIMEOUT)
  }

  /** The promise settles only once, and how it settles is decided by the first event alone. */
  lemma OnEventSettlesOnce(ev: Event, later: Event)
    ensures OnEvent(OnEvent(Pending, ev), later) ==
      if ev.Load? && ev.response.status == 0 then OnEvent(Pending, later) else OnEvent(Pending, ev)
    ensures OnEvent(Pending, ev).Rejected? <==> !ev.Load?
    ensures OnEvent(Pending, ev).Resolved? <==> ev.Load? && ev.response.status != 0
  {
  }

  /**
   * The chain `request` attaches: close (done by the caller), then `handleResponse`,
   * then `handleJson`, with `handleError` on every failure; a failing stage skips the
   * rest, so the caller sees the message of the first stage that failed, or the value
   * of the last.
   */
  function Pipeline(s: Settlement, parse: string -> Option<Json>): (r: Outcome)
    ensures r == Unsettled <==> s == Pending
    ensures s.Rejected? ==> r == Failed(s.reason)
    ensures s.Resolved? && !(MIN_SUCCESSFUL_HTTP_CODE <= s.response.status <= MAX_SUCCESSFUL_HTTP_CODE) ==>
      r == Failed(ERROR_UNACCEPTABLE_HTTP_CODE)
    ensures (s.Resolved? && MIN_SUCCESSFUL_HTTP_CODE <= s.response.status <= MAX_SUCCESSFUL_HTTP_CODE
             && !IsJsonContentType(s.response.contentType)) ==> r == Fulfilled(NoValue)
    ensures (s.Resolved? && MIN_SUCCESSFUL_HTTP_CODE <= s.response.status <= MAX_SUCCESSFUL_HTTP_CODE
             && IsJsonContentType(s.response.contentType)) ==>
      r == match parse(s.response.text)
           case Some(j) => Fulfilled(Parsed(j))
           case None => Failed(ERROR_JSON_PARSE)
  {
    match s
    case Pending => Unsettled
    case Rejected(reason) => Failed(HandleError(reason))
    case Resolved(resp) =>
      match HandleResponse(resp)
      case Err(e) => Failed(HandleError(e))
      case Ok(checked) =>
        match HandleJson(checked, parse)
        case Err(e) => Failed(HandleError(e))
        case Ok(v) => Fulfilled(v)
  }

  /** `this.timeout || settings.timeout || 0`: the client's own timeout wins when non-zero. */
  function EffectiveTimeout(own: int, perCall: int): (r: int)
    ensures own != 0 ==> r == own
    ensures own == 0 ==> r == perCall
  {
    if own != 0 then own else if perCall != 0 then perCall else 0
  }

  /** `assign({}, this.headers, settings.headers)` */
  function MergedHeaders(own: Source<Scalar>, perCall: Source<Scalar>): (r: Obj<Scalar>)
    requires own.Plain? ==> own.obj.Valid()
    requires perCall.Plain? ==> perCall.obj.Valid()
    ensures r.Valid()
  {
    AssignAllValid(Empty(), [own, perCall]);
    AssignAll(Empty(), [own, perCall])
  }

  /** One `setRequestHeader` per key of `headers`, in key order, with the value unfiltered. */
  function HeaderCalls(headers: Obj<Scalar>): (r: seq<Call>)
    requires headers.Valid()
    ensures |r| == |headers.keys|
    ensures forall i :: 0 <= i < |r| ==> r[i] == SetRequestHeader(headers.keys[i], headers.props[headers.keys[i]])
  {
    seq(|headers.keys|, i requires 0 <= i < |headers.keys| =>
      SetRequestHeader(headers.keys[i], headers.props[headers.keys[i]]))
  }

  /**
   * What a call of `request` comes to: a guard refuses it before any handle
   * exists, or `serialize` throws after the handle was opened and configured
   * (it is never sent nor registered), or the handle is sent with these calls.
   */
  datatype Plan = Refuse(message: string) | Abandon(calls: seq<Call>, message: string) | Transmit(calls: seq<Call>)

  /** The outcome of `request(verb, path, data, settings)` on a client configured as `cfg`. */
  function RequestPlan(cfg: Config, env: Globals, verb: string, path: string, data: Payload, settings: CallSettings): Plan
    requires cfg.WellFormed() && settings.WellFormed()
  {
    match Guard(cfg.xmlHttpRequest, env.promise, verb)
    case Some(e) => Refuse(e)
    case None => Launch(cfg, env, verb, path, data, settings)
  }

  /** What `request` comes to once the guards have let it through. */
  function Launch(cfg: Config, env: Globals, verb: string, path: string, data: Payload, settings: CallSettings): Plan
    requires cfg.WellFormed() && settings.WellFormed()
  {
    match Serialize(data, env.stringify)
    case Err(e) => Abandon(Setup(cfg, verb, path, settings), e)
    case Ok(body) => Transmit(Setup(cfg, verb, path, settings) + [Call.Send(body)])
  }

  /** The calls a new handle sees before `serialize`: `open`, the merged headers, the timeout. */
  function Setup(cfg: Config, verb: string, path: string, settings: CallSettings): seq<Call>
    requires cfg.WellFormed() && settings.WellFormed()
  {
    [Call.Open(verb, cfg.path + path)]
      + HeaderCalls(MergedHeaders(cfg.headers, settings.headers))
      + [Call.SetTimeout(EffectiveTimeout(cfg.timeout, settings.timeout))]
  }

  /**
   * The guards come first and in order; when they pass, the handle sees `open`
   * on the literally joined URL, then the headers, then the timeout, and `send`
   * last, unless `serialize` throws, in which case `send` never happens.
   */
  lemma RequestPlanOrder(cfg: Config, env: Globals, verb: string, path: string, data: Payload, settings: CallSettings)
    requires cfg.WellFormed() && settings.WellFormed()
    ensures var p := RequestPlan(cfg, env, verb, path, data, settings);
      && (p.Refuse? <==> Guard(cfg.xmlHttpRequest, env.promise, verb).Some?)
      && (p.Refuse? ==> p.message == Guard(cfg.xmlHttpRequest, env.promise, verb).value)
      && (p.Abandon? <==> !p.Refuse? && data.Value? && env.stringify(data.value).None?)
      && (p.Abandon? ==> p.message == ERROR_INVALID_DATA)
      && (p.Abandon? ==> p.calls == Setup(cfg, verb, path, settings))
      && (p.Abandon? ==> forall i :: 0 <= i < |p.calls| ==> !p.calls[i].Send?)
      && (p.Transmit? ==>
        var calls := p.calls;
        var h := MergedHeaders(cfg.headers, settings.headers);
        && |calls| == |h.keys| + 3
        && calls[0] == Call.Open(verb, cfg.path + path)
        && calls[1..|h.keys| + 1] == HeaderCalls(h)
        && calls[|calls| - 2] == Call.SetTimeout(EffectiveTimeout(cfg.timeout, settings.timeout))
        && calls[|calls| - 1] == Call.Send(Serialize(data, env.stringify).value)
        && (forall i :: 0 <= i < |calls| - 1 ==> !calls[i].Send?))
  {
    var p := RequestPlan(cfg, env, verb, path, data, settings);
    var s := Setup(cfg, verb, path, settings);
    SetupShape(cfg, verb, path, settings);
    if p.Transmit? {
      var h := MergedHeaders(cfg.headers, settings.headers);
      assert p.calls == s + [Call.Send(Serialize(data, env.stringify).value)];
      assert forall i :: 0 <= i < |s| ==> p.calls[i] == s[i];
      assert p.calls[1..|h.keys| + 1] == s[1..|h.keys| + 1];
    }
  }

  /** The calls before `send`: `open` first, then one header call per merged key, the timeout last, and no `send`. */
  lemma SetupShape(cfg: Config, verb: string, path: string, settings: CallSettings)
    requires cfg.WellFormed() && settings.WellFormed()
    ensures var s := Setup(cfg, verb, path, settings);
      var h := MergedHeaders(cfg.headers, settings.headers);
      && |s| == |h.keys| + 2
      && s[0] == Call.Open(verb, cfg.path + path)
      && s[1..|h.keys| + 1] == HeaderCalls(h)
      && s[|s| - 1] == Call.SetTimeout(EffectiveTimeout(cfg.timeout, settings.timeout))
      && (forall i :: 0 <= i < |s| ==> !s[i].Send?)
  {
    var s := Setup(cfg, verb, path, settings);
    var hc := HeaderCalls(MergedHeaders(cfg.headers, settings.headers));
    assert s[1..|hc| + 1] == hc;
    forall i | 0 <= i < |s| ensures !s[i].Send? {
      if 1 <= i <= |hc| {
        assert s[i] == hc[i - 1];
      }
    }
  }

  /** The merged headers are the client's headers overridden by the call's. */
  lemma MergedHeadersProps(own: Source<Scalar>, perCall: Source<Scalar>)
    requires own.Plain? ==> own.obj.Valid()
    requires perCall.Plain? ==> perCall.obj.Valid()
    ensures MergedHeaders(own, perCall).props == Props(own) + Props(perCall)
  {
    var sources := [own, perCall];
    AssignAllProps(Empty(), sources);
    assert sources[..1] == [own] && [own][..0] == [];
    assert Union(map[], [own]) == Props(own) by {
      assert Union(map[], [own]) == map[] + Props(own);
    }
    assert Union(map[], sources) == Union(map[], [own]) + Props(perCall);
  }

  /**
   * No header is filtered out: every key of the client's or the call's headers
   * is set, a key of the call's headers with the call's value (even `null`,
   * `undefined` or `false`), any other key with the client's value.
   */
  lemma HeadersAllSent(own: Source<Scalar>, perCall: Source<Scalar>, k: string)
    requires own.Plain? ==> own.obj.Valid()
    requires perCall.Plain? ==> perCall.obj.Valid()
    requires k in Props(own) || k in Props(perCall)
    ensures var h := MergedHeaders(own, perCall);
      exists i :: 0 <= i < |HeaderCalls(h)| && HeaderCalls(h)[i] ==
        SetRequestHeader(k, if k in Props(perCall) then Props(perCall)[k] else Props(own)[k])
  {
    var h := MergedHeaders(own, perCall);
    MergedHeadersProps(own, perCall);
    var v := if k in Props(perCall) then Props(perCall)[k] else Props(own)[k];
    assert k in h.props && h.props[k] == v;
    assert k in h.keys;
    var i :| 0 <= i < |h.keys| && h.keys[i] == k;
    assert HeaderCalls(h)[i] == SetRequestHeader(k, v);
  }

  /**
   * No header is set twice: the names of the header calls are pairwise different
   * as JavaScript keys. Header names are case-insensitive on the wire, so keys that
   * differ only in case (`Content-Type`, `content-type`) are both set, and the
   * transport combines them into one header.
   */
  lemma HeadersSetOnce(own: Source<Scalar>, perCall: Source<Scalar>)
    requires own.Plain? ==> own.obj.Valid()
    requires perCall.Plain? ==> perCall.obj.Valid()
    ensures var calls := HeaderCalls(MergedHeaders(own, perCall));
      forall i, j :: 0 <= i < j < |calls| ==> calls[i].name != calls[j].name
  {
    var h := MergedHeaders(own, perCall);
    forall i, j | 0 <= i < j < |HeaderCalls(h)| ensures HeaderCalls(h)[i].name != HeaderCalls(h)[j].name {
      assert HeaderCalls(h)[i].name == h.keys[i] && HeaderCalls(h)[j].name == h.keys[j];
    }
  }
}
