/**
 * The `FetchPlease` class of src/fetch-please.js: a client that opens one
 * transport handle per request, keeps the handles in flight in `opened` (here `openedList`, as `opened` is a Dafny keyword), and
 * settles each request's promise from the handle's terminal event.
 *
 * The JavaScript promises run their callbacks later, as microtasks; here the
 * terminal event is an explicit step, `Deliver`, which runs the listener and the
 * whole post-processing chain at once.
 */
module FetchPlease {
  import opened Wrappers
  import opened Helpers
  import opened Builtins
  import opened Registry
  import opened Transport
  import opened Stages

  /** What `request` gives back: the `{xhr, promise}` pair (the promise is `xhr.result`), or the thrown error. */
  datatype Started = Sent(xhr: Xhr) | Thrown(message: string)

  /** The constructor's `settings` object; a field is `Some` when the object has that key. */
  datatype ClientSettings = ClientSettings(
    path: Option<string>,
    timeout: Option<int>,
    headers: Option<Source<Scalar>>,
    xmlHttpRequest: Option<bool>)
  {
    ghost predicate WellFormed() {
      headers.Some? && headers.value.Plain? ==> headers.value.obj.Valid()
    }
  }

  /** The default `settings = {}`. */
  const NoClientSettings := ClientSettings(None, None, None, None)

  /** `x` was allocated since the old state: a handle something has created meanwhile. */
  twostate predicate IsNew(new x: Xhr) {
    fresh(x)
  }

  /** The state of each handle of `s`, in order. */
  ghost function States(s: seq<Xhr>): (r: seq<XhrState>)
    reads s
    ensures |r| == |s|
  {
    if s == [] then [] else States(s[..|s| - 1]) + [s[|s| - 1].State()]
  }

  /** `States` lists the state of each handle at its position. */
  lemma {:induction false} StatesAt(s: seq<Xhr>)
    ensures |States(s)| == |s|
    ensures forall j :: 0 <= j < |s| ==> States(s)[j] == s[j].State()
  {
    if s != [] {
      StatesAt(s[..|s| - 1]);
    }
  }

  /** Whether each state is that of a handle that has fired its terminal event. */
  function DoneFlags(s: seq<XhrState>): (r: seq<bool>)
    ensures |r| == |s|
    ensures forall i :: 0 <= i < |s| ==> r[i] == s[i].done
  {
    if s == [] then [] else DoneFlags(s[..|s| - 1]) + [s[|s| - 1].done]
  }

  /**
   * What `abort()` does to a handle that was in state `before`: `abort()` is
   * called on it, and unless it had fired already its promise fails with
   * `ERROR_RESOURCE_ABORTED`; a handle that had fired keeps its promises.
   */
  predicate AbortedFrom(before: XhrState, after: XhrState) {
    && after.trace == before.trace + [Call.Cancel] && after.done && after.response == before.response
    && if before.done then after.settlement == before.settlement && after.result == before.result
       else after.settlement == Rejected(ERROR_RESOURCE_ABORTED) && after.result == Failed(ERROR_RESOURCE_ABORTED)
  }

  /**
   * The rest of the state of `abort()` after `i` steps over the snapshot
   * `handles`, whose handles were in the states `before`: `kept` are the first
   * `i` handles that had already fired, the handles from `i` on are still in
   * their old states, and the first `i` have been aborted.
   */
  ghost predicate AbortProgress(handles: seq<Xhr>, before: seq<XhrState>, now: seq<XhrState>, kept: seq<Xhr>, i: nat) {
    && i <= |handles| && |before| == |handles| && |now| == |handles| && Unique(handles)
    && kept == KeepUpTo(handles, DoneFlags(before), i)
    && (forall j :: i <= j < |handles| ==> now[j] == before[j])
    && (forall j :: 0 <= j < i ==> AbortedFrom(before[j], now[j]))
  }

  /** Aborting the handle at position `i` moves the progress one step on. */
  lemma AbortProgressStep(handles: seq<Xhr>, before: seq<XhrState>, now: seq<XhrState>, kept: seq<Xhr>, i: nat, s: XhrState)
    requires AbortProgress(handles, before, now, kept, i) && i < |handles| && AbortedFrom(before[i], s)
    ensures AbortProgress(handles, before, now[i := s], kept + (if before[i].done then [handles[i]] else []), i + 1)
  {
    assert DoneFlags(before)[i] == before[i].done;
  }

  /** Once every handle has been reached, exactly the handles that had fired are kept, and all were aborted. */
  lemma AbortProgressDone(handles: seq<Xhr>, before: seq<XhrState>, now: seq<XhrState>, kept: seq<Xhr>, i: nat)
    requires AbortProgress(handles, before, now, kept, i) && i == |handles|
    ensures kept == Keep(handles, DoneFlags(before))
    ensures forall j :: 0 <= j < |handles| ==> AbortedFrom(before[j], now[j])
  {
  }

  /** When no handle had fired yet, `abort()` leaves no handle registered. */
  lemma AbortEmpties(handles: seq<Xhr>, before: seq<XhrState>)
    requires |before| == |handles|
    requires forall j :: 0 <= j < |before| ==> !before[j].done
    ensures Keep(handles, DoneFlags(before)) == []
  {
    KeepNone(handles, DoneFlags(before), |handles|);
  }

  class Client {
    var path: string
    var timeout: int
    var headers: Source<Scalar>
    var xmlHttpRequest: bool
    /** The handles of the requests in flight, in the order they were sent. */
    var openedList: seq<Xhr>
    /** Every handle the client has created, oldest first; a record kept for the proofs only. */
    ghost var created: seq<Xhr>
    /** The JavaScript globals the client depends on. */
    const env: Globals

    /** The settings `request` reads. */
    function Configuration(): Config
      reads this`path, this`timeout, this`headers, this`xmlHttpRequest
    {
      Config(path, timeout, headers, xmlHttpRequest)
    }

    /**
     * A handle is registered at most once, and only while its promise is pending:
     * it is closed when that promise settles.
     */
    ghost predicate Valid()
      reads this`path, this`timeout, this`headers, this`xmlHttpRequest, this`openedList, openedList
    {
      Configuration().WellFormed() && Unique(openedList)
        && forall j :: 0 <= j < |openedList| ==> openedList[j].settlement.Pending?
    }

    /**
     * `new FetchPlease(path, settings)`: `path`, an empty `openedList`, then
     * `assign(this, {timeout: 0, headers: {}, XMLHttpRequest: global.XMLHttpRequest}, settings)`,
     * so that any of these keys present in `settings` (`path` included) wins.
     */
    constructor (env: Globals, path: string := "", settings: ClientSettings := NoClientSettings)
      requires settings.WellFormed()
      ensures this.path == (if settings.path.Some? then settings.path.value else path)
      ensures timeout == (if settings.timeout.Some? then settings.timeout.value else 0)
      ensures headers == (if settings.headers.Some? then settings.headers.value else Plain(Empty()))
      ensures xmlHttpRequest == (if settings.xmlHttpRequest.Some? then settings.xmlHttpRequest.value else env.xmlHttpRequest)
      ensures openedList == [] && created == [] && this.env == env
      ensures Valid()
    {
      this.path := path;
      openedList := [];
      created := [];
      this.env := env;
      timeout := 0;
      headers := Plain(Empty());
      xmlHttpRequest := env.xmlHttpRequest;
      if settings.path.Some? {
        this.path := settings.path.value;
      }
      if settings.timeout.Some? {
        timeout := settings.timeout.value;
      }
      if settings.headers.Some? {
        headers := settings.headers.value;
      }
      if settings.xmlHttpRequest.Some? {
        xmlHttpRequest := settings.xmlHttpRequest.value;
      }
    }

    /**
     * The effect a call of `request` must have had, given its plan. A guard that
     * refuses throws and logs no handle (`Request` adds that no handle at all is
     * allocated). When `serialize` throws, exactly one new handle was logged; it saw
     * exactly the planned calls (no `send`) and is not registered. Otherwise exactly
     * one new handle was logged and registered last; it saw exactly the planned
     * calls, and both its promises are pending.
     */
    twostate predicate Performed(p: Plan, new r: Started)
      reads this, created, if r.Sent? then {r.xhr} else {}
    {
      match p
      case Refuse(e) => r == Thrown(e) && openedList == old(openedList) && created == old(created)
      case Abandon(calls, e) =>
        && r == Thrown(e) && openedList == old(openedList)
        && |created| == |old(created)| + 1 && created[..|old(created)|] == old(created)
        && Abandoned(created[|old(created)|], calls)
      case Transmit(calls) =>
        && r.Sent? && fresh(r.xhr)
        && created == old(created) + [r.xhr]
        && openedList == old(openedList) + [r.xhr]
        && r.xhr.trace == calls
        && !r.xhr.done && r.xhr.response == NoResponse
        && r.xhr.settlement == Pending && r.xhr.result == Unsettled
    }

    /**
     * `x` is a handle created since the old state and not registered, with exactly
     * `calls` made on it, no event and no response yet: what `Prepare` leaves, and
     * what an abandoned request leaves behind.
     */
    twostate predicate Abandoned(new x: Xhr, calls: seq<Call>)
      reads this, x
    {
      && fresh(x) && x !in openedList && x.trace == calls
      && !x.done && x.response == NoResponse
      && x.settlement == Pending && x.result == Unsettled
    }

    /**
     * `request(method, path, data, settings)`: the guards, a new handle, `open`,
     * the merged headers, the timeout, `serialize` and `send`, and last the
     * registration in `openedList`.
     */
    method Request(verb: string, path: string, data: Payload := NoBody, settings: CallSettings := NoSettings)
      returns (r: Started)
      requires Valid() && settings.WellFormed()
      modifies this`openedList, this`created
      ensures Valid()
      ensures Performed(RequestPlan(Configuration(), env, verb, path, data, settings), r)
      ensures RequestPlan(Configuration(), env, verb, path, data, settings).Refuse? ==> forall x: Xhr :: !IsNew(x)
    {
      ghost var cfg := Configuration();
      ghost var plan := RequestPlan(cfg, env, verb, path, data, settings);
      if !xmlHttpRequest {
        assert plan == Refuse(ERROR_XHR_NOT_FOUND);
        return Thrown(ERROR_XHR_NOT_FOUND);
      }
      if !env.promise {
        assert plan == Refuse(ERROR_PROMISE_NOT_FOUND);
        return Thrown(ERROR_PROMISE_NOT_FOUND);
      }
      if ArrayIndexOf(ALLOWED_METHODS, verb) == -1 {
        assert plan == Refuse(ERROR_UNKNOWN_HTTP_METHOD);
        return Thrown(ERROR_UNKNOWN_HTTP_METHOD);
      }
      r := Dispatch(verb, path, data, settings);
    }

    /** The part of `request` after the guards: a new handle is configured, then sent and registered. */
    method Dispatch(verb: string, path: string, data: Payload, settings: CallSettings) returns (r: Started)
      requires Valid() && settings.WellFormed()
      modifies this`openedList, this`created
      ensures Valid()
      ensures Performed(Launch(Configuration(), env, verb, path, data, settings), r)
    {
      ghost var cfg := Configuration();
      ghost var plan := Launch(cfg, env, verb, path, data, settings);
      ghost var setup := Setup(cfg, verb, path, settings);
      ghost var log := created;
      var xhr := Prepare(verb, path, settings);
      var body := Serialize(data, env.stringify);
      if body.Err? {
        assert plan == Abandon(setup, body.error);
        assert created[..|log|] == log;
        return Thrown(body.error);
      }
      SendAndRegister(xhr, body.value);
      assert plan == Transmit(xhr.trace);
      r := Sent(xhr);
      TransmitPerformed(xhr.trace, xhr);
    }

    /** The `Transmit` case of `Performed`, from the facts `Dispatch` establishes. */
    twostate lemma TransmitPerformed(calls: seq<Call>, new x: Xhr)
      requires openedList == old(openedList) + [x] && created == old(created) + [x]
      requires fresh(x) && x.trace == calls
      requires !x.done && x.response == NoResponse && x.settlement == Pending && x.result == Unsettled
      ensures Performed(Transmit(calls), Sent(x))
    {
    }

    /** `send(body)`, then `add(xhr)`: the last two steps of `request`. */
    method SendAndRegister(xhr: Xhr, body: Payload)
      requires Valid() && xhr !in openedList && xhr.settlement.Pending?
      modifies this`openedList, xhr`trace
      ensures Valid()
      ensures xhr.trace == old(xhr.trace) + [Call.Send(body)]
      ensures openedList == old(openedList) + [xhr]
    {
      xhr.Send(body);
      ghost var pre := openedList;
      Add(xhr);
      assert (pre + [xhr])[..|pre|] == pre;
    }

    /** A new handle, with its listeners attached (`Deliver` runs them), opened and configured. */
    method Prepare(verb: string, path: string, settings: CallSettings) returns (xhr: Xhr)
      requires Configuration().WellFormed() && settings.WellFormed()
      modifies this`created
      ensures created == old(created) + [xhr]
      ensures Abandoned(xhr, Setup(Configuration(), verb, path, settings))
    {
      xhr := new Xhr();
      Configure(xhr, verb, path, settings);
      created := created + [xhr];
    }

    /**
     * The part of `request` between `new XMLHttpRequest()` and `serialize`:
     * `open`, then `setHeaders` with `assign({}, this.headers, settings.headers)`,
     * then the timeout.
     */
    method Configure(xhr: Xhr, verb: string, path: string, settings: CallSettings)
      requires Configuration().WellFormed() && settings.WellFormed()
      modifies xhr`trace
      ensures xhr.trace == old(xhr.trace) + Setup(Configuration(), verb, path, settings)
    {
      ghost var t0 := xhr.trace;
      var opening := Call.Open(verb, this.path + path);
      xhr.Open(verb, this.path + path);
      var merged := MergeHeaders(settings);
      var _ := SetHeaders(xhr, merged);
      ghost var hc := HeaderCalls(merged);
      var limit := Call.SetTimeout(EffectiveTimeout(timeout, settings.timeout));
      xhr.SetTimeout(EffectiveTimeout(timeout, settings.timeout));
      assert xhr.trace == t0 + [opening] + hc + [limit];
      assert t0 + [opening] + hc + [limit] == t0 + ([opening] + hc + [limit]);
    }

    /** `assign({}, this.headers, settings.headers)`, on a fresh object. */
    method MergeHeaders(settings: CallSettings) returns (h: Obj<Scalar>)
      requires Configuration().WellFormed() && settings.WellFormed()
      ensures h == MergedHeaders(headers, settings.headers)
    {
      var target := new JsObject(Empty());
      var merged := Assign(target, [headers, settings.headers]);
      h := merged.Value();
    }

    /** `setHeaders(xhr, headers)`: one `setRequestHeader` per key, in key order; returns `xhr`. */
    method SetHeaders(xhr: Xhr, headers: Obj<Scalar>) returns (r: Xhr)
      requires headers.Valid()
      modifies xhr`trace
      ensures r == xhr
      ensures xhr.trace == old(xhr.trace) + HeaderCalls(headers)
    {
      for i := 0 to |headers.keys|
        invariant xhr.trace == old(xhr.trace) + HeaderCalls(headers)[..i]
      {
        var name := headers.keys[i];
        xhr.SetRequestHeader(name, headers.props[name]);
      }
      assert HeaderCalls(headers)[..|headers.keys|] == HeaderCalls(headers);
      r := xhr;
    }

    /** `add(xhr)`: pushes the handle at the end of `openedList`. */
    method Add(xhr: Xhr)
      modifies this`openedList
      ensures openedList == old(openedList) + [xhr]
    {
      openedList := openedList + [xhr];
    }

    /** `close(xhr)`: splices out the first occurrence of the handle, if any, and returns it. */
    method Close(xhr: Xhr) returns (r: Xhr)
      modifies this`openedList
      ensures r == xhr
      ensures openedList == RemoveFirst<Xhr>(old(openedList), xhr)
    {
      var idx := ArrayIndexOf(openedList, xhr);
      if idx != -1 {
        RemoveFirstIsSplice(openedList, xhr);
        openedList := openedList[..idx] + openedList[idx + 1..];
      } else {
        RemoveFirstAbsent(openedList, xhr);
      }
      r := xhr;
    }

    /**
     * The handle `xhr` ends with `ev`. If it fires, the listener settles the
     * raw promise (first settlement only); when that promise settles now, the
     * chain closes the handle and `xhr.result` becomes the caller's outcome.
     */
    method Deliver(xhr: Xhr, ev: Event)
      requires Valid()
      modifies this`openedList, xhr`done, xhr`response, xhr`settlement, xhr`result
      ensures Valid()
      ensures old(xhr.done) ==>
        && xhr.done && xhr.response == old(xhr.response)
        && xhr.settlement == old(xhr.settlement) && xhr.result == old(xhr.result)
        && openedList == old(openedList)
      ensures !old(xhr.done) ==>
        && xhr.done
        && xhr.response == (if ev.Load? then ev.response else old(xhr.response))
        && xhr.settlement == OnEvent(old(xhr.settlement), ev)
      ensures var settles := !old(xhr.done) && old(xhr.settlement).Pending? && !xhr.settlement.Pending?;
        && (settles ==> openedList == RemoveFirst(old(openedList), xhr) && xhr.result == Pipeline(xhr.settlement, env.parse))
        && (!settles ==> openedList == old(openedList) && xhr.result == old(xhr.result))
    {
      var fired := xhr.Finish(ev);
      if !fired {
        return;
      }
      var before := xhr.settlement;
      xhr.settlement := OnEvent(before, ev);
      if before.Pending? && !xhr.settlement.Pending? {
        ghost var pre := openedList;
        var _ := Close(xhr);
        UniqueDistinct(pre);
        RemoveFirstDistinct(pre, xhr);
        UniqueDistinct(openedList);
        forall j | 0 <= j < |openedList| ensures openedList[j].settlement.Pending? {
          var y := openedList[j];
          assert y in pre && y != xhr;
          var k :| 0 <= k < |pre| && pre[k] == y;
        }
        xhr.result := Pipeline(xhr.settlement, env.parse);
      }
    }

    /**
     * `abort()`: calls `abort()` on every handle in `openedList`. Each handle that
     * has not fired yet raises `abort`, so its request fails with
     * `ERROR_RESOURCE_ABORTED` and is closed; only handles that had already
     * fired (a `load` without status) stay registered.
     */
    method Abort()
      requires Valid()
      modifies this`openedList, openedList
      ensures Valid()
      ensures openedList == Keep(old(openedList), DoneFlags(old(States(openedList))))
      ensures forall j :: 0 <= j < |old(openedList)| ==>
        AbortedFrom(old(States(openedList))[j], old(openedList)[j].State())
    {
      var handles := openedList;
      ghost var before := States(openedList);
      StatesAt(openedList);
      assert handles[0..] == handles;
      ghost var kept, now := AbortEach(handles, before);
      assert handles[|handles|..] == [];
      AbortProgressDone(handles, before, now, kept, |handles|);
    }

    /** The loop of `abort()`: one step per handle of the snapshot `handles`, in order. */
    method AbortEach(handles: seq<Xhr>, ghost before: seq<XhrState>) returns (ghost kept: seq<Xhr>, ghost now: seq<XhrState>)
      requires Aborting(handles, before, before, [], 0)
      modifies this`openedList, handles
      ensures Aborting(handles, before, now, kept, |handles|)
    {
      kept, now := [], before;
      var i := 0;
      while i < |handles|
        invariant Aborting(handles, before, now, kept, i)
      {
        kept, now := AbortNext(handles, before, now, kept, i);
        i := i + 1;
      }
    }

    /**
     * The state of `abort()` after `i` steps over the snapshot `handles`: the
     * progress so far, `now` holding every handle's state, and `openedList`
     * holding the aborted handles that stay registered, then those not reached yet.
     */
    ghost predicate Aborting(handles: seq<Xhr>, before: seq<XhrState>, now: seq<XhrState>, kept: seq<Xhr>, i: nat)
      reads this, openedList, handles
    {
      && AbortProgress(handles, before, now, kept, i) && Valid()
      && openedList == kept + handles[i..]
      && forall j :: 0 <= j < |handles| ==> handles[j].State() == now[j]
    }

    /** One step of `abort()`, as the loop sees it. */
    method AbortNext(handles: seq<Xhr>, ghost before: seq<XhrState>, ghost now: seq<XhrState>, ghost kept: seq<Xhr>, i: nat)
      returns (ghost kept': seq<Xhr>, ghost now': seq<XhrState>)
      requires i < |handles| && Aborting(handles, before, now, kept, i)
      modifies this`openedList, handles[i]
      ensures Aborting(handles, before, now', kept', i + 1)
    {
      assert now[i] == before[i];
      assert handles[i..] == [handles[i]] + handles[i + 1..];
      kept', now' := AbortAt(handles, now, kept, i);
      AbortProgressStep(handles, before, now, kept, i, now'[i]);
    }

    /** One step of `abort()`: `abort()` on the handle at position `i` of the snapshot. */
    method AbortAt(handles: seq<Xhr>, ghost now: seq<XhrState>, ghost kept: seq<Xhr>, i: nat)
      returns (ghost kept': seq<Xhr>, ghost now': seq<XhrState>)
      requires Valid() && Unique(handles) && i < |handles| && |now| == |handles|
      requires openedList == kept + [handles[i]] + handles[i + 1..]
      requires forall j :: 0 <= j < |handles| ==> handles[j].State() == now[j]
      modifies this`openedList, handles[i]
      ensures Valid()
      ensures kept' == kept + if now[i].done then [handles[i]] else []
      ensures now' == now[i := handles[i].State()]
      ensures openedList == kept' + handles[i + 1..]
      ensures forall j :: 0 <= j < |handles| ==> handles[j].State() == now'[j]
      ensures AbortedFrom(now[i], now'[i])
    {
      var xhr := handles[i];
      UniqueSplit(kept, xhr, handles[i + 1..]);
      UniqueAt(handles, i);
      AbortHandle(xhr);
      kept' := kept + if now[i].done then [xhr] else [];
      now' := now[i := xhr.State()];
      KeepOrClose(kept, xhr, handles[i + 1..], now[i].done);
    }

    /** `xhr.abort()` on a registered handle, and what its listener and chain do. */
    method AbortHandle(xhr: Xhr)
      requires Valid() && xhr in openedList
      modifies this`openedList, xhr
      ensures Valid()
      ensures AbortedFrom(old(xhr.State()), xhr.State())
      ensures openedList == if old(xhr.done) then old(openedList) else RemoveFirst(old(openedList), xhr)
    {
      xhr.Cancel();
      Deliver(xhr, Event.Abort);
    }

    /**
     * A request that is sent and then settled by its terminal event leaves
     * `openedList` as it found it, on the resolve and on the reject path.
     */
    method RequestThenSettle(verb: string, path: string, data: Payload, settings: CallSettings, ev: Event)
      returns (r: Started)
      requires Valid() && settings.WellFormed()
      requires !(ev.Load? && ev.response.status == 0)
      modifies this`openedList, this`created
      ensures Valid()
      ensures openedList == old(openedList)
      ensures r.Sent? ==> r.xhr.done && r.xhr.result == Pipeline(OnEvent(Pending, ev), env.parse)
    {
      r := Request(verb, path, data, settings);
      if r.Sent? {
        AddThenClose(old(openedList), r.xhr);
        Deliver(r.xhr, ev);
      }
    }

    /** Two requests in a row that are both sent leave both handles registered, in order. */
    method TwoRequests(verb: string, path: string, data: Payload, settings: CallSettings)
      returns (first: Started, second: Started)
      requires Valid() && settings.WellFormed()
      modifies this`openedList, this`created
      ensures Valid()
      ensures first.Sent? <==> second.Sent?
      ensures first.Sent? ==> first.xhr != second.xhr && openedList == old(openedList) + [first.xhr, second.xhr]
      ensures !first.Sent? ==> openedList == old(openedList)
    {
      ghost var cfg := Configuration();
      first := Request(verb, path, data, settings);
      assert Configuration() == cfg;
      second := Request(verb, path, data, settings);
    }

    /** `getRequest(url, params, settings)`: `request('GET', joinParams(url, params), null, settings)`. */
    method GetRequest(url: string, params: Source<Scalar> := Nullish, settings: CallSettings := NoSettings)
      returns (r: Started)
      requires Valid() && settings.WellFormed()
      modifies this`openedList, this`created
      ensures Valid()
      ensures Performed(RequestPlan(Configuration(), env, HTTP_METHOD_GET, env.joinParams(url, params), NoBody, settings), r)
      ensures RequestPlan(Configuration(), env, HTTP_METHOD_GET, env.joinParams(url, params), NoBody, settings).Refuse? ==> forall x: Xhr :: !IsNew(x)
    {
      var joined := env.joinParams(url, params);
      r := Request(HTTP_METHOD_GET, joined, NoBody, settings);
    }

    /** `putRequest(url, data, settings)`: `request('PUT', url, data, settings)`. */
    method PutRequest(url: string, data: Payload, settings: CallSettings := NoSettings) returns (r: Started)
      requires Valid() && settings.WellFormed()
      modifies this`openedList, this`created
      ensures Valid()
      ensures Performed(RequestPlan(Configuration(), env, HTTP_METHOD_PUT, url, data, settings), r)
      ensures RequestPlan(Configuration(), env, HTTP_METHOD_PUT, url, data, settings).Refuse? ==> forall x: Xhr :: !IsNew(x)
    {
      r := Request(HTTP_METHOD_PUT, url, data, settings);
    }

    /** `postRequest(url, data, settings)`: `request('POST', url, data, settings)`. */
    method PostRequest(url: string, data: Payload, settings: CallSettings := NoSettings) returns (r: Started)
      requires Valid() && settings.WellFormed()
      modifies this`openedList, this`created
      ensures Valid()
      ensures Performed(RequestPlan(Configuration(), env, HTTP_METHOD_POST, url, data, settings), r)
      ensures RequestPlan(Configuration(), env, HTTP_METHOD_POST, url, data, settings).Refuse? ==> forall x: Xhr :: !IsNew(x)
    {
      r := Request(HTTP_METHOD_POST, url, data, settings);
    }

    /** `deleteRequest(url, params, settings)`: `request('DELETE', joinParams(url, params), null, settings)`. */
    method DeleteRequest(url: string, params: Source<Scalar> := Nullish, settings: CallSettings := NoSettings)
      returns (r: Started)
      requires Valid() && settings.WellFormed()
      modifies this`openedList, this`created
      ensures Valid()
      ensures Performed(RequestPlan(Configuration(), env, HTTP_METHOD_DELETE, env.joinParams(url, params), NoBody, settings), r)
      ensures RequestPlan(Configuration(), env, HTTP_METHOD_DELETE, env.joinParams(url, params), NoBody, settings).Refuse? ==> forall x: Xhr :: !IsNew(x)
    {
      var joined := env.joinParams(url, params);
      r := Request(HTTP_METHOD_DELETE, joined, NoBody, settings);
    }

    /** `get(url, params, settings)`: the promise of `getRequest`, read through its handle. */
    method Get(url: string, params: Source<Scalar> := Nullish, settings: CallSettings := NoSettings)
      returns (r: Started)
      requires Valid() && settings.WellFormed()
      modifies this`openedList, this`created
      ensures Valid()
      ensures Performed(RequestPlan(Configuration(), env, HTTP_METHOD_GET, env.joinParams(url, params), NoBody, settings), r)
      ensures RequestPlan(Configuration(), env, HTTP_METHOD_GET, env.joinParams(url, params), NoBody, settings).Refuse? ==> forall x: Xhr :: !IsNew(x)
    {
      r := GetRequest(url, params, settings);
    }

    /** `put(url, data, settings)`: the promise of `putRequest`, read through its handle. */
    method Put(url: string, data: Payload, settings: CallSettings := NoSettings) returns (r: Started)
      requires Valid() && settings.WellFormed()
      modifies this`openedList, this`created
      ensures Valid()
      ensures Performed(RequestPlan(Configuration(), env, HTTP_METHOD_PUT, url, data, settings), r)
      ensures RequestPlan(Configuration(), env, HTTP_METHOD_PUT, url, data, settings).Refuse? ==> forall x: Xhr :: !IsNew(x)
    {
      r := PutRequest(url, data, settings);
    }

    /** `post(url, data, settings)`: the promise of `postRequest`, read through its handle. */
    method Post(url: string, data: Payload, settings: CallSettings := NoSettings) returns (r: Started)
      requires Valid() && settings.WellFormed()
      modifies this`openedList, this`created
      ensures Valid()
      ensures Performed(RequestPlan(Configuration(), env, HTTP_METHOD_POST, url, data, settings), r)
      ensures RequestPlan(Configuration(), env, HTTP_METHOD_POST, url, data, settings).Refuse? ==> forall x: Xhr :: !IsNew(x)
    {
      r := PostRequest(url, data, settings);
    }

    /** `delete(url, params, settings)`: the promise of `deleteRequest`, read through its handle. */
    method Delete(url: string, params: Source<Scalar> := Nullish, settings: CallSettings := NoSettings)
      returns (r: Started)
      requires Valid() && settings.WellFormed()
      modifies this`openedList, this`created
      ensures Valid()
      ensures Performed(RequestPlan(Configuration(), env, HTTP_METHOD_DELETE, env.joinParams(url, params), NoBody, settings), r)
      ensures RequestPlan(Configuration(), env, HTTP_METHOD_DELETE, env.joinParams(url, params), NoBody, settings).Refuse? ==> forall x: Xhr :: !IsNew(x)
    {
      r := DeleteRequest(url, params, settings);
    }
  }
}
