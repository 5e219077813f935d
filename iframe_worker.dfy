/** The sandbox relay: a hidden iframe sandboxed with `allow-scripts` whose bootstrap
    script fetches a module, spawns it as a Worker and relays its events to the host;
    the host object filters what comes back by source window and sender name. */
module IframeWorker {
  import opened Js

  /** An opaque handle for a browsing context's window. */
  datatype WindowId = WindowId(id: nat)

  /** Text that stays a single string literal when pasted between quotes into the
      bootstrap script's source: no quote of either kind, no backslash, no line break
      and no `<` (so no closing `</script>` tag). */
  predicate LiteralSafe(s: string) {
    forall i :: 0 <= i < |s| ==> s[i] !in "'\"\\\n\r<"
  }

  /** The bootstrap script the iframe runs, parameterised by the module's URL and name. */
  datatype Bootstrap = Bootstrap(scriptUrl: string, name: string)

  datatype Iframe = Iframe(contentWindow: WindowId, sandbox: string, srcdoc: Bootstrap)

  datatype EventKind = ErrorKind | MessageKind

  /** A `MessageEvent` the host object dispatches to its own listeners. */
  datatype Dispatched = Dispatched(kind: EventKind, data: Value)

  /** A `message` event arriving at the host window. */
  datatype WindowMessage = WindowMessage(source: Option<WindowId>, data: Value)

  /** What `handleIframeMessage` dispatches for an event, if anything: events whose
      `data` cannot be destructured throw; the rest are kept only if they come from
      `window` and carry `from === name`. */
  function Classify(name: string, window: WindowId, ev: WindowMessage): (r: Option<Dispatched>)
    ensures r.Some? <==>
      && !ev.data.Undefined? && !ev.data.Null?
      && ev.source == Some(window) && Get(ev.data, "from") == Str(name)
    ensures r.Some? ==>
      var error := Get(ev.data, "error");
      && r.value.kind == (if Truthy(error) then ErrorKind else MessageKind)
      && r.value.data == Or(error, Get(ev.data, "msg"))
  {
    if ev.data.Undefined? || ev.data.Null? then None
    else
      var from, error, msg := Get(ev.data, "from"), Get(ev.data, "error"), Get(ev.data, "msg");
      if ev.source == Some(window) && from == Str(name) then
        Some(Dispatched(if Truthy(error) then ErrorKind else MessageKind, Or(error, msg)))
      else None
  }

  class IframeWorker {
    const name: string
    /** The handler `handleIframeMessage` is registered on the host window. */
    var listening: bool
    /** The iframe, attached to the document, until `Terminate` sets it to null. */
    var iframe: Option<Iframe>
    /** Events dispatched to this object's listeners, in order. */
    var dispatched: seq<Dispatched>
    /** Messages posted into the iframe's window, in order. */
    var posted: seq<Value>

    ghost predicate Valid()
      reads this
    {
      && (listening <==> iframe.Some?)
      && (iframe.Some? ==> iframe.value.sandbox == "allow-scripts" && iframe.value.srcdoc.name == name)
    }

    /** `window` is the iframe's content window, chosen by the browser. */
    constructor (scriptUrl: string, name: string, window: WindowId)
      ensures Valid()
      ensures this.name == name && listening
      ensures iframe == Some(Iframe(window, "allow-scripts", Bootstrap(scriptUrl, name)))
      ensures dispatched == [] && posted == []
    {
      this.name := name;
      iframe := Some(Iframe(window, "allow-scripts", Bootstrap(scriptUrl, name)));
      listening := true;
      dispatched := [];
      posted := [];
    }

    /** Forwards `msg` into the iframe while there is one; a no-op after `Terminate`. */
    method PostMessage(msg: Value)
      requires Valid()
      modifies this`posted
      ensures Valid()
      ensures posted == if iframe.Some? then old(posted) + [msg] else old(posted)
    {
      if iframe.Some? {
        posted := posted + [msg];
      }
    }

    /** Removes the window listener and the iframe; repeating it changes nothing. */
    method Terminate()
      requires Valid()
      modifies this`listening, this`iframe
      ensures Valid()
      ensures !listening && iframe.None?
    {
      listening := false;
      iframe := None;
    }

    /** A `message` event at the host window: handled only while the listener is
        registered, and then dispatched only as `Classify` says. */
    method OnWindowMessage(ev: WindowMessage)
      requires Valid()
      modifies this`dispatched
      ensures Valid()
      ensures !listening ==> dispatched == old(dispatched)
      ensures listening ==>
        dispatched == match Classify(name, iframe.value.contentWindow, ev) {
                        case Some(d) => old(dispatched) + [d]
                        case None => old(dispatched) }
    {
      if listening {
        var d := Classify(name, iframe.value.contentWindow, ev);
        if d.Some? {
          dispatched := dispatched + [d.value];
        }
      }
    }
  }

  /** After `Terminate`, nothing posted and nothing arriving has any effect. */
  method TerminatedIsInert(w: IframeWorker, msg: Value, ev: WindowMessage)
    requires w.Valid()
    modifies w
    ensures w.Valid() && !w.listening && w.iframe.None?
    ensures w.posted == old(w.posted) && w.dispatched == old(w.dispatched)
  {
    w.Terminate();
    w.Terminate();
    w.PostMessage(msg);
    w.OnWindowMessage(ev);
  }

  // ---- The bootstrap script that runs inside the iframe ----

  /** The settled `fetch(scriptUrl, {method: 'GET', mode: 'cors'})`. */
  datatype FetchAnswer = FetchRejected | FetchResponse(ok: bool)

  /** A step of the bootstrap script, as observed from outside the sandbox. */
  datatype BootEvent =
    | FetchScript(url: string, mode: string)
    | CreateObjectUrl(url: string)
    | ConsoleError(message: string)
    | SpawnWorker(url: string, name: string)
    | WorkerListens(kind: EventKind)
    | WindowListens
    | RevokeObjectUrl(url: string)

  predicate LoadOk(answer: FetchAnswer) {
    answer.FetchResponse? && answer.ok
  }

  function LoadFailureMessage(name: string, scriptUrl: string): string {
    "Failed to load " + name + "'s script (" + scriptUrl + "): "
  }

  /** `init()`: fetch the script; a rejected or non-ok fetch is logged and ends the
      script with no Worker. Otherwise turn it into an object URL, spawn the Worker
      under `name`, wire the relays and revoke the URL. `objectUrl` is the URL the
      browser mints for the fetched blob. */
  method Init(scriptUrl: string, name: string, answer: FetchAnswer, objectUrl: string)
    returns (trace: seq<BootEvent>)
    requires LiteralSafe(scriptUrl) && LiteralSafe(name)
    ensures |trace| >= 2 && (LoadOk(answer) ==> |trace| >= 3)
    ensures trace[0] == FetchScript(scriptUrl, "cors")
    ensures !LoadOk(answer) ==>
      trace == [FetchScript(scriptUrl, "cors"), ConsoleError(LoadFailureMessage(name, scriptUrl))]
    ensures (exists i :: 0 <= i < |trace| && trace[i].SpawnWorker?) <==> LoadOk(answer)
    ensures LoadOk(answer) ==>
      trace == [FetchScript(scriptUrl, "cors"), CreateObjectUrl(objectUrl), SpawnWorker(objectUrl, name),
                WorkerListens(ErrorKind), WorkerListens(MessageKind), WindowListens, RevokeObjectUrl(objectUrl)]
    ensures LoadOk(answer) ==>
      && trace[2] == SpawnWorker(objectUrl, name)
      && trace[|trace| - 1] == RevokeObjectUrl(objectUrl)
      && (forall i :: 0 <= i < |trace| - 1 ==> !trace[i].RevokeObjectUrl?)
      && (forall i :: 0 <= i < |trace| && trace[i].SpawnWorker? ==> i == 2)
  {
    trace := [FetchScript(scriptUrl, "cors")];
    if !LoadOk(answer) {
      trace := trace + [ConsoleError(LoadFailureMessage(name, scriptUrl))];
      return;
    }
    trace := trace + [CreateObjectUrl(objectUrl)];
    trace := trace + [SpawnWorker(objectUrl, name)];
    trace := trace + [WorkerListens(ErrorKind), WorkerListens(MessageKind), WindowListens];
    trace := trace + [RevokeObjectUrl(objectUrl)];
    assert trace[2].SpawnWorker?;
  }

  /** The object the script would post to the parent for a Worker `error` event, were
      the error a plain value. */
  function RelayWorkerError(name: string, error: Value): Value {
    Obj(map["from" := Str(name), "error" := error])
  }

  /** A property of an object handed to `window.parent.postMessage`: a plain value, or
      an `ErrorEvent` (which the structured clone algorithm cannot serialise). */
  datatype Field = Plain(v: Value) | EventObject(message: string)

  /** `window.parent.postMessage(data)` of an object: the structured clone of `data`,
      which the parent receives, or None when the clone throws a `DataCloneError` and
      nothing is posted. */
  function PostClone(data: map<string, Field>): (r: Option<Value>)
    ensures r.None? <==> exists k :: k in data && data[k].EventObject?
    ensures r.Some? ==>
      && r.value.Obj? && r.value.props.Keys == data.Keys
      && forall k :: k in data ==> r.value.props[k] == data[k].v
  {
    if exists k :: k in data && data[k].EventObject? then None
    else Some(Obj(map k | k in data :: data[k].v))
  }

  /** Line 51 as written: the Worker's `ErrorEvent` itself is the `error` property. */
  function ErrorRelayAsWritten(name: string, message: string): map<string, Field> {
    map["from" := Plain(Str(name)), "error" := EventObject(message)]
  }

  /** A relay that posts what is needed of the event, `{message: error.message}`. */
  function ErrorRelayIntended(name: string, message: string): map<string, Field> {
    map["from" := Plain(Str(name)), "error" := Plain(Obj(map["message" := Str(message)]))]
  }

  /** As written, a Worker error is never delivered: the clone throws inside the iframe,
      so the host receives no relay and dispatches no `error` event for it. */
  lemma ErrorRelayNeverPosted(name: string, message: string)
    ensures PostClone(ErrorRelayAsWritten(name, message)).None?
  {
    assert ErrorRelayAsWritten(name, message)["error"].EventObject?;
  }

  /** With the intended relay, every Worker error reaches the host object named `name`
      as an `error` event carrying its message. */
  lemma ErrorRelayIntendedDelivered(name: string, window: WindowId, message: string)
    requires LiteralSafe(name)
    ensures var posted := PostClone(ErrorRelayIntended(name, message));
      && posted == Some(RelayWorkerError(name, Obj(map["message" := Str(message)])))
      && Classify(name, window, WindowMessage(Some(window), posted.value))
         == Some(Dispatched(ErrorKind, Obj(map["message" := Str(message)])))
  {
    var posted := PostClone(ErrorRelayIntended(name, message));
    assert posted.value.props == RelayWorkerError(name, Obj(map["message" := Str(message)])).props;
    ErrorRelayRoundTrip(name, window, Obj(map["message" := Str(message)]));
  }

  /** What the script posts to the parent for a Worker `message` event carrying `data`. */
  function RelayWorkerMessage(name: string, data: Value): Value {
    Obj(map["from" := Str(name), "msg" := data])
  }

  /** A Worker message relayed by the iframe named `name` reaches that host object as
      a `message` event carrying the same data, whatever the data is. */
  lemma MessageRelayRoundTrip(name: string, window: WindowId, data: Value)
    requires LiteralSafe(name)
    ensures Classify(name, window, WindowMessage(Some(window), RelayWorkerMessage(name, data)))
         == Some(Dispatched(MessageKind, data))
  {
  }

  /** The host side of the error relay: an object `{from: name, error}` that reaches the
      host object named `name` from its iframe is dispatched as an `error` event carrying
      the error, provided the error is truthy. */
  lemma ErrorRelayRoundTrip(name: string, window: WindowId, error: Value)
    requires LiteralSafe(name) && Truthy(error)
    ensures Classify(name, window, WindowMessage(Some(window), RelayWorkerError(name, error)))
         == Some(Dispatched(ErrorKind, error))
  {
  }

  /** No cross-talk: a relay from another iframe's window, or tagged with another
      name, is never dispatched. */
  lemma RelayFiltered(name: string, window: WindowId, other: string, source: WindowId, data: Value)
    requires LiteralSafe(other) && (other != name || source != window)
    ensures Classify(name, window, WindowMessage(Some(source), RelayWorkerMessage(other, data))) == None
    ensures Classify(name, window, WindowMessage(Some(source), RelayWorkerError(other, data))) == None
  {
  }
}
