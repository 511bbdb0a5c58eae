/**
 * The non-blocking, rate-limited, single-flight query client shared by the
 * Ollama LLM and VLM clients. The background thread is modelled as an
 * explicit completion step that receives the HTTP outcome as a parameter.
 */
module QueryClient {
  import opened Wrappers
  import opened Values
  import opened Text

  const DefaultUrl: string := "http://localhost:11434"

  /** A completion callback, known by its identity. */
  datatype Callback = Callback(name: string)

  /** `_last_response`, `_last_send_time`, `_pending` and `_callback`. */
  datatype ClientState = ClientState(lastResponse: string, lastSendTime: real, pending: bool, callback: Option<Callback>)

  /** A new client: no response yet, never sent, idle, no callback. */
  function Init(): (s: ClientState)
    ensures s.lastResponse == "" && s.lastSendTime == 0.0 && !s.pending && s.callback == None
  {
    ClientState("", 0.0, false, None)
  }

  /** `should_send(interval)` at time `now`: never while a query is pending, otherwise once `interval` has elapsed. */
  function ShouldSend(s: ClientState, interval: real, now: real): (r: bool)
    ensures s.pending ==> !r
    ensures !s.pending ==> (r <==> now - s.lastSendTime >= interval)
  {
    if s.pending then false else now - s.lastSendTime >= interval
  }

  /** `query_async` at time `now`: records the fire time and the callback and marks a query pending. It does not check `pending` itself. */
  function Fire(s: ClientState, now: real, callback: Option<Callback>): (r: ClientState)
    ensures r.pending && r.lastSendTime == now && r.callback == callback
    ensures r.lastResponse == s.lastResponse
  {
    ClientState(s.lastResponse, now, true, callback)
  }

  /** The end of `_query`: the response is stored only on success, and `pending` is cleared either way. */
  function Finish(s: ClientState, result: Option<string>): (r: ClientState)
    ensures !r.pending
    ensures r.lastResponse == if result.Some? then result.value else s.lastResponse
    ensures r.lastSendTime == s.lastSendTime && r.callback == s.callback
  {
    ClientState(if result.Some? then result.value else s.lastResponse, s.lastSendTime, false, s.callback)
  }

  /** The callback call made on completion: only on success, only if a callback is set, with the stored text. */
  function CallbackCall(s: ClientState, result: Option<string>): (r: Option<(Callback, string)>)
    ensures r.Some? <==> result.Some? && s.callback.Some?
    ensures r.Some? ==> r.value == (s.callback.value, result.value)
  {
    if result.Some? && s.callback.Some? then Some((s.callback.value, result.value)) else None
  }

  /** How the HTTP exchange ended: no response at all, or a status with a body that did or did not parse as JSON. */
  datatype Reply = TransportError | Response(status: int, json: Option<Value>)

  /**
   * The text `_query` extracts: `response.json().get("response", "").strip()`.
   * Every exception on the way (transport, non-2xx status, a body that is
   * not JSON or not an object, a non-string `response`) is a failure.
   */
  function ReplyText(reply: Reply): (r: Option<string>)
    ensures r.Some? ==> reply.Response? && 200 <= reply.status < 300 && reply.json.Some? && reply.json.value.Dict?
  {
    match reply
    case TransportError => None
    case Response(status, json) =>
      if !(200 <= status < 300) || json.None? || !json.value.Dict? then None
      else
        match DictGet(json.value.entries, "response")
        case None => Some(Strip(""))
        case Some(v) => if v.Str? then Some(Strip(v.s)) else None
  }

  /**
   * On a 2xx JSON object the text is the stripped `response` field, "" when
   * the field is missing and a failure when it is not a string.
   */
  lemma ReplyTextOfObject(status: int, entries: seq<(string, Value)>)
    requires 200 <= status < 300
    ensures var r := ReplyText(Response(status, Some(Dict(entries))));
      match DictGet(entries, "response")
      case None => r == Some("")
      case Some(v) => r == if v.Str? then Some(Strip(v.s)) else None
  {
    assert Strip("") == "" by { StripIdempotent(""); }
  }

  /** A successful text is already stripped: storing it and stripping again changes nothing. */
  lemma ReplyTextStripped(reply: Reply)
    requires ReplyText(reply).Some?
    ensures Strip(ReplyText(reply).value) == ReplyText(reply).value
  {
    match reply
    case Response(status, json) =>
      match DictGet(json.value.entries, "response")
      case None => StripIdempotent("");
      case Some(v) => StripIdempotent(v.s);
  }

  /** A frame-loop step (fire when `should_send` allows) or the completion of one outstanding query. */
  datatype Event =
    | Tick(now: real, interval: real, callback: Option<Callback>)
    | Completion(result: Option<string>)

  /** The client together with the number of background queries still running. */
  datatype System = System(client: ClientState, running: nat)

  /** The documented usage: `if should_send(interval): query_async(...)` each frame; a completion ends one running query. */
  function Step(sys: System, e: Event): System
  {
    match e
    case Tick(now, interval, callback) =>
      if ShouldSend(sys.client, interval, now) then System(Fire(sys.client, now, callback), sys.running + 1)
      else sys
    case Completion(result) =>
      if sys.running == 0 then sys else System(Finish(sys.client, result), sys.running - 1)
  }

  function Steps(sys: System, events: seq<Event>): System
    decreases |events|
  {
    if events == [] then sys else Step(Steps(sys, events[..|events| - 1]), events[|events| - 1])
  }

  /** At most one query runs, and `pending` says exactly whether one does. */
  predicate SingleFlight(sys: System)
  {
    sys.running <= 1 && (sys.client.pending <==> sys.running == 1)
  }

  /** Gated by `should_send`, a client never has two queries in flight, whatever the interleaving of frames and completions. */
  lemma {:induction false} SingleFlightHolds(events: seq<Event>)
    ensures SingleFlight(Steps(System(Init(), 0), events))
    decreases |events|
  {
    if events != [] {
      SingleFlightHolds(events[..|events| - 1]);
    }
  }

  /**
   * A failed query leaves the last response as it was, and the next
   * `should_send` window opens `interval` after the failed attempt was fired.
   */
  lemma FailureRecovery(s: ClientState, fired: real, callback: Option<Callback>, interval: real, later: real)
    ensures var after := Finish(Fire(s, fired, callback), None);
      after.lastResponse == s.lastResponse &&
      (ShouldSend(after, interval, later) <==> later - fired >= interval)
  {
  }
}
