/** The Ollama text-model client: one background `/api/generate` request per query. */
module Llm {
  import opened Wrappers
  import opened Values
  import opened QueryClient

  const DefaultModel: string := "llama3.2:3b"

  /** The JSON body of `/api/generate`: model, prompt and `stream: false`, plus `system` only when one is given. */
  function RequestBody(model: string, prompt: string, system: string): (r: Value)
    ensures r.Dict? && |r.entries| == if system != "" then 4 else 3
    ensures DictGet(r.entries, "model") == Some(Str(model))
    ensures DictGet(r.entries, "prompt") == Some(Str(prompt))
    ensures DictGet(r.entries, "stream") == Some(Bool(false))
    ensures DictGet(r.entries, "system") == if system != "" then Some(Str(system)) else None
  {
    var payload := Put(Put(Put([], "model", Str(model)), "prompt", Str(prompt)), "stream", Bool(false));
    Dict(if system != "" then Put(payload, "system", Str(system)) else payload)
  }

  /** The arguments the background thread of one query runs with. */
  datatype Job = Job(prompt: string, system: string)

  class OllamaLLM {
    const url: string
    const model: string
    var lastResponse: string
    var lastSendTime: real
    var pending: bool
    var callback: Option<Callback>

    function State(): ClientState
      reads this
    {
      ClientState(lastResponse, lastSendTime, pending, callback)
    }

    constructor(url: string, model: string)
      ensures this.url == url && this.model == model
      ensures State() == QueryClient.Init()
    {
      this.url := url;
      this.model := model;
      lastResponse := "";
      lastSendTime := 0.0;
      pending := false;
      callback := None;
    }

    /** `should_send(interval)` at time `now`. */
    function ShouldSend(interval: real, now: real): (r: bool)
      reads this
      ensures r == QueryClient.ShouldSend(State(), interval, now)
    {
      if pending then false else now - lastSendTime >= interval
    }

    /** A snapshot of the most recent successful response ("" before the first). */
    function GetLastResponse(): (r: string)
      reads this
      ensures r == State().lastResponse
    {
      lastResponse
    }

    function IsPending(): (r: bool)
      reads this
      ensures r == State().pending
    {
      pending
    }

    /** `query_async`: marks the client pending and hands the job to a background thread. */
    method QueryAsync(prompt: string, system: string, cb: Option<Callback>, now: real) returns (job: Job)
      modifies this
      ensures State() == Fire(old(State()), now, cb)
      ensures job == Job(prompt, system)
    {
      lastSendTime := now;
      pending := true;
      callback := cb;
      job := Job(prompt, system);
    }

    /**
     * `_query`, run to completion as one step: posts the request body, stores
     * the stripped text on success, calls the callback with it, and always
     * clears `pending`.
     */
    method Query(job: Job, reply: Reply) returns (body: Value, call: Option<(Callback, string)>)
      modifies this
      ensures body == RequestBody(model, job.prompt, job.system)
      ensures State() == Finish(old(State()), ReplyText(reply))
      ensures call == CallbackCall(old(State()), ReplyText(reply))
    {
      body := RequestBody(model, job.prompt, job.system);
      var result := ReplyText(reply);
      call := None;
      if result.Some? {
        lastResponse := result.value;
        if callback.Some? {
          call := Some((callback.value, result.value));
        }
      }
      pending := false;
    }
  }
}
