/** The Ollama vision-model client: one background `/api/generate` request with one image per query. */
module Vlm {
  import opened Wrappers
  import opened Values
  import opened QueryClient

  const DefaultModel: string := "llava:7b"

  /** The JSON body: model, prompt, exactly one base64 image, and `stream: false`. */
  function RequestBody(model: string, prompt: string, image: string): (r: Value)
    ensures r.Dict? && |r.entries| == 4
    ensures DictGet(r.entries, "model") == Some(Str(model))
    ensures DictGet(r.entries, "prompt") == Some(Str(prompt))
    ensures DictGet(r.entries, "images") == Some(List([Str(image)]))
    ensures DictGet(r.entries, "stream") == Some(Bool(false))
  {
    Dict(Put(Put(Put(Put([], "model", Str(model)), "prompt", Str(prompt)), "images", List([Str(image)])), "stream", Bool(false)))
  }

  /** The arguments the background thread of one query runs with. */
  datatype Job = Job(frame: Value, prompt: string)

  class OllamaVLM {
    const url: string
    const model: string
    var lastResponse: string
    var lastSendTime: real
    var pending: bool
    var callback: Option<Callback>

    function State(): ClientState
      reads this
    {
      ClientState(lastResponse, lastSendTime, pending, callback)
    }

    constructor(url: string, model: string)
      ensures this.url == url && this.model == model
      ensures State() == QueryClient.Init()
    {
      this.url := url;
      this.model := model;
      lastResponse := "";
      lastSendTime := 0.0;
      pending := false;
      callback := None;
    }

    /** `should_send(interval)` at time `now`. */
    function ShouldSend(interval: real, now: real): (r: bool)
      reads this
      ensures r == QueryClient.ShouldSend(State(), interval, now)
    {
      if pending then false else now - lastSendTime >= interval
    }

    /** A snapshot of the most recent successful description ("" before the first). */
    function GetLastResponse(): (r: string)
      reads this
      ensures r == State().lastResponse
    {
      lastResponse
    }

    function IsPending(): (r: bool)
      reads this
      ensures r == State().pending
    {
      pending
    }

    /** `query_async`: marks the client pending and hands the frame to a background thread. */
    method QueryAsync(frame: Value, prompt: string, cb: Option<Callback>, now: real) returns (job: Job)
      modifies this
      ensures State() == Fire(old(State()), now, cb)
      ensures job == Job(frame, prompt)
    {
      lastSendTime := now;
      pending := true;
      callback := cb;
      job := Job(frame, prompt);
    }

    /**
     * `_query`, run to completion as one step. `image` is the base64 JPEG of
     * the job's frame, whose encoding is not modelled.
     */
    method Query(job: Job, image: string, reply: Reply) returns (body: Value, call: Option<(Callback, string)>)
      modifies this
      ensures body == RequestBody(model, job.prompt, image)
      ensures State() == Finish(old(State()), ReplyText(reply))
      ensures call == CallbackCall(old(State()), ReplyText(reply))
    {
      body := RequestBody(model, job.prompt, image);
      var result := ReplyText(reply);
      call := None;
      if result.Some? {
        lastResponse := result.value;
        if callback.Some? {
          call := Some((callback.value, result.value));
        }
      }
      pending := false;
    }
  }
}
