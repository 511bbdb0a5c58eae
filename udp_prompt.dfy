/**
 * The UDP prompt plugin: the latest text received over UDP is appended as a
 * prompt to the forwarded `prompts` on every frame, without deduplication.
 */
module UdpPrompt {
  import opened Wrappers
  import opened Values
  import opened PromptLedger
  import Forward
  import Debounce
  import Udp

  /** The plugin's own parameters, which are not forwarded downstream. */
  const OwnKeys: set<string> := {"udp_port", "prompt_weight", "overlay_enabled", "font_size", "text_opacity", "bg_opacity"}

  const DefaultWeight: Value := Float(100.0, "100.0")

  /**
   * The output of one frame that goes ahead with `text`: the forwarded
   * keyword arguments, and `{text, weight}` appended to `prompts` when the
   * text is truthy.
   */
  function FrameOutput(kwargs: Bag, frames: Value, text: Value): (r: Bag)
    requires Truthy(text) ==> PromptsListable(kwargs)
  {
    var forwarded := Forward.Forwarded(kwargs, OwnKeys, frames);
    if Truthy(text) then WithPrompt(forwarded, PromptEntry(text, Get(kwargs, "prompt_weight", DefaultWeight)))
    else forwarded
  }

  /**
   * Every foreign key keeps its value except `prompts`: a truthy text is
   * appended after the upstream prompts, with the given or the default
   * weight; a falsy text leaves `prompts` as forwarded.
   */
  lemma FrameOutputPrompts(kwargs: Bag, frames: Value, text: Value)
    requires Truthy(text) ==> PromptsListable(kwargs)
    ensures var r := FrameOutput(kwargs, frames, text);
      r["video"] == frames &&
      (forall k :: k != "prompts" && k != "video" ==> (k in r <==> k in kwargs && k !in OwnKeys)) &&
      (forall k :: k in r && k != "prompts" && k != "video" ==> r[k] == kwargs[k]) &&
      (Truthy(text) ==>
         PromptsListable(r) &&
         ExistingPrompts(r) == ExistingPrompts(kwargs) + [PromptEntry(text, Get(kwargs, "prompt_weight", DefaultWeight))]) &&
      (!Truthy(text) ==> ("prompts" in r <==> "prompts" in kwargs) && ("prompts" in kwargs ==> r["prompts"] == kwargs["prompts"]))
  {
    var forwarded := Forward.Forwarded(kwargs, OwnKeys, frames);
    assert "prompts" in forwarded <==> "prompts" in kwargs;
    if Truthy(text) {
      var r := WithPrompt(forwarded, PromptEntry(text, Get(kwargs, "prompt_weight", DefaultWeight)));
      assert r.Keys == forwarded.Keys + {"prompts"};
      assert ExistingPrompts(forwarded) == ExistingPrompts(kwargs);
    }
  }

  /**
   * The overlay is drawn when `overlay_enabled` (default true) and the text
   * are truthy; word-wrapping calls `expandtabs`, which only a string has.
   */
  predicate OverlayRaises(kwargs: Bag, text: Value)
  {
    Truthy(Get(kwargs, "overlay_enabled", Bool(true))) && Truthy(text) && !text.Str?
  }

  /** The `AttributeError` the overlay raises for a text that is not a string. */
  function OverlayError(text: Value): string
  {
    "'" + TypeName(text) + "' object has no attribute 'expandtabs'"
  }

  class UDPPromptPipeline {
    /** The last message received; "" before the first. */
    var lastText: Value
    const udp: Udp.UDPReceiver

    /** Binds the receiver to `udp_port` (9400 by default). */
    constructor(kwargs: Bag)
      requires IsInteger(Get(kwargs, "udp_port", Int(Udp.DefaultPort)))
      ensures lastText == Str("") && fresh(udp)
      ensures udp.State() == Debounce.Init(AsInt(Get(kwargs, "udp_port", Int(Udp.DefaultPort)))) && udp.queue == []
    {
      lastText := Str("");
      udp := new Udp.UDPReceiver(AsInt(Get(kwargs, "udp_port", Int(Udp.DefaultPort))));
    }

    /** The text a frame goes ahead with: the latest queued message unless that is None, else the stored one. */
    function TextAfterPoll(decode: string -> Option<Value>): Value
      reads this, udp
    {
      if udp.queue == [] then lastText
      else
        var msg := Udp.Decoded(decode, udp.queue[|udp.queue| - 1]);
        if msg == NoneValue then lastText else msg
    }

    /**
     * `__call__(**kwargs)`; `frames` is the frame tensor the output carries
     * under `video`. The overlay is drawn after the poll, so its error for a
     * non-string text comes after the text has been updated.
     */
    method Call(kwargs: Bag, frames: Value, decode: string -> Option<Value>) returns (result: Result<Bag>)
      requires !Forward.VideoMissing(kwargs) && Truthy(TextAfterPoll(decode)) ==> PromptsListable(kwargs)
      modifies this, udp
      ensures udp.State() == old(udp.State())
      ensures Forward.VideoMissing(kwargs) ==>
        result == Failure("UDPPromptPipeline requires video input") &&
        lastText == old(lastText) && udp.queue == old(udp.queue)
      ensures !Forward.VideoMissing(kwargs) ==>
        lastText == old(TextAfterPoll(decode)) && udp.queue == [] &&
        result == if OverlayRaises(kwargs, lastText) then Failure(OverlayError(lastText))
                  else Success(FrameOutput(kwargs, frames, lastText))
    {
      var video := Get(kwargs, "video", NoneValue);
      if video == NoneValue {
        return Failure("UDPPromptPipeline requires video input");
      }
      var msg := udp.Poll(decode);
      if msg != NoneValue {
        lastText := msg;
      }
      if OverlayRaises(kwargs, lastText) {
        return Failure(OverlayError(lastText));
      }
      var output := Forward.ForwardKwargs(kwargs, OwnKeys, frames);
      if Truthy(lastText) {
        var weight := Get(kwargs, "prompt_weight", DefaultWeight);
        var existing := ExistingPrompts(output);
        existing := existing + [PromptEntry(lastText, weight)];
        output := output["prompts" := List(existing)];
      }
      assert output == FrameOutput(kwargs, frames, lastText);
      result := Success(output);
    }
  }
}
