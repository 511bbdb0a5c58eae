/**
 * The OSC prompt plugin: `/prompt <string>` messages set the current text,
 * and each frame hands a non-empty text to the prompt ledger, which injects
 * it once per change.
 */
module OscPrompt {
  import opened Wrappers
  import opened Text
  import opened Values
  import opened PromptLedger
  import Forward

  /** The plugin's own parameters, which are not forwarded downstream. */
  const OwnKeys: set<string> :=
    {"osc_port", "prompt_weight", "transition_steps", "interpolation_method", "overlay_enabled", "font_size", "text_opacity", "bg_opacity"}

  const DefaultWeight: Value := Float(100.0, "100.0")
  const DefaultSteps: Value := Int(0)
  const DefaultInterpolation: Value := Str("slerp")

  /** The text of a `/prompt` message: the first argument's `str()`, stripped; "" without arguments. */
  function MessageText(args: seq<Value>): (r: string)
    ensures args == [] ==> r == ""
    ensures args != [] ==> (r == "" <==> AllSpace(ToStr(args[0])))
    ensures r == [] || (!IsSpace(r[0]) && !IsSpace(r[|r| - 1]))
  {
    if args != [] then Strip(ToStr(args[0])) else ""
  }

  /** The arguments `inject_if_new` is called with on a frame: weight, steps and interpolation, or their defaults. */
  function InjectArgs(kwargs: Bag): (r: (Value, Value, Value))
    ensures "prompt_weight" !in kwargs ==> r.0 == DefaultWeight
    ensures "transition_steps" !in kwargs ==> r.1 == Int(0)
    ensures "interpolation_method" !in kwargs ==> r.2 == Str("slerp")
    ensures "prompt_weight" in kwargs ==> r.0 == kwargs["prompt_weight"]
    ensures "transition_steps" in kwargs ==> r.1 == kwargs["transition_steps"]
    ensures "interpolation_method" in kwargs ==> r.2 == kwargs["interpolation_method"]
  {
    (Get(kwargs, "prompt_weight", DefaultWeight),
     Get(kwargs, "transition_steps", DefaultSteps),
     Get(kwargs, "interpolation_method", DefaultInterpolation))
  }

  /** The output dict and ledger of a frame that goes ahead: the forwarded dict, run through the ledger when `text` is non-empty. */
  function FrameOutput(kwargs: Bag, frames: Value, text: string, last: string): (r: (Bag, string))
    requires CanInject(kwargs, last, text, InjectArgs(kwargs).1)
  {
    var forwarded := Forward.Forwarded(kwargs, OwnKeys, frames);
    var (weight, steps, interpolation) := InjectArgs(kwargs);
    assert "prompts" in forwarded <==> "prompts" in kwargs;
    if text != "" then Inject(forwarded, last, text, weight, steps, interpolation)
    else (forwarded, last)
  }

  /**
   * A frame whose text was injected last forwards the keyword arguments
   * untouched, whatever the steps; a new text is appended after the
   * upstream prompts when the steps are not positive.
   */
  lemma FrameOutputInjectsOnce(kwargs: Bag, frames: Value, text: string, last: string)
    requires CanInject(kwargs, last, text, InjectArgs(kwargs).1)
    ensures var r := FrameOutput(kwargs, frames, text, last);
      (!IsNew(last, text) ==> r == (Forward.Forwarded(kwargs, OwnKeys, frames), last)) &&
      (IsNew(last, text) && AsReal(InjectArgs(kwargs).1) <= 0.0 ==>
         r.1 == text && PromptsListable(r.0) &&
         ExistingPrompts(r.0) == ExistingPrompts(kwargs) + [PromptEntry(Str(text), InjectArgs(kwargs).0)])
  {
    var forwarded := Forward.Forwarded(kwargs, OwnKeys, frames);
    assert "prompts" in forwarded <==> "prompts" in kwargs;
    if "prompts" in kwargs {
      assert forwarded["prompts"] == kwargs["prompts"];
    }
  }

  class OSCPromptPipeline {
    /** The latest text received; "" before the first. */
    var lastText: string
    const ledger: PromptInjector

    constructor()
      ensures lastText == "" && fresh(ledger) && ledger.lastInjected == ""
    {
      lastText := "";
      ledger := new PromptInjector();
    }

    /** `_on_prompt(address, *args)`: a blank text is ignored, anything else replaces the current text. */
    method OnPrompt(args: seq<Value>)
      modifies this
      ensures lastText == if MessageText(args) != "" then MessageText(args) else old(lastText)
    {
      var text := if args != [] then Strip(ToStr(args[0])) else "";
      if text != "" {
        lastText := text;
      }
    }

    /** `__call__(**kwargs)`; `frames` is the frame tensor the output carries under `video`. */
    method Call(kwargs: Bag, frames: Value) returns (result: Result<Bag>)
      requires !Forward.VideoMissing(kwargs) ==> CanInject(kwargs, ledger.lastInjected, lastText, InjectArgs(kwargs).1)
      modifies ledger
      ensures Forward.VideoMissing(kwargs) ==>
        result == Failure("OSCPromptPipeline requires video input") && ledger.lastInjected == old(ledger.lastInjected)
      ensures !Forward.VideoMissing(kwargs) ==>
        var r := FrameOutput(kwargs, frames, lastText, old(ledger.lastInjected));
        result == Success(r.0) && ledger.lastInjected == r.1
    {
      var video := Get(kwargs, "video", NoneValue);
      if video == NoneValue {
        return Failure("OSCPromptPipeline requires video input");
      }
      var text := lastText;
      var forwarded := Forward.ForwardKwargs(kwargs, OwnKeys, frames);
      var output := new OutputDict(forwarded);
      if text != "" {
        assert "prompts" in forwarded <==> "prompts" in kwargs;
        ledger.InjectIfNew(output, text,
          Get(kwargs, "prompt_weight", DefaultWeight),
          Get(kwargs, "transition_steps", DefaultSteps),
          Get(kwargs, "interpolation_method", DefaultInterpolation));
      }
      result := Success(output.items);
    }
  }
}
