/**
 * The text-log debug plugin: it builds readable lines describing every
 * keyword argument of a frame, prefixes the latest UDP message, prints them
 * at most once per `log_interval`, and forwards the keyword arguments.
 */
module TextLog {
  import opened Wrappers
  import opened Text
  import opened Values
  import Forward
  import Debounce
  import Udp

  /** The plugin's own parameters: neither listed among the other keys nor forwarded. */
  const OwnKeys: set<string> := {
    "overlay_enabled", "print_to_stdout", "log_interval", "show_video_shape",
    "show_prompts", "show_all_keys", "font_size", "text_opacity",
    "text_position", "bg_opacity", "max_value_length",
    "udp_enabled", "udp_port"
  }

  /** The longest list or tuple `_format_value` prints in full. */
  const ShortSequence: nat := 5

  /** `s[:max_len] + "..." if len(s) > max_len else s`. */
  function Truncated(s: string, maxLen: int): (r: string)
    ensures |s| <= maxLen ==> r == s
    ensures 0 <= maxLen < |s| ==> |r| == maxLen + 3 && r == s[..maxLen] + "..."
    ensures maxLen < 0 && |s| + maxLen >= 0 ==> r == s[..|s| + maxLen] + "..."
  {
    if |s| > maxLen then Prefix(s, maxLen) + "..." else s
  }

  /** A list or tuple `_format_value` summarises instead of printing. */
  predicate LongSequence(v: Value)
  {
    (v.List? || v.Tuple?) && |v.items| > ShortSequence
  }

  /** `value[:3]` of a list or tuple, keeping its type. */
  function FirstThree(v: Value): (r: Value)
    requires v.List? || v.Tuple?
    ensures (r.List? <==> v.List?) && (r.Tuple? <==> v.Tuple?)
    ensures |v.items| >= 3 ==> |r.items| == 3 && r.items == v.items[..3]
  {
    var head := if |v.items| < 3 then v.items else v.items[..3];
    if v.List? then List(head) else Tuple(head)
  }

  /** `_format_value(value, max_len)`. */
  function FormatValue(v: Value, maxLen: int): (r: string)
    ensures v.Tensor? ==> r == "Tensor shape=" + IntListRepr(v.shape) + " dtype=" + v.dtype
    ensures LongSequence(v) ==>
      r == TypeName(v) + "[" + IntToString(|v.items|) + "] = " + Prefix(Repr(FirstThree(v)), maxLen) + "..."
    ensures !v.Tensor? && !LongSequence(v) ==> r == Truncated(ToStr(v), maxLen)
  {
    if v.Tensor? then "Tensor shape=" + IntListRepr(v.shape) + " dtype=" + v.dtype
    else if LongSequence(v) then
      TypeName(v) + "[" + IntToString(|v.items|) + "] = " + Prefix(Repr(FirstThree(v)), maxLen) + "..."
    else Truncated(ToStr(v), maxLen)
  }

  /**
   * A value that is neither a tensor nor a long sequence prints in full when
   * its text fits in `maxLen`, and otherwise as its first `maxLen` characters
   * and "..."; a long sequence's summary never shows more than `maxLen`
   * characters of the items.
   */
  lemma FormatValueBounded(v: Value, maxLen: nat)
    ensures !v.Tensor? && !LongSequence(v) && |ToStr(v)| <= maxLen ==> FormatValue(v, maxLen) == ToStr(v)
    ensures !v.Tensor? && !LongSequence(v) && |ToStr(v)| > maxLen ==>
      |FormatValue(v, maxLen)| == maxLen + 3 && FormatValue(v, maxLen) == ToStr(v)[..maxLen] + "..."
    ensures LongSequence(v) ==>
      |FormatValue(v, maxLen)| <= |TypeName(v) + "[" + IntToString(|v.items|) + "] = "| + maxLen + 3
  {
  }

  /** What `_build_debug_lines` needs of a `prompts` value: a truthy one has a length, and a dict entry's `text` is a string. */
  predicate PromptsShowable(prompts: Value)
  {
    Truthy(prompts) ==>
      Iterable(prompts) &&
      forall p :: p in Elements(prompts) ==> PromptPrintable(p)
  }

  /** A dict prompt's `text`, when present, is a string. */
  predicate PromptPrintable(p: Value)
  {
    p.Dict? ==> DictGet(p.entries, "text").None? || DictGet(p.entries, "text").value.Str?
  }

  /** The line for prompt `i`: weight and (truncated) text for a dict, else the truncated `str()` of the entry. */
  function PromptLine(i: nat, p: Value, maxLen: int): (r: string)
    requires PromptPrintable(p)
  {
    if p.Dict? then
      var text := match DictGet(p.entries, "text") case Some(t) => t.s case None => "";
      var weight := match DictGet(p.entries, "weight") case Some(w) => w case None => Str("?");
      "  [" + IntToString(i) + "] w=" + ToStr(weight) + " | " + Truncated(text, maxLen)
    else "  [" + IntToString(i) + "] " + Prefix(ToStr(p), maxLen)
  }

  /** A dict prompt whose text is longer than `maxLen` shows its first `maxLen` characters and "...". */
  lemma DictPromptTruncated(i: nat, text: string, weight: Value, maxLen: nat)
    requires |text| > maxLen
    ensures var p := Dict([("text", Str(text)), ("weight", weight)]);
      PromptLine(i, p, maxLen) == "  [" + IntToString(i) + "] w=" + ToStr(weight) + " | " + text[..maxLen] + "..."
  {
    var p := Dict([("text", Str(text)), ("weight", weight)]);
    assert DictGet(p.entries, "weight") == Some(weight);
    assert p.entries[..1] == [("text", Str(text))];
    assert DictGet(p.entries, "text") == Some(Str(text));
  }

  /** The prompts section: one `(none)` line, or a header with the count followed by one line per entry in order. */
  function PromptLines(prompts: Value, maxLen: int): seq<string>
    requires PromptsShowable(prompts)
  {
    if !Truthy(prompts) then ["prompts: (none)"]
    else
      var items := Elements(prompts);
      ["prompts: (" + IntToString(|items|) + " entries)"] +
      seq(|items|, i requires 0 <= i < |items| => PromptLine(i, items[i], maxLen))
  }

  /** `m` comes before every other element of `s`. */
  predicate IsMinimum(m: string, s: set<string>)
  {
    m in s && forall y :: y in s && y != m ==> Less(m, y)
  }

  lemma {:induction false} MinimumExists(s: set<string>)
    requires s != {}
    ensures exists m :: IsMinimum(m, s)
    decreases s
  {
    var x :| x in s;
    if s != {x} {
      MinimumExists(s - {x});
      var m :| IsMinimum(m, s - {x});
      if Less(m, x) {
        assert IsMinimum(m, s);
      } else {
        LessTotal(m, x);
        forall y | y in s && y != x
          ensures Less(x, y)
        {
          if y != m {
            LessTransitive(x, m, y);
          }
        }
        assert IsMinimum(x, s);
      }
    } else {
      assert IsMinimum(x, s);
    }
  }

  lemma MinimumUnique(s: set<string>)
    ensures forall m, n :: IsMinimum(m, s) && IsMinimum(n, s) ==> m == n
  {
    forall m, n | IsMinimum(m, s) && IsMinimum(n, s)
      ensures m == n
    {
      if m != n {
        LessAsymmetric(m, n);
      }
    }
  }

  /** `sorted(keys)`: the keys in increasing order, each once. */
  function SortedKeys(keys: set<string>): (r: seq<string>)
    ensures StrictlySorted(r)
    ensures forall x :: x in r <==> x in keys
    decreases keys
  {
    if keys == {} then []
    else
      MinimumExists(keys);
      MinimumUnique(keys);
      var m :| IsMinimum(m, keys);
      var rest := SortedKeys(keys - {m});
      assert forall j :: 0 <= j < |rest| ==> Less(m, rest[j]) by {
        forall j | 0 <= j < |rest|
          ensures Less(m, rest[j])
        {
          assert rest[j] in rest;
        }
      }
      [m] + rest
  }

  /** The keys of the "other keys" section: everything but `video`, `prompts` and the own keys. */
  function OtherKeys(kwargs: Bag): (r: set<string>)
    ensures forall k :: k in r <==> k in kwargs && k != "video" && k != "prompts" && k !in OwnKeys
  {
    set k | k in kwargs && k !in {"video", "prompts"} + OwnKeys
  }

  /** `f"{key}: {_format_value(val, max_len)}"`. */
  function KeyLine(key: string, v: Value, maxLen: int): string
  {
    key + ": " + FormatValue(v, maxLen)
  }

  /** The "other keys" section: nothing when no key is left, else a header with the count and one line per key in sorted order. */
  function OtherKeyLines(kwargs: Bag, maxLen: int): seq<string>
  {
    var keys := SortedKeys(OtherKeys(kwargs));
    if keys == [] then []
    else
      ["--- other keys (" + IntToString(|keys|) + ") ---"] +
      seq(|keys|, i requires 0 <= i < |keys| => KeyLine(keys[i], Get(kwargs, keys[i], NoneValue), maxLen))
  }

  /** The prompts section: one `(none)` line, or a header with the count followed by one line per entry, in order. */
  lemma PromptLinesShape(prompts: Value, maxLen: int)
    requires PromptsShowable(prompts)
    ensures !Truthy(prompts) ==> PromptLines(prompts, maxLen) == ["prompts: (none)"]
    ensures Truthy(prompts) ==>
      var r := PromptLines(prompts, maxLen);
      |r| == |Elements(prompts)| + 1 &&
      r[0] == "prompts: (" + IntToString(|Elements(prompts)|) + " entries)" &&
      forall i :: 0 <= i < |Elements(prompts)| ==> r[i + 1] == PromptLine(i, Elements(prompts)[i], maxLen)
  {
    if Truthy(prompts) {
      var items := Elements(prompts);
      var lines := seq(|items|, i requires 0 <= i < |items| => PromptLine(i, items[i], maxLen));
      assert PromptLines(prompts, maxLen) == ["prompts: (" + IntToString(|items|) + " entries)"] + lines;
    }
  }

  /**
   * The other-keys section: nothing when no key is left, else a header with
   * the number of keys followed by one line per key, in sorted order.
   */
  lemma OtherKeyLinesShape(kwargs: Bag, maxLen: int)
    ensures OtherKeys(kwargs) == {} ==> OtherKeyLines(kwargs, maxLen) == []
    ensures OtherKeys(kwargs) != {} ==>
      var r := OtherKeyLines(kwargs, maxLen);
      var keys := SortedKeys(OtherKeys(kwargs));
      |r| == |keys| + 1 &&
      r[0] == "--- other keys (" + IntToString(|OtherKeys(kwargs)|) + ") ---" &&
      forall i :: 0 <= i < |keys| ==> keys[i] in kwargs && r[i + 1] == KeyLine(keys[i], kwargs[keys[i]], maxLen)
  {
    var keys := SortedKeys(OtherKeys(kwargs));
    SortedKeysCount(OtherKeys(kwargs));
    if keys == [] {
      assert OtherKeys(kwargs) == {};
    } else {
      forall i | 0 <= i < |keys|
        ensures keys[i] in kwargs
      {
        assert keys[i] in keys;
      }
    }
  }

  /** The sorted keys are as many as the set has elements. */
  lemma {:induction false} SortedKeysCount(keys: set<string>)
    ensures |SortedKeys(keys)| == |keys|
    decreases keys
  {
    if keys != {} {
      var r := SortedKeys(keys);
      var m := r[0];
      assert m in keys;
      assert r[1..] == SortedKeys(keys - {m}) by {
        SortedUnique(r[1..], SortedKeys(keys - {m}));
      }
      SortedKeysCount(keys - {m});
    }
  }

  /** Debug lines are shown for `video` only when the frames are a tensor. */
  function VideoLine(frames: Value): string
    requires frames.Tensor?
  {
    "video: shape=" + IntListRepr(frames.shape) + " dtype=" + frames.dtype
  }

  /** `_build_debug_lines(kwargs, frames, show_video_shape, show_prompts, show_all_keys, max_len)` as a value. */
  function DebugLines(kwargs: Bag, frames: Value, showShape: bool, showPrompts: bool, showKeys: bool, maxLen: int): seq<string>
    requires frames.Tensor? && (showPrompts ==> PromptsShowable(Get(kwargs, "prompts", NoneValue)))
  {
    (if showShape then [VideoLine(frames)] else []) +
    (if showPrompts then PromptLines(Get(kwargs, "prompts", NoneValue), maxLen) else []) +
    (if showKeys then OtherKeyLines(kwargs, maxLen) else [])
  }

  /** The prompts section of `_build_debug_lines`, appended entry by entry. */
  method PromptSection(prompts: Value, maxLen: int) returns (lines: seq<string>)
    requires PromptsShowable(prompts)
    ensures lines == PromptLines(prompts, maxLen)
  {
    if !Truthy(prompts) {
      return ["prompts: (none)"];
    }
    var items := Elements(prompts);
    ghost var section := PromptLines(prompts, maxLen);
    PromptLinesShape(prompts, maxLen);
    lines := ["prompts: (" + IntToString(|items|) + " entries)"];
    for i := 0 to |items|
      invariant lines == section[..1 + i]
    {
      assert items[i] in items;
      var line := PromptLine(i, items[i], maxLen);
      PrefixStep(section, 1 + i, line);
      lines := lines + [line];
    }
  }

  /** The "other keys" section of `_build_debug_lines`, appended key by key in sorted order. */
  method OtherKeySection(kwargs: Bag, maxLen: int) returns (lines: seq<string>)
    ensures lines == OtherKeyLines(kwargs, maxLen)
  {
    var keys := SortedKeys(OtherKeys(kwargs));
    SortedKeysCount(OtherKeys(kwargs));
    ghost var section := OtherKeyLines(kwargs, maxLen);
    OtherKeyLinesShape(kwargs, maxLen);
    if keys == [] {
      return [];
    }
    lines := ["--- other keys (" + IntToString(|keys|) + ") ---"];
    for i := 0 to |keys|
      invariant lines == section[..1 + i]
    {
      var key := keys[i];
      var line := KeyLine(key, kwargs[key], maxLen);
      PrefixStep(section, 1 + i, line);
      lines := lines + [line];
    }
  }

  /** `_build_debug_lines`: the video line, then the prompts section, then the other keys. */
  method BuildDebugLines(kwargs: Bag, frames: Value, showShape: bool, showPrompts: bool, showKeys: bool, maxLen: int)
    returns (lines: seq<string>)
    requires frames.Tensor? && (showPrompts ==> PromptsShowable(Get(kwargs, "prompts", NoneValue)))
    ensures lines == DebugLines(kwargs, frames, showShape, showPrompts, showKeys, maxLen)
  {
    var video: seq<string> := [];
    if showShape {
      video := [VideoLine(frames)];
    }
    var prompts: seq<string> := [];
    if showPrompts {
      prompts := PromptSection(Get(kwargs, "prompts", NoneValue), maxLen);
    }
    var others: seq<string> := [];
    if showKeys {
      others := OtherKeySection(kwargs, maxLen);
    }
    lines := video + prompts + others;
  }

  /** When a print is due: printing is on and `log_interval` has passed since the last print. */
  predicate PrintDue(enabled: bool, lastPrint: real, now: real, interval: real)
  {
    enabled && now - lastPrint >= interval
  }

  /** The times at which a run of frames prints, starting from the last print time `last`. */
  function PrintTimes(last: real, times: seq<real>, interval: real): (r: seq<real>)
    ensures forall t :: t in r ==> t in times
    decreases |times|
  {
    if times == [] then []
    else if PrintDue(true, last, times[0], interval) then [times[0]] + PrintTimes(times[0], times[1..], interval)
    else PrintTimes(last, times[1..], interval)
  }

  /** Successive prints are at least `log_interval` apart, and the first is at least that long after `last`. */
  lemma {:induction false} PrintsThrottled(last: real, times: seq<real>, interval: real)
    ensures var r := PrintTimes(last, times, interval);
      (r != [] ==> r[0] - last >= interval) &&
      forall i :: 0 < i < |r| ==> r[i] - r[i - 1] >= interval
    decreases |times|
  {
    if times != [] {
      var next := if PrintDue(true, last, times[0], interval) then times[0] else last;
      PrintsThrottled(next, times[1..], interval);
    }
  }

  /** What `__call__` needs of its configuration when the frame goes ahead (the schema's types). */
  predicate ConfigTyped(kwargs: Bag, frames: Value)
  {
    frames.Tensor? &&
    IsInteger(Get(kwargs, "max_value_length", Int(80))) &&
    (Truthy(Get(kwargs, "show_prompts", Bool(true))) ==> PromptsShowable(Get(kwargs, "prompts", NoneValue))) &&
    (Truthy(Get(kwargs, "print_to_stdout", Bool(true))) ==> IsNumber(Get(kwargs, "log_interval", Float(1.0, "1.0"))))
  }

  /** The debug lines of a frame that goes ahead, with the stored UDP message, when truthy, as the first line. */
  function FrameLines(kwargs: Bag, frames: Value, udpMessage: Value): (r: seq<string>)
    requires ConfigTyped(kwargs, frames)
  {
    var body := DebugLines(kwargs, frames,
      Truthy(Get(kwargs, "show_video_shape", Bool(true))),
      Truthy(Get(kwargs, "show_prompts", Bool(true))),
      Truthy(Get(kwargs, "show_all_keys", Bool(true))),
      AsInt(Get(kwargs, "max_value_length", Int(80))));
    if Truthy(udpMessage) then ["UDP: " + ToStr(udpMessage)] + body else body
  }

  /** Whether the frame prints, given the last print time. */
  predicate FramePrints(kwargs: Bag, lastPrint: real, now: real)
    requires Truthy(Get(kwargs, "print_to_stdout", Bool(true))) ==> IsNumber(Get(kwargs, "log_interval", Float(1.0, "1.0")))
  {
    Truthy(Get(kwargs, "print_to_stdout", Bool(true))) &&
    PrintDue(true, lastPrint, now, AsReal(Get(kwargs, "log_interval", Float(1.0, "1.0"))))
  }

  /** The lines of a frame: the debug lines for the frame's configuration, after a `UDP:` line when the stored message is truthy. */
  method Report(kwargs: Bag, frames: Value, udpMessage: Value) returns (lines: seq<string>)
    requires ConfigTyped(kwargs, frames)
    ensures lines == FrameLines(kwargs, frames, udpMessage)
  {
    var showVideoShape := Get(kwargs, "show_video_shape", Bool(true));
    var showPrompts := Get(kwargs, "show_prompts", Bool(true));
    var showAllKeys := Get(kwargs, "show_all_keys", Bool(true));
    var maxValueLength := Get(kwargs, "max_value_length", Int(80));
    var body := BuildDebugLines(kwargs, frames, Truthy(showVideoShape), Truthy(showPrompts), Truthy(showAllKeys), AsInt(maxValueLength));
    lines := body;
    if Truthy(udpMessage) {
      lines := ["UDP: " + ToStr(udpMessage)] + body;
    }
  }

  class TextLogPipeline {
    var lastPrintTime: real
    /** The last UDP message received; "" before the first. */
    var lastUdpMessage: Value
    /** The receiver, or null when UDP is disabled or binding failed. */
    const udp: Udp.UDPReceiver?

    /** `bindOk` says whether binding the UDP socket succeeds; a failure is only logged. */
    constructor(kwargs: Bag, bindOk: bool)
      ensures lastPrintTime == 0.0 && lastUdpMessage == Str("")
      ensures udp != null <==>
        Truthy(Get(kwargs, "udp_enabled", Bool(true))) && IsInteger(Get(kwargs, "udp_port", Int(Udp.DefaultPort))) && bindOk
      ensures udp != null ==>
        fresh(udp) && udp.queue == [] &&
        udp.State() == Debounce.Init(AsInt(Get(kwargs, "udp_port", Int(Udp.DefaultPort))))
    {
      lastPrintTime := 0.0;
      lastUdpMessage := Str("");
      var port := Get(kwargs, "udp_port", Int(Udp.DefaultPort));
      if Truthy(Get(kwargs, "udp_enabled", Bool(true))) && IsInteger(port) && bindOk {
        udp := new Udp.UDPReceiver(AsInt(port));
      } else {
        udp := null;
      }
    }

    /** The UDP message a frame goes ahead with: the latest one polled unless that is None, else the stored one. */
    function MessageAfterPoll(decode: string -> Option<Value>): Value
      reads this, udp
    {
      if udp == null || udp.queue == [] then lastUdpMessage
      else
        var msg := Udp.Decoded(decode, udp.queue[|udp.queue| - 1]);
        if msg == NoneValue then lastUdpMessage else msg
    }

    /**
     * `__call__(**kwargs)` at time `now`; `frames` is the frame tensor the
     * output carries under `video`. Returns the output, the debug lines and
     * whether they were printed.
     */
    method Call(kwargs: Bag, frames: Value, now: real, decode: string -> Option<Value>)
      returns (result: Result<Bag>, lines: seq<string>, printed: bool)
      requires !Forward.VideoMissing(kwargs) ==> ConfigTyped(kwargs, frames)
      modifies this, udp
      ensures udp != null ==> udp.State() == old(udp.State())
      ensures Forward.VideoMissing(kwargs) ==>
        result == Failure("TextLogPipeline requires video input") && lines == [] && !printed &&
        lastPrintTime == old(lastPrintTime) && lastUdpMessage == old(lastUdpMessage) &&
        (udp != null ==> udp.queue == old(udp.queue))
      ensures !Forward.VideoMissing(kwargs) ==>
        lastUdpMessage == old(MessageAfterPoll(decode)) &&
        (udp != null ==> udp.queue == []) &&
        lines == FrameLines(kwargs, frames, lastUdpMessage) &&
        printed == FramePrints(kwargs, old(lastPrintTime), now) &&
        lastPrintTime == (if printed then now else old(lastPrintTime)) &&
        result == Success(Forward.Forwarded(kwargs, OwnKeys, frames))
    {
      lines, printed := [], false;
      var video := Get(kwargs, "video", NoneValue);
      if video == NoneValue {
        return Failure("TextLogPipeline requires video input"), lines, printed;
      }
      if udp != null {
        var msg := udp.Poll(decode);
        if msg != NoneValue {
          lastUdpMessage := msg;
        }
      }
      var printToStdout := Get(kwargs, "print_to_stdout", Bool(true));
      var logInterval := Get(kwargs, "log_interval", Float(1.0, "1.0"));
      lines := Report(kwargs, frames, lastUdpMessage);
      if Truthy(printToStdout) && now - lastPrintTime >= AsReal(logInterval) {
        lastPrintTime := now;
        printed := true;
      }
      var output := Forward.ForwardKwargs(kwargs, OwnKeys, frames);
      result := Success(output);
    }
  }
}
