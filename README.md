# scope-ai-language: the per-frame state machines, in Dafny

This project models the logic shared by the Scope plugins of
scope-ai-language and proves properties of it:

- **Debounced port switching.** `UDPSender.update_port`, `UDPReceiver.update_port`
  and `MIDIReceiver.update_port` all follow one rule. A requested port (or
  device) is only adopted once it has been requested again at least 3 seconds
  after it was first requested. Requesting the current value cancels a pending
  change. The rule is the pure function `Debounce.Propose`, and each class's
  `UpdatePort` is proved to follow it. Lemmas over traces of proposals show that:
  - a steadily repeated value commits exactly when a repetition comes 3 s
    after the first;
  - an input that keeps changing never commits;
  - A, B, A restarts A's timer.
- **The UDP receiver's drain.** `poll` reads every queued datagram and returns
  only the last one, decoded. The socket is a queue of texts.
- **The Ollama query clients.** `_OllamaBase`, `OllamaLLM` and `OllamaVLM` are
  a rate-limited, single-flight client:
  - `should_send` refuses while a query is pending;
  - `query_async` records the fire time and marks the client pending;
  - the background `_query` stores the stripped response only on success and
    clears `pending` in every case.
  
  The background thread's run is one explicit step that receives the HTTP
  outcome. A lemma proves that, gated by `should_send`, at most one query is
  ever in flight.
- **The prompt ledger and the output dicts of the pipelines.**
  - `PromptInjector.inject_if_new` injects a text only when it is non-empty
    and differs from the last one injected. It appends the text to `prompts`,
    or sets `transition` when `transition_steps > 0`.
  - The UDP prompt, OSC prompt and text-log pipelines forward every keyword
    argument except `video` and their own parameters.
  - The UDP prompt pipeline appends its text to `prompts` on every frame.
  - The OSC prompt pipeline hands its text to the ledger.
  - The text-log pipeline builds its debug lines, puts the latest UDP message
    first, and prints at most once per `log_interval`.

Python values in keyword-argument and output dicts are the datatype
`Values.Value`. It carries Python's `str()`, `repr()`, truthiness, `dict.get`
and `list()` as the plugins use them. A keyword-argument dict is a
`map<string, Value>`. A dict built inside a request body keeps its entries in
insertion order. The current time is an explicit `now: real` parameter.
JSON encoding and decoding are function parameters (`dumps`, `decode`).

Where the source changes state step by step, the model is a class with the
same fields and methods:
- `UDPSender`, `UDPReceiver`, `MIDIReceiver`;
- `OllamaLLM`, `OllamaVLM`;
- `PromptInjector` (with the caller's output dict as an `OutputDict` object it
  updates in place);
- the three pipelines.

Each method is proved against a pure function of the old state. The loops of
`poll`, the key forwarding and `_build_debug_lines` are `while`/`for` loops
with invariants.

## Model

| member | source | states |
|---|---|---|
| Debounce.Init | scope-bus/src/scope_bus/udp.py:27-28 | A channel starts on its port with nothing pending and the timestamp 0.0 |
| Debounce.Propose | scope-bus/src/scope_bus/udp.py:50-63 | Proposing the committed value clears `pending`. A value that is neither committed nor pending becomes pending, timestamped `now`. Repeating the pending value commits it and clears `pending` iff `now - changed_at >= 3.0`, and otherwise changes nothing. The committed value changes only by such a commit. A value is never pending for itself |
| Debounce.RunValid | scope-bus/src/scope_bus/udp.py:50-63 | After any trace of proposals, the committed value is never also the pending one |
| Debounce.OscillationNeverCommits | scope-bus/src/scope_bus/udp.py:56-59 | If each proposal differs from the previous one and from the committed value, nothing commits, however much time passes. The last value is pending since its own time |
| Debounce.AlternationResetsTimer | scope-bus/src/scope_bus/udp.py:56-59 | A, B, A leaves the committed value in place, with A pending since the time of the third proposal |
| Debounce.StableValueCommits | scope-bus/src/scope_bus/udp.py:56-63 | A new value proposed at `times[0]` and again at each later time commits iff some repetition comes at least 3.0 s after `times[0]`. Until then it stays pending with the timer at `times[0]`, so repetition never resets the timer |
| Udp.Payload | scope-bus/src/scope_bus/udp.py:41-44 | A dict goes on the wire as its JSON text, a string as itself, anything else as its `str()` |
| Udp.Decoded | scope-bus/src/scope_bus/udp.py:110-114 | A datagram is its decoded JSON document when the text parses, else the raw text |
| Udp.UDPSender.constructor | scope-bus/src/scope_bus/udp.py:22-29 | The sender starts on `port` with nothing pending, timestamp 0.0 and nothing sent |
| Udp.UDPSender.Send | scope-bus/src/scope_bus/udp.py:35-48 | A dict that `json.dumps` cannot encode (one holding a tensor) fails with its `TypeError` before anything is sent. Otherwise the call succeeds: exactly one datagram, carrying the payload to the current port, is added when the socket accepts it, and nothing is added when the socket fails, a failure that does not propagate. The port state is unchanged |
| Udp.UDPSender.UpdatePort | scope-bus/src/scope_bus/udp.py:50-63 | The port state moves exactly as `Debounce.Propose` says, and nothing is sent |
| Udp.UDPReceiver.constructor | scope-bus/src/scope_bus/udp.py:79-83 | The receiver is bound to `port` with nothing pending, timestamp 0.0 and an empty queue |
| Udp.UDPReceiver.Arrive | scope-bus/src/scope_bus/udp.py:109-110 | A datagram sent to the bound port joins the end of the socket's queue |
| Udp.UDPReceiver.Poll | scope-bus/src/scope_bus/udp.py:99-117 | Drains the queue completely. Returns None when it was empty, otherwise the decoded last datagram, never an earlier one. The port state is unchanged |
| Udp.UDPReceiver.UpdatePort | scope-bus/src/scope_bus/udp.py:119-137 | The port state moves exactly as `Debounce.Propose` says. On a commit the socket is rebound, so the queue is emptied; otherwise it is kept |
| Udp.UnencodableScenario | scope-bus/src/scope_bus/udp.py:41-43 | Sending a dict that holds a tensor fails with the `TypeError`, and no datagram is sent even when the socket would accept one |
| Udp.PortSwitchScenario | scope-bus/src/scope_bus/udp.py:119-137 | A dict sent on 9400 is polled back equal by a receiver on 9400. One request for 9401 leaves both ends on 9400. The same request 3 s later moves both to 9401 and drops what was queued |
| Midi.Handle | scope-bus/src/scope_bus/midi.py:78-85 | `control_change` sets `cc[control]` to `value / 127`. `note_on` sets `notes[note]` to `velocity > 0`. `note_off` sets it to False. Every other entry and every other message type leaves both tables unchanged |
| Midi.NoteFollowsLastMessage | scope-bus/src/scope_bus/midi.py:82-85 | After any message sequence, a note is held iff its last note_on/note_off was a note_on with positive velocity, or it was held before when there was none |
| Midi.HandleAllNormalised | scope-bus/src/scope_bus/midi.py:80-81 | With 7-bit controller values every stored controller value stays within 0.0 to 1.0 |
| Midi.CurrentName | scope-bus/src/scope_bus/midi.py:109 | The device in use is `port_name`, or "auto" when it is None or empty |
| Midi.ProposePort | scope-bus/src/scope_bus/midi.py:107-122 | Proposing the current device clears `pending`. A new name becomes pending, timestamped. Repeating it switches `port_name` and clears `pending` iff 3.0 s have passed, and otherwise changes nothing |
| Midi.ProposePortIsDebounce | scope-bus/src/scope_bus/midi.py:107-122 | Seen through the name in use, a device switch is exactly the shared debounce rule |
| Midi.RunPortsIsDebounce | scope-bus/src/scope_bus/midi.py:107-122 | Over any trace of non-empty names, device switching equals the shared debounce run, so the stability and oscillation lemmas apply to it |
| Midi.MIDIReceiver.constructor | scope-bus/src/scope_bus/midi.py:27-44 | Both tables start empty, with the requested device, nothing pending and timestamp 0.0 |
| Midi.MIDIReceiver.HandleMessage | scope-bus/src/scope_bus/midi.py:78-85 | The tables move exactly as `Handle` says, and the device state is unchanged |
| Midi.MIDIReceiver.GetCc | scope-bus/src/scope_bus/midi.py:87-90 | The stored value of the controller, or the supplied default for an unseen one |
| Midi.MIDIReceiver.GetNote | scope-bus/src/scope_bus/midi.py:92-95 | Whether the note is held; an unseen note is not |
| Midi.MIDIReceiver.UpdatePort | scope-bus/src/scope_bus/midi.py:107-122 | The device state moves exactly as `ProposePort` says, and the tables are unchanged |
| QueryClient.Init | scope-language/src/scope_language/_base.py:22-26 | A new client has no response, has never sent, is not pending and has no callback |
| QueryClient.ShouldSend | scope-language/src/scope_language/_base.py:28-32 | False whenever a query is pending. Otherwise true iff `interval` has elapsed since the last send |
| QueryClient.Fire | scope-language/src/scope_language/llm.py:45-47 | Firing records the time, stores the callback and marks the client pending, whatever its state. The last response is kept |
| QueryClient.Finish | scope-language/src/scope_language/llm.py:64-71 | Completion stores the text only on success and clears `pending` on every path |
| QueryClient.CallbackCall | scope-language/src/scope_language/llm.py:66-67 | The callback is called iff the query succeeded and one is set, and then with the stored text |
| QueryClient.ReplyText | scope-language/src/scope_language/llm.py:59-61 | A text is extracted only from a 2xx reply whose body is a JSON object |
| QueryClient.ReplyTextOfObject | scope-language/src/scope_language/llm.py:61 | From a 2xx JSON object the text is the stripped `response` field, "" when it is missing, and a failure when it is not a string |
| QueryClient.ReplyTextStripped | scope-language/src/scope_language/llm.py:61 | A successful text has no leading or trailing whitespace |
| QueryClient.SingleFlightHolds | scope-language/src/scope_language/_base.py:28-32 | When each frame fires only if `should_send` allows, at most one query is ever running, and `pending` holds iff one is, under any interleaving of frames and completions |
| QueryClient.FailureRecovery | scope-language/src/scope_language/llm.py:68-71 | A failed query keeps the previous response, and the next send is allowed exactly `interval` after the failed one was fired |
| Llm.RequestBody | scope-language/src/scope_language/llm.py:52-58 | The body holds `model`, `prompt` and `stream: false`, and holds `system` iff a non-empty system prompt is given. It has no other key |
| Llm.OllamaLLM.constructor | scope-language/src/scope_language/llm.py:29-30 | A new client is in the initial query-client state with the given URL and model |
| Llm.OllamaLLM.ShouldSend | scope-language/src/scope_language/_base.py:28-32 | Reads the fields as `QueryClient.ShouldSend` |
| Llm.OllamaLLM.GetLastResponse | scope-language/src/scope_language/_base.py:34-37 | The stored response |
| Llm.OllamaLLM.IsPending | scope-language/src/scope_language/_base.py:39-41 | Exactly the `pending` field |
| Llm.OllamaLLM.QueryAsync | scope-language/src/scope_language/llm.py:32-48 | The state moves as `Fire` says, without checking `pending`, and the background job carries the prompt and system prompt |
| Llm.OllamaLLM.Query | scope-language/src/scope_language/llm.py:50-71 | Posts `RequestBody`. The state moves as `Finish` of the extracted text says, and the callback call is `CallbackCall` |
| Vlm.RequestBody | scope-language/src/scope_language/vlm.py:74-80 | The body holds `model`, `prompt`, exactly one image and `stream: false`, and no other key |
| Vlm.OllamaVLM.constructor | scope-language/src/scope_language/vlm.py:33-41 | A new client is in the initial query-client state with the given URL and model |
| Vlm.OllamaVLM.ShouldSend | scope-language/src/scope_language/vlm.py:43-47 | Reads the fields as `QueryClient.ShouldSend` |
| Vlm.OllamaVLM.GetLastResponse | scope-language/src/scope_language/vlm.py:95-98 | The stored description |
| Vlm.OllamaVLM.IsPending | scope-language/src/scope_language/vlm.py:100-102 | Exactly the `pending` field |
| Vlm.OllamaVLM.QueryAsync | scope-language/src/scope_language/vlm.py:49-66 | The state moves as `Fire` says, and the background job carries the frame and prompt |
| Vlm.OllamaVLM.Query | scope-language/src/scope_language/vlm.py:68-93 | Posts `RequestBody` with the one image. The state moves as `Finish` of the extracted text says, and the callback call is `CallbackCall` |
| PromptLedger.PromptEntry | scope-bus/src/scope_bus/prompt.py:34 | The entry is a two-key dict with the given `text` and `weight` |
| PromptLedger.TransitionValue | scope-bus/src/scope_bus/prompt.py:37-41 | `target_prompts` is the single entry, `num_steps` is the steps and `temporal_interpolation_method` is the method, with no other key |
| PromptLedger.ExistingPrompts | scope-bus/src/scope_bus/prompt.py:43 | The upstream prompts are none when `prompts` is absent, and the list itself when it is a list |
| PromptLedger.WithPrompt | scope-bus/src/scope_bus/prompt.py:42-45 | `prompts` becomes a list: the upstream prompts followed by the entry. Every other key keeps its value |
| PromptLedger.InjectIgnoresStale | scope-bus/src/scope_bus/prompt.py:30-31 | An empty text, or the text injected last, changes neither the output dict nor the ledger |
| PromptLedger.InjectNew | scope-bus/src/scope_bus/prompt.py:33-45 | A new text becomes the ledger. With positive steps, `transition` is set to a blend to the one entry and `prompts` is untouched. Otherwise the entry is appended after the upstream prompts and `transition` is not written. No other key changes |
| PromptLedger.InjectIdempotent | scope-bus/src/scope_bus/prompt.py:30-33 | Repeating a call with the same text changes nothing |
| PromptLedger.FreshDeduplicates | scope-bus/src/scope_bus/prompt.py:30-33 | Over a run of texts, no injected text is empty, none repeats the one injected just before it, and the first differs from the ledger |
| PromptLedger.AppendRunLedger | scope-bus/src/scope_bus/prompt.py:30-33 | After a run of texts the ledger is the last non-empty text, or its old value when every text is empty |
| PromptLedger.AppendRunAppendsFresh | scope-bus/src/scope_bus/prompt.py:42-45 | A run of appending calls adds exactly the deduplicated texts to `prompts`, in order, after the upstream prompts |
| PromptLedger.AppendRunKeepsOthers | scope-bus/src/scope_bus/prompt.py:42-45 | A run of appending calls changes no key other than `prompts` |
| PromptLedger.PromptInjector.constructor | scope-bus/src/scope_bus/prompt.py:9-10 | The ledger starts as "" |
| PromptLedger.PromptInjector.InjectIfNew | scope-bus/src/scope_bus/prompt.py:12-45 | The output dict (updated in place) and the ledger move exactly as `Inject` says |
| PromptLedger.FirstTextInjected | scope-bus/src/scope_bus/prompt.py:9-10 | A fresh injector always injects its first non-empty text: the ledger becomes it and it is appended after the upstream prompts |
| Forward.Forwarded | scope-udp-prompt/src/scope_udp_prompt/pipeline.py:63-66 | The output holds the frames under `video` and exactly the other keys that are not own parameters, each with its value unchanged |
| Forward.ForwardKwargs | scope-udp-prompt/src/scope_udp_prompt/pipeline.py:63-66 | The key-by-key loop builds exactly `Forwarded` |
| UdpPrompt.FrameOutputPrompts | scope-udp-prompt/src/scope_udp_prompt/pipeline.py:63-73 | Every foreign key but `prompts` is forwarded unchanged and no own key is forwarded. A truthy text is appended after the upstream prompts with the given or the default weight, every frame. A falsy text leaves `prompts` as forwarded |
| UdpPrompt.UDPPromptPipeline.constructor | scope-udp-prompt/src/scope_udp_prompt/pipeline.py:31-32 | The text starts as "" and a receiver is bound to `udp_port`, 9400 by default |
| UdpPrompt.UDPPromptPipeline.Call | scope-udp-prompt/src/scope_udp_prompt/pipeline.py:37-75 | A missing `video` fails with "UDPPromptPipeline requires video input" before any state change. Otherwise the queue is drained and the text is replaced only by a non-None message. When the overlay is enabled (the default) and that text is truthy but not a string, word-wrapping raises the `AttributeError` for `expandtabs`, after the poll and the text update. Otherwise the output is `FrameOutput` of that text |
| OscPrompt.MessageText | scope-osc-prompt/src/scope_osc_prompt/pipeline.py:57 | The text is the first argument's `str()` stripped, "" without arguments, and empty exactly when the argument is all whitespace |
| OscPrompt.InjectArgs | scope-osc-prompt/src/scope_osc_prompt/pipeline.py:100-102 | A supplied `prompt_weight`, `transition_steps` or `interpolation_method` is passed through unchanged. A missing one defaults to 100.0, 0 or "slerp" |
| OscPrompt.FrameOutputInjectsOnce | scope-osc-prompt/src/scope_osc_prompt/pipeline.py:91-103 | A text already injected leaves the forwarded dict untouched. A new text with non-positive steps is appended after the upstream prompts and becomes the ledger |
| OscPrompt.OSCPromptPipeline.constructor | scope-osc-prompt/src/scope_osc_prompt/pipeline.py:43-45 | The text and the ledger start as "" |
| OscPrompt.OSCPromptPipeline.OnPrompt | scope-osc-prompt/src/scope_osc_prompt/pipeline.py:55-61 | A blank message leaves the text unchanged, and any other replaces it with its stripped form |
| OscPrompt.OSCPromptPipeline.Call | scope-osc-prompt/src/scope_osc_prompt/pipeline.py:66-105 | A missing `video` fails with "OSCPromptPipeline requires video input" and leaves the ledger unchanged. Otherwise the forwarded dict goes through the ledger when the text is non-empty |
| TextLog.Truncated | scope-test-text-log/src/scope_test_text_log/pipeline.py:143 | A string within `max_len` is kept. A longer one becomes its first `max_len` characters and "...", with Python's slice for a negative `max_len` |
| TextLog.FirstThree | scope-test-text-log/src/scope_test_text_log/pipeline.py:168 | `value[:3]` keeps the list or tuple type and the first three items |
| TextLog.FormatValue | scope-test-text-log/src/scope_test_text_log/pipeline.py:164-172 | A tensor prints as its shape and dtype. A list or tuple of more than 5 items prints as `type[len] = <repr of first three, cut to max_len>...`. Anything else prints as its `str()`, truncated |
| TextLog.FormatValueBounded | scope-test-text-log/src/scope_test_text_log/pipeline.py:167-172 | A short value prints in full. A longer one prints as exactly its first `max_len` characters and "...". A long sequence's summary never shows more than `max_len` characters of its items |
| TextLog.DictPromptTruncated | scope-test-text-log/src/scope_test_text_log/pipeline.py:140-144 | A dict prompt whose text exceeds `max_len` shows its weight and its text cut to `max_len` followed by "..." |
| TextLog.PromptLinesShape | scope-test-text-log/src/scope_test_text_log/pipeline.py:135-149 | No prompts give exactly `prompts: (none)`. `n` prompts give a header with `n` and then one line per prompt, in order |
| TextLog.SortedKeys | scope-test-text-log/src/scope_test_text_log/pipeline.py:153 | `sorted()` of the keys is strictly increasing in code-point order and holds exactly the keys |
| TextLog.OtherKeys | scope-test-text-log/src/scope_test_text_log/pipeline.py:152-153 | The listed keys are those other than `video`, `prompts` and the own keys |
| TextLog.SortedKeysCount | scope-test-text-log/src/scope_test_text_log/pipeline.py:153-155 | The sorted keys are as many as the keys, so the header counts them |
| TextLog.OtherKeyLinesShape | scope-test-text-log/src/scope_test_text_log/pipeline.py:151-159 | No remaining key gives no section. Otherwise a header with the key count is followed by `key: value` for each key in sorted order |
| TextLog.PromptSection | scope-test-text-log/src/scope_test_text_log/pipeline.py:135-149 | The entry-by-entry loop builds exactly the prompts section |
| TextLog.OtherKeySection | scope-test-text-log/src/scope_test_text_log/pipeline.py:151-159 | The key-by-key loop builds exactly the other-keys section |
| TextLog.BuildDebugLines | scope-test-text-log/src/scope_test_text_log/pipeline.py:121-161 | The lines are the video line, then the prompts section, then the other keys, each only when enabled |
| TextLog.PrintsThrottled | scope-test-text-log/src/scope_test_text_log/pipeline.py:89-91 | Over any run of frames, successive prints are at least `log_interval` apart, and the first is that long after the last print |
| TextLog.Report | scope-test-text-log/src/scope_test_text_log/pipeline.py:79-86 | The frame's lines are the debug lines, preceded by `UDP: <message>` when the stored message is truthy |
| TextLog.TextLogPipeline.constructor | scope-test-text-log/src/scope_test_text_log/pipeline.py:33-48 | A receiver exists iff UDP is enabled and binding succeeds. The stored message starts as "" and the last print time as 0.0 |
| TextLog.TextLogPipeline.Call | scope-test-text-log/src/scope_test_text_log/pipeline.py:53-118 | A missing `video` fails with "TextLogPipeline requires video input" before any state change. Otherwise the queue is drained, the message is replaced only by a non-None one, and the lines are `FrameLines`. The frame prints iff printing is on and `log_interval` has passed, and then the print time becomes `now`. The output is `Forwarded` |
| Text.Strip | scope-language/src/scope_language/llm.py:61 | `str.strip()` is a slice with only whitespace cut off each end. It neither starts nor ends with whitespace, and it is empty iff the string is all whitespace |
| Text.StripIdempotent | scope-language/src/scope_language/llm.py:61 | Stripping twice is stripping once |
| Text.Prefix | scope-test-text-log/src/scope_test_text_log/pipeline.py:146 | `s[:n]` is the first `n` elements, or all but the last `-n` for negative `n` |
| Values.Get | scope-udp-prompt/src/scope_udp_prompt/pipeline.py:70 | `dict.get` gives the stored value, or the default when the key is absent |
| Values.DictGet | scope-test-text-log/src/scope_test_text_log/pipeline.py:141-142 | Looking up a key in a dict gives None iff no entry has the key |
| Values.DictGetLastEntry | scope-test-text-log/src/scope_test_text_log/pipeline.py:141-142 | A value the lookup finds is the value of an entry with that key, and no later entry has the key, so the last assignment wins |
| Values.Put | scope-language/src/scope_language/llm.py:52-58 | Assigning a key appends it and makes every lookup of that key give the new value, leaving other keys as they were |
| Values.ToStr | scope-test-text-log/src/scope_test_text_log/pipeline.py:169 | `str()` of a string is itself, and of anything else its `repr()` |

## Left out

- Sockets: creating, binding, joining the multicast group and closing them are
  not modelled. The sender's socket is the sequence of datagrams handed to it,
  with a flag for a send that fails. The receiver's socket is the queue of
  texts on its bound port.
- Udp.UDPReceiver.UpdatePort: a bind that fails while rebinding would raise
  from `update_port`. The model always rebinds successfully.
- TextLog.TextLogPipeline.constructor: whether binding succeeds is the
  parameter `bindOk`, since binding is OS I/O.
- HTTP and JSON: the httpx request, `raise_for_status` and the JSON parser are
  not modelled. The reply is a `Reply` value, either a transport error or a
  status with a body that did or did not parse. The datagram codec is the
  `dumps`/`decode` parameters. A datagram's UTF-8 decoding with replacement
  characters is not modelled: datagrams are texts.
- JPEG and base64 encoding of the VLM frame are not modelled: the encoded
  image is a parameter of `Vlm.OllamaVLM.Query`.
- Vlm.OllamaVLM.QueryAsync: an exception in `tensor_to_pil`, raised after
  `pending` is set, would leave the client pending forever. The model assumes
  the conversion succeeds.
- Threads and locks: the background query thread, the MIDI read loop and the
  OSC server thread are not modelled. A query's completion, a datagram's
  arrival, a MIDI message and an OSC message are each one atomic step that
  the caller takes.
- MIDI devices: the `mido` import check, opening devices, listing them, and
  `get_all_cc`/`get_all_notes`. The last two only copy the tables that
  `CurrentTables` exposes.
- Time: `time.monotonic()` is the parameter `now`, and the timestamp of the
  text-log banner is not modelled.
- Printing and logging: the text-log pipeline returns the lines and whether
  they were printed, instead of writing them.
- Overlay rendering and frame normalisation: torch and PIL work is not
  modelled. The frames that go out under `video` are a parameter, so neither
  `frames.clamp(0, 1)` nor the overlay's pixels are modelled. The one overlay
  behaviour that is modelled is the exception it raises for a UDP text that is
  not a string.
- Values.Repr: non-ASCII characters are printed as they are. Python escapes
  the non-printable ones.
- Values.Repr: float formatting is not modelled; a float carries its printed form.
- Values.Repr: a tensor's `str()` is not Python's.
- Values.Truthy: a tensor counts as true. Python raises for a tensor with more
  than one element.
- Keyword-argument dicts are maps, so their iteration order is not modelled.
  It affects only the insertion order of the output dict, not its contents.
- UdpPrompt.UDPPromptPipeline.constructor, TextLog.TextLogPipeline.Call,
  OscPrompt.OSCPromptPipeline.Call and UdpPrompt.UDPPromptPipeline.Call
  require argument types for which the source would raise a `TypeError`. In
  each case the error path is not modelled:
  - an integer `udp_port`;
  - a numeric `transition_steps`;
  - a `prompts` value that `list()` accepts;
  - a string `text` in dict prompts;
  - an integer `max_value_length`;
  - a numeric `log_interval`.
- PromptLedger.PromptInjector.InjectIfNew: when `transition_steps > 0` cannot
  be compared, or `prompts` cannot be listed, the source raises after
  updating the ledger. The model requires well-typed arguments instead.
- The pydantic schema declarations, plugin registration and the two Ollama
  plugin pipelines only wire the modelled components together, so they are
  not part of this model.
