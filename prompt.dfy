/**
 * The prompt ledger shared by the prompt plugins. A text is injected into a
 * pipeline's output dict only when it is non-empty and differs from the last
 * text injected; it is either appended to `prompts` or set as a `transition`.
 */
module PromptLedger {
  import opened Wrappers
  import opened Values

  /** `{"text": text, "weight": weight}`. */
  function PromptEntry(text: Value, weight: Value): (r: Value)
    ensures r.Dict? && |r.entries| == 2
    ensures DictGet(r.entries, "text") == Some(text)
    ensures DictGet(r.entries, "weight") == Some(weight)
  {
    Dict(Put(Put([], "text", text), "weight", weight))
  }

  /** The `transition` value: a blend to the single target entry over `steps` frames. */
  function TransitionValue(entry: Value, steps: Value, interpolation: Value): (r: Value)
    ensures r.Dict? && |r.entries| == 3
    ensures DictGet(r.entries, "target_prompts") == Some(List([entry]))
    ensures DictGet(r.entries, "num_steps") == Some(steps)
    ensures DictGet(r.entries, "temporal_interpolation_method") == Some(interpolation)
  {
    Dict(Put(Put(Put([], "target_prompts", List([entry])), "num_steps", steps), "temporal_interpolation_method", interpolation))
  }

  /** `list(output.get("prompts", []))` does not raise. */
  predicate PromptsListable(bag: Bag)
  {
    "prompts" in bag ==> Iterable(bag["prompts"])
  }

  /** `list(output.get("prompts", []))`: the upstream prompts, none when the key is absent. */
  function ExistingPrompts(bag: Bag): (r: seq<Value>)
    requires PromptsListable(bag)
    ensures "prompts" !in bag ==> r == []
    ensures "prompts" in bag && bag["prompts"].List? ==> r == bag["prompts"].items
  {
    if "prompts" in bag then Elements(bag["prompts"]) else []
  }

  /** Rebinding `prompts` to the upstream prompts followed by `entry`; every other key keeps its value. */
  function WithPrompt(bag: Bag, entry: Value): (r: Bag)
    requires PromptsListable(bag)
    ensures r.Keys == bag.Keys + {"prompts"}
    ensures r["prompts"] == List(ExistingPrompts(bag) + [entry])
    ensures PromptsListable(r) && ExistingPrompts(r) == ExistingPrompts(bag) + [entry]
    ensures forall k :: k in bag && k != "prompts" ==> r[k] == bag[k]
  {
    bag["prompts" := List(ExistingPrompts(bag) + [entry])]
  }

  /** `inject_if_new` acts only on a non-empty text other than the last one injected. */
  predicate IsNew(last: string, text: string)
  {
    text != "" && text != last
  }

  /**
   * What `inject_if_new` needs when it acts: `transition_steps > 0` must be a
   * numeric comparison, and on the append path `prompts` must be listable.
   */
  predicate CanInject(bag: Bag, last: string, text: string, steps: Value)
  {
    IsNew(last, text) ==> IsNumber(steps) && (AsReal(steps) <= 0.0 ==> PromptsListable(bag))
  }

  /** The output dict and the ledger after `inject_if_new(output, text, weight, steps, interpolation)`. */
  function Inject(bag: Bag, last: string, text: string, weight: Value, steps: Value, interpolation: Value): (r: (Bag, string))
    requires CanInject(bag, last, text, steps)
  {
    if !IsNew(last, text) then (bag, last)
    else
      var entry := PromptEntry(Str(text), weight);
      if AsReal(steps) > 0.0 then (bag["transition" := TransitionValue(entry, steps, interpolation)], text)
      else (WithPrompt(bag, entry), text)
  }

  /** An empty text, or the text injected last, changes neither the output nor the ledger. */
  lemma InjectIgnoresStale(bag: Bag, last: string, text: string, weight: Value, steps: Value, interpolation: Value)
    requires !IsNew(last, text)
    ensures Inject(bag, last, text, weight, steps, interpolation) == (bag, last)
  {
  }

  /**
   * A new text becomes the ledger. With positive steps, `transition` is set
   * to a blend to that one entry; otherwise the entry is appended after the
   * upstream prompts and no `transition` is written. No other key changes.
   */
  lemma InjectNew(bag: Bag, last: string, text: string, weight: Value, steps: Value, interpolation: Value)
    requires IsNew(last, text) && CanInject(bag, last, text, steps)
    ensures var r := Inject(bag, last, text, weight, steps, interpolation);
      var entry := PromptEntry(Str(text), weight);
      r.1 == text &&
      (forall k :: k != "prompts" && k != "transition" ==> (k in r.0 <==> k in bag)) &&
      (forall k :: k in bag && k != "prompts" && k != "transition" ==> r.0[k] == bag[k]) &&
      (AsReal(steps) > 0.0 ==>
         "transition" in r.0 && r.0["transition"] == TransitionValue(entry, steps, interpolation) &&
         ("prompts" in r.0 <==> "prompts" in bag) && ("prompts" in bag ==> r.0["prompts"] == bag["prompts"])) &&
      (AsReal(steps) <= 0.0 ==>
         ("transition" in r.0 <==> "transition" in bag) && ("transition" in bag ==> r.0["transition"] == bag["transition"]) &&
         PromptsListable(r.0) && ExistingPrompts(r.0) == ExistingPrompts(bag) + [entry])
  {
    var entry := PromptEntry(Str(text), weight);
    if AsReal(steps) > 0.0 {
      InjectSetsTransition(bag, last, text, weight, steps, interpolation);
      var r := bag["transition" := TransitionValue(entry, steps, interpolation)];
      assert forall k :: k in bag && k != "transition" ==> r[k] == bag[k];
    } else {
      InjectAppendsPrompt(bag, last, text, weight, steps, interpolation);
    }
  }

  lemma InjectSetsTransition(bag: Bag, last: string, text: string, weight: Value, steps: Value, interpolation: Value)
    requires IsNew(last, text) && CanInject(bag, last, text, steps) && AsReal(steps) > 0.0
    ensures Inject(bag, last, text, weight, steps, interpolation) ==
      (bag["transition" := TransitionValue(PromptEntry(Str(text), weight), steps, interpolation)], text)
  {
  }

  lemma InjectAppendsPrompt(bag: Bag, last: string, text: string, weight: Value, steps: Value, interpolation: Value)
    requires IsNew(last, text) && CanInject(bag, last, text, steps) && AsReal(steps) <= 0.0
    ensures PromptsListable(bag)
    ensures Inject(bag, last, text, weight, steps, interpolation) == (WithPrompt(bag, PromptEntry(Str(text), weight)), text)
  {
  }

  /** Repeating a call with the same text is a no-op: the second call finds the text in the ledger. */
  lemma InjectIdempotent(bag: Bag, last: string, text: string, weight: Value, steps: Value, interpolation: Value)
    requires CanInject(bag, last, text, steps)
    ensures var once := Inject(bag, last, text, weight, steps, interpolation);
      !IsNew(once.1, text) && Inject(once.0, once.1, text, weight, steps, interpolation) == once
  {
  }

  /** The ledger after a run of texts: the last non-empty one, or `last` when all are empty. */
  function LastNonEmpty(last: string, texts: seq<string>): (r: string)
    ensures r == last || r in texts
    ensures texts != [] && texts[|texts| - 1] != "" ==> r == texts[|texts| - 1]
    decreases |texts|
  {
    if texts == [] then last
    else if texts[|texts| - 1] != "" then texts[|texts| - 1]
    else LastNonEmpty(last, texts[..|texts| - 1])
  }

  /** The texts a run injects: empty texts dropped, and every text equal to the last injected one dropped. */
  function Fresh(last: string, texts: seq<string>): (r: seq<string>)
    decreases |texts|
  {
    if texts == [] then []
    else if IsNew(last, texts[0]) then [texts[0]] + Fresh(texts[0], texts[1..])
    else Fresh(last, texts[1..])
  }

  /** No injected text is empty, none repeats the one injected just before it, and the first is not `last`. */
  lemma {:induction false} FreshDeduplicates(last: string, texts: seq<string>)
    ensures var r := Fresh(last, texts);
      (forall i :: 0 <= i < |r| ==> r[i] != "") &&
      (forall i :: 0 < i < |r| ==> r[i] != r[i - 1]) &&
      (r != [] ==> r[0] != last)
    decreases |texts|
  {
    if texts != [] {
      FreshDeduplicates(if IsNew(last, texts[0]) then texts[0] else last, texts[1..]);
    }
  }

  /** The prompt entries appended for `texts`, in order. */
  function Entries(texts: seq<string>, weight: Value): (r: seq<Value>)
    ensures |r| == |texts|
    ensures forall i :: 0 <= i < |texts| ==> r[i] == PromptEntry(Str(texts[i]), weight)
  {
    seq(|texts|, i requires 0 <= i < |texts| => PromptEntry(Str(texts[i]), weight))
  }

  /** Calling `inject_if_new` on one output dict once per text, in order, with `transition_steps` 0. */
  function AppendRun(bag: Bag, last: string, texts: seq<string>, weight: Value): (r: (Bag, string))
    requires PromptsListable(bag)
    ensures PromptsListable(r.0)
    decreases |texts|
  {
    if texts == [] then (bag, last)
    else
      var next := Inject(bag, last, texts[0], weight, Int(0), Str("slerp"));
      AppendRun(next.0, next.1, texts[1..], weight)
  }

  /** After a run, the ledger holds its last non-empty text, or `last` when every text is empty. */
  lemma {:induction false} AppendRunLedger(bag: Bag, last: string, texts: seq<string>, weight: Value)
    requires PromptsListable(bag)
    ensures AppendRun(bag, last, texts, weight).1 == LastNonEmpty(last, texts)
    decreases |texts|
  {
    if texts != [] {
      var next := Inject(bag, last, texts[0], weight, Int(0), Str("slerp"));
      assert next.1 == if texts[0] != "" then texts[0] else last;
      AppendRunLedger(next.0, next.1, texts[1..], weight);
      LastNonEmptyCons(last, texts);
    }
  }

  /** A run appends exactly the fresh texts, in order, after the upstream prompts. */
  lemma {:induction false} AppendRunAppendsFresh(bag: Bag, last: string, texts: seq<string>, weight: Value)
    requires PromptsListable(bag)
    ensures ExistingPrompts(AppendRun(bag, last, texts, weight).0) == ExistingPrompts(bag) + Entries(Fresh(last, texts), weight)
    decreases |texts|
  {
    if texts != [] {
      var next := Inject(bag, last, texts[0], weight, Int(0), Str("slerp"));
      assert AppendRun(bag, last, texts, weight) == AppendRun(next.0, next.1, texts[1..], weight);
      AppendStepPrompts(bag, last, texts[0], weight);
      AppendRunAppendsFresh(next.0, next.1, texts[1..], weight);
      EntriesFresh(last, texts, weight);
      Regroup(ExistingPrompts(AppendRun(bag, last, texts, weight).0), ExistingPrompts(bag),
        if IsNew(last, texts[0]) then [PromptEntry(Str(texts[0]), weight)] else [],
        Entries(Fresh(next.1, texts[1..]), weight), Entries(Fresh(last, texts), weight));
    }
  }

  /** `x` is `a`, then `h`, then `t`, regrouped as `a` then `e` where `e` is `h` then `t`. */
  lemma Regroup<T>(x: seq<T>, a: seq<T>, h: seq<T>, t: seq<T>, e: seq<T>)
    requires x == (a + h) + t && e == h + t
    ensures x == a + e
  {
  }

  /** A run changes no key other than `prompts`. */
  lemma {:induction false} AppendRunKeepsOthers(bag: Bag, last: string, texts: seq<string>, weight: Value)
    requires PromptsListable(bag)
    ensures var r := AppendRun(bag, last, texts, weight).0;
      forall k :: k != "prompts" ==> (k in r <==> k in bag) && (k in bag ==> r[k] == bag[k])
    decreases |texts|
  {
    if texts != [] {
      var next := Inject(bag, last, texts[0], weight, Int(0), Str("slerp"));
      AppendStepKeepsOthers(bag, last, texts[0], weight);
      AppendRunKeepsOthers(next.0, next.1, texts[1..], weight);
    }
  }

  /** One appending call appends the entry only when the text is new. */
  lemma AppendStepPrompts(bag: Bag, last: string, text: string, weight: Value)
    requires PromptsListable(bag)
    ensures var next := Inject(bag, last, text, weight, Int(0), Str("slerp"));
      PromptsListable(next.0) &&
      ExistingPrompts(next.0) == ExistingPrompts(bag) + (if IsNew(last, text) then [PromptEntry(Str(text), weight)] else [])
  {
  }

  /** One appending call changes no key other than `prompts`. */
  lemma AppendStepKeepsOthers(bag: Bag, last: string, text: string, weight: Value)
    requires PromptsListable(bag)
    ensures var next := Inject(bag, last, text, weight, Int(0), Str("slerp")).0;
      forall k :: k != "prompts" ==> (k in next <==> k in bag) && (k in bag ==> next[k] == bag[k])
  {
  }

  /** The entries of two runs of texts, one after the other. */
  lemma EntriesConcat(a: seq<string>, b: seq<string>, weight: Value)
    ensures Entries(a + b, weight) == Entries(a, weight) + Entries(b, weight)
  {
  }

  /** The entries of a run, split after its first text. */
  lemma EntriesFresh(last: string, texts: seq<string>, weight: Value)
    requires texts != []
    ensures Entries(Fresh(last, texts), weight) ==
      (if IsNew(last, texts[0]) then [PromptEntry(Str(texts[0]), weight)] else []) +
      Entries(Fresh(if IsNew(last, texts[0]) then texts[0] else last, texts[1..]), weight)
  {
    if IsNew(last, texts[0]) {
      var rest := Fresh(texts[0], texts[1..]);
      assert Fresh(last, texts) == [texts[0]] + rest;
      EntriesConcat([texts[0]], rest, weight);
      assert Entries([texts[0]], weight) == [PromptEntry(Str(texts[0]), weight)];
    } else {
      assert Fresh(last, texts) == Fresh(last, texts[1..]);
      assert Entries([], weight) == [];
    }
  }

  /** `LastNonEmpty` read from the front: the first text becomes the ledger when it is non-empty. */
  lemma {:induction false} LastNonEmptyCons(last: string, texts: seq<string>)
    requires texts != []
    ensures LastNonEmpty(last, texts) == LastNonEmpty(if texts[0] != "" then texts[0] else last, texts[1..])
    decreases |texts|
  {
    if |texts| > 1 {
      var init := texts[..|texts| - 1];
      assert init[1..] == texts[1..][..|texts[1..]| - 1];
      assert init[0] == texts[0];
      if texts[|texts| - 1] == "" {
        LastNonEmptyCons(last, init);
      }
    }
  }

  /** The caller's output dict, which `inject_if_new` updates in place. */
  class OutputDict {
    var items: Bag

    constructor(items: Bag)
      ensures this.items == items
    {
      this.items := items;
    }
  }

  class PromptInjector {
    /** The last text injected; "" before the first. */
    var lastInjected: string

    constructor()
      ensures lastInjected == ""
    {
      lastInjected := "";
    }

    /** `inject_if_new(output, text, weight, transition_steps, interpolation_method)`. */
    method InjectIfNew(output: OutputDict, text: string, weight: Value, steps: Value, interpolation: Value)
      requires CanInject(output.items, lastInjected, text, steps)
      modifies this, output
      ensures (output.items, lastInjected) == Inject(old(output.items), old(lastInjected), text, weight, steps, interpolation)
    {
      if text == "" || text == lastInjected {
        return;
      }
      lastInjected := text;
      var entry := PromptEntry(Str(text), weight);
      if AsReal(steps) > 0.0 {
        output.items := output.items["transition" := TransitionValue(entry, steps, interpolation)];
      } else {
        var existing := ExistingPrompts(output.items);
        existing := existing + [entry];
        output.items := output.items["prompts" := List(existing)];
      }
    }
  }

  /** A fresh injector always injects the first non-empty text it is given. */
  method FirstTextInjected(bag: Bag, text: string, weight: Value) returns (after: Bag, ledger: string)
    requires text != "" && PromptsListable(bag)
    ensures ledger == text
    ensures PromptsListable(after) && ExistingPrompts(after) == ExistingPrompts(bag) + [PromptEntry(Str(text), weight)]
  {
    var injector := new PromptInjector();
    var output := new OutputDict(bag);
    injector.InjectIfNew(output, text, weight, Int(0), Str("slerp"));
    after, ledger := output.items, injector.lastInjected;
  }
}
