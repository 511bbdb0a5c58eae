/**
 * The pass-through every plugin pipeline ends with: the output dict holds
 * the processed frames under `video` and every other keyword argument that
 * is not one of the plugin's own parameters, unchanged.
 */
module Forward {
  import opened Values

  /** `kwargs.get("video") is None`: every pipeline raises `ValueError` before touching its state. */
  predicate VideoMissing(kwargs: Bag)
  {
    Get(kwargs, "video", NoneValue) == NoneValue
  }

  /** The output dict a pipeline starts from: `frames` under `video`, then the foreign keyword arguments. */
  function Forwarded(kwargs: Bag, own: set<string>, frames: Value): (r: Bag)
    ensures r.Keys == {"video"} + (kwargs.Keys - {"video"} - own)
    ensures r["video"] == frames
    ensures forall k :: k in r && k != "video" ==> r[k] == kwargs[k]
  {
    (map k | k in kwargs.Keys - {"video"} - own :: kwargs[k])["video" := frames]
  }

  /** `output = {"video": frames}; for key, value in kwargs.items(): if key != "video" and key not in own: output[key] = value`. */
  method ForwardKwargs(kwargs: Bag, own: set<string>, frames: Value) returns (output: Bag)
    ensures output == Forwarded(kwargs, own, frames)
  {
    output := map["video" := frames];
    var rest := kwargs.Keys;
    while rest != {}
      invariant rest <= kwargs.Keys
      invariant output.Keys == {"video"} + (kwargs.Keys - rest - {"video"} - own)
      invariant output["video"] == frames
      invariant forall k :: k in output && k != "video" ==> k in kwargs && output[k] == kwargs[k]
      decreases rest
    {
      var key :| key in rest;
      rest := rest - {key};
      if key != "video" && key !in own {
        output := output[key := kwargs[key]];
      }
    }
  }
}
