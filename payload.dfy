/** The Python values that the client puts on its queues and hands to the
    Socket.IO transport: dictionaries, lists, numbers, and the numpy arrays
    that the audio callbacks produce. */
module Payload {
  import opened Wrappers

  /** A Python value as far as the voice path inspects it. `Samples` is a
      numpy array of audio samples; every other alternative is what a JSON
      message can carry. */
  datatype Value =
    | Null
    | Flag(b: bool)
    | Num(x: real)
    | Str(s: string)
    | List(elems: seq<Value>)
    | Dict(entries: map<string, Value>)
    | Samples(block: seq<real>)

  /** `{"data": v}`: the one-key dictionary both the capture callback and
      `send_package` wrap their argument in. */
  function Wrap(v: Value): (r: Value)
    ensures Field(r, "data") == Some(v)
    ensures r.Dict? && r.entries.Keys == {"data"}
  {
    Dict(map["data" := v])
  }

  /** `v[key]`. Indexing something that is not a dictionary, or a missing
      key, raises; the sender loop catches that and drops the item, so it
      is modelled as None. */
  function Field(v: Value, key: string): (r: Option<Value>)
    ensures r.Some? <==> v.Dict? && key in v.entries
  {
    if v.Dict? && key in v.entries then Some(v.entries[key]) else None
  }

  /** `ndarray.tolist()` on a mono block: a list of numbers. */
  function ToList(block: seq<real>): (r: Value)
    ensures r.List? && |r.elems| == |block|
    ensures forall i :: 0 <= i < |block| ==> r.elems[i] == Num(block[i])
  {
    List(seq(|block|, i requires 0 <= i < |block| => Num(block[i])))
  }

  /** `np.array(data_list, dtype=np.float32)` on a received voice list:
      succeeds exactly on a list of numbers. */
  function ToSamples(v: Value): (r: Option<seq<real>>)
    ensures r.Some? <==> v.List? && forall i :: 0 <= i < |v.elems| ==> v.elems[i].Num?
    ensures r.Some? ==> |r.value| == |v.elems| && forall i :: 0 <= i < |v.elems| ==> Num(r.value[i]) == v.elems[i]
  {
    if v.List? && forall i :: 0 <= i < |v.elems| ==> v.elems[i].Num? then
      Some(seq(|v.elems|, i requires 0 <= i < |v.elems| && v.elems[i].Num? => v.elems[i].x))
    else
      None
  }

  /** Converting a block to a list and back gives the same samples. */
  lemma SamplesRoundTrip(block: seq<real>)
    ensures ToSamples(ToList(block)) == Some(block)
  {
    var l := ToList(block);
    assert forall i :: 0 <= i < |l.elems| ==> l.elems[i].Num?;
    assert ToSamples(l).value == block;
  }
}
