/** What every unit shares: the stream buffers it writes, the labelled view
    of its state vector, the compiled derivative it caches, and lookup of a
    component by its ID. */
module Streams {
  import opened Wrappers
  import opened Vectors

  /** A stream buffer. `state` and `dstate` are the dynamic state and
      derivative vectors written by the one unit that produces the stream;
      `mass` is its per-component mass flow, used by steady-state routing. */
  class Stream {
    var state: Option<seq<real>>
    var dstate: Option<seq<real>>
    var mass: seq<real>

    constructor (n: nat)
      ensures state == None && dstate == None && mass == Zeros(n)
    {
      state := None;
      dstate := None;
      mass := Zeros(n);
    }

    /** `empty()`: no flow of any component and no dynamic state. */
    method Empty()
      modifies this
      ensures state == None && dstate == None
      ensures mass == Zeros(|old(mass)|)
    {
      state := None;
      dstate := None;
      mass := Zeros(|mass|);
    }
  }

  /** The derivative closure a unit's `_compile_ODE` builds, as the values it
      captures: the node copies its input's derivative (Splitter, Pump), or
      mixes `nIns` inputs (Mixer), or lags its input with time constant `t`
      (HydraulicDelay). */
  datatype CompiledOde = PassThrough | FlowWeighted(nIns: nat) | FirstOrderLag(t: real)

  /** Component IDs are unique in a registry. */
  predicate Distinct(ids: seq<string>)
  {
    forall i, j :: 0 <= i < j < |ids| ==> ids[i] != ids[j]
  }

  /** `list.index`: the first position of `id`. */
  function IndexOf(ids: seq<string>, id: string): (k: nat)
    requires id in ids
    ensures k < |ids| && ids[k] == id
    ensures forall i :: 0 <= i < k ==> ids[i] != id
  {
    if ids[0] == id then 0 else 1 + IndexOf(ids[1..], id)
  }

  /** `dict(zip(keys, values))`: pairs up to the shorter of the two, a later
      key overriding an earlier equal one. */
  function ZipDict(keys: seq<string>, values: seq<real>): map<string, real>
  {
    if keys == [] || values == [] then map[]
    else map[keys[0] := values[0]] + ZipDict(keys[1..], values[1..])
  }

  /** The label of the flow entry in the `state` mapping. */
  const FlowLabel := "Q"

  /** The `state` property shared by Mixer, Splitter and Pump: nothing while
      the state is unset, otherwise each component ID and then 'Q' mapped to
      the entries of the state vector. */
  function StateDict(ids: seq<string>, state: Option<seq<real>>): (r: Option<map<string, real>>)
    ensures r.None? <==> state.None?
  {
    match state
    case None => None
    case Some(s) => Some(ZipDict(ids + [FlowLabel], s))
  }

  /** With one value per key, the mapping holds exactly the keys. */
  lemma {:induction false} ZipDictKeys(keys: seq<string>, values: seq<real>)
    requires |keys| == |values|
    ensures ZipDict(keys, values).Keys == set k | k in keys
  {
    if keys != [] {
      ZipDictKeys(keys[1..], values[1..]);
      forall k | k in keys ensures k in ZipDict(keys, values).Keys {
        if k != keys[0] {
          assert k in keys[1..];
        }
      }
    }
  }

  /** With distinct keys and one value per key, the mapping holds exactly the
      keys, each with the value at its own position. */
  lemma {:induction false} ZipDictLookup(keys: seq<string>, values: seq<real>)
    requires Distinct(keys) && |keys| == |values|
    ensures ZipDict(keys, values).Keys == set k | k in keys
    ensures forall i :: 0 <= i < |keys| ==> ZipDict(keys, values)[keys[i]] == values[i]
  {
    ZipDictKeys(keys, values);
    if keys != [] {
      ZipDictLookup(keys[1..], values[1..]);
      forall i | 0 <= i < |keys|
        ensures ZipDict(keys, values)[keys[i]] == values[i]
      {
        if i > 0 {
          assert keys[i] == keys[1..][i - 1];
        }
      }
    }
  }

  /** A set state reads back with each component's concentration under its
      ID and the flow under 'Q'. */
  lemma {:induction false} StateDictLabels(ids: seq<string>, s: seq<real>)
    requires Distinct(ids) && FlowLabel !in ids && |s| == |ids| + 1
    ensures StateDict(ids, Some(s)).Some?
    ensures FlowLabel in StateDict(ids, Some(s)).value
    ensures StateDict(ids, Some(s)).value[FlowLabel] == s[|ids|]
    ensures forall i :: 0 <= i < |ids| ==>
              ids[i] in StateDict(ids, Some(s)).value && StateDict(ids, Some(s)).value[ids[i]] == s[i]
  {
    var keys := ids + [FlowLabel];
    assert Distinct(keys);
    ZipDictLookup(keys, s);
    assert keys[|ids|] == FlowLabel;
    forall i | 0 <= i < |ids| ensures keys[i] == ids[i] { }
  }
}
