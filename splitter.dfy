/** The Splitter: one input divided between two outputs by a per-component
    split ratio vector, normalised by the split fraction of water. */
module Splitting {
  import opened Wrappers
  import opened Vectors
  import opened Streams

  /** The reference component whose split fraction sets the branch flows. */
  const Water := "H2O"

  /** Branch 0's scale vector: s_j / s_ref per component, then s_ref for the flow. */
  function Scale0(s: seq<real>, sref: real): (r: seq<real>)
    requires sref != 0.0
    ensures |r| == |s| + 1
  {
    seq(|s|, j requires 0 <= j < |s| => s[j] / sref) + [sref]
  }

  /** Branch 1's scale vector: (1 − s_j) / (1 − s_ref) per component, then 1 − s_ref. */
  function Scale1(s: seq<real>, sref: real): (r: seq<real>)
    requires sref != 1.0
    ensures |r| == |s| + 1
  {
    seq(|s|, j requires 0 <= j < |s| => (1.0 - s[j]) / (1.0 - sref)) + [1.0 - sref]
  }

  /** One component's mass in each branch: the branch-0 flow and
      concentration multiply to s_j·Q·C_j, the branch-1 ones to (1 − s_j)·Q·C_j. */
  lemma {:induction false} BranchMasses(sj: real, sref: real, q: real, c: real)
    requires sref != 0.0 && sref != 1.0
    ensures (sref * q) * ((sj / sref) * c) == sj * q * c
    ensures ((1.0 - sref) * q) * (((1.0 - sj) / (1.0 - sref)) * c) == (1.0 - sj) * q * c
    ensures (sref * q) * ((sj / sref) * c) + ((1.0 - sref) * q) * (((1.0 - sj) / (1.0 - sref)) * c) == q * c
  {
    assert (sref * q) * ((sj / sref) * c) == (sref * (sj / sref)) * (q * c);
    assert sref * (sj / sref) == sj;
    var t := 1.0 - sref;
    assert (t * q) * (((1.0 - sj) / t) * c) == (t * ((1.0 - sj) / t)) * (q * c);
    assert t * ((1.0 - sj) / t) == 1.0 - sj;
    assert sj * q * c + (1.0 - sj) * q * c == q * c;
  }

  /** Splitting `arr` by the two scale vectors divides its flow as s_ref and
      1 − s_ref and each component's mass Q·C_j as s_j and 1 − s_j; so the
      two branches together carry exactly the input's flow and mass. */
  lemma {:induction false} SplitConservesMass(s: seq<real>, sref: real, arr: seq<real>)
    requires sref != 0.0 && sref != 1.0 && |arr| == |s| + 1
    ensures Hadamard(Scale0(s, sref), arr)[|s|] == sref * arr[|s|]
    ensures Hadamard(Scale1(s, sref), arr)[|s|] == (1.0 - sref) * arr[|s|]
    ensures Hadamard(Scale0(s, sref), arr)[|s|] + Hadamard(Scale1(s, sref), arr)[|s|] == arr[|s|]
    ensures forall j :: 0 <= j < |s| ==>
              Hadamard(Scale0(s, sref), arr)[|s|] * Hadamard(Scale0(s, sref), arr)[j] == s[j] * arr[|s|] * arr[j]
    ensures forall j :: 0 <= j < |s| ==>
              Hadamard(Scale1(s, sref), arr)[|s|] * Hadamard(Scale1(s, sref), arr)[j] == (1.0 - s[j]) * arr[|s|] * arr[j]
    ensures forall j :: 0 <= j < |s| ==>
              Hadamard(Scale0(s, sref), arr)[|s|] * Hadamard(Scale0(s, sref), arr)[j]
              + Hadamard(Scale1(s, sref), arr)[|s|] * Hadamard(Scale1(s, sref), arr)[j]
              == arr[|s|] * arr[j]
  {
    var n := |s|;
    var o0, o1 := Hadamard(Scale0(s, sref), arr), Hadamard(Scale1(s, sref), arr);
    SplitFlows(s, sref, arr);
    forall j | 0 <= j < n
      ensures o0[n] * o0[j] == s[j] * arr[n] * arr[j]
      ensures o1[n] * o1[j] == (1.0 - s[j]) * arr[n] * arr[j]
      ensures o0[n] * o0[j] + o1[n] * o1[j] == arr[n] * arr[j]
    {
      SplitAt(s, sref, arr, j);
    }
  }

  /** The branch flows: s_ref and 1 − s_ref of the input's. */
  lemma {:induction false} SplitFlows(s: seq<real>, sref: real, arr: seq<real>)
    requires sref != 0.0 && sref != 1.0 && |arr| == |s| + 1
    ensures Hadamard(Scale0(s, sref), arr)[|s|] == sref * arr[|s|]
    ensures Hadamard(Scale1(s, sref), arr)[|s|] == (1.0 - sref) * arr[|s|]
    ensures Hadamard(Scale0(s, sref), arr)[|s|] + Hadamard(Scale1(s, sref), arr)[|s|] == arr[|s|]
  {
    ScaledEntries(s, sref, arr, |s|);
  }

  /** The branch masses of component `j`. */
  lemma {:induction false} SplitAt(s: seq<real>, sref: real, arr: seq<real>, j: nat)
    requires sref != 0.0 && sref != 1.0 && |arr| == |s| + 1 && j < |s|
    ensures var o0, o1, n := Hadamard(Scale0(s, sref), arr), Hadamard(Scale1(s, sref), arr), |s|;
      && o0[n] * o0[j] == s[j] * arr[n] * arr[j]
      && o1[n] * o1[j] == (1.0 - s[j]) * arr[n] * arr[j]
      && o0[n] * o0[j] + o1[n] * o1[j] == arr[n] * arr[j]
  {
    var o0, o1, n := Hadamard(Scale0(s, sref), arr), Hadamard(Scale1(s, sref), arr), |s|;
    ScaledEntries(s, sref, arr, n);
    ScaledEntries(s, sref, arr, j);
    var q, c := arr[n], arr[j];
    BranchMasses(s[j], sref, q, c);
    assert o0[n] * o0[j] == (sref * q) * ((s[j] / sref) * c);
    assert o1[n] * o1[j] == ((1.0 - sref) * q) * (((1.0 - s[j]) / (1.0 - sref)) * c);
  }

  /** Entry `k` of each branch's scaled vector. */
  lemma {:induction false} ScaledEntries(s: seq<real>, sref: real, arr: seq<real>, k: nat)
    requires sref != 0.0 && sref != 1.0 && |arr| == |s| + 1 && k <= |s|
    ensures k < |s| ==> Hadamard(Scale0(s, sref), arr)[k] == (s[k] / sref) * arr[k]
    ensures k < |s| ==> Hadamard(Scale1(s, sref), arr)[k] == ((1.0 - s[k]) / (1.0 - sref)) * arr[k]
    ensures k == |s| ==> Hadamard(Scale0(s, sref), arr)[k] == sref * arr[k]
    ensures k == |s| ==> Hadamard(Scale1(s, sref), arr)[k] == (1.0 - sref) * arr[k]
  {
  }

  /** The same scaling applied to the state and to the derivative keeps the
      product-rule mass rates: the branches' dQ·C_j + Q·dC_j add up to the input's. */
  lemma {:induction false} SplitConservesMassRate(s: seq<real>, sref: real, arr: seq<real>, darr: seq<real>)
    requires sref != 0.0 && sref != 1.0 && |arr| == |s| + 1 && |darr| == |s| + 1
    ensures forall j :: 0 <= j < |s| ==>
              var o0, o1 := Hadamard(Scale0(s, sref), arr), Hadamard(Scale1(s, sref), arr);
              var d0, d1 := Hadamard(Scale0(s, sref), darr), Hadamard(Scale1(s, sref), darr);
              d0[|s|] * o0[j] + o0[|s|] * d0[j] + d1[|s|] * o1[j] + o1[|s|] * d1[j]
              == darr[|s|] * arr[j] + arr[|s|] * darr[j]
  {
    var n := |s|;
    var o0, o1 := Hadamard(Scale0(s, sref), arr), Hadamard(Scale1(s, sref), arr);
    var d0, d1 := Hadamard(Scale0(s, sref), darr), Hadamard(Scale1(s, sref), darr);
    forall j | 0 <= j < n
      ensures d0[n] * o0[j] + o0[n] * d0[j] + d1[n] * o1[j] + o1[n] * d1[j]
              == darr[n] * arr[j] + arr[n] * darr[j]
    {
      BranchMasses(s[j], sref, darr[n], arr[j]);
      BranchMasses(s[j], sref, arr[n], darr[j]);
      assert d0[n] * o0[j] == s[j] * darr[n] * arr[j];
      assert o0[n] * d0[j] == s[j] * arr[n] * darr[j];
      assert d1[n] * o1[j] == (1.0 - s[j]) * darr[n] * arr[j];
      assert o1[n] * d1[j] == (1.0 - s[j]) * arr[n] * darr[j];
    }
  }

  /** A component that splits like the reference (water itself, above all)
      keeps the input's concentration in both branches. */
  lemma {:induction false} ReferenceConcentrationKept(s: seq<real>, sref: real, arr: seq<real>, k: nat)
    requires sref != 0.0 && sref != 1.0 && |arr| == |s| + 1
    requires k < |s| && s[k] == sref
    ensures Hadamard(Scale0(s, sref), arr)[k] == arr[k]
    ensures Hadamard(Scale1(s, sref), arr)[k] == arr[k]
  {
    assert Scale0(s, sref)[k] == 1.0;
    var t := 1.0 - sref;
    assert Scale1(s, sref)[k] == t / t;
    assert t / t == 1.0;
  }

  /** A Splitter unit with component IDs `ids`, split ratio vector `split`
      and the two output streams `out0` and `out1`. */
  class Splitter {
    const ids: seq<string>
    const split: seq<real>
    const out0: Stream
    const out1: Stream
    var state: Option<seq<real>>
    var dstate: seq<real>
    var scale0: seq<real>
    var scale1: seq<real>
    var ode: Option<CompiledOde>

    /** One split fraction per component, and two distinct outputs. */
    predicate Valid()
    {
      |split| == |ids| && out0 != out1
    }

    constructor (ids: seq<string>, split: seq<real>, out0: Stream, out1: Stream)
      requires |split| == |ids| && out0 != out1
      ensures Valid()
      ensures this.ids == ids && this.split == split && this.out0 == out0 && this.out1 == out1
      ensures state == None && dstate == [] && scale0 == [] && scale1 == [] && ode == None
    {
      this.ids := ids;
      this.split := split;
      this.out0 := out0;
      this.out1 := out1;
      state := None;
      dstate := [];
      scale0 := [];
      scale1 := [];
      ode := None;
    }

    /** `reset_cache`: forget the state and empty both outputs; the
        derivative, the scale vectors and the compiled ODE stay. */
    method ResetCache()
      requires Valid()
      modifies this`state, out0, out1
      ensures state == None
      ensures out0.state == None && out0.dstate == None && out0.mass == Zeros(|old(out0.mass)|)
      ensures out1.state == None && out1.dstate == None && out1.mass == Zeros(|old(out1.mass)|)
    {
      state := None;
      out0.Empty();
      out1.Empty();
    }

    /** The `state` getter: component IDs and 'Q' mapped to the state vector. */
    function State(): (r: Option<map<string, real>>)
      reads this
      ensures r.None? <==> state.None?
    {
      StateDict(ids, state)
    }

    /** The `state` setter: only a vector of `|ids| + 1` entries is taken;
        any other length raises and leaves the state as it was. */
    method SetState(QCs: seq<real>) returns (r: Outcome)
      modifies this`state
      ensures r.Pass? <==> |QCs| == |ids| + 1
      ensures r.Pass? ==> state == Some(QCs)
      ensures r.Fail? ==> state == old(state) && r.error == ShapeMismatch(|ids| + 1, |QCs|)
    {
      if |QCs| != |ids| + 1 {
        return Fail(ShapeMismatch(|ids| + 1, |QCs|));
      }
      state := Some(QCs);
      r := Pass;
    }

    /** s_ref, the split fraction of water. */
    function RefSplit(): (r: real)
      requires Valid() && Water in ids
      ensures exists k :: 0 <= k < |ids| && ids[k] == Water && Water !in ids[..k] && r == split[k]
    {
      split[IndexOf(ids, Water)]
    }

    /** `_init_state`: the state is input 0's row, the derivative zero, and
        the two branch scale vectors are fixed from the split. */
    method InitState(QCs: seq<seq<real>>)
      requires Valid() && |QCs| >= 1
      requires Water in ids && RefSplit() != 0.0 && RefSplit() != 1.0
      modifies this`state, this`dstate, this`scale0, this`scale1
      ensures state == Some(QCs[0]) && dstate == Zeros(|QCs[0]|)
      ensures scale0 == Scale0(split, RefSplit()) && scale1 == Scale1(split, RefSplit())
    {
      state := Some(QCs[0]);
      dstate := Zeros(|QCs[0]|);
      var sref := split[IndexOf(ids, Water)];
      scale0 := Scale0(split, sref);
      scale1 := Scale1(split, sref);
    }

    /** `_update_state`: store `arr` and write its two scaled copies to the outputs. */
    method UpdateState(arr: seq<real>)
      requires Valid() && |arr| == |scale0| && |arr| == |scale1|
      modifies this`state, out0`state, out1`state
      ensures state == Some(arr)
      ensures out0.state == Some(Hadamard(scale0, arr)) && out1.state == Some(Hadamard(scale1, arr))
    {
      state := Some(arr);
      out0.state := Some(Hadamard(scale0, arr));
      out1.state := Some(Hadamard(scale1, arr));
    }

    /** `_update_dstate`: the same scaling applied to the derivative. */
    method UpdateDstate()
      requires Valid() && |dstate| == |scale0| && |dstate| == |scale1|
      modifies out0`dstate, out1`dstate
      ensures out0.dstate == Some(Hadamard(scale0, dstate)) && out1.dstate == Some(Hadamard(scale1, dstate))
    {
      out0.dstate := Some(Hadamard(scale0, dstate));
      out1.dstate := Some(Hadamard(scale1, dstate));
    }

    /** The `ODE` property: compiles on first access only. */
    method Ode() returns (f: CompiledOde)
      modifies this`ode
      ensures ode == Some(f)
      ensures old(ode).Some? ==> f == old(ode).value
      ensures old(ode).None? ==> f == PassThrough
    {
      if ode.None? {
        CompileOde();
      }
      f := ode.value;
    }

    /** `_compile_ODE`: a closure that captures nothing but the unit. */
    method CompileOde()
      modifies this`ode
      ensures ode == Some(PassThrough)
    {
      ode := Some(PassThrough);
    }

    /** The compiled `dy_dt`: the derivative is input 0's, then split onto
        the outputs like the state. */
    method DyDt(f: CompiledOde, t: real, QCins: seq<seq<real>>, QC: seq<real>, dQCins: seq<seq<real>>)
      requires Valid() && f == PassThrough
      requires |dQCins| >= 1 && |dQCins[0]| == |scale0| && |dQCins[0]| == |scale1|
      modifies this`dstate, out0`dstate, out1`dstate
      ensures dstate == dQCins[0]
      ensures out0.dstate == Some(Hadamard(scale0, dstate)) && out1.dstate == Some(Hadamard(scale1, dstate))
    {
      dstate := dQCins[0];
      UpdateDstate();
    }
  }
}
