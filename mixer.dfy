/** The Mixer: N input streams combined into one output by flow-weighted
    averaging, and the quotient-rule derivative of that average. */
module Mixing {
  import opened Wrappers
  import opened Vectors
  import opened Streams

  /** Q = Σ Q_i, the total flow of the rows (their last column). */
  function TotalFlow(QCs: seq<seq<real>>, n: nat): real
    requires IsMatrix(QCs, n + 1)
  {
    ColumnSum(QCs, n)
  }

  /** C_j = (Σ Q_i·C_ij) / Q, the flow-weighted average of component j. */
  function MixedConc(QCs: seq<seq<real>>, n: nat, j: nat): real
    requires IsMatrix(QCs, n + 1) && j < n && TotalFlow(QCs, n) != 0.0
  {
    WeightedSum(QCs, QCs, n, j) / TotalFlow(QCs, n)
  }

  /** The state `_init_state` computes: one input's row verbatim, or the
      flow-weighted average concentrations followed by the total flow. */
  function MixState(QCs: seq<seq<real>>, n: nat): (r: seq<real>)
    requires |QCs| >= 1 && IsMatrix(QCs, n + 1)
    requires |QCs| > 1 ==> TotalFlow(QCs, n) != 0.0
    ensures |r| == n + 1
    ensures |QCs| == 1 ==> r == QCs[0]
  {
    if |QCs| <= 1 then QCs[0]
    else seq(n, j requires 0 <= j < n => MixedConc(QCs, n, j)) + [TotalFlow(QCs, n)]
  }

  /** The mixed state carries all the inputs' flow and, for every component,
      all their mass: Q = Σ Q_i and Q·C_j = Σ Q_i·C_ij, with one input as with many. */
  lemma {:induction false} MixStateConservesMass(QCs: seq<seq<real>>, n: nat)
    requires |QCs| >= 1 && IsMatrix(QCs, n + 1)
    requires |QCs| > 1 ==> TotalFlow(QCs, n) != 0.0
    ensures MixState(QCs, n)[n] == TotalFlow(QCs, n)
    ensures forall j :: 0 <= j < n ==>
              MixState(QCs, n)[n] * MixState(QCs, n)[j] == WeightedSum(QCs, QCs, n, j)
  {
    var r := MixState(QCs, n);
    if |QCs| == 1 {
      assert QCs[1..] == [];
      assert TotalFlow(QCs, n) == QCs[0][n] + ColumnSum(QCs[1..], n);
      forall j | 0 <= j < n
        ensures WeightedSum(QCs, QCs, n, j) == QCs[0][n] * QCs[0][j]
      {
        assert WeightedSum(QCs, QCs, n, j) == QCs[0][n] * QCs[0][j] + WeightedSum(QCs[1..], QCs[1..], n, j);
      }
    } else {
      forall j | 0 <= j < n
        ensures r[n] * r[j] == WeightedSum(QCs, QCs, n, j)
      {
        assert r[j] == WeightedSum(QCs, QCs, n, j) / TotalFlow(QCs, n);
      }
    }
  }

  /** Two inputs, Q1 = 10 with C1 = [100, 0] and Q2 = 5 with C2 = [0, 200],
      mix to Q = 15 and C = [200/3, 200/3]. */
  lemma {:induction false} MixTwoStreamsExample()
    ensures MixState([[100.0, 0.0, 10.0], [0.0, 200.0, 5.0]], 2) == [200.0 / 3.0, 200.0 / 3.0, 15.0]
  {
    var QCs: seq<seq<real>> := [[100.0, 0.0, 10.0], [0.0, 200.0, 5.0]];
    assert QCs[1..][1..] == [];
    assert TotalFlow(QCs, 2) == 15.0;
    assert WeightedSum(QCs, QCs, 2, 0) == 1000.0;
    assert WeightedSum(QCs, QCs, 2, 1) == 1000.0;
  }

  /** Σ_i (dQ_i·C_ij + Q_i·dC_ij): the rate of change of the mass of
      component j carried by all inputs together, by the product rule. */
  function MassRate(QCs: seq<seq<real>>, dQCs: seq<seq<real>>, n: nat, j: nat): real
    requires |QCs| == |dQCs| && IsMatrix(QCs, n + 1) && IsMatrix(dQCs, n + 1) && j < n
  {
    if QCs == [] then 0.0
    else dQCs[0][n] * QCs[0][j] + QCs[0][n] * dQCs[0][j] + MassRate(QCs[1..], dQCs[1..], n, j)
  }

  /** The derivative the multi-input ODE writes: dQ = Σ dQ_i and
      dC_j = (Σ dQ_i·C_ij + Σ Q_i·dC_ij − dQ·C_j) / Q. */
  function MixDerivative(QCs: seq<seq<real>>, dQCs: seq<seq<real>>, n: nat): (r: seq<real>)
    requires |QCs| == |dQCs| && IsMatrix(QCs, n + 1) && IsMatrix(dQCs, n + 1)
    requires TotalFlow(QCs, n) != 0.0
    ensures |r| == n + 1
    ensures r[n] == TotalFlow(dQCs, n)
  {
    var Q := TotalFlow(QCs, n);
    var dQ := TotalFlow(dQCs, n);
    seq(n, j requires 0 <= j < n =>
          (WeightedSum(dQCs, QCs, n, j) + WeightedSum(QCs, dQCs, n, j) - dQ * MixedConc(QCs, n, j)) / Q)
    + [dQ]
  }

  /** The mass rate splits into the flow-change and concentration-change terms. */
  lemma {:induction false} MassRateSplits(QCs: seq<seq<real>>, dQCs: seq<seq<real>>, n: nat, j: nat)
    requires |QCs| == |dQCs| && IsMatrix(QCs, n + 1) && IsMatrix(dQCs, n + 1) && j < n
    ensures MassRate(QCs, dQCs, n, j) == WeightedSum(dQCs, QCs, n, j) + WeightedSum(QCs, dQCs, n, j)
  {
    if QCs != [] {
      MassRateSplits(QCs[1..], dQCs[1..], n, j);
    }
  }

  /** The product rule for the mixed mass: Q·dC_j + dQ·C_j equals the rate of
      change of the inputs' combined mass of component j, and dQ = Σ dQ_i. */
  lemma {:induction false} MixDerivativeProductRule(QCs: seq<seq<real>>, dQCs: seq<seq<real>>, n: nat)
    requires |QCs| == |dQCs| && IsMatrix(QCs, n + 1) && IsMatrix(dQCs, n + 1)
    requires TotalFlow(QCs, n) != 0.0
    ensures MixDerivative(QCs, dQCs, n)[n] == TotalFlow(dQCs, n)
    ensures forall j :: 0 <= j < n ==>
              TotalFlow(QCs, n) * MixDerivative(QCs, dQCs, n)[j]
              + MixDerivative(QCs, dQCs, n)[n] * MixedConc(QCs, n, j)
              == MassRate(QCs, dQCs, n, j)
  {
    forall j | 0 <= j < n
      ensures TotalFlow(QCs, n) * MixDerivative(QCs, dQCs, n)[j]
              + MixDerivative(QCs, dQCs, n)[n] * MixedConc(QCs, n, j)
              == MassRate(QCs, dQCs, n, j)
    {
      ProductRuleAt(QCs, dQCs, n, j);
    }
  }

  /** The product rule for one component. */
  lemma {:induction false} ProductRuleAt(QCs: seq<seq<real>>, dQCs: seq<seq<real>>, n: nat, j: nat)
    requires |QCs| == |dQCs| && IsMatrix(QCs, n + 1) && IsMatrix(dQCs, n + 1)
    requires TotalFlow(QCs, n) != 0.0 && j < n
    ensures TotalFlow(QCs, n) * MixDerivative(QCs, dQCs, n)[j]
            + MixDerivative(QCs, dQCs, n)[n] * MixedConc(QCs, n, j)
            == MassRate(QCs, dQCs, n, j)
  {
    var r := MixDerivative(QCs, dQCs, n);
    var a, b, c := WeightedSum(dQCs, QCs, n, j), WeightedSum(QCs, dQCs, n, j), MixedConc(QCs, n, j);
    var q, dq := TotalFlow(QCs, n), TotalFlow(dQCs, n);
    assert r[n] == dq;
    assert r[j] == (a + b - dq * c) / q;
    MassRateSplits(QCs, dQCs, n, j);
    QuotientRule(r[j], r[n], a, b, dq, c, q, MassRate(QCs, dQCs, n, j));
  }

  /** Multiplying the quotient back by Q recovers the numerator. */
  lemma QuotientRule(rj: real, rn: real, a: real, b: real, dQ: real, c: real, q: real, m: real)
    requires q != 0.0 && rj == (a + b - dQ * c) / q && rn == dQ && m == a + b
    ensures q * rj + rn * c == m
  {
  }

  /** A Mixer unit. `ids` are the component IDs (the state vector has
      `|ids| + 1` entries), `out` its one output stream and `nIns` the number
      of its inputs. */
  class Mixer {
    const ids: seq<string>
    const out: Stream
    var nIns: nat
    var state: Option<seq<real>>
    var dstate: seq<real>
    var ode: Option<CompiledOde>

    constructor (ids: seq<string>, out: Stream, nIns: nat)
      ensures this.ids == ids && this.out == out && this.nIns == nIns
      ensures state == None && dstate == [] && ode == None
    {
      this.ids := ids;
      this.out := out;
      this.nIns := nIns;
      state := None;
      dstate := [];
      ode := None;
    }

    /** `reset_cache`: forget the state and empty the output; the derivative
        and the compiled ODE stay, so a second call changes nothing more. */
    method ResetCache()
      modifies this`state, out
      ensures state == None
      ensures out.state == None && out.dstate == None && out.mass == Zeros(|old(out.mass)|)
    {
      state := None;
      out.Empty();
    }

    /** The `state` property: component IDs and 'Q' mapped to the state vector. */
    function State(): (r: Option<map<string, real>>)
      reads this
      ensures r.None? <==> state.None?
    {
      StateDict(ids, state)
    }

    /** `_init_state`: the mixed state of the inputs' rows, and a zero derivative. */
    method InitState(QCs: seq<seq<real>>)
      requires |QCs| >= 1 && IsMatrix(QCs, |ids| + 1)
      requires |QCs| > 1 ==> TotalFlow(QCs, |ids|) != 0.0
      modifies this`state, this`dstate
      ensures state == Some(MixState(QCs, |ids|))
      ensures dstate == Zeros(|ids| + 1)
    {
      var s := MixState(QCs, |ids|);
      state := Some(s);
      dstate := Zeros(|s|);
    }

    /** `_update_state`: the node and its output take the same vector. */
    method UpdateState(arr: seq<real>)
      modifies this`state, out`state
      ensures state == Some(arr) && out.state == Some(arr)
    {
      state := Some(arr);
      out.state := Some(arr);
    }

    /** `_update_dstate`: the output's derivative is the node's. */
    method UpdateDstate()
      modifies out`dstate
      ensures out.dstate == Some(dstate)
    {
      out.dstate := Some(dstate);
    }

    /** The `ODE` property: compiles on first access only; afterwards the
        cached closure is returned, even if the number of inputs changed. */
    method Ode() returns (f: CompiledOde)
      modifies this`ode
      ensures ode == Some(f)
      ensures old(ode).Some? ==> f == old(ode).value
      ensures old(ode).None? ==> f == FlowWeighted(nIns)
    {
      if ode.None? {
        CompileOde();
      }
      f := ode.value;
    }

    /** `_compile_ODE`: the closure captures the current number of inputs. */
    method CompileOde()
      modifies this`ode
      ensures ode == Some(FlowWeighted(nIns))
    {
      ode := Some(FlowWeighted(nIns));
    }

    /** The compiled `dy_dt`: with more than one input (as captured) the
        quotient-rule derivative is written into `dstate` in place, flow last;
        otherwise `dstate` becomes input 0's derivative. Either way it is then
        propagated to the output. */
    method DyDt(f: CompiledOde, t: real, QCins: seq<seq<real>>, QC: seq<real>, dQCins: seq<seq<real>>)
      requires f.FlowWeighted?
      requires |QCins| == |dQCins| >= 1
      requires IsMatrix(QCins, |ids| + 1) && IsMatrix(dQCins, |ids| + 1)
      requires f.nIns > 1 ==> TotalFlow(QCins, |ids|) != 0.0 && |dstate| == |ids| + 1
      modifies this`dstate, out`dstate
      ensures dstate == if f.nIns > 1 then MixDerivative(QCins, dQCins, |ids|) else dQCins[0]
      ensures out.dstate == Some(dstate)
    {
      var n := |ids|;
      if f.nIns > 1 {
        var d := MixDerivative(QCins, dQCins, n);
        dstate := dstate[n := d[n]];
        dstate := d[..n] + [dstate[n]];
      } else {
        dstate := dQCins[0];
      }
      UpdateDstate();
    }
  }
}
