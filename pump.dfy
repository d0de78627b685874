/** The Pump, a pass-through of state and derivative, and the
    HydraulicDelay, a first-order low-pass filter on one stream (the
    hydraulic delay of Benchmark Simulation Model No. 1). */
module Pumping {
  import opened Wrappers
  import opened Vectors
  import opened Streams

  /** A Pump unit with component IDs `ids` and one output stream `out`. */
  class Pump {
    const ids: seq<string>
    const out: Stream
    var state: Option<seq<real>>
    var dstate: seq<real>
    var ode: Option<CompiledOde>

    constructor (ids: seq<string>, out: Stream)
      ensures this.ids == ids && this.out == out
      ensures state == None && dstate == [] && ode == None
    {
      this.ids := ids;
      this.out := out;
      state := None;
      dstate := [];
      ode := None;
    }

    /** `reset_cache`: forget the state and empty the output; the derivative
        and the compiled ODE stay. */
    method ResetCache()
      modifies this`state, out
      ensures state == None
      ensures out.state == None && out.dstate == None && out.mass == Zeros(|old(out.mass)|)
    {
      state := None;
      out.Empty();
    }

    /** The `state` getter: component IDs and 'Q' mapped to the state vector. */
    function State(): (r: Option<map<string, real>>)
      reads this
      ensures r.None? <==> state.None?
    {
      StateDict(ids, state)
    }

    /** The `state` setter: only a vector of `|ids| + 1` entries is taken;
        any other length raises and leaves the state as it was. */
    method SetState(QCs: seq<real>) returns (r: Outcome)
      modifies this`state
      ensures r.Pass? <==> |QCs| == |ids| + 1
      ensures r.Pass? ==> state == Some(QCs)
      ensures r.Fail? ==> state == old(state) && r.error == ShapeMismatch(|ids| + 1, |QCs|)
    {
      if |QCs| != |ids| + 1 {
        return Fail(ShapeMismatch(|ids| + 1, |QCs|));
      }
      state := Some(QCs);
      r := Pass;
    }

    /** `_init_state`: input 0's row, and a zero derivative of its length. */
    method InitState(QCs: seq<seq<real>>)
      requires |QCs| >= 1
      modifies this`state, this`dstate
      ensures state == Some(QCs[0]) && dstate == Zeros(|QCs[0]|)
    {
      state := Some(QCs[0]);
      dstate := Zeros(|QCs[0]|);
    }

    /** `_update_state`: the node and its output take the same vector. */
    method UpdateState(arr: seq<real>)
      modifies this`state, out`state
      ensures state == Some(arr) && out.state == Some(arr)
    {
      state := Some(arr);
      out.state := Some(arr);
    }

    /** `_update_dstate`: the output's derivative is the node's. */
    method UpdateDstate()
      modifies out`dstate
      ensures out.dstate == Some(dstate)
    {
      out.dstate := Some(dstate);
    }

    /** The `ODE` property: compiles on first access only. */
    method Ode() returns (f: CompiledOde)
      modifies this`ode
      ensures ode == Some(f)
      ensures old(ode).Some? ==> f == old(ode).value
      ensures old(ode).None? ==> f == PassThrough
    {
      if ode.None? {
        CompileOde();
      }
      f := ode.value;
    }

    /** `_compile_ODE`: a closure that captures nothing but the unit. */
    method CompileOde()
      modifies this`ode
      ensures ode == Some(PassThrough)
    {
      ode := Some(PassThrough);
    }

    /** The compiled `dy_dt`: the derivative is input 0's, passed on unchanged. */
    method DyDt(f: CompiledOde, t: real, QCins: seq<seq<real>>, QC: seq<real>, dQCins: seq<seq<real>>)
      requires f == PassThrough && |dQCins| >= 1
      modifies this`dstate, out`dstate
      ensures dstate == dQCins[0] && out.dstate == Some(dQCins[0])
    {
      dstate := dQCins[0];
      UpdateDstate();
    }
  }

  /** The concentrations `set_init_conc` builds: zero for every component,
      then each named component set to its value, in the order given. */
  function InitConcs(ids: seq<string>, kwargs: seq<(string, real)>): (r: seq<real>)
    requires forall k :: 0 <= k < |kwargs| ==> kwargs[k].0 in ids
    ensures |r| == |ids|
    ensures kwargs != [] ==> r[IndexOf(ids, kwargs[|kwargs| - 1].0)] == kwargs[|kwargs| - 1].1
  {
    if kwargs == [] then Zeros(|ids|)
    else
      var (name, v) := kwargs[|kwargs| - 1];
      InitConcs(ids, kwargs[..|kwargs| - 1])[IndexOf(ids, name) := v]
  }

  /** Keyword names are distinct. */
  predicate DistinctNames(kwargs: seq<(string, real)>)
  {
    forall k, m :: 0 <= k < m < |kwargs| ==> kwargs[k].0 != kwargs[m].0
  }

  /** Each named component holds its given value; every component not named
      is zero. */
  lemma {:induction false} InitConcsNamed(ids: seq<string>, kwargs: seq<(string, real)>)
    requires forall k :: 0 <= k < |kwargs| ==> kwargs[k].0 in ids
    requires DistinctNames(kwargs)
    ensures forall k :: 0 <= k < |kwargs| ==> InitConcs(ids, kwargs)[IndexOf(ids, kwargs[k].0)] == kwargs[k].1
    ensures forall i :: 0 <= i < |ids| && (forall k :: 0 <= k < |kwargs| ==> kwargs[k].0 != ids[i]) ==>
              InitConcs(ids, kwargs)[i] == 0.0
  {
    if kwargs != [] {
      var init := kwargs[..|kwargs| - 1];
      InitConcsNamed(ids, init);
      var last := |kwargs| - 1;
      forall k | 0 <= k < |kwargs|
        ensures InitConcs(ids, kwargs)[IndexOf(ids, kwargs[k].0)] == kwargs[k].1
      {
        if k < last {
          assert kwargs[k] == init[k];
          assert IndexOf(ids, kwargs[k].0) != IndexOf(ids, kwargs[last].0);
        }
      }
      forall i | 0 <= i < |ids| && (forall k :: 0 <= k < |kwargs| ==> kwargs[k].0 != ids[i])
        ensures InitConcs(ids, kwargs)[i] == 0.0
      {
        assert IndexOf(ids, kwargs[last].0) != i;
        forall k | 0 <= k < |init| ensures init[k].0 != ids[i] {
          assert init[k] == kwargs[k];
        }
      }
    }
  }

  /** The derivative of the delay: with a steady inflow (dQ_in exactly 0)
      dQ = 0 and dC = (Q_in·C_in − Q·C) / (Q·T); otherwise
      dQ = (Q_in − Q) / T and dC = (Q_in / Q)·(C_in − C) / T. */
  function DelayDerivative(QCin: seq<real>, QC: seq<real>, dQin: real, t: real): (r: seq<real>)
    requires |QCin| == |QC| >= 1 && QC[|QC| - 1] != 0.0 && t != 0.0
    ensures |r| == |QC|
    ensures dQin == 0.0 ==> r[|QC| - 1] == 0.0
    ensures dQin != 0.0 ==> r[|QC| - 1] == (QCin[|QC| - 1] - QC[|QC| - 1]) / t
  {
    var n := |QC| - 1;
    var qin, q := QCin[n], QC[n];
    if dQin == 0.0 then
      seq(n, j requires 0 <= j < n => (qin * QCin[j] - q * QC[j]) / (q * t)) + [0.0]
    else
      seq(n, j requires 0 <= j < n => qin / q * (QCin[j] - QC[j]) / t) + [(qin - q) / t]
  }

  /** At equilibrium (the node's state equals its inflow) the derivative is
      zero in either branch. */
  lemma {:induction false} DelayEquilibrium(QC: seq<real>, dQin: real, t: real)
    requires |QC| >= 1 && QC[|QC| - 1] != 0.0 && t != 0.0
    ensures DelayDerivative(QC, QC, dQin, t) == Zeros(|QC|)
  {
    var r := DelayDerivative(QC, QC, dQin, t);
    forall j | 0 <= j < |QC| ensures r[j] == 0.0 { }
  }

  /** With a steady inflow, positive flow and positive T, each dC_j has the
      sign of Q_in·C_in_j − Q·C_j, and the flow does not change. */
  lemma {:induction false} DelaySteadySign(QCin: seq<real>, QC: seq<real>, t: real)
    requires |QCin| == |QC| >= 1 && QC[|QC| - 1] > 0.0 && t > 0.0
    ensures DelayDerivative(QCin, QC, 0.0, t)[|QC| - 1] == 0.0
    ensures forall j :: 0 <= j < |QC| - 1 ==>
              var r, n := DelayDerivative(QCin, QC, 0.0, t), |QC| - 1;
              (r[j] > 0.0 <==> QCin[n] * QCin[j] > QC[n] * QC[j]) &&
              (r[j] < 0.0 <==> QCin[n] * QCin[j] < QC[n] * QC[j])
  {
    var r, n := DelayDerivative(QCin, QC, 0.0, t), |QC| - 1;
    forall j | 0 <= j < n
      ensures (r[j] > 0.0 <==> QCin[n] * QCin[j] > QC[n] * QC[j])
      ensures (r[j] < 0.0 <==> QCin[n] * QCin[j] < QC[n] * QC[j])
    {
      SteadySignAt(QCin, QC, t, j);
    }
  }

  /** `DelaySteadySign` for one component. */
  lemma {:induction false} SteadySignAt(QCin: seq<real>, QC: seq<real>, t: real, j: nat)
    requires |QCin| == |QC| >= 1 && QC[|QC| - 1] > 0.0 && t > 0.0 && j < |QC| - 1
    ensures var r, n := DelayDerivative(QCin, QC, 0.0, t), |QC| - 1;
      (r[j] > 0.0 <==> QCin[n] * QCin[j] > QC[n] * QC[j]) &&
      (r[j] < 0.0 <==> QCin[n] * QCin[j] < QC[n] * QC[j])
  {
    var n := |QC| - 1;
    var qt := QC[n] * t;
    assert qt > 0.0;
    SteadyEntry(QCin, QC, t, j);
    QuotientSign(QCin[n] * QCin[j] - QC[n] * QC[j], qt);
  }

  /** Dividing by a positive number keeps the sign. */
  lemma {:induction false} QuotientSign(x: real, d: real)
    requires d > 0.0
    ensures x / d > 0.0 <==> x > 0.0
    ensures x / d < 0.0 <==> x < 0.0
  {
    assert x == (x / d) * d;
  }

  /** With a steady inflow equal to the node's flow, each concentration moves
      toward the inflow's at rate (C_in − C) / T: its error decays with time
      constant T. */
  lemma {:induction false} DelayApproachesInflow(QCin: seq<real>, QC: seq<real>, t: real)
    requires |QCin| == |QC| >= 1 && QC[|QC| - 1] != 0.0 && t > 0.0
    requires QCin[|QC| - 1] == QC[|QC| - 1]
    ensures forall j :: 0 <= j < |QC| - 1 ==>
              var r := DelayDerivative(QCin, QC, 0.0, t);
              r[j] == (QCin[j] - QC[j]) / t && r[j] * (QC[j] - QCin[j]) <= 0.0 &&
              (r[j] == 0.0 <==> QC[j] == QCin[j])
  {
    forall j | 0 <= j < |QC| - 1
      ensures var r := DelayDerivative(QCin, QC, 0.0, t);
        r[j] == (QCin[j] - QC[j]) / t && r[j] * (QC[j] - QCin[j]) <= 0.0 && (r[j] == 0.0 <==> QC[j] == QCin[j])
    {
      ApproachAt(QCin, QC, t, j);
    }
  }

  /** `DelayApproachesInflow` for one component. */
  lemma {:induction false} ApproachAt(QCin: seq<real>, QC: seq<real>, t: real, j: nat)
    requires |QCin| == |QC| >= 1 && QC[|QC| - 1] != 0.0 && t > 0.0
    requires QCin[|QC| - 1] == QC[|QC| - 1] && j < |QC| - 1
    ensures var r := DelayDerivative(QCin, QC, 0.0, t);
      r[j] == (QCin[j] - QC[j]) / t && r[j] * (QC[j] - QCin[j]) <= 0.0 && (r[j] == 0.0 <==> QC[j] == QCin[j])
  {
    var n := |QC| - 1;
    var q, cin, c := QC[n], QCin[j], QC[j];
    SteadyEntry(QCin, QC, t, j);
    RelaxationRate(QCin[n], q, cin, c, t);
  }

  /** Entry `j` of the steady-inflow derivative. */
  lemma {:induction false} SteadyEntry(QCin: seq<real>, QC: seq<real>, t: real, j: nat)
    requires |QCin| == |QC| >= 1 && QC[|QC| - 1] != 0.0 && t != 0.0 && j < |QC| - 1
    ensures DelayDerivative(QCin, QC, 0.0, t)[j]
         == (QCin[|QC| - 1] * QCin[j] - QC[|QC| - 1] * QC[j]) / (QC[|QC| - 1] * t)
  {
  }

  /** Entry `j` of the derivative while the inflow changes. */
  lemma {:induction false} MovingEntry(QCin: seq<real>, QC: seq<real>, dQin: real, t: real, j: nat)
    requires |QCin| == |QC| >= 1 && QC[|QC| - 1] != 0.0 && t != 0.0 && j < |QC| - 1 && dQin != 0.0
    ensures DelayDerivative(QCin, QC, dQin, t)[j] == QCin[|QC| - 1] / QC[|QC| - 1] * (QCin[j] - QC[j]) / t
  {
  }

  /** With matched flows the two branches' formulas for one component agree. */
  lemma {:induction false} BranchesAgreeAt(qin: real, q: real, cin: real, c: real, t: real)
    requires qin == q && q != 0.0 && t != 0.0
    ensures qin / q * (cin - c) / t == (qin * cin - q * c) / (q * t)
  {
    assert qin / q == 1.0;
    assert qin * cin - q * c == q * (cin - c);
  }

  /** One concentration under a steady, matched flow q: its rate is
      (c_in − c) / t, of the opposite sign to its error c − c_in. */
  lemma {:induction false} RelaxationRate(qin: real, q: real, cin: real, c: real, t: real)
    requires qin == q && q != 0.0 && t > 0.0
    ensures (qin * cin - q * c) / (q * t) == (cin - c) / t
    ensures ((cin - c) / t) * (c - cin) <= 0.0
    ensures (cin - c) / t == 0.0 <==> c == cin
  {
    var e := cin - c;
    assert qin * cin - q * c == q * e;
    assert (q * e) / (q * t) == e / t;
    QuotientSign(e, t);
    assert (e / t) * (c - cin) == -((e * e) / t);
    QuotientSign(e * e, t);
  }

  /** When the node's flow equals the inflow the two branches give the same
      derivative: the switch on dQ_in only matters while the flows differ. */
  lemma {:induction false} DelayBranchesAgree(QCin: seq<real>, QC: seq<real>, dQin: real, t: real)
    requires |QCin| == |QC| >= 1 && QC[|QC| - 1] != 0.0 && t != 0.0
    requires QCin[|QC| - 1] == QC[|QC| - 1]
    ensures DelayDerivative(QCin, QC, dQin, t) == DelayDerivative(QCin, QC, 0.0, t)
  {
    var a, b := DelayDerivative(QCin, QC, dQin, t), DelayDerivative(QCin, QC, 0.0, t);
    forall j | 0 <= j < |QC| ensures a[j] == b[j] {
      BranchesAgreeEntry(QCin, QC, dQin, t, j);
    }
  }

  /** `DelayBranchesAgree` for one entry. */
  lemma {:induction false} BranchesAgreeEntry(QCin: seq<real>, QC: seq<real>, dQin: real, t: real, j: nat)
    requires |QCin| == |QC| >= 1 && QC[|QC| - 1] != 0.0 && t != 0.0
    requires QCin[|QC| - 1] == QC[|QC| - 1] && j < |QC|
    ensures DelayDerivative(QCin, QC, dQin, t)[j] == DelayDerivative(QCin, QC, 0.0, t)[j]
  {
    var n := |QC| - 1;
    if dQin == 0.0 {
    } else if j == n {
      FlowEntries(QCin, QC, dQin, t);
    } else {
      MovingEntry(QCin, QC, dQin, t, j);
      SteadyEntry(QCin, QC, t, j);
      BranchesAgreeAt(QCin[n], QC[n], QCin[j], QC[j], t);
    }
  }

  /** The flow entry of the derivative in either branch, with matched flows:
      zero. */
  lemma {:induction false} FlowEntries(QCin: seq<real>, QC: seq<real>, dQin: real, t: real)
    requires |QCin| == |QC| >= 1 && QC[|QC| - 1] != 0.0 && t != 0.0 && dQin != 0.0
    requires QCin[|QC| - 1] == QC[|QC| - 1]
    ensures DelayDerivative(QCin, QC, dQin, t)[|QC| - 1] == 0.0
    ensures DelayDerivative(QCin, QC, 0.0, t)[|QC| - 1] == 0.0
  {
    var n := |QC| - 1;
    assert DelayDerivative(QCin, QC, dQin, t)[n] == (QCin[n] - QC[n]) / t;
    assert QCin[n] - QC[n] == 0.0;
  }

  /** While the inflow changes, a positive flow relaxes toward the inflow:
      dQ is positive exactly when Q_in > Q. */
  lemma {:induction false} DelayFlowRelaxes(QCin: seq<real>, QC: seq<real>, dQin: real, t: real)
    requires |QCin| == |QC| >= 1 && QC[|QC| - 1] > 0.0 && t > 0.0 && dQin != 0.0
    ensures DelayDerivative(QCin, QC, dQin, t)[|QC| - 1] > 0.0 <==> QCin[|QC| - 1] > QC[|QC| - 1]
    ensures DelayDerivative(QCin, QC, dQin, t)[|QC| - 1] < 0.0 <==> QCin[|QC| - 1] < QC[|QC| - 1]
  {
    var n := |QC| - 1;
    QuotientSign(QCin[n] - QC[n], t);
  }

  /** A HydraulicDelay unit: a Pump (whose state, setters and updates it
      uses) with time constant `tDelay` and optional initial concentrations. */
  class HydraulicDelay {
    const pump: Pump
    var tDelay: real
    var concs: Option<seq<real>>

    constructor (ids: seq<string>, out: Stream, tDelay: real)
      ensures fresh(pump) && pump.ids == ids && pump.out == out
      ensures pump.state == None && pump.dstate == [] && pump.ode == None
      ensures this.tDelay == tDelay && concs == None
    {
      pump := new Pump(ids, out);
      this.tDelay := tDelay;
      concs := None;
    }

    /** `set_init_conc`: a zero vector with the named components set; an
        unknown name raises before anything is stored. */
    method SetInitConc(kwargs: seq<(string, real)>) returns (r: Outcome)
      modifies this`concs
      ensures r.Pass? <==> forall k :: 0 <= k < |kwargs| ==> kwargs[k].0 in pump.ids
      ensures r.Pass? ==> concs == Some(InitConcs(pump.ids, kwargs))
      ensures r.Fail? ==> concs == old(concs)
      ensures r.Fail? ==> r.error.UnknownComponent? && r.error.id !in pump.ids
      ensures r.Fail? ==>
        exists k :: 0 <= k < |kwargs| && kwargs[k].0 == r.error.id && (forall m :: 0 <= m < k ==> kwargs[m].0 in pump.ids)
    {
      var ids := pump.ids;
      var cs := new real[|ids|](_ => 0.0);
      var k := 0;
      while k < |kwargs|
        invariant 0 <= k <= |kwargs|
        invariant forall m :: 0 <= m < k ==> kwargs[m].0 in ids
        invariant cs[..] == InitConcs(ids, kwargs[..k])
        invariant concs == old(concs)
      {
        var (name, v) := kwargs[k];
        if name !in ids {
          return Fail(UnknownComponent(name));
        }
        assert kwargs[..k + 1][..k] == kwargs[..k];
        cs[IndexOf(ids, name)] := v;
        k := k + 1;
      }
      assert kwargs[..k] == kwargs;
      concs := Some(cs[..]);
      r := Pass;
    }

    /** `_init_state`: input 0's row, its concentrations replaced by the
        initial ones when those were set; the flow is always the input's. */
    method InitState(QCs: seq<seq<real>>)
      requires |QCs| >= 1
      requires concs.Some? ==> |QCs[0]| == |concs.value| + 1
      modifies pump`state
      ensures concs.None? ==> pump.state == Some(QCs[0])
      ensures concs.Some? ==> pump.state == Some(concs.value + [QCs[0][|QCs[0]| - 1]])
    {
      var row := QCs[0];
      if concs.Some? {
        row := concs.value + [row[|row| - 1]];
      }
      pump.state := Some(row);
    }

    /** The `ODE` property (the Pump's getter, calling this unit's compiler). */
    method Ode() returns (f: CompiledOde)
      modifies pump`ode
      ensures pump.ode == Some(f)
      ensures old(pump.ode).Some? ==> f == old(pump.ode).value
      ensures old(pump.ode).None? ==> f == FirstOrderLag(tDelay)
    {
      if pump.ode.None? {
        CompileOde();
      }
      f := pump.ode.value;
    }

    /** `_compile_ODE`: the closure captures the current time constant. */
    method CompileOde()
      modifies pump`ode
      ensures pump.ode == Some(FirstOrderLag(tDelay))
    {
      pump.ode := Some(FirstOrderLag(tDelay));
    }

    /** The compiled `dy_dt`: the delay derivative is written into the
        node's allocated derivative vector in place, then passed on. */
    method DyDt(f: CompiledOde, time: real, QCins: seq<seq<real>>, QC: seq<real>, dQCins: seq<seq<real>>)
      requires f.FirstOrderLag? && f.t != 0.0
      requires |QCins| >= 1 && |dQCins| >= 1 && |QC| >= 1 && QC[|QC| - 1] != 0.0
      requires |QCins[0]| == |QC| && |dQCins[0]| == |QC| && |pump.dstate| == |QC|
      modifies pump`dstate, pump.out`dstate
      ensures pump.dstate == DelayDerivative(QCins[0], QC, dQCins[0][|QC| - 1], f.t)
      ensures pump.out.dstate == Some(pump.dstate)
    {
      var n := |QC| - 1;
      var d := DelayDerivative(QCins[0], QC, dQCins[0][n], f.t);
      var dQC := pump.dstate;
      dQC := dQC[n := d[n]];
      dQC := d[..n] + [dQC[n]];
      pump.dstate := dQC;
      pump.UpdateDstate();
    }
  }
}
