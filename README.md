# QSDsan abstract and pumping units, modelled in Dafny

This project models the dynamic-simulation core of QSDsan's simple unit
operations. These units sit between process tanks in a wastewater treatment
plant model. Each unit keeps a state vector `[C_1, …, C_n, Q]`: one
concentration per component (mg/L) followed by the total flow rate (m³/d).
It can also cache a compiled derivative function (`ODE`) that writes the
rates of change `dstate` into its output streams.

- **Mixer** (`Mixing.Mixer`): several inlets are combined by
  flow-weighting. The total flow is the sum of the inlet flows. Each
  concentration is `Σ Q_i·C_ij / Σ Q_i`. The derivative follows from the
  product and quotient rules.
- **Splitter** (`Splitting.Splitter`): one inlet is divided between two
  outlets by a per-component split vector `s`. The split of water sets the
  flows. The outlets' states are the node state multiplied element-wise by
  `[s/s_H2O, s_H2O]` and `[(1−s)/(1−s_H2O), 1−s_H2O]`.
- **ComponentSplitter** (`ComponentSplitting`): a steady-state unit. It
  mixes all inlets into the last outlet. Then it moves each component named
  in `split_keys[k]` wholly into outlet `k`. It refuses a non-iterable key,
  an unknown component and a component named twice.
- **Pump** (`Pumping.Pump`): passes its inlet's state and derivative
  through unchanged.
- **HydraulicDelay** (`Pumping.HydraulicDelay`): a Pump whose derivative is
  a first-order lag with time constant `t_delay`, as in Benchmark
  Simulation Model No. 1. It can be given initial concentrations.
- **WWTpump's `pump_type`** (`PumpTypes`): the name is lower-cased, then
  "cstr" and "af" are restored to upper case. Only the eight valid pump
  types are accepted.

How the model is built:

- Numbers are `real`.
- State vectors are `seq<real>` fields that the methods reassign.
- Streams are objects (`Streams.Stream`) that the units write into.
- A compiled ODE closure is modelled by the values it captures
  (`Streams.CompiledOde`). `dy_dt` is a method that takes that value.
- Raised errors are `Outcome`/`Result` values (`Wrappers`).

## Model

| member | source | states |
|---|---|---|
| Streams.StateDict | qsdsan/sanunits/_abstract.py:50-55 | the `state` view is absent exactly when the state vector is unset |
| Streams.StateDictLabels | qsdsan/sanunits/_abstract.py:50-55 | a set state reads back with every component ID mapped to its own concentration and 'Q' to the flow |
| Streams.ZipDictLookup | qsdsan/sanunits/_abstract.py:54 | `dict(zip(keys, values))` with distinct keys of equal count holds exactly those keys, each with the value at its position |
| Streams.IndexOf | qsdsan/sanunits/_pumping.py:147-148 | `components.index` returns the first position holding the ID |
| Mixing.Mixer.ResetCache | qsdsan/sanunits/_abstract.py:44-48 | the state is forgotten and the output stream is emptied |
| Mixing.Mixer.State | qsdsan/sanunits/_abstract.py:50-55 | None exactly when no state is set |
| Mixing.MixState | qsdsan/sanunits/_abstract.py:57-66 | the initial state has n+1 entries; a single inlet's row is taken as it is |
| Mixing.MixStateConservesMass | qsdsan/sanunits/_abstract.py:57-66 | the mixed flow is the sum of the inlet flows, and mixed flow × mixed concentration equals Σ Q_i·C_ij, so no component mass is lost or created |
| Mixing.MixTwoStreamsExample | qsdsan/sanunits/_abstract.py:57-66 | two inlets (Q 10 and 5) mix to concentrations 200/3 and 200/3 at flow 15 |
| Mixing.Mixer.InitState | qsdsan/sanunits/_abstract.py:57-67 | the state becomes the mixed state of the inlets; the derivative becomes zeros of the same length |
| Mixing.Mixer.UpdateState | qsdsan/sanunits/_abstract.py:69-71 | the node and its output hold the same vector |
| Mixing.Mixer.UpdateDstate | qsdsan/sanunits/_abstract.py:73-75 | the output's derivative is the node's |
| Mixing.Mixer.Ode | qsdsan/sanunits/_abstract.py:92-96 | the ODE is compiled on first access only; later accesses return the cached one |
| Mixing.Mixer.CompileOde | qsdsan/sanunits/_abstract.py:98-120 | the closure captures the number of inlets |
| Mixing.Mixer.DyDt | qsdsan/sanunits/_abstract.py:100-119 | with several inlets the derivative is the mixing derivative; with one inlet it is that inlet's derivative; the output then receives it |
| Mixing.MixDerivative | qsdsan/sanunits/_abstract.py:104-113 | one rate per concentration plus the flow; the flow's rate is the sum of the inlet flow rates. What the concentration rates mean is proved in MixDerivativeProductRule |
| Mixing.MassRateSplits | qsdsan/sanunits/_abstract.py:111-113 | the rate of change of Σ Q_i·C_ij is Σ dQ_i·C_ij + Σ Q_i·dC_ij |
| Mixing.MixDerivativeProductRule | qsdsan/sanunits/_abstract.py:108-115 | dQ is the sum of the inlet flow rates, and Q·dC_j + dQ·C_j equals the rate of change of the inlets' total mass of j (the product rule for the mixed mass) |
| Mixing.ProductRuleAt | qsdsan/sanunits/_abstract.py:112-113 | the product rule for one component |
| Splitting.Splitter.constructor | qsdsan/sanunits/_abstract.py:144-149 | the unit starts with its split vector, no state, no compiled ODE and two distinct outputs |
| Splitting.Splitter.ResetCache | qsdsan/sanunits/_abstract.py:152-156 | the state is forgotten and both outputs are emptied |
| Splitting.Splitter.State | qsdsan/sanunits/_abstract.py:159-164 | None exactly when no state is set |
| Splitting.Splitter.SetState | qsdsan/sanunits/_abstract.py:166-172 | a vector is accepted exactly when its length is the component count + 1; otherwise it raises a shape error and the state is unchanged |
| Splitting.Splitter.InitState | qsdsan/sanunits/_abstract.py:175-181 | the state is inlet 0's row with a zero derivative; the two scale vectors are built from the split normalised by the water split |
| Splitting.Splitter.RefSplit | qsdsan/sanunits/_abstract.py:179 | s_flow is the split of the first component whose ID is 'H2O' |
| Splitting.Scale0 | qsdsan/sanunits/_abstract.py:180 | branch 0's scale vector has one entry per component plus the flow |
| Splitting.Scale1 | qsdsan/sanunits/_abstract.py:181 | branch 1's scale vector has one entry per component plus the flow |
| Splitting.BranchMasses | qsdsan/sanunits/_abstract.py:180-181 | per component, branch 0 carries s_j·Q·C_j and branch 1 carries (1−s_j)·Q·C_j |
| Splitting.SplitConservesMass | qsdsan/sanunits/_abstract.py:180-187 | the outlet flows are s_H2O·Q and (1−s_H2O)·Q and add up to Q; each component's outlet masses are s_j and 1−s_j of Q·C_j and add up to it |
| Splitting.SplitConservesMassRate | qsdsan/sanunits/_abstract.py:189-193 | scaling the derivative the same way keeps the total mass rate dQ·C_j + Q·dC_j over both outlets |
| Splitting.ReferenceConcentrationKept | qsdsan/sanunits/_abstract.py:178-181 | a component that splits like water keeps the inlet concentration in both outlets |
| Splitting.Splitter.UpdateState | qsdsan/sanunits/_abstract.py:183-187 | the node takes the vector; each output takes it scaled by its branch's scale vector |
| Splitting.Splitter.UpdateDstate | qsdsan/sanunits/_abstract.py:189-193 | each output's derivative is the node's derivative scaled by its branch's vector |
| Splitting.Splitter.Ode | qsdsan/sanunits/_abstract.py:212-216 | compiled on first access only |
| Splitting.Splitter.CompileOde | qsdsan/sanunits/_abstract.py:218-222 | the closure is the pass-through |
| Splitting.Splitter.DyDt | qsdsan/sanunits/_abstract.py:219-221 | the node's derivative is inlet 0's, and the outputs receive it split |
| ComponentSplitting.OutsCount | qsdsan/sanunits/_abstract.py:282-288 | empty keys are refused; otherwise there is one outlet per key group plus the remainder outlet, so at least two |
| ComponentSplitting.NewComponentSplitter | qsdsan/sanunits/_abstract.py:280-291 | construction fails exactly when the keys are empty; otherwise the unit has one output per group plus one, and stores the keys |
| ComponentSplitting.ComponentSplitter.constructor | qsdsan/sanunits/_abstract.py:280-291 | fresh, distinct, empty outputs, one per group plus one, and the keys stored |
| ComponentSplitting.MovesOf | qsdsan/sanunits/_abstract.py:305-312 | a string key is one component; a group is its members in order; anything else is flagged as not iterable |
| ComponentSplitting.Moves | qsdsan/sanunits/_abstract.py:304-312 | every transfer targets one of the key outlets, never the remainder outlet |
| ComponentSplitting.MoveMass | qsdsan/sanunits/_abstract.py:313-314 | outlet `num` takes the last outlet's mass of the component, the last outlet's mass of it becomes 0, and nothing else changes |
| ComponentSplitting.MixFrom | qsdsan/sanunits/_abstract.py:300-301 | the last outlet's mass is the column sum of the inlets |
| ComponentSplitting.Step | qsdsan/sanunits/_abstract.py:305-317 | one pass of the inner loop keeps the mass table's shape, and once an error is raised it changes nothing |
| ComponentSplitting.Route | qsdsan/sanunits/_abstract.py:304-317 | the moves in order keep the mass table's shape; what they compute is proved in RoutePassesExactly and RouteMasses |
| ComponentSplitting.GroupsAsWritten | qsdsan/sanunits/_abstract.py:304 | the groups `_run` walks as written: the stored entries, or for a string stored at line 291 one group per character |
| ComponentSplitting.RoutePassesExactly | qsdsan/sanunits/_abstract.py:299-317 | `_run` completes exactly when every key is iterable, every named component exists and none is named twice; then the list of split components is the transfers in order |
| ComponentSplitting.RouteAfterFailure | qsdsan/sanunits/_abstract.py:309-316 | once `_run` has raised, the later keys change nothing |
| ComponentSplitting.RouteMasses | qsdsan/sanunits/_abstract.py:299-317 | on success, each entry equals the reference `RoutedMass`: a transferred component's remainder amount is in its target outlet and zero in the remainder outlet; every other entry, including a key outlet's earlier mass of components not sent to it, is as it was |
| ComponentSplitting.RouteConservesMass | qsdsan/sanunits/_abstract.py:312-314 | when every transfer targets a key outlet and no key outlet except j's target holds any of component j (the target's earlier amount is overwritten), routing keeps j's total over all outlets |
| ComponentSplitting.RunConservesMass | qsdsan/sanunits/_abstract.py:299-317 | after a successful `_run`, the outlets together carry component j's total inlet mass, provided no key outlet other than j's target holds any of j beforehand; this covers repeated runs, where only the target keeps its earlier amount, which line 313 overwrites |
| ComponentSplitting.RoutingExample | qsdsan/sanunits/_abstract.py:299-317 | keys [("A",), ("B","C")] route masses 10, 5, 3 to [[10,0,0],[0,5,3],[0,0,0]] |
| ComponentSplitting.DuplicateExample | qsdsan/sanunits/_abstract.py:312-316 | keys [("A",), ("A","B")] raise on "A" after its mass has already moved |
| ComponentSplitting.FailureIsFinal | qsdsan/sanunits/_abstract.py:309-316 | a failure part-way through the keys is the result of the whole run |
| ComponentSplitting.ComponentSplitter.MoveComponent | qsdsan/sanunits/_abstract.py:313-314 | the outlets' masses become the moved masses |
| ComponentSplitting.ComponentSplitter.RouteEntry | qsdsan/sanunits/_abstract.py:305-317 | one key's loop leaves the outlets and the split list as one routing step of its moves does |
| ComponentSplitting.ComponentSplitter.Run | qsdsan/sanunits/_abstract.py:299-317 | the outlets' masses and the outcome are the routing of the mixed inlets by the stored keys, a stored string being one group (the corrected reading) |
| ComponentSplitting.SetterCheck | qsdsan/sanunits/_abstract.py:336-344 | the corrected check (see "## Findings"): new keys are accepted exactly when their group count plus the remainder outlet equals the number of outlets; otherwise a size error |
| ComponentSplitting.SetterCheckAsWritten | qsdsan/sanunits/_abstract.py:341-342 | the check as written: new keys are accepted exactly when their group count equals the number of outlets; otherwise a size error naming both |
| ComponentSplitting.ComponentSplitter.SetSplitKeys | qsdsan/sanunits/_abstract.py:336-344 | accepted keys are stored (a string wrapped as a one-element tuple); refused keys leave the old ones |
| ComponentSplitting.SetterAsWrittenRefusesSameSize | qsdsan/sanunits/_abstract.py:341-342 | the setter as written refuses keys that keep the number of outlets |
| ComponentSplitting.SetterAsWrittenLosesMass | qsdsan/sanunits/_abstract.py:341 | the setter as written accepts keys that route a component's mass to no outlet |
| ComponentSplitting.StringKeysAsWrittenMismatch | qsdsan/sanunits/_abstract.py:285-291 | a string key of length ≥ 2 is iterated as more groups than the outlets made for it |
| ComponentSplitting.StringKeysAsWrittenFails | qsdsan/sanunits/_abstract.py:285-291 | `split_keys="NH4"` as written raises on the unknown component "N" |
| ComponentSplitting.StringKeysAsOneGroup | qsdsan/sanunits/_abstract.py:285-288 | read as one group, `split_keys="NH4"` routes NH4 to outlet 0 and the rest to outlet 1 |
| Pumping.Pump.constructor | qsdsan/sanunits/_pumping.py:42-48 | the unit starts with no state, no derivative and no compiled ODE |
| Pumping.Pump.ResetCache | qsdsan/sanunits/_pumping.py:55-59 | the state is forgotten and the output is emptied |
| Pumping.Pump.State | qsdsan/sanunits/_pumping.py:61-66 | None exactly when no state is set |
| Pumping.Pump.SetState | qsdsan/sanunits/_pumping.py:68-74 | a vector is accepted exactly when its length is the component count + 1; otherwise it raises a shape error and the state is unchanged |
| Pumping.Pump.InitState | qsdsan/sanunits/_pumping.py:76-78 | the state is inlet 0's row; the derivative is zeros of its length |
| Pumping.Pump.UpdateState | qsdsan/sanunits/_pumping.py:80-82 | the node and its output hold the same vector |
| Pumping.Pump.UpdateDstate | qsdsan/sanunits/_pumping.py:84-86 | the output's derivative is the node's |
| Pumping.Pump.Ode | qsdsan/sanunits/_pumping.py:103-107 | compiled on first access only |
| Pumping.Pump.CompileOde | qsdsan/sanunits/_pumping.py:109-113 | the closure is the pass-through |
| Pumping.Pump.DyDt | qsdsan/sanunits/_pumping.py:110-112 | the derivative is inlet 0's, passed on to the output |
| Pumping.HydraulicDelay.constructor | qsdsan/sanunits/_pumping.py:135-141 | the unit stores its time constant and starts with no initial concentrations |
| Pumping.HydraulicDelay.SetInitConc | qsdsan/sanunits/_pumping.py:144-149 | the named concentrations are stored in a zero vector when every name is a component; otherwise it raises on the first unknown name in the order given and stores nothing |
| Pumping.InitConcs | qsdsan/sanunits/_pumping.py:146-148 | one concentration per component, and the last name given holds its value; the other names are covered by InitConcsNamed |
| Pumping.InitConcsNamed | qsdsan/sanunits/_pumping.py:144-149 | each named component holds its given value, and every component not named is zero |
| Pumping.HydraulicDelay.InitState | qsdsan/sanunits/_pumping.py:151-157 | the state is inlet 0's row, with its concentrations replaced by the initial ones when set; the flow is always the inlet's |
| Pumping.HydraulicDelay.Ode | qsdsan/sanunits/_pumping.py:103-107 | compiled on first access only, using the delay's compiler |
| Pumping.HydraulicDelay.CompileOde | qsdsan/sanunits/_pumping.py:164-179 | the closure captures the current time constant |
| Pumping.HydraulicDelay.DyDt | qsdsan/sanunits/_pumping.py:166-178 | the node's derivative is the delay derivative, which is passed on to the output |
| Pumping.DelayDerivative | qsdsan/sanunits/_pumping.py:168-177 | one rate per state entry; the flow's rate is 0 with a steady inflow and (Q_in − Q)/T while the inflow changes. The concentration rates are characterised by the lemmas below |
| Pumping.DelayEquilibrium | qsdsan/sanunits/_pumping.py:172-177 | when the node equals its inlet, the derivative is zero in both branches |
| Pumping.DelaySteadySign | qsdsan/sanunits/_pumping.py:172-174 | with steady inflow the flow is constant, and each concentration rises exactly when the inlet's mass flow Q_in·C_in exceeds the node's Q·C |
| Pumping.DelayApproachesInflow | qsdsan/sanunits/_pumping.py:172-174 | with steady, matched flow each concentration moves toward the inlet's at rate (C_in−C)/T, and is stationary only when equal to it |
| Pumping.RelaxationRate | qsdsan/sanunits/_pumping.py:174 | one concentration's rate under matched flow is (C_in−C)/T, opposite in sign to its error |
| Pumping.DelayBranchesAgree | qsdsan/sanunits/_pumping.py:172-177 | when the node's flow equals the inflow, both branches give the same derivative |
| Pumping.DelayFlowRelaxes | qsdsan/sanunits/_pumping.py:175-176 | while the inflow changes, the flow rises exactly when Q_in > Q and falls exactly when Q_in < Q |
| PumpTypes.ValidTypesAreFixedPoints | qsdsan/sanunits/_pumping.py:237-246 | each of the eight valid types is left unchanged by the setter's normalisation, so each can be set by its own name |
| PumpTypes.Normalize | qsdsan/sanunits/_pumping.py:623-625 | the normalisation only changes letter case |
| PumpTypes.LowerReplaceAll | qsdsan/sanunits/_pumping.py:624-625 | replacing a pattern by a text with the same lower case keeps the lower case |
| PumpTypes.CheckPumpType | qsdsan/sanunits/_pumping.py:621-629 | a name is accepted exactly when it equals a valid type up to letter case; it is then stored as that valid type; otherwise the error names the given input |
| PumpTypes.WWTpump.SetPumpType | qsdsan/sanunits/_pumping.py:621-629 | an accepted name is stored as its valid type; a refused one raises and keeps the old type |

## Left out

- **Design and costing:** the Pump's design parameters (`P`, `pump_type`, `material`, `dP_design`, `ignore_NPSH`), WWTpump's `__init__`, design and costing (pipe and pump sizing, materials, NPSH) and every unit's `_design`/`_cost`. These are floating-point engineering correlations, not the dynamic or routing logic.
- **Steady-state output definitions:** `_define_outs` of Mixer, Splitter and Pump, the Splitter's steady-state `_run` (inherited from the process-modelling base library) and HydraulicDelay's `_run` (`copy_like`). They call into stream classes that are not part of this model.
- **Integrator and closures:** the integrator that calls `dy_dt`, and the closure objects themselves. A compiled ODE is modelled by the values it captures.
- **Split-vector parsing:** `FakeSplitter`, `ReversedSplitter` and the chemicals' `isplit` parsing of the split specification. The Splitter takes an already-resolved split vector.
- **Floating point:** numbers are reals, so rounding, NaN and infinities are not modelled.
- **numpy aliasing:** the source shares numpy arrays between a unit and its outputs (`self._state = self._outs[0]._state = arr`) and updates `_dstate` in place. The model copies values. Sharing is observable only through later in-place writes, which the model expresses by writing both places explicitly.
- **Shapes:** the state setters' numpy shape check is modelled on 1-D vectors. A 2-D input of the right length is refused in the source and cannot be expressed here.
- **Letter case:** `str.lower()` is modelled on ASCII letters. Non-ASCII case mapping is not modelled.
- **Stream.Empty:** this is the model's reading of `empty()`: no mass, no dynamic state. The Stream class is not part of this model.
- Mixing.Mixer.InitState: requires the inlets' total flow to be nonzero when there are several inlets. The source divides by it and would produce NaN/inf.
- Mixing.Mixer.DyDt: with several inlets, requires a nonzero total inlet flow and a derivative vector of length n+1. The source divides by the flow (qsdsan/sanunits/_abstract.py:112) and writes into `_dstate` without checking its length.
- Splitting.Splitter.InitState: requires 'H2O' among the components and a water split other than 0 and 1. The source raises or divides by zero otherwise.
- Pumping.HydraulicDelay.DyDt: requires a nonzero flow and time constant. The source divides by both. It also requires the derivative vector to be allocated, which the source relies on without checking.
- ComponentSplitting.ComponentSplitter.Run: a stored string `split_keys` is routed as one group, the corrected reading of the second "## Findings" row. `_run` as written (qsdsan/sanunits/_abstract.py:304) walks the string one character at a time, character k going to outlet k. It raises on the first character that is not a component. If the first two characters are components, the second is moved onto the remainder outlet itself and zeroed, so its mass is lost without an error (`"AB"` over components A and B). A third character that is a component indexes past the two outlets, an `IndexError` at line 313. That behaviour is modelled only by `GroupsAsWritten` and `StringKeysAsWrittenFails`.
- **Error kinds:** Python's distinction between `KeyError`, `IndexError` and `ValueError` is collapsed into the model's error values. An unknown component in `set_init_conc` and in `_run` is `UnknownComponent`; an outlet index beyond the outputs is `NoSuchOutlet`.

## Findings

| source | as written | input that shows it | evidently intended | confidence | as-written member | corrected member |
|---|---|---|---|---|---|---|
| qsdsan/sanunits/_abstract.py:341 | the `split_keys` setter compares `len(i)` with `len(self.outs)`, but the unit has one more outlet than key groups | components A, B; two outlets made from keys ("A",); new keys [("A",), ("B",)] pass the check; B is then moved onto the remainder outlet itself and zeroed, so its mass reaches no outlet | compare `len(i) + 1` with the number of outlets, as `__init__` sizes them | not executed | ComponentSplitting.SetterAsWrittenLosesMass | ComponentSplitting.ComponentSplitter.SetSplitKeys |
| qsdsan/sanunits/_abstract.py:285-291 | a string `split_keys` makes two outlets but is stored as the string, so `_run` iterates it character by character | `split_keys="NH4"` with components NH4 and H2O: `_run` looks up component "N" and raises | treat the string as one group, as the setter does by wrapping it in a tuple | not executed | ComponentSplitting.StringKeysAsWrittenFails | ComponentSplitting.StringKeysAsOneGroup |
