/** ComponentSplitter: every listed component goes in full to the output of
    its group, and the last output keeps whatever is not listed.

    The routing `_run` performs is specified on values: `split_keys` is
    flattened into a sequence of moves (output index, component ID), and
    `Route` folds `Step` over them. The unit's `Run` method performs the same
    moves on its output streams and is proved to reach `Route`'s result. */
module ComponentSplitting {
  import opened Wrappers
  import opened Vectors
  import opened Streams

  /** One entry of `split_keys`: a component ID, a collection of IDs, or a
      value that is neither a string nor iterable. */
  datatype Key = Name(id: string) | Group(members: seq<string>) | Scalar

  /** `split_keys` as given: one string, or a sequence of entries. */
  datatype SplitKeys = Text(text: string) | Entries(entries: seq<Key>)

  /** `not split_keys`. */
  predicate IsEmpty(k: SplitKeys)
  {
    match k
    case Text(s) => s == []
    case Entries(e) => e == []
  }

  /** The groups `_run` walks: a single string is one group. */
  function Groups(k: SplitKeys): seq<Key>
  {
    match k
    case Text(s) => [Name(s)]
    case Entries(e) => e
  }

  /** The number of outputs `__init__` gives the unit, or its `ValueError`:
      one output per group and one for the remainder. */
  function OutsCount(k: SplitKeys): (r: Result<nat>)
    ensures r.Failure? <==> IsEmpty(k)
    ensures r.Failure? ==> r.error == EmptySplitKeys
    ensures r.Success? ==> r.value == |Groups(k)| + 1 && r.value >= 2
  {
    if IsEmpty(k) then Failure(EmptySplitKeys)
    else match k
      case Text(_) => Success(2)
      case Entries(e) => Success(|e| + 1)
  }

  /** The setter's wrapping of a string into a one-entry tuple. */
  function Wrap(i: SplitKeys): (r: SplitKeys)
    ensures r.Entries? && Groups(r) == Groups(i)
  {
    match i
    case Text(s) => Entries([Name(s)])
    case Entries(_) => i
  }

  /** The `split_keys` setter's check against `nOuts` outputs: the new keys
      must have exactly one group per non-remainder output. */
  function SetterCheck(i: SplitKeys, nOuts: nat): (r: Outcome)
    ensures r.Pass? <==> |Groups(i)| + 1 == nOuts
    ensures r.Fail? ==> r.error == SplitKeysResized(|Groups(i)|, nOuts)
  {
    var n := |Wrap(i).entries|;
    if n + 1 != nOuts then Fail(SplitKeysResized(n, nOuts)) else Pass
  }

  // ---------------------------------------------------------------------
  // The routing, on values

  /** One assignment of `_run`'s inner loop: component `cmp` to output
      `outlet`; or the entry that is not iterable. */
  datatype Move = Transfer(outlet: nat, cmp: string) | NotAKey

  /** The component IDs an iterable entry lists: a string is wrapped into a
      one-element tuple. */
  function Members(key: Key): seq<string>
    requires !key.Scalar?
  {
    match key
    case Name(c) => [c]
    case Group(ms) => ms
  }

  /** The moves for entry number `num`. */
  function MovesOf(num: nat, key: Key): (r: seq<Move>)
    ensures key.Scalar? ==> r == [NotAKey]
    ensures !key.Scalar? ==> |r| == |Members(key)|
    ensures !key.Scalar? ==> forall i :: 0 <= i < |r| ==> r[i] == Transfer(num, Members(key)[i])
  {
    if key.Scalar? then [NotAKey]
    else seq(|Members(key)|, j requires 0 <= j < |Members(key)| => Transfer(num, Members(key)[j]))
  }

  /** The moves of `_run`'s two loops, in order. */
  function Moves(keys: seq<Key>): (r: seq<Move>)
    ensures forall i :: 0 <= i < |r| && r[i].Transfer? ==> r[i].outlet < |keys|
    decreases |keys|
  {
    if keys == [] then []
    else Moves(keys[..|keys| - 1]) + MovesOf(|keys| - 1, keys[|keys| - 1])
  }

  /** Output masses (one row per output, the remainder output last), the
      `splitted` list, and whether a `ValueError` has been raised. */
  datatype Routing = Routing(masses: seq<seq<real>>, splitted: seq<string>, outcome: Outcome)

  /** A routing whose mass table has `nOuts >= 1` rows, one entry per component. */
  predicate Shaped(st: Routing, ids: seq<string>)
  {
    |st.masses| > 0 && IsMatrix(st.masses, |ids|)
  }

  /** One pass of the inner loop. The remainder output's mass of `cmp` is
      written into output `outlet` and then zeroed; only after that is a
      repeated component rejected. Nothing moves once an error is raised. */
  function Step(ids: seq<string>, st: Routing, m: Move): (r: Routing)
    requires Shaped(st, ids)
    ensures Shaped(r, ids) && |r.masses| == |st.masses|
    ensures st.outcome.Fail? ==> r == st
  {
    if st.outcome.Fail? then st
    else match m
      case NotAKey => st.(outcome := Fail(NotIterable))
      case Transfer(num, c) =>
        if c !in ids then st.(outcome := Fail(UnknownComponent(c)))
        else if num >= |st.masses| then st.(outcome := Fail(NoSuchOutlet(num)))
        else
          var ms := MoveMass(st.masses, num, IndexOf(ids, c));
          if c in st.splitted then Routing(ms, st.splitted, Fail(DuplicateComponent(c)))
          else Routing(ms, st.splitted + [c], Pass)
  }

  /** `outs[num].imass[cmp] = last.imass[cmp]; last.imass[cmp] = 0` on a
      mass table whose last row is the remainder output. */
  function MoveMass(ms: seq<seq<real>>, num: nat, j: nat): (r: seq<seq<real>>)
    requires num < |ms| && j < |ms[num]| && j < |ms[|ms| - 1]|
    ensures |r| == |ms| && forall o :: 0 <= o < |ms| ==> |r[o]| == |ms[o]|
    ensures forall o, k :: 0 <= o < |ms| && 0 <= k < |ms[o]| ==>
      r[o][k] == (if k != j then ms[o][k]
                  else if o == |ms| - 1 then 0.0
                  else if o == num then ms[|ms| - 1][j]
                  else ms[o][k])
  {
    var last := |ms| - 1;
    var moved := ms[num := ms[num][j := ms[last][j]]];
    moved[last := moved[last][j := 0.0]]
  }

  /** The moves performed in order from `st`. */
  function Route(ids: seq<string>, st: Routing, moves: seq<Move>): (r: Routing)
    requires Shaped(st, ids)
    ensures Shaped(r, ids) && |r.masses| == |st.masses|
    decreases |moves|
  {
    if moves == [] then st
    else Step(ids, Route(ids, st, moves[..|moves| - 1]), moves[|moves| - 1])
  }

  /** `mix_from`: the per-component sum of the inputs' masses. */
  function MixFrom(ins: seq<seq<real>>, n: nat): (r: seq<real>)
    requires IsMatrix(ins, n)
    ensures |r| == n && forall j :: 0 <= j < n ==> r[j] == ColumnSum(ins, j)
  {
    seq(n, j requires 0 <= j < n => ColumnSum(ins, j))
  }

  /** Mixing a single input gives that input's masses. */
  lemma {:induction false} MixFromSingle(x: seq<real>)
    ensures MixFrom([x], |x|) == x
  {
    forall j | 0 <= j < |x|
      ensures MixFrom([x], |x|)[j] == x[j]
    {
      assert [x][1..] == [];
      assert ColumnSum([x][1..], j) == 0.0;
    }
  }

  /** A transfer of a known component to an existing output moves its mass
      and then accepts or rejects it by the `splitted` list. */
  lemma {:induction false} StepTransfer(ids: seq<string>, st: Routing, num: nat, c: string)
    requires Shaped(st, ids) && st.outcome.Pass? && c in ids && num < |st.masses|
    ensures Step(ids, st, Transfer(num, c)).masses == MoveMass(st.masses, num, IndexOf(ids, c))
    ensures Step(ids, st, Transfer(num, c)).outcome
         == if c in st.splitted then Fail(DuplicateComponent(c)) else Pass
    ensures c !in st.splitted ==> Step(ids, st, Transfer(num, c)).splitted == st.splitted + [c]
  {
  }

  // ---------------------------------------------------------------------
  // What the routing computes

  /** Every move transfers a known component to an existing output, and no
      component is transferred twice or was already in `done`. */
  predicate Routable(ids: seq<string>, nOuts: nat, done: seq<string>, moves: seq<Move>)
  {
    forall i :: 0 <= i < |moves| ==>
      && moves[i].Transfer?
      && moves[i].cmp in ids
      && moves[i].outlet < nOuts
      && moves[i].cmp !in done
      && forall k :: 0 <= k < i ==> !(moves[k].Transfer? && moves[k].cmp == moves[i].cmp)
  }

  /** The components the moves transfer, in order. */
  function Transferred(moves: seq<Move>): (r: seq<string>)
    ensures |r| <= |moves|
    decreases |moves|
  {
    if moves == [] then []
    else
      var m := moves[|moves| - 1];
      Transferred(moves[..|moves| - 1]) + (if m.Transfer? then [m.cmp] else [])
  }

  /** The output the moves send component `c` to, if any (the last one). */
  function Target(moves: seq<Move>, c: string): (r: Option<nat>)
    ensures r.Some? ==> Transfer(r.value, c) in moves
    ensures r.None? ==> forall i :: 0 <= i < |moves| && moves[i].Transfer? ==> moves[i].cmp != c
    decreases |moves|
  {
    if moves == [] then None
    else
      var m := moves[|moves| - 1];
      if m.Transfer? && m.cmp == c then Some(m.outlet)
      else Target(moves[..|moves| - 1], c)
  }

  /** Reference for the mass of component `j` in output `o` after routing
      from table `m0`: a transferred component is found only in its target
      output, with the remainder output's original amount (nowhere, when the
      target is the remainder output itself); any other entry is as it was. */
  function RoutedMass(ids: seq<string>, m0: seq<seq<real>>, moves: seq<Move>, o: nat, j: nat): real
    requires o < |m0| && j < |ids| && IsMatrix(m0, |ids|)
  {
    var last := |m0| - 1;
    match Target(moves, ids[j])
    case None => m0[o][j]
    case Some(t) => if o == last then 0.0 else if o == t then m0[last][j] else m0[o][j]
  }

  /** Once an error is raised, later moves change nothing. */
  lemma {:induction false} RouteAfterFailure(ids: seq<string>, st: Routing, moves: seq<Move>, pre: seq<Move>)
    requires Shaped(st, ids) && pre <= moves
    requires Route(ids, st, pre).outcome.Fail?
    ensures Route(ids, st, moves) == Route(ids, st, pre)
    decreases |moves|
  {
    if |pre| < |moves| {
      RouteAfterFailure(ids, st, moves[..|moves| - 1], pre);
    } else {
      assert pre == moves;
    }
  }

  /** Routing one move is one `Step`. */
  lemma {:induction false} RouteSingle(ids: seq<string>, st: Routing, m: Move)
    requires Shaped(st, ids)
    ensures Route(ids, st, [m]) == Step(ids, st, m)
  {
    assert [m][..0] == [];
  }

  /** Routing a longer sequence starts with routing its prefix. */
  lemma {:induction false} RouteOneMore(ids: seq<string>, st: Routing, moves: seq<Move>, m: Move)
    requires Shaped(st, ids)
    ensures Route(ids, st, moves + [m]) == Step(ids, Route(ids, st, moves), m)
  {
    assert (moves + [m])[..|moves|] == moves;
  }

  /** The moves of a prefix of the entries are a prefix of all the moves. */
  lemma {:induction false} MovesPrefix(keys: seq<Key>, n: nat)
    requires n <= |keys|
    ensures Moves(keys[..n]) <= Moves(keys)
    decreases |keys| - n
  {
    if n < |keys| {
      var front := keys[..|keys| - 1];
      assert front[..n] == keys[..n];
      MovesPrefix(front, n);
    } else {
      assert keys[..n] == keys;
    }
  }

  /** The moves through entry `n` are those before it and then its own. */
  lemma {:induction false} MovesNext(keys: seq<Key>, n: nat)
    requires n < |keys|
    ensures Moves(keys[..n + 1]) == Moves(keys[..n]) + MovesOf(n, keys[n])
  {
    assert keys[..n + 1][..n] == keys[..n];
  }

  /** A sequence of moves is routable exactly when all but its last move
      are, and the last one transfers a known component, not yet
      transferred, to an existing output. */
  lemma {:induction false} RoutableLast(ids: seq<string>, n: nat, done: seq<string>, moves: seq<Move>)
    requires moves != []
    ensures var front, m := moves[..|moves| - 1], moves[|moves| - 1];
      Routable(ids, n, done, moves) <==>
        && Routable(ids, n, done, front)
        && m.Transfer? && m.cmp in ids && m.outlet < n
        && m.cmp !in done + Transferred(front)
  {
    var front, m := moves[..|moves| - 1], moves[|moves| - 1];
    assert forall i :: 0 <= i < |front| ==> front[i] == moves[i];
    if Routable(ids, n, done, moves) {
      if m.cmp in Transferred(front) {
        var t :| 0 <= t < |Transferred(front)| && Transferred(front)[t] == m.cmp;
        TransferredFrom(front, t);
      }
    } else if Routable(ids, n, done, front) && m.Transfer? && m.cmp in ids && m.outlet < n {
      if m.cmp !in done {
        var k :| 0 <= k < |front| && front[k].Transfer? && front[k].cmp == m.cmp;
        TransferredHas(front, k);
      }
    }
  }

  /** The routing raises nothing exactly when the moves are routable; it
      then appends every transferred component to `splitted`. */
  lemma {:induction false} RoutePassesExactly(ids: seq<string>, st: Routing, moves: seq<Move>)
    requires Shaped(st, ids) && st.outcome.Pass?
    ensures var r := Route(ids, st, moves);
      && (r.outcome.Pass? <==> Routable(ids, |st.masses|, st.splitted, moves))
      && (r.outcome.Pass? ==> r.splitted == st.splitted + Transferred(moves))
    decreases |moves|
  {
    if moves != [] {
      var front := moves[..|moves| - 1];
      RoutePassesExactly(ids, st, front);
      RoutableLast(ids, |st.masses|, st.splitted, moves);
    }
  }

  /** Each transferred component comes from a transfer among the moves. */
  lemma {:induction false} TransferredFrom(moves: seq<Move>, t: int)
    requires 0 <= t < |Transferred(moves)|
    ensures exists k :: 0 <= k < |moves| && moves[k].Transfer? && moves[k].cmp == Transferred(moves)[t]
    decreases |moves|
  {
    var front := moves[..|moves| - 1];
    if t < |Transferred(front)| {
      TransferredFrom(front, t);
      var k :| 0 <= k < |front| && front[k].Transfer? && front[k].cmp == Transferred(front)[t];
      assert moves[k] == front[k];
    } else {
      assert moves[|moves| - 1].cmp == Transferred(moves)[t];
    }
  }

  /** Each transfer among the moves shows up in the transferred components. */
  lemma {:induction false} TransferredHas(moves: seq<Move>, k: nat)
    requires k < |moves| && moves[k].Transfer?
    ensures moves[k].cmp in Transferred(moves)
    decreases |moves|
  {
    if k < |moves| - 1 {
      var front := moves[..|moves| - 1];
      assert front[k] == moves[k];
      TransferredHas(front, k);
    }
  }

  /** A component not yet transferred has no target. */
  lemma {:induction false} TargetOfFresh(moves: seq<Move>, c: string)
    requires c !in Transferred(moves)
    ensures Target(moves, c).None?
  {
    if Target(moves, c).Some? {
      var k :| 0 <= k < |moves| && moves[k] == Transfer(Target(moves, c).value, c);
      TransferredHas(moves, k);
    }
  }

  /** Routable moves leave every mass as `RoutedMass` says. */
  lemma {:induction false} RouteMasses(ids: seq<string>, st: Routing, moves: seq<Move>)
    requires Shaped(st, ids) && st.outcome.Pass? && Distinct(ids)
    requires Routable(ids, |st.masses|, st.splitted, moves)
    ensures forall o, j :: 0 <= o < |st.masses| && 0 <= j < |ids| ==>
      Route(ids, st, moves).masses[o][j] == RoutedMass(ids, st.masses, moves, o, j)
    decreases |moves|
  {
    if moves != [] {
      var front, m := moves[..|moves| - 1], moves[|moves| - 1];
      RoutableLast(ids, |st.masses|, st.splitted, moves);
      RouteMasses(ids, st, front);
      RoutePassesExactly(ids, st, front);
      TargetOfFresh(front, m.cmp);
      forall o, j | 0 <= o < |st.masses| && 0 <= j < |ids|
        ensures Route(ids, st, moves).masses[o][j] == RoutedMass(ids, st.masses, moves, o, j)
      {
        RouteMassAt(ids, st, moves, o, j);
      }
    }
  }

  /** The induction step of `RouteMasses` for one entry: a fresh transfer
      appended to routable moves moves that entry as `RoutedMass` says. */
  lemma {:induction false} RouteMassAt(ids: seq<string>, st: Routing, moves: seq<Move>, o: nat, j: nat)
    requires Shaped(st, ids) && Distinct(ids) && moves != [] && o < |st.masses| && j < |ids|
    requires var front, m := moves[..|moves| - 1], moves[|moves| - 1];
      var p := Route(ids, st, front);
      && p.outcome.Pass? && m.Transfer? && m.cmp in ids && m.outlet < |st.masses|
      && m.cmp !in p.splitted && Target(front, m.cmp).None?
      && p.masses[o][j] == RoutedMass(ids, st.masses, front, o, j)
      && p.masses[|st.masses| - 1][j] == RoutedMass(ids, st.masses, front, |st.masses| - 1, j)
    ensures Route(ids, st, moves).masses[o][j] == RoutedMass(ids, st.masses, moves, o, j)
  {
    var front, m := moves[..|moves| - 1], moves[|moves| - 1];
    if j == IndexOf(ids, m.cmp) {
      assert RoutedMass(ids, st.masses, front, |st.masses| - 1, j) == st.masses[|st.masses| - 1][j];
    } else {
      assert ids[j] != m.cmp;
    }
  }

  /** With every transfer aimed at a non-remainder output, and component
      `j` absent from every such output except the one it is sent to (whose
      earlier amount is overwritten), `j`'s total over the outputs is the
      remainder output's original amount: routing neither creates nor loses
      mass. */
  lemma {:induction false} RouteConservesMass(ids: seq<string>, st: Routing, moves: seq<Move>, j: nat)
    requires Shaped(st, ids) && st.outcome.Pass? && Distinct(ids) && j < |ids|
    requires Routable(ids, |st.masses|, st.splitted, moves)
    requires forall i :: 0 <= i < |moves| ==> moves[i].outlet < |st.masses| - 1
    requires forall o :: 0 <= o < |st.masses| - 1 && Target(moves, ids[j]) != Some(o) ==> st.masses[o][j] == 0.0
    ensures ColumnSum(Route(ids, st, moves).masses, j) == st.masses[|st.masses| - 1][j]
  {
    RouteMasses(ids, st, moves);
    var r := Route(ids, st, moves).masses;
    var last := |st.masses| - 1;
    match Target(moves, ids[j])
    case None =>
      ColumnSumOfOneRow(r, j, last);
    case Some(t) =>
      var k :| 0 <= k < |moves| && moves[k] == Transfer(t, ids[j]);
      assert moves[k].outlet < last;
      ColumnSumOfOneRow(r, j, t);
  }

  /** A run that raises nothing conserves every component: when no output
      other than `j`'s target (and the remainder) holds any of `j` — as on
      every repeated run, where only the target keeps an earlier amount —
      its total over the outputs afterwards is its total over the inputs. */
  lemma {:induction false} RunConservesMass(ids: seq<string>, m0: seq<seq<real>>, ins: seq<seq<real>>, keys: seq<Key>, j: nat)
    requires Distinct(ids) && IsMatrix(m0, |ids|) && IsMatrix(ins, |ids|) && j < |ids|
    requires |m0| == |keys| + 1
    requires forall o :: 0 <= o < |keys| && Target(Moves(keys), ids[j]) != Some(o) ==> m0[o][j] == 0.0
    requires Route(ids, Routing(m0[|keys| := MixFrom(ins, |ids|)], [], Pass), Moves(keys)).outcome.Pass?
    ensures ColumnSum(Route(ids, Routing(m0[|keys| := MixFrom(ins, |ids|)], [], Pass), Moves(keys)).masses, j)
         == ColumnSum(ins, j)
  {
    var st := Routing(m0[|keys| := MixFrom(ins, |ids|)], [], Pass);
    RoutePassesExactly(ids, st, Moves(keys));
    RouteConservesMass(ids, st, Moves(keys), j);
  }

  /** The three moves of `[("A",), ("B", "C")]` on masses 10, 5 and 3 in
      the remainder output, one step at a time. */
  lemma {:induction false} RoutingExampleSteps()
    ensures var st := Routing([[0.0, 0.0, 0.0], [0.0, 0.0, 0.0], [10.0, 5.0, 3.0]], [], Pass);
      Route(["A", "B", "C"], st, [Transfer(0, "A"), Transfer(1, "B"), Transfer(1, "C")])
      == Routing([[10.0, 0.0, 0.0], [0.0, 5.0, 3.0], [0.0, 0.0, 0.0]], ["A", "B", "C"], Pass)
  {
    var ids := ["A", "B", "C"];
    var st := Routing([[0.0, 0.0, 0.0], [0.0, 0.0, 0.0], [10.0, 5.0, 3.0]], [], Pass);
    var s2 := Routing([[10.0, 0.0, 0.0], [0.0, 5.0, 0.0], [0.0, 0.0, 3.0]], ["A", "B"], Pass);
    RoutingExampleFirstTwo();
    ExampleIndexes();
    StepTransfer(ids, s2, 1, "C");
    ExampleMasses();
    RouteOneMore(ids, st, [Transfer(0, "A"), Transfer(1, "B")], Transfer(1, "C"));
    assert [Transfer(0, "A"), Transfer(1, "B")] + [Transfer(1, "C")]
        == [Transfer(0, "A"), Transfer(1, "B"), Transfer(1, "C")];
    assert ["A", "B"] + ["C"] == ["A", "B", "C"];
  }

  /** The first two moves of the example. */
  lemma {:induction false} RoutingExampleFirstTwo()
    ensures var st := Routing([[0.0, 0.0, 0.0], [0.0, 0.0, 0.0], [10.0, 5.0, 3.0]], [], Pass);
      Route(["A", "B", "C"], st, [Transfer(0, "A"), Transfer(1, "B")])
      == Routing([[10.0, 0.0, 0.0], [0.0, 5.0, 0.0], [0.0, 0.0, 3.0]], ["A", "B"], Pass)
  {
    var ids := ["A", "B", "C"];
    var st := Routing([[0.0, 0.0, 0.0], [0.0, 0.0, 0.0], [10.0, 5.0, 3.0]], [], Pass);
    ExampleIndexes();
    var s1 := Routing([[10.0, 0.0, 0.0], [0.0, 0.0, 0.0], [0.0, 5.0, 3.0]], ["A"], Pass);
    StepTransfer(ids, st, 0, "A");
    StepTransfer(ids, s1, 1, "B");
    ExampleMasses();
    RouteSingle(ids, st, Transfer(0, "A"));
    RouteOneMore(ids, st, [Transfer(0, "A")], Transfer(1, "B"));
    assert [Transfer(0, "A")] + [Transfer(1, "B")] == [Transfer(0, "A"), Transfer(1, "B")];
    assert ["A"] + ["B"] == ["A", "B"];
  }

  /** Positions of A, B and C. */
  lemma {:induction false} ExampleIndexes()
    ensures IndexOf(["A", "B", "C"], "A") == 0
    ensures IndexOf(["A", "B", "C"], "B") == 1
    ensures IndexOf(["A", "B", "C"], "C") == 2
  {
    var ids := ["A", "B", "C"];
    assert ids[1..] == ["B", "C"];
    assert ids[1..][1..] == ["C"];
  }

  /** The three mass moves of the example. */
  lemma {:induction false} ExampleMasses()
    ensures MoveMass([[0.0, 0.0, 0.0], [0.0, 0.0, 0.0], [10.0, 5.0, 3.0]], 0, 0)
         == [[10.0, 0.0, 0.0], [0.0, 0.0, 0.0], [0.0, 5.0, 3.0]]
    ensures MoveMass([[10.0, 0.0, 0.0], [0.0, 0.0, 0.0], [0.0, 5.0, 3.0]], 1, 1)
         == [[10.0, 0.0, 0.0], [0.0, 5.0, 0.0], [0.0, 0.0, 3.0]]
    ensures MoveMass([[10.0, 0.0, 0.0], [0.0, 5.0, 0.0], [0.0, 0.0, 3.0]], 1, 2)
         == [[10.0, 0.0, 0.0], [0.0, 5.0, 3.0], [0.0, 0.0, 0.0]]
  {
    var m1 := MoveMass([[0.0, 0.0, 0.0], [0.0, 0.0, 0.0], [10.0, 5.0, 3.0]], 0, 0);
    assert m1[0] == [10.0, 0.0, 0.0] && m1[1] == [0.0, 0.0, 0.0] && m1[2] == [0.0, 5.0, 3.0];
    var m2 := MoveMass([[10.0, 0.0, 0.0], [0.0, 0.0, 0.0], [0.0, 5.0, 3.0]], 1, 1);
    assert m2[0] == [10.0, 0.0, 0.0] && m2[1] == [0.0, 5.0, 0.0] && m2[2] == [0.0, 0.0, 3.0];
    var m3 := MoveMass([[10.0, 0.0, 0.0], [0.0, 5.0, 0.0], [0.0, 0.0, 3.0]], 1, 2);
    assert m3[0] == [10.0, 0.0, 0.0] && m3[1] == [0.0, 5.0, 3.0] && m3[2] == [0.0, 0.0, 0.0];
  }

  /** The moves of `[("A",), ("B", "C")]`. */
  lemma {:induction false} ExampleMoves()
    ensures Moves([Group(["A"]), Group(["B", "C"])]) == [Transfer(0, "A"), Transfer(1, "B"), Transfer(1, "C")]
  {
    var keys := [Group(["A"]), Group(["B", "C"])];
    assert keys[..1] == [Group(["A"])];
    assert Moves([Group(["A"])]) == [Transfer(0, "A")] by {
      assert [Group(["A"])][..0] == [];
    }
  }

  /** Components A, B and C with masses 10, 5 and 3 in the one input,
      split by `[("A",), ("B", "C")]` into fresh outputs: A goes to the
      first output, B and C to the second, nothing stays in the remainder. */
  lemma {:induction false} RoutingExample()
    ensures var ids := ["A", "B", "C"];
      var keys := [Group(["A"]), Group(["B", "C"])];
      var st := Routing([Zeros(3), Zeros(3), MixFrom([[10.0, 5.0, 3.0]], 3)], [], Pass);
      var r := Route(ids, st, Moves(keys));
      && r.outcome == Pass
      && r.masses == [[10.0, 0.0, 0.0], [0.0, 5.0, 3.0], [0.0, 0.0, 0.0]]
  {
    ExampleMoves();
    MixFromSingle([10.0, 5.0, 3.0]);
    assert Zeros(3) == [0.0, 0.0, 0.0];
    RoutingExampleSteps();
  }

  /** The first two moves of `[("A",), ("A", "B")]` on masses 10 and 5:
      A is moved to the first output, then moved again (now zero) to the
      second, and only then found to be a repeat. */
  lemma {:induction false} DuplicateExampleSteps()
    ensures var st := Routing([Zeros(2), Zeros(2), [10.0, 5.0]], [], Pass);
      Route(["A", "B"], st, [Transfer(0, "A"), Transfer(1, "A")])
        == Routing([[10.0, 0.0], [0.0, 0.0], [0.0, 5.0]], ["A"], Fail(DuplicateComponent("A")))
  {
    var ids := ["A", "B"];
    var st := Routing([Zeros(2), Zeros(2), [10.0, 5.0]], [], Pass);
    assert Zeros(2) == [0.0, 0.0];
    assert IndexOf(ids, "A") == 0;
    var s1 := Step(ids, st, Transfer(0, "A"));
    StepTransfer(ids, st, 0, "A");
    var m1 := [[10.0, 0.0], [0.0, 0.0], [0.0, 5.0]];
    assert s1.masses == m1 by {
      assert s1.masses[0] == m1[0] && s1.masses[1] == m1[1] && s1.masses[2] == m1[2];
    }
    var s2 := Step(ids, s1, Transfer(1, "A"));
    StepTransfer(ids, s1, 1, "A");
    assert s2.masses == m1 by {
      assert s2.masses[0] == m1[0] && s2.masses[1] == m1[1] && s2.masses[2] == m1[2];
    }
    RouteSingle(ids, st, Transfer(0, "A"));
    RouteOneMore(ids, st, [Transfer(0, "A")], Transfer(1, "A"));
  }

  /** A component listed in two groups raises, and the moves made before
      the check stand: `[("A",), ("A", "B")]` on masses 10 and 5 leaves A in
      the first output, zero A in the second, and B still in the remainder. */
  lemma {:induction false} DuplicateExample()
    ensures var st := Routing([Zeros(2), Zeros(2), [10.0, 5.0]], [], Pass);
      Route(["A", "B"], st, Moves([Group(["A"]), Group(["A", "B"])]))
        == Routing([[10.0, 0.0], [0.0, 0.0], [0.0, 5.0]], ["A"], Fail(DuplicateComponent("A")))
  {
    var ids := ["A", "B"];
    var keys := [Group(["A"]), Group(["A", "B"])];
    var moves := [Transfer(0, "A"), Transfer(1, "A"), Transfer(1, "B")];
    assert Moves(keys) == moves by {
      assert keys[..1] == [Group(["A"])];
      assert Moves([Group(["A"])]) == [Transfer(0, "A")] by {
        assert [Group(["A"])][..0] == [];
      }
    }
    var st := Routing([Zeros(2), Zeros(2), [10.0, 5.0]], [], Pass);
    DuplicateExampleSteps();
    assert [Transfer(0, "A"), Transfer(1, "A")] <= moves;
    RouteAfterFailure(ids, st, moves, [Transfer(0, "A"), Transfer(1, "A")]);
  }

  // ---------------------------------------------------------------------
  // Two defects of the source, as written and as evidently intended

  /** The `split_keys` setter as written: it compares the number of new
      entries with the number of outputs, which is one more than the number
      of groups. */
  function SetterCheckAsWritten(i: SplitKeys, nOuts: nat): (r: Outcome)
    ensures r.Pass? <==> |Groups(i)| == nOuts
    ensures r.Fail? ==> r.error == SplitKeysResized(|Groups(i)|, nOuts)
  {
    var n := |Wrap(i).entries|;
    if n != nOuts then Fail(SplitKeysResized(n, nOuts)) else Pass
  }

  /** As written, the setter refuses every reconfiguration that keeps one
      group per non-remainder output, and takes only ones that do not; the
      corrected check does the opposite. */
  lemma {:induction false} SetterAsWrittenRefusesSameSize(i: SplitKeys, nOuts: nat)
    ensures SetterCheck(i, nOuts).Pass? ==> SetterCheckAsWritten(i, nOuts).Fail?
    ensures SetterCheckAsWritten(i, nOuts).Pass? ==> |Groups(i)| + 1 != nOuts
  {
  }

  /** What the as-written setter lets through loses mass: a unit built with
      `[("A",)]` has two outputs, and `[("A",), ("B",)]` passes the check; its
      last group is routed onto the remainder output itself and zeroed, so
      component B (5 units in) is found in no output. */
  lemma {:induction false} SetterAsWrittenLosesMass()
    ensures var keys := Entries([Group(["A"]), Group(["B"])]);
      var st := Routing([Zeros(2), [10.0, 5.0]], [], Pass);
      var r := Route(["A", "B"], st, Moves(Groups(keys)));
      && OutsCount(Entries([Group(["A"])])) == Success(2)
      && SetterCheckAsWritten(keys, 2).Pass?
      && SetterCheck(keys, 2).Fail?
      && r.outcome.Pass?
      && ColumnSum(r.masses, 1) == 0.0
  {
    var ids := ["A", "B"];
    LosesMassMoves();
    assert Zeros(2) == [0.0, 0.0];
    LosesMassRoute();
    var m2: seq<seq<real>> := [[10.0, 0.0], [0.0, 0.0]];
    assert ColumnSum(m2, 1) == 0.0 by {
      assert m2[1..][1..] == [];
    }
  }

  /** The moves of `[("A",), ("B",)]`. */
  lemma {:induction false} LosesMassMoves()
    ensures Moves([Group(["A"]), Group(["B"])]) == [Transfer(0, "A"), Transfer(1, "B")]
  {
    var keys := [Group(["A"]), Group(["B"])];
    assert keys[..1] == [Group(["A"])];
    assert Moves([Group(["A"])]) == [Transfer(0, "A")] by {
      assert [Group(["A"])][..0] == [];
    }
  }

  /** Routing those moves over two outputs: B is moved onto the remainder
      output itself, which is then zeroed. */
  lemma {:induction false} LosesMassRoute()
    ensures Route(["A", "B"], Routing([[0.0, 0.0], [10.0, 5.0]], [], Pass), [Transfer(0, "A"), Transfer(1, "B")])
         == Routing([[10.0, 0.0], [0.0, 0.0]], ["A", "B"], Pass)
  {
    var ids := ["A", "B"];
    var st := Routing([[0.0, 0.0], [10.0, 5.0]], [], Pass);
    assert IndexOf(ids, "A") == 0;
    assert IndexOf(ids, "B") == 1;
    var m1 := [[10.0, 0.0], [0.0, 5.0]];
    StepTransfer(ids, st, 0, "A");
    LosesMassFirst();
    var s1 := Routing(m1, ["A"], Pass);
    StepTransfer(ids, s1, 1, "B");
    LosesMassSecond();
    RouteSingle(ids, st, Transfer(0, "A"));
    RouteOneMore(ids, st, [Transfer(0, "A")], Transfer(1, "B"));
    assert [Transfer(0, "A")] + [Transfer(1, "B")] == [Transfer(0, "A"), Transfer(1, "B")];
    assert ["A"] + ["B"] == ["A", "B"];
  }

  /** A's 10 units move to the first output. */
  lemma {:induction false} LosesMassFirst()
    ensures MoveMass([[0.0, 0.0], [10.0, 5.0]], 0, 0) == [[10.0, 0.0], [0.0, 5.0]]
  {
    var m := MoveMass([[0.0, 0.0], [10.0, 5.0]], 0, 0);
    assert m[0] == [10.0, 0.0] && m[1] == [0.0, 5.0];
  }

  /** B's 5 units "move" to output 1, the remainder itself, and are zeroed. */
  lemma {:induction false} LosesMassSecond()
    ensures MoveMass([[10.0, 0.0], [0.0, 5.0]], 1, 1) == [[10.0, 0.0], [0.0, 0.0]]
  {
    var m := MoveMass([[10.0, 0.0], [0.0, 5.0]], 1, 1);
    assert m[0] == [10.0, 0.0] && m[1] == [0.0, 0.0];
  }

  /** The groups `_run` walks as written: `__init__` stores a single string
      as it is, and `_run` enumerates it character by character. */
  function GroupsAsWritten(k: SplitKeys): (r: seq<Key>)
    ensures k.Entries? ==> r == k.entries
    ensures k.Text? ==> |r| == |k.text| && forall i :: 0 <= i < |r| ==> r[i] == Name([k.text[i]])
  {
    match k
    case Text(s) => seq(|s|, i requires 0 <= i < |s| => Name([s[i]]))
    case Entries(e) => e
  }

  /** As written, a string of two or more characters yields more groups
      than the unit has non-remainder outputs; read as one group, it fits. */
  lemma {:induction false} StringKeysAsWrittenMismatch(s: string)
    requires |s| >= 2
    ensures OutsCount(Text(s)) == Success(2)
    ensures |GroupsAsWritten(Text(s))| + 1 != OutsCount(Text(s)).value
    ensures |Groups(Text(s))| + 1 == OutsCount(Text(s)).value
  {
  }

  /** `ComponentSplitter(split_keys='NH4')` over components NH4 and H2O, as
      written: the run looks up a component named 'N' and raises. */
  lemma {:induction false} StringKeysAsWrittenFails()
    ensures Route(["NH4", "H2O"], Routing([Zeros(2), [4.0, 1000.0]], [], Pass),
                  Moves(GroupsAsWritten(Text("NH4")))).outcome == Fail(UnknownComponent("N"))
  {
    var ids := ["NH4", "H2O"];
    var st := Routing([Zeros(2), [4.0, 1000.0]], [], Pass);
    AsWrittenFirstMove();
    assert "N" !in ids;
    RouteSingle(ids, st, Transfer(0, "N"));
    RouteAfterFailure(ids, st, Moves(GroupsAsWritten(Text("NH4"))), [Transfer(0, "N")]);
  }

  /** As written, the first move for 'NH4' transfers a component named 'N'. */
  lemma {:induction false} AsWrittenFirstMove()
    ensures [Transfer(0, "N")] <= Moves(GroupsAsWritten(Text("NH4")))
  {
    var asWritten := GroupsAsWritten(Text("NH4"));
    assert asWritten[..1] == [Name("N")];
    assert Moves([Name("N")]) == [Transfer(0, "N")] by {
      assert [Name("N")][..0] == [];
    }
    MovesPrefix(asWritten, 1);
  }

  /** The same unit with 'NH4' read as one group: NH4 goes in full to the
      first output and H2O stays in the remainder. */
  lemma {:induction false} StringKeysAsOneGroup()
    ensures Route(["NH4", "H2O"], Routing([Zeros(2), [4.0, 1000.0]], [], Pass), Moves(Groups(Text("NH4"))))
         == Routing([[4.0, 0.0], [0.0, 1000.0]], ["NH4"], Pass)
  {
    var ids := ["NH4", "H2O"];
    assert Zeros(2) == [0.0, 0.0];
    var st := Routing([[0.0, 0.0], [4.0, 1000.0]], [], Pass);
    OneGroupMoves();
    assert IndexOf(ids, "NH4") == 0;
    RouteSingle(ids, st, Transfer(0, "NH4"));
    StepTransfer(ids, st, 0, "NH4");
    OneGroupMass();
    assert st.splitted + ["NH4"] == ["NH4"];
  }

  /** 'NH4' read as one group is one transfer to the first output. */
  lemma {:induction false} OneGroupMoves()
    ensures Moves(Groups(Text("NH4"))) == [Transfer(0, "NH4")]
  {
    assert Groups(Text("NH4")) == [Name("NH4")];
    assert [Name("NH4")][..0] == [];
  }

  /** Moving NH4 (4 units) out of the remainder output into the first. */
  lemma {:induction false} OneGroupMass()
    ensures MoveMass([[0.0, 0.0], [4.0, 1000.0]], 0, 0) == [[4.0, 0.0], [0.0, 1000.0]]
  {
    var m1 := MoveMass([[0.0, 0.0], [4.0, 1000.0]], 0, 0);
    assert m1[0] == [4.0, 0.0] && m1[1] == [0.0, 1000.0];
  }

  // ---------------------------------------------------------------------
  // The unit

  /** A prefix of the moves of `keys`: all moves of the first `num` entries,
      then the first `m` moves of entry `num`. */
  function MovesUpTo(keys: seq<Key>, num: nat, m: nat): seq<Move>
    requires num < |keys| && m <= |MovesOf(num, keys[num])|
  {
    Moves(keys[..num]) + MovesOf(num, keys[num])[..m]
  }

  /** Routing one more move of entry `num` is one more `Step`. */
  lemma {:induction false} RouteUpToNext(ids: seq<string>, st: Routing, keys: seq<Key>, num: nat, m: nat)
    requires Shaped(st, ids) && num < |keys| && m < |MovesOf(num, keys[num])|
    ensures Route(ids, st, MovesUpTo(keys, num, m + 1))
         == Step(ids, Route(ids, st, MovesUpTo(keys, num, m)), MovesOf(num, keys[num])[m])
  {
    var b := MovesOf(num, keys[num]);
    assert MovesUpTo(keys, num, m + 1) == MovesUpTo(keys, num, m) + [b[m]];
    RouteOneMore(ids, st, MovesUpTo(keys, num, m), b[m]);
  }

  /** All moves of entry `num` are the moves of the first `num + 1` entries. */
  lemma {:induction false} MovesUpToWhole(keys: seq<Key>, num: nat)
    requires num < |keys|
    ensures MovesUpTo(keys, num, |MovesOf(num, keys[num])|) == Moves(keys[..num + 1])
  {
    MovesNext(keys, num);
  }

  /** The moves up to a point are a prefix of all the moves. */
  lemma {:induction false} MovesUpToPrefix(keys: seq<Key>, num: nat, m: nat)
    requires num < |keys| && m <= |MovesOf(num, keys[num])|
    ensures MovesUpTo(keys, num, m) <= Moves(keys)
  {
    var a, b := Moves(keys[..num]), MovesOf(num, keys[num]);
    MovesUpToWhole(keys, num);
    MovesPrefix(keys, num + 1);
    var whole := Moves(keys);
    assert a + b <= whole;
    assert forall i :: 0 <= i < |a| + m ==> (a + b[..m])[i] == (a + b)[i];
  }

  /** An error raised by a move ends the routing there. */
  lemma {:induction false} FailureIsFinal(ids: seq<string>, st: Routing, keys: seq<Key>, num: nat, m: nat)
    requires Shaped(st, ids) && num < |keys| && m <= |MovesOf(num, keys[num])|
    requires Route(ids, st, MovesUpTo(keys, num, m)).outcome.Fail?
    ensures Route(ids, st, Moves(keys)) == Route(ids, st, MovesUpTo(keys, num, m))
  {
    MovesUpToPrefix(keys, num, m);
    RouteAfterFailure(ids, st, Moves(keys), MovesUpTo(keys, num, m));
  }

  /** A flagged entry raises and moves nothing. */
  lemma {:induction false} StepNotAKey(ids: seq<string>, st: Routing)
    requires Shaped(st, ids) && st.outcome.Pass?
    ensures Step(ids, st, NotAKey) == st.(outcome := Fail(NotIterable))
  {
  }

  /** The moves of an entry that is not iterable: the one flag. */
  lemma {:induction false} MovesUpToNotAKey(keys: seq<Key>, num: nat)
    requires num < |keys| && keys[num].Scalar?
    ensures |MovesOf(num, keys[num])| == 1
    ensures MovesUpTo(keys, num, 1) == Moves(keys[..num]) + [NotAKey]
  {
    assert [NotAKey][..1] == [NotAKey];
  }

  /** Routing up to and including a flagged entry raises there. */
  lemma {:induction false} NotIterableFails(ids: seq<string>, st: Routing, keys: seq<Key>, num: nat, ms: seq<seq<real>>, done: seq<string>)
    requires Shaped(st, ids) && num < |keys| && keys[num].Scalar?
    requires Route(ids, st, Moves(keys[..num])) == Routing(ms, done, Pass)
    ensures |MovesOf(num, keys[num])| == 1
    ensures Route(ids, st, MovesUpTo(keys, num, 1)) == Routing(ms, done, Fail(NotIterable))
  {
    var pre := Moves(keys[..num]);
    MovesUpToNotAKey(keys, num);
    RouteOneMore(ids, st, pre, NotAKey);
    StepNotAKey(ids, Route(ids, st, pre));
  }

  /** One more member of entry `num`: an unknown component raises at once;
      a known one is moved, then raises if it was already split. */
  lemma {:induction false} TransferStep(ids: seq<string>, st: Routing, keys: seq<Key>, num: nat, m: nat,
                                        ms: seq<seq<real>>, done: seq<string>)
    requires Shaped(st, ids) && num < |keys| && !keys[num].Scalar? && m < |Members(keys[num])|
    requires num < |ms| - 1 && IsMatrix(ms, |ids|)
    requires Route(ids, st, MovesUpTo(keys, num, m)) == Routing(ms, done, Pass)
    ensures var c := Members(keys[num])[m];
      Route(ids, st, MovesUpTo(keys, num, m + 1))
      == if c !in ids then Routing(ms, done, Fail(UnknownComponent(c)))
         else if c in done then Routing(MoveMass(ms, num, IndexOf(ids, c)), done, Fail(DuplicateComponent(c)))
         else Routing(MoveMass(ms, num, IndexOf(ids, c)), done + [c], Pass)
  {
    var c := Members(keys[num])[m];
    assert MovesOf(num, keys[num])[m] == Transfer(num, c);
    RouteUpToNext(ids, st, keys, num, m);
    if c in ids {
      StepTransfer(ids, Routing(ms, done, Pass), num, c);
    }
  }

  /** An entry that is not iterable stops the run where it stands. */
  lemma {:induction false} NotIterableIsFinal(ids: seq<string>, st: Routing, keys: seq<Key>, num: nat, ms: seq<seq<real>>, done: seq<string>)
    requires Shaped(st, ids) && num < |keys| && keys[num].Scalar?
    requires Route(ids, st, Moves(keys[..num])) == Routing(ms, done, Pass)
    ensures Route(ids, st, Moves(keys)) == Routing(ms, done, Fail(NotIterable))
  {
    NotIterableFails(ids, st, keys, num, ms, done);
    FailureIsFinal(ids, st, keys, num, 1);
  }

  class ComponentSplitter {
    const ids: seq<string>
    const outs: seq<Stream>
    var splitKeys: SplitKeys

    /** Unique component IDs; distinct output streams, one per group and one
        for the remainder, each holding one mass per component. */
    ghost predicate Valid()
      reads this, outs
    {
      && Distinct(ids)
      && |outs| == |Groups(splitKeys)| + 1
      && (forall i, k :: 0 <= i < k < |outs| ==> outs[i] != outs[k])
      && (forall i :: 0 <= i < |outs| ==> |outs[i].mass| == |ids|)
    }

    /** The outputs' masses, one row per output. */
    function Masses(): (ms: seq<seq<real>>)
      reads outs
      ensures |ms| == |outs| && forall i :: 0 <= i < |outs| ==> ms[i] == outs[i].mass
    {
      seq(|outs|, i reads outs requires 0 <= i < |outs| => outs[i].mass)
    }

    /** `__init__` once `split_keys` is known not to be empty: one fresh
        output per group and one for the remainder. */
    constructor (ids: seq<string>, keys: SplitKeys)
      requires Distinct(ids) && !IsEmpty(keys)
      ensures Valid() && this.ids == ids && splitKeys == keys
      ensures |outs| == OutsCount(keys).value
      ensures forall i :: 0 <= i < |outs| ==> fresh(outs[i]) && outs[i].mass == Zeros(|ids|)
    {
      var n := |Groups(keys)| + 1;
      var made: seq<Stream> := [];
      while |made| < n
        invariant |made| <= n
        invariant forall i :: 0 <= i < |made| ==> fresh(made[i]) && made[i].mass == Zeros(|ids|)
        invariant forall i, k :: 0 <= i < k < |made| ==> made[i] != made[k]
      {
        var s := new Stream(|ids|);
        made := made + [s];
      }
      this.ids := ids;
      outs := made;
      splitKeys := keys;
    }

    /** The `split_keys` setter: a string is wrapped into a one-entry tuple,
        and the new keys are taken only when they keep one group per
        non-remainder output. */
    method SetSplitKeys(i: SplitKeys) returns (r: Outcome)
      requires Valid()
      modifies this`splitKeys
      ensures Valid()
      ensures r == SetterCheck(i, |outs|)
      ensures r.Pass? ==> splitKeys == Wrap(i)
      ensures r.Fail? ==> splitKeys == old(splitKeys)
    {
      var w := Wrap(i);
      if |w.entries| != |outs| - 1 {
        r := Fail(SplitKeysResized(|w.entries|, |outs|));
        return;
      }
      splitKeys := w;
      r := Pass;
    }

    /** One pass of `_run`'s inner loop before its duplicate check: the
        remainder output's mass of component `j` goes to output `num`. */
    method MoveComponent(num: nat, j: nat)
      requires Valid() && num < |outs| - 1 && j < |ids|
      modifies outs`mass
      ensures Valid()
      ensures Masses() == MoveMass(old(Masses()), num, j)
    {
      ghost var before := Masses();
      var last := outs[|outs| - 1];
      var target := outs[num];
      target.mass := target.mass[j := last.mass[j]];
      last.mass := last.mass[j := 0.0];
      forall i | 0 <= i < |outs|
        ensures Masses()[i] == MoveMass(before, num, j)[i]
      {
      }
    }

    /** `_run`'s inner loop over the members of entry `num`. It either
        reaches the routing of the first `num + 1` entries, or raises, and
        then its state is the routing of all the entries. */
    method RouteEntry(num: nat, splitted: seq<string>, ghost st0: Routing, ghost keys: seq<Key>)
      returns (done: seq<string>, r: Outcome)
      requires Valid() && keys == Groups(splitKeys) && num < |keys| && !keys[num].Scalar?
      requires Shaped(st0, ids) && |st0.masses| == |outs|
      requires Route(ids, st0, Moves(keys[..num])) == Routing(Masses(), splitted, Pass)
      modifies outs`mass
      ensures Valid()
      ensures r.Pass? ==> Route(ids, st0, Moves(keys[..num + 1])) == Routing(Masses(), done, Pass)
      ensures r.Fail? ==> Route(ids, st0, Moves(keys)) == Routing(Masses(), done, r)
    {
      done := splitted;
      var members := Members(Groups(splitKeys)[num]);
      var m := 0;
      assert MovesUpTo(keys, num, 0) == Moves(keys[..num]);
      while m < |members|
        invariant 0 <= m <= |members|
        invariant Valid()
        invariant Route(ids, st0, MovesUpTo(keys, num, m)) == Routing(Masses(), done, Pass)
      {
        var c := members[m];
        ghost var before := Masses();
        TransferStep(ids, st0, keys, num, m, before, done);
        if c !in ids {
          FailureIsFinal(ids, st0, keys, num, m + 1);
          return done, Fail(UnknownComponent(c));
        }
        var j := IndexOf(ids, c);
        MoveComponent(num, j);
        assert Masses() == MoveMass(before, num, j);
        if c in done {
          FailureIsFinal(ids, st0, keys, num, m + 1);
          return done, Fail(DuplicateComponent(c));
        }
        done := done + [c];
        m := m + 1;
      }
      MovesUpToWhole(keys, num);
      r := Pass;
    }

    /** `_run`: the inputs are mixed into the remainder output, then each
        listed component is moved from it to its group's output. The result
        is the routing `Route` specifies, error and partial moves included. */
    method Run(ins: seq<seq<real>>) returns (r: Outcome)
      requires Valid() && IsMatrix(ins, |ids|)
      modifies outs`mass
      ensures Valid()
      ensures var fin := Route(ids, Routing(old(Masses())[|outs| - 1 := MixFrom(ins, |ids|)], [], Pass),
                               Moves(Groups(splitKeys)));
        Masses() == fin.masses && r == fin.outcome
    {
      var n := |outs| - 1;
      var last := outs[n];
      last.mass := MixFrom(ins, |ids|);
      ghost var st0 := Routing(Masses(), [], Pass);
      assert st0 == Routing(old(Masses())[n := MixFrom(ins, |ids|)], [], Pass);
      var keys := Groups(splitKeys);
      ghost var fin := Route(ids, st0, Moves(keys));
      var splitted: seq<string> := [];
      var num := 0;
      while num < |keys|
        invariant 0 <= num <= |keys|
        invariant Valid()
        invariant Route(ids, st0, Moves(keys[..num])) == Routing(Masses(), splitted, Pass)
      {
        if keys[num].Scalar? {
          NotIterableIsFinal(ids, st0, keys, num, Masses(), splitted);
          r := Fail(NotIterable);
          assert Masses() == fin.masses && r == fin.outcome;
          return;
        }
        var res;
        splitted, res := RouteEntry(num, splitted, st0, keys);
        if res.Fail? {
          r := res;
          assert Masses() == fin.masses && r == fin.outcome;
          return;
        }
        num := num + 1;
      }
      assert keys[..num] == keys;
      assert Masses() == fin.masses;
      r := Pass;
    }
  }

  /** `__init__`: empty `split_keys` raises; otherwise a unit with one output
      per group and one for the remainder. */
  method NewComponentSplitter(ids: seq<string>, keys: SplitKeys) returns (r: Result<ComponentSplitter>)
    requires Distinct(ids)
    ensures r.Failure? <==> IsEmpty(keys)
    ensures r.Failure? ==> r.error == EmptySplitKeys
    ensures r.Success? ==> fresh(r.value) && r.value.Valid() && r.value.ids == ids
    ensures r.Success? ==> r.value.splitKeys == keys && |r.value.outs| == OutsCount(keys).value
  {
    if IsEmpty(keys) {
      return Failure(EmptySplitKeys);
    }
    var u := new ComponentSplitter(ids, keys);
    r := Success(u);
  }
}
