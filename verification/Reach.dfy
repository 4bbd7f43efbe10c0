/** Which states executions reach: every serial run of the engine is a schedule, and so is every
    interleaving of two tasks. */
module Reach {
  import opened Prelude
  import opened Vaa
  import opened VaaCodec
  import opened Domain
  import opened Engine
  import opened Interleaving
  import opened EngineRuns
  import opened Schedules
  import opened Exclusion

  /** Some execution ends in `sys`; with an id given, it respects the short lock on that id. */
  ghost predicate Reachable(c: Crypto, locked: Option<Hash>, sys: System) {
    exists states, actions ::
      && Execution(c, states, actions) && states[|actions|] == sys
      && (locked.Some? ==> Locked(c, Short, states, |actions|, locked.value))
  }

  lemma ReachStart(c: Crypto, locked: Option<Hash>, s: Stores)
    requires InitialStores(s)
    ensures Reachable(c, locked, System(s, []))
  {
    var states := [System(s, [])];
    assert Execution(c, states, []);
  }

  lemma ReachStep(c: Crypto, locked: Option<Hash>, sys: System, a: Action)
    requires Reachable(c, locked, sys) && Enabled(sys, a)
    requires locked.Some? ==> Exclusive(c, Short, Apply(c, sys, a), locked.value)
    ensures Reachable(c, locked, Apply(c, sys, a))
  {
    var states, actions :|
      && Execution(c, states, actions) && states[|actions|] == sys
      && (locked.Some? ==> Locked(c, Short, states, |actions|, locked.value));
    var states', actions' := states + [Apply(c, sys, a)], actions + [a];
    forall k | 0 <= k < |actions'|
      ensures Enabled(states'[k], actions'[k]) && states'[k + 1] == Apply(c, states'[k], actions'[k])
    {
      if k < |actions| {
        assert states'[k] == states[k] && states'[k + 1] == states[k + 1] && actions'[k] == actions[k];
      }
    }
    assert Execution(c, states', actions') && states'[|actions'|] == Apply(c, sys, a);
  }

  lemma RankDrops(c: Crypto, s: Stores, t: Task, now: I64)
    requires !t.Finished?
    ensures Rank(Advance(c, s, t, now).1) < Rank(t) && !Advance(c, s, t, now).1.UpgradeInsert?
  {}

  lemma ReachAdvance(c: Crypto, sys: System, i: nat, now: I64)
    requires Reachable(c, None, sys) && i < |sys.tasks|
    requires sys.tasks[i].UpgradeInsert? ==> sys.tasks[i].guardianSet.index !in sys.stores.sets
    ensures var r := Advance(c, sys.stores, sys.tasks[i], now);
            Reachable(c, None, System(r.0, sys.tasks[i := r.1]))
  {
    ReachStep(c, None, sys, Run(i, now));
  }

  /** The first task takes a step. */
  lemma ReachNext(c: Crypto, locked: Option<Hash>, s: Stores, t: Task, rest: seq<Task>, now: I64, s': Stores, t': Task)
    requires Reachable(c, locked, System(s, [t] + rest)) && !t.UpgradeInsert?
    requires (s', t') == Advance(c, s, t, now)
    requires locked.Some? ==> Exclusive(c, Short, System(s', [t'] + rest), locked.value)
    ensures Reachable(c, locked, System(s', [t'] + rest))
  {
    var sys := System(s, [t] + rest);
    assert sys.tasks[0] == t && sys.tasks[0 := t'] == [t'] + rest;
    assert Apply(c, sys, Run(0, now)) == System(s', [t'] + rest);
    ReachStep(c, locked, sys, Run(0, now));
  }

  lemma {:induction false} ReachRunToEnd(c: Crypto, sys: System, i: nat, now: I64)
    requires Reachable(c, None, sys) && i < |sys.tasks|
    requires sys.tasks[i].UpgradeInsert? ==> sys.tasks[i].guardianSet.index !in sys.stores.sets
    ensures var r := RunToEnd(c, sys.stores, sys.tasks[i], now);
            Reachable(c, None, System(r.0, sys.tasks[i := r.1]))
    decreases Rank(sys.tasks[i])
  {
    var s, t := sys.stores, sys.tasks[i];
    if t.Finished? {
      assert sys.tasks[i := t] == sys.tasks;
    } else {
      var (s', t') := Advance(c, s, t, now);
      ReachAdvance(c, sys, i, now);
      RankDrops(c, s, t, now);
      OneStep(c, s, t, now);
      ReachRunToEnd(c, System(s', sys.tasks[i := t']), i, now);
      var r := RunToEnd(c, s', t', now);
      assert sys.tasks[i := t'][i := r.1] == sys.tasks[i := r.1];
    }
  }

  // ----- serial runs

  ghost function TaskOf(call: Call): Task {
    match call
    case ObserveCall(gsi, body, _) => ObserveCheckDone(gsi, body)
    case SubmitCall(id, sig, _) => SubmitLoad(id, sig)
    case UpgradeCall(guardianSet) => UpgradeInsert(guardianSet)
  }

  ghost function SpawnOf(call: Call): Action {
    match call
    case ObserveCall(gsi, body, _) => SpawnObserve(gsi, body)
    case SubmitCall(id, sig, _) => SpawnSubmit(id, sig)
    case UpgradeCall(guardianSet) => SpawnUpgrade(guardianSet)
  }

  /** How a call ends. */
  ghost function Ending(c: Crypto, s: Stores, call: Call): Task {
    match call
    case ObserveCall(gsi, body, now) => Finished(Observed(Observe(c, s, gsi, body, now).1))
    case SubmitCall(id, sig, now) => Finished(Submitted(Submit(c, s, id, sig, now).1))
    case UpgradeCall(_) => Finished(Upgraded)
  }

  ghost function Endings(c: Crypto, s: Stores, calls: seq<Call>): (e: seq<Task>)
    ensures |e| == |calls| && forall t :: t in e ==> t.Finished?
  {
    if calls == [] then []
    else
      var before := calls[..|calls| - 1];
      Endings(c, s, before) + [Ending(c, RunCalls(c, s, before), calls[|calls| - 1])]
  }

  lemma CallUninterrupted(c: Crypto, s: Stores, call: Call) returns (now: I64)
    requires StoresGood(c, s)
    ensures RunToEnd(c, s, TaskOf(call), now) == (ApplyCall(c, s, call), Ending(c, s, call))
  {
    match call {
      case ObserveCall(gsi, body, at) =>
        now := at;
        ObserveUninterrupted(c, s, gsi, body, at);
      case SubmitCall(id, sig, at) =>
        now := at;
        SubmitUninterrupted(c, s, id, sig, at);
      case UpgradeCall(guardianSet) =>
        now := 0;
        OneStep(c, s, UpgradeInsert(guardianSet), now);
        var mid := s.(sets := s.sets[guardianSet.index := guardianSet]);
        OneStep(c, mid, UpgradeSwitch(guardianSet.index), now);
    }
  }

  lemma ReachSpawn(c: Crypto, sys: System, call: Call)
    requires Reachable(c, None, sys)
    ensures Reachable(c, None, System(sys.stores, sys.tasks + [TaskOf(call)]))
  {
    ReachStep(c, None, sys, SpawnOf(call));
    assert Apply(c, sys, SpawnOf(call)) == System(sys.stores, sys.tasks + [TaskOf(call)]);
  }

  lemma {:induction false} ReachCall(c: Crypto, sys: System, call: Call)
    requires Reachable(c, None, sys) && StoresGood(c, sys.stores) && FreshUpgrade(sys.stores, call)
    ensures Reachable(c, None, System(ApplyCall(c, sys.stores, call), sys.tasks + [Ending(c, sys.stores, call)]))
  {
    var now := CallUninterrupted(c, sys.stores, call);
    var n, spawned := |sys.tasks|, System(sys.stores, sys.tasks + [TaskOf(call)]);
    ReachSpawn(c, sys, call);
    assert spawned.tasks[n] == TaskOf(call);
    ReachRunToEnd(c, spawned, n, now);
    assert spawned.tasks[n := Ending(c, sys.stores, call)] == sys.tasks + [Ending(c, sys.stores, call)];
  }

  /** Serial calls, in any reachable state and beside whatever tasks are parked there, are part of
      a schedule; in particular every serial run from the initial state is one. */
  lemma {:induction false} SerialRunReachable(c: Crypto, sys: System, calls: seq<Call>)
    requires Reachable(c, None, sys) && SerialGood(c, sys.stores) && FreshUpgrades(c, sys.stores, calls)
    ensures Reachable(c, None, System(RunCalls(c, sys.stores, calls), sys.tasks + Endings(c, sys.stores, calls)))
  {
    if calls == [] {
      assert sys.tasks + [] == sys.tasks;
    } else {
      var before := calls[..|calls| - 1];
      SerialRunReachable(c, sys, before);
      RunGood(c, sys.stores, before);
      var mid := System(RunCalls(c, sys.stores, before), sys.tasks + Endings(c, sys.stores, before));
      var call := calls[|calls| - 1];
      ReachCall(c, mid, call);
      assert mid.tasks + [Ending(c, mid.stores, call)] == sys.tasks + Endings(c, sys.stores, calls);
    }
  }

  // ----- two tasks

  datatype Pair = Pair(stores: Stores, one: Task, two: Task)

  /** A step of the first or of the second task. */
  datatype Move = Move(first: bool, now: I64)

  function MovePair(c: Crypto, p: Pair, m: Move): Pair {
    var (s, t) := Advance(c, p.stores, if m.first then p.one else p.two, m.now);
    if m.first then Pair(s, t, p.two) else Pair(s, p.one, t)
  }

  function RunPair(c: Crypto, p: Pair, moves: seq<Move>): Pair {
    if moves == [] then p
    else MovePair(c, RunPair(c, p, moves[..|moves| - 1]), moves[|moves| - 1])
  }

  predicate UpgradeFree(t: Task) {
    !t.UpgradeInsert? && !t.UpgradeSwitch?
  }

  lemma NextUpgradeFree(c: Crypto, s: Stores, t: Task, now: I64)
    requires UpgradeFree(t)
    ensures UpgradeFree(Advance(c, s, t, now).1)
  {}

  lemma {:induction false} MovesUpgradeFree(c: Crypto, p: Pair, moves: seq<Move>)
    requires UpgradeFree(p.one) && UpgradeFree(p.two)
    ensures UpgradeFree(RunPair(c, p, moves).one) && UpgradeFree(RunPair(c, p, moves).two)
  {
    if moves != [] {
      var before, m := moves[..|moves| - 1], moves[|moves| - 1];
      var q := RunPair(c, p, before);
      MovesUpgradeFree(c, p, before);
      NextUpgradeFree(c, q.stores, if m.first then q.one else q.two, m.now);
    }
  }

  lemma MoveReachable(c: Crypto, q: Pair, tasks: seq<Task>, m: Move)
    requires UpgradeFree(q.one) && UpgradeFree(q.two)
    requires Reachable(c, None, System(q.stores, tasks + [q.one, q.two]))
    ensures var next := MovePair(c, q, m); Reachable(c, None, System(next.stores, tasks + [next.one, next.two]))
  {
    var sys, k := System(q.stores, tasks + [q.one, q.two]), if m.first then |tasks| else |tasks| + 1;
    var t := if m.first then q.one else q.two;
    var r := Advance(c, q.stores, t, m.now);
    assert sys.tasks[k] == t;
    ReachAdvance(c, sys, k, m.now);
    assert sys.tasks[k := r.1] == if m.first then tasks + [r.1, q.two] else tasks + [q.one, r.1];
  }

  /** Every interleaving of two tasks is part of a schedule. */
  lemma {:induction false} PairReachable(c: Crypto, p: Pair, tasks: seq<Task>, moves: seq<Move>)
    requires UpgradeFree(p.one) && UpgradeFree(p.two)
    requires Reachable(c, None, System(p.stores, tasks + [p.one, p.two]))
    ensures var q := RunPair(c, p, moves); Reachable(c, None, System(q.stores, tasks + [q.one, q.two]))
  {
    if moves != [] {
      var before := moves[..|moves| - 1];
      PairReachable(c, p, tasks, before);
      MovesUpgradeFree(c, p, before);
      MoveReachable(c, RunPair(c, p, before), tasks, moves[|moves| - 1]);
    }
  }
}
