/** Collapsing concurrent identical loads: the shared map, and every interleaving. */
module SingleFlight {
  import opened Wrappers

  // A caller takes the map's lock once to join or start a load and once more,
  // after the load is done, to clear the key, whoever's handle is there by then.
  // A cancelled caller never gets to the second. Time is the number of steps.

  // ------------------------------------------------------- the critical sections

  function Joined<K>(inflight: map<K, nat>, key: K, id: nat): map<K, nat> {
    if key in inflight then inflight else inflight[key := id]
  }

  function Cleared<K>(inflight: map<K, nat>, key: K): map<K, nat> {
    inflight - {key}
  }

  /** The map of in-flight loads; a handle is the number of a load. */
  class Flights<K(==)> {
    var inflight: map<K, nat>

    constructor ()
      ensures inflight == map[]
    {
      inflight := map[];
    }

    /** Join the load in flight for `key`, or start load `id`. */
    method JoinOrStart(key: K, id: nat) returns (handle: nat)
      modifies this
      ensures inflight == Joined(old(inflight), key, id)
      ensures key in inflight && handle == inflight[key]
    {
      if key in inflight {
        handle := inflight[key];
      } else {
        inflight := inflight[key := id];
        handle := id;
      }
    }

    /** Clear the slot of `key`, whatever load it names, and no other. */
    method Clear(key: K)
      modifies this
      ensures inflight == Cleared(old(inflight), key)
      ensures key !in inflight
      ensures forall k :: k in old(inflight) && k != key ==> k in inflight && inflight[k] == old(inflight)[k]
    {
      inflight := inflight - {key};
    }
  }

  // ------------------------------------------------------------ the step machine

  datatype Load<K, V> = Load(key: K, starter: nat, outcome: Option<Result<V, string>>)

  datatype Phase<V> =
    | Waiting
    | Returned(result: Result<V, string>, at: nat)
    | Cancelled(at: nat)

  /** One call of `run`: the load it was given and the time it entered. */
  datatype Call<K, V> = Call(key: K, load: nat, entered: nat, phase: Phase<V>)

  datatype State<K, V> = State(now: nat, inflight: map<K, nat>, loads: seq<Load<K, V>>, calls: seq<Call<K, V>>)

  datatype Step<K, V> =
    | Enter(key: K)
    | Finish(load: nat, outcome: Result<V, string>)
    | Leave(call: nat)
    | Cancel(call: nat)

  predicate Driven<K(==), V(==)>(s: State<K, V>, load: nat) {
    exists c :: 0 <= c < |s.calls| && s.calls[c].load == load && s.calls[c].phase == Waiting
  }

  function Next<K(==), V(==)>(s: State<K, V>, step: Step<K, V>): Option<State<K, V>> {
    match step
    case Enter(key) =>
      var inflight := Joined(s.inflight, key, |s.loads|);
      var loads := if key in s.inflight then s.loads else s.loads + [Load(key, |s.calls|, None)];
      Some(State(s.now + 1, inflight, loads, s.calls + [Call(key, inflight[key], s.now, Waiting)]))
    case Finish(load, outcome) =>
      if load < |s.loads| && s.loads[load].outcome.None? && Driven(s, load)
      then Some(s.(now := s.now + 1, loads := s.loads[load := s.loads[load].(outcome := Some(outcome))]))
      else None
    case Leave(call) =>
      if call < |s.calls| && s.calls[call].phase == Waiting
         && s.calls[call].load < |s.loads| && s.loads[s.calls[call].load].outcome.Some?
      then
        var c := s.calls[call];
        var result := s.loads[c.load].outcome.value;
        Some(s.(now := s.now + 1, inflight := Cleared(s.inflight, c.key),
                calls := s.calls[call := c.(phase := Returned(result, s.now))]))
      else None
    case Cancel(call) =>
      if call < |s.calls| && s.calls[call].phase == Waiting
      then Some(s.(now := s.now + 1, calls := s.calls[call := s.calls[call].(phase := Cancelled(s.now))]))
      else None
  }

  function Run<K(==), V(==)>(s: State<K, V>, steps: seq<Step<K, V>>): Option<State<K, V>>
    decreases |steps|
  {
    if steps == [] then Some(s)
    else match Next(s, steps[0])
         case None => None
         case Some(s') => Run(s', steps[1..])
  }

  function Empty<K, V>(): State<K, V> {
    State(0, map[], [], [])
  }

  // ---------------------------------------------------------------- the invariant

  /** `c` entered while `starter` was still in its call. */
  predicate Overlaps<K, V>(starter: Call<K, V>, c: Call<K, V>) {
    starter.entered <= c.entered &&
    match starter.phase
    case Waiting => true
    case Returned(_, at) => c.entered < at
    case Cancelled(at) => c.entered < at
  }

  /** `c` entered after `starter` had been cancelled. */
  predicate StarterGone<K, V>(starter: Call<K, V>, c: Call<K, V>) {
    starter.phase.Cancelled? && starter.phase.at < c.entered
  }

  ghost predicate CallOk<K, V>(s: State<K, V>, i: nat)
    requires i < |s.calls|
  {
    var c := s.calls[i];
    && c.entered < s.now
    && (c.phase.Returned? ==> c.entered < c.phase.at < s.now)
    && (c.phase.Cancelled? ==> c.entered < c.phase.at < s.now)
    && c.load < |s.loads| && s.loads[c.load].key == c.key
    && (c.phase.Returned? ==> s.loads[c.load].outcome == Some(c.phase.result))
    && s.loads[c.load].starter < |s.calls|
    && var starter := s.calls[s.loads[c.load].starter];
       Overlaps(starter, c) || StarterGone(starter, c)
  }

  ghost predicate EntryOk<K, V>(s: State<K, V>, key: K)
    requires key in s.inflight
  {
    && s.inflight[key] < |s.loads|
    && s.loads[s.inflight[key]].key == key
    && s.loads[s.inflight[key]].starter < |s.calls|
    && var starter := s.calls[s.loads[s.inflight[key]].starter];
       starter.key == key && starter.load == s.inflight[key] && !starter.phase.Returned?
  }

  /** Every call holds a load for its own key, and the caller whose load a key's
      entry names has never cleared the key. */
  ghost predicate Good<K(!new), V>(s: State<K, V>) {
    && (forall i {:trigger CallOk(s, i)} :: 0 <= i < |s.calls| ==> CallOk(s, i))
    && (forall key {:trigger EntryOk(s, key)} :: key in s.inflight ==> EntryOk(s, key))
  }

  lemma EnterKeeps<K(!new), V>(s: State<K, V>, key: K)
    requires Good(s)
    ensures Good(Next(s, Enter(key)).value)
  {
    var s' := Next(s, Enter(key)).value;
    forall k | k in s'.inflight ensures EntryOk(s', k) {
      if k in s.inflight { assert EntryOk(s, k); }
    }
    forall i | 0 <= i < |s'.calls| ensures CallOk(s', i) {
      if i < |s.calls| {
        assert CallOk(s, i);
      } else {
        assert EntryOk(s', key);
        if key in s.inflight {
          assert EntryOk(s, key);
          assert CallOk(s, s.loads[s.inflight[key]].starter);
        }
      }
    }
  }

  lemma FinishKeeps<K(!new), V>(s: State<K, V>, load: nat, outcome: Result<V, string>)
    requires Good(s) && Next(s, Finish(load, outcome)).Some?
    ensures Good(Next(s, Finish(load, outcome)).value)
  {
    var s' := Next(s, Finish(load, outcome)).value;
    forall k | k in s'.inflight ensures EntryOk(s', k) { assert EntryOk(s, k); }
    forall i | 0 <= i < |s'.calls| ensures CallOk(s', i) { assert CallOk(s, i); }
  }

  lemma LeaveKeeps<K(!new), V>(s: State<K, V>, call: nat)
    requires Good(s) && Next(s, Leave(call)).Some?
    ensures Good(Next(s, Leave(call)).value)
  {
    var s' := Next(s, Leave(call)).value;
    assert CallOk(s, call);
    forall k | k in s'.inflight ensures EntryOk(s', k) { assert EntryOk(s, k); }
    forall i | 0 <= i < |s'.calls| ensures CallOk(s', i) { assert CallOk(s, i); }
  }

  lemma CancelKeeps<K(!new), V>(s: State<K, V>, call: nat)
    requires Good(s) && Next(s, Cancel(call)).Some?
    ensures Good(Next(s, Cancel(call)).value)
  {
    var s' := Next(s, Cancel(call)).value;
    assert CallOk(s, call);
    forall k | k in s'.inflight ensures EntryOk(s', k) { assert EntryOk(s, k); }
    forall i | 0 <= i < |s'.calls| ensures CallOk(s', i) { assert CallOk(s, i); }
  }

  lemma NextKeeps<K(!new), V>(s: State<K, V>, step: Step<K, V>)
    requires Good(s) && Next(s, step).Some?
    ensures Good(Next(s, step).value)
  {
    match step {
      case Enter(key) => EnterKeeps(s, key);
      case Finish(load, outcome) => FinishKeeps(s, load, outcome);
      case Leave(call) => LeaveKeeps(s, call);
      case Cancel(call) => CancelKeeps(s, call);
    }
  }

  lemma {:induction false} RunKeeps<K(!new), V>(s: State<K, V>, steps: seq<Step<K, V>>)
    requires Good(s) && Run(s, steps).Some?
    ensures Good(Run(s, steps).value)
    decreases |steps|
  {
    if steps != [] {
      NextKeeps(s, steps[0]);
      RunKeeps(Next(s, steps[0]).value, steps[1..]);
    }
  }

  // --------------------------------------------------------------- main results

  /** Over every run: a caller that returns does so with the outcome of a load
      for its own key, and it entered while the caller that started that load was
      still in its call, exactly unless that starter had been cancelled before. */
  lemma ReturnsAnOverlappingLoad<K(!new), V>(steps: seq<Step<K, V>>, i: nat)
    requires Run(Empty(), steps).Some?
    requires i < |Run(Empty(), steps).value.calls| && Run(Empty(), steps).value.calls[i].phase.Returned?
    ensures var s := Run(Empty<K, V>(), steps).value;
            var c := s.calls[i];
            c.load < |s.loads| &&
            var load := s.loads[c.load];
            && load.key == c.key && load.outcome == Some(c.phase.result)
            && load.starter < |s.calls|
            && (Overlaps(s.calls[load.starter], c) <==> !StarterGone(s.calls[load.starter], c))
  {
    RunKeeps(Empty<K, V>(), steps);
    assert CallOk(Run(Empty<K, V>(), steps).value, i);
  }

  /** The caller that started the load a key's entry names has not cleared it. */
  lemma EntryStillOwned<K(!new), V>(steps: seq<Step<K, V>>, key: K)
    requires Run(Empty(), steps).Some? && key in Run(Empty<K, V>(), steps).value.inflight
    ensures var s := Run(Empty<K, V>(), steps).value;
            EntryOk(s, key)
  {
    RunKeeps(Empty<K, V>(), steps);
  }

  /** Once every caller has returned, nothing is left in the map. */
  lemma EmptyOnceAllReturned<K(!new), V>(steps: seq<Step<K, V>>)
    requires Run(Empty<K, V>(), steps).Some?
    requires forall i :: 0 <= i < |Run(Empty<K, V>(), steps).value.calls| ==>
               Run(Empty<K, V>(), steps).value.calls[i].phase.Returned?
    ensures Run(Empty<K, V>(), steps).value.inflight == map[]
  {
    RunKeeps(Empty<K, V>(), steps);
    var s := Run(Empty<K, V>(), steps).value;
    assert forall key {:trigger key in s.inflight} :: key in s.inflight ==> EntryOk(s, key);
  }

  /** No caller is ever left waiting with nothing to wait for: its load can still
      be driven to an end by the caller itself, and once it has one, the caller
      can leave. */
  lemma WaiterCanProceed<K(!new), V>(steps: seq<Step<K, V>>, i: nat, v: Result<V, string>)
    requires Run(Empty<K, V>(), steps).Some? && i < |Run(Empty<K, V>(), steps).value.calls|
    requires Run(Empty<K, V>(), steps).value.calls[i].phase == Waiting
    ensures var s := Run(Empty<K, V>(), steps).value;
            Next(s, Finish(s.calls[i].load, v)).Some? || Next(s, Leave(i)).Some?
  {
    RunKeeps(Empty<K, V>(), steps);
    assert CallOk(Run(Empty<K, V>(), steps).value, i);
  }

  /** A run without cancellation: every call overlaps its load's starter. */
  lemma {:induction false} NoCancelNoGone<K(!new), V>(s: State<K, V>, steps: seq<Step<K, V>>)
    requires Run(s, steps).Some?
    requires forall i :: 0 <= i < |s.calls| ==> !s.calls[i].phase.Cancelled?
    requires forall j :: 0 <= j < |steps| ==> !steps[j].Cancel?
    ensures forall i :: 0 <= i < |Run(s, steps).value.calls| ==> !Run(s, steps).value.calls[i].phase.Cancelled?
    decreases |steps|
  {
    if steps != [] {
      assert !steps[0].Cancel?;
      NoCancelNoGone(Next(s, steps[0]).value, steps[1..]);
    }
  }

  lemma OverlapWithoutCancel<K(!new), V>(steps: seq<Step<K, V>>, i: nat)
    requires Run(Empty<K, V>(), steps).Some? && i < |Run(Empty<K, V>(), steps).value.calls|
    requires forall j :: 0 <= j < |steps| ==> !steps[j].Cancel?
    ensures var s := Run(Empty<K, V>(), steps).value;
            s.calls[i].load < |s.loads| && s.loads[s.calls[i].load].starter < |s.calls| &&
            Overlaps(s.calls[s.loads[s.calls[i].load].starter], s.calls[i])
  {
    RunKeeps(Empty<K, V>(), steps);
    NoCancelNoGone(Empty<K, V>(), steps);
    assert CallOk(Run(Empty<K, V>(), steps).value, i);
  }

  lemma RunAppend<K, V>(s: State<K, V>, a: seq<Step<K, V>>, b: Step<K, V>)
    requires Run(s, a).Some?
    ensures Run(s, a + [b]) == Next(Run(s, a).value, b)
    decreases |a|
  {
    if a == [] {
      assert [b][1..] == [];
    } else {
      assert (a + [b])[1..] == a[1..] + [b];
      RunAppend(Next(s, a[0]).value, a[1..], b);
    }
  }

  // ------------------------------------------------- when a key has one open load

  /** An unfinished load is the one its key's entry names. */
  ghost predicate OneOpen<K(!new), V>(s: State<K, V>) {
    forall l {:trigger s.loads[l]} :: 0 <= l < |s.loads| && s.loads[l].outcome.None? ==>
      s.loads[l].key in s.inflight && s.inflight[s.loads[l].key] == l
  }

  /** No key has two unfinished loads. */
  ghost predicate OnePerKey<K, V>(s: State<K, V>) {
    forall l, m {:trigger s.loads[l], s.loads[m]} ::
      0 <= l < m < |s.loads| && s.loads[l].outcome.None? && s.loads[m].outcome.None? ==>
      s.loads[l].key != s.loads[m].key
  }

  /** The clear that goes with this step does not take away an unfinished load's entry. */
  predicate Tidy<K, V>(s: State<K, V>, step: Step<K, V>) {
    match step
    case Leave(call) =>
      call < |s.calls| && s.calls[call].key in s.inflight && s.inflight[s.calls[call].key] < |s.loads| ==>
        s.loads[s.inflight[s.calls[call].key]].outcome.Some?
    case _ => true
  }

  ghost predicate TidyRun<K, V>(s: State<K, V>, steps: seq<Step<K, V>>)
    requires Run(s, steps).Some?
    decreases |steps|
  {
    steps != [] ==> Tidy(s, steps[0]) && TidyRun(Next(s, steps[0]).value, steps[1..])
  }

  /** Wherever the run has got to, and whichever key is asked for next, no key then has
      two unfinished loads. */
  ghost predicate NeverTwo<K(!new), V>(s: State<K, V>, steps: seq<Step<K, V>>)
    requires Run(s, steps).Some?
    decreases |steps|
  {
    && (forall key :: OnePerKey(Next(s, Enter(key)).value))
    && (steps != [] ==> NeverTwo(Next(s, steps[0]).value, steps[1..]))
  }

  lemma TidyKeepsOneOpen<K(!new), V>(s: State<K, V>, step: Step<K, V>)
    requires Good(s) && OneOpen(s) && Next(s, step).Some? && Tidy(s, step)
    ensures OneOpen(Next(s, step).value)
  {
    var s' := Next(s, step).value;
    forall l | 0 <= l < |s'.loads| && s'.loads[l].outcome.None?
      ensures s'.loads[l].key in s'.inflight && s'.inflight[s'.loads[l].key] == l
    {
      if l < |s.loads| { assert s.loads[l].outcome.None?; }
    }
  }

  /** An untidy clear lets the next caller of the key start a second open load. */
  lemma UntidyMakesTwo<K(!new), V>(s: State<K, V>, step: Step<K, V>)
    requires Good(s) && Next(s, step).Some? && !Tidy(s, step)
    ensures step.Leave? && !OnePerKey(Next(Next(s, step).value, Enter(s.calls[step.call].key)).value)
  {
    var key := s.calls[step.call].key;
    assert EntryOk(s, key);
    var s' := Next(Next(s, step).value, Enter(key)).value;
    var l, m := s.inflight[key], |s.loads|;
    assert s'.loads[l] == s.loads[l] && s'.loads[m].key == key;
  }

  lemma OneOpenIsOnePerKey<K(!new), V>(s: State<K, V>)
    requires Good(s) && OneOpen(s)
    ensures forall key :: OnePerKey(Next(s, Enter(key)).value)
  {
    forall key ensures OnePerKey(Next(s, Enter(key)).value) {
      TidyKeepsOneOpen(s, Enter(key));
    }
  }

  lemma {:induction false} OneLoadFrom<K(!new), V>(s: State<K, V>, steps: seq<Step<K, V>>)
    requires Good(s) && OneOpen(s) && Run(s, steps).Some?
    ensures NeverTwo(s, steps) <==> TidyRun(s, steps)
    decreases |steps|
  {
    OneOpenIsOnePerKey(s);
    if steps != [] {
      var s' := Next(s, steps[0]).value;
      NextKeeps(s, steps[0]);
      if Tidy(s, steps[0]) {
        TidyKeepsOneOpen(s, steps[0]);
        OneLoadFrom(s', steps[1..]);
      } else {
        UntidyMakesTwo(s, steps[0]);
      }
    }
  }

  /** At most one load of a key is open, over a whole run and at whatever is asked next,
      exactly when no caller on leaving clears the entry of an unfinished load. */
  lemma OneLoadPerKeyExactlyWhenTidy<K(!new), V>(steps: seq<Step<K, V>>)
    requires Run(Empty<K, V>(), steps).Some?
    ensures NeverTwo(Empty<K, V>(), steps) <==> TidyRun(Empty<K, V>(), steps)
  {
    OneLoadFrom(Empty<K, V>(), steps);
  }

  /** One load per key is not an invariant: a late waiter of the first load
      clears the second one's entry, and the next caller starts a third load while
      the second is still running. */
  lemma TwoLoadsOfOneKey<K, V>(key: K, v: V) returns (steps: seq<Step<K, V>>)
    ensures Run(Empty(), steps).Some?
    ensures var s := Run(Empty<K, V>(), steps).value;
            && |s.loads| == 3 && s.loads[1].key == s.loads[2].key == key
            && s.loads[1].outcome.None? && s.loads[2].outcome.None?
            && Driven(s, 1) && Driven(s, 2)
  {
    var s0 := Empty<K, V>();
    var s1 := Next(s0, Enter(key)).value;
    var s2 := Next(s1, Enter(key)).value;
    assert s2.calls[0].phase == Waiting && s2.calls[0].load == 0;
    var s3 := Next(s2, Finish(0, Ok(v))).value;
    var s4 := Next(s3, Leave(0)).value;
    var s5 := Next(s4, Enter(key)).value;
    var s6 := Next(s5, Leave(1)).value;
    var s7 := Next(s6, Enter(key)).value;
    assert s7.calls[2].phase == Waiting && s7.calls[2].load == 1;
    assert s7.calls[3].phase == Waiting && s7.calls[3].load == 2;
    steps := [];
    RunAppend(s0, steps, Enter(key)); steps := steps + [Enter(key)];
    RunAppend(s0, steps, Enter(key)); steps := steps + [Enter(key)];
    RunAppend(s0, steps, Finish(0, Ok(v))); steps := steps + [Finish(0, Ok(v))];
    RunAppend(s0, steps, Leave(0)); steps := steps + [Leave(0)];
    RunAppend(s0, steps, Enter(key)); steps := steps + [Enter(key)];
    RunAppend(s0, steps, Leave(1)); steps := steps + [Leave(1)];
    RunAppend(s0, steps, Enter(key)); steps := steps + [Enter(key)];
  }

  /** The starter cancelled between the load's end and clearing the key leaves
      the finished load behind: a later call returns its old outcome without any
      load having run during that call. */
  lemma StaleAfterCancel<K, V>(key: K, v: V) returns (steps: seq<Step<K, V>>)
    ensures Run(Empty(), steps).Some?
    ensures var s := Run(Empty<K, V>(), steps).value;
            && |s.calls| == 2 && s.calls[1].key == key
            && s.calls[1].phase.Returned? && s.calls[1].phase.result == Ok(v)
            && StarterGone(s.calls[0], s.calls[1]) && !Overlaps(s.calls[0], s.calls[1])
            && |s.loads| == 1
  {
    var s0 := Empty<K, V>();
    var s1 := Next(s0, Enter(key)).value;
    assert s1.calls[0].phase == Waiting && s1.calls[0].load == 0;
    var s2 := Next(s1, Finish(0, Ok(v))).value;
    var s3 := Next(s2, Cancel(0)).value;
    var s4 := Next(s3, Enter(key)).value;
    var s5 := Next(s4, Leave(1)).value;
    steps := [];
    RunAppend(s0, steps, Enter(key)); steps := steps + [Enter(key)];
    RunAppend(s0, steps, Finish(0, Ok(v))); steps := steps + [Finish(0, Ok(v))];
    RunAppend(s0, steps, Cancel(0)); steps := steps + [Cancel(0)];
    RunAppend(s0, steps, Enter(key)); steps := steps + [Enter(key)];
    RunAppend(s0, steps, Leave(1)); steps := steps + [Leave(1)];
  }
}
