/** The gate around the context-share cache: lookups read under it, moves write. */
module ContextGate {
  import opened Wrappers

  // Any number of lookups, local moves and remote invalidations, any interleaving,
  // cancellation at every await, changes from outside and evictions at any time.
  // Nodes and shares are numbers; the server maps a node to the share it is
  // reached through. Time is the number of steps.

  datatype LookupPhase =
    | WantsRead
    | Reading                            // holds the read guard
    | Missed                             // cache miss, request not answered yet
    | Fetched(share: nat, at: nat)       // answered at time `at`, not cached yet
    | Answered(answer: Option<nat>)      // returned; None for an error or cancellation

  datatype MutationPhase =
    | WantsWrite
    | Guarded                            // holds the write guard, nothing sent
    | Sent                               // cache cleared, request out, task detached
    | Replied                            // request over, second clear still to come
    | Settled                            // cleared again, guard released
    | Abandoned                          // cancelled before anything was sent

  datatype InvalidationPhase = WantsClear | Clearing | Invalidated | Dropped

  datatype Task =
    | Lookup(uid: nat, lookup: LookupPhase)
    | Mutation(mutation: MutationPhase)
    | Invalidation(invalidation: InvalidationPhase)

  datatype Entry = Entry(share: nat, at: nat)

  /** `released` is when a mutation or invalidation last finished, `sent` the
      mutations whose request went out, `foreign` the nodes another client has
      changed since the cache was last cleared. */
  datatype State = State(
    now: nat, released: nat, server: map<nat, nat>, cache: map<nat, Entry>,
    foreign: set<nat>, sent: set<nat>, tasks: seq<Task>)

  datatype Step =
    | ReadLock(task: nat) | CheckCache(task: nat) | Fetch(task: nat) | Put(task: nat)
    | WriteLock(task: nat) | Send(task: nat) | Commit(task: nat, server: map<nat, nat>)
    | Reply(task: nat) | Settle(task: nat)
    | ClearLock(task: nat) | Clear(task: nat)
    | Cancel(task: nat)
    | Foreign(server: map<nat, nat>) | Evict(uid: nat)

  predicate Reads(t: Task) {
    t.Lookup? && (t.lookup.Reading? || t.lookup.Missed? || t.lookup.Fetched?)
  }

  predicate Writes(t: Task) {
    || (t.Mutation? && (t.mutation.Guarded? || t.mutation.Sent? || t.mutation.Replied?))
    || (t.Invalidation? && t.invalidation.Clearing?)
  }

  predicate NoWriter(s: State) {
    forall i :: 0 <= i < |s.tasks| ==> !Writes(s.tasks[i])
  }

  predicate NoReader(s: State) {
    forall i :: 0 <= i < |s.tasks| ==> !Reads(s.tasks[i])
  }

  /** Nodes whose answer differs between two server states. */
  function Changed(a: map<nat, nat>, b: map<nat, nat>): set<nat> {
    set u | u in a.Keys + b.Keys && (u !in a || u !in b || a[u] != b[u])
  }

  function Put1(s: State, i: nat, t: Task): State
    requires i < |s.tasks|
  {
    s.(now := s.now + 1, tasks := s.tasks[i := t])
  }

  function LookupStep(s: State, i: nat, step: Step): Option<State>
    requires i < |s.tasks| && s.tasks[i].Lookup?
  {
    var uid, p := s.tasks[i].uid, s.tasks[i].lookup;
    match step
    case ReadLock(_) =>
      if p.WantsRead? && NoWriter(s) then Some(Put1(s, i, Lookup(uid, Reading))) else None
    case CheckCache(_) =>
      if !p.Reading? then None
      else if uid in s.cache then Some(Put1(s, i, Lookup(uid, Answered(Some(s.cache[uid].share)))))
      else Some(Put1(s, i, Lookup(uid, Missed)))
    case Fetch(_) =>
      if !p.Missed? then None
      else if uid in s.server then Some(Put1(s, i, Lookup(uid, Fetched(s.server[uid], s.now))))
      else Some(Put1(s, i, Lookup(uid, Answered(None))))
    case Put(_) =>
      if !p.Fetched? then None
      else Some(Put1(s.(cache := s.cache[uid := Entry(p.share, p.at)]), i, Lookup(uid, Answered(Some(p.share)))))
    case Cancel(_) =>
      if p.Answered? then None else Some(Put1(s, i, Lookup(uid, Answered(None))))
    case _ => None
  }

  function MutationStep(s: State, i: nat, step: Step): Option<State>
    requires i < |s.tasks| && s.tasks[i].Mutation?
  {
    var p := s.tasks[i].mutation;
    match step
    case WriteLock(_) =>
      if p.WantsWrite? && NoWriter(s) && NoReader(s) then Some(Put1(s, i, Mutation(Guarded))) else None
    case Send(_) =>
      if p.Guarded?
      then Some(Put1(s.(cache := map[], foreign := {}, sent := s.sent + {i}), i, Mutation(Sent)))
      else None
    case Commit(_, server) =>
      if p.Sent? then Some(Put1(s.(server := server), i, Mutation(Sent))) else None
    case Reply(_) =>
      if p.Sent? then Some(Put1(s, i, Mutation(Replied))) else None
    case Settle(_) =>
      if p.Replied?
      then Some(Put1(s.(cache := map[], foreign := {}, released := s.now), i, Mutation(Settled)))
      else None
    case Cancel(_) =>
      // Once the request is detached, losing the caller changes nothing.
      if p.WantsWrite? || p.Guarded? then Some(Put1(s, i, Mutation(Abandoned)))
      else if p.Sent? || p.Replied? then Some(Put1(s, i, s.tasks[i]))
      else None
    case _ => None
  }

  function InvalidationStep(s: State, i: nat, step: Step): Option<State>
    requires i < |s.tasks| && s.tasks[i].Invalidation?
  {
    var p := s.tasks[i].invalidation;
    match step
    case ClearLock(_) =>
      if p.WantsClear? && NoWriter(s) && NoReader(s) then Some(Put1(s, i, Invalidation(Clearing))) else None
    case Clear(_) =>
      if p.Clearing?
      then Some(Put1(s.(cache := map[], foreign := {}, released := s.now), i, Invalidation(Invalidated)))
      else None
    case Cancel(_) =>
      if p.WantsClear? || p.Clearing? then Some(Put1(s, i, Invalidation(Dropped))) else None
    case _ => None
  }

  function Next(s: State, step: Step): Option<State> {
    match step
    case Foreign(server) =>
      Some(s.(now := s.now + 1, server := server, foreign := s.foreign + Changed(s.server, server)))
    case Evict(uid) =>
      Some(s.(now := s.now + 1, cache := s.cache - {uid}))
    case _ =>
      var i := step.task;
      if i >= |s.tasks| then None
      else match s.tasks[i]
           case Lookup(_, _) => LookupStep(s, i, step)
           case Mutation(_) => MutationStep(s, i, step)
           case Invalidation(_) => InvalidationStep(s, i, step)
  }

  function Run(s: State, steps: seq<Step>): Option<State>
    decreases |steps|
  {
    if steps == [] then Some(s)
    else match Next(s, steps[0])
         case None => None
         case Some(s') => Run(s', steps[1..])
  }

  predicate Initial(s: State) {
    && s.now == 1 && s.released == 0 && s.cache == map[] && s.foreign == {} && s.sent == {}
    && forall i :: 0 <= i < |s.tasks| ==>
         match s.tasks[i]
         case Lookup(_, p) => p.WantsRead?
         case Mutation(p) => p.WantsWrite?
         case Invalidation(p) => p.WantsClear?
  }

  // ---------------------------------------------------------------- the invariant

  /** `share`, learnt at time `at`, is what the server says now about `uid`,
      unless another client has changed it since the cache was last cleared. */
  ghost predicate Current(s: State, uid: nat, share: nat, at: nat) {
    && s.released < at < s.now
    && (uid in s.foreign || (uid in s.server && s.server[uid] == share))
  }

  ghost predicate TaskOk(s: State, i: nat)
    requires i < |s.tasks|
  {
    match s.tasks[i]
    case Lookup(uid, p) => p.Fetched? ==> Current(s, uid, p.share, p.at)
    case Mutation(p) =>
      && (i in s.sent <==> p.Sent? || p.Replied? || p.Settled?)
      && (p.Sent? || p.Replied? ==> s.cache == map[])
    case Invalidation(_) => i !in s.sent
  }

  ghost predicate Exclusive(s: State) {
    forall i, j :: 0 <= i < |s.tasks| && 0 <= j < |s.tasks| && Writes(s.tasks[i]) ==>
      !Reads(s.tasks[j]) && (Writes(s.tasks[j]) ==> i == j)
  }

  ghost predicate Good(s: State) {
    && s.released < s.now
    && (forall u :: u in s.cache ==> Current(s, u, s.cache[u].share, s.cache[u].at))
    && (forall i {:trigger TaskOk(s, i)} :: 0 <= i < |s.tasks| ==> TaskOk(s, i))
    && Exclusive(s)
  }

  lemma LookupKeeps(s: State, i: nat, step: Step)
    requires Good(s) && i < |s.tasks| && s.tasks[i].Lookup? && LookupStep(s, i, step).Some?
    ensures Good(LookupStep(s, i, step).value)
  {
    var s' := LookupStep(s, i, step).value;
    assert TaskOk(s, i);
    forall j | 0 <= j < |s'.tasks| ensures TaskOk(s', j) {
      assert TaskOk(s, j);
    }
  }

  lemma MutationKeeps(s: State, i: nat, step: Step)
    requires Good(s) && i < |s.tasks| && s.tasks[i].Mutation? && MutationStep(s, i, step).Some?
    ensures Good(MutationStep(s, i, step).value)
  {
    var s' := MutationStep(s, i, step).value;
    assert TaskOk(s, i);
    forall j | 0 <= j < |s'.tasks| ensures TaskOk(s', j) {
      assert TaskOk(s, j);
    }
  }

  lemma InvalidationKeeps(s: State, i: nat, step: Step)
    requires Good(s) && i < |s.tasks| && s.tasks[i].Invalidation? && InvalidationStep(s, i, step).Some?
    ensures Good(InvalidationStep(s, i, step).value)
  {
    var s' := InvalidationStep(s, i, step).value;
    assert TaskOk(s, i);
    forall j | 0 <= j < |s'.tasks| ensures TaskOk(s', j) {
      assert TaskOk(s, j);
    }
  }

  lemma OutsideKeeps(s: State, step: Step)
    requires Good(s) && (step.Foreign? || step.Evict?)
    ensures Good(Next(s, step).value)
  {
    var s' := Next(s, step).value;
    forall j | 0 <= j < |s'.tasks| ensures TaskOk(s', j) {
      assert TaskOk(s, j);
    }
  }

  lemma NextKeeps(s: State, step: Step)
    requires Good(s) && Next(s, step).Some?
    ensures Good(Next(s, step).value)
    ensures |Next(s, step).value.tasks| == |s.tasks|
  {
    if step.Foreign? || step.Evict? {
      OutsideKeeps(s, step);
    } else {
      match s.tasks[step.task]
      case Lookup(_, _) => LookupKeeps(s, step.task, step);
      case Mutation(_) => MutationKeeps(s, step.task, step);
      case Invalidation(_) => InvalidationKeeps(s, step.task, step);
    }
  }

  lemma {:induction false} RunKeeps(s: State, steps: seq<Step>)
    requires Good(s) && Run(s, steps).Some?
    ensures Good(Run(s, steps).value)
    ensures |Run(s, steps).value.tasks| == |s.tasks|
    decreases |steps|
  {
    if steps != [] {
      NextKeeps(s, steps[0]);
      RunKeeps(Next(s, steps[0]).value, steps[1..]);
    }
  }

  lemma InitialGood(s: State)
    requires Initial(s)
    ensures Good(s)
  {
    forall i | 0 <= i < |s.tasks| ensures TaskOk(s, i) {
    }
  }

  // --------------------------------------------------------------- main results

  /** Over every run: whatever is cached was fetched after the last mutation or
      invalidation released the gate, and is what the server says now unless
      something outside the gate has changed that node since. */
  lemma CachedIsFresh(s: State, steps: seq<Step>, uid: nat)
    requires Initial(s) && Run(s, steps).Some? && uid in Run(s, steps).value.cache
    ensures var s' := Run(s, steps).value;
            Current(s', uid, s'.cache[uid].share, s'.cache[uid].at)
  {
    InitialGood(s);
    RunKeeps(s, steps);
  }

  /** A lookup, hit or miss, returns what the server says at the moment it
      returns, unless something outside the gate has changed that node since the
      cache was last cleared: no move that takes the gate is ever missed. */
  lemma LookupsReadOwnMoves(s: State, steps: seq<Step>, step: Step)
    requires Initial(s) && Run(s, steps).Some?
    requires (step.CheckCache? || step.Put?) && Next(Run(s, steps).value, step).Some?
    ensures var s' := Next(Run(s, steps).value, step).value;
            step.task < |s'.tasks| && s'.tasks[step.task].Lookup? &&
            var t := s'.tasks[step.task];
            t.lookup.Answered? && t.lookup.answer.Some? ==>
              t.uid in s'.foreign || (t.uid in s'.server && s'.server[t.uid] == t.lookup.answer.value)
  {
    InitialGood(s);
    RunKeeps(s, steps);
    assert TaskOk(Run(s, steps).value, step.task);
  }

  /** A mutation cancelled before its request went out never sends it; one whose
      request did go out is never abandoned. */
  lemma CancelledNeverSends(s: State, steps: seq<Step>, i: nat)
    requires Initial(s) && Run(s, steps).Some?
    requires i < |Run(s, steps).value.tasks| && Run(s, steps).value.tasks[i].Mutation?
    ensures var s' := Run(s, steps).value;
            var p := s'.tasks[i].mutation;
            && (p.Abandoned? || p.WantsWrite? || p.Guarded? ==> i !in s'.sent)
            && (i in s'.sent ==> p.Sent? || p.Replied? || p.Settled?)
  {
    InitialGood(s);
    RunKeeps(s, steps);
    assert TaskOk(Run(s, steps).value, i);
  }

  /** Once sent, a mutation stays sent whatever happens, cancellation included. */
  lemma {:induction false} SentStaysSent(s: State, steps: seq<Step>, i: nat)
    requires Run(s, steps).Some? && i < |s.tasks| && s.tasks[i].Mutation?
    requires s.tasks[i].mutation.Sent? || s.tasks[i].mutation.Replied? || s.tasks[i].mutation.Settled?
    ensures var s' := Run(s, steps).value;
            i < |s'.tasks| && s'.tasks[i].Mutation? &&
            (s'.tasks[i].mutation.Sent? || s'.tasks[i].mutation.Replied? || s'.tasks[i].mutation.Settled?)
    decreases |steps|
  {
    if steps != [] {
      SentStaysSent(Next(s, steps[0]).value, steps[1..], i);
    }
  }

  /** A sent mutation can always go on to its second clear, and that clear leaves
      the cache empty and the gate released. */
  lemma SentFinishes(s: State, i: nat)
    requires i < |s.tasks| && s.tasks[i].Mutation?
    requires s.tasks[i].mutation.Sent? || s.tasks[i].mutation.Replied?
    ensures s.tasks[i].mutation.Sent? ==>
              Run(s, [Reply(i), Settle(i)]).Some? &&
              var s' := Run(s, [Reply(i), Settle(i)]).value;
              s'.cache == map[] && s'.tasks == s.tasks[i := Mutation(Settled)]
    ensures s.tasks[i].mutation.Replied? ==>
              Next(s, Settle(i)).Some? &&
              Next(s, Settle(i)).value.cache == map[] &&
              Next(s, Settle(i)).value.tasks == s.tasks[i := Mutation(Settled)]
  {
    if s.tasks[i].mutation.Sent? {
      var s1 := Next(s, Reply(i)).value;
      assert s1.tasks[i] == Mutation(Replied);
      var s2 := Next(s1, Settle(i)).value;
      assert s1.tasks[i := Mutation(Settled)] == s.tasks[i := Mutation(Settled)];
      assert [Reply(i), Settle(i)][1..] == [Settle(i)];
      assert Run(s1, [Settle(i)]) == Some(s2) by {
        assert [Settle(i)][1..] == [];
      }
    }
  }

  /** While a mutation's request is out no lookup holds the gate and nothing is
      cached, so a commit at any point of the request is never seen half way. */
  lemma NothingCachedWhileSent(s: State, steps: seq<Step>, i: nat, j: nat)
    requires Initial(s) && Run(s, steps).Some?
    requires var s' := Run(s, steps).value;
             i < |s'.tasks| && j < |s'.tasks| && s'.tasks[i].Mutation? &&
             (s'.tasks[i].mutation.Sent? || s'.tasks[i].mutation.Replied?)
    ensures var s' := Run(s, steps).value;
            s'.cache == map[] && !Reads(s'.tasks[j]) && (j != i ==> !Writes(s'.tasks[j]))
  {
    InitialGood(s);
    RunKeeps(s, steps);
    assert TaskOk(Run(s, steps).value, i);
  }

  lemma {:induction false} ReleasedGrows(s: State, steps: seq<Step>)
    requires Good(s) && Run(s, steps).Some?
    ensures s.released <= Run(s, steps).value.released
    decreases |steps|
  {
    if steps != [] {
      NextKeeps(s, steps[0]);
      ReleasedGrows(Next(s, steps[0]).value, steps[1..]);
    }
  }

  /** Nothing cached outlives the end of an invalidation or of a move: what is cached at any
      time after it was fetched after it. */
  lemma NothingOutlives(s: State, end: Step, steps: seq<Step>, uid: nat)
    requires Good(s) && (end.Clear? || end.Settle?) && Next(s, end).Some?
    requires Run(Next(s, end).value, steps).Some? && uid in Run(Next(s, end).value, steps).value.cache
    ensures Next(s, end).value.cache == map[]
    ensures s.now < Run(Next(s, end).value, steps).value.cache[uid].at
  {
    NextKeeps(s, end);
    RunKeeps(Next(s, end).value, steps);
    ReleasedGrows(Next(s, end).value, steps);
  }

  /** Any task can lose its caller at any time; a sent move goes on as if nothing had
      happened, and anything else is over and holds the gate no longer. */
  lemma CancelAnyTime(s: State, i: nat)
    requires i < |s.tasks| && !Over(s.tasks[i])
    ensures var s' := Next(s, Cancel(i));
      && s'.Some? && s'.value.cache == s.cache && s'.value.server == s.server && s'.value.sent == s.sent
      && |s'.value.tasks| == |s.tasks|
      && (forall j :: 0 <= j < |s.tasks| && j != i ==> s'.value.tasks[j] == s.tasks[j])
      && if s.tasks[i].Mutation? && (s.tasks[i].mutation.Sent? || s.tasks[i].mutation.Replied?)
         then s'.value.tasks[i] == s.tasks[i]
         else Over(s'.value.tasks[i]) && !Reads(s'.value.tasks[i]) && !Writes(s'.value.tasks[i])
  {
  }

  // ------------------------------------------------------- what a lookup answers

  /** The state before step `k` of a run. */
  ghost function At(s: State, steps: seq<Step>, k: nat): State
    requires Run(s, steps).Some? && k <= |steps|
    decreases k
  {
    if k == 0 then s else At(Next(s, steps[0]).value, steps[1..], k - 1)
  }

  /** Lookup `i` is under way in `s` and returns `answer` in the run, uncancelled. */
  ghost predicate Answers(s: State, steps: seq<Step>, i: nat, answer: Option<nat>) {
    && i < |s.tasks| && s.tasks[i].Lookup? && !s.tasks[i].lookup.Answered?
    && Cancel(i) !in steps && Run(s, steps).Some?
    && i < |Run(s, steps).value.tasks|
    && Run(s, steps).value.tasks[i] == Lookup(s.tasks[i].uid, Answered(answer))
  }

  /** Lookup `i`, having missed, asks the server at `ask`; what it says is the answer, and is
      cached at `put`. */
  ghost predicate AsksAt(s: State, steps: seq<Step>, i: nat, uid: nat, answer: Option<nat>, ask: nat, put: nat)
    requires Run(s, steps).Some?
  {
    && ask < |steps| && put < |steps| && steps[ask] == Fetch(i)
    && (answer.None? <==> uid !in At(s, steps, ask).server)
    && (answer.Some? ==>
          && answer.value == At(s, steps, ask).server[uid]
          && ask < put && steps[put] == Put(i)
          && At(s, steps, put + 1).cache ==
             At(s, steps, put).cache[uid := Entry(answer.value, At(s, steps, ask).now)])
  }

  /** Lookup `i` looks in the cache at `look`; a hit is the answer, a miss asks the server. */
  ghost predicate LooksAt(s: State, steps: seq<Step>, i: nat, uid: nat, answer: Option<nat>,
                          look: nat, ask: nat, put: nat)
    requires Run(s, steps).Some?
  {
    && look < |steps| && steps[look] == CheckCache(i)
    && var cache := At(s, steps, look).cache;
       if uid in cache then answer == Some(cache[uid].share)
       else look < ask && AsksAt(s, steps, i, uid, answer, ask, put)
  }

  /** A lookup that is not cancelled answers the share cached when it looks; else what the
      server says when it asks, which is then cached. It finds nothing just when neither the
      cache, when it looks, nor the server, when it asks, knows its node. */
  lemma {:induction false} LookupAnswers(s: State, steps: seq<Step>, i: nat, answer: Option<nat>)
    returns (look: nat, ask: nat, put: nat)
    requires Answers(s, steps, i, answer) && (s.tasks[i].lookup.WantsRead? || s.tasks[i].lookup.Reading?)
    ensures LooksAt(s, steps, i, s.tasks[i].uid, answer, look, ask, put)
    decreases |steps|
  {
    var s', uid := Next(s, steps[0]).value, s.tasks[i].uid;
    Goes(s, steps, i, answer);
    if s'.tasks[i].lookup.Answered? {
      look, ask, put := 0, 0, 0;
      Hits(s, steps, i, answer);
    } else if s'.tasks[i].lookup.Missed? {
      ask, put := MissAsks(s', steps[1..], i, answer);
      AsksLater(s, steps, i, uid, answer, ask, put);
      look, ask, put := 0, ask + 1, put + 1;
      Misses(s, steps, i, answer);
    } else {
      look, ask, put := LookupAnswers(s', steps[1..], i, answer);
      LooksLater(s, steps, i, uid, answer, look, ask, put);
      look, ask, put := look + 1, ask + 1, put + 1;
    }
  }

  lemma AsksLater(s: State, steps: seq<Step>, i: nat, uid: nat, answer: Option<nat>, ask: nat, put: nat)
    requires Run(s, steps).Some? && steps != []
    requires AsksAt(Next(s, steps[0]).value, steps[1..], i, uid, answer, ask, put)
    ensures AsksAt(s, steps, i, uid, answer, ask + 1, put + 1)
  {
  }

  lemma LooksLater(s: State, steps: seq<Step>, i: nat, uid: nat, answer: Option<nat>, look: nat, ask: nat, put: nat)
    requires Run(s, steps).Some? && steps != []
    requires LooksAt(Next(s, steps[0]).value, steps[1..], i, uid, answer, look, ask, put)
    ensures LooksAt(s, steps, i, uid, answer, look + 1, ask + 1, put + 1)
  {
    if uid !in At(s, steps, look + 1).cache { AsksLater(s, steps, i, uid, answer, ask, put); }
  }

  lemma Hits(s: State, steps: seq<Step>, i: nat, answer: Option<nat>)
    requires Answers(s, steps, i, answer) && (s.tasks[i].lookup.WantsRead? || s.tasks[i].lookup.Reading?)
    requires steps != [] && Next(s, steps[0]).Some? && i < |Next(s, steps[0]).value.tasks|
    requires var t := Next(s, steps[0]).value.tasks[i]; t.Lookup? && t.lookup.Answered?
    ensures LooksAt(s, steps, i, s.tasks[i].uid, answer, 0, 0, 0)
    ensures s.tasks[i].uid in s.cache
  {
    Goes(s, steps, i, answer);
    StaysAnswered(Next(s, steps[0]).value, steps[1..], i);
  }

  lemma Misses(s: State, steps: seq<Step>, i: nat, answer: Option<nat>)
    requires Answers(s, steps, i, answer) && (s.tasks[i].lookup.WantsRead? || s.tasks[i].lookup.Reading?)
    requires steps != [] && Next(s, steps[0]).Some? && i < |Next(s, steps[0]).value.tasks|
    requires var t := Next(s, steps[0]).value.tasks[i]; t.Lookup? && t.lookup.Missed?
    ensures steps[0] == CheckCache(i) && s.tasks[i].uid !in s.cache
  {
    Goes(s, steps, i, answer);
  }

  /** One step of a run: another task's, or the lookup's own next one. */
  lemma Goes(s: State, steps: seq<Step>, i: nat, answer: Option<nat>)
    requires Answers(s, steps, i, answer)
    ensures steps != [] && Next(s, steps[0]).Some?
    ensures var s' := Next(s, steps[0]).value;
      && i < |s'.tasks| && s'.tasks[i].Lookup? && s'.tasks[i].uid == s.tasks[i].uid
      && Run(s', steps[1..]) == Run(s, steps) && Cancel(i) !in steps[1..]
      && (s'.tasks[i] != s.tasks[i] ==>
            match s.tasks[i].lookup
            case WantsRead => s'.tasks[i].lookup.Reading?
            case Reading => steps[0] == CheckCache(i)
            case Missed => steps[0] == Fetch(i)
            case Fetched(_, _) => steps[0] == Put(i)
            case Answered(_) => true)
  {
    assert steps[0] in steps;
    OneTaskMoves(s, steps[0], i);
  }

  lemma OneTaskMoves(s: State, step: Step, i: nat)
    requires i < |s.tasks| && s.tasks[i].Lookup? && Next(s, step).Some?
    ensures |Next(s, step).value.tasks| == |s.tasks|
    ensures Next(s, step).value.tasks[i] == s.tasks[i] || (!step.Foreign? && !step.Evict? && step.task == i)
  {
  }

  lemma {:induction false} StaysAnswered(s: State, steps: seq<Step>, i: nat)
    requires i < |s.tasks| && s.tasks[i].Lookup? && s.tasks[i].lookup.Answered? && Run(s, steps).Some?
    ensures i < |Run(s, steps).value.tasks| && Run(s, steps).value.tasks[i] == s.tasks[i]
    decreases |steps|
  {
    if steps != [] { StaysAnswered(Next(s, steps[0]).value, steps[1..], i); }
  }

  lemma {:induction false} MissAsks(s: State, steps: seq<Step>, i: nat, answer: Option<nat>)
    returns (ask: nat, put: nat)
    requires Answers(s, steps, i, answer) && s.tasks[i].lookup.Missed?
    ensures AsksAt(s, steps, i, s.tasks[i].uid, answer, ask, put)
    decreases |steps|
  {
    var s' := Next(s, steps[0]).value;
    Goes(s, steps, i, answer);
    if s'.tasks[i].lookup.Answered? {
      ask, put := 0, 0;
      StaysAnswered(s', steps[1..], i);
    } else if s'.tasks[i].lookup.Fetched? {
      ask := 0;
      put := FetchedPuts(s', steps[1..], i, answer);
      put := put + 1;
    } else {
      ask, put := MissAsks(s', steps[1..], i, answer);
      ask, put := ask + 1, put + 1;
    }
  }

  lemma {:induction false} FetchedPuts(s: State, steps: seq<Step>, i: nat, answer: Option<nat>) returns (put: nat)
    requires Answers(s, steps, i, answer) && s.tasks[i].lookup.Fetched?
    ensures put < |steps| && steps[put] == Put(i) && answer == Some(s.tasks[i].lookup.share)
    ensures At(s, steps, put + 1).cache ==
            At(s, steps, put).cache[s.tasks[i].uid := Entry(answer.value, s.tasks[i].lookup.at)]
    decreases |steps|
  {
    var s' := Next(s, steps[0]).value;
    Goes(s, steps, i, answer);
    if s'.tasks[i].lookup.Answered? {
      put := 0;
      StaysAnswered(s', steps[1..], i);
      assert At(s, steps, 1) == At(s', steps[1..], 0);
    } else {
      put := FetchedPuts(s', steps[1..], i, answer);
      put := put + 1;
    }
  }

  predicate Over(t: Task) {
    match t
    case Lookup(_, p) => p.Answered?
    case Mutation(p) => p.Settled? || p.Abandoned?
    case Invalidation(p) => p.Invalidated? || p.Dropped?
  }

  /** No deadlock: a guard holder can always go on, and with nobody holding the
      gate anyone can enter it. */
  lemma NeverStuck(s: State, i: nat) returns (step: Step)
    requires i < |s.tasks| && !Over(s.tasks[i])
    ensures !step.Cancel? && !step.Foreign? && !step.Evict? && Next(s, step).Some?
  {
    var who := i;
    if j :| 0 <= j < |s.tasks| && (Writes(s.tasks[j]) || Reads(s.tasks[j])) {
      who := j;
    }
    match s.tasks[who] {
      case Lookup(_, p) =>
        step := match p
          case WantsRead => ReadLock(who)
          case Reading => CheckCache(who)
          case Missed => Fetch(who)
          case Fetched(_, _) => Put(who);
      case Mutation(p) =>
        step := match p
          case WantsWrite => WriteLock(who)
          case Guarded => Send(who)
          case Sent => Reply(who)
          case Replied => Settle(who);
      case Invalidation(p) =>
        step := match p
          case WantsClear => ClearLock(who)
          case Clearing => Clear(who);
    }
  }
}
