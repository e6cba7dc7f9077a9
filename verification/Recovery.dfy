/** Generation-checked recovery: the one critical section, and every interleaving. */
module Recovery {
  import opened Wrappers

  // A revision's block table is re-listed when a block URL expires, a public link's
  // session renewed when it is gone; both go through this.

  /** A value that can be replaced by a fresh one. */
  datatype Versioned<T> = Versioned(value: T, generation: nat)

  /** What refreshing does with the server's answer, unless someone has already
      replaced the generation the caller saw. */
  function Refreshed<T>(v: Versioned<T>, seen: nat, answer: Option<T>, accept: T -> bool): (Versioned<T>, bool) {
    if v.generation != seen then (v, true)
    else if answer.Some? && accept(answer.value) then (Versioned(answer.value, v.generation + 1), true)
    else (v, false)
  }

  // ----------------------------------------------------------- one file's blocks

  datatype Location = Location(url: string, token: string)

  /** A revision's block table and the means to re-mint it. */
  class BlockTargets {
    var blocks: seq<Location>
    var generation: nat
    const expectedBlocks: nat

    constructor (blocks: seq<Location>, expectedBlocks: nat)
      ensures this.blocks == blocks && generation == 0 && this.expectedBlocks == expectedBlocks
    {
      this.blocks, generation, this.expectedBlocks := blocks, 0, expectedBlocks;
    }

    /** The block's location and the generation it came from. */
    method Locate(index: nat) returns (r: Result<(Location, nat), string>)
      ensures r == if index < |blocks| then Ok((blocks[index], generation)) else Err("missing block")
    {
      if index < |blocks| {
        return Ok((blocks[index], generation));
      }
      return Err("missing block");
    }

    /** Replace the table by `listing`, unless generation `seen` is already gone. */
    method Refresh(seen: nat, listing: Option<seq<Location>>) returns (ok: bool)
      modifies this
      ensures (Versioned(blocks, generation), ok) ==
              Refreshed(Versioned(old(blocks), old(generation)), seen, listing,
                        (bs: seq<Location>) => |bs| == expectedBlocks)
      ensures ok ==> generation != seen
      ensures !ok ==> blocks == old(blocks) && generation == old(generation) == seen
      ensures generation != old(generation) ==>
                old(generation) == seen && generation == seen + 1 && listing == Some(blocks)
                && |blocks| == expectedBlocks
      ensures generation == old(generation) ==> blocks == old(blocks)
    {
      if generation != seen {
        return true;
      }
      match listing {
        case None => return false;
        case Some(listed) =>
          if |listed| != expectedBlocks {
            return false;
          }
          blocks := listed;
          generation := generation + 1;
          return true;
      }
    }

    /** Fetch one block, re-listing once if its URL has expired. `storage` answers
        a fetch at a location: the bytes, an expiry, or another failure. */
    method Ciphertext(index: nat, storage: Location -> Reply, listing: Option<seq<Location>>)
      returns (r: Result<seq<char>, string>, fetches: nat)
      modifies this
      ensures fetches <= 2
      ensures old(|blocks|) == expectedBlocks ==> |blocks| == expectedBlocks
      ensures generation <= old(generation) + 1
      ensures r.Ok? ==> index < |blocks| && storage(blocks[index]) == Bytes(r.value)
      ensures index < old(|blocks|) && storage(old(blocks)[index]).Bytes? ==>
                r == Ok(storage(old(blocks)[index]).bytes) && fetches == 1 && blocks == old(blocks)
      ensures old(|blocks|) == expectedBlocks && index < expectedBlocks && storage(old(blocks)[index]).Expired?
              && listing.Some? && |listing.value| == expectedBlocks ==>
                && blocks == listing.value && fetches == 2
                && (r.Ok? <==> storage(listing.value[index]).Bytes?)
                && (r.Ok? ==> r == Ok(storage(listing.value[index]).bytes))
      ensures index >= old(|blocks|) ==> r.Err? && fetches == 0 && blocks == old(blocks)
      ensures index < old(|blocks|) && storage(old(blocks)[index]).Failed? ==>
                r.Err? && fetches == 1 && blocks == old(blocks)
      ensures index < old(|blocks|) && storage(old(blocks)[index]).Expired?
              && (listing.None? || |listing.value| != expectedBlocks) ==>
                r.Err? && fetches == 1 && blocks == old(blocks)
    {
      fetches := 0;
      var at := Locate(index);
      if at.Err? {
        return Err(at.error), fetches;
      }
      var (place, seen) := at.value;
      fetches := 1;
      match storage(place) {
        case Bytes(bytes) => return Ok(bytes), fetches;
        case Failed => return Err("storage"), fetches;
        case Expired =>
          var ok := Refresh(seen, listing);
          if !ok {
            return Err("refresh"), fetches;
          }
          at := Locate(index);
          if at.Err? {
            return Err(at.error), fetches;
          }
          fetches := 2;
          match storage(at.value.0) {
            case Bytes(bytes) => return Ok(bytes), fetches;
            case _ => return Err("storage"), fetches;
          }
      }
    }
  }

  datatype Reply = Bytes(bytes: seq<char>) | Expired | Failed

  // ------------------------------------------------------------ the step machine

  datatype Phase =
    | Start
    | Trying(seen: nat)        // first attempt out, made with generation `seen`
    | Stale(seen: nat)         // told that it expired; wants the refresh lock
    | Checking(seen: nat)      // holds the lock
    | Listing(seen: nat)       // holds the lock, asked the server
    | Renewed(seen: nat)       // refresh returned Ok
    | Retrying(seen: nat, used: nat)
    | Done(ok: bool)

  /** A caller, with how many attempts it has made. */
  datatype Caller = Caller(phase: Phase, attempts: nat)

  /** `replaced` records the generations that were replaced, in order. */
  datatype State<T> = State(table: Versioned<T>, lock: Option<nat>, replaced: seq<nat>, callers: seq<Caller>)

  datatype Step<T> =
    | Attempt(who: nat)
    | Succeed(who: nat)
    | Fail(who: nat)
    | Expire(who: nat)
    | Acquire(who: nat)
    | Check(who: nat)
    | Answer(who: nat, answer: Option<T>)
    | Cancel(who: nat)

  function At<T>(s: State<T>, who: nat, p: Phase): State<T>
    requires who < |s.callers|
  {
    s.(callers := s.callers[who := s.callers[who].(phase := p)])
  }

  function Tried<T>(s: State<T>, who: nat, p: Phase): State<T>
    requires who < |s.callers|
  {
    s.(callers := s.callers[who := Caller(p, s.callers[who].attempts + 1)])
  }

  function Who<T>(step: Step<T>): nat { step.who }

  function Next<T>(s: State<T>, step: Step<T>, accept: T -> bool): Option<State<T>> {
    var who := Who(step);
    if who >= |s.callers| then None
    else
      var phase := s.callers[who].phase;
      match step
      case Attempt(_) =>
        (match phase
         case Start => Some(Tried(s, who, Trying(s.table.generation)))
         case Renewed(seen) => Some(Tried(s, who, Retrying(seen, s.table.generation)))
         case _ => None)
      case Succeed(_) =>
        if phase.Trying? || phase.Retrying? then Some(At(s, who, Done(true))) else None
      case Fail(_) =>
        if phase.Trying? || phase.Retrying? then Some(At(s, who, Done(false))) else None
      case Expire(_) =>
        if phase.Trying? then Some(At(s, who, Stale(phase.seen)))
        else if phase.Retrying? then Some(At(s, who, Done(false)))
        else None
      case Acquire(_) =>
        if phase.Stale? && s.lock.None? then Some(At(s.(lock := Some(who)), who, Checking(phase.seen))) else None
      case Check(_) =>
        if !phase.Checking? then None
        else if s.table.generation != phase.seen then Some(At(s.(lock := None), who, Renewed(phase.seen)))
        else Some(At(s, who, Listing(phase.seen)))
      case Answer(_, answer) =>
        if !phase.Listing? then None
        else
          var (table, ok) := Refreshed(s.table, phase.seen, answer, accept);
          var replaced := if table.generation != s.table.generation then s.replaced + [phase.seen] else s.replaced;
          Some(At(State(table, None, replaced, s.callers), who, if ok then Renewed(phase.seen) else Done(false)))
      case Cancel(_) =>
        if phase.Done? then None
        else
          var lock := if phase.Checking? || phase.Listing? then None else s.lock;
          Some(At(s.(lock := lock), who, Done(false)))
  }

  function Run<T>(s: State<T>, steps: seq<Step<T>>, accept: T -> bool): Option<State<T>>
    decreases |steps|
  {
    if steps == [] then Some(s)
    else match Next(s, steps[0], accept)
         case None => None
         case Some(s') => Run(s', steps[1..], accept)
  }

  ghost predicate Initial<T>(s: State<T>, accept: T -> bool) {
    && s.table.generation == 0 && accept(s.table.value)
    && s.lock.None? && s.replaced == []
    && forall i :: 0 <= i < |s.callers| ==> s.callers[i] == Caller(Start, 0)
  }

  // ---------------------------------------------------------------- the invariant

  predicate Holds(p: Phase) { p.Checking? || p.Listing? }

  ghost predicate CallerOk<T>(s: State<T>, i: nat)
    requires i < |s.callers|
  {
    var c := s.callers[i];
    var g := s.table.generation;
    && (Holds(c.phase) <==> s.lock == Some(i))
    && match c.phase
       case Start => c.attempts == 0
       case Trying(seen) => c.attempts == 1 && seen <= g
       case Stale(seen) => c.attempts == 1 && seen <= g
       case Checking(seen) => c.attempts == 1 && seen <= g
       case Listing(seen) => c.attempts == 1 && seen == g
       case Renewed(seen) => c.attempts == 1 && seen < g
       case Retrying(seen, used) => c.attempts == 2 && seen < used <= g
       case Done(_) => c.attempts <= 2
  }

  ghost predicate Good<T>(s: State<T>, accept: T -> bool) {
    && accept(s.table.value)
    && |s.replaced| == s.table.generation
    && (forall g :: 0 <= g < |s.replaced| ==> s.replaced[g] == g)
    && (s.lock.Some? ==> s.lock.value < |s.callers|)
    && (forall i {:trigger CallerOk(s, i)} :: 0 <= i < |s.callers| ==> CallerOk(s, i))
  }

  lemma CallerKept<T>(s: State<T>, step: Step<T>, accept: T -> bool, i: nat)
    requires Good(s, accept) && Next(s, step, accept).Some? && i < |s.callers|
    ensures var s' := Next(s, step, accept).value;
      |s'.callers| == |s.callers| && CallerOk(s', i)
  {
    assert CallerOk(s, Who(step)) && CallerOk(s, i);
  }

  lemma TableKept<T>(s: State<T>, step: Step<T>, accept: T -> bool)
    requires Good(s, accept) && Next(s, step, accept).Some?
    ensures var s' := Next(s, step, accept).value;
      && accept(s'.table.value) && |s'.replaced| == s'.table.generation
      && (forall g :: 0 <= g < |s'.replaced| ==> s'.replaced[g] == g)
      && (s'.lock.Some? ==> s'.lock.value < |s.callers|)
  {
    assert CallerOk(s, Who(step));
  }

  lemma NextKeeps<T>(s: State<T>, step: Step<T>, accept: T -> bool)
    requires Good(s, accept) && Next(s, step, accept).Some?
    ensures Good(Next(s, step, accept).value, accept)
    ensures |Next(s, step, accept).value.callers| == |s.callers|
  {
    var s' := Next(s, step, accept).value;
    TableKept(s, step, accept);
    CallerKept(s, step, accept, Who(step));
    forall i | 0 <= i < |s'.callers| ensures CallerOk(s', i) {
      CallerKept(s, step, accept, i);
    }
  }

  lemma {:induction false} RunKeeps<T>(s: State<T>, steps: seq<Step<T>>, accept: T -> bool)
    requires Good(s, accept) && Run(s, steps, accept).Some?
    ensures Good(Run(s, steps, accept).value, accept)
    ensures |Run(s, steps, accept).value.callers| == |s.callers|
    decreases |steps|
  {
    if steps != [] {
      NextKeeps(s, steps[0], accept);
      RunKeeps(Next(s, steps[0], accept).value, steps[1..], accept);
    }
  }

  lemma InitialGood<T>(s: State<T>, accept: T -> bool)
    requires Initial(s, accept)
    ensures Good(s, accept)
  {
    forall i | 0 <= i < |s.callers| ensures CallerOk(s, i) {
    }
  }

  // --------------------------------------------------------------- main results

  /** For any number of callers and any interleaving with failures and
      cancellations: the successful refreshes are exactly the generations, each
      generation was replaced once and in order, and the table in use is always
      one the check accepted. */
  lemma EachGenerationReplacedOnce<T>(s: State<T>, steps: seq<Step<T>>, accept: T -> bool)
    requires Initial(s, accept) && Run(s, steps, accept).Some?
    ensures var s' := Run(s, steps, accept).value;
            && |s'.replaced| == s'.table.generation
            && (forall g :: 0 <= g < |s'.replaced| ==> s'.replaced[g] == g)
            && accept(s'.table.value)
  {
    InitialGood(s, accept);
    RunKeeps(s, steps, accept);
  }

  /** A refresh that returned Ok left a newer generation than the caller saw, and
      the second attempt uses a newer one; no caller makes more than two. */
  lemma RetryUsesNewerTable<T>(s: State<T>, steps: seq<Step<T>>, accept: T -> bool, i: nat)
    requires Initial(s, accept) && Run(s, steps, accept).Some? && i < |s.callers|
    ensures var s' := Run(s, steps, accept).value;
            && i < |s'.callers| && s'.callers[i].attempts <= 2
            && (s'.callers[i].phase.Renewed? ==> s'.callers[i].phase.seen < s'.table.generation)
            && (s'.callers[i].phase.Retrying? ==> s'.callers[i].phase.seen < s'.callers[i].phase.used)
  {
    InitialGood(s, accept);
    RunKeeps(s, steps, accept);
    assert CallerOk(Run(s, steps, accept).value, i);
  }

  /** Only the holder of the lock asks the server, for the generation in use. */
  lemma OneListingAtATime<T>(s: State<T>, steps: seq<Step<T>>, accept: T -> bool, i: nat, j: nat)
    requires Initial(s, accept) && Run(s, steps, accept).Some?
    requires i < |Run(s, steps, accept).value.callers| && j < |Run(s, steps, accept).value.callers|
    requires Run(s, steps, accept).value.callers[i].phase.Listing?
    requires Run(s, steps, accept).value.callers[j].phase.Listing?
    ensures i == j
    ensures Run(s, steps, accept).value.callers[i].phase.seen == Run(s, steps, accept).value.table.generation
  {
    InitialGood(s, accept);
    RunKeeps(s, steps, accept);
    var s' := Run(s, steps, accept).value;
    assert CallerOk(s', i) && CallerOk(s', j);
  }

  /** No deadlock: while a caller is not done, some caller can step. */
  lemma NeverStuck<T>(s: State<T>, steps: seq<Step<T>>, accept: T -> bool, i: nat) returns (step: Step<T>)
    requires Initial(s, accept) && Run(s, steps, accept).Some?
    requires i < |Run(s, steps, accept).value.callers| && !Run(s, steps, accept).value.callers[i].phase.Done?
    ensures !step.Cancel? && Next(Run(s, steps, accept).value, step, accept).Some?
  {
    InitialGood(s, accept);
    RunKeeps(s, steps, accept);
    var s' := Run(s, steps, accept).value;
    var who := i;
    if s'.callers[i].phase.Stale? && s'.lock.Some? {
      who := s'.lock.value;
    }
    assert CallerOk(s', i) && CallerOk(s', who);
    match s'.callers[who].phase {
      case Start => step := Attempt(who);
      case Trying(_) => step := Succeed(who);
      case Stale(_) => step := Acquire(who);
      case Checking(_) => step := Check(who);
      case Listing(_) => step := Answer(who, None);
      case Renewed(_) => step := Attempt(who);
      case Retrying(_, _) => step := Succeed(who);
    }
  }

  // ------------------------------------------------------------- who tries again

  /** The state before step `k` of a run. */
  ghost function StateAt<T>(s: State<T>, steps: seq<Step<T>>, accept: T -> bool, k: nat): State<T>
    requires Run(s, steps, accept).Some? && k <= |steps|
    decreases k
  {
    if k == 0 then s else StateAt(Next(s, steps[0], accept).value, steps[1..], accept, k - 1)
  }

  /** Caller `i`'s own listing was refused: it failed, or did not pass the check. */
  ghost predicate Refused<T>(steps: seq<Step<T>>, accept: T -> bool, i: nat) {
    exists k :: 0 <= k < |steps| && RefusedBy(steps[k], accept, i)
  }

  ghost predicate RefusedBy<T>(step: Step<T>, accept: T -> bool, i: nat) {
    step.Answer? && step.who == i && !(step.answer.Some? && accept(step.answer.value))
  }

  /** At step `k` caller `i` finds its generation already replaced. */
  ghost predicate FindsReplaced<T>(s: State<T>, steps: seq<Step<T>>, accept: T -> bool, i: nat, k: nat)
    requires Run(s, steps, accept).Some? && i < |s.callers|
  {
    && k < |steps| && steps[k] == Check(i)
    && var before := StateAt(s, steps, accept, k);
       i < |before.callers| && before.callers[i].phase.Checking?
       && before.callers[i].phase.seen != before.table.generation
  }

  ghost predicate Recovering(p: Phase) { p.Stale? || p.Checking? || p.Listing? }

  /** Caller `i` is on its way to its end, and nobody cancels it. */
  ghost predicate Ends<T>(s: State<T>, steps: seq<Step<T>>, accept: T -> bool, i: nat) {
    && Run(s, steps, accept).Some? && Cancel(i) !in steps
    && i < |s.callers| && |Run(s, steps, accept).value.callers| == |s.callers|
    && Run(s, steps, accept).value.callers[i].phase.Done?
  }

  lemma OneStep<T>(s: State<T>, steps: seq<Step<T>>, accept: T -> bool, i: nat)
    requires Good(s, accept) && Ends(s, steps, accept, i) && !s.callers[i].phase.Done?
    ensures steps != [] && Next(s, steps[0], accept).Some?
    ensures var s' := Next(s, steps[0], accept).value;
      && Good(s', accept) && Ends(s', steps[1..], accept, i)
      && Run(s', steps[1..], accept) == Run(s, steps, accept)
      && (steps[0].who != i ==> s'.callers[i] == s.callers[i])
      && steps[0] != Cancel(i)
    ensures Refused(steps, accept, i) <==> RefusedBy(steps[0], accept, i) || Refused(steps[1..], accept, i)
  {
    NextKeeps(s, steps[0], accept);
    assert steps[0] in steps;
    if Refused(steps[1..], accept, i) {
      var k :| 0 <= k < |steps[1..]| && RefusedBy(steps[1..][k], accept, i);
      assert RefusedBy(steps[k + 1], accept, i);
    }
    if Refused(steps, accept, i) && !RefusedBy(steps[0], accept, i) {
      var k :| 0 <= k < |steps| && RefusedBy(steps[k], accept, i);
      assert RefusedBy(steps[1..][k - 1], accept, i);
    }
  }

  lemma {:induction false} DoneStays<T>(s: State<T>, steps: seq<Step<T>>, accept: T -> bool, i: nat)
    requires Run(s, steps, accept).Some? && i < |s.callers| && s.callers[i].phase.Done?
    ensures i < |Run(s, steps, accept).value.callers| && Run(s, steps, accept).value.callers[i] == s.callers[i]
    ensures forall k :: 0 <= k < |steps| ==> steps[k].who != i
    decreases |steps|
  {
    if steps != [] {
      DoneStays(Next(s, steps[0], accept).value, steps[1..], accept, i);
      assert forall k :: 0 < k < |steps| ==> steps[k] == steps[1..][k - 1];
    }
  }

  /** A caller whose refresh returned Ok makes its second attempt. */
  lemma {:induction false} RenewedRetries<T>(s: State<T>, steps: seq<Step<T>>, accept: T -> bool, i: nat)
    requires Good(s, accept) && Ends(s, steps, accept, i)
    requires s.callers[i].phase.Renewed? || s.callers[i].phase.Retrying?
    ensures Run(s, steps, accept).value.callers[i].attempts == 2 && !Refused(steps, accept, i)
    decreases |steps|
  {
    OneStep(s, steps, accept, i);
    assert CallerOk(s, i);
    var s' := Next(s, steps[0], accept).value;
    if s'.callers[i].phase.Done? {
      DoneStays(s', steps[1..], accept, i);
    } else {
      RenewedRetries(s', steps[1..], accept, i);
    }
  }

  /** A caller told that its generation expired makes a second attempt exactly unless its
      own listing is refused. */
  lemma {:induction false} RetriesUnlessRefused<T>(s: State<T>, steps: seq<Step<T>>, accept: T -> bool, i: nat)
    requires Good(s, accept) && Ends(s, steps, accept, i) && Recovering(s.callers[i].phase)
    ensures Run(s, steps, accept).value.callers[i].attempts == 2 <==> !Refused(steps, accept, i)
    decreases |steps|
  {
    OneStep(s, steps, accept, i);
    assert CallerOk(s, i);
    var s' := Next(s, steps[0], accept).value;
    assert CallerOk(s', i);
    if s'.callers[i].phase.Done? {
      DoneStays(s', steps[1..], accept, i);
    } else if s'.callers[i].phase.Renewed? {
      RenewedRetries(s', steps[1..], accept, i);
    } else {
      RetriesUnlessRefused(s', steps[1..], accept, i);
    }
  }

  /** A caller that finds its generation already replaced makes a second attempt. */
  lemma {:induction false} ReplacedRetries<T>(s: State<T>, steps: seq<Step<T>>, accept: T -> bool, i: nat, k: nat)
    requires Good(s, accept) && Ends(s, steps, accept, i) && FindsReplaced(s, steps, accept, i, k)
    ensures Run(s, steps, accept).value.callers[i].attempts == 2
    decreases k
  {
    if s.callers[i].phase.Done? {
      DoneStays(s, steps, accept, i);
      assert false;
    } else {
      OneStep(s, steps, accept, i);
      var s' := Next(s, steps[0], accept).value;
      if k == 0 {
        RenewedRetries(s', steps[1..], accept, i);
      } else {
        assert FindsReplaced(s', steps[1..], accept, i, k - 1);
        ReplacedRetries(s', steps[1..], accept, i, k - 1);
      }
    }
  }

  ghost predicate Succeeds<T>(steps: seq<Step<T>>, i: nat) {
    exists k :: 0 <= k < |steps| && steps[k] == Succeed(i)
  }

  /** A caller is told that it succeeded exactly when one of its attempts did. */
  lemma {:induction false} ToldOfSuccess<T>(s: State<T>, steps: seq<Step<T>>, accept: T -> bool, i: nat)
    requires Good(s, accept) && Ends(s, steps, accept, i) && !s.callers[i].phase.Done?
    ensures Run(s, steps, accept).value.callers[i].phase == Done(true) <==> Succeeds(steps, i)
    decreases |steps|
  {
    OneStep(s, steps, accept, i);
    var s' := Next(s, steps[0], accept).value;
    if s'.callers[i].phase.Done? {
      DoneStays(s', steps[1..], accept, i);
      assert forall k :: 0 < k < |steps| ==> steps[k] == steps[1..][k - 1];
    } else {
      ToldOfSuccess(s', steps[1..], accept, i);
      if Succeeds(steps[1..], i) {
        var k :| 0 <= k < |steps[1..]| && steps[1..][k] == Succeed(i);
        assert steps[k + 1] == Succeed(i);
      }
      if Succeeds(steps, i) {
        var k :| 0 <= k < |steps| && steps[k] == Succeed(i);
        assert k > 0 ==> steps[1..][k - 1] == Succeed(i);
      }
    }
  }

  /** A caller can be cancelled at any time, and takes the lock with it to nobody. */
  lemma CancelAnyTime<T>(s: State<T>, accept: T -> bool, i: nat)
    requires Good(s, accept) && i < |s.callers| && !s.callers[i].phase.Done?
    ensures var s' := Next(s, Cancel(i), accept);
      && s'.Some? && s'.value.callers == s.callers[i := s.callers[i].(phase := Done(false))]
      && s'.value.table == s.table && s'.value.lock != Some(i)
      && (s.lock != Some(i) ==> s'.value.lock == s.lock)
  {
    assert CallerOk(s, i);
  }

  // -------------------------------------------------------------------- runs end

  /** How many steps a caller has left at most. */
  function Left(p: Phase): nat {
    match p
    case Start => 7
    case Trying(_) => 6
    case Stale(_) => 5
    case Checking(_) => 4
    case Listing(_) => 3
    case Renewed(_) => 2
    case Retrying(_, _) => 1
    case Done(_) => 0
  }

  function AllLeft(callers: seq<Caller>): nat {
    if callers == [] then 0 else Left(callers[0].phase) + AllLeft(callers[1..])
  }

  lemma {:induction false} LeftUpdate(callers: seq<Caller>, i: nat, c: Caller)
    requires i < |callers|
    ensures AllLeft(callers[i := c]) == AllLeft(callers) - Left(callers[i].phase) + Left(c.phase)
  {
    if i == 0 {
      assert callers[i := c] == [c] + callers[1..];
    } else {
      LeftUpdate(callers[1..], i - 1, c);
      assert callers[i := c][1..] == callers[1..][i - 1 := c];
    }
  }

  lemma {:induction false} LeftBound(callers: seq<Caller>)
    ensures AllLeft(callers) <= 7 * |callers|
  {
    if callers != [] { LeftBound(callers[1..]); }
  }

  lemma NextUsesUp<T>(s: State<T>, step: Step<T>, accept: T -> bool)
    requires Next(s, step, accept).Some?
    ensures AllLeft(Next(s, step, accept).value.callers) < AllLeft(s.callers)
  {
    var c := Next(s, step, accept).value.callers[Who(step)];
    assert Next(s, step, accept).value.callers == s.callers[Who(step) := c];
    LeftUpdate(s.callers, Who(step), c);
  }

  lemma {:induction false} RunUsesUp<T>(s: State<T>, steps: seq<Step<T>>, accept: T -> bool)
    requires Run(s, steps, accept).Some?
    ensures |steps| + AllLeft(Run(s, steps, accept).value.callers) <= AllLeft(s.callers)
    decreases |steps|
  {
    if steps != [] {
      NextUsesUp(s, steps[0], accept);
      RunUsesUp(Next(s, steps[0], accept).value, steps[1..], accept);
    }
  }

  /** Every run ends: no caller takes more than seven steps. */
  lemma RunsEnd<T>(s: State<T>, steps: seq<Step<T>>, accept: T -> bool)
    requires Run(s, steps, accept).Some?
    ensures |steps| <= 7 * |s.callers|
  {
    RunUsesUp(s, steps, accept);
    LeftBound(s.callers);
  }

  /** A run that no caller can continue has every caller done and the lock free. */
  lemma MaximalRunsFinish<T>(s: State<T>, steps: seq<Step<T>>, accept: T -> bool)
    requires Initial(s, accept) && Run(s, steps, accept).Some?
    requires forall step :: Next(Run(s, steps, accept).value, step, accept).Some? ==> step.Cancel?
    ensures var s' := Run(s, steps, accept).value;
      && |s'.callers| == |s.callers| && s'.lock.None?
      && forall i :: 0 <= i < |s'.callers| ==> s'.callers[i].phase.Done?
  {
    InitialGood(s, accept);
    RunKeeps(s, steps, accept);
    var s' := Run(s, steps, accept).value;
    forall i | 0 <= i < |s'.callers| ensures s'.callers[i].phase.Done? {
      if !s'.callers[i].phase.Done? {
        var step := NeverStuck(s, steps, accept, i);
      }
    }
    assert s'.lock.Some? ==> CallerOk(s', s'.lock.value);
  }
}
