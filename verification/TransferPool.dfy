/** Any number of uploads and downloads sharing one pool of block permits. */
module TransferPool {
  import opened Wrappers
  import opened TransferSteps
  import opened TransferMoves

  // The pool is a fair semaphore: a released permit goes to the oldest queued
  // request if there is one, and a permit is free only while nothing is queued.
  // Which transfer moves next, in which order stored blocks come back, how many
  // blocks a batch takes and when a transfer fails or is cancelled are all left
  // open: a run is any sequence of steps.

  datatype Ticket = Ticket(owner: nat, block: nat)

  datatype State = State(free: nat, queue: seq<Ticket>, transfers: seq<Transfer>)

  datatype Step =
    | Act(who: nat, move: Move)
    | Drop(who: nat)           // the transfer fails, or its caller goes away

  function Release(s: State): State {
    if s.queue == [] then s.(free := s.free + 1)
    else
      var head := s.queue[0];
      if head.owner < |s.transfers| then
        s.(queue := s.queue[1..],
           transfers := s.transfers[head.owner := Grant(s.transfers[head.owner], head.block)])
      else s
  }

  function ReleaseMany(s: State, n: nat): State
    decreases n
  {
    if n == 0 then s else ReleaseMany(Release(s), n - 1)
  }

  /** The queue without the requests of `who`. */
  function Without(q: seq<Ticket>, who: nat): seq<Ticket> {
    if q == [] then []
    else (if q[0].owner == who then [] else [q[0]]) + Without(q[1..], who)
  }

  function Apply(s: State, who: nat, e: Effect): State {
    match e
    case Keep => s
    case Take => if s.free > 0 then s.(free := s.free - 1) else s
    case Give => Release(s)
    case Wait(block) => s.(queue := s.queue + [Ticket(who, block)])
  }

  function Next(s: State, step: Step): Option<State> {
    match step
    case Act(who, move) =>
      if who >= |s.transfers| then None
      else (match Local(s.transfers[who], move, s.free > 0)
            case None => None
            case Some((t, e)) => Some(Apply(s.(transfers := s.transfers[who := t]), who, e)))
    case Drop(who) =>
      if who >= |s.transfers| || Finished(s.transfers[who]) then None
      else Some(ReleaseMany(s.(transfers := s.transfers[who := Dropped], queue := Without(s.queue, who)),
                            Held(s.transfers[who])))
  }

  function Run(s: State, steps: seq<Step>): Option<State>
    decreases |steps|
  {
    if steps == [] then Some(s)
    else match Next(s, steps[0])
         case None => None
         case Some(s') => Run(s', steps[1..])
  }

  /** A client with `pool` permits about to run these transfers. */
  predicate Initial(pool: nat, s: State) {
    && s.free == pool && s.queue == []
    && forall i :: 0 <= i < |s.transfers| ==>
         (s.transfers[i].Upload? && s.transfers[i] == NewUpload(s.transfers[i].total)) ||
         (s.transfers[i].Download? && s.transfers[i] == NewDownload(s.transfers[i].total))
  }

  predicate AllFinished(s: State) {
    forall i :: 0 <= i < |s.transfers| ==> Finished(s.transfers[i])
  }

  // ------------------------------------------------------------- the invariant

  function TotalHeld(ts: seq<Transfer>): nat {
    if ts == [] then 0 else Held(ts[0]) + TotalHeld(ts[1..])
  }

  function TotalWork(ts: seq<Transfer>): int {
    if ts == [] then 0 else Work(ts[0]) + TotalWork(ts[1..])
  }

  /** The queued requests of `who`, oldest first. */
  function Tickets(q: seq<Ticket>, who: nat): seq<nat> {
    if q == [] then []
    else (if q[0].owner == who then [q[0].block] else []) + Tickets(q[1..], who)
  }

  /** Transfer `i` is well formed and its queued requests are those it is
      waiting for, in the order it made them. */
  ghost predicate Sound(s: State, i: nat)
    requires i < |s.transfers|
  {
    TransferOk(s.transfers[i]) && Tickets(s.queue, i) == Pending(s.transfers[i])
  }

  ghost predicate Good(s: State) {
    && (s.free > 0 ==> s.queue == [])
    && (forall k :: 0 <= k < |s.queue| ==> s.queue[k].owner < |s.transfers|)
    && (forall i {:trigger Sound(s, i)} :: 0 <= i < |s.transfers| ==> Sound(s, i))
  }

  /** Every permit is either free or held by exactly one block. */
  ghost predicate Conserved(pool: nat, s: State) {
    s.free + TotalHeld(s.transfers) == pool
  }

  // ---------------------------------------------------------------- bookkeeping

  lemma {:induction false} HeldUpdate(ts: seq<Transfer>, i: nat, t: Transfer)
    requires i < |ts|
    ensures TotalHeld(ts[i := t]) == TotalHeld(ts) - Held(ts[i]) + Held(t)
    ensures TotalWork(ts[i := t]) == TotalWork(ts) - Work(ts[i]) + Work(t)
  {
    if i == 0 {
      assert ts[i := t] == [t] + ts[1..];
    } else {
      HeldUpdate(ts[1..], i - 1, t);
      assert ts[i := t][1..] == ts[1..][i - 1 := t];
    }
  }

  lemma {:induction false} TicketsAppend(q: seq<Ticket>, x: Ticket, who: nat)
    ensures Tickets(q + [x], who) == Tickets(q, who) + (if x.owner == who then [x.block] else [])
  {
    if q == [] {
      assert q + [x] == [x];
    } else {
      TicketsAppend(q[1..], x, who);
      assert (q + [x])[1..] == q[1..] + [x];
    }
  }

  lemma {:induction false} TicketsWithout(q: seq<Ticket>, gone: nat, who: nat)
    ensures Tickets(Without(q, gone), who) == if who == gone then [] else Tickets(q, who)
  {
    if q != [] {
      TicketsWithout(q[1..], gone, who);
      if q[0].owner == gone {
        assert Without(q, gone) == Without(q[1..], gone);
      } else {
        assert Without(q, gone)[1..] == Without(q[1..], gone);
      }
    }
  }

  lemma {:induction false} WithoutOwners(q: seq<Ticket>, gone: nat, n: nat)
    requires forall k :: 0 <= k < |q| ==> q[k].owner < n
    ensures forall k :: 0 <= k < |Without(q, gone)| ==> Without(q, gone)[k].owner < n
  {
    if q != [] {
      WithoutOwners(q[1..], gone, n);
    }
  }

  /** The head of the queue is its owner's oldest request. */
  lemma HeadIsOldest(s: State)
    requires Good(s) && s.queue != []
    ensures var head := s.queue[0];
      var t := s.transfers[head.owner];
      && TransferOk(t) && Pending(t) != [] && Pending(t)[0] == head.block
      && Tickets(s.queue[1..], head.owner) == Pending(t)[1..]
  {
    var head := s.queue[0];
    assert Sound(s, head.owner);
    assert Tickets(s.queue, head.owner) == [head.block] + Tickets(s.queue[1..], head.owner);
  }

  lemma GrantedSound(s: State, i: nat)
    requires Good(s) && s.queue != [] && i < |s.transfers|
    ensures Sound(Release(s), i)
  {
    var head := s.queue[0];
    HeadIsOldest(s);
    if i == head.owner {
      GrantKeeps(s.transfers[i], head.block);
    } else {
      assert Sound(s, i);
      assert Tickets(s.queue, i) == [] + Tickets(s.queue[1..], i);
    }
  }

  /** Handing the released permit on keeps everything, and loses no permit. */
  lemma ReleaseKeeps(s: State)
    requires Good(s)
    ensures Good(Release(s))
    ensures |Release(s).transfers| == |s.transfers|
    ensures Release(s).free + TotalHeld(Release(s).transfers) == s.free + TotalHeld(s.transfers) + 1
    ensures TotalWork(Release(s).transfers) <= TotalWork(s.transfers)
  {
    var s' := Release(s);
    if s.queue != [] {
      var head := s.queue[0];
      HeadIsOldest(s);
      GrantKeeps(s.transfers[head.owner], head.block);
      HeldUpdate(s.transfers, head.owner, Grant(s.transfers[head.owner], head.block));
      forall i | 0 <= i < |s.transfers| ensures Sound(s', i) {
        GrantedSound(s, i);
      }
    } else {
      forall i | 0 <= i < |s.transfers| ensures Sound(s', i) {
        assert Sound(s, i);
      }
    }
  }

  lemma {:induction false} ReleaseManyKeeps(s: State, n: nat)
    requires Good(s)
    ensures Good(ReleaseMany(s, n))
    ensures |ReleaseMany(s, n).transfers| == |s.transfers|
    ensures ReleaseMany(s, n).free + TotalHeld(ReleaseMany(s, n).transfers) == s.free + TotalHeld(s.transfers) + n
    ensures TotalWork(ReleaseMany(s, n).transfers) <= TotalWork(s.transfers)
    decreases n
  {
    if n > 0 {
      ReleaseKeeps(s);
      ReleaseManyKeeps(Release(s), n - 1);
    }
  }

  /** Released permits go to the queued requests in the order these were made. */
  lemma {:induction false} ReleasesInOrder(s: State, n: nat)
    requires Good(s) && n <= |s.queue|
    ensures ReleaseMany(s, n).queue == s.queue[n..]
    ensures ReleaseMany(s, n).free == s.free
    decreases n
  {
    if n > 0 {
      ReleaseKeeps(s);
      ReleasesInOrder(Release(s), n - 1);
      assert s.queue[1..][n - 1..] == s.queue[n..];
    }
  }

  /** An unfinished transfer can fail or be cancelled at any time; it is then gone, and
      nothing it had queued is left. */
  lemma DropsAnyTime(pool: nat, s: State, who: nat)
    requires Good(s) && Conserved(pool, s) && who < |s.transfers| && !Finished(s.transfers[who])
    ensures Next(s, Drop(who)).Some?
    ensures var s' := Next(s, Drop(who)).value;
      StepOk(pool, s, s') && Tickets(s'.queue, who) == [] && Held(s'.transfers[who]) == 0 && Finished(s'.transfers[who])
  {
    DropKeeps(pool, s, who);
    var m := s.(transfers := s.transfers[who := Dropped], queue := Without(s.queue, who));
    StaysDropped(m, Held(s.transfers[who]), who);
    assert Sound(Next(s, Drop(who)).value, who);
  }

  lemma {:induction false} StaysDropped(s: State, n: nat, who: nat)
    requires who < |s.transfers| && s.transfers[who].Dropped?
    ensures who < |ReleaseMany(s, n).transfers| && ReleaseMany(s, n).transfers[who].Dropped?
    decreases n
  {
    if n > 0 { StaysDropped(Release(s), n - 1, who); }
  }

  ghost predicate StepOk(pool: nat, s: State, s': State) {
    && Good(s') && Conserved(pool, s')
    && |s'.transfers| == |s.transfers|
    && TotalWork(s'.transfers) < TotalWork(s.transfers)
  }

  /** Replacing one transfer by one with the same queued requests. */
  lemma ReplaceKeeps(s: State, who: nat, t: Transfer)
    requires Good(s) && who < |s.transfers|
    requires TransferOk(t) && Pending(t) == Pending(s.transfers[who])
    ensures Good(s.(transfers := s.transfers[who := t]))
    ensures TotalHeld(s.transfers[who := t]) == TotalHeld(s.transfers) - Held(s.transfers[who]) + Held(t)
    ensures TotalWork(s.transfers[who := t]) == TotalWork(s.transfers) - Work(s.transfers[who]) + Work(t)
  {
    HeldUpdate(s.transfers, who, t);
    var s' := s.(transfers := s.transfers[who := t]);
    forall i | 0 <= i < |s.transfers| ensures Sound(s', i) {
      assert Sound(s, i) && Sound(s, who);
    }
  }

  lemma TakeOneKeeps(s: State)
    requires Good(s) && s.free > 0
    ensures Good(s.(free := s.free - 1))
  {
    var s' := s.(free := s.free - 1);
    forall i | 0 <= i < |s.transfers| ensures Sound(s', i) {
      assert Sound(s, i);
    }
  }

  lemma WaitKeeps(s: State, who: nat, t: Transfer, block: nat)
    requires Good(s) && who < |s.transfers| && s.free == 0
    requires TransferOk(t) && Pending(t) == Pending(s.transfers[who]) + [block]
    ensures Good(s.(transfers := s.transfers[who := t], queue := s.queue + [Ticket(who, block)]))
    ensures TotalHeld(s.transfers[who := t]) == TotalHeld(s.transfers) - Held(s.transfers[who]) + Held(t)
    ensures TotalWork(s.transfers[who := t]) == TotalWork(s.transfers) - Work(s.transfers[who]) + Work(t)
  {
    HeldUpdate(s.transfers, who, t);
    var s' := s.(transfers := s.transfers[who := t], queue := s.queue + [Ticket(who, block)]);
    forall i | 0 <= i < |s.transfers| ensures Sound(s', i) {
      assert Sound(s, i) && Sound(s, who);
      TicketsAppend(s.queue, Ticket(who, block), i);
    }
  }

  lemma ActKeeps(pool: nat, s: State, who: nat, move: Move)
    requires Good(s) && Conserved(pool, s)
    requires Next(s, Act(who, move)).Some?
    ensures StepOk(pool, s, Next(s, Act(who, move)).value)
  {
    var t := s.transfers[who];
    var free := s.free > 0;
    assert Sound(s, who);
    if free {
      assert Tickets(s.queue, who) == [];
    }
    MoveKeeps(t, move, free);
    var (t', e) := Local(t, move, free).value;
    match e {
      case Wait(block) => WaitKeeps(s, who, t', block);
      case Give =>
        ReplaceKeeps(s, who, t');
        ReleaseKeeps(s.(transfers := s.transfers[who := t']));
      case Keep => ReplaceKeeps(s, who, t');
      case Take =>
        ReplaceKeeps(s, who, t');
        TakeOneKeeps(s.(transfers := s.transfers[who := t']));
    }
  }

  lemma DropKeeps(pool: nat, s: State, who: nat)
    requires Good(s) && Conserved(pool, s)
    requires Next(s, Drop(who)).Some?
    ensures StepOk(pool, s, Next(s, Drop(who)).value)
  {
    var t := s.transfers[who];
    var m := s.(transfers := s.transfers[who := Dropped], queue := Without(s.queue, who));
    HeldUpdate(s.transfers, who, Dropped);
    WithoutOwners(s.queue, who, |s.transfers|);
    forall i | 0 <= i < |m.transfers| ensures Sound(m, i) {
      assert Sound(s, i);
      TicketsWithout(s.queue, who, i);
    }
    ReleaseManyKeeps(m, Held(t));
    assert Sound(s, who);
    WorkPositive(t);
  }

  lemma WorkPositive(t: Transfer)
    requires TransferOk(t) && !Finished(t)
    ensures Work(t) > 0
  {
    if t.Download? { ReadyCountBound(t.slots); }
  }

  lemma {:induction false} TotalWorkNonNegative(ts: seq<Transfer>)
    requires forall i :: 0 <= i < |ts| ==> TransferOk(ts[i])
    ensures TotalWork(ts) >= 0
  {
    if ts != [] {
      WorkNonNegative(ts[0]);
      TotalWorkNonNegative(ts[1..]);
    }
  }

  lemma {:induction false} NothingHeld(ts: seq<Transfer>)
    requires forall i :: 0 <= i < |ts| ==> Held(ts[i]) == 0
    ensures TotalHeld(ts) == 0
  {
    if ts != [] { NothingHeld(ts[1..]); }
  }

  lemma InitialGood(pool: nat, s: State)
    requires Initial(pool, s)
    ensures Good(s) && Conserved(pool, s)
  {
    forall i | 0 <= i < |s.transfers| ensures Sound(s, i) && Held(s.transfers[i]) == 0 {
      var t := s.transfers[i];
      if t.Upload? {
        assert InFlight(t) == [];
      }
    }
    NothingHeld(s.transfers);
  }

  // --------------------------------------------------------------- main results

  /** Over every run: permits are conserved, every transfer stays well formed,
      requests queue in the order they were made, and the run cannot be longer
      than the work there was. */
  lemma {:induction false} RunKeeps(pool: nat, s: State, steps: seq<Step>)
    requires Good(s) && Conserved(pool, s)
    requires Run(s, steps).Some?
    ensures var s' := Run(s, steps).value;
            Good(s') && Conserved(pool, s') && |s'.transfers| == |s.transfers|
    ensures |steps| + TotalWork(Run(s, steps).value.transfers) <= TotalWork(s.transfers)
    decreases |steps|
  {
    if steps != [] {
      var s' := Next(s, steps[0]).value;
      match steps[0] {
        case Act(who, move) => ActKeeps(pool, s, who, move);
        case Drop(who) => DropKeeps(pool, s, who);
      }
      RunKeeps(pool, s', steps[1..]);
    }
  }

  /** Blocks resident in memory, over all transfers, never exceed the pool; one
      upload holds at most twelve of them and one download at most ten. */
  lemma ResidentBlocksBounded(pool: nat, s: State, steps: seq<Step>, i: nat)
    requires Initial(pool, s)
    requires Run(s, steps).Some? && i < |Run(s, steps).value.transfers|
    ensures var s' := Run(s, steps).value;
            s'.free + TotalHeld(s'.transfers) == pool &&
            var t := s'.transfers[i];
            (t.Upload? ==> Held(t) <= MAX_CONCURRENT_BLOCK_ENCRYPTS + 2 * MAX_BUFFERED_UPLOAD_BLOCKS) &&
            (t.Download? ==> Held(t) <= MAX_CONCURRENT_BLOCK_DOWNLOADS)
  {
    InitialGood(pool, s);
    RunKeeps(pool, s, steps);
    assert Sound(Run(s, steps).value, i);
  }

  /** A download holding any permit holds the one for its lowest undelivered
      block: first come, first served hands permits out in block order. */
  lemma LowestBlockFirst(pool: nat, s: State, steps: seq<Step>, i: nat)
    requires Initial(pool, s)
    requires Run(s, steps).Some? && i < |Run(s, steps).value.transfers|
    requires var t := Run(s, steps).value.transfers[i]; t.Download? && Held(t) > 0
    ensures var t := Run(s, steps).value.transfers[i];
            forall k :: 0 <= k < |t.slots| ==> t.slots[k].block == |t.delivered| + k
  {
    InitialGood(pool, s);
    RunKeeps(pool, s, steps);
    assert Sound(Run(s, steps).value, i);
  }

  lemma {:induction false} SomeoneHolds(ts: seq<Transfer>) returns (i: nat)
    requires TotalHeld(ts) > 0
    ensures i < |ts| && Held(ts[i]) > 0
  {
    if Held(ts[0]) > 0 {
      i := 0;
    } else {
      i := SomeoneHolds(ts[1..]);
      i := i + 1;
    }
  }

  /** No deadlock: for any pool of at least one permit, any mix of uploads and
      downloads and any run so far, either every transfer is finished or some
      transfer can make a move of its own. */
  lemma NeverStuck(pool: nat, s: State, steps: seq<Step>) returns (who: nat, move: Move)
    requires pool >= 1 && Initial(pool, s)
    requires Run(s, steps).Some? && !AllFinished(Run(s, steps).value)
    ensures Next(Run(s, steps).value, Act(who, move)).Some?
  {
    InitialGood(pool, s);
    RunKeeps(pool, s, steps);
    var s' := Run(s, steps).value;
    if TotalHeld(s'.transfers) > 0 {
      who := SomeoneHolds(s'.transfers);
      assert Sound(s', who);
      move := HolderCanMove(s'.transfers[who], s'.free > 0);
    } else {
      assert s'.free > 0 && s'.queue == [];
      who :| 0 <= who < |s'.transfers| && !Finished(s'.transfers[who]);
      assert Sound(s', who) && Tickets(s'.queue, who) == [];
      move := IdleCanMove(s'.transfers[who]);
    }
  }

  /** Every run ends: it has at most as many steps as there was work to do. */
  lemma {:induction false} RunsEnd(pool: nat, s: State, steps: seq<Step>)
    requires Initial(pool, s)
    requires Run(s, steps).Some?
    ensures |steps| <= TotalWork(s.transfers)
  {
    InitialGood(pool, s);
    RunKeeps(pool, s, steps);
    var s' := Run(s, steps).value;
    forall i | 0 <= i < |s'.transfers| ensures TransferOk(s'.transfers[i]) {
      assert Sound(s', i);
    }
    TotalWorkNonNegative(s'.transfers);
  }

  ghost predicate Delivered(t: Transfer, was: Transfer) {
    match t
    case Uploaded(total, read, stored) =>
      && was.Upload? && read == was.total && |stored| == read
      && (forall b: nat :: Count(stored, b) == if 1 <= b <= was.total then 1 else 0)
    case Downloaded(_, delivered) => was.Download? && delivered == Range(0, was.total)
    case _ => t.Dropped?
  }

  /** A run that no transfer can continue has finished every transfer: each
      upload that was not dropped stored every block of its stream exactly once
      and as many blocks as it read, so its length check cannot fail, and each
      download that was not dropped delivered every block, in order. */
  lemma MaximalRunsDeliver(pool: nat, s: State, steps: seq<Step>)
    requires pool >= 1 && Initial(pool, s)
    requires Run(s, steps).Some?
    requires forall who, move :: Next(Run(s, steps).value, Act(who, move)).None?
    ensures |Run(s, steps).value.transfers| == |s.transfers|
    ensures forall i :: 0 <= i < |s.transfers| ==> Delivered(Run(s, steps).value.transfers[i], s.transfers[i])
    ensures Run(s, steps).value.free == pool
  {
    InitialGood(pool, s);
    RunKeeps(pool, s, steps);
    var s' := Run(s, steps).value;
    if !AllFinished(s') {
      var who, move := NeverStuck(pool, s, steps);
      assert false;
    }
    RunKeepsTotals(pool, s, steps);
    forall i | 0 <= i < |s.transfers| ensures Delivered(s'.transfers[i], s.transfers[i]) {
      assert Sound(s', i) && SameJob(s'.transfers[i], s.transfers[i]);
    }
    NothingHeld(s'.transfers);
  }

  /** A transfer keeps its kind and its size. */
  ghost predicate SameJob(t: Transfer, was: Transfer) {
    match t
    case Upload(total, _, _, _, _, _, _, _) => was.Upload? && was.total == total
    case Download(total, _, _, _) => was.Download? && was.total == total
    case Uploaded(total, _, _) => was.Upload? && was.total == total
    case Downloaded(total, _) => was.Download? && was.total == total
    case Dropped => true
  }

  ghost predicate SameJobs(s: State, was: State) {
    && |s.transfers| == |was.transfers|
    && forall i :: 0 <= i < |s.transfers| ==> SameJob(s.transfers[i], was.transfers[i])
  }

  lemma {:induction false} ReleaseManySameJobs(s: State, n: nat, was: State)
    requires SameJobs(s, was)
    ensures SameJobs(ReleaseMany(s, n), was)
    decreases n
  {
    if n > 0 {
      ReleaseManySameJobs(Release(s), n - 1, was);
    }
  }

  lemma {:induction false} NextSameJobs(s: State, step: Step, was: State)
    requires SameJobs(s, was) && Next(s, step).Some?
    ensures SameJobs(Next(s, step).value, was)
  {
    match step
    case Act(who, move) =>
      var (t, e) := Local(s.transfers[who], move, s.free > 0).value;
      assert SameJob(t, was.transfers[who]);
    case Drop(who) =>
      var m := s.(transfers := s.transfers[who := Dropped], queue := Without(s.queue, who));
      ReleaseManySameJobs(m, Held(s.transfers[who]), was);
  }

  lemma {:induction false} RunSameJobs(s: State, steps: seq<Step>, was: State)
    requires SameJobs(s, was) && Run(s, steps).Some?
    ensures SameJobs(Run(s, steps).value, was)
    decreases |steps|
  {
    if steps != [] {
      NextSameJobs(s, steps[0], was);
      RunSameJobs(Next(s, steps[0]).value, steps[1..], was);
    }
  }

  lemma RunKeepsTotals(pool: nat, s: State, steps: seq<Step>)
    requires Initial(pool, s) && Run(s, steps).Some?
    ensures SameJobs(Run(s, steps).value, s)
  {
    RunSameJobs(s, steps, s);
  }
}
