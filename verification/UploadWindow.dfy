/** How many block permits one upload can really hold: a run that fills every stage of
    its pipeline at once.

    Four blocks are read and start encrypting. Four times the oldest goes to the
    channel and another is read; the uploader takes those four as its batch. Four
    more go the same way and fill the channel again, and the oldest of the four
    still encrypting then waits for room in it. */
module UploadWindow {
  import opened Wrappers
  import opened TransferSteps
  import opened TransferMoves
  import opened TransferPool

  /** One upload alone in the pool: `read` blocks read, the last ones encrypting from
      block `first`, those from `queued` on in the channel, earlier ones in the batch. */
  function Filled(pool: nat, total: nat, queued: nat, first: nat, read: nat): State
    requires read <= total && read <= pool && 1 <= queued
  {
    State(pool - read, [],
          [Upload(total, total - read, false, Filling, Range(first, read + 1), Range(queued, first),
                  Range(1, queued), [])])
  }

  /** An upload alone in a pool of at least twelve comes to hold twelve permits: four
      blocks in the batch, four in the channel, one waiting for it, three encrypting. */
  lemma UploadCanHoldTwelve(pool: nat, total: nat) returns (steps: seq<Step>)
    requires pool >= 12 && total >= 12
    ensures Initial(pool, State(pool, [], [NewUpload(total)]))
    ensures Run(State(pool, [], [NewUpload(total)]), steps).Some?
    ensures var s := Run(State(pool, [], [NewUpload(total)]), steps).value;
      |s.transfers| == 1 && s.transfers[0].Upload? && Held(s.transfers[0]) == 12
  {
    var s0, full := Filled(pool, total, 1, 1, 0), Popped(pool, total, 5, 9, 12);
    WindowFills(pool, total, 4);
    ChannelFills(pool, total, 1, 4);
    TakesChannel(pool, total);
    ChannelFills(pool, total, 5, 4);
    Pops(pool, total, 5, 9, 12);
    ReachesOn(s0, Filled(pool, total, 1, 1, 4), Filled(pool, total, 1, 5, 8));
    ReachesOn(s0, Filled(pool, total, 1, 5, 8), Filled(pool, total, 5, 5, 8));
    ReachesOn(s0, Filled(pool, total, 5, 5, 8), Filled(pool, total, 5, 9, 12));
    ReachesOn(s0, Filled(pool, total, 5, 9, 12), full);
    assert Held(full.transfers[0]) == 12;
    steps :| Leads(s0, steps, full);
    assert s0 == State(pool, [], [NewUpload(total)]);
  }

  lemma {:induction false} RunConcat(s: State, a: seq<Step>, b: seq<Step>)
    requires Run(s, a).Some?
    ensures Run(s, a + b) == Run(Run(s, a).value, b)
    decreases |a|
  {
    if a == [] {
      assert a + b == b;
    } else {
      assert (a + b)[0] == a[0] && (a + b)[1..] == a[1..] + b;
      RunConcat(Next(s, a[0]).value, a[1..], b);
    }
  }

  ghost predicate Leads(s: State, steps: seq<Step>, t: State) {
    Run(s, steps) == Some(t)
  }

  ghost predicate Reaches(s: State, t: State) {
    exists steps :: Leads(s, steps, t)
  }

  lemma StepReaches(s: State, step: Step, t: State)
    requires Next(s, step) == Some(t)
    ensures Reaches(s, t)
  {
    assert [step][1..] == [];
    assert Leads(s, [step], t);
  }

  lemma ReachesOn(s: State, t: State, u: State)
    requires Reaches(s, t) && Reaches(t, u)
    ensures Reaches(s, u)
  {
    var a :| Leads(s, a, t);
    var b :| Leads(t, b, u);
    RunConcat(s, a, b);
    assert Leads(s, a + b, u);
  }

  /** Reading a block into the encrypting window. */
  lemma Reads(pool: nat, total: nat, queued: nat, first: nat, read: nat)
    requires read < total && read < pool && 1 <= queued <= first <= read + 1
    requires read + 1 - first < MAX_CONCURRENT_BLOCK_ENCRYPTS
    ensures Reaches(Filled(pool, total, queued, first, read), Filled(pool, total, queued, first, read + 1))
  {
    var t := Filled(pool, total, queued, first, read).transfers[0];
    RangeAppend(first, read + 1);
    assert ReadOne(t) == Filled(pool, total, queued, first, read + 1).transfers[0];
    assert [t][0 := ReadOne(t)] == [ReadOne(t)];
    StepReaches(Filled(pool, total, queued, first, read), Act(0, Fill), Filled(pool, total, queued, first, read + 1));
  }

  /** With the window full: the oldest block waits for the channel. */
  lemma Pops(pool: nat, total: nat, queued: nat, first: nat, read: nat)
    requires read <= total && read <= pool && 1 <= queued <= first
    requires read + 1 - first == MAX_CONCURRENT_BLOCK_ENCRYPTS
    ensures Reaches(Filled(pool, total, queued, first, read), Popped(pool, total, queued, first, read))
  {
    var s, popped := Filled(pool, total, queued, first, read), Popped(pool, total, queued, first, read);
    var popping := s.transfers[0].(phase := Popping);
    var s1 := s.(transfers := [popping]);
    assert s.transfers[0 := popping] == [popping];
    StepReaches(s, Act(0, Fill), s1);
    assert Range(first, read + 1)[0] == first && Range(first, read + 1)[1..] == Range(first + 1, read + 1);
    assert s1.transfers[0 := popped.transfers[0]] == popped.transfers;
    StepReaches(s1, Act(0, Pop), popped);
    ReachesOn(s, s1, popped);
  }

  /** With room in the channel it goes on. */
  lemma Sends(pool: nat, total: nat, queued: nat, first: nat, read: nat)
    requires read <= total && read <= pool && 1 <= queued <= first && first - queued < MAX_BUFFERED_UPLOAD_BLOCKS
    ensures Reaches(Popped(pool, total, queued, first, read), Filled(pool, total, queued, first + 1, read))
  {
    var s, sent := Popped(pool, total, queued, first, read), Filled(pool, total, queued, first + 1, read);
    RangeAppend(queued, first);
    assert s.transfers[0 := sent.transfers[0]] == sent.transfers;
    StepReaches(s, Act(0, Send), sent);
  }

  /** The state in which the oldest block of a full window waits for the channel. */
  function Popped(pool: nat, total: nat, queued: nat, first: nat, read: nat): State
    requires read <= total && read <= pool && 1 <= queued
  {
    State(pool - read, [],
          [Upload(total, total - read, false, Sending(first), Range(first + 1, read + 1), Range(queued, first),
                  Range(1, queued), [])])
  }

  /** From nothing read to a full window. */
  lemma {:induction false} WindowFills(pool: nat, total: nat, read: nat)
    requires 0 < read <= MAX_CONCURRENT_BLOCK_ENCRYPTS && read <= total && read <= pool
    ensures Reaches(Filled(pool, total, 1, 1, 0), Filled(pool, total, 1, 1, read))
  {
    Reads(pool, total, 1, 1, read - 1);
    if read > 1 {
      WindowFills(pool, total, read - 1);
      ReachesOn(Filled(pool, total, 1, 1, 0), Filled(pool, total, 1, 1, read - 1), Filled(pool, total, 1, 1, read));
    }
  }

  /** One block moves from a full window to the channel and the next one is read. */
  lemma Shifts(pool: nat, total: nat, queued: nat, first: nat)
    requires 1 <= queued <= first && first - queued < MAX_BUFFERED_UPLOAD_BLOCKS && first + 4 <= total
          && first + 4 <= pool
    ensures Reaches(Filled(pool, total, queued, first, first + 3), Filled(pool, total, queued, first + 1, first + 4))
  {
    var s := Filled(pool, total, queued, first, first + 3);
    Pops(pool, total, queued, first, first + 3);
    Sends(pool, total, queued, first, first + 3);
    Reads(pool, total, queued, first + 1, first + 3);
    ReachesOn(s, Popped(pool, total, queued, first, first + 3), Filled(pool, total, queued, first + 1, first + 3));
    ReachesOn(s, Filled(pool, total, queued, first + 1, first + 3), Filled(pool, total, queued, first + 1, first + 4));
  }

  /** A full window and an empty channel: `n` more blocks read, as many in the channel. */
  lemma {:induction false} ChannelFills(pool: nat, total: nat, first: nat, n: nat)
    requires 1 <= first && 0 < n <= MAX_BUFFERED_UPLOAD_BLOCKS && first + 3 + n <= total && first + 3 + n <= pool
    ensures Reaches(Filled(pool, total, first, first, first + 3), Filled(pool, total, first, first + n, first + 3 + n))
  {
    Shifts(pool, total, first, first + n - 1);
    if n > 1 {
      ChannelFills(pool, total, first, n - 1);
      ReachesOn(Filled(pool, total, first, first, first + 3),
                Filled(pool, total, first, first + n - 1, first + 2 + n),
                Filled(pool, total, first, first + n, first + 3 + n));
    }
  }

  /** The uploader takes the whole channel as its batch. */
  lemma TakesChannel(pool: nat, total: nat)
    requires total >= 8 && pool >= 8
    ensures Reaches(Filled(pool, total, 1, 5, 8), Filled(pool, total, 5, 5, 8))
  {
    var s, taken := Filled(pool, total, 1, 5, 8), Filled(pool, total, 5, 5, 8);
    assert Range(1, 5)[..4] == Range(1, 5) && Range(1, 5)[4..] == [] && Range(1, 1) == [] && Range(5, 5) == [];
    assert s.transfers[0 := taken.transfers[0]] == taken.transfers;
    StepReaches(s, Act(0, Recv(4)), taken);
  }
}
