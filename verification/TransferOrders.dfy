/** The orders in which blocks can be stored and fetched: exactly those the batches allow. */
module TransferOrders {
  import opened Wrappers
  import opened TransferSteps
  import opened TransferMoves
  import opened TransferPool
  import opened UploadWindow

  /** The most blocks an upload can have in one batch. */
  function BatchCap(pool: nat): nat {
    if pool < MAX_BUFFERED_UPLOAD_BLOCKS then pool else MAX_BUFFERED_UPLOAD_BLOCKS
  }

  /** The same blocks, as often. */
  ghost predicate SameBlocks(a: seq<nat>, b: seq<nat>) {
    |a| == |b| && forall x: nat :: Count(a, x) == Count(b, x)
  }

  ghost predicate Rearranges(order: seq<nat>, from: nat) {
    forall b: nat :: Count(order, b) == if from <= b < from + |order| then 1 else 0
  }

  /** `order` is consecutive batches of at most `cap` blocks, numbered on from `from`, each
      rearranged in any way. */
  ghost predicate InBatches(order: seq<nat>, from: nat, cap: nat)
    decreases |order|
  {
    order == [] || exists k: nat :: BatchFirst(order, from, cap, k) && InBatches(order[k..], from + k, cap)
  }

  ghost predicate BatchFirst(order: seq<nat>, from: nat, cap: nat, k: nat) {
    1 <= k <= cap && k <= |order| && Rearranges(order[..k], from)
  }

  function Alone(pool: nat, t: Transfer): State
    requires Held(t) <= pool
  {
    State(pool - Held(t), [], [t])
  }

  ghost predicate Finishes(pool: nat, total: nat, order: seq<nat>) {
    exists steps :: FinishesBy(pool, total, order, steps)
  }

  ghost predicate FinishesBy(pool: nat, total: nat, order: seq<nat>, steps: seq<Step>) {
    var s := Run(Alone(pool, NewUpload(total)), steps);
    s.Some? && s.value.transfers == [Uploaded(total, total, order)]
  }

  /** An upload can store its blocks in a given order exactly when that order is one batch
      of at most four, or of the whole pool, after another, each in any order. */
  lemma StoresExactlyInBatches(pool: nat, total: nat, order: seq<nat>)
    requires pool >= 1
    ensures Finishes(pool, total, order) <==> |order| == total && InBatches(order, 1, BatchCap(pool))
  {
    if Finishes(pool, total, order) {
      var steps :| FinishesBy(pool, total, order, steps);
      StoredInBatches(pool, Alone(pool, NewUpload(total)), steps, 0);
      assert Run(Alone(pool, NewUpload(total)), steps).value.transfers[0].stored == order;
    }
    if |order| == total && InBatches(order, 1, BatchCap(pool)) {
      var t := NewUpload(total);
      TotalHeldOne(t);
      InitialGood(pool, Alone(pool, t));
      assert Sound(Alone(pool, t), 0);
      var t' := StoresBatches(pool, t, order);
      Closes(pool, t');
      assert [] + order == order;
      ReachesOn(Alone(pool, t), Alone(pool, t'), State(pool, [], [Uploaded(total, total, order)]));
      var steps :| Leads(Alone(pool, t), steps, State(pool, [], [Uploaded(total, total, order)]));
      assert FinishesBy(pool, total, order, steps);
    }
  }

  /** Whatever else runs in the pool, a finished upload has stored its blocks in batches. */
  lemma StoredInBatches(pool: nat, s: State, steps: seq<Step>, i: nat)
    requires Initial(pool, s) && Run(s, steps).Some? && i < |Run(s, steps).value.transfers|
    requires Run(s, steps).value.transfers[i].Uploaded?
    ensures var t := Run(s, steps).value.transfers[i];
      |t.stored| == t.total && InBatches(t.stored, 1, BatchCap(pool))
  {
    InitialGood(pool, s);
    forall j | 0 <= j < |s.transfers| ensures Shuffled(s.transfers[j], BatchCap(pool)) {
      if s.transfers[j].Upload? { assert ShuffledAt(s.transfers[j], BatchCap(pool), 0); }
    }
    RunShuffles(pool, s, steps);
    RunKeeps(pool, s, steps);
    assert Sound(Run(s, steps).value, i);
  }

  /** A batch can be stored in any order, in any company. */
  lemma {:induction false} StoresInAnyOrder(s: State, who: nat, order: seq<nat>) returns (steps: seq<Step>)
    requires who < |s.transfers| && s.transfers[who].Upload?
    requires SameBlocks(order, s.transfers[who].batch)
    ensures Run(s, steps).Some? && |Run(s, steps).value.transfers| == |s.transfers|
    ensures var t, t' := s.transfers[who], Run(s, steps).value.transfers[who];
      && t'.Upload? && t'.batch == [] && t'.stored == t.stored + order
      && (s.queue == [] ==>
            Run(s, steps).value == State(s.free + |order|, [],
                                         s.transfers[who := t.(batch := [], stored := t.stored + order)]))
    decreases |order|
  {
    var t := s.transfers[who];
    if order == [] {
      assert t.stored + order == t.stored;
      assert s.transfers[who := t] == s.transfers;
      steps := [];
    } else {
      var pos := Holds(t.batch, order[0]);
      SameWithout(order, t.batch, pos);
      StoresOne(s, who, pos);
      var s' := Next(s, Act(who, Store(pos))).value;
      var rest := StoresInAnyOrder(s', who, order[1..]);
      assert (t.stored + [order[0]]) + order[1..] == t.stored + order;
      steps := [Act(who, Store(pos))] + rest;
      assert steps[1..] == rest;
    }
  }

  lemma StoresOne(s: State, who: nat, pos: nat)
    requires who < |s.transfers| && s.transfers[who].Upload? && pos < |s.transfers[who].batch|
    ensures var next := Next(s, Act(who, Store(pos)));
      && next.Some? && |next.value.transfers| == |s.transfers|
      && var t, t' := s.transfers[who], next.value.transfers[who];
         && t'.Upload? && t'.batch == RemoveAt(t.batch, pos) && t'.stored == t.stored + [t.batch[pos]]
         && (s.queue == [] ==>
               next.value == State(s.free + 1, [], s.transfers[who := t.(batch := t'.batch, stored := t'.stored)]))
  {
  }

  lemma {:induction false} Holds(s: seq<nat>, x: nat) returns (pos: nat)
    requires Count(s, x) > 0
    ensures pos < |s| && s[pos] == x
  {
    if s[0] == x {
      pos := 0;
    } else {
      pos := Holds(s[1..], x);
      pos := pos + 1;
    }
  }

  lemma SameWithout(order: seq<nat>, batch: seq<nat>, pos: nat)
    requires SameBlocks(order, batch) && order != [] && pos < |batch| && batch[pos] == order[0]
    ensures SameBlocks(order[1..], RemoveAt(batch, pos))
  {
    forall x: nat ensures Count(order[1..], x) == Count(RemoveAt(batch, pos), x) {
      CountRemoveAt(batch, pos, x);
      CountAppend([order[0]], order[1..], x);
      assert [order[0]] + order[1..] == order;
    }
  }

  // ------------------------------------------------------- only such orders

  /** The blocks stored so far are whole batches and part of the one in hand. */
  ghost predicate Shuffled(t: Transfer, cap: nat) {
    match t
    case Upload(_, _, _, _, _, _, _, stored) => exists d: nat :: ShuffledAt(t, cap, d)
    case Uploaded(_, _, stored) => InBatches(stored, 1, cap)
    case _ => true
  }

  ghost predicate ShuffledAt(t: Transfer, cap: nat, d: nat)
    requires t.Upload?
  {
    && d <= |t.stored| && |t.stored| - d + |t.batch| <= cap
    && InBatches(t.stored[..d], 1, cap)
    && Rearranges(t.stored[d..] + t.batch, d + 1)
  }

  lemma BatchesOn(order: seq<nat>, from: nat, cap: nat, k: nat)
    requires BatchFirst(order, from, cap, k) && InBatches(order[k..], from + k, cap)
    ensures InBatches(order, from, cap)
  {
  }

  lemma CutSum(a: seq<nat>, b: seq<nat>, k: nat)
    requires k <= |a|
    ensures (a + b)[..k] == a[..k] && (a + b)[k..] == a[k..] + b
  {
  }

  lemma JoinCut(a: seq<nat>, b: seq<nat>, k: nat)
    requires k <= |b|
    ensures (a + b[..k]) + b[k..] == a + b
  {
  }

  lemma {:induction false} InBatchesAppend(order: seq<nat>, from: nat, cap: nat, more: seq<nat>)
    requires InBatches(order, from, cap)
    requires 1 <= |more| <= cap && Rearranges(more, from + |order|)
    ensures InBatches(order + more, from, cap)
    decreases |order|
  {
    if order == [] {
      assert order + more == more && more[..|more|] == more && more[|more|..] == [];
      BatchesOn(more, from, cap, |more|);
    } else {
      var k: nat :| BatchFirst(order, from, cap, k) && InBatches(order[k..], from + k, cap);
      InBatchesAppend(order[k..], from + k, cap, more);
      CutSum(order, more, k);
      BatchesOn(order + more, from, cap, k);
    }
  }

  lemma BatchDone(t: Transfer, cap: nat)
    requires t.Upload? && Shuffled(t, cap) && t.batch == []
    ensures InBatches(t.stored, 1, cap)
  {
    var d: nat :| ShuffledAt(t, cap, d);
    assert t.stored[d..] + t.batch == t.stored[d..];
    assert t.stored[..d] + t.stored[d..] == t.stored;
    if d < |t.stored| {
      InBatchesAppend(t.stored[..d], 1, cap, t.stored[d..]);
    } else {
      assert t.stored[..d] == t.stored;
    }
  }

  lemma StillRearranges(part: seq<nat>, batch: seq<nat>, pos: nat, from: nat)
    requires Rearranges(part + batch, from) && pos < |batch|
    ensures Rearranges((part + [batch[pos]]) + RemoveAt(batch, pos), from)
  {
    forall b: nat ensures Count((part + [batch[pos]]) + RemoveAt(batch, pos), b) == Count(part + batch, b) {
      CountAppend(part, batch, b);
      CountAppend(part, [batch[pos]], b);
      CountAppend(part + [batch[pos]], RemoveAt(batch, pos), b);
      CountRemoveAt(batch, pos, b);
    }
  }

  lemma TakenRearranges(t: Transfer, count: nat)
    requires t.Upload? && UploadOk(t) && t.batch == [] && count <= |t.channel|
    ensures Rearranges(t.channel[..count], |t.stored| + 1)
  {
    RecvTakes(t, count);
    forall b: nat ensures Count(t.channel[..count], b) == if |t.stored| < b <= |t.stored| + count then 1 else 0 {
      CountRange(|t.stored| + 1, |t.stored| + 1 + count, b);
    }
  }

  lemma BatchStarts(t: Transfer, cap: nat)
    requires t.Upload? && InBatches(t.stored, 1, cap) && |t.batch| <= cap && Rearranges(t.batch, |t.stored| + 1)
    ensures ShuffledAt(t, cap, |t.stored|)
  {
    assert t.stored[..|t.stored|] == t.stored && t.stored[|t.stored|..] + t.batch == t.batch;
  }

  lemma RecvShuffles(pool: nat, t: Transfer, count: nat)
    requires t.Upload? && UploadOk(t) && Shuffled(t, BatchCap(pool)) && Held(t) <= pool
    requires UploadMove(t, Recv(count), false).Some?
    ensures ShuffledAt(UploadMove(t, Recv(count), false).value.0, BatchCap(pool), |t.stored|)
  {
    BatchDone(t, BatchCap(pool));
    TakenRearranges(t, count);
    BatchStarts(t.(batch := t.channel[..count], channel := t.channel[count..]), BatchCap(pool));
  }

  lemma StoreShuffles(t: Transfer, pos: nat, cap: nat, d: nat)
    requires t.Upload? && ShuffledAt(t, cap, d) && pos < |t.batch|
    ensures ShuffledAt(t.(batch := RemoveAt(t.batch, pos), stored := t.stored + [t.batch[pos]]), cap, d)
  {
    var t' := t.(batch := RemoveAt(t.batch, pos), stored := t.stored + [t.batch[pos]]);
    assert t'.stored[..d] == t.stored[..d];
    assert t'.stored[d..] == t.stored[d..] + [t.batch[pos]];
    StillRearranges(t.stored[d..], t.batch, pos, d + 1);
  }

  lemma SameShuffles(t: Transfer, t': Transfer, cap: nat)
    requires t.Upload? && Shuffled(t, cap) && t'.Upload? && t'.stored == t.stored && t'.batch == t.batch
    ensures Shuffled(t', cap)
  {
    var d: nat :| ShuffledAt(t, cap, d);
    assert ShuffledAt(t', cap, d);
  }

  lemma MoveShuffles(pool: nat, t: Transfer, m: Move, free: bool)
    requires TransferOk(t) && Shuffled(t, BatchCap(pool)) && Held(t) <= pool
    requires Local(t, m, free).Some?
    ensures Shuffled(Local(t, m, free).value.0, BatchCap(pool))
  {
    if t.Upload? {
      if m.Recv? {
        RecvShuffles(pool, t, m.count);
      } else if m.FinishUpload? {
        BatchDone(t, BatchCap(pool));
      } else if m.Store? {
        var d: nat :| ShuffledAt(t, BatchCap(pool), d);
        StoreShuffles(t, m.pos, BatchCap(pool), d);
      } else {
        SameShuffles(t, Local(t, m, free).value.0, BatchCap(pool));
      }
    }
  }

  ghost predicate AllShuffled(s: State, cap: nat) {
    forall i :: 0 <= i < |s.transfers| ==> Shuffled(s.transfers[i], cap)
  }

  lemma GrantShuffles(t: Transfer, block: nat, cap: nat)
    requires Shuffled(t, cap)
    ensures Shuffled(Grant(t, block), cap)
  {
    if t.Upload? {
      var d: nat :| ShuffledAt(t, cap, d);
      assert ShuffledAt(Grant(t, block), cap, d);
      assert t.stored[..d] == Grant(t, block).stored[..d];
    }
  }

  lemma {:induction false} ReleaseManyShuffles(s: State, n: nat, cap: nat)
    requires AllShuffled(s, cap)
    ensures AllShuffled(ReleaseMany(s, n), cap)
    decreases n
  {
    if n > 0 {
      ReleaseShuffles(s, cap);
      ReleaseManyShuffles(Release(s), n - 1, cap);
    }
  }

  lemma ReleaseShuffles(s: State, cap: nat)
    requires AllShuffled(s, cap)
    ensures AllShuffled(Release(s), cap)
  {
    if s.queue != [] && s.queue[0].owner < |s.transfers| {
      GrantShuffles(s.transfers[s.queue[0].owner], s.queue[0].block, cap);
    }
  }

  lemma {:induction false} HeldOfAll(ts: seq<Transfer>, i: nat)
    requires i < |ts|
    ensures Held(ts[i]) <= TotalHeld(ts)
  {
    if i > 0 { HeldOfAll(ts[1..], i - 1); }
  }

  lemma {:induction false} RunShuffles(pool: nat, s: State, steps: seq<Step>)
    requires Good(s) && Conserved(pool, s) && AllShuffled(s, BatchCap(pool))
    requires Run(s, steps).Some?
    ensures AllShuffled(Run(s, steps).value, BatchCap(pool))
    decreases |steps|
  {
    if steps != [] {
      var s' := Next(s, steps[0]).value;
      match steps[0] {
        case Act(who, move) =>
          ActKeeps(pool, s, who, move);
          ActShuffles(pool, s, who, move);
        case Drop(who) =>
          DropKeeps(pool, s, who);
          ReleaseManyShuffles(s.(transfers := s.transfers[who := Dropped], queue := Without(s.queue, who)),
                              Held(s.transfers[who]), BatchCap(pool));
      }
      RunShuffles(pool, s', steps[1..]);
    }
  }

  lemma EffectShuffles(s: State, who: nat, e: Effect, cap: nat)
    requires AllShuffled(s, cap)
    ensures AllShuffled(Apply(s, who, e), cap)
  {
    if e.Give? { ReleaseShuffles(s, cap); }
  }

  lemma ActShuffles(pool: nat, s: State, who: nat, move: Move)
    requires Good(s) && Conserved(pool, s) && AllShuffled(s, BatchCap(pool))
    requires Next(s, Act(who, move)).Some?
    ensures AllShuffled(Next(s, Act(who, move)).value, BatchCap(pool))
  {
    assert Sound(s, who);
    HeldOfAll(s.transfers, who);
    MoveShuffles(pool, s.transfers[who], move, s.free > 0);
    var (t, e) := Local(s.transfers[who], move, s.free > 0).value;
    EffectShuffles(s.(transfers := s.transfers[who := t]), who, e, BatchCap(pool));
  }

  // -------------------------------------------------------- all such orders

  lemma TotalHeldOne(t: Transfer)
    ensures TotalHeld([t]) == Held(t)
  {
    assert [t][1..] == [];
  }

  /** Neither waiting for a permit nor holding more than there are. */
  ghost predicate Free(pool: nat, t: Transfer) {
    TransferOk(t) && Pending(t) == [] && Held(t) <= pool
  }

  lemma AloneMoves(pool: nat, t: Transfer, m: Move)
    requires Free(pool, t)
    requires Local(t, m, Held(t) < pool).Some? && !Local(t, m, Held(t) < pool).value.1.Wait?
    ensures var t' := Local(t, m, Held(t) < pool).value.0;
      Free(pool, t') && Reaches(Alone(pool, t), Alone(pool, t'))
  {
    MoveKeeps(t, m, Held(t) < pool);
    var t' := Local(t, m, Held(t) < pool).value.0;
    assert [t][0 := t'] == [t'];
    StepReaches(Alone(pool, t), Act(0, m), Alone(pool, t'));
  }

  /** Ready to read more, nothing with the uploader. */
  ghost predicate Between(pool: nat, t: Transfer) {
    Free(pool, t) && t.Upload? && t.phase.Filling? && t.batch == []
  }

  /** The window widens until its oldest block is waited for. */
  lemma {:induction false} Widens(pool: nat, t: Transfer) returns (t': Transfer)
    requires Between(pool, t) && |t.channel| < pool && (t.encrypting != [] || t.unread > 0)
    ensures Free(pool, t') && Reaches(Alone(pool, t), Alone(pool, t'))
    ensures t'.Upload? && t'.phase.Popping? && t'.encrypting != [] && t'.batch == []
    ensures t'.channel == t.channel && t'.stored == t.stored && t'.total == t.total
    decreases t.unread
  {
    AloneMoves(pool, t, Fill);
    t' := FillMove(t, Held(t) < pool).0;
    if t'.phase.Filling? {
      var t'' := Widens(pool, t');
      ReachesOn(Alone(pool, t), Alone(pool, t'), Alone(pool, t''));
      t' := t'';
    }
  }

  lemma {:induction false} ToChannel(pool: nat, t: Transfer, k: nat) returns (t': Transfer)
    requires Between(pool, t) && |t.channel| < k <= BatchCap(pool) && |t.stored| + k <= t.total
    ensures Between(pool, t') && Reaches(Alone(pool, t), Alone(pool, t'))
    ensures |t'.channel| == k && t'.stored == t.stored && t'.total == t.total
    decreases k - |t.channel|
  {
    assert |InFlight(t)| == t.total - t.unread - |t.stored|;
    var open := Widens(pool, t);
    AloneMoves(pool, open, Pop);
    var popped := UploadMove(open, Pop, true).value.0;
    AloneMoves(pool, popped, Send);
    t' := UploadMove(popped, Send, true).value.0;
    ReachesOn(Alone(pool, t), Alone(pool, open), Alone(pool, popped));
    ReachesOn(Alone(pool, t), Alone(pool, popped), Alone(pool, t'));
    if |t'.channel| < k {
      var full := ToChannel(pool, t', k);
      ReachesOn(Alone(pool, t), Alone(pool, t'), Alone(pool, full));
      t' := full;
    }
  }

  lemma StoresBatch(pool: nat, t: Transfer, order: seq<nat>) returns (t': Transfer)
    requires Between(pool, t) && t.channel == []
    requires 1 <= |order| <= BatchCap(pool) && |t.stored| + |order| <= t.total && Rearranges(order, |t.stored| + 1)
    ensures Between(pool, t') && Reaches(Alone(pool, t), Alone(pool, t'))
    ensures t'.channel == [] && t'.stored == t.stored + order && t'.total == t.total
  {
    var k := |order|;
    var full := ToChannel(pool, t, k);
    var taken := TakesAll(pool, full);
    t' := taken.(batch := [], stored := t.stored + order);
    forall b: nat ensures Count(order, b) == Count(taken.batch, b) {
      CountRange(|t.stored| + 1, |t.stored| + 1 + k, b);
    }
    StoresTaken(pool, taken, order);
    ReachesOn(Alone(pool, t), Alone(pool, full), Alone(pool, taken));
    ReachesOn(Alone(pool, t), Alone(pool, taken), Alone(pool, t'));
  }

  lemma TakesAll(pool: nat, t: Transfer) returns (t': Transfer)
    requires Between(pool, t) && t.channel != []
    ensures Free(pool, t') && Reaches(Alone(pool, t), Alone(pool, t'))
    ensures t'.Upload? && t'.phase.Filling? && t'.channel == [] && t'.stored == t.stored && t'.total == t.total
    ensures t'.batch == Range(|t.stored| + 1, |t.stored| + 1 + |t.channel|)
  {
    RecvTakes(t, |t.channel|);
    AloneMoves(pool, t, Recv(|t.channel|));
    t' := t.(batch := t.channel[..|t.channel|], channel := t.channel[|t.channel|..]);
  }

  lemma StoresTaken(pool: nat, t: Transfer, order: seq<nat>)
    requires Free(pool, t) && t.Upload? && SameBlocks(order, t.batch)
    ensures var t' := t.(batch := [], stored := t.stored + order);
      Free(pool, t') && Reaches(Alone(pool, t), Alone(pool, t'))
  {
    var t' := t.(batch := [], stored := t.stored + order);
    var steps := StoresInAnyOrder(Alone(pool, t), 0, order);
    assert [t][0 := t'] == [t'];
    TotalHeldOne(t);
    assert Good(Alone(pool, t)) by {
      forall i | 0 <= i < 1 ensures Sound(Alone(pool, t), i) { }
    }
    RunKeeps(pool, Alone(pool, t), steps);
    assert InFlight(t') == InFlight(t);
    assert Sound(Alone(pool, t'), 0);
    assert Leads(Alone(pool, t), steps, Alone(pool, t'));
  }

  lemma {:induction false} StoresBatches(pool: nat, t: Transfer, order: seq<nat>) returns (t': Transfer)
    requires Between(pool, t) && t.channel == []
    requires |t.stored| + |order| == t.total && InBatches(order, |t.stored| + 1, BatchCap(pool))
    ensures Between(pool, t') && Reaches(Alone(pool, t), Alone(pool, t'))
    ensures t'.channel == [] && t'.stored == t.stored + order && t'.total == t.total
    decreases |order|
  {
    if order == [] {
      t' := t;
      assert Leads(Alone(pool, t), [], Alone(pool, t));
      assert t.stored + order == t.stored;
    } else {
      var k: nat :| BatchFirst(order, |t.stored| + 1, BatchCap(pool), k)
        && InBatches(order[k..], |t.stored| + 1 + k, BatchCap(pool));
      var mid := StoresBatch(pool, t, order[..k]);
      t' := StoresBatches(pool, mid, order[k..]);
      JoinCut(t.stored, order, k);
      ReachesOn(Alone(pool, t), Alone(pool, mid), Alone(pool, t'));
    }
  }

  lemma Closes(pool: nat, t: Transfer)
    requires pool >= 1 && Between(pool, t) && t.channel == [] && |t.stored| == t.total
    ensures Reaches(Alone(pool, t), State(pool, [], [Uploaded(t.total, t.total, t.stored)]))
  {
    assert |InFlight(t)| == 0;
    AloneMoves(pool, t, Fill);
    var open := FillMove(t, true).0;
    Ends(pool, open);
    ReachesOn(Alone(pool, t), Alone(pool, open), State(pool, [], [Uploaded(t.total, t.total, t.stored)]));
  }

  lemma Ends(pool: nat, t: Transfer)
    requires Free(pool, t) && t.Upload? && t.phase.Popping? && t.unread == 0
    requires t.encrypting == [] && t.channel == [] && t.batch == []
    ensures Reaches(Alone(pool, t), State(pool, [], [Uploaded(t.total, t.total, t.stored)]))
  {
    var closed := t.(phase := Closed);
    AloneMoves(pool, t, Pop);
    AloneMoves(pool, closed, FinishUpload);
    ReachesOn(Alone(pool, t), Alone(pool, closed), State(pool, [], [Uploaded(t.total, t.total, t.stored)]));
  }

  // ------------------------------------------------------------- downloads

  function Fetches(who: nat, order: seq<nat>): seq<Step> {
    seq(|order|, i requires 0 <= i < |order| => Act(who, Fetch(order[i])))
  }

  /** A download alone whose first `started` blocks are being fetched. */
  function Fetching(total: nat, started: nat): Transfer {
    Download(total, started, [], seq(started, i requires 0 <= i => Slot(i, false)))
  }

  /** Fetches that are out end in any order: after those in `order` exactly these blocks
      have become ready, and nothing else has changed. */
  lemma {:induction false} FetchesInAnyOrder(s: State, who: nat, order: seq<nat>)
    requires who < |s.transfers| && s.transfers[who].Download?
    requires var slots := s.transfers[who].slots;
      forall i :: 0 <= i < |order| ==> order[i] < |slots| && !slots[order[i]].ready
    requires forall i, j :: 0 <= i < j < |order| ==> order[i] != order[j]
    ensures Run(s, Fetches(who, order)).Some?
    ensures var t, s' := s.transfers[who], Run(s, Fetches(who, order)).value;
      && |s'.transfers| == |s.transfers| && s'.transfers[who].Download?
      && var t' := s'.transfers[who];
         && |t'.slots| == |t.slots|
         && (forall p :: 0 <= p < |t.slots| ==>
               t'.slots[p] == Slot(t.slots[p].block, t.slots[p].ready || p in order))
         && s' == s.(transfers := s.transfers[who := t.(slots := t'.slots)])
    decreases |order|
  {
    var t := s.transfers[who];
    if order == [] {
      assert s.transfers[who := t] == s.transfers;
    } else {
      var s' := Next(s, Act(who, Fetch(order[0]))).value;
      FetchesInAnyOrder(s', who, order[1..]);
      assert Fetches(who, order)[0] == Act(who, Fetch(order[0]));
      assert Fetches(who, order)[1..] == Fetches(who, order[1..]);
    }
  }

  /** A download has ten fetches out at once, and they become ready in any order: whichever
      of them `order` names can be ready while nothing has been delivered. */
  lemma TenFetchesInAnyOrder(pool: nat, total: nat, order: seq<nat>)
    requires pool >= MAX_CONCURRENT_BLOCK_DOWNLOADS && total >= MAX_CONCURRENT_BLOCK_DOWNLOADS
    requires forall i :: 0 <= i < |order| ==> order[i] < MAX_CONCURRENT_BLOCK_DOWNLOADS
    requires forall i, j :: 0 <= i < j < |order| ==> order[i] != order[j]
    ensures var slots := seq(MAX_CONCURRENT_BLOCK_DOWNLOADS, i requires 0 <= i => Slot(i, i in order));
      Reaches(Alone(pool, NewDownload(total)), Alone(pool, Download(total, MAX_CONCURRENT_BLOCK_DOWNLOADS, [], slots)))
  {
    var n := MAX_CONCURRENT_BLOCK_DOWNLOADS;
    var s := Alone(pool, Fetching(total, n));
    var ready := Download(total, n, [], seq(n, i requires 0 <= i => Slot(i, i in order)));
    DownloadStartsTen(pool, total, n);
    FetchesInAnyOrder(s, 0, order);
    var s' := Run(s, Fetches(0, order)).value;
    assert s'.transfers[0].slots == ready.slots;
    assert s'.transfers == [ready];
    assert Leads(s, Fetches(0, order), Alone(pool, ready));
    ReachesOn(Alone(pool, NewDownload(total)), s, Alone(pool, ready));
  }

  /** A download alone in a pool of at least ten has ten fetches out at once. */
  lemma {:induction false} DownloadStartsTen(pool: nat, total: nat, n: nat)
    requires n <= MAX_CONCURRENT_BLOCK_DOWNLOADS && n <= pool && n <= total
    ensures Reaches(Alone(pool, NewDownload(total)), Alone(pool, Fetching(total, n)))
  {
    if n == 0 {
      assert Leads(Alone(pool, NewDownload(total)), [], Alone(pool, Fetching(total, 0)));
    } else {
      DownloadStartsTen(pool, total, n - 1);
      var t, t' := Fetching(total, n - 1), Fetching(total, n);
      assert t.slots + [Slot(n - 1, false)] == t'.slots;
      assert [t][0 := t'] == [t'];
      StepReaches(Alone(pool, t), Act(0, Start), Alone(pool, t'));
      ReachesOn(Alone(pool, NewDownload(total)), Alone(pool, t), Alone(pool, t'));
    }
  }
}
