/** One transfer of a client, as the steps it takes between two awaits.

    An upload runs two halves on one task. The encryptor reads the stream one
    block at a time, keeps up to four blocks encrypting, and hands them in order
    to a channel of four; the uploader takes whatever the channel holds as a
    batch and stores the batch in any order. A download starts up to ten fetches
    in block order and delivers strictly in block order. Every block holds one
    permit of a pool that all transfers share, from before it is read or fetched
    until it has been stored or delivered. */
module TransferSteps {
  import opened Wrappers

  const MAX_CONCURRENT_BLOCK_ENCRYPTS: nat := 4
  const MAX_BUFFERED_UPLOAD_BLOCKS: nat := 4
  const MAX_CONCURRENT_BLOCK_DOWNLOADS: nat := 10

  /** Where the encryptor half of an upload is. */
  datatype Phase =
    | Filling                // widening the encrypt window
    | Awaiting               // queued for a permit, nothing encrypting
    | Granted                // handed a permit it has not used yet
    | Popping                // waiting for the oldest encryption
    | Sending(block: nat)    // waiting for room in the channel
    | Closed                 // stream drained, channel closed

  /** A block a download holds a permit for. */
  datatype Slot = Slot(block: nat, ready: bool)

  datatype Transfer =
      /** `total` blocks are in the stream, of which `unread` are still to come;
          blocks are numbered from 1. */
    | Upload(total: nat, unread: nat, drained: bool, phase: Phase,
             encrypting: seq<nat>, channel: seq<nat>, batch: seq<nat>, stored: seq<nat>)
      /** Blocks are numbered from 0; fetches `[0, started)` have been polled, and the
          blocks in `delivered` written, in that order. */
    | Download(total: nat, started: nat, delivered: seq<nat>, slots: seq<Slot>)
      /** An upload both of whose halves returned: blocks read, blocks stored. */
    | Uploaded(total: nat, read: nat, stored: seq<nat>)
    | Downloaded(total: nat, delivered: seq<nat>)
      /** Failed or cancelled; everything it held has been dropped. */
    | Dropped

  datatype Move =
    | Fill | ReadGranted | Pop | Send | Recv(count: nat) | Store(pos: nat) | FinishUpload
    | Start | Fetch(pos: nat) | Deliver(pos: nat) | FinishDownload

  /** What a move does to the shared pool. */
  datatype Effect = Keep | Take | Give | Wait(block: nat)

  function NewUpload(total: nat): Transfer {
    Upload(total, total, false, Filling, [], [], [], [])
  }

  function NewDownload(total: nat): Transfer {
    Download(total, 0, [], [])
  }

  function Range(a: nat, b: nat): seq<nat> {
    if a < b then seq(b - a, i => a + i) else []
  }

  function RemoveAt<T>(s: seq<T>, pos: nat): seq<T>
    requires pos < |s|
  {
    s[..pos] + s[pos + 1..]
  }

  /** How often `x` occurs in `s`. */
  function Count(s: seq<nat>, x: nat): nat {
    if s == [] then 0 else (if s[0] == x then 1 else 0) + Count(s[1..], x)
  }

  // ---------------------------------------------------------------- the moves

  /** The encryptor's inner loop, once round: stop when the stream is drained or
      the window is full, otherwise take a permit and read a block. It waits for
      a permit only when nothing is encrypting. */
  function FillMove(t: Transfer, free: bool): (Transfer, Effect)
    requires t.Upload? && t.phase.Filling?
  {
    if t.drained || |t.encrypting| >= MAX_CONCURRENT_BLOCK_ENCRYPTS then (t.(phase := Popping), Keep)
    else if free then
      if t.unread > 0 then (ReadOne(t), Take) else (t.(phase := Popping, drained := true), Keep)
    else if t.encrypting == [] then (t.(phase := Awaiting), Wait(0))
    else (t.(phase := Popping), Keep)
  }

  function ReadOne(t: Transfer): Transfer
    requires t.Upload? && t.unread > 0
  {
    if t.total < t.unread then t
    else t.(phase := Filling, unread := t.unread - 1, encrypting := t.encrypting + [t.total - t.unread + 1])
  }

  function UploadMove(t: Transfer, m: Move, free: bool): Option<(Transfer, Effect)>
    requires t.Upload?
  {
    match m
    case Fill =>
      if t.phase.Filling? then Some(FillMove(t, free)) else None
    case ReadGranted =>
      if !t.phase.Granted? then None
      else if t.unread > 0 then Some((ReadOne(t), Keep))
      else Some((t.(phase := Popping, drained := true), Give))
    case Pop =>
      if !t.phase.Popping? then None
      else if t.encrypting == [] then Some((t.(phase := Closed), Keep))
      else Some((t.(phase := Sending(t.encrypting[0]), encrypting := t.encrypting[1..]), Keep))
    case Send =>
      if t.phase.Sending? && |t.channel| < MAX_BUFFERED_UPLOAD_BLOCKS
      then Some((t.(phase := Filling, channel := t.channel + [t.phase.block]), Keep))
      else None
    case Recv(count) =>
      if t.batch == [] && 1 <= count <= |t.channel| && count <= MAX_BUFFERED_UPLOAD_BLOCKS + 1
      then Some((t.(batch := t.channel[..count], channel := t.channel[count..]), Keep))
      else None
    case Store(pos) =>
      if pos < |t.batch|
      then Some((t.(batch := RemoveAt(t.batch, pos), stored := t.stored + [t.batch[pos]]), Give))
      else None
    case FinishUpload =>
      if t.phase.Closed? && t.channel == [] && t.batch == []
      then Some((Uploaded(t.total, if t.unread <= t.total then t.total - t.unread else 0, t.stored), Keep))
      else None
    case _ => None
  }

  function DownloadMove(t: Transfer, m: Move, free: bool): Option<(Transfer, Effect)>
    requires t.Download?
  {
    match m
    case Start =>
      if t.started < t.total && t.started < |t.delivered| + MAX_CONCURRENT_BLOCK_DOWNLOADS then
        if free then Some((t.(started := t.started + 1, slots := t.slots + [Slot(t.started, false)]), Take))
        else Some((t.(started := t.started + 1), Wait(t.started)))
      else None
    case Fetch(pos) =>
      if pos < |t.slots| && !t.slots[pos].ready
      then Some((t.(slots := t.slots[pos := t.slots[pos].(ready := true)]), Keep))
      else None
    case Deliver(pos) =>
      if pos < |t.slots| && t.slots[pos] == Slot(|t.delivered|, true)
      then Some((t.(delivered := t.delivered + [t.slots[pos].block], slots := RemoveAt(t.slots, pos)), Give))
      else None
    case FinishDownload =>
      if |t.delivered| == t.total then Some((Downloaded(t.total, t.delivered), Keep)) else None
    case _ => None
  }

  /** One move of one transfer; `free` is whether the pool has a permit. */
  function Local(t: Transfer, m: Move, free: bool): Option<(Transfer, Effect)> {
    if t.Upload? then UploadMove(t, m, free)
    else if t.Download? then DownloadMove(t, m, free)
    else None
  }

  /** The pool hands `t` the permit it queued for. */
  function Grant(t: Transfer, block: nat): Transfer {
    if t.Upload? then t.(phase := Granted)
    else if t.Download? then t.(slots := t.slots + [Slot(block, false)])
    else t
  }

  // ------------------------------------------------------- what a transfer owns

  function InFlight(t: Transfer): seq<nat>
    requires t.Upload?
  {
    t.channel + (if t.phase.Sending? then [t.phase.block] else []) + t.encrypting
  }

  /** Permits `t` holds. */
  function Held(t: Transfer): nat {
    if t.Upload? then |InFlight(t)| + |t.batch| + (if t.phase.Granted? then 1 else 0)
    else if t.Download? then |t.slots|
    else 0
  }

  /** The requests `t` has queued at the pool, in the order it made them. */
  function Pending(t: Transfer): seq<nat> {
    if t.Upload? then (if t.phase.Awaiting? then [0] else [])
    else if t.Download? then Range(|t.delivered| + |t.slots|, t.started)
    else []
  }

  ghost predicate WindowsOk(t: Transfer)
    requires t.Upload?
  {
    && t.unread <= t.total
    && (t.drained ==> t.unread == 0)
    && |t.encrypting| + (if t.phase.Sending? then 1 else 0) <= MAX_CONCURRENT_BLOCK_ENCRYPTS
    && |t.channel| <= MAX_BUFFERED_UPLOAD_BLOCKS
    && |t.batch| <= MAX_BUFFERED_UPLOAD_BLOCKS
    && (t.phase.Awaiting? || t.phase.Granted? ==> t.encrypting == [] && !t.drained)
    && (t.phase.Popping? && t.encrypting == [] ==> t.drained)
    && (t.phase.Closed? ==> t.encrypting == [] && t.drained)
    && |t.stored| + |t.batch| <= t.total - t.unread
  }

  /** The blocks between the encryptor and the batch are those after the ones
      the uploader has taken, up to the last one read, in block order. */
  ghost predicate InOrder(t: Transfer)
    requires t.Upload? && WindowsOk(t)
  {
    InFlight(t) == Range(|t.stored| + |t.batch| + 1, t.total - t.unread + 1)
  }

  /** The uploader's blocks, stored or being stored, are the first ones, each once. */
  ghost predicate TakenOnce(t: Transfer)
    requires t.Upload?
  {
    forall b: nat :: Count(t.stored, b) + Count(t.batch, b) == if 1 <= b <= |t.stored| + |t.batch| then 1 else 0
  }

  ghost predicate UploadOk(t: Transfer)
    requires t.Upload?
  {
    WindowsOk(t) && InOrder(t) && TakenOnce(t)
  }

  ghost predicate DownloadOk(t: Transfer)
    requires t.Download?
  {
    && t.delivered == Range(0, |t.delivered|)
    && |t.delivered| + |t.slots| <= t.started <= t.total
    && t.started <= |t.delivered| + MAX_CONCURRENT_BLOCK_DOWNLOADS
    && forall i :: 0 <= i < |t.slots| ==> t.slots[i].block == |t.delivered| + i
  }

  /** What every move keeps. For an upload: each block read is in exactly one
      stage, the stages behind the uploader in block order. For a download: the
      permits held are those of the lowest undelivered blocks, without a gap, and the
      blocks delivered are the first ones, in order. */
  ghost predicate TransferOk(t: Transfer) {
    match t
    case Upload(_, _, _, _, _, _, _, _) => UploadOk(t)
    case Download(_, _, _, _) => DownloadOk(t)
    case Uploaded(total, read, stored) =>
      read == total && |stored| == total && forall b: nat :: Count(stored, b) == if 1 <= b <= total then 1 else 0
    case Downloaded(total, delivered) => delivered == Range(0, total)
    case Dropped => true
  }

  function ReadyCount(slots: seq<Slot>): nat {
    if slots == [] then 0 else (if slots[0].ready then 1 else 0) + ReadyCount(slots[1..])
  }

  function PhaseRank(p: Phase): nat {
    match p
    case Filling => 4
    case Awaiting => 3
    case Granted => 2
    case Popping => 1
    case Sending(_) => 0
    case Closed => 0
  }

  /** Work left; every move makes it smaller. */
  function Work(t: Transfer): int {
    match t
    case Upload(_, unread, _, phase, encrypting, channel, batch, _) =>
      30 * unread + 24 * |encrypting| + (if phase.Sending? then 18 else 0) + 12 * |channel| + 6 * |batch|
      + PhaseRank(phase) + 1
    case Download(total, started, delivered, slots) =>
      4 * (total - |delivered|) + (total - started) - ReadyCount(slots) + 1
    case _ => 0
  }

  // -------------------------------------------------------------------- counting

  lemma RangeAppend(a: nat, b: nat)
    requires a <= b
    ensures Range(a, b + 1) == Range(a, b) + [b]
  {
  }

  lemma RangeSplit(a: nat, b: nat, k: nat)
    requires k <= |Range(a, b)|
    ensures Range(a, b)[..k] == Range(a, a + k)
    ensures Range(a, b)[k..] == Range(a + k, b)
  {
  }

  lemma {:induction false} CountAppend(s: seq<nat>, r: seq<nat>, x: nat)
    ensures Count(s + r, x) == Count(s, x) + Count(r, x)
  {
    if s == [] {
      assert s + r == r;
    } else {
      CountAppend(s[1..], r, x);
      assert (s + r)[1..] == s[1..] + r;
    }
  }

  lemma CountRemoveAt(s: seq<nat>, pos: nat, x: nat)
    requires pos < |s|
    ensures Count(s, x) == Count(RemoveAt(s, pos), x) + Count([s[pos]], x)
  {
    CountAppend(s[..pos], s[pos + 1..], x);
    CountAppend([s[pos]], s[pos + 1..], x);
    CountAppend(s[..pos], [s[pos]] + s[pos + 1..], x);
    assert s == s[..pos] + ([s[pos]] + s[pos + 1..]);
  }

  lemma {:induction false} CountRange(a: nat, b: nat, x: nat)
    requires a <= b
    ensures Count(Range(a, b), x) == if a <= x < b then 1 else 0
    decreases b
  {
    if a < b {
      CountRange(a, b - 1, x);
      RangeAppend(a, b - 1);
      CountAppend(Range(a, b - 1), [b - 1], x);
    }
  }

  lemma {:induction false} ReadyCountBound(slots: seq<Slot>)
    ensures ReadyCount(slots) <= |slots|
  {
    if slots != [] { ReadyCountBound(slots[1..]); }
  }

  lemma {:induction false} ReadyCountAppend(slots: seq<Slot>, x: Slot)
    ensures ReadyCount(slots + [x]) == ReadyCount(slots) + (if x.ready then 1 else 0)
  {
    if slots == [] {
      assert slots + [x] == [x];
    } else {
      ReadyCountAppend(slots[1..], x);
      assert (slots + [x])[1..] == slots[1..] + [x];
    }
  }

  lemma {:induction false} ReadyCountUpdate(slots: seq<Slot>, pos: nat, x: Slot)
    requires pos < |slots|
    ensures ReadyCount(slots[pos := x]) ==
            ReadyCount(slots) - (if slots[pos].ready then 1 else 0) + (if x.ready then 1 else 0)
  {
    if pos == 0 {
      assert slots[pos := x] == [x] + slots[1..];
    } else {
      ReadyCountUpdate(slots[1..], pos - 1, x);
      assert slots[pos := x][1..] == slots[1..][pos - 1 := x];
    }
  }
}
