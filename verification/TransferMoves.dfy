/** What every move of one transfer keeps, and when a transfer can move.

    A move keeps each block in exactly one stage and the stages in block order,
    changes the permits held and the requests queued by the one effect it
    declares, and leaves less work. No permit is held by a transfer that waits
    for another one, and a transfer that neither holds nor waits moves as soon
    as a permit is free. */
module TransferMoves {
  import opened Wrappers
  import opened TransferSteps

  ghost predicate EffectMatches(t: Transfer, t': Transfer, e: Effect, free: bool) {
    match e
    case Keep => Held(t') == Held(t) && Pending(t') == Pending(t)
    case Take => free && Held(t') == Held(t) + 1 && Pending(t') == Pending(t)
    case Give => Held(t') == Held(t) - 1 && Pending(t') == Pending(t)
    case Wait(block) => !free && Held(t') == Held(t) && Pending(t') == Pending(t) + [block]
  }

  ghost predicate StepKeeps(t: Transfer, m: Move, free: bool)
    requires Local(t, m, free).Some?
  {
    var (t', e) := Local(t, m, free).value;
    TransferOk(t') && EffectMatches(t, t', e, free) && Work(t') < Work(t)
  }

  /** Every move keeps the transfer well formed, changes its permits and queued
      requests by exactly the effect it declares, and leaves less work. */
  lemma {:induction false} MoveKeeps(t: Transfer, m: Move, free: bool)
    requires TransferOk(t)
    requires free ==> Pending(t) == []
    requires Local(t, m, free).Some?
    ensures StepKeeps(t, m, free)
  {
    if t.Download? {
      match m
      case Start => StartKeeps(t, free);
      case Fetch(pos) => FetchKeeps(t, pos, free);
      case Deliver(pos) => DeliverKeeps(t, pos, free);
      case FinishDownload => ReadyCountBound(t.slots);
    } else if m.Fill? {
      FillKeeps(t, free);
    } else if m.ReadGranted? {
      ReadGrantedKeeps(t, free);
    } else {
      match m
      case Pop => PopKeeps(t, free);
      case Send => SendKeeps(t, free);
      case Recv(count) => RecvKeeps(t, count, free);
      case Store(pos) => StoreKeeps(t, pos, free);
      case FinishUpload => FinishKeeps(t, free);
    }
  }

  /** A transfer that holds a permit can always move, whatever the pool has left:
      no permit is ever held by someone who is waiting for another one. */
  lemma {:induction false} HolderCanMove(t: Transfer, free: bool) returns (m: Move)
    requires TransferOk(t) && Held(t) > 0
    ensures Local(t, m, free).Some?
  {
    match t {
      case Upload(_, _, _, phase, encrypting, channel, batch, _) =>
        if batch != [] {
          m := Store(0);
        } else if channel != [] {
          m := Recv(1);
        } else {
          match phase
          case Filling => m := Fill;
          case Awaiting => assert false;
          case Granted => m := ReadGranted;
          case Popping => m := Pop;
          case Sending(_) => m := Send;
          case Closed => assert false;
        }
      case Download(_, _, _, slots) =>
        m := if slots[0].ready then Deliver(0) else Fetch(0);
    }
  }

  /** With a permit free, every unfinished transfer that is not queued can move. */
  lemma {:induction false} IdleCanMove(t: Transfer) returns (m: Move)
    requires TransferOk(t) && !Finished(t) && Pending(t) == []
    ensures Local(t, m, true).Some?
  {
    if Held(t) > 0 {
      m := HolderCanMove(t, true);
    } else if t.Upload? {
      match t.phase
      case Filling => m := Fill;
      case Popping => m := Pop;
      case Closed => m := FinishUpload;
      case _ => assert false;
    } else if |t.delivered| == t.total {
      m := FinishDownload;
    } else {
      assert t.started == |t.delivered|;
      m := Start;
    }
  }

  lemma {:induction false} GrantKeeps(t: Transfer, block: nat)
    requires TransferOk(t) && Pending(t) != [] && Pending(t)[0] == block
    ensures TransferOk(Grant(t, block))
    ensures Held(Grant(t, block)) == Held(t) + 1
    ensures Pending(Grant(t, block)) == Pending(t)[1..]
    ensures Work(Grant(t, block)) <= Work(t)
  {
    if t.Download? {
      ReadyCountAppend(t.slots, Slot(block, false));
    } else {
      assert InFlight(Grant(t, block)) == InFlight(t);
      assert TakenOnce(Grant(t, block));
    }
  }

  lemma ReadOneKeeps(t: Transfer)
    requires t.Upload? && UploadOk(t) && t.unread > 0
    requires t.phase.Filling? || t.phase.Granted?
    requires |t.encrypting| < MAX_CONCURRENT_BLOCK_ENCRYPTS
    ensures UploadOk(ReadOne(t))
  {
    var c, next := |t.stored| + |t.batch| + 1, t.total - t.unread + 1;
    var t' := ReadOne(t);
    assert TakenOnce(t');
    RangeAppend(c, next);
    assert InFlight(t') == InFlight(t) + [next];
  }

  lemma StopFillingKeeps(t: Transfer, phase: Phase, drained: bool)
    requires t.Upload? && UploadOk(t) && t.phase.Filling?
    requires (phase.Popping? && (t.encrypting != [] || drained)) || (phase.Awaiting? && t.encrypting == [] && !drained)
    requires drained ==> t.unread == 0
    ensures UploadOk(t.(phase := phase, drained := drained))
    ensures Held(t.(phase := phase, drained := drained)) == Held(t)
    ensures Work(t.(phase := phase, drained := drained)) < Work(t)
  {
    var t' := t.(phase := phase, drained := drained);
    assert InFlight(t') == InFlight(t);
    assert TakenOnce(t');
  }

  lemma {:induction false} FillKeeps(t: Transfer, free: bool)
    requires t.Upload? && UploadOk(t) && t.phase.Filling?
    ensures StepKeeps(t, Fill, free)
  {
    if t.drained || |t.encrypting| >= MAX_CONCURRENT_BLOCK_ENCRYPTS {
      StopFillingKeeps(t, Popping, t.drained);
    } else if free {
      if t.unread > 0 {
        ReadOneKeeps(t);
      } else {
        StopFillingKeeps(t, Popping, true);
      }
    } else if t.encrypting == [] {
      StopFillingKeeps(t, Awaiting, t.drained);
    } else {
      StopFillingKeeps(t, Popping, t.drained);
    }
  }

  lemma {:induction false} ReadGrantedKeeps(t: Transfer, free: bool)
    requires t.Upload? && UploadOk(t) && t.phase.Granted?
    ensures StepKeeps(t, ReadGranted, free)
  {
    if t.unread > 0 {
      ReadOneKeeps(t);
    } else {
      var t' := t.(phase := Popping, drained := true);
      assert InFlight(t') == InFlight(t);
      assert TakenOnce(t');
    }
  }

  lemma PopOldest(t: Transfer)
    requires t.Upload? && UploadOk(t) && t.phase.Popping? && t.encrypting != []
    ensures var t' := t.(phase := Sending(t.encrypting[0]), encrypting := t.encrypting[1..]);
            UploadOk(t') && Held(t') == Held(t)
  {
    var t' := t.(phase := Sending(t.encrypting[0]), encrypting := t.encrypting[1..]);
    assert InFlight(t') == InFlight(t);
    assert TakenOnce(t');
  }

  lemma {:induction false} PopKeeps(t: Transfer, free: bool)
    requires t.Upload? && UploadOk(t) && t.phase.Popping?
    ensures StepKeeps(t, Pop, free)
  {
    if t.encrypting == [] {
      assert InFlight(t.(phase := Closed)) == InFlight(t);
      assert TakenOnce(t.(phase := Closed));
    } else {
      PopOldest(t);
    }
  }

  lemma {:induction false} SendKeeps(t: Transfer, free: bool)
    requires t.Upload? && UploadOk(t)
    requires UploadMove(t, Send, free).Some?
    ensures StepKeeps(t, Send, free)
  {
    var t' := UploadMove(t, Send, free).value.0;
    assert TakenOnce(t');
    assert InFlight(t') == InFlight(t);
  }

  lemma RecvTakes(t: Transfer, count: nat)
    requires t.Upload? && UploadOk(t) && t.batch == [] && count <= |t.channel|
    ensures InFlight(t)[..count] == t.channel[..count] == Range(|t.stored| + 1, |t.stored| + 1 + count)
    ensures InFlight(t.(batch := t.channel[..count], channel := t.channel[count..])) ==
            Range(|t.stored| + count + 1, t.total - t.unread + 1)
  {
    RangeSplit(|t.stored| + 1, t.total - t.unread + 1, count);
    assert InFlight(t)[..count] == t.channel[..count];
    assert InFlight(t.(batch := t.channel[..count], channel := t.channel[count..])) == InFlight(t)[count..];
  }

  lemma RecvTakesOnce(t: Transfer, count: nat)
    requires t.Upload? && UploadOk(t) && t.batch == [] && count <= |t.channel|
    ensures TakenOnce(t.(batch := t.channel[..count], channel := t.channel[count..]))
  {
    RecvTakes(t, count);
    forall b: nat ensures Count(t.channel[..count], b) == if |t.stored| < b <= |t.stored| + count then 1 else 0 {
      CountRange(|t.stored| + 1, |t.stored| + 1 + count, b);
    }
  }

  lemma RecvShape(t: Transfer, t': Transfer, count: nat)
    requires t'.Upload? && t.Upload? && WindowsOk(t) && InOrder(t) && t.batch == [] && 1 <= count <= |t.channel|
    requires t' == t.(batch := t'.batch, channel := t'.channel)
    requires |t'.batch| == count && |t'.channel| == |t.channel| - count
    requires InFlight(t') == Range(|t.stored| + count + 1, t.total - t.unread + 1)
    ensures WindowsOk(t') && InOrder(t')
    ensures Held(t') == Held(t) && Pending(t') == Pending(t) && Work(t') < Work(t)
  {
  }

  lemma {:induction false} RecvKeeps(t: Transfer, count: nat, free: bool)
    requires t.Upload? && UploadOk(t)
    requires UploadMove(t, Recv(count), free).Some?
    ensures StepKeeps(t, Recv(count), free)
  {
    var t' := UploadMove(t, Recv(count), free).value.0;
    RecvTakes(t, count);
    RecvTakesOnce(t, count);
    RecvShape(t, t', count);
  }

  lemma {:induction false} StoreKeeps(t: Transfer, pos: nat, free: bool)
    requires t.Upload? && UploadOk(t)
    requires UploadMove(t, Store(pos), free).Some?
    ensures StepKeeps(t, Store(pos), free)
  {
    var t' := UploadMove(t, Store(pos), free).value.0;
    assert InFlight(t') == InFlight(t);
    assert WindowsOk(t') && InOrder(t');
    forall b: nat ensures Count(t'.stored, b) + Count(t'.batch, b) == Count(t.stored, b) + Count(t.batch, b) {
      CountAppend(t.stored, [t.batch[pos]], b);
      CountRemoveAt(t.batch, pos, b);
    }
    assert |t'.batch| == |t.batch| - 1 && |t'.stored| == |t.stored| + 1;
  }

  lemma FinishKeeps(t: Transfer, free: bool)
    requires t.Upload? && UploadOk(t)
    requires UploadMove(t, FinishUpload, free).Some?
    ensures StepKeeps(t, FinishUpload, free)
  {
    assert InFlight(t) == [];
  }

  lemma {:induction false} StartKeeps(t: Transfer, free: bool)
    requires t.Download? && DownloadOk(t)
    requires free ==> Pending(t) == []
    requires DownloadMove(t, Start, free).Some?
    ensures StepKeeps(t, Start, free)
  {
    if free {
      ReadyCountAppend(t.slots, Slot(t.started, false));
      assert |Range(|t.delivered| + |t.slots|, t.started)| == 0;
    } else {
      RangeAppend(|t.delivered| + |t.slots|, t.started);
    }
  }

  lemma {:induction false} FetchKeeps(t: Transfer, pos: nat, free: bool)
    requires t.Download? && DownloadOk(t)
    requires DownloadMove(t, Fetch(pos), free).Some?
    ensures StepKeeps(t, Fetch(pos), free)
  {
    ReadyCountUpdate(t.slots, pos, t.slots[pos].(ready := true));
  }

  lemma {:induction false} DeliverKeeps(t: Transfer, pos: nat, free: bool)
    requires t.Download? && DownloadOk(t)
    requires DownloadMove(t, Deliver(pos), free).Some?
    ensures StepKeeps(t, Deliver(pos), free)
  {
    assert pos == 0;
    assert RemoveAt(t.slots, pos) == t.slots[1..];
    RangeAppend(0, |t.delivered|);
  }

  lemma WorkNonNegative(t: Transfer)
    requires TransferOk(t)
    ensures Work(t) >= 0
  {
    if t.Download? { ReadyCountBound(t.slots); }
  }

  predicate Finished(t: Transfer) {
    !t.Upload? && !t.Download?
  }
}
