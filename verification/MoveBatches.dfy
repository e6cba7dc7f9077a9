/** A batch move: prepared moves sent to a server that may answer anything, retried at most once. */
module MoveBatches {
  import opened Nodes
  import opened Wrappers

  const MAX_BATCH_COUNT: nat := 150
  const SUCCESS: nat := 1000
  const INVALID_REQUIREMENTS: nat := 2000

  datatype Failure =
    | Api(code: nat)
    | CrossVolume | BadName | ListedTwice | NotFound | Unprepared
    | NoAnswer | OutOfSync | NoOutcome
    | Wrapped(cause: Failure)

  type Outcome = Result<(), Failure>
  datatype Report = Report(uid: Uid, outcome: Outcome)

  /** One node's move, encrypted and ready for a batch. */
  datatype PreparedMove = PreparedMove(
    uid: Uid, originalHash: string, anonymous: bool, sourceParent: Option<nat>, currentName: string, retried: bool)

  // ---------------------------------------------------------------- the server

  datatype Answer = Answer(link: nat, code: nat)
  datatype Reply = Refusal(error: Failure) | Envelope(answers: seq<Answer>)

  /** A link as the server holds it now; `name` is None when it does not decrypt. */
  datatype Copy = Copy(parent: Option<nat>, nameHash: Option<string>, name: Option<string>)

  /** What the server does is any function of what it is asked and when. */
  datatype Server = Server(reply: (nat, seq<PreparedMove>) -> Reply, copyOf: (nat, Uid) -> Result<Copy, Failure>)

  /** The outcome an envelope gives a link: the last one listed wins. */
  function Listed(answers: seq<Answer>, link: nat): Option<Outcome> {
    if answers == [] then None
    else
      var last := answers[|answers| - 1];
      if last.link == link then Some(OutcomeOf(last.code)) else Listed(answers[..|answers| - 1], link)
  }

  function OutcomeOf(code: nat): Outcome {
    if code == SUCCESS then Ok(()) else Err(Api(code))
  }

  function Found(perLink: map<nat, Outcome>, link: nat): Option<Outcome> {
    if link in perLink then Some(perLink[link]) else None
  }

  /** `code` is what the last answer naming `link` says. */
  ghost predicate LastCode(answers: seq<Answer>, link: nat, code: nat) {
    exists k: nat :: LastCodeAt(answers, link, code, k)
  }

  ghost predicate LastCodeAt(answers: seq<Answer>, link: nat, code: nat, k: nat) {
    && k < |answers| && answers[k] == Answer(link, code)
    && forall j :: k < j < |answers| ==> answers[j].link != link
  }

  ghost predicate Named(answers: seq<Answer>, link: nat) {
    exists a :: a in answers && a.link == link
  }

  /** The outcome listed for a link is what its last code means. */
  lemma {:induction false} ListedMeans(answers: seq<Answer>, link: nat)
    ensures Listed(answers, link).Some? <==> Named(answers, link)
    ensures forall code :: LastCode(answers, link, code) ==>
              Listed(answers, link) == Some(if code == SUCCESS then Ok(()) else Err(Api(code)))
    ensures Named(answers, link) ==> exists code :: LastCode(answers, link, code)
    decreases |answers|
  {
    if answers != [] {
      var shorter, last := answers[..|answers| - 1], answers[|answers| - 1];
      ListedMeans(shorter, link);
      assert last in answers && forall a :: a in answers <==> a in shorter || a == last;
      if last.link == link {
        assert LastCodeAt(answers, link, last.code, |answers| - 1);
        assert LastCode(answers, link, last.code);
        forall code | LastCode(answers, link, code) ensures code == last.code {
          var k: nat :| LastCodeAt(answers, link, code, k);
        }
      } else {
        assert Named(answers, link) <==> Named(shorter, link);
        forall code ensures LastCode(answers, link, code) <==> LastCode(shorter, link, code) {
          LastCodeOfShorter(answers, link, code);
        }
      }
    }
  }

  lemma LastCodeOfShorter(answers: seq<Answer>, link: nat, code: nat)
    requires answers != [] && answers[|answers| - 1].link != link
    ensures LastCode(answers, link, code) <==> LastCode(answers[..|answers| - 1], link, code)
  {
    var shorter := answers[..|answers| - 1];
    if k: nat :| LastCodeAt(shorter, link, code, k) {
      assert LastCodeAt(answers, link, code, k);
    }
    if k: nat :| LastCodeAt(answers, link, code, k) {
      assert LastCodeAt(shorter, link, code, k);
    }
  }

  /** Index an envelope by link. */
  method AggregateOutcomes(answers: seq<Answer>) returns (perLink: map<nat, Outcome>)
    ensures forall link :: Found(perLink, link) == Listed(answers, link)
  {
    perLink := map[];
    var i := 0;
    while i < |answers|
      invariant 0 <= i <= |answers|
      invariant forall link :: Found(perLink, link) == Listed(answers[..i], link)
    {
      perLink := perLink[answers[i].link := OutcomeOf(answers[i].code)];
      assert answers[..i + 1][..i] == answers[..i];
      i := i + 1;
    }
    assert answers[..i] == answers;
  }

  // ------------------------------------------------------------ one link's fate

  ghost predicate HasHash(copy: Result<Copy, Failure>, p: PreparedMove, hash: string) {
    && copy.Ok? && copy.value.nameHash == Some(hash) && hash != ""
    && copy.value.parent.Some? && copy.value.parent == p.sourceParent
    && copy.value.name == Some(p.currentName)
  }

  /** The hash a retry must carry: the server's, but only of a node still under the
      parent, and with the name, the move was prepared against. */
  function RemoteOriginalHash(copy: Result<Copy, Failure>, p: PreparedMove): (r: Result<string, Failure>)
    ensures r.Ok? ==> HasHash(copy, p, r.value)
    ensures r.Err? ==> forall hash :: !HasHash(copy, p, hash)
    ensures copy.Err? ==> r == Err(copy.error)
  {
    if copy.Err? then Err(copy.error)
    else if copy.value.parent.None? || copy.value.nameHash.None? then Err(OutOfSync)
    else if copy.value.parent != p.sourceParent || copy.value.nameHash.value == "" then Err(OutOfSync)
    else if copy.value.name.None? then Err(Unprepared)
    else if copy.value.name.value != p.currentName then Err(OutOfSync)
    else Ok(copy.value.nameHash.value)
  }

  datatype Verdict = Settle(outcome: Outcome) | Resend(hash: string)

  /** What a link's own outcome means for it. */
  function Weigh(said: Option<Outcome>, copy: Result<Copy, Failure>, p: PreparedMove): Verdict {
    if said.None? then Settle(Err(NoAnswer))
    else if said.value == Err(Api(INVALID_REQUIREMENTS)) && !p.retried then
      var hash := RemoteOriginalHash(copy, p);
      if hash.Ok? then Resend(hash.value) else Settle(Err(hash.error))
    else Settle(said.value)
  }

  /** What a reply makes of one link that was in the batch. */
  function Judge(reply: Reply, copy: Result<Copy, Failure>, p: PreparedMove): Verdict {
    match reply
    case Refusal(error) => Settle(Err(if error.Api? then error else Wrapped(error)))
    case Envelope(answers) => Weigh(Listed(answers, p.uid.link), copy, p)
  }

  function VerdictOn(server: Server, round: nat, reply: Reply, p: PreparedMove): Verdict {
    Judge(reply, server.copyOf(round, p.uid), p)
  }

  /** The links of `batch` a reply is the last word on, and those to send again. */
  function Settled(server: Server, round: nat, reply: Reply, batch: seq<PreparedMove>): seq<Report> {
    if batch == [] then []
    else
      var p := batch[|batch| - 1];
      var verdict := VerdictOn(server, round, reply, p);
      var before := Settled(server, round, reply, batch[..|batch| - 1]);
      if verdict.Settle? then before + [Report(p.uid, verdict.outcome)] else before
  }

  function Resent(server: Server, round: nat, reply: Reply, batch: seq<PreparedMove>): seq<PreparedMove> {
    if batch == [] then []
    else
      var p := batch[|batch| - 1];
      var verdict := VerdictOn(server, round, reply, p);
      var before := Resent(server, round, reply, batch[..|batch| - 1]);
      if verdict.Resend? then before + [p.(originalHash := verdict.hash, retried := true)] else before
  }

  lemma OneMore(server: Server, round: nat, reply: Reply, batch: seq<PreparedMove>, i: nat)
    requires i < |batch|
    ensures var p := batch[i];
            var verdict := VerdictOn(server, round, reply, p);
            var settled := Settled(server, round, reply, batch[..i]);
            var resent := Resent(server, round, reply, batch[..i]);
            && Settled(server, round, reply, batch[..i + 1]) ==
               (if verdict.Settle? then settled + [Report(p.uid, verdict.outcome)] else settled)
            && Resent(server, round, reply, batch[..i + 1]) ==
               (if verdict.Resend? then resent + [p.(originalHash := verdict.hash, retried := true)] else resent)
  {
    assert batch[..i + 1][..i] == batch[..i];
  }

  // ------------------------------------------------------------------- counting

  /** How many queued moves, and how many reports, are about `uid`. */
  function Waiting(queue: seq<PreparedMove>, uid: Uid): nat {
    if queue == [] then 0
    else Waiting(queue[..|queue| - 1], uid) + (if queue[|queue| - 1].uid == uid then 1 else 0)
  }

  function Reports(reports: seq<Report>, uid: Uid): nat {
    if reports == [] then 0
    else Reports(reports[..|reports| - 1], uid) + (if reports[|reports| - 1].uid == uid then 1 else 0)
  }

  lemma {:induction false} WaitingConcat(a: seq<PreparedMove>, b: seq<PreparedMove>, uid: Uid)
    ensures Waiting(a + b, uid) == Waiting(a, uid) + Waiting(b, uid)
    decreases |b|
  {
    if b == [] {
      assert a + b == a;
    } else {
      WaitingConcat(a, b[..|b| - 1], uid);
      assert (a + b)[..|a + b| - 1] == a + b[..|b| - 1];
    }
  }

  lemma {:induction false} ReportsConcat(a: seq<Report>, b: seq<Report>, uid: Uid)
    ensures Reports(a + b, uid) == Reports(a, uid) + Reports(b, uid)
    decreases |b|
  {
    if b == [] {
      assert a + b == a;
    } else {
      ReportsConcat(a, b[..|b| - 1], uid);
      assert (a + b)[..|a + b| - 1] == a + b[..|b| - 1];
    }
  }

  lemma {:induction false} WaitingHas(queue: seq<PreparedMove>, i: nat)
    requires i < |queue|
    ensures Waiting(queue, queue[i].uid) > 0
    decreases |queue|
  {
    if i < |queue| - 1 { WaitingHas(queue[..|queue| - 1], i); }
  }

  lemma {:induction false} ReportsHas(reports: seq<Report>, i: nat)
    requires i < |reports|
    ensures Reports(reports, reports[i].uid) > 0
    decreases |reports|
  {
    if i < |reports| - 1 { ReportsHas(reports[..|reports| - 1], i); }
  }

  lemma {:induction false} WaitingOnce(queue: seq<PreparedMove>, i: nat, j: nat)
    requires i < j < |queue| && queue[i].uid == queue[j].uid
    ensures Waiting(queue, queue[i].uid) > 1
    decreases |queue|
  {
    if j < |queue| - 1 {
      WaitingOnce(queue[..|queue| - 1], i, j);
    } else {
      WaitingHas(queue[..j], i);
    }
  }

  // ------------------------------------------------------------------ the batch

  function OfKind(queue: seq<PreparedMove>, anonymous: bool): seq<PreparedMove> {
    if queue == [] then []
    else
      var shorter, last := queue[..|queue| - 1], queue[|queue| - 1];
      if last.anonymous == anonymous then OfKind(shorter, anonymous) + [last] else OfKind(shorter, anonymous)
  }

  lemma {:induction false} OfKindMember(queue: seq<PreparedMove>, kind: bool, p: PreparedMove)
    requires p in OfKind(queue, kind)
    ensures p in queue && p.anonymous == kind
    decreases |queue|
  {
    if p != queue[|queue| - 1] || p.anonymous != kind {
      OfKindMember(queue[..|queue| - 1], kind, p);
    }
  }

  lemma {:induction false} KindsPartition(queue: seq<PreparedMove>, kind: bool, uid: Uid)
    ensures Waiting(OfKind(queue, kind), uid) + Waiting(OfKind(queue, !kind), uid) == Waiting(queue, uid)
    decreases |queue|
  {
    if queue != [] {
      var shorter, last := queue[..|queue| - 1], queue[|queue| - 1];
      KindsPartition(shorter, kind, uid);
      WaitingConcat(OfKind(shorter, last.anonymous), [last], uid);
    }
  }

  lemma OfKindNext(queue: seq<PreparedMove>, p: PreparedMove)
    ensures OfKind(queue + [p], p.anonymous) == OfKind(queue, p.anonymous) + [p]
    ensures OfKind(queue + [p], !p.anonymous) == OfKind(queue, !p.anonymous)
  {
    assert (queue + [p])[..|queue|] == queue;
  }

  /** `batch` takes from `front`, the start of `queue`, the moves of one kind;
      `rest` keeps the others, in order; only a full batch stops short. */
  ghost predicate SplitAt(queue: seq<PreparedMove>, kind: bool, batch: seq<PreparedMove>, rest: seq<PreparedMove>,
                          front: seq<PreparedMove>, back: seq<PreparedMove>)
  {
    && queue == front + back
    && batch == OfKind(front, kind)
    && rest == OfKind(front, !kind) + back
    && |batch| <= MAX_BATCH_COUNT
    && (|batch| == MAX_BATCH_COUNT || back == [])
  }

  ghost predicate Split(queue: seq<PreparedMove>, kind: bool, batch: seq<PreparedMove>, rest: seq<PreparedMove>) {
    exists front, back :: SplitAt(queue, kind, batch, rest, front, back)
  }

  lemma SplitNext(queue: seq<PreparedMove>, kind: bool, batch: seq<PreparedMove>, rest: seq<PreparedMove>,
                  p: PreparedMove)
    requires Split(queue, kind, batch, rest)
    ensures if |batch| < MAX_BATCH_COUNT && p.anonymous == kind then Split(queue + [p], kind, batch + [p], rest)
            else Split(queue + [p], kind, batch, rest + [p])
  {
    var front, back :| SplitAt(queue, kind, batch, rest, front, back);
    OfKindNext(front, p);
    if |batch| < MAX_BATCH_COUNT {
      assert front == front + back && rest == OfKind(front, !kind);
      if p.anonymous == kind {
        assert SplitAt(queue + [p], kind, batch + [p], rest, front + [p], []);
      } else {
        assert SplitAt(queue + [p], kind, batch, rest + [p], front + [p], []);
      }
    } else {
      assert SplitAt(queue + [p], kind, batch, rest + [p], front, back + [p]);
    }
  }

  /** What one request takes from `queue`: moves signed like the first one. */
  ghost predicate Taken(queue: seq<PreparedMove>, batch: seq<PreparedMove>, rest: seq<PreparedMove>) {
    if queue == [] then batch == [] && rest == []
    else 1 <= |batch| && Split(queue, queue[0].anonymous, batch, rest)
  }

  lemma CutCounts(front: seq<PreparedMove>, back: seq<PreparedMove>, kind: bool, uid: Uid)
    ensures Waiting(OfKind(front, kind), uid) + Waiting(OfKind(front, !kind) + back, uid) == Waiting(front + back, uid)
  {
    KindsPartition(front, kind, uid);
    WaitingConcat(OfKind(front, !kind), back, uid);
    WaitingConcat(front, back, uid);
  }

  /** A batch and what it leaves are the queue, rearranged. */
  lemma TakenCounts(queue: seq<PreparedMove>, batch: seq<PreparedMove>, rest: seq<PreparedMove>, uid: Uid)
    requires Taken(queue, batch, rest)
    ensures Waiting(batch, uid) + Waiting(rest, uid) == Waiting(queue, uid)
  {
    if queue != [] {
      var front, back :| SplitAt(queue, queue[0].anonymous, batch, rest, front, back);
      CutCounts(front, back, queue[0].anonymous, uid);
    }
  }

  lemma TakenMembers(queue: seq<PreparedMove>, batch: seq<PreparedMove>, rest: seq<PreparedMove>)
    requires Taken(queue, batch, rest)
    ensures forall p :: p in batch ==> p in queue && p.anonymous == queue[0].anonymous
    ensures forall p :: p in rest ==> p in queue
  {
    if queue != [] {
      var front, back :| SplitAt(queue, queue[0].anonymous, batch, rest, front, back);
      var kind := queue[0].anonymous;
      forall p | p in batch ensures p in queue && p.anonymous == kind {
        OfKindMember(front, kind, p);
      }
      forall p | p in OfKind(front, !kind) ensures p in queue {
        OfKindMember(front, !kind, p);
      }
    }
  }

  // ----------------------------------------------------------------- the request log

  datatype Request = Request(batch: seq<PreparedMove>, reply: Reply)

  /** The request carried `uid` and the last answer naming its link had this code. */
  ghost predicate Codes(r: Request, uid: Uid, code: nat) {
    Waiting(r.batch, uid) > 0 && r.reply.Envelope? && LastCode(r.reply.answers, uid.link, code)
  }

  ghost predicate CodedAt(log: seq<Request>, uid: Uid, code: nat, k: nat) {
    k < |log| && Codes(log[k], uid, code)
  }

  ghost predicate Coded(log: seq<Request>, uid: Uid, code: nat) {
    exists k: nat :: CodedAt(log, uid, code, k)
  }

  ghost predicate Accepted(log: seq<Request>, uid: Uid) { Coded(log, uid, SUCCESS) }
  ghost predicate Stale(log: seq<Request>, uid: Uid) { Coded(log, uid, INVALID_REQUIREMENTS) }

  /** How many requests carried `uid`. */
  ghost function Sends(log: seq<Request>, uid: Uid): nat {
    if log == [] then 0
    else Sends(log[..|log| - 1], uid) + Waiting(log[|log| - 1].batch, uid)
  }

  lemma LogGrows(log: seq<Request>, r: Request, uid: Uid, code: nat)
    ensures Coded(log + [r], uid, code) <==> Coded(log, uid, code) || Codes(r, uid, code)
    ensures Sends(log + [r], uid) == Sends(log, uid) + Waiting(r.batch, uid)
  {
    var longer := log + [r];
    assert longer[..|log|] == log;
    if Coded(longer, uid, code) {
      var k: nat :| CodedAt(longer, uid, code, k);
      if k < |log| { assert CodedAt(log, uid, code, k); }
    }
    if Coded(log, uid, code) {
      var k: nat :| CodedAt(log, uid, code, k);
      assert CodedAt(longer, uid, code, k);
    }
    if Codes(r, uid, code) {
      assert CodedAt(longer, uid, code, |log|);
    }
  }

  // ---------------------------------------------------------- what a run maintains

  /** Why `p` may be sent again: request `k` called its hash out of date, and the
      server's copy, unchanged since the move was prepared, has the hash it carries. */
  ghost predicate GroundsAt(server: Server, log: seq<Request>, p: PreparedMove, k: nat) {
    && CodedAt(log, p.uid, INVALID_REQUIREMENTS, k)
    && HasHash(server.copyOf(k, p.uid), p, p.originalHash)
    && exists first :: first in log[k].batch && Retries(first, p)
  }

  /** The same move, sent again with another hash. */
  ghost predicate Retries(first: PreparedMove, again: PreparedMove) {
    !first.retried && again == first.(originalHash := again.originalHash, retried := true)
  }

  ghost predicate MayResend(server: Server, log: seq<Request>, p: PreparedMove) {
    exists k: nat :: GroundsAt(server, log, p, k)
  }

  /** Nobody has accepted a queued move; it was sent before just if it is a retry,
      and then with good grounds. */
  ghost predicate QueuedWell(server: Server, volume: nat, log: seq<Request>, p: PreparedMove) {
    && p.uid.volume == volume
    && !Accepted(log, p.uid)
    && Sends(log, p.uid) == (if p.retried then 1 else 0)
    && (p.retried ==> MayResend(server, log, p))
  }

  /** What may be reported of a move after a reply to it that is the last. */
  ghost predicate Fate(reply: Reply, copy: Result<Copy, Failure>, p: PreparedMove, outcome: Outcome) {
    match reply
    case Refusal(error) => outcome == Err(if error.Api? then error else Wrapped(error))
    case Envelope(answers) =>
      && (!Named(answers, p.uid.link) ==> outcome == Err(NoAnswer))
      && (LastCode(answers, p.uid.link, SUCCESS) ==> outcome == Ok(()))
      && forall code :: LastCode(answers, p.uid.link, code) && code != SUCCESS ==>
           if code == INVALID_REQUIREMENTS && !p.retried
           then outcome.Err? && (copy.Err? ==> outcome.error == copy.error) && forall hash :: !HasHash(copy, p, hash)
           else outcome == Err(Api(code))
  }

  /** Request `k` is the last that carried the reported move, and explains the report. */
  ghost predicate ExplainedAt(server: Server, log: seq<Request>, r: Report, k: nat) {
    && k < |log| && Waiting(log[k].batch, r.uid) > 0
    && (forall later :: k < later < |log| ==> Waiting(log[later].batch, r.uid) == 0)
    && exists p :: p in log[k].batch && p.uid == r.uid && Fate(log[k].reply, server.copyOf(k, r.uid), p, r.outcome)
  }

  ghost predicate Explained(server: Server, log: seq<Request>, r: Report) {
    exists k: nat :: ExplainedAt(server, log, r, k)
  }

  /** A report of success is exactly a move some request got accepted, a link went out
      twice only because the server called its hash out of date, and the last request
      that carried it explains the report. */
  ghost predicate ReportedWell(server: Server, log: seq<Request>, r: Report) {
    && (r.outcome.Ok? <==> Accepted(log, r.uid))
    && 1 <= Sends(log, r.uid) <= 2
    && (Sends(log, r.uid) == 2 ==> Stale(log, r.uid))
    && Explained(server, log, r)
  }

  /** Request `k` went to the server, carried one kind of move and each move once, and
      sent again only what it had grounds to. */
  ghost predicate BatchWell(server: Server, log: seq<Request>, k: nat)
    requires k < |log|
  {
    var batch := log[k].batch;
    && log[k].reply == server.reply(k, batch)
    && 1 <= |batch| <= MAX_BATCH_COUNT
    && (forall p :: p in batch ==> p.anonymous == batch[0].anonymous)
    && (forall uid :: Waiting(batch, uid) <= 1)
    && (forall p :: p in batch ==> Sends(log[..k], p.uid) == if p.retried then 1 else 0)
    && (forall p :: p in batch && p.retried ==> MayResend(server, log[..k], p))
  }

  ghost predicate Sound(server: Server, volume: nat, log: seq<Request>, queue: seq<PreparedMove>,
                        reported: seq<Report>)
  {
    && (forall p :: p in queue ==> QueuedWell(server, volume, log, p))
    && (forall r :: r in reported ==> ReportedWell(server, log, r))
    && (forall k {:trigger BatchWell(server, log, k)} :: 0 <= k < |log| ==> BatchWell(server, log, k))
    && (forall uid :: Waiting(queue, uid) + Reports(reported, uid) <= 1)
  }

  // -------------------------------------------------------------- one batch's effect

  lemma {:induction false} JudgedOnce(server: Server, round: nat, reply: Reply, batch: seq<PreparedMove>, uid: Uid)
    ensures Reports(Settled(server, round, reply, batch), uid) + Waiting(Resent(server, round, reply, batch), uid)
            == Waiting(batch, uid)
    decreases |batch|
  {
    if batch != [] {
      var p := batch[|batch| - 1];
      var verdict := VerdictOn(server, round, reply, p);
      JudgedOnce(server, round, reply, batch[..|batch| - 1], uid);
      if verdict.Settle? {
        ReportsConcat(Settled(server, round, reply, batch[..|batch| - 1]), [Report(p.uid, verdict.outcome)], uid);
      } else {
        WaitingConcat(Resent(server, round, reply, batch[..|batch| - 1]),
            [p.(originalHash := verdict.hash, retried := true)], uid);
      }
    }
  }

  lemma {:induction false} SettledFrom(server: Server, round: nat, reply: Reply, batch: seq<PreparedMove>, r: Report)
    returns (p: PreparedMove)
    requires r in Settled(server, round, reply, batch)
    ensures p in batch && p.uid == r.uid && VerdictOn(server, round, reply, p) == Settle(r.outcome)
    decreases |batch|
  {
    p := batch[|batch| - 1];
    var verdict := VerdictOn(server, round, reply, p);
    if verdict != Settle(r.outcome) || p.uid != r.uid {
      p := SettledFrom(server, round, reply, batch[..|batch| - 1], r);
    }
  }

  lemma {:induction false} ResentFrom(server: Server, round: nat, reply: Reply, batch: seq<PreparedMove>,
                                      q: PreparedMove)
    returns (p: PreparedMove)
    requires q in Resent(server, round, reply, batch)
    ensures p in batch && VerdictOn(server, round, reply, p) == Resend(q.originalHash)
    ensures q == p.(originalHash := q.originalHash, retried := true)
    decreases |batch|
  {
    p := batch[|batch| - 1];
    var verdict := VerdictOn(server, round, reply, p);
    if verdict.Settle? || q != p.(originalHash := verdict.hash, retried := true) {
      p := ResentFrom(server, round, reply, batch[..|batch| - 1], q);
    }
  }

  /** Sends left to a queue: two for a new move, one for a retry. */
  function Budget(queue: seq<PreparedMove>): nat {
    if queue == [] then 0
    else Budget(queue[..|queue| - 1]) + (if queue[|queue| - 1].retried then 1 else 2)
  }

  lemma {:induction false} BudgetConcat(a: seq<PreparedMove>, b: seq<PreparedMove>)
    ensures Budget(a + b) == Budget(a) + Budget(b)
    decreases |b|
  {
    if b == [] {
      assert a + b == a;
    } else {
      BudgetConcat(a, b[..|b| - 1]);
      assert (a + b)[..|a + b| - 1] == a + b[..|b| - 1];
    }
  }

  lemma {:induction false} BudgetOfKinds(queue: seq<PreparedMove>, kind: bool)
    ensures Budget(OfKind(queue, kind)) + Budget(OfKind(queue, !kind)) == Budget(queue)
    decreases |queue|
  {
    if queue != [] {
      var shorter, last := queue[..|queue| - 1], queue[|queue| - 1];
      BudgetOfKinds(shorter, kind);
      BudgetConcat(OfKind(shorter, last.anonymous), [last]);
    }
  }

  lemma CutBudget(front: seq<PreparedMove>, back: seq<PreparedMove>, kind: bool)
    ensures Budget(OfKind(front, kind)) + Budget(OfKind(front, !kind) + back) == Budget(front + back)
  {
    BudgetOfKinds(front, kind);
    BudgetConcat(OfKind(front, !kind), back);
    BudgetConcat(front, back);
  }

  /** Every link a request carries uses up one of its sends. */
  lemma {:induction false} ResentCostsLess(server: Server, round: nat, reply: Reply, batch: seq<PreparedMove>)
    ensures Budget(Resent(server, round, reply, batch)) + |batch| <= Budget(batch)
    decreases |batch|
  {
    if batch != [] {
      ResentCostsLess(server, round, reply, batch[..|batch| - 1]);
      var p := batch[|batch| - 1];
      var verdict := VerdictOn(server, round, reply, p);
      if verdict.Resend? {
        BudgetConcat(Resent(server, round, reply, batch[..|batch| - 1]),
            [p.(originalHash := verdict.hash, retried := true)]);
      }
    }
  }

  lemma RoundCostsLess(server: Server, round: nat, reply: Reply,
                       queue: seq<PreparedMove>, batch: seq<PreparedMove>, rest: seq<PreparedMove>)
    requires Taken(queue, batch, rest) && queue != []
    ensures Budget(rest + Resent(server, round, reply, batch)) < Budget(queue)
  {
    var front, back :| SplitAt(queue, queue[0].anonymous, batch, rest, front, back);
    CutBudget(front, back, queue[0].anonymous);
    ResentCostsLess(server, round, reply, batch);
    BudgetConcat(rest, Resent(server, round, reply, batch));
  }

  /** One request's effect on the counts: nobody is lost and nobody duplicated. */
  lemma RoundConserves(server: Server, round: nat, reply: Reply, queue: seq<PreparedMove>,
                       batch: seq<PreparedMove>, rest: seq<PreparedMove>, reported: seq<Report>, uid: Uid)
    requires Taken(queue, batch, rest)
    ensures Waiting(rest + Resent(server, round, reply, batch), uid)
            + Reports(reported + Settled(server, round, reply, batch), uid)
            == Waiting(queue, uid) + Reports(reported, uid)
  {
    TakenCounts(queue, batch, rest, uid);
    JudgedOnce(server, round, reply, batch, uid);
    WaitingConcat(rest, Resent(server, round, reply, batch), uid);
    ReportsConcat(reported, Settled(server, round, reply, batch), uid);
  }

  lemma LogGrowsAll(log: seq<Request>, r: Request)
    ensures forall uid, code {:trigger Coded(log + [r], uid, code)} ::
              Coded(log + [r], uid, code) <==> Coded(log, uid, code) || Codes(r, uid, code)
    ensures forall uid {:trigger Sends(log + [r], uid)} ::
              Sends(log + [r], uid) == Sends(log, uid) + Waiting(r.batch, uid)
  {
    forall uid, code
      ensures Coded(log + [r], uid, code) <==> Coded(log, uid, code) || Codes(r, uid, code)
    {
      LogGrows(log, r, uid, code);
    }
    forall uid ensures Sends(log + [r], uid) == Sends(log, uid) + Waiting(r.batch, uid) {
      LogGrows(log, r, uid, SUCCESS);
    }
  }

  lemma GroundsStay(server: Server, log: seq<Request>, r: Request)
    ensures forall p :: MayResend(server, log, p) ==> MayResend(server, log + [r], p)
  {
    forall p | MayResend(server, log, p) ensures MayResend(server, log + [r], p) {
      var k: nat :| GroundsAt(server, log, p, k);
      assert GroundsAt(server, log + [r], p, k);
    }
  }

  /** What was in the queue and not in the batch, or reported, sees no change. */
  lemma OthersUnmoved(server: Server, volume: nat, log: seq<Request>, r: Request)
    ensures forall p :: QueuedWell(server, volume, log, p) && Waiting(r.batch, p.uid) == 0 ==>
              QueuedWell(server, volume, log + [r], p)
    ensures forall s :: ReportedWell(server, log, s) && Waiting(r.batch, s.uid) == 0 ==>
              ReportedWell(server, log + [r], s)
  {
    GroundsStay(server, log, r);
    LogGrowsAll(log, r);
    forall s | ReportedWell(server, log, s) && Waiting(r.batch, s.uid) == 0 ensures Explained(server, log + [r], s) {
      var k: nat :| ExplainedAt(server, log, s, k);
      assert ExplainedAt(server, log + [r], s, k);
    }
  }

  /** Settling a move is right by what the reply says of it. */
  lemma SettledFate(reply: Reply, copy: Result<Copy, Failure>, p: PreparedMove, outcome: Outcome)
    requires Judge(reply, copy, p) == Settle(outcome)
    ensures Fate(reply, copy, p, outcome)
    ensures outcome.Ok? <==> reply.Envelope? && LastCode(reply.answers, p.uid.link, SUCCESS)
  {
    if reply.Envelope? { ListedMeans(reply.answers, p.uid.link); }
    assert outcome.Ok? ==> outcome.value == ();
  }

  lemma ResentFate(reply: Reply, copy: Result<Copy, Failure>, p: PreparedMove, hash: string)
    requires Judge(reply, copy, p) == Resend(hash)
    ensures !p.retried && HasHash(copy, p, hash) && reply.Envelope?
    ensures LastCode(reply.answers, p.uid.link, INVALID_REQUIREMENTS)
    ensures !LastCode(reply.answers, p.uid.link, SUCCESS)
  {
    ListedMeans(reply.answers, p.uid.link);
  }

  lemma SettledWell(server: Server, volume: nat, log: seq<Request>, r: Request, p: PreparedMove, outcome: Outcome)
    requires QueuedWell(server, volume, log, p) && Waiting(r.batch, p.uid) == 1 && p in r.batch
    requires VerdictOn(server, |log|, r.reply, p) == Settle(outcome)
    ensures ReportedWell(server, log + [r], Report(p.uid, outcome))
  {
    LogGrowsAll(log, r);
    SettledFate(r.reply, server.copyOf(|log|, p.uid), p, outcome);
    if p.retried {
      var k: nat :| GroundsAt(server, log, p, k);
      assert CodedAt(log, p.uid, INVALID_REQUIREMENTS, k);
    }
    assert ExplainedAt(server, log + [r], Report(p.uid, outcome), |log|);
  }

  lemma ResentWell(server: Server, volume: nat, log: seq<Request>, r: Request, p: PreparedMove, hash: string)
    requires QueuedWell(server, volume, log, p) && Waiting(r.batch, p.uid) == 1 && p in r.batch
    requires VerdictOn(server, |log|, r.reply, p) == Resend(hash)
    ensures QueuedWell(server, volume, log + [r], p.(originalHash := hash, retried := true))
  {
    var again := p.(originalHash := hash, retried := true);
    LogGrowsAll(log, r);
    ResentFate(r.reply, server.copyOf(|log|, p.uid), p, hash);
    assert Retries(p, again);
    assert CodedAt(log + [r], p.uid, INVALID_REQUIREMENTS, |log|);
    assert GroundsAt(server, log + [r], again, |log|);
  }

  lemma {:induction false} WaitingOf(queue: seq<PreparedMove>, p: PreparedMove)
    requires p in queue
    ensures Waiting(queue, p.uid) > 0
  {
    var i :| 0 <= i < |queue| && queue[i] == p;
    WaitingHas(queue, i);
  }

  lemma {:induction false} ReportsOf(reports: seq<Report>, r: Report)
    requires r in reports
    ensures Reports(reports, r.uid) > 0
  {
    var i :| 0 <= i < |reports| && reports[i] == r;
    ReportsHas(reports, i);
  }

  lemma RoundKeepsQueue(server: Server, volume: nat, log: seq<Request>, reply: Reply, queue: seq<PreparedMove>,
                        batch: seq<PreparedMove>, rest: seq<PreparedMove>, reported: seq<Report>, q: PreparedMove)
    requires Sound(server, volume, log, queue, reported) && Taken(queue, batch, rest)
    requires q in rest + Resent(server, |log|, reply, batch)
    ensures QueuedWell(server, volume, log + [Request(batch, reply)], q)
  {
    TakenMembers(queue, batch, rest);
    TakenCounts(queue, batch, rest, q.uid);
    if q in rest {
      WaitingOf(rest, q);
      OthersUnmoved(server, volume, log, Request(batch, reply));
    } else {
      var p := ResentFrom(server, |log|, reply, batch, q);
      WaitingOf(batch, p);
      ResentWell(server, volume, log, Request(batch, reply), p, q.originalHash);
    }
  }

  lemma RoundKeepsReports(server: Server, volume: nat, log: seq<Request>, reply: Reply, queue: seq<PreparedMove>,
                          batch: seq<PreparedMove>, rest: seq<PreparedMove>, reported: seq<Report>, r: Report)
    requires Sound(server, volume, log, queue, reported) && Taken(queue, batch, rest)
    requires r in reported + Settled(server, |log|, reply, batch)
    ensures ReportedWell(server, log + [Request(batch, reply)], r)
  {
    TakenMembers(queue, batch, rest);
    TakenCounts(queue, batch, rest, r.uid);
    if r in reported {
      ReportsOf(reported, r);
      OthersUnmoved(server, volume, log, Request(batch, reply));
    } else {
      var p := SettledFrom(server, |log|, reply, batch, r);
      WaitingOf(batch, p);
      SettledWell(server, volume, log, Request(batch, reply), p, r.outcome);
    }
  }

  lemma {:induction false} RoundKeeps(server: Server, volume: nat, log: seq<Request>, reply: Reply,
                                      queue: seq<PreparedMove>, batch: seq<PreparedMove>,
                                      rest: seq<PreparedMove>, reported: seq<Report>)
    requires Sound(server, volume, log, queue, reported) && Taken(queue, batch, rest) && queue != []
    requires reply == server.reply(|log|, batch)
    ensures Sound(server, volume, log + [Request(batch, reply)], rest + Resent(server, |log|, reply, batch),
                  reported + Settled(server, |log|, reply, batch))
  {
    var queue' := rest + Resent(server, |log|, reply, batch);
    var reported' := reported + Settled(server, |log|, reply, batch);
    var log' := log + [Request(batch, reply)];
    forall q | q in queue' ensures QueuedWell(server, volume, log', q) {
      RoundKeepsQueue(server, volume, log, reply, queue, batch, rest, reported, q);
    }
    forall r | r in reported' ensures ReportedWell(server, log', r) {
      RoundKeepsReports(server, volume, log, reply, queue, batch, rest, reported, r);
    }
    forall uid ensures Waiting(queue', uid) + Reports(reported', uid) <= 1 {
      RoundConserves(server, |log|, reply, queue, batch, rest, reported, uid);
    }
    TakenMembers(queue, batch, rest);
    forall k | 0 <= k < |log'| ensures BatchWell(server, log', k) {
      if k < |log| {
        assert BatchWell(server, log, k) && log'[..k] == log[..k];
      } else {
        assert log'[..k] == log;
        forall uid ensures Waiting(batch, uid) <= 1 {
          TakenCounts(queue, batch, rest, uid);
        }
        forall p | p in batch ensures QueuedWell(server, volume, log, p) {
        }
      }
    }
  }

  lemma {:induction false} SendsBefore(log: seq<Request>, uid: Uid, k: nat, m: nat)
    requires k < m <= |log|
    ensures Sends(log[..k], uid) + Waiting(log[k].batch, uid) <= Sends(log[..m], uid) <= Sends(log, uid)
    decreases |log|
  {
    if m < |log| {
      SendsBefore(log[..|log| - 1], uid, k, m);
      assert log[..|log| - 1][..k] == log[..k] && log[..|log| - 1][..m] == log[..m];
    } else {
      assert log[..m] == log;
      if k + 1 < |log| {
        SendsBefore(log[..|log| - 1], uid, k, |log| - 1);
        assert log[..|log| - 1][..k] == log[..k] && log[..|log| - 1][..|log| - 1] == log[..|log| - 1];
      } else {
        assert log[..|log| - 1] == log[..k];
      }
    }
  }

  lemma OnlyOne(batch: seq<PreparedMove>, p: PreparedMove, q: PreparedMove)
    requires p in batch && q in batch && p.uid == q.uid && Waiting(batch, p.uid) <= 1
    ensures p == q
  {
    var i :| 0 <= i < |batch| && batch[i] == p;
    var j :| 0 <= j < |batch| && batch[j] == q;
    if i < j { WaitingOnce(batch, i, j); }
    if j < i { WaitingOnce(batch, j, i); }
  }

  /** When a run is over: a link the server called out of date, whose hash could be had, went
      out once more, as the same move with that hash. */
  lemma StaleIsSentAgain(server: Server, volume: nat, log: seq<Request>, reported: seq<Report>, r: Report,
                         k: nat, p: PreparedMove, hash: string)
    requires Sound(server, volume, log, [], reported) && r in reported
    requires k < |log| && p in log[k].batch && p.uid == r.uid && !p.retried
    requires CodedAt(log, p.uid, INVALID_REQUIREMENTS, k) && HasHash(server.copyOf(k, p.uid), p, hash)
    ensures exists m: nat :: k < m < |log| && p.(originalHash := hash, retried := true) in log[m].batch
  {
    var m: nat :| ExplainedAt(server, log, r, m);
    var q :| q in log[m].batch && q.uid == r.uid && Fate(log[m].reply, server.copyOf(m, r.uid), q, r.outcome);
    assert BatchWell(server, log, k) && BatchWell(server, log, m);
    WaitingOf(log[k].batch, p);
    if m == k {
      OnlyOne(log[k].batch, p, q);
      assert false;
    }
    SendsBefore(log, p.uid, k, m);
    RetryAfter(server, log, k, p, m, q);
    assert q == p.(originalHash := hash, retried := true);
  }

  lemma OnceCarried(log: seq<Request>, uid: Uid, m: nat, j: nat, k: nat)
    requires j < m <= |log| && k < m && Sends(log[..m], uid) <= 1
    requires Waiting(log[j].batch, uid) > 0 && Waiting(log[k].batch, uid) > 0
    ensures j == k
  {
    var lo, hi := if j < k then j else k, if j < k then k else j;
    if lo < hi {
      SendsBefore(log, uid, lo, hi);
      SendsBefore(log, uid, hi, m);
    }
  }

  lemma RetryAfter(server: Server, log: seq<Request>, k: nat, p: PreparedMove, m: nat, q: PreparedMove)
    requires k < m < |log| && BatchWell(server, log, k) && BatchWell(server, log, m)
    requires p in log[k].batch && q in log[m].batch && p.uid == q.uid && Sends(log[..m], p.uid) > 0
    ensures Retries(p, q) && HasHash(server.copyOf(k, p.uid), q, q.originalHash)
  {
    assert q.retried;
    var first: nat :| GroundsAt(server, log[..m], q, first);
    var p' :| p' in log[first].batch && Retries(p', q);
    WaitingOf(log[first].batch, p');
    WaitingOf(log[k].batch, p);
    OnceCarried(log, p.uid, m, first, k);
    OnlyOne(log[k].batch, p, p');
  }

  /** `perLink` still has the outcome of every link from position `i` on. */
  ghost predicate Unread(perLink: map<nat, Outcome>, answers: seq<Answer>, batch: seq<PreparedMove>, i: nat) {
    forall j :: i <= j < |batch| ==> Found(perLink, batch[j].uid.link) == Listed(answers, batch[j].uid.link)
  }

  lemma ReadOne(perLink: map<nat, Outcome>, answers: seq<Answer>, batch: seq<PreparedMove>, i: nat)
    requires i < |batch| && Unread(perLink, answers, batch, i)
    requires forall i, j :: 0 <= i < j < |batch| ==> batch[i].uid.link != batch[j].uid.link
    ensures Found(perLink, batch[i].uid.link) == Listed(answers, batch[i].uid.link)
    ensures Unread(perLink - {batch[i].uid.link}, answers, batch, i + 1)
  {
  }

  /** What becomes of the link at position `i`, whose answer is taken out of the map. */
  method JudgeNext(server: Server, round: nat, reply: Reply, perLink: map<nat, Outcome>, batch: seq<PreparedMove>,
                   i: nat)
    returns (verdict: Verdict, left: map<nat, Outcome>)
    requires i < |batch| && (reply.Envelope? ==> Unread(perLink, reply.answers, batch, i))
    requires forall i, j :: 0 <= i < j < |batch| ==> batch[i].uid.link != batch[j].uid.link
    ensures verdict == VerdictOn(server, round, reply, batch[i])
    ensures reply.Envelope? ==> Unread(left, reply.answers, batch, i + 1)
  {
    var p := batch[i];
    left := perLink;
    if reply.Refusal? {
      verdict := Settle(Err(if reply.error.Api? then reply.error else Wrapped(reply.error)));
    } else {
      ReadOne(perLink, reply.answers, batch, i);
      verdict := Weigh(Found(perLink, p.uid.link), server.copyOf(round, p.uid), p);
      left := perLink - {p.uid.link};
    }
  }

  /** Take a reply link by link: what is settled, and what is to be sent again. */
  method JudgeBatch(server: Server, round: nat, reply: Reply, batch: seq<PreparedMove>)
    returns (settled: seq<Report>, resent: seq<PreparedMove>)
    requires forall i, j :: 0 <= i < j < |batch| ==> batch[i].uid.link != batch[j].uid.link
    ensures settled == Settled(server, round, reply, batch)
    ensures resent == Resent(server, round, reply, batch)
  {
    settled, resent := [], [];
    var perLink: map<nat, Outcome> := map[];
    if reply.Envelope? {
      perLink := AggregateOutcomes(reply.answers);
    }
    var i: nat := 0;
    while i < |batch|
      invariant i <= |batch|
      invariant settled == Settled(server, round, reply, batch[..i])
      invariant resent == Resent(server, round, reply, batch[..i])
      invariant reply.Envelope? ==> Unread(perLink, reply.answers, batch, i)
    {
      var p := batch[i];
      var verdict;
      verdict, perLink := JudgeNext(server, round, reply, perLink, batch, i);
      OneMore(server, round, reply, batch, i);
      match verdict {
        case Settle(outcome) => settled := settled + [Report(p.uid, outcome)];
        case Resend(hash) => resent := resent + [p.(originalHash := hash, retried := true)];
      }
      i := i + 1;
    }
    assert batch[..i] == batch;
  }

  /** What a run sends for the first time is what was queued. */
  ghost predicate SentFrom(queue: seq<PreparedMove>, log: seq<Request>) {
    forall r, p :: r in log && p in r.batch && !p.retried ==> p in queue
  }

  lemma SentFromNext(queue: seq<PreparedMove>, server: Server, log: seq<Request>, reply: Reply,
                     before: seq<PreparedMove>, batch: seq<PreparedMove>, rest: seq<PreparedMove>)
    requires SentFrom(queue, log) && Taken(before, batch, rest)
    requires forall p :: p in before && !p.retried ==> p in queue
    ensures SentFrom(queue, log + [Request(batch, reply)])
    ensures forall p :: p in rest + Resent(server, |log|, reply, batch) && !p.retried ==> p in queue
  {
    TakenMembers(before, batch, rest);
    forall p | p in rest + Resent(server, |log|, reply, batch) && !p.retried ensures p in queue {
      if p !in rest { var q := ResentFrom(server, |log|, reply, batch, p); }
    }
  }

  lemma {:induction false} WaitingSome(queue: seq<PreparedMove>, uid: Uid) returns (p: PreparedMove)
    requires Waiting(queue, uid) > 0
    ensures p in queue && p.uid == uid
    decreases |queue|
  {
    p := queue[|queue| - 1];
    if p.uid != uid { p := WaitingSome(queue[..|queue| - 1], uid); }
  }

  lemma {:induction false} FirstRequest(log: seq<Request>, uid: Uid) returns (k: nat)
    requires Sends(log, uid) > 0
    ensures k < |log| && Waiting(log[k].batch, uid) > 0 && Sends(log[..k], uid) == 0
    decreases |log|
  {
    var shorter := log[..|log| - 1];
    if Sends(shorter, uid) > 0 {
      k := FirstRequest(shorter, uid);
      assert shorter[..k] == log[..k];
    } else {
      k := |log| - 1;
    }
  }

  /** The first request that carries a reported move carries it as it was queued. */
  lemma FirstSent(server: Server, volume: nat, queue: seq<PreparedMove>, log: seq<Request>, reported: seq<Report>,
                  r: Report)
    returns (k: nat, p: PreparedMove)
    requires Sound(server, volume, log, [], reported) && r in reported && SentFrom(queue, log)
    ensures k < |log| && p in log[k].batch && p.uid == r.uid && p in queue && !p.retried
  {
    k := FirstRequest(log, r.uid);
    p := WaitingSome(log[k].batch, r.uid);
    assert BatchWell(server, log, k) && log[k] in log;
  }

  // -------------------------------------------------------------------- the object

  class MoveRun {
    var queue: seq<PreparedMove>
    var outcomes: seq<Report>

    constructor (queue: seq<PreparedMove>, outcomes: seq<Report>)
      ensures this.queue == queue && this.outcomes == outcomes
    {
      this.queue, this.outcomes := queue, outcomes;
    }

    /** The next request's worth of moves, the rest left in order. */
    method TakeMoveBatch() returns (batch: seq<PreparedMove>)
      modifies this`queue
      ensures Taken(old(queue), batch, queue)
    {
      batch := [];
      if queue == [] {
        return;
      }
      var drained := queue;
      var anonymous := drained[0].anonymous;
      var rest := [];
      var i: nat := 0;
      assert SplitAt([], anonymous, batch, rest, [], []);
      while i < |drained|
        invariant i <= |drained| && (i > 0 ==> |batch| > 0)
        invariant Split(drained[..i], anonymous, batch, rest)
      {
        SplitNext(drained[..i], anonymous, batch, rest, drained[i]);
        assert drained[..i + 1] == drained[..i] + [drained[i]];
        if |batch| < MAX_BATCH_COUNT && drained[i].anonymous == anonymous {
          batch := batch + [drained[i]];
        } else {
          rest := rest + [drained[i]];
        }
        i := i + 1;
      }
      assert drained[..i] == drained;
      queue := rest;
    }

    /** Send one batch: settle what the reply is the last word on, queue the rest. */
    method SubmitMoveBatch(server: Server, round: nat, batch: seq<PreparedMove>) returns (reply: Reply)
      requires forall i, j :: 0 <= i < j < |batch| ==> batch[i].uid.link != batch[j].uid.link
      modifies this
      ensures reply == server.reply(round, batch)
      ensures outcomes == old(outcomes) + Settled(server, round, reply, batch)
      ensures queue == old(queue) + Resent(server, round, reply, batch)
    {
      reply := server.reply(round, batch);
      var settled, resent := JudgeBatch(server, round, reply, batch);
      outcomes := outcomes + settled;
      queue := queue + resent;
    }

    /** Run to the end: every queued move gets one report, truthfully. */
    method SubmitMoves(server: Server, volume: nat) returns (ghost reported: seq<Report>, ghost log: seq<Request>)
      requires forall p :: p in queue ==> p.uid.volume == volume && !p.retried
      requires forall uid :: Waiting(queue, uid) <= 1
      modifies this
      ensures queue == [] && outcomes == old(outcomes) + reported
      ensures forall uid :: Reports(reported, uid) == Waiting(old(queue), uid)
      ensures Sound(server, volume, log, [], reported)
      ensures forall uid :: Waiting(old(queue), uid) == 0 ==> Sends(log, uid) == 0
      ensures |log| <= Budget(old(queue))
      ensures SentFrom(old(queue), log)
    {
      reported, log := [], [];
      var round := 0;
      while queue != []
        invariant round == |log| && round + Budget(queue) <= Budget(old(queue))
        invariant outcomes == old(outcomes) + reported
        invariant Going(server, volume, old(queue), queue, reported, log)
        decreases Budget(queue)
      {
        ghost var sofar := reported;
        reported, log := SubmitRound(server, volume, round, old(queue), reported, log);
        Onto(old(outcomes), sofar, reported);
        round := round + 1;
      }
    }

    /** One request of a run. */
    method SubmitRound(server: Server, volume: nat, round: nat, ghost asked: seq<PreparedMove>,
                       ghost reported: seq<Report>, ghost log: seq<Request>)
      returns (ghost reported': seq<Report>, ghost log': seq<Request>)
      requires round == |log| && queue != [] && Going(server, volume, asked, queue, reported, log)
      modifies this
      ensures Going(server, volume, asked, queue, reported', log') && |log'| == |log| + 1
      ensures reported <= reported' && outcomes == old(outcomes) + reported'[|reported|..]
      ensures Budget(queue) < Budget(old(queue))
    {
      ghost var before := queue;
      var batch := TakeMoveBatch();
      ghost var rest := queue;
      DistinctLinks(server, volume, log, before, batch, rest, reported);
      var reply := SubmitMoveBatch(server, round, batch);
      GoesOn(server, volume, asked, before, reported, log, batch, rest, reply);
      RoundCostsLess(server, round, reply, before, batch, rest);
      reported', log' := reported + Settled(server, round, reply, batch), log + [Request(batch, reply)];
    }
  }

  lemma Onto(outcomes: seq<Report>, before: seq<Report>, after: seq<Report>)
    requires before <= after
    ensures outcomes + before + after[|before|..] == outcomes + after
  {
    assert before + after[|before|..] == after;
  }

  /** A run over the moves `asked` that has `queue` to go. */
  ghost predicate Going(server: Server, volume: nat, asked: seq<PreparedMove>, queue: seq<PreparedMove>,
                        reported: seq<Report>, log: seq<Request>)
  {
    && Sound(server, volume, log, queue, reported)
    && SentFrom(asked, log) && (forall p :: p in queue && !p.retried ==> p in asked)
    && (forall uid :: Waiting(queue, uid) + Reports(reported, uid) == Waiting(asked, uid))
    && (forall uid :: Waiting(asked, uid) == 0 ==> Sends(log, uid) == 0)
  }

  lemma GoesOn(server: Server, volume: nat, asked: seq<PreparedMove>, queue: seq<PreparedMove>, reported: seq<Report>,
               log: seq<Request>, batch: seq<PreparedMove>, rest: seq<PreparedMove>, reply: Reply)
    requires Going(server, volume, asked, queue, reported, log) && Taken(queue, batch, rest) && queue != []
    requires reply == server.reply(|log|, batch)
    ensures Going(server, volume, asked, rest + Resent(server, |log|, reply, batch),
                  reported + Settled(server, |log|, reply, batch), log + [Request(batch, reply)])
  {
    RoundKeeps(server, volume, log, reply, queue, batch, rest, reported);
    SentFromNext(asked, server, log, reply, queue, batch, rest);
    LogGrowsAll(log, Request(batch, reply));
    forall uid
      ensures Waiting(rest + Resent(server, |log|, reply, batch), uid)
              + Reports(reported + Settled(server, |log|, reply, batch), uid) == Waiting(asked, uid)
      ensures Waiting(asked, uid) == 0 ==> Waiting(batch, uid) == 0
    {
      RoundConserves(server, |log|, reply, queue, batch, rest, reported, uid);
      TakenCounts(queue, batch, rest, uid);
    }
  }

  lemma DistinctLinks(server: Server, volume: nat, log: seq<Request>, queue: seq<PreparedMove>,
                      batch: seq<PreparedMove>,
                      rest: seq<PreparedMove>, reported: seq<Report>)
    requires Sound(server, volume, log, queue, reported) && Taken(queue, batch, rest)
    ensures forall i, j :: 0 <= i < j < |batch| ==> batch[i].uid.link != batch[j].uid.link
  {
    TakenMembers(queue, batch, rest);
    forall i, j | 0 <= i < j < |batch| ensures batch[i].uid.link != batch[j].uid.link {
      assert QueuedWell(server, volume, log, batch[i]) && QueuedWell(server, volume, log, batch[j]);
      if batch[i].uid == batch[j].uid {
        WaitingOnce(batch, i, j);
        TakenCounts(queue, batch, rest, batch[i].uid);
      }
    }
  }
}
