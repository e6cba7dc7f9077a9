/** Moving several nodes at once: what is turned away before anything is sent, and
    one answer for every input position. */
module MoveNodes {
  import opened Nodes
  import opened Wrappers
  import opened MoveBatches

  const MAX_NODE_NAME_LENGTH: nat := 255

  datatype Item = Item(uid: Uid, targetName: Option<string>)
  datatype Link = Link(id: nat, parent: Option<nat>)
  datatype Parts = Parts(originalHash: string, anonymous: bool, currentName: string)

  /** What preparing asks of the drive: the destination's keys and signing address,
      links by id, and a node's re-encryption for its new parent. */
  datatype Drive = Drive(
    destination: Result<(), Failure>,
    details: seq<nat> -> Result<map<nat, Link>, Failure>,
    build: (Item, Link) -> Result<Parts, Failure>)

  predicate ValidName(name: string) { 0 < |name| <= MAX_NODE_NAME_LENGTH }

  predicate Eligible(item: Item, volume: nat) {
    item.uid.volume == volume && (item.targetName.None? || ValidName(item.targetName.value))
  }

  /** Item `n` is the first eligible one naming its link. */
  predicate First(items: seq<Item>, volume: nat, n: nat)
    requires n < |items|
  {
    && Eligible(items[n], volume)
    && forall j :: 0 <= j < n && Eligible(items[j], volume) ==> items[j].uid.link != items[n].uid.link
  }

  /** The items worth looking up among the first `n`. */
  function Targets(items: seq<Item>, volume: nat, n: nat): seq<Item>
    requires n <= |items|
  {
    if n == 0 then []
    else if First(items, volume, n - 1) then Targets(items, volume, n - 1) + [items[n - 1]]
    else Targets(items, volume, n - 1)
  }

  /** The failures already known for the others. */
  function Rejections(items: seq<Item>, volume: nat, n: nat): seq<Report>
    requires n <= |items|
  {
    if n == 0 then []
    else if First(items, volume, n - 1) then Rejections(items, volume, n - 1)
    else
      var item := items[n - 1];
      Rejections(items, volume, n - 1) +
      [Report(item.uid, Err(if item.uid.volume != volume then CrossVolume
                            else if !Eligible(item, volume) then BadName
                            else ListedTwice))]
  }

  function Times(items: seq<Item>, uid: Uid): nat {
    if items == [] then 0
    else Times(items[..|items| - 1], uid) + (if items[|items| - 1].uid == uid then 1 else 0)
  }

  lemma TimesNext(items: seq<Item>, item: Item, uid: Uid)
    ensures Times(items + [item], uid) == Times(items, uid) + (if item.uid == uid then 1 else 0)
  {
    assert (items + [item])[..|items|] == items;
  }

  /** Why an item is turned away: it is of another volume, or else its new name is empty or
      longer than 255, or else an earlier item that could be moved names its link. */
  ghost predicate TurnedAway(items: seq<Item>, volume: nat, i: nat, why: Failure)
    requires i < |items|
  {
    var item := items[i];
    if item.uid.volume != volume then why == CrossVolume
    else if item.targetName.Some? && (|item.targetName.value| == 0 || |item.targetName.value| > 255) then why == BadName
    else
      && why == ListedTwice
      && exists j :: 0 <= j < i && Eligible(items[j], volume) && items[j].uid.link == item.uid.link
  }

  /** Every item is either looked up or turned away with the reason that comes first. */
  lemma {:induction false} RejectionsMean(items: seq<Item>, volume: nat, n: nat, i: nat)
    requires i < n <= |items|
    ensures First(items, volume, i) ==> items[i] in Targets(items, volume, n)
    ensures !First(items, volume, i) ==>
              exists why :: TurnedAway(items, volume, i, why)
                            && Report(items[i].uid, Err(why)) in Rejections(items, volume, n)
  {
    if i < n - 1 {
      RejectionsMean(items, volume, n - 1, i);
    } else if !First(items, volume, i) {
      var item := items[i];
      var why := if item.uid.volume != volume then CrossVolume
                 else if !Eligible(item, volume) then BadName else ListedTwice;
      assert TurnedAway(items, volume, i, why);
    }
  }

  lemma {:induction false} TargetsAbsent(items: seq<Item>, volume: nat, n: nat, uid: Uid)
    requires n <= |items|
    requires forall j :: 0 <= j < n && Eligible(items[j], volume) ==> items[j].uid != uid
    ensures Times(Targets(items, volume, n), uid) == 0
  {
    if n > 0 {
      TargetsAbsent(items, volume, n - 1, uid);
      TimesNext(Targets(items, volume, n - 1), items[n - 1], uid);
    }
  }

  /** No node is looked up twice, and none of another volume. */
  lemma {:induction false} TargetsOnce(items: seq<Item>, volume: nat, n: nat, uid: Uid)
    requires n <= |items|
    ensures Times(Targets(items, volume, n), uid) <= 1
    ensures uid.volume != volume ==> Times(Targets(items, volume, n), uid) == 0
  {
    if n > 0 {
      TargetsOnce(items, volume, n - 1, uid);
      TimesNext(Targets(items, volume, n - 1), items[n - 1], uid);
      if First(items, volume, n - 1) && items[n - 1].uid == uid {
        TargetsAbsent(items, volume, n - 1, uid);
      }
    }
  }

  /** Links by id, 150 to a request. */
  function LookedUp(drive: Drive, ids: seq<nat>, found: map<nat, Link>): Result<map<nat, Link>, Failure>
    decreases |ids|
  {
    if ids == [] then Ok(found)
    else
      var cut := if |ids| <= MAX_BATCH_COUNT then |ids| else MAX_BATCH_COUNT;
      var chunk := drive.details(ids[..cut]);
      if chunk.Err? then Err(chunk.error) else LookedUp(drive, ids[cut..], found + chunk.value)
  }

  method LookUp(drive: Drive, ids: seq<nat>) returns (r: Result<map<nat, Link>, Failure>)
    ensures r == LookedUp(drive, ids, map[])
  {
    var found: map<nat, Link> := map[];
    var rest := ids;
    while rest != []
      invariant LookedUp(drive, rest, found) == LookedUp(drive, ids, map[])
      decreases |rest|
    {
      var cut := if |rest| <= MAX_BATCH_COUNT then |rest| else MAX_BATCH_COUNT;
      var chunk := drive.details(rest[..cut]);
      if chunk.Err? {
        return Err(chunk.error);
      }
      found := found + chunk.value;
      rest := rest[cut..];
    }
    return Ok(found);
  }

  /** Request `c` of a lookup: its 150 ids, or what is left of them. */
  function Chunk(ids: seq<nat>, c: nat): seq<nat>
    requires c * MAX_BATCH_COUNT < |ids|
  {
    var a := c * MAX_BATCH_COUNT;
    ids[a..if a + MAX_BATCH_COUNT < |ids| then a + MAX_BATCH_COUNT else |ids|]
  }

  ghost predicate Returns(drive: Drive, ids: seq<nat>, link: nat, c: nat) {
    && c * MAX_BATCH_COUNT < |ids|
    && drive.details(Chunk(ids, c)).Ok? && link in drive.details(Chunk(ids, c)).value
  }

  /** Request `c` is the last one whose answer has the link, and has it so. */
  ghost predicate ReturnsLast(drive: Drive, ids: seq<nat>, link: nat, found: Link, c: nat) {
    && Returns(drive, ids, link, c) && drive.details(Chunk(ids, c)).value[link] == found
    && forall later: nat :: later > c ==> !Returns(drive, ids, link, later)
  }

  ghost predicate FailsFirst(drive: Drive, ids: seq<nat>, error: Failure, c: nat) {
    && c * MAX_BATCH_COUNT < |ids| && drive.details(Chunk(ids, c)) == Err(error)
    && forall earlier: nat :: earlier < c ==>
        earlier * MAX_BATCH_COUNT < |ids| && drive.details(Chunk(ids, earlier)).Ok?
  }

  lemma SliceShift(ids: seq<nat>, k: nat, a: nat, b: nat)
    requires a <= b && k + b <= |ids|
    ensures ids[k..][a..b] == ids[a + k..b + k]
  {
    var left, right := ids[k..][a..b], ids[a + k..b + k];
    assert |left| == |right|;
    assert forall i :: 0 <= i < |left| ==> left[i] == ids[k + a + i] == right[i];
  }

  lemma ChunkShift(ids: seq<nat>, c: nat)
    requires |ids| > MAX_BATCH_COUNT
    ensures (c + 1) * MAX_BATCH_COUNT < |ids| <==> c * MAX_BATCH_COUNT < |ids[MAX_BATCH_COUNT..]|
    ensures (c + 1) * MAX_BATCH_COUNT < |ids| ==> Chunk(ids, c + 1) == Chunk(ids[MAX_BATCH_COUNT..], c)
  {
    var rest := ids[MAX_BATCH_COUNT..];
    assert (c + 1) * MAX_BATCH_COUNT == c * MAX_BATCH_COUNT + MAX_BATCH_COUNT;
    if (c + 1) * MAX_BATCH_COUNT < |ids| {
      var a := c * MAX_BATCH_COUNT;
      var b := if a + MAX_BATCH_COUNT < |rest| then a + MAX_BATCH_COUNT else |rest|;
      SliceShift(ids, MAX_BATCH_COUNT, a, b);
    }
  }

  /** What a lookup says of one link: what the last request to name it returned, or else
      what was known. */
  ghost predicate Says(drive: Drive, ids: seq<nat>, known: map<nat, Link>, link: nat, m: map<nat, Link>) {
    if exists c: nat :: Returns(drive, ids, link, c)
    then link in m && exists c: nat :: ReturnsLast(drive, ids, link, m[link], c)
    else if link in known then link in m && m[link] == known[link]
    else link !in m
  }

  /** A lookup holds what its requests returned, the last one to name a link winning, on
      top of what was known; it fails with the first request that does. */
  lemma {:induction false} LookedUpMeans(drive: Drive, ids: seq<nat>, known: map<nat, Link>, link: nat)
    ensures var r := LookedUp(drive, ids, known);
      && (r.Err? ==> exists c: nat :: FailsFirst(drive, ids, r.error, c))
      && (r.Ok? ==> Says(drive, ids, known, link, r.value))
    decreases |ids|
  {
    if ids != [] {
      var cut := if |ids| <= MAX_BATCH_COUNT then |ids| else MAX_BATCH_COUNT;
      var r := LookedUp(drive, ids, known);
      assert Chunk(ids, 0) == ids[..cut];
      var first := drive.details(ids[..cut]);
      if first.Err? {
        assert FailsFirst(drive, ids, r.error, 0);
      } else {
        LookedUpMeans(drive, ids[cut..], known + first.value, link);
        if r.Ok? {
          SaysShifts(drive, ids, cut, known, first.value, link, r.value);
        } else {
          var c: nat :| FailsFirst(drive, ids[cut..], r.error, c);
          FailureShifts(drive, ids, r.error, c);
        }
      }
    }
  }

  lemma ReturnShifts(drive: Drive, ids: seq<nat>, cut: nat, link: nat, c: nat)
    requires ids != [] && cut == (if |ids| <= MAX_BATCH_COUNT then |ids| else MAX_BATCH_COUNT)
    ensures Returns(drive, ids, link, c + 1) <==> Returns(drive, ids[cut..], link, c)
  {
    if |ids| > MAX_BATCH_COUNT { ChunkShift(ids, c); }
  }

  /** From the later requests of a lookup to all of them. */
  lemma SaysShifts(drive: Drive, ids: seq<nat>, cut: nat, known: map<nat, Link>, first: map<nat, Link>, link: nat,
                   m: map<nat, Link>)
    requires ids != [] && cut == (if |ids| <= MAX_BATCH_COUNT then |ids| else MAX_BATCH_COUNT)
    requires drive.details(Chunk(ids, 0)) == Ok(first) && Says(drive, ids[cut..], known + first, link, m)
    ensures Says(drive, ids, known, link, m)
  {
    if c: nat :| Returns(drive, ids[cut..], link, c) {
      var last: nat :| ReturnsLast(drive, ids[cut..], link, m[link], last);
      LastShifts(drive, ids, cut, link, m[link], last);
    } else {
      forall later: nat | later > 0 ensures !Returns(drive, ids, link, later) {
        ReturnShifts(drive, ids, cut, link, later - 1);
      }
      assert Returns(drive, ids, link, 0) <==> link in first;
      if link in first {
        assert ReturnsLast(drive, ids, link, m[link], 0);
      } else {
        assert forall c: nat :: !Returns(drive, ids, link, c);
      }
    }
  }

  lemma LastShifts(drive: Drive, ids: seq<nat>, cut: nat, link: nat, found: Link, last: nat)
    requires ids != [] && cut == (if |ids| <= MAX_BATCH_COUNT then |ids| else MAX_BATCH_COUNT)
    requires ReturnsLast(drive, ids[cut..], link, found, last)
    ensures ReturnsLast(drive, ids, link, found, last + 1)
  {
    ReturnShifts(drive, ids, cut, link, last);
    ChunkShift(ids, last);
    forall later: nat | later > last + 1 ensures !Returns(drive, ids, link, later) {
      ReturnShifts(drive, ids, cut, link, later - 1);
    }
  }

  lemma FailureShifts(drive: Drive, ids: seq<nat>, error: Failure, c: nat)
    requires |ids| > MAX_BATCH_COUNT && drive.details(Chunk(ids, 0)).Ok?
    requires FailsFirst(drive, ids[MAX_BATCH_COUNT..], error, c)
    ensures FailsFirst(drive, ids, error, c + 1)
  {
    ChunkShift(ids, c);
    forall earlier: nat | earlier < c + 1
      ensures earlier * MAX_BATCH_COUNT < |ids| && drive.details(Chunk(ids, earlier)).Ok?
    {
      if earlier > 0 { ChunkShift(ids, earlier - 1); }
    }
  }

  function Prepare(drive: Drive, links: map<nat, Link>, item: Item): Result<PreparedMove, Failure> {
    if item.uid.link !in links then Err(NotFound)
    else
      var link := links[item.uid.link];
      var parts := drive.build(item, link);
      if parts.Err? then Err(parts.error)
      else Ok(PreparedMove(item.uid, parts.value.originalHash, parts.value.anonymous, link.parent,
          parts.value.currentName, false))
  }

  /** The targets that could be prepared, in order. */
  function Built(drive: Drive, links: map<nat, Link>, targets: seq<Item>): seq<PreparedMove> {
    if targets == [] then []
    else
      var before := Built(drive, links, targets[..|targets| - 1]);
      var last := Prepare(drive, links, targets[|targets| - 1]);
      if last.Ok? then before + [last.value] else before
  }

  /** The failures of those that could not. */
  function Unbuilt(drive: Drive, links: map<nat, Link>, targets: seq<Item>): seq<Report> {
    if targets == [] then []
    else
      var before := Unbuilt(drive, links, targets[..|targets| - 1]);
      var item := targets[|targets| - 1];
      var last := Prepare(drive, links, item);
      if last.Ok? then before else before + [Report(item.uid, Err(last.error))]
  }

  function LinkIds(targets: seq<Item>): seq<nat> {
    seq(|targets|, i requires 0 <= i < |targets| => targets[i].uid.link)
  }

  ghost predicate Fresh(volume: nat, queue: seq<PreparedMove>) {
    && (forall p :: p in queue ==> p.uid.volume == volume && !p.retried)
    && (forall uid :: Waiting(queue, uid) <= 1)
  }

  ghost predicate AllFailed(outcomes: seq<Report>) {
    forall r :: r in outcomes ==> r.outcome.Err?
  }

  /** `seen` are the links of the eligible items among the first `n`. */
  ghost predicate LinksSeen(items: seq<Item>, volume: nat, n: nat, seen: set<nat>)
    requires n <= |items|
  {
    forall link :: link in seen <==> exists j :: 0 <= j < n && Eligible(items[j], volume) && items[j].uid.link == link
  }

  lemma SeenNext(items: seq<Item>, volume: nat, i: nat, seen: set<nat>)
    requires i < |items| && LinksSeen(items, volume, i, seen)
    ensures First(items, volume, i) <==> Eligible(items[i], volume) && items[i].uid.link !in seen
    ensures LinksSeen(items, volume, i + 1, if Eligible(items[i], volume) then seen + {items[i].uid.link} else seen)
  {
  }

  /** The checks that need no request, in the order the items are listed. */
  method TurnAway(items: seq<Item>, volume: nat) returns (targets: seq<Item>, outcomes: seq<Report>)
    ensures targets == Targets(items, volume, |items|) && outcomes == Rejections(items, volume, |items|)
    ensures AllFailed(outcomes)
    ensures forall uid :: Times(targets, uid) + Reports(outcomes, uid) == Times(items, uid)
  {
    targets, outcomes := [], [];
    var seen: set<nat> := {};
    var i := 0;
    while i < |items|
      invariant 0 <= i <= |items|
      invariant LinksSeen(items, volume, i, seen)
      invariant targets == Targets(items, volume, i) && AllFailed(outcomes) && outcomes == Rejections(items, volume, i)
      invariant forall uid :: Times(targets, uid) + Reports(outcomes, uid) == Times(items[..i], uid)
    {
      var item := items[i];
      var rejected :=
        if item.uid.volume != volume then Some(CrossVolume)
        else if item.targetName.Some? && !ValidName(item.targetName.value) then Some(BadName)
        else if item.uid.link in seen then Some(ListedTwice)
        else None;
      SeenNext(items, volume, i, seen);
      assert rejected.None? <==> First(items, volume, i);
      Step(items, i, targets, outcomes);
      if Eligible(item, volume) {
        seen := seen + {item.uid.link};
      }
      if rejected.Some? {
        outcomes := outcomes + [Report(item.uid, Err(rejected.value))];
      } else {
        targets := targets + [item];
      }
      i := i + 1;
    }
    assert items[..i] == items;
  }

  /** Turn away what cannot be moved, look up the rest and prepare it. Every item
      is either queued or already has a failure to report, exactly once. */
  method PrepareMoves(drive: Drive, items: seq<Item>, volume: nat)
    returns (r: Result<(seq<PreparedMove>, seq<Report>), Failure>)
    ensures
      var targets := Targets(items, volume, |items|);
      var links := LookedUp(drive, LinkIds(targets), map[]);
      && (r.Err? <==> targets != [] && (drive.destination.Err? || links.Err?))
      && (r.Ok? && targets == [] ==> r.value == ([], Rejections(items, volume, |items|)))
      && (r.Ok? && targets != [] ==>
            && r.value.0 == Built(drive, links.value, targets)
            && r.value.1 == Rejections(items, volume, |items|) + Unbuilt(drive, links.value, targets))
      && (r.Ok? ==>
            && Fresh(volume, r.value.0) && AllFailed(r.value.1)
            && forall uid :: Waiting(r.value.0, uid) + Reports(r.value.1, uid) == Times(items, uid))
  {
    var targets, outcomes := TurnAway(items, volume);
    if targets == [] {
      return Ok(([], outcomes));
    }
    if drive.destination.Err? {
      return Err(drive.destination.error);
    }
    var links := LookUp(drive, LinkIds(targets));
    if links.Err? {
      return Err(links.error);
    }
    var queue, failures := PrepareTargets(drive, links.value, targets);
    forall uid ensures Waiting(queue, uid) + Reports(outcomes + failures, uid) == Times(items, uid) {
      ReportsConcat(outcomes, failures, uid);
    }
    forall uid ensures Times(targets, uid) <= 1 && (uid.volume != volume ==> Times(targets, uid) == 0) {
      TargetsOnce(items, volume, |items|, uid);
    }
    forall p | p in queue ensures p.uid.volume == volume {
      WaitingOf(queue, p);
    }
    return Ok((queue, outcomes + failures));
  }

  lemma Step(items: seq<Item>, i: nat, targets: seq<Item>, outcomes: seq<Report>)
    requires i < |items|
    requires forall uid :: Times(targets, uid) + Reports(outcomes, uid) == Times(items[..i], uid)
    ensures forall uid :: Times(targets + [items[i]], uid) + Reports(outcomes, uid) == Times(items[..i + 1], uid)
    ensures forall uid, outcome {:trigger Reports(outcomes + [Report(items[i].uid, outcome)], uid)} ::
              Times(targets, uid) + Reports(outcomes + [Report(items[i].uid, outcome)], uid)
              == Times(items[..i + 1], uid)
  {
    assert items[..i + 1] == items[..i] + [items[i]];
    forall uid
      ensures Times(targets + [items[i]], uid) + Reports(outcomes, uid) == Times(items[..i + 1], uid)
    {
      TimesNext(targets, items[i], uid);
      TimesNext(items[..i], items[i], uid);
    }
    forall uid, outcome
      ensures Times(targets, uid) + Reports(outcomes + [Report(items[i].uid, outcome)], uid) ==
              Times(items[..i + 1], uid)
    {
      TimesNext(items[..i], items[i], uid);
      ReportsConcat(outcomes, [Report(items[i].uid, outcome)], uid);
    }
  }

  method PrepareTargets(drive: Drive, links: map<nat, Link>, targets: seq<Item>)
    returns (queue: seq<PreparedMove>, failures: seq<Report>)
    ensures queue == Built(drive, links, targets) && failures == Unbuilt(drive, links, targets)
    ensures forall p :: p in queue ==> !p.retried
    ensures AllFailed(failures)
    ensures forall uid :: Waiting(queue, uid) + Reports(failures, uid) == Times(targets, uid)
  {
    queue, failures := [], [];
    var i := 0;
    while i < |targets|
      invariant 0 <= i <= |targets|
      invariant queue == Built(drive, links, targets[..i]) && failures == Unbuilt(drive, links, targets[..i])
      invariant forall p :: p in queue ==> !p.retried
      invariant AllFailed(failures)
      invariant forall uid :: Waiting(queue, uid) + Reports(failures, uid) == Times(targets[..i], uid)
    {
      var item := targets[i];
      assert targets[..i + 1][..i] == targets[..i];
      assert targets[..i + 1] == targets[..i] + [item];
      var prepared := Prepare(drive, links, item);
      ghost var queue0, failures0 := queue, failures;
      match prepared {
        case Ok(p) =>
          queue := queue + [p];
          forall uid ensures Waiting(queue, uid) + Reports(failures, uid) == Times(targets[..i + 1], uid) {
            TimesNext(targets[..i], item, uid);
            WaitingConcat(queue0, [p], uid);
          }
        case Err(error) =>
          failures := failures + [Report(item.uid, Err(error))];
          forall uid ensures Waiting(queue, uid) + Reports(failures, uid) == Times(targets[..i + 1], uid) {
            TimesNext(targets[..i], item, uid);
            ReportsConcat(failures0, [Report(item.uid, Err(error))], uid);
          }
      }
      i := i + 1;
    }
    assert targets[..i] == targets;
  }

  // ----------------------------------------------------------- one answer a position

  /** What later positions of a node are told: the same success, or the same failure
      by its text. */
  function Repeat(outcome: Outcome): Outcome {
    if outcome.Ok? then Ok(()) else Err(Wrapped(outcome.error))
  }

  /** The answer position `i` is owed when the run reported `outcomes`. */
  function AnswerAt(uids: seq<Uid>, outcomes: map<Uid, Outcome>, i: nat): Outcome
    requires i < |uids|
  {
    if uids[i] !in outcomes then Err(NoOutcome)
    else if uids[i] in uids[..i] then Repeat(outcomes[uids[i]])
    else outcomes[uids[i]]
  }

  /** After `i` positions: `outcomes` has those of nodes still to come, `repeats` what to
      tell the later positions of the others. */
  ghost predicate Answering(uids: seq<Uid>, reported: map<Uid, Outcome>, i: nat,
                            outcomes: map<Uid, Outcome>, repeats: map<Uid, Option<Failure>>)
  {
    && i <= |uids|
    && (forall uid :: uid in outcomes <==> uid in reported && uid !in uids[..i])
    && (forall uid :: uid in outcomes ==> outcomes[uid] == reported[uid])
    && (forall uid :: uid in repeats <==> uid in reported && uid in uids[..i])
    && (forall uid :: uid in repeats ==> repeats[uid] == if reported[uid].Ok? then None else Some(reported[uid].error))
  }

  method AnswerNext(uids: seq<Uid>, ghost reported: map<Uid, Outcome>, i: nat,
                    outcomes: map<Uid, Outcome>, repeats: map<Uid, Option<Failure>>)
    returns (outcome: Outcome, left: map<Uid, Outcome>, told: map<Uid, Option<Failure>>)
    requires i < |uids| && Answering(uids, reported, i, outcomes, repeats)
    ensures outcome == AnswerAt(uids, reported, i) && Answering(uids, reported, i + 1, left, told)
  {
    var uid := uids[i];
    left, told := outcomes, repeats;
    assert uids[..i + 1] == uids[..i] + [uid];
    if uid in outcomes {
      outcome := outcomes[uid];
      left := outcomes - {uid};
      told := repeats[uid := if outcome.Ok? then None else Some(outcome.error)];
    } else if uid in repeats {
      outcome := if repeats[uid].None? then Ok(()) else Err(Wrapped(repeats[uid].value));
    } else {
      outcome := Err(NoOutcome);
    }
  }

  method AnswerPositions(uids: seq<Uid>, reported: map<Uid, Outcome>) returns (results: seq<Report>)
    ensures |results| == |uids|
    ensures forall i :: 0 <= i < |uids| ==> results[i] == Report(uids[i], AnswerAt(uids, reported, i))
  {
    var outcomes := reported;
    var repeats: map<Uid, Option<Failure>> := map[];
    results := [];
    var i := 0;
    while i < |uids|
      invariant 0 <= i <= |uids| && |results| == i
      invariant Answering(uids, reported, i, outcomes, repeats)
      invariant forall j :: 0 <= j < i ==> results[j] == Report(uids[j], AnswerAt(uids, reported, j))
    {
      var outcome;
      outcome, outcomes, repeats := AnswerNext(uids, reported, i, outcomes, repeats);
      results := results + [Report(uids[i], outcome)];
      i := i + 1;
    }
  }

  lemma {:induction false} ReportsMany(reports: seq<Report>, i: nat, j: nat)
    requires i < j < |reports| && reports[i].uid == reports[j].uid
    ensures Reports(reports, reports[i].uid) > 1
    decreases |reports|
  {
    if j < |reports| - 1 {
      ReportsMany(reports[..|reports| - 1], i, j);
    } else {
      ReportsHas(reports[..j], i);
    }
  }

  /** Index a run's reports by node. */
  method Collect(reports: seq<Report>) returns (outcomes: map<Uid, Outcome>)
    requires forall uid :: Reports(reports, uid) <= 1
    ensures forall uid :: uid in outcomes <==> Reports(reports, uid) == 1
    ensures forall r :: r in reports ==> r.uid in outcomes && outcomes[r.uid] == r.outcome
    ensures forall uid :: uid in outcomes ==> Report(uid, outcomes[uid]) in reports
  {
    outcomes := map[];
    var i := 0;
    while i < |reports|
      invariant 0 <= i <= |reports|
      invariant forall j :: 0 <= j < i ==> reports[j].uid in outcomes && outcomes[reports[j].uid] == reports[j].outcome
      invariant forall uid :: uid in outcomes ==> Report(uid, outcomes[uid]) in reports[..i]
    {
      forall j | 0 <= j < i ensures reports[j].uid != reports[i].uid {
        if reports[j].uid == reports[i].uid { ReportsMany(reports, j, i); }
      }
      outcomes := outcomes[reports[i].uid := reports[i].outcome];
      assert reports[..i + 1] == reports[..i] + [reports[i]];
      i := i + 1;
    }
    assert reports[..i] == reports;
    forall uid ensures uid in outcomes <==> Reports(reports, uid) == 1 {
      if uid in outcomes {
        ReportsOf(reports, Report(uid, outcomes[uid]));
      } else {
        ReportsNone(reports, uid);
      }
    }
  }

  lemma {:induction false} ReportsNone(reports: seq<Report>, uid: Uid)
    requires forall r :: r in reports ==> r.uid != uid
    ensures Reports(reports, uid) == 0
    decreases |reports|
  {
    if reports != [] {
      ReportsNone(reports[..|reports| - 1], uid);
    }
  }

  /** Each listed node once, in the order first listed. */
  function Distinct(uids: seq<Uid>): seq<Item> {
    if uids == [] then []
    else
      var shorter, last := uids[..|uids| - 1], uids[|uids| - 1];
      if last in shorter then Distinct(shorter) else Distinct(shorter) + [Item(last, None)]
  }

  /** Those of the volume. */
  function OnVolume(uids: seq<Uid>, volume: nat): seq<Item> {
    if uids == [] then []
    else
      var shorter, last := uids[..|uids| - 1], uids[|uids| - 1];
      if last in shorter || last.volume != volume then OnVolume(shorter, volume)
      else OnVolume(shorter, volume) + [Item(last, None)]
  }

  method Deduplicate(uids: seq<Uid>) returns (items: seq<Item>)
    ensures items == Distinct(uids)
  {
    items := [];
    var seen: set<Uid> := {};
    var i := 0;
    while i < |uids|
      invariant 0 <= i <= |uids| && items == Distinct(uids[..i])
      invariant forall uid :: uid in seen <==> uid in uids[..i]
    {
      assert uids[..i + 1] == uids[..i] + [uids[i]];
      if uids[i] !in seen {
        seen := seen + {uids[i]};
        items := items + [Item(uids[i], None)];
      }
      i := i + 1;
    }
    assert uids[..i] == uids;
  }

  lemma {:induction false} DistinctTimes(uids: seq<Uid>, uid: Uid)
    ensures Times(Distinct(uids), uid) == if uid in uids then 1 else 0
    decreases |uids|
  {
    if uids != [] {
      var shorter, last := uids[..|uids| - 1], uids[|uids| - 1];
      DistinctTimes(shorter, uid);
      TimesNext(Distinct(shorter), Item(last, None), uid);
      assert uid in uids <==> uid in shorter || uid == last;
    }
  }

  lemma {:induction false} DistinctMembers(uids: seq<Uid>)
    ensures forall item :: item in Distinct(uids) <==> item.targetName == None && item.uid in uids
    decreases |uids|
  {
    if uids != [] {
      var shorter, last := uids[..|uids| - 1], uids[|uids| - 1];
      DistinctMembers(shorter);
      assert forall uid :: uid in uids <==> uid in shorter || uid == last;
    }
  }

  lemma {:induction false} TargetsPrefix(items: seq<Item>, item: Item, volume: nat, n: nat)
    requires n <= |items|
    ensures Targets(items + [item], volume, n) == Targets(items, volume, n)
    ensures Rejections(items + [item], volume, n) == Rejections(items, volume, n)
  {
    if n > 0 {
      TargetsPrefix(items, item, volume, n - 1);
      assert forall j :: 0 <= j < n ==> (items + [item])[j] == items[j];
      assert First(items + [item], volume, n - 1) <==> First(items, volume, n - 1);
    }
  }

  /** Of nodes listed once each, those of the volume are looked up and the others are turned
      away for being of another one. */
  lemma {:induction false} DistinctTargets(uids: seq<Uid>, volume: nat)
    ensures Targets(Distinct(uids), volume, |Distinct(uids)|) == OnVolume(uids, volume)
    ensures forall uid :: uid in uids && uid.volume != volume ==>
              Report(uid, Err(CrossVolume)) in Rejections(Distinct(uids), volume, |Distinct(uids)|)
    decreases |uids|
  {
    if uids != [] {
      var shorter, last := uids[..|uids| - 1], uids[|uids| - 1];
      DistinctTargets(shorter, volume);
      DistinctMembers(shorter);
      assert forall uid :: uid in uids <==> uid in shorter || uid == last;
      if last !in shorter {
        var items, item := Distinct(shorter), Item(last, None);
        TargetsPrefix(items, item, volume, |items|);
        forall j | 0 <= j < |items| ensures items[j].uid in shorter {
          assert items[j] in items;
        }
        assert First(items + [item], volume, |items|) <==> last.volume == volume;
      }
    }
  }

  lemma {:induction false} OnVolumeMembers(uids: seq<Uid>, volume: nat, uid: Uid)
    requires uid in uids && uid.volume == volume
    ensures Item(uid, None) in OnVolume(uids, volume)
    decreases |uids|
  {
    var shorter, last := uids[..|uids| - 1], uids[|uids| - 1];
    if uid in shorter {
      OnVolumeMembers(shorter, volume, uid);
    } else {
      assert uid == last;
    }
  }

  lemma {:induction false} PreparedOrNot(drive: Drive, links: map<nat, Link>, targets: seq<Item>, item: Item)
    requires item in targets
    ensures var r := Prepare(drive, links, item);
      if r.Ok? then r.value in Built(drive, links, targets)
      else Report(item.uid, Err(r.error)) in Unbuilt(drive, links, targets)
    decreases |targets|
  {
    if item != targets[|targets| - 1] {
      PreparedOrNot(drive, links, targets[..|targets| - 1], item);
    }
  }

  lemma {:induction false} UnsentNotAccepted(log: seq<Request>, uid: Uid, k: nat)
    requires k < |log| && Waiting(log[k].batch, uid) > 0
    ensures Sends(log, uid) > 0
    decreases |log|
  {
    if k < |log| - 1 { UnsentNotAccepted(log[..|log| - 1], uid, k); }
  }

  /** A node's report is a success just if a request carrying it was accepted, nothing is
      sent more than twice, and what was sent is reported as the last request that carried
      it explains, whatever the server answers. */
  lemma ReportsAreTrue(server: Server, volume: nat, queue: seq<PreparedMove>, failed: seq<Report>,
                       reported: seq<Report>, log: seq<Request>, r: Report)
    requires AllFailed(failed) && Sound(server, volume, log, [], reported)
    requires forall uid :: Waiting(queue, uid) + Reports(failed, uid) <= 1
    requires forall uid :: Waiting(queue, uid) == 0 ==> Sends(log, uid) == 0
    requires r in failed + reported
    ensures (r.outcome.Ok? <==> Accepted(log, r.uid)) && Sends(log, r.uid) <= 2
    ensures r in failed ==> Sends(log, r.uid) == 0
    ensures Sends(log, r.uid) > 0 ==> Explained(server, log, r)
  {
    if r in failed {
      ReportsOf(failed, r);
      if Accepted(log, r.uid) {
        var k: nat :| CodedAt(log, r.uid, SUCCESS, k);
        UnsentNotAccepted(log, r.uid, k);
      }
    }
  }

  /** What a node listed in a call is told: of another volume, not to be prepared, or what
      became of the requests that carried it. */
  ghost predicate Told(drive: Drive, server: Server, volume: nat, links: map<nat, Link>, log: seq<Request>,
                       uid: Uid, outcome: Outcome)
  {
    if uid.volume != volume then outcome == Err(CrossVolume) && Sends(log, uid) == 0
    else
      match Prepare(drive, links, Item(uid, None))
      case Err(error) => outcome == Err(error) && Sends(log, uid) == 0
      case Ok(_) => ReportedWell(server, log, Report(uid, outcome)) && SentAsBuilt(drive, links, log, uid)
  }

  /** A request carried the node as the drive built it from its link. */
  ghost predicate SentAsBuilt(drive: Drive, links: map<nat, Link>, log: seq<Request>, uid: Uid) {
    exists k, p {:trigger p in log[k].batch} :: 0 <= k < |log| && p in log[k].batch && AsBuilt(drive, links, uid, p)
  }

  ghost predicate AsBuilt(drive: Drive, links: map<nat, Link>, uid: Uid, p: PreparedMove) {
    && p.uid == uid && uid.link in links
    && var link := links[uid.link];
       var parts := drive.build(Item(uid, None), link);
       && parts.Ok? && p.sourceParent == link.parent && p.originalHash == parts.value.originalHash
       && p.anonymous == parts.value.anonymous && p.currentName == parts.value.currentName
  }

  lemma {:induction false} BuiltAs(drive: Drive, links: map<nat, Link>, targets: seq<Item>, p: PreparedMove)
    requires p in Built(drive, links, targets) && forall item :: item in targets ==> item.targetName.None?
    ensures AsBuilt(drive, links, p.uid, p)
    decreases |targets|
  {
    var shorter, last := targets[..|targets| - 1], targets[|targets| - 1];
    assert last in targets && last == Item(last.uid, None);
    if p in Built(drive, links, shorter) { BuiltAs(drive, links, shorter, p); }
  }

  lemma {:induction false} OnVolumeUnnamed(uids: seq<Uid>, volume: nat)
    ensures forall item :: item in OnVolume(uids, volume) ==> item.targetName.None?
    decreases |uids|
  {
    if uids != [] { OnVolumeUnnamed(uids[..|uids| - 1], volume); }
  }

  /** Every listed node is told the truth by a run over what could be prepared. */
  lemma AllTold(drive: Drive, server: Server, volume: nat, uids: seq<Uid>, links: map<nat, Link>,
                queue: seq<PreparedMove>, failed: seq<Report>, reported: seq<Report>, log: seq<Request>, r: Report)
    requires r.uid in uids && r in failed + reported
    requires AllFailed(failed) && Sound(server, volume, log, [], reported)
    requires forall uid :: Waiting(queue, uid) + Reports(failed, uid) <= 1
    requires forall uid :: Reports(reported, uid) == Waiting(queue, uid)
    requires forall uid :: Waiting(queue, uid) == 0 ==> Sends(log, uid) == 0
    requires SentFrom(queue, log)
    requires queue == Built(drive, links, OnVolume(uids, volume))
    requires failed ==
             Rejections(Distinct(uids), volume, |Distinct(uids)|) + Unbuilt(drive, links, OnVolume(uids, volume))
    ensures Told(drive, server, volume, links, log, r.uid, r.outcome)
  {
    ReportsAreTrue(server, volume, queue, failed, reported, log, r);
    DistinctTargets(uids, volume);
    ReportsConcat(failed, reported, r.uid);
    if r.uid.volume != volume {
      OneReport(failed + reported, r, Report(r.uid, Err(CrossVolume)));
    } else {
      OnVolumeMembers(uids, volume, r.uid);
      PreparedOrNot(drive, links, OnVolume(uids, volume), Item(r.uid, None));
      match Prepare(drive, links, Item(r.uid, None)) {
        case Err(error) => OneReport(failed + reported, r, Report(r.uid, Err(error)));
        case Ok(p) =>
          WaitingOf(queue, p);
          if r in failed { ReportsOf(failed, r); }
          var k, sent := FirstSent(server, volume, queue, log, reported, r);
          OnVolumeUnnamed(uids, volume);
          BuiltAs(drive, links, OnVolume(uids, volume), sent);
      }
    }
  }

  lemma WholeCallTold(drive: Drive, server: Server, volume: nat, uids: seq<Uid>, links: map<nat, Link>,
                      queue: seq<PreparedMove>, failed: seq<Report>, reported: seq<Report>, log: seq<Request>,
                      outcomes: map<Uid, Outcome>)
    requires AllFailed(failed) && Sound(server, volume, log, [], reported)
    requires forall uid :: Waiting(queue, uid) + Reports(failed, uid) == Times(Distinct(uids), uid)
    requires forall uid :: Reports(reported, uid) == Waiting(queue, uid)
    requires forall uid :: Waiting(queue, uid) == 0 ==> Sends(log, uid) == 0
    requires SentFrom(queue, log)
    requires queue == Built(drive, links, OnVolume(uids, volume))
    requires failed ==
             Rejections(Distinct(uids), volume, |Distinct(uids)|) + Unbuilt(drive, links, OnVolume(uids, volume))
    requires forall uid :: uid in uids ==> uid in outcomes && Report(uid, outcomes[uid]) in failed + reported
    ensures forall uid :: uid in uids ==> (outcomes[uid].Ok? <==> Accepted(log, uid)) && Sends(log, uid) <= 2
    ensures forall uid :: uid in uids ==> Told(drive, server, volume, links, log, uid, outcomes[uid])
  {
    forall uid ensures Waiting(queue, uid) + Reports(failed, uid) <= 1 {
      DistinctTimes(uids, uid);
    }
    forall uid | uid in uids
      ensures (outcomes[uid].Ok? <==> Accepted(log, uid)) && Sends(log, uid) <= 2
      ensures Told(drive, server, volume, links, log, uid, outcomes[uid])
    {
      ReportsAreTrue(server, volume, queue, failed, reported, log, Report(uid, outcomes[uid]));
      AllTold(drive, server, volume, uids, links, queue, failed, reported, log, Report(uid, outcomes[uid]));
    }
  }

  lemma OneReport(reports: seq<Report>, a: Report, b: Report)
    requires a in reports && b in reports && a.uid == b.uid && Reports(reports, a.uid) <= 1
    ensures a == b
  {
    var i :| 0 <= i < |reports| && reports[i] == a;
    var j :| 0 <= j < |reports| && reports[j] == b;
    if i < j { ReportsMany(reports, i, j); }
    if j < i { ReportsMany(reports, j, i); }
  }

  /** Move each listed node once; answer every position, in order, with what became
      of its node. */
  method MoveNodes(drive: Drive, server: Server, volume: nat, uids: seq<Uid>)
    returns (r: Result<seq<Report>, Failure>, ghost reported: map<Uid, Outcome>, ghost log: seq<Request>)
    ensures r.Ok? ==> |r.value| == |uids|
    ensures r.Ok? ==> forall uid :: uid in reported <==> uid in uids
    ensures r.Ok? ==> forall i :: 0 <= i < |uids| ==> r.value[i] == Report(uids[i], AnswerAt(uids, reported, i))
    ensures r.Ok? ==> forall i :: 0 <= i < |uids| ==>
              && (r.value[i].outcome.Ok? <==> reported[uids[i]].Ok?)
              && (uids[i] !in uids[..i] ==> r.value[i].outcome == reported[uids[i]])
    ensures r.Ok? ==> forall uid :: uid in uids ==>
              (reported[uid].Ok? <==> Accepted(log, uid)) && Sends(log, uid) <= 2
    ensures var ids := LinkIds(OnVolume(uids, volume));
      var links := LookedUp(drive, ids, map[]);
      && (r.Err? <==> ids != [] && (drive.destination.Err? || links.Err?))
      && (r.Ok? ==> forall uid :: uid in uids ==>
            Told(drive, server, volume, if links.Ok? then links.value else map[], log, uid, reported[uid]))
    ensures r.Ok? ==> forall k :: 0 <= k < |log| ==> BatchWell(server, log, k)
    ensures r.Err? ==> log == []
  {
    reported, log := map[], [];
    var items := Deduplicate(uids);
    DistinctTargets(uids, volume);
    var prepared := PrepareMoves(drive, items, volume);
    if prepared.Err? {
      return Err(prepared.error), reported, log;
    }
    var (queue, failed) := prepared.value;
    var run := new MoveRun(queue, failed);
    ghost var settled;
    settled, log := run.SubmitMoves(server, volume);
    forall uid ensures Reports(run.outcomes, uid) == if uid in uids then 1 else 0 {
      ReportsConcat(failed, settled, uid);
      DistinctTimes(uids, uid);
    }
    var outcomes := Collect(run.outcomes);
    reported := outcomes;
    var results := AnswerPositions(uids, outcomes);
    ghost var links := LookedUp(drive, LinkIds(OnVolume(uids, volume)), map[]);
    ghost var known := if links.Ok? then links.value else map[];
    WholeCallTold(drive, server, volume, uids, known, queue, failed, settled, log, outcomes);
    return Ok(results), reported, log;
  }
}
