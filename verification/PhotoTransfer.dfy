/** Bringing photos into the timeline or an album, with one retry for a photo whose
    group the server calls incomplete. */
module PhotoTransfer {
  import opened Nodes
  import opened Wrappers

  const LOAD_BATCH: nat := 20
  const MAX_LINKS_PER_TRANSFER: nat := 10
  const SUCCESS_CODE: int := 1000

  datatype Failure =
    | AlreadyThere | NotFound | NoNameHash | Unreadable(reason: nat)
    | Text(text: string) | Code(code: int) | MissingRelated(missing: seq<Uid>)

  type Outcome = Result<(), Failure>

  /** Something about one photo: its queue entry, its payload, its outcome. */
  datatype About<T> = About(uid: Uid, it: T)

  datatype Photo = Photo(uid: Uid, nameHash: Option<nat>, parent: Option<Uid>)
  datatype Body = Body(main: Photo, related: seq<Photo>)

  type Job = About<seq<Uid>>
  type Payload = About<Body>
  type Report = About<Outcome>

  datatype Kind = Timeline | Album
  datatype Target = Target(uid: Uid, kind: Kind)

  // ------------------------------------------------------------------ the payload

  /** The drive at one moment: photos re-encrypted for the target, and the related
      photos each one declares. */
  datatype Drive = Drive(photo: Uid -> Result<Photo, Failure>, declared: Uid -> Result<Option<seq<Uid>>, Failure>)

  /** What a photo declares, then whatever else the server asked for. */
  function Merged(declared: seq<Uid>, extra: seq<Uid>): seq<Uid>
    decreases |extra|
  {
    if extra == [] then declared
    else if extra[0] in declared then Merged(declared, extra[1..])
    else Merged(declared + [extra[0]], extra[1..])
  }

  /** Related photos that cannot be built are skipped. */
  function Buildable(drive: Drive, uids: seq<Uid>): seq<Photo> {
    if uids == [] then []
    else
      var before := Buildable(drive, uids[..|uids| - 1]);
      var last := drive.photo(uids[|uids| - 1]);
      if last.Ok? then before + [last.value] else before
  }

  function Loaded(drive: Drive, target: Target, job: Job): Result<Body, Failure> {
    var main := drive.photo(job.uid);
    if main.Err? then Err(main.error)
    else if main.value.parent == Some(target.uid) then Err(AlreadyThere)
    else
      var declared := drive.declared(job.uid);
      if declared.Err? then Err(declared.error)
      else if declared.value.None? then Err(NotFound)
      else Ok(Body(main.value, Buildable(drive, Merged(declared.value.value, job.it))))
  }

  method TransferPhotoPayload(drive: Drive, target: Target, job: Job) returns (r: Result<Body, Failure>)
    ensures r == Loaded(drive, target, job)
  {
    var main := drive.photo(job.uid);
    if main.Err? {
      return Err(main.error);
    }
    if main.value.parent == Some(target.uid) {
      return Err(AlreadyThere);
    }
    var declared := drive.declared(job.uid);
    if declared.Err? {
      return Err(declared.error);
    }
    if declared.value.None? {
      return Err(NotFound);
    }
    var related := declared.value.value;
    var i := 0;
    while i < |job.it|
      invariant 0 <= i <= |job.it|
      invariant Merged(related, job.it[i..]) == Merged(declared.value.value, job.it)
    {
      assert job.it[i..][1..] == job.it[i + 1..];
      if job.it[i] !in related {
        related := related + [job.it[i]];
      }
      i := i + 1;
    }
    var built := [];
    i := 0;
    while i < |related|
      invariant 0 <= i <= |related| && built == Buildable(drive, related[..i])
    {
      assert related[..i + 1][..i] == related[..i];
      var photo := drive.photo(related[i]);
      if photo.Ok? {
        built := built + [photo.value];
      }
      i := i + 1;
    }
    assert related[..i] == related;
    return Ok(Body(main.value, built));
  }

  lemma {:induction false} MergedKeeps(declared: seq<Uid>, extra: seq<Uid>, uid: Uid)
    ensures uid in Merged(declared, extra) <==> uid in declared || uid in extra
    decreases |extra|
  {
    if extra != [] {
      MergedKeeps(if extra[0] in declared then declared else declared + [extra[0]], extra[1..], uid);
    }
  }

  lemma {:induction false} BuildableHas(drive: Drive, uids: seq<Uid>, uid: Uid)
    requires uid in uids && drive.photo(uid).Ok?
    ensures drive.photo(uid).value in Buildable(drive, uids)
    decreases |uids|
  {
    if uids[|uids| - 1] != uid { BuildableHas(drive, uids[..|uids| - 1], uid); }
  }

  lemma {:induction false} BuildableFrom(drive: Drive, uids: seq<Uid>, photo: Photo)
    requires photo in Buildable(drive, uids)
    ensures exists uid :: uid in uids && drive.photo(uid) == Ok(photo)
    decreases |uids|
  {
    var shorter, last := uids[..|uids| - 1], uids[|uids| - 1];
    if photo in Buildable(drive, shorter) {
      BuildableFrom(drive, shorter, photo);
      var uid :| uid in shorter && drive.photo(uid) == Ok(photo);
      assert uid in uids;
    } else {
      assert last in uids;
    }
  }

  /** A photo loads exactly when it can be built, is not in the target already and declares
      its related photos; its group is itself and those of the related photos, declared or
      asked for, that can be built. */
  lemma LoadedMeans(drive: Drive, target: Target, job: Job)
    ensures var r, main, declared := Loaded(drive, target, job), drive.photo(job.uid), drive.declared(job.uid);
      && (r.Ok? <==> main.Ok? && main.value.parent != Some(target.uid) && declared.Ok? && declared.value.Some?)
      && (main.Ok? && main.value.parent == Some(target.uid) ==> r == Err(AlreadyThere))
      && (r.Ok? ==>
            && r.value.main == main.value
            && forall photo :: photo in r.value.related <==>
                 exists uid :: (uid in declared.value.value || uid in job.it) && drive.photo(uid) == Ok(photo))
  {
    var r, declared := Loaded(drive, target, job), drive.declared(job.uid);
    if r.Ok? {
      var merged := Merged(declared.value.value, job.it);
      forall photo
        ensures photo in r.value.related <==>
                exists uid :: (uid in declared.value.value || uid in job.it) && drive.photo(uid) == Ok(photo)
      {
        if photo in r.value.related {
          BuildableFrom(drive, merged, photo);
          var uid :| uid in merged && drive.photo(uid) == Ok(photo);
          MergedKeeps(declared.value.value, job.it, uid);
        }
        if uid :| (uid in declared.value.value || uid in job.it) && drive.photo(uid) == Ok(photo) {
          RetryCarriesDemanded(drive, target, job, uid);
        }
      }
    }
  }

  /** A retry carries every related photo, declared or demanded, that can be built. */
  lemma RetryCarriesDemanded(drive: Drive, target: Target, job: Job, uid: Uid)
    requires Loaded(drive, target, job).Ok? && drive.photo(uid).Ok?
    requires uid in job.it || uid in drive.declared(job.uid).value.value
    ensures drive.photo(uid).value in Loaded(drive, target, job).value.related
  {
    var declared := drive.declared(job.uid).value.value;
    MergedKeeps(declared, job.it, uid);
    BuildableHas(drive, Merged(declared, job.it), uid);
  }

  // ----------------------------------------------------------------- bookkeeping

  function Count<T>(s: seq<About<T>>, uid: Uid): nat {
    if s == [] then 0 else (if s[0].uid == uid then 1 else 0) + Count(s[1..], uid)
  }

  lemma {:induction false} CountConcat<T>(a: seq<About<T>>, b: seq<About<T>>, uid: Uid)
    ensures Count(a + b, uid) == Count(a, uid) + Count(b, uid)
  {
    if a == [] {
      assert a + b == b;
    } else {
      assert (a + b)[1..] == a[1..] + b;
      CountConcat(a[1..], b, uid);
    }
  }

  /** The queue, who was already re-queued, and the outcomes so far. */
  datatype State = State(queue: seq<Job>, retried: set<Uid>, outcomes: seq<Report>)

  /** What the server held against a photo: the related photos it named, if any. */
  datatype Complaint = Complaint(missing: seq<Uid>, error: Failure)

  /** An answer becomes an outcome, unless it is a first demand for related photos. */
  function Record(s: State, uid: Uid, failure: Option<Complaint>): State {
    if failure.None? then s.(outcomes := s.outcomes + [About(uid, Ok(()))])
    else if failure.value.missing != [] && uid !in s.retried then
      s.(retried := s.retried + {uid}, queue := s.queue + [About(uid, failure.value.missing)])
    else s.(outcomes := s.outcomes + [About(uid, Err(failure.value.error))])
  }

  function RecordAll(s: State, sent: seq<Payload>, given: seq<Option<Complaint>>): State
    requires |sent| == |given|
    decreases |sent|
  {
    if sent == [] then s else RecordAll(Record(s, sent[0].uid, given[0]), sent[1..], given[1..])
  }

  function InSet(uid: Uid, s: set<Uid>): nat { if uid in s then 1 else 0 }

  predicate Succeeded(s: State, uid: Uid) { About(uid, Ok(())) in s.outcomes }

  /** Recording one answer: the photo is settled or queued again; it is queued only
      if that uses up its retry; it succeeds only on an answer without complaint. */
  lemma RecordOne(s: State, uid: Uid, failure: Option<Complaint>, u: Uid)
    ensures var s' := Record(s, uid, failure);
      var it := if uid == u then 1 else 0;
      && Count(s'.queue, u) + Count(s'.outcomes, u) == Count(s.queue, u) + Count(s.outcomes, u) + it
      && Count(s'.queue, u) + InSet(u, s.retried) == Count(s.queue, u) + InSet(u, s'.retried)
      && (u in s.retried ==> u in s'.retried)
      && (u in s'.retried ==> u in s.retried || u == uid)
      && (Succeeded(s', u) <==> Succeeded(s, u) || (u == uid && failure.None?))
      && |s'.queue| + |s.retried| == |s.queue| + |s'.retried|
  {
    if failure.None? {
      CountConcat(s.outcomes, [About(uid, Ok(()))], u);
    } else {
      CountConcat(s.outcomes, [About(uid, Err(failure.value.error))], u);
      CountConcat(s.queue, [About(uid, failure.value.missing)], u);
    }
  }

  /** Among `sent`, some photo `uid` drew no complaint. */
  ghost predicate Cleared(sent: seq<Payload>, given: seq<Option<Complaint>>, uid: Uid)
    requires |sent| == |given|
  {
    exists i :: 0 <= i < |sent| && sent[i].uid == uid && given[i].None?
  }

  lemma ClearedFirstOrLater(sent: seq<Payload>, given: seq<Option<Complaint>>, u: Uid)
    requires |sent| == |given| && sent != []
    ensures Cleared(sent, given, u) <==> (sent[0].uid == u && given[0].None?) || Cleared(sent[1..], given[1..], u)
  {
    if Cleared(sent, given, u) && !(sent[0].uid == u && given[0].None?) {
      var i :| 0 <= i < |sent| && sent[i].uid == u && given[i].None?;
      assert sent[1..][i - 1].uid == u && given[1..][i - 1].None?;
    }
    if Cleared(sent[1..], given[1..], u) {
      var i :| 0 <= i < |sent[1..]| && sent[1..][i].uid == u && given[1..][i].None?;
      assert sent[i + 1].uid == u && given[i + 1].None?;
    }
  }

  lemma {:induction false} RecordEach(s: State, sent: seq<Payload>, given: seq<Option<Complaint>>, u: Uid)
    requires |sent| == |given|
    ensures var s' := RecordAll(s, sent, given);
      && Count(s'.queue, u) + Count(s'.outcomes, u) == Count(s.queue, u) + Count(s.outcomes, u) + Count(sent, u)
      && Count(s'.queue, u) + InSet(u, s.retried) == Count(s.queue, u) + InSet(u, s'.retried)
      && (u in s.retried ==> u in s'.retried)
      && (u in s'.retried ==> u in s.retried || Count(sent, u) > 0)
      && (Succeeded(s', u) <==> Succeeded(s, u) || Cleared(sent, given, u))
      && |s'.queue| + |s.retried| == |s.queue| + |s'.retried|
    decreases |sent|
  {
    if sent != [] {
      RecordOne(s, sent[0].uid, given[0], u);
      RecordEach(Record(s, sent[0].uid, given[0]), sent[1..], given[1..], u);
      ClearedFirstOrLater(sent, given, u);
    }
  }

  // ------------------------------------------------------------ one batch's answers

  datatype Answer = Answer(link: nat, code: int, error: Option<string>, missing: seq<nat>)

  predicate Failed(a: Answer) { !(a.code == SUCCESS_CODE && a.error.None?) }

  function Complained(a: Answer, volume: nat): Complaint {
    var missing := seq(|a.missing|, i requires 0 <= i < |a.missing| => Uid(volume, a.missing[i]));
    Complaint(missing,
              if missing != [] then MissingRelated(missing)
              else if a.error.Some? then Text(a.error.value)
              else Code(a.code))
  }

  /** The server's last complaint about a link, if it has any. */
  function Against(answers: seq<Answer>, volume: nat, link: nat): Option<Complaint> {
    if answers == [] then None
    else
      var last := answers[|answers| - 1];
      if last.link == link && Failed(last) then Some(Complained(last, volume))
      else Against(answers[..|answers| - 1], volume, link)
  }

  ghost predicate Refuses(a: Answer) { a.code != SUCCESS_CODE || a.error.Some? }

  ghost predicate Names(missing: seq<Uid>, volume: nat, links: seq<nat>) {
    |missing| == |links| && forall i :: 0 <= i < |links| ==> missing[i] == Uid(volume, links[i])
  }

  /** `c` is what a refusal holds against its photo: the related photos it names, or else
      its text, or else its code. */
  ghost predicate Reads(c: Complaint, a: Answer, volume: nat) {
    && Names(c.missing, volume, a.missing)
    && c.error == if a.missing != [] then MissingRelated(c.missing)
                  else if a.error.Some? then Text(a.error.value) else Code(a.code)
  }

  ghost predicate LastRefusal(answers: seq<Answer>, link: nat, k: nat) {
    && k < |answers| && answers[k].link == link && Refuses(answers[k])
    && forall later :: k < later < |answers| && answers[later].link == link ==> !Refuses(answers[later])
  }

  /** The link's last refusal, and no other answer, is what is held against it. */
  lemma {:induction false} AgainstMeans(answers: seq<Answer>, volume: nat, link: nat)
    ensures Against(answers, volume, link).None? <==> forall a :: a in answers && a.link == link ==> !Refuses(a)
    ensures Against(answers, volume, link).Some? ==>
              exists k: nat :: LastRefusal(answers, link, k)
                               && Reads(Against(answers, volume, link).value, answers[k], volume)
    decreases |answers|
  {
    if answers != [] {
      var shorter, last := answers[..|answers| - 1], answers[|answers| - 1];
      AgainstMeans(shorter, volume, link);
      assert forall a :: a in answers <==> a in shorter || a == last;
      if last.link == link && Refuses(last) {
        assert LastRefusal(answers, link, |answers| - 1) && Reads(Complained(last, volume), last, volume);
      } else {
        assert Against(answers, volume, link) == Against(shorter, volume, link);
        if Against(shorter, volume, link).Some? {
          var k: nat :| LastRefusal(shorter, link, k)
                   && Reads(Against(shorter, volume, link).value, shorter[k], volume);
          LastRefusalStays(answers, link, k);
        }
      }
    }
  }

  lemma LastRefusalStays(answers: seq<Answer>, link: nat, k: nat)
    requires answers != [] && LastRefusal(answers[..|answers| - 1], link, k)
    requires var last := answers[|answers| - 1]; !(last.link == link && Refuses(last))
    ensures LastRefusal(answers, link, k) && answers[..|answers| - 1][k] == answers[k]
  {
    forall later | k < later < |answers| && answers[later].link == link ensures !Refuses(answers[later]) {
      if later < |answers| - 1 { assert answers[..|answers| - 1][later] == answers[later]; }
    }
  }

  datatype CopyReply = Done | Api(code: int, missing: seq<nat>) | Lost(error: Failure)

  function CopyComplaint(reply: CopyReply, volume: nat): Option<Complaint> {
    match reply
    case Done => None
    case Lost(error) => Some(Complaint([], error))
    case Api(code, links) =>
      var missing := seq(|links|, i requires 0 <= i < |links| => Uid(volume, links[i]));
      Some(Complaint(missing, if missing == [] then Code(code) else MissingRelated(missing)))
  }

  function Find(failures: map<nat, Complaint>, link: nat): Option<Complaint> {
    if link in failures then Some(failures[link]) else None
  }

  method Failures(answers: seq<Answer>, volume: nat) returns (failures: map<nat, Complaint>)
    ensures forall link :: Find(failures, link) == Against(answers, volume, link)
  {
    failures := map[];
    var i := 0;
    while i < |answers|
      invariant 0 <= i <= |answers|
      invariant forall link :: Find(failures, link) == Against(answers[..i], volume, link)
    {
      assert answers[..i + 1][..i] == answers[..i];
      if Failed(answers[i]) {
        failures := failures[answers[i].link := Complained(answers[i], volume)];
      }
      i := i + 1;
    }
    assert answers[..i] == answers;
  }

  /** What each photo of a batch is given: a complaint goes to the first photo that
      claims it, and to no other. */
  function Given(sent: seq<Payload>, failures: map<nat, Complaint>): (given: seq<Option<Complaint>>)
    ensures |given| == |sent|
  {
    if sent == [] then []
    else [Find(failures, sent[0].uid.link)] + Given(sent[1..], failures - {sent[0].uid.link})
  }

  lemma {:induction false} GivenAt(sent: seq<Payload>, failures: map<nat, Complaint>, i: nat)
    requires i < |sent|
    ensures Given(sent, failures)[i] ==
            if exists j :: 0 <= j < i && sent[j].uid.link == sent[i].uid.link then None
            else Find(failures, sent[i].uid.link)
  {
    if i > 0 {
      GivenAt(sent[1..], failures - {sent[0].uid.link}, i - 1);
      if exists j :: 0 <= j < i - 1 && sent[1..][j].uid.link == sent[1..][i - 1].uid.link {
        var j :| 0 <= j < i - 1 && sent[1..][j].uid.link == sent[1..][i - 1].uid.link;
        assert sent[j + 1].uid.link == sent[i].uid.link;
      }
      if j :| 0 < j < i && sent[j].uid.link == sent[i].uid.link {
        assert sent[1..][j - 1].uid.link == sent[1..][i - 1].uid.link;
      }
    }
  }

  /** Every photo of a batch is told what the server said of it. */
  ghost predicate Faithful(sent: seq<Payload>, failures: map<nat, Complaint>) {
    forall i :: 0 <= i < |sent| ==> Given(sent, failures)[i] == Find(failures, sent[i].uid.link)
  }

  ghost predicate RefusedOnce(sent: seq<Payload>, failures: map<nat, Complaint>) {
    forall i, j :: 0 <= i < j < |sent| && sent[i].uid.link == sent[j].uid.link ==> sent[i].uid.link !in failures
  }

  /** The answers are passed on faithfully exactly when no refused photo is in the
      batch twice: its second copy would read as a success. */
  lemma FaithfulExactlyWhenRefusedOnce(sent: seq<Payload>, failures: map<nat, Complaint>)
    ensures Faithful(sent, failures) <==> RefusedOnce(sent, failures)
  {
    if Faithful(sent, failures) {
      forall i, j | 0 <= i < j < |sent| && sent[i].uid.link == sent[j].uid.link
        ensures sent[i].uid.link !in failures
      {
        GivenAt(sent, failures, j);
      }
    }
    if RefusedOnce(sent, failures) {
      forall i | 0 <= i < |sent| ensures Given(sent, failures)[i] == Find(failures, sent[i].uid.link) {
        GivenAt(sent, failures, i);
      }
    }
  }

  ghost predicate ListedOnce(sent: seq<Payload>) {
    forall i, j :: 0 <= i < j < |sent| ==> sent[i].uid.link != sent[j].uid.link
  }

  /** So a batch is answered faithfully, whatever the server refuses, exactly when it
      lists no photo twice. */
  lemma AlwaysFaithfulExactlyWhenListedOnce(sent: seq<Payload>)
    ensures (forall failures :: Faithful(sent, failures)) <==> ListedOnce(sent)
  {
    if ListedOnce(sent) {
      forall failures ensures Faithful(sent, failures) {
        FaithfulExactlyWhenRefusedOnce(sent, failures);
      }
    } else {
      var i, j :| 0 <= i < j < |sent| && sent[i].uid.link == sent[j].uid.link;
      var refused := map[sent[i].uid.link := Complaint([], NotFound)];
      FaithfulExactlyWhenRefusedOnce(sent, refused);
      assert !Faithful(sent, refused);
    }
  }

  /** One photo listed twice and refused: reported as failed, then as moved. */
  lemma SecondCopyReadsAsSuccess(body: Body, uid: Uid, error: Failure)
    ensures var sent := [About(uid, body), About(uid, body)];
      RecordAll(State([], {}, []), sent, Given(sent, map[uid.link := Complaint([], error)])).outcomes
      == [About(uid, Err(error)), About(uid, Ok(()))]
  {
    var sent := [About(uid, body), About(uid, body)];
    var failures := map[uid.link := Complaint([], error)];
    GivenAt(sent, failures, 0);
    GivenAt(sent, failures, 1);
    var given := Given(sent, failures);
    var s1 := Record(State([], {}, []), uid, given[0]);
    assert sent[1..][1..] == [] && RecordAll(s1, sent[1..], given[1..]) == Record(s1, uid, given[1]);
  }

  // ---------------------------------------------------------------- the request log

  /** What went to the server: a batch of groups, or one copied group. */
  datatype Request =
    | Batch(groups: seq<Payload>, answers: Option<seq<Answer>>)
    | Copied(photo: Payload, reply: CopyReply)

  function Groups(r: Request): seq<Payload> {
    match r
    case Batch(groups, _) => groups
    case Copied(photo, _) => [photo]
  }

  /** The server took `uid` with this request. */
  ghost predicate TookOne(r: Request, uid: Uid) {
    match r
    case Batch(groups, answers) =>
      && Count(groups, uid) > 0 && answers.Some?
      && forall a :: a in answers.value && a.link == uid.link ==> !Refuses(a)
    case Copied(photo, reply) => photo.uid == uid && reply.Done?
  }

  /** `c` is what the server held against `uid` in this request. */
  ghost predicate Complains(target: Target, r: Request, uid: Uid, c: Complaint) {
    match r
    case Batch(groups, answers) =>
      && Count(groups, uid) > 0 && answers.Some?
      && exists k: nat :: LastRefusal(answers.value, uid.link, k) && Reads(c, answers.value[k], target.uid.volume)
    case Copied(photo, reply) =>
      && photo.uid == uid
      && match reply
         case Done => false
         case Lost(error) => c == Complaint([], error)
         case Api(code, links) =>
           && Names(c.missing, uid.volume, links)
           && c.error == if links == [] then Code(code) else MissingRelated(c.missing)
  }

  lemma OneComplaint(target: Target, r: Request, uid: Uid, c: Complaint, d: Complaint)
    requires Complains(target, r, uid, c)
    ensures Complains(target, r, uid, d) ==> c == d
    ensures !TookOne(r, uid)
  {
    if Complains(target, r, uid, d) {
      assert |c.missing| == |d.missing| && forall i :: 0 <= i < |c.missing| ==> c.missing[i] == d.missing[i];
      assert c.missing == d.missing;
    }
  }

  ghost predicate Took(log: seq<Request>, uid: Uid) {
    exists k :: 0 <= k < |log| && TookOne(log[k], uid)
  }

  ghost function Sends(log: seq<Request>, uid: Uid): nat {
    if log == [] then 0 else Sends(log[..|log| - 1], uid) + Count(Groups(log[|log| - 1]), uid)
  }

  lemma LogGrows(log: seq<Request>, r: Request, uid: Uid)
    ensures Took(log + [r], uid) <==> Took(log, uid) || TookOne(r, uid)
    ensures Sends(log + [r], uid) == Sends(log, uid) + Count(Groups(r), uid)
  {
    var longer := log + [r];
    assert longer[..|log|] == log;
    assert longer[|log|] == r;
    if Took(log, uid) {
      var k :| 0 <= k < |log| && TookOne(log[k], uid);
      assert TookOne(longer[k], uid);
    }
  }

  function Links(groups: seq<Payload>): nat {
    if groups == [] then 0 else Links(groups[..|groups| - 1]) + 1 + |groups[|groups| - 1].it.related|
  }

  function Photos(groups: seq<Payload>): seq<Photo> {
    if groups == [] then []
    else Photos(groups[..|groups| - 1]) + [groups[|groups| - 1].it.main] + groups[|groups| - 1].it.related
  }

  /** A batch has as many links as photos. */
  lemma {:induction false} LinksArePhotos(groups: seq<Payload>)
    ensures Links(groups) == |Photos(groups)|
    decreases |groups|
  {
    if groups != [] { LinksArePhotos(groups[..|groups| - 1]); }
  }

  /** A batch goes to the target's own volume and passes ten links only as a single
      group; a timeline batch gives every link's name hash; a copy crosses volumes. */
  ghost predicate Shaped(target: Target, r: Request) {
    match r
    case Batch(groups, answers) =>
      && groups != [] && answers.Some?
      && (Links(groups) <= MAX_LINKS_PER_TRANSFER || |groups| == 1)
      && (forall g :: g in groups ==> g.uid.volume == target.uid.volume)
      && (target.kind.Timeline? ==> forall g :: g in groups ==> HasHashes(g.it))
    case Copied(photo, _) => photo.uid.volume != target.uid.volume
  }

  /** Every photo of the group has a name hash. */
  ghost predicate HasHashes(body: Body) {
    forall photo :: photo == body.main || photo in body.related ==> photo.nameHash.Some?
  }

  lemma MovableMeans(body: Body)
    ensures Movable(body) <==> HasHashes(body)
  {
    if HasHashes(body) {
      assert forall i :: 0 <= i < |body.related| ==> body.related[i] in body.related;
    }
  }

  predicate Movable(body: Body) {
    body.main.nameHash.Some? && forall i :: 0 <= i < |body.related| ==> body.related[i].nameHash.Some?
  }

  // -------------------------------------------------------- what a whole run keeps

  /** One photo's account: it is queued, in hand or reported, as often as it was
      asked for; it is sent at most that often, and once more if re-queued; asked for
      once, it is reported moved just if the server took it. */
  ghost predicate Balanced(jobs: seq<Job>, s: State, hand: seq<Payload>, log: seq<Request>, u: Uid) {
    && Count(s.queue, u) + Count(hand, u) + Count(s.outcomes, u) == Count(jobs, u)
    && Sends(log, u) + Count(s.queue, u) + Count(hand, u) <= Count(jobs, u) + InSet(u, s.retried)
    && (u in s.retried ==> Count(jobs, u) > 0)
    && (Count(jobs, u) == 1 ==> (Took(log, u) <==> Succeeded(s, u)))
  }

  ghost predicate Sound(target: Target, jobs: seq<Job>, s: State, hand: seq<Payload>, log: seq<Request>) {
    && (forall u :: Balanced(jobs, s, hand, log, u))
    && (forall r :: r in log ==> Shaped(target, r))
  }

  lemma {:induction false} CountedIn<T>(s: seq<About<T>>, uid: Uid)
    ensures Count(s, uid) > 0 <==> exists i :: 0 <= i < |s| && s[i].uid == uid
  {
    if s != [] {
      CountedIn(s[1..], uid);
      if exists i :: 0 <= i < |s| && s[i].uid == uid {
        var i :| 0 <= i < |s| && s[i].uid == uid;
        assert i > 0 ==> s[1..][i - 1].uid == uid;
      }
      if exists i :: 0 <= i < |s[1..]| && s[1..][i].uid == uid {
        var i :| 0 <= i < |s[1..]| && s[1..][i].uid == uid;
        assert s[i + 1].uid == uid;
      }
    }
  }

  lemma {:induction false} CountTwice<T>(s: seq<About<T>>, i: nat, j: nat)
    requires i < j < |s| && s[i].uid == s[j].uid
    ensures Count(s, s[i].uid) > 1
  {
    if i == 0 {
      assert s[1..][j - 1].uid == s[j].uid;
      CountedIn(s[1..], s[j].uid);
    } else {
      CountTwice(s[1..], i - 1, j - 1);
    }
  }

  /** A photo that is in a batch once is cleared just if the server took it. */
  lemma ClearedWhenTaken(sent: seq<Payload>, answers: seq<Answer>, failures: map<nat, Complaint>, volume: nat, u: Uid)
    requires forall link :: Find(failures, link) == Against(answers, volume, link)
    requires forall g :: g in sent ==> g.uid.volume == volume
    requires Count(sent, u) <= 1
    ensures Cleared(sent, Given(sent, failures), u) <==> TookOne(Batch(sent, Some(answers)), u)
  {
    CountedIn(sent, u);
    AgainstMeans(answers, volume, u.link);
    forall i | 0 <= i < |sent| && sent[i].uid == u
      ensures Given(sent, failures)[i] == Against(answers, volume, u.link) && u.volume == volume
    {
      assert sent[i] in sent;
      GivenAt(sent, failures, i);
      forall j | 0 <= j < i ensures sent[j].uid.link != sent[i].uid.link {
        assert sent[j] in sent;
        if sent[j].uid == sent[i].uid { CountTwice(sent, j, i); }
      }
    }
  }

  /** The groups a timeline request can carry; the others fail at once. */
  function Sendable(kind: Kind, payloads: seq<Payload>): seq<Payload> {
    if payloads == [] then []
    else
      var before, last := Sendable(kind, payloads[..|payloads| - 1]), payloads[|payloads| - 1];
      if kind.Album? || Movable(last.it) then before + [last] else before
  }

  function Unsendable(kind: Kind, payloads: seq<Payload>): seq<Report> {
    if payloads == [] then []
    else
      var before, last := Unsendable(kind, payloads[..|payloads| - 1]), payloads[|payloads| - 1];
      if kind.Album? || Movable(last.it) then before else before + [About(last.uid, Err(NoNameHash))]
  }

  lemma {:induction false} SendableParts(kind: Kind, payloads: seq<Payload>, u: Uid)
    ensures Count(Sendable(kind, payloads), u) + Count(Unsendable(kind, payloads), u) == Count(payloads, u)
    decreases |payloads|
  {
    if payloads != [] {
      var shorter, last := payloads[..|payloads| - 1], payloads[|payloads| - 1];
      SendableParts(kind, shorter, u);
      assert payloads == shorter + [last];
      CountConcat(shorter, [last], u);
      CountConcat(Sendable(kind, shorter), [last], u);
      CountConcat(Unsendable(kind, shorter), [About(last.uid, Err(NoNameHash))], u);
    }
  }

  lemma {:induction false} SendableShape(kind: Kind, payloads: seq<Payload>)
    ensures forall g :: g in Sendable(kind, payloads) ==> g in payloads && (kind.Timeline? ==> Movable(g.it))
    ensures forall r :: r in Unsendable(kind, payloads) ==> r.it == Err(NoNameHash)
    ensures Links(Sendable(kind, payloads)) <= Links(payloads)
    ensures |Sendable(kind, payloads)| <= |payloads|
    decreases |payloads|
  {
    if payloads != [] {
      SendableShape(kind, payloads[..|payloads| - 1]);
    }
  }

  // ------------------------------------------------------- each step keeps the run sound

  /** The state after a batch was answered: what could not be sent has failed, the
      rest is recorded as the server answered. */
  function Posted(kind: Kind, s: State, payloads: seq<Payload>, failures: map<nat, Complaint>): State {
    var sent := Sendable(kind, payloads);
    RecordAll(s.(outcomes := s.outcomes + Unsendable(kind, payloads)), sent, Given(sent, failures))
  }

  lemma {:induction false} PostedBalances(target: Target, jobs: seq<Job>, s: State, payloads: seq<Payload>,
                                          rest: seq<Payload>, log: seq<Request>,
                       answers: seq<Answer>, failures: map<nat, Complaint>, u: Uid)
    requires Balanced(jobs, s, payloads + rest, log, u)
    requires forall g :: g in payloads ==> g.uid.volume == target.uid.volume
    requires forall link :: Find(failures, link) == Against(answers, target.uid.volume, link)
    ensures Balanced(jobs, Posted(target.kind, s, payloads, failures), rest,
                     log + [Batch(Sendable(target.kind, payloads), Some(answers))], u)
  {
    var sent, unsent := Sendable(target.kind, payloads), Unsendable(target.kind, payloads);
    var s1 := s.(outcomes := s.outcomes + unsent);
    CountConcat(payloads, rest, u);
    CountConcat(s.outcomes, unsent, u);
    SendableParts(target.kind, payloads, u);
    SendableShape(target.kind, payloads);
    RecordEach(s1, sent, Given(sent, failures), u);
    LogGrows(log, Batch(sent, Some(answers)), u);
    assert Succeeded(s1, u) <==> Succeeded(s, u);
    if Count(jobs, u) == 1 {
      ClearedWhenTaken(sent, answers, failures, target.uid.volume, u);
    }
  }

  lemma {:induction false} PostedSound(target: Target, jobs: seq<Job>, s: State, payloads: seq<Payload>,
                                       rest: seq<Payload>, log: seq<Request>,
                    answers: seq<Answer>, failures: map<nat, Complaint>)
    requires Sound(target, jobs, s, payloads + rest, log)
    requires forall g :: g in payloads ==> g.uid.volume == target.uid.volume
    requires Links(payloads) <= MAX_LINKS_PER_TRANSFER || |payloads| == 1
    requires forall link :: Find(failures, link) == Against(answers, target.uid.volume, link)
    requires Sendable(target.kind, payloads) != []
    ensures Sound(target, jobs, Posted(target.kind, s, payloads, failures), rest,
                  log + [Batch(Sendable(target.kind, payloads), Some(answers))])
  {
    forall u
      ensures Balanced(jobs, Posted(target.kind, s, payloads, failures), rest,
                       log + [Batch(Sendable(target.kind, payloads), Some(answers))], u)
    {
      PostedBalances(target, jobs, s, payloads, rest, log, answers, failures, u);
    }
    SendableShape(target.kind, payloads);
    forall g | g in Sendable(target.kind, payloads) ensures target.kind.Timeline? ==> HasHashes(g.it) {
      MovableMeans(g.it);
    }
    assert Shaped(target, Batch(Sendable(target.kind, payloads), Some(answers)));
  }

  lemma UnsentSound(target: Target, jobs: seq<Job>, s: State, payloads: seq<Payload>, rest: seq<Payload>,
                    log: seq<Request>)
    requires Sound(target, jobs, s, payloads + rest, log)
    requires Sendable(target.kind, payloads) == []
    ensures Sound(target, jobs, s.(outcomes := s.outcomes + Unsendable(target.kind, payloads)), rest, log)
  {
    var unsent := Unsendable(target.kind, payloads);
    var s' := s.(outcomes := s.outcomes + unsent);
    SendableShape(target.kind, payloads);
    forall u ensures Balanced(jobs, s', rest, log, u) {
      assert Balanced(jobs, s, payloads + rest, log, u);
      CountConcat(payloads, rest, u);
      CountConcat(s.outcomes, unsent, u);
      SendableParts(target.kind, payloads, u);
      assert Succeeded(s', u) <==> Succeeded(s, u);
    }
  }

  lemma CopiedSound(target: Target, jobs: seq<Job>, s: State, photo: Payload, rest: seq<Payload>, log: seq<Request>,
                    reply: CopyReply)
    requires Sound(target, jobs, s, [photo] + rest, log) && photo.uid.volume != target.uid.volume
    ensures Sound(target, jobs, Record(s, photo.uid, CopyComplaint(reply, photo.uid.volume)), rest,
                  log + [Copied(photo, reply)])
  {
    var failure := CopyComplaint(reply, photo.uid.volume);
    forall u ensures Balanced(jobs, Record(s, photo.uid, failure), rest, log + [Copied(photo, reply)], u) {
      assert Balanced(jobs, s, [photo] + rest, log, u);
      assert ([photo] + rest)[1..] == rest;
      RecordOne(s, photo.uid, failure, u);
      LogGrows(log, Copied(photo, reply), u);
    }
    assert Shaped(target, Copied(photo, reply));
  }

  lemma LoadedSound(target: Target, jobs: seq<Job>, s: State, hand: seq<Payload>, hand': seq<Payload>,
                    log: seq<Request>)
    requires Sound(target, jobs, s, hand, log) && s.queue != []
    requires forall u :: Count(hand', u) == Count(hand, u) + (if s.queue[0].uid == u then 1 else 0)
    ensures Sound(target, jobs, s.(queue := s.queue[1..]), hand', log)
  {
    var s' := s.(queue := s.queue[1..]);
    forall u ensures Balanced(jobs, s', hand', log, u) {
      assert Balanced(jobs, s, hand, log, u);
      assert Succeeded(s', u) <==> Succeeded(s, u);
    }
  }

  lemma UnloadableSound(target: Target, jobs: seq<Job>, s: State, hand: seq<Payload>, log: seq<Request>, error: Failure)
    requires Sound(target, jobs, s, hand, log) && s.queue != []
    ensures Sound(target, jobs,
              s.(queue := s.queue[1..], outcomes := s.outcomes + [About(s.queue[0].uid, Err(error))]), hand, log)
  {
    var s' := s.(queue := s.queue[1..], outcomes := s.outcomes + [About(s.queue[0].uid, Err(error))]);
    forall u ensures Balanced(jobs, s', hand, log, u) {
      assert Balanced(jobs, s, hand, log, u);
      CountConcat(s.outcomes, [About(s.queue[0].uid, Err(error))], u);
      assert Succeeded(s', u) <==> Succeeded(s, u);
    }
  }

  /** Moving a payload into the batch leaves what is in hand as it was. */
  lemma OneOver(batch: seq<Payload>, next: Payload, rest: seq<Payload>)
    ensures (batch + [next]) + rest == batch + ([next] + rest)
    ensures Links(batch + [next]) == Links(batch) + 1 + |next.it.related|
  {
    assert (batch + [next])[..|batch|] == batch;
  }

  // ------------------------------------------------ what a second request carries

  /** Request `k` drew a complaint that named these related photos of `uid`. */
  ghost predicate DemandedAt(target: Target, log: seq<Request>, uid: Uid, missing: seq<Uid>, k: nat) {
    k < |log| && exists error :: Complains(target, log[k], uid, Complaint(missing, error))
  }

  ghost predicate Demanded(target: Target, log: seq<Request>, uid: Uid, missing: seq<Uid>) {
    exists k: nat :: DemandedAt(target, log, uid, missing, k)
  }

  /** What an entry asks for beyond the photo's own related ones is what some request was
      told is missing; a photo asked for once waits without such demands only before its
      first request. */
  ghost predicate JobGrounds(target: Target, jobs: seq<Job>, log: seq<Request>, job: Job) {
    && (job.it != [] ==> Demanded(target, log, job.uid, job.it))
    && (job.it == [] && Count(jobs, job.uid) == 1 ==> Sends(log, job.uid) == 0)
  }

  /** Request `k` is the last that carried the photo, and its answer is what is reported: a
      complaint is reported only if it names no related photos or came to a second send. */
  ghost predicate SettledAt(target: Target, log: seq<Request>, r: Report, k: nat) {
    && k < |log| && Count(Groups(log[k]), r.uid) > 0
    && (forall later :: k < later < |log| ==> Count(Groups(log[later]), r.uid) == 0)
    && if r.it.Ok? then TookOne(log[k], r.uid)
       else exists c :: Complains(target, log[k], r.uid, c) && r.it == Err(c.error)
                        && (c.missing == [] || Sends(log[..k], r.uid) > 0)
  }

  /** The photo, with whatever related photos `extra` the server had asked for, could not
      be loaded or, for want of a name hash, not be sent. */
  ghost predicate UnsentAt(server: Server, target: Target, log: seq<Request>, r: Report, t: nat, extra: seq<Uid>) {
    && r.it.Err? && Sends(log, r.uid) <= 1
    && (if extra == [] then Sends(log, r.uid) == 0 else Demanded(target, log, r.uid, extra))
    && match Loaded(server.drive(t), target, About(r.uid, extra))
       case Err(error) => r.it.error == error
       case Ok(body) => target.kind.Timeline? && !HasHashes(body) && r.it.error == NoNameHash
  }

  /** What a report of a photo asked for once rests on. */
  ghost predicate OutcomeGrounds(server: Server, target: Target, log: seq<Request>, r: Report) {
    || (exists k: nat :: SettledAt(target, log, r, k))
    || (exists t: nat, extra: seq<Uid> :: UnsentAt(server, target, log, r, t, extra))
  }

  ghost predicate LoadedFrom(server: Server, target: Target, jobs: seq<Job>, log: seq<Request>, g: Payload, t: nat,
                             extra: seq<Uid>)
  {
    && Loaded(server.drive(t), target, About(g.uid, extra)) == Ok(g.it)
    && JobGrounds(target, jobs, log, About(g.uid, extra))
  }

  ghost predicate PayloadGrounds(server: Server, target: Target, jobs: seq<Job>, log: seq<Request>, g: Payload) {
    exists t: nat, extra: seq<Uid> :: LoadedFrom(server, target, jobs, log, g, t, extra)
  }

  ghost predicate SentGrounds(server: Server, target: Target, jobs: seq<Job>, log: seq<Request>, k: nat)
    requires k < |log|
  {
    forall g :: g in Groups(log[k]) ==> PayloadGrounds(server, target, jobs, log[..k], g)
  }

  ghost predicate Grounded(server: Server, target: Target, jobs: seq<Job>, s: State, hand: seq<Payload>,
                           log: seq<Request>)
  {
    && (forall job :: job in s.queue ==> JobGrounds(target, jobs, log, job))
    && (forall g :: g in hand ==> PayloadGrounds(server, target, jobs, log, g))
    && (forall k {:trigger SentGrounds(server, target, jobs, log, k)} :: 0 <= k < |log| ==>
        SentGrounds(server, target, jobs, log, k))
    && (forall r :: r in s.outcomes && Count(jobs, r.uid) == 1 ==> OutcomeGrounds(server, target, log, r))
    && (forall u :: u in s.retried ==> Sends(log, u) > 0)
  }

  ghost predicate Kept(server: Server, target: Target, jobs: seq<Job>, s: State, hand: seq<Payload>,
                       log: seq<Request>)
  {
    Sound(target, jobs, s, hand, log) && Grounded(server, target, jobs, s, hand, log)
  }

  lemma DemandStays(target: Target, log: seq<Request>, r: Request, uid: Uid, missing: seq<Uid>)
    requires Demanded(target, log, uid, missing)
    ensures Demanded(target, log + [r], uid, missing)
  {
    var k: nat :| DemandedAt(target, log, uid, missing, k);
    assert DemandedAt(target, log + [r], uid, missing, k);
  }

  /** What waits while a request for other photos goes out keeps its grounds. */
  lemma JobGroundsStay(target: Target, jobs: seq<Job>, log: seq<Request>, r: Request, job: Job)
    requires JobGrounds(target, jobs, log, job)
    requires Count(jobs, job.uid) == 1 ==> Count(Groups(r), job.uid) == 0
    ensures JobGrounds(target, jobs, log + [r], job)
  {
    LogGrows(log, r, job.uid);
    if job.it != [] { DemandStays(target, log, r, job.uid, job.it); }
  }

  lemma PayloadGroundsStay(server: Server, target: Target, jobs: seq<Job>, log: seq<Request>, r: Request, g: Payload)
    requires PayloadGrounds(server, target, jobs, log, g)
    requires Count(jobs, g.uid) == 1 ==> Count(Groups(r), g.uid) == 0
    ensures PayloadGrounds(server, target, jobs, log + [r], g)
  {
    var t: nat, extra: seq<Uid> :| LoadedFrom(server, target, jobs, log, g, t, extra);
    JobGroundsStay(target, jobs, log, r, About(g.uid, extra));
    assert LoadedFrom(server, target, jobs, log + [r], g, t, extra);
  }

  /** What was reported keeps its grounds while requests for other photos go out. */
  lemma OutcomeGroundsStay(server: Server, target: Target, log: seq<Request>, next: Request, r: Report)
    requires OutcomeGrounds(server, target, log, r) && Count(Groups(next), r.uid) == 0
    ensures OutcomeGrounds(server, target, log + [next], r)
  {
    LogGrows(log, next, r.uid);
    if k: nat :| SettledAt(target, log, r, k) {
      assert (log + [next])[..k] == log[..k];
      assert SettledAt(target, log + [next], r, k);
    } else {
      var t: nat, extra: seq<Uid> :| UnsentAt(server, target, log, r, t, extra);
      if extra != [] { DemandStays(target, log, next, r.uid, extra); }
      assert UnsentAt(server, target, log + [next], r, t, extra);
    }
  }

  lemma {:induction false} DemandedWasSent(target: Target, log: seq<Request>, uid: Uid, missing: seq<Uid>)
    requires Demanded(target, log, uid, missing)
    ensures Sends(log, uid) > 0
    decreases |log|
  {
    var k: nat :| DemandedAt(target, log, uid, missing, k);
    CarriedWasSent(log, uid, k);
  }

  lemma {:induction false} CarriedWasSent(log: seq<Request>, uid: Uid, k: nat)
    requires k < |log| && Count(Groups(log[k]), uid) > 0
    ensures Sends(log, uid) > Sends(log[..k], uid)
    decreases |log|
  {
    if k < |log| - 1 {
      CarriedWasSent(log[..|log| - 1], uid, k);
      assert log[..|log| - 1][..k] == log[..k];
    }
  }

  /** Why a photo asked for once, that waits or is in hand, is not sent. */
  lemma NotSent(server: Server, target: Target, jobs: seq<Job>, s: State, hand: seq<Payload>, log: seq<Request>,
                uid: Uid, extra: seq<Uid>, t: nat, error: Failure)
    requires Kept(server, target, jobs, s, hand, log) && Count(jobs, uid) == 1
    requires Count(s.queue, uid) + Count(hand, uid) > 0 && JobGrounds(target, jobs, log, About(uid, extra))
    requires match Loaded(server.drive(t), target, About(uid, extra))
             case Err(e) => error == e
             case Ok(body) => target.kind.Timeline? && !Movable(body) && error == NoNameHash
    ensures OutcomeGrounds(server, target, log, About(uid, Err(error)))
  {
    assert Balanced(jobs, s, hand, log, uid);
    var loaded := Loaded(server.drive(t), target, About(uid, extra));
    if loaded.Ok? { MovableMeans(loaded.value); }
    assert UnsentAt(server, target, log, About(uid, Err(error)), t, extra);
  }

  /** A new queue entry is a photo that was sent and what its complaint named. */
  lemma {:induction false} RequeuedFrom(s: State, sent: seq<Payload>, given: seq<Option<Complaint>>, job: Job)
    returns (i: nat)
    requires |sent| == |given| && job in RecordAll(s, sent, given).queue && job !in s.queue
    ensures i < |sent| && given[i].Some? && given[i].value.missing != []
          && job == About(sent[i].uid, given[i].value.missing)
    decreases |sent|
  {
    var s1 := Record(s, sent[0].uid, given[0]);
    if job in s1.queue {
      i := 0;
    } else {
      i := RequeuedFrom(s1, sent[1..], given[1..], job);
      i := i + 1;
    }
  }

  /** The log with a request whose payloads all had grounds, and a queue and a hand that
      keep theirs. */
  lemma GroundedNext(server: Server, target: Target, jobs: seq<Job>, s: State, sent: seq<Payload>, rest: seq<Payload>,
                     s': State, log: seq<Request>, r: Request)
    requires Grounded(server, target, jobs, s, sent + rest, log)
    requires forall g :: g in Groups(r) ==> g in sent
    requires forall u :: Count(jobs, u) == 1 && Count(Groups(r), u) > 0 ==>
               Count(s.queue, u) + Count(rest, u) + Count(s.outcomes, u) == 0
    requires forall job :: job in s'.queue && job !in s.queue ==>
              job.it != [] && Demanded(target, log + [r], job.uid, job.it)
    requires forall o :: o in s'.outcomes && o !in s.outcomes && Count(jobs, o.uid) == 1 ==>
               OutcomeGrounds(server, target, log + [r], o)
    requires forall u :: u in s'.retried ==> u in s.retried || Count(Groups(r), u) > 0
    ensures Grounded(server, target, jobs, s', rest, log + [r])
  {
    var log' := log + [r];
    forall job | job in s'.queue ensures JobGrounds(target, jobs, log', job) {
      if job in s.queue {
        CountedIn(s.queue, job.uid);
        JobGroundsStay(target, jobs, log, r, job);
      }
    }
    forall g | g in rest ensures PayloadGrounds(server, target, jobs, log', g) {
      assert g in sent + rest;
      CountedIn(rest, g.uid);
      PayloadGroundsStay(server, target, jobs, log, r, g);
    }
    forall k | 0 <= k < |log'| ensures SentGrounds(server, target, jobs, log', k) {
      if k < |log| {
        assert SentGrounds(server, target, jobs, log, k) && log'[..k] == log[..k];
      } else {
        assert log'[..k] == log;
      }
    }
    forall o | o in s'.outcomes && Count(jobs, o.uid) == 1 ensures OutcomeGrounds(server, target, log', o) {
      if o in s.outcomes {
        CountedIn(s.outcomes, o.uid);
        OutcomeGroundsStay(server, target, log, r, o);
      }
    }
    forall u | u in s'.retried ensures Sends(log', u) > 0 {
      LogGrows(log, r, u);
    }
  }

  /** A new outcome is what a photo that was sent was given, with no way to try again. */
  lemma {:induction false} RecordedFrom(s: State, sent: seq<Payload>, given: seq<Option<Complaint>>, o: Report)
    returns (i: nat)
    requires |sent| == |given| && o in RecordAll(s, sent, given).outcomes && o !in s.outcomes
    requires Count(sent, o.uid) <= 1
    ensures i < |sent| && sent[i].uid == o.uid
    ensures if given[i].None? then o.it == Ok(())
            else o.it == Err(given[i].value.error) && (given[i].value.missing == [] || o.uid in s.retried)
    decreases |sent|
  {
    var s1 := Record(s, sent[0].uid, given[0]);
    if o in s1.outcomes {
      i := 0;
    } else {
      i := RecordedFrom(s1, sent[1..], given[1..], o);
      i := i + 1;
      CountTwiceIf(sent, i);
    }
  }

  lemma CountTwiceIf<T>(s: seq<About<T>>, i: nat)
    requires i < |s|
    ensures i > 0 && s[0].uid == s[i].uid ==> Count(s, s[i].uid) > 1
  {
    if i > 0 && s[0].uid == s[i].uid { CountTwice(s, 0, i); }
  }

  /** What is reported of a batch's photos has its grounds. */
  lemma PostedOutcomes(server: Server, target: Target, jobs: seq<Job>, s: State, payloads: seq<Payload>,
                       rest: seq<Payload>, log: seq<Request>, answers: seq<Answer>, failures: map<nat, Complaint>,
                       o: Report)
    requires Kept(server, target, jobs, s, payloads + rest, log)
    requires forall g :: g in payloads ==> g.uid.volume == target.uid.volume
    requires forall link :: Find(failures, link) == Against(answers, target.uid.volume, link)
    requires o in Posted(target.kind, s, payloads, failures).outcomes && o !in s.outcomes && Count(jobs, o.uid) == 1
    ensures OutcomeGrounds(server, target, log + [Batch(Sendable(target.kind, payloads), Some(answers))], o)
  {
    var sent, unsent := Sendable(target.kind, payloads), Unsendable(target.kind, payloads);
    var s1 := s.(outcomes := s.outcomes + unsent);
    var r := Batch(sent, Some(answers));
    InHandOnce(target, jobs, s, payloads, rest, log, o.uid);
    SendableShape(target.kind, payloads);
    if o in unsent {
      CountedIn(unsent, o.uid);
      UnsentOutcome(server, target, jobs, s, payloads, rest, log, o);
      OutcomeGroundsStay(server, target, log, r, o);
    } else {
      var i := RecordedFrom(s1, sent, Given(sent, failures), o);
      SentOutcome(target, jobs, s, sent, log, answers, failures, o, i);
    }
  }

  /** A photo asked for once is in a batch at most once, among what can be sent or what cannot. */
  lemma InHandOnce(target: Target, jobs: seq<Job>, s: State, payloads: seq<Payload>, rest: seq<Payload>,
                   log: seq<Request>, u: Uid)
    requires Sound(target, jobs, s, payloads + rest, log) && Count(jobs, u) == 1
    ensures Count(Sendable(target.kind, payloads), u) + Count(Unsendable(target.kind, payloads), u) <= 1
  {
    assert Balanced(jobs, s, payloads + rest, log, u);
    CountConcat(payloads, rest, u);
    SendableParts(target.kind, payloads, u);
  }

  lemma SentOutcome(target: Target, jobs: seq<Job>, s: State, sent: seq<Payload>, log: seq<Request>,
                    answers: seq<Answer>, failures: map<nat, Complaint>, o: Report, i: nat)
    requires forall link :: Find(failures, link) == Against(answers, target.uid.volume, link)
    requires i < |sent| && sent[i].uid == o.uid && Count(sent, o.uid) <= 1
    requires forall g :: g in sent ==> g.uid.volume == target.uid.volume
    requires var c := Given(sent, failures)[i];
      if c.None? then o.it == Ok(())
      else o.it == Err(c.value.error) && (c.value.missing == [] || Sends(log, o.uid) > 0)
    ensures SettledAt(target, log + [Batch(sent, Some(answers))], o, |log|)
  {
    var r := Batch(sent, Some(answers));
    assert (log + [r])[..|log|] == log;
    CountedIn(sent, o.uid);
    AgainstMeans(answers, target.uid.volume, o.uid.link);
    GivenAt(sent, failures, i);
    forall j | 0 <= j < i ensures sent[j].uid.link != sent[i].uid.link {
      assert sent[j] in sent && sent[i] in sent;
      if sent[j].uid == sent[i].uid { CountTwice(sent, j, i); }
    }
    if o.it.Err? {
      assert Complains(target, r, o.uid, Given(sent, failures)[i].value);
    }
  }

  lemma {:induction false} UnsendableFrom(kind: Kind, payloads: seq<Payload>, o: Report) returns (g: Payload)
    requires o in Unsendable(kind, payloads)
    ensures g in payloads && g.uid == o.uid && kind.Timeline? && !Movable(g.it) && o.it == Err(NoNameHash)
    decreases |payloads|
  {
    var shorter, last := payloads[..|payloads| - 1], payloads[|payloads| - 1];
    if o in Unsendable(kind, shorter) {
      g := UnsendableFrom(kind, shorter, o);
    } else {
      g := last;
    }
  }

  lemma UnsentOutcome(server: Server, target: Target, jobs: seq<Job>, s: State, payloads: seq<Payload>,
                      rest: seq<Payload>, log: seq<Request>, o: Report)
    requires Kept(server, target, jobs, s, payloads + rest, log)
    requires o in Unsendable(target.kind, payloads) && Count(jobs, o.uid) == 1
    ensures OutcomeGrounds(server, target, log, o)
  {
    var g := UnsendableFrom(target.kind, payloads, o);
    assert g in payloads + rest;
    var t: nat, extra: seq<Uid> :| LoadedFrom(server, target, jobs, log, g, t, extra);
    CountedIn(payloads + rest, g.uid);
    NotSent(server, target, jobs, s, payloads + rest, log, o.uid, extra, t, NoNameHash);
  }

  lemma PostedKept(server: Server, target: Target, jobs: seq<Job>, s: State, payloads: seq<Payload>,
                   rest: seq<Payload>, log: seq<Request>,
                   answers: seq<Answer>, failures: map<nat, Complaint>)
    requires Kept(server, target, jobs, s, payloads + rest, log)
    requires forall g :: g in payloads ==> g.uid.volume == target.uid.volume
    requires Links(payloads) <= MAX_LINKS_PER_TRANSFER || |payloads| == 1
    requires forall link :: Find(failures, link) == Against(answers, target.uid.volume, link)
    requires Sendable(target.kind, payloads) != []
    ensures Kept(server, target, jobs, Posted(target.kind, s, payloads, failures), rest,
                 log + [Batch(Sendable(target.kind, payloads), Some(answers))])
  {
    PostedSound(target, jobs, s, payloads, rest, log, answers, failures);
    var sent := Sendable(target.kind, payloads);
    var r := Batch(sent, Some(answers));
    var s' := Posted(target.kind, s, payloads, failures);
    SendableShape(target.kind, payloads);
    forall u | Count(jobs, u) == 1 && Count(Groups(r), u) > 0
      ensures Count(s.queue, u) + Count(rest, u) + Count(s.outcomes, u) == 0
    {
      assert Balanced(jobs, s, payloads + rest, log, u);
      CountConcat(payloads, rest, u);
      SendableParts(target.kind, payloads, u);
    }
    forall job | job in s'.queue && job !in s.queue
      ensures job.it != [] && Demanded(target, log + [r], job.uid, job.it)
    {
      PostedDemands(target, s, payloads, log, answers, failures, job);
    }
    forall o | o in s'.outcomes && o !in s.outcomes && Count(jobs, o.uid) == 1
      ensures OutcomeGrounds(server, target, log + [r], o)
    {
      PostedOutcomes(server, target, jobs, s, payloads, rest, log, answers, failures, o);
    }
    forall u | u in s'.retried ensures u in s.retried || Count(Groups(r), u) > 0 {
      RecordEach(s.(outcomes := s.outcomes + Unsendable(target.kind, payloads)), sent, Given(sent, failures), u);
    }
    GroundedNext(server, target, jobs, s, payloads, rest, s', log, r);
  }

  lemma PostedDemands(target: Target, s: State, payloads: seq<Payload>, log: seq<Request>, answers: seq<Answer>,
                      failures: map<nat, Complaint>, job: Job)
    requires forall link :: Find(failures, link) == Against(answers, target.uid.volume, link)
    requires job in Posted(target.kind, s, payloads, failures).queue && job !in s.queue
    ensures job.it != []
          && Demanded(target, log + [Batch(Sendable(target.kind, payloads), Some(answers))], job.uid, job.it)
  {
    var sent := Sendable(target.kind, payloads);
    var s1 := s.(outcomes := s.outcomes + Unsendable(target.kind, payloads));
    var i := RequeuedFrom(s1, sent, Given(sent, failures), job);
    GivenAt(sent, failures, i);
    CountedIn(sent, job.uid);
    AgainstMeans(answers, target.uid.volume, job.uid.link);
    var c := Given(sent, failures)[i].value;
    assert Complains(target, Batch(sent, Some(answers)), job.uid, Complaint(c.missing, c.error));
    assert DemandedAt(target, log + [Batch(sent, Some(answers))], job.uid, job.it, |log|);
  }

  lemma UnsentKept(server: Server, target: Target, jobs: seq<Job>, s: State, payloads: seq<Payload>,
                   rest: seq<Payload>, log: seq<Request>)
    requires Kept(server, target, jobs, s, payloads + rest, log)
    requires Sendable(target.kind, payloads) == []
    ensures Kept(server, target, jobs, s.(outcomes := s.outcomes + Unsendable(target.kind, payloads)), rest, log)
  {
    UnsentSound(target, jobs, s, payloads, rest, log);
    var s' := s.(outcomes := s.outcomes + Unsendable(target.kind, payloads));
    forall o | o in s'.outcomes && Count(jobs, o.uid) == 1 ensures OutcomeGrounds(server, target, log, o) {
      if o !in s.outcomes { UnsentOutcome(server, target, jobs, s, payloads, rest, log, o); }
    }
    forall g | g in rest ensures PayloadGrounds(server, target, jobs, log, g) {
      assert g in payloads + rest;
    }
  }

  lemma CopiedKept(server: Server, target: Target, jobs: seq<Job>, s: State, photo: Payload, rest: seq<Payload>,
                   log: seq<Request>,
                   reply: CopyReply)
    requires Kept(server, target, jobs, s, [photo] + rest, log) && photo.uid.volume != target.uid.volume
    ensures Kept(server, target, jobs, Record(s, photo.uid, CopyComplaint(reply, photo.uid.volume)), rest,
                 log + [Copied(photo, reply)])
  {
    CopiedSound(target, jobs, s, photo, rest, log, reply);
    var failure := CopyComplaint(reply, photo.uid.volume);
    var r, s' := Copied(photo, reply), Record(s, photo.uid, failure);
    forall u | Count(jobs, u) == 1 && Count(Groups(r), u) > 0
      ensures Count(s.queue, u) + Count(rest, u) + Count(s.outcomes, u) == 0
    {
      assert Balanced(jobs, s, [photo] + rest, log, u);
      assert ([photo] + rest)[1..] == rest;
      CountedIn([photo], u);
    }
    forall job | job in s'.queue && job !in s.queue
      ensures job.it != [] && Demanded(target, log + [r], job.uid, job.it)
    {
      assert Complains(target, r, job.uid, Complaint(job.it, failure.value.error));
      assert DemandedAt(target, log + [r], job.uid, job.it, |log|);
    }
    forall o | o in s'.outcomes && o !in s.outcomes && Count(jobs, o.uid) == 1
      ensures OutcomeGrounds(server, target, log + [r], o)
    {
      assert (log + [r])[..|log|] == log;
      if failure.Some? { assert Complains(target, r, o.uid, failure.value); }
      assert SettledAt(target, log + [r], o, |log|);
    }
    GroundedNext(server, target, jobs, s, [photo], rest, s', log, r);
  }

  lemma LoadedKept(server: Server, target: Target, jobs: seq<Job>, s: State, hand: seq<Payload>, payload: Payload,
                   hand': seq<Payload>,
                   log: seq<Request>, t: nat)
    requires Kept(server, target, jobs, s, hand, log) && s.queue != [] && payload.uid == s.queue[0].uid
    requires Loaded(server.drive(t), target, s.queue[0]) == Ok(payload.it)
    requires forall u :: Count(hand', u) == Count(hand, u) + (if payload.uid == u then 1 else 0)
    requires forall g :: g in hand' ==> g in hand || g == payload
    ensures Kept(server, target, jobs, s.(queue := s.queue[1..]), hand', log)
  {
    LoadedSound(target, jobs, s, hand, hand', log);
    assert s.queue[0] == About(payload.uid, s.queue[0].it) && s.queue[0] in s.queue;
    assert LoadedFrom(server, target, jobs, log, payload, t, s.queue[0].it);
  }

  lemma UnloadableKept(server: Server, target: Target, jobs: seq<Job>, s: State, hand: seq<Payload>,
                       log: seq<Request>, error: Failure, t: nat)
    requires Kept(server, target, jobs, s, hand, log) && s.queue != []
    requires Loaded(server.drive(t), target, s.queue[0]) == Err(error)
    ensures Kept(server, target, jobs,
              s.(queue := s.queue[1..], outcomes := s.outcomes + [About(s.queue[0].uid, Err(error))]), hand, log)
  {
    UnloadableSound(target, jobs, s, hand, log, error);
    var job := s.queue[0];
    assert job in s.queue && job == About(job.uid, job.it);
    if Count(jobs, job.uid) == 1 {
      CountedIn(s.queue, job.uid);
      NotSent(server, target, jobs, s, hand, log, job.uid, job.it, t, error);
    }
  }

  /** A photo asked for once that goes out again carries every related photo that an
      earlier request was told is missing and that can be built. */
  lemma SecondSendCarriesDemanded(server: Server, target: Target, jobs: seq<Job>, log: seq<Request>, k: nat, g: Payload)
    returns (t: nat, missing: seq<Uid>)
    requires k < |log| && SentGrounds(server, target, jobs, log, k) && g in Groups(log[k])
    requires Count(jobs, g.uid) == 1 && Sends(log[..k], g.uid) > 0
    ensures missing != [] && Demanded(target, log[..k], g.uid, missing)
    ensures forall m :: m in missing && server.drive(t).photo(m).Ok? ==> server.drive(t).photo(m).value in g.it.related
  {
    t, missing :| LoadedFrom(server, target, jobs, log[..k], g, t, missing);
    forall m | m in missing && server.drive(t).photo(m).Ok? ensures server.drive(t).photo(m).value in g.it.related {
      RetryCarriesDemanded(server.drive(t), target, About(g.uid, missing), m);
    }
  }

  /** A photo asked for once whose first request was refused with related photos missing
      goes out again, or, asked for with just those, could not be loaded or sent. */
  lemma FirstDemandIsRetried(server: Server, target: Target, log: seq<Request>, r: Report, k: nat, c: Complaint)
    requires OutcomeGrounds(server, target, log, r) && k < |log| && Sends(log[..k], r.uid) == 0
    requires Complains(target, log[k], r.uid, c) && c.missing != []
    ensures || (exists m :: k < m < |log| && Count(Groups(log[m]), r.uid) > 0)
            || (exists t: nat :: UnsentAt(server, target, log, r, t, c.missing))
  {
    CountedOne(log[k], target, r.uid, c);
    if last: nat :| SettledAt(target, log, r, last) {
      if last == k {
        OneComplaint(target, log[k], r.uid, c, c);
        var d :| Complains(target, log[k], r.uid, d) && (d.missing == [] || Sends(log[..k], r.uid) > 0);
        OneComplaint(target, log[k], r.uid, c, d);
        assert false;
      }
    } else {
      var t: nat, extra: seq<Uid> :| UnsentAt(server, target, log, r, t, extra);
      CarriedWasSent(log, r.uid, k);
      var j: nat :| DemandedAt(target, log, r.uid, extra, j);
      var error :| Complains(target, log[j], r.uid, Complaint(extra, error));
      CountedOne(log[j], target, r.uid, Complaint(extra, error));
      SentOnce(log, r.uid, j, k);
      OneComplaint(target, log[k], r.uid, c, Complaint(extra, error));
    }
  }

  lemma CountedOne(r: Request, target: Target, uid: Uid, c: Complaint)
    requires Complains(target, r, uid, c)
    ensures Count(Groups(r), uid) > 0
  {
  }

  lemma {:induction false} SentOnce(log: seq<Request>, uid: Uid, j: nat, k: nat)
    requires j < |log| && k < |log| && Sends(log, uid) <= 1
    requires Count(Groups(log[j]), uid) > 0 && Count(Groups(log[k]), uid) > 0
    ensures j == k
    decreases |log|
  {
    var last := |log| - 1;
    if j < last && k < last {
      SentOnce(log[..last], uid, j, k);
    } else if j < k {
      CarriedWasSent(log[..last], uid, j);
    } else if k < j {
      CarriedWasSent(log[..last], uid, k);
    }
  }

  // --------------------------------------------------------------------- the server

  /** What the server does is any function of what it is asked and when. */
  datatype Server = Server(
    drive: nat -> Drive, reply: (nat, seq<Payload>) -> Option<seq<Answer>>, copy: (nat, Payload) -> CopyReply)

  ghost predicate LoadedAt(server: Server, target: Target, queue: seq<Job>, g: Payload, k: nat, t: nat) {
    k < |queue| && queue[k].uid == g.uid && Loaded(server.drive(t), target, queue[k]) == Ok(g.it)
  }

  /** A payload is what some queued entry loaded as. */
  ghost predicate FromQueue(server: Server, target: Target, queue: seq<Job>, g: Payload) {
    exists k: nat, t: nat :: LoadedAt(server, target, queue, g, k, t)
  }

  // --------------------------------------------------------------- cutting into batches

  /** Whether a batch must be closed before this group. */
  predicate Overflows(batch: seq<Payload>, next: Payload) {
    batch != [] && Links(batch) + 1 + |next.it.related| > MAX_LINKS_PER_TRANSFER
  }

  /** The batches that `same` is cut into, the first one begun with `batch`. */
  function Cuts(batch: seq<Payload>, same: seq<Payload>): seq<seq<Payload>>
    decreases |same|
  {
    if same == [] then (if batch == [] then [] else [batch])
    else if Overflows(batch, same[0]) then [batch] + Cuts([same[0]], same[1..])
    else Cuts(batch + [same[0]], same[1..])
  }

  function Joined(cuts: seq<seq<Payload>>): seq<Payload> {
    if cuts == [] then [] else cuts[0] + Joined(cuts[1..])
  }

  /** Each batch is within ten links or a single group, and is closed only because the
      first group of the next one would have overflowed it. */
  ghost predicate TightCuts(cuts: seq<seq<Payload>>) {
    && (forall k :: 0 <= k < |cuts| ==>
          cuts[k] != [] && Fits(cuts[k]))
    && (forall k, l :: 0 <= k < l < |cuts| && l == k + 1 ==>
          cuts[l] != [] && Links(cuts[k] + [cuts[l][0]]) > MAX_LINKS_PER_TRANSFER)
  }

  predicate Fits(batch: seq<Payload>) {
    Links(batch) <= MAX_LINKS_PER_TRANSFER || |batch| == 1
  }

  lemma PrependTight(batch: seq<Payload>, cuts: seq<seq<Payload>>)
    requires TightCuts(cuts) && cuts != [] && batch != [] && Fits(batch) && Overflows(batch, cuts[0][0])
    ensures TightCuts([batch] + cuts)
  {
    var longer := [batch] + cuts;
    OneOver(batch, cuts[0][0], []);
    forall k, l | 0 <= k < l < |longer| && l == k + 1
      ensures longer[l] != [] && Links(longer[k] + [longer[l][0]]) > MAX_LINKS_PER_TRANSFER
    {
      assert longer[l] == cuts[k];
      assert k > 0 ==> longer[k] == cuts[k - 1];
    }
  }

  /** Cutting loses nothing and keeps the order. */
  lemma {:induction false} CutsJoin(batch: seq<Payload>, same: seq<Payload>)
    ensures Joined(Cuts(batch, same)) == batch + same
    decreases |same|
  {
    if same == [] {
      assert batch + same == batch;
      if batch != [] { assert Joined([batch]) == batch + Joined([batch][1..]); }
    } else {
      var next, rest := same[0], same[1..];
      assert batch + same == batch + ([next] + rest);
      if Overflows(batch, next) {
        CutsJoin([next], rest);
        assert ([batch] + Cuts([next], rest))[1..] == Cuts([next], rest);
      } else {
        CutsJoin(batch + [next], rest);
        assert (batch + [next]) + rest == batch + ([next] + rest);
      }
    }
  }

  lemma {:induction false} CutsAreTight(batch: seq<Payload>, same: seq<Payload>)
    requires Fits(batch)
    ensures TightCuts(Cuts(batch, same))
    ensures batch != [] ==> Cuts(batch, same) != [] && Cuts(batch, same)[0] != [] && Cuts(batch, same)[0][0] == batch[0]
    decreases |same|
  {
    if same != [] {
      var next, rest := same[0], same[1..];
      OneOver(batch, next, rest);
      if Overflows(batch, next) {
        assert |[next]| == 1;
        CutsAreTight([next], rest);
        PrependTight(batch, Cuts([next], rest));
      } else {
        if batch == [] { assert [] + [next] == [next]; }
        CutsAreTight(batch + [next], rest);
      }
    }
  }

  /** What the requests of a log carried. */
  ghost function SentGroups(log: seq<Request>): seq<seq<Payload>> {
    if log == [] then [] else SentGroups(log[..|log| - 1]) + [Groups(log[|log| - 1])]
  }

  /** The request one batch makes, if any of it can be sent. */
  function OneSent(kind: Kind, payloads: seq<Payload>): seq<seq<Payload>> {
    if Sendable(kind, payloads) == [] then [] else [Sendable(kind, payloads)]
  }

  function AllSent(kind: Kind, cuts: seq<seq<Payload>>): seq<seq<Payload>> {
    if cuts == [] then [] else OneSent(kind, cuts[0]) + AllSent(kind, cuts[1..])
  }

  /** The requests that what is left, begun with `batch`, comes down to. */
  function StillToSend(kind: Kind, batch: seq<Payload>, left: seq<Payload>): seq<seq<Payload>> {
    AllSent(kind, Cuts(batch, left))
  }

  lemma SendsNext(kind: Kind, batch: seq<Payload>, left: seq<Payload>)
    requires left != []
    ensures StillToSend(kind, batch, left) ==
            if Overflows(batch, left[0]) then OneSent(kind, batch) + StillToSend(kind, [left[0]], left[1..])
            else StillToSend(kind, batch + [left[0]], left[1..])
  {
    if Overflows(batch, left[0]) {
      var later := Cuts([left[0]], left[1..]);
      assert ([batch] + later)[1..] == later;
    }
  }

  lemma SendsLast(kind: Kind, batch: seq<Payload>)
    ensures StillToSend(kind, batch, []) == if batch == [] then [] else OneSent(kind, batch)
  {
    if batch != [] {
      assert Cuts(batch, []) == [batch] && [batch][1..] == [];
      assert AllSent(kind, [batch]) == OneSent(kind, batch) + AllSent(kind, []);
      assert OneSent(kind, batch) + [] == OneSent(kind, batch);
    }
  }

  ghost predicate AllOn(target: Target, payloads: seq<Payload>) {
    forall g :: g in payloads ==> g.uid.volume == target.uid.volume
  }

  /** Taking the next group from what is left. */
  lemma NextGroup(target: Target, batch: seq<Payload>, left: seq<Payload>)
    requires left != [] && AllOn(target, batch + left)
    ensures AllOn(target, batch + [left[0]]) && AllOn(target, [left[0]] + left[1..])
    ensures AllOn(target, (batch + [left[0]]) + left[1..])
  {
    assert forall g :: g in batch || g in left ==> g in batch + left;
    assert left[0] in left && forall g :: g in left[1..] ==> g in left;
  }

  lemma HeadAndRest(left: seq<Payload>, cross: seq<Payload>)
    requires left != []
    ensures left + cross == [left[0]] + (left[1..] + cross)
  {
  }

  /** What was sent and what is still to be sent add up. */
  lemma AddsUp(all: seq<seq<Payload>>, sent: seq<seq<Payload>>, one: seq<seq<Payload>>, later: seq<seq<Payload>>)
    requires all == sent + (one + later)
    ensures all == (sent + one) + later
  {
  }

  // --------------------------------------------------------------------- the transfer

  class Transfer {
    const target: Target
    var queue: seq<Job>
    var retried: set<Uid>
    var outcomes: seq<Report>
    /** Counts calls out, so that the server may answer each differently. */
    var clock: nat
    ghost var log: seq<Request>

    constructor (target: Target, uids: seq<Uid>)
      ensures this.target == target && Now() == State(Asked(uids), {}, []) && log == []
    {
      this.target := target;
      queue := Asked(uids);
      retried, outcomes, clock, log := {}, [], 0, [];
    }

    ghost function Now(): State
      reads this
    {
      State(queue, retried, outcomes)
    }

    method RecordTransferOutcome(uid: Uid, failure: Option<Complaint>)
      modifies this`queue, this`retried, this`outcomes
      ensures Now() == Record(old(Now()), uid, failure)
      ensures if failure.Some? && failure.value.missing != [] && uid !in old(retried)
              then queue == old(queue) + [About(uid, failure.value.missing)] && outcomes == old(outcomes)
              else queue == old(queue) && |outcomes| == |old(outcomes)| + 1
    {
      if failure.None? {
        outcomes := outcomes + [About(uid, Ok(()))];
      } else if failure.value.missing != [] && uid !in retried {
        retried := retried + {uid};
        queue := queue + [About(uid, failure.value.missing)];
      } else {
        outcomes := outcomes + [About(uid, Err(failure.value.error))];
      }
    }

    method RecordTransferOutcomes(sent: seq<Payload>, answers: seq<Answer>)
      returns (ghost failures: map<nat, Complaint>)
      modifies this`queue, this`retried, this`outcomes
      ensures forall link :: Find(failures, link) == Against(answers, target.uid.volume, link)
      ensures Now() == RecordAll(old(Now()), sent, Given(sent, failures))
    {
      var left := Failures(answers, target.uid.volume);
      failures := left;
      var i: nat := 0;
      assert sent[0..] == sent;
      while i < |sent|
        invariant i <= |sent|
        invariant RecordAll(Now(), sent[i..], Given(sent[i..], left))
                  == RecordAll(old(Now()), sent, Given(sent, failures))
      {
        var link := sent[i].uid.link;
        assert sent[i..][1..] == sent[i + 1..];
        assert Given(sent[i..], left)[1..] == Given(sent[i + 1..], left - {link});
        RecordTransferOutcome(sent[i].uid, Find(left, link));
        left := left - {link};
        i := i + 1;
      }
    }

    /** Fail the photos that a request cannot carry and keep the others. */
    method FailUnsendable(payloads: seq<Payload>) returns (sent: seq<Payload>)
      modifies this`outcomes
      ensures sent == Sendable(target.kind, payloads)
      ensures outcomes == old(outcomes) + Unsendable(target.kind, payloads)
    {
      sent := [];
      var i := 0;
      while i < |payloads|
        invariant 0 <= i <= |payloads|
        invariant sent == Sendable(target.kind, payloads[..i])
        invariant outcomes == old(outcomes) + Unsendable(target.kind, payloads[..i])
      {
        assert payloads[..i + 1][..i] == payloads[..i];
        if target.kind.Album? || Movable(payloads[i].it) {
          sent := sent + [payloads[i]];
        } else {
          outcomes := outcomes + [About(payloads[i].uid, Err(NoNameHash))];
        }
        i := i + 1;
      }
      assert payloads[..i] == payloads;
    }

    /** Send one batch. On an answer, its photos are all accounted for. */
    method TransferPhotoBatch(server: Server, payloads: seq<Payload>, ghost jobs: seq<Job>, ghost rest: seq<Payload>)
      returns (ok: bool)
      requires payloads != [] && forall g :: g in payloads ==> g.uid.volume == target.uid.volume
      requires Links(payloads) <= MAX_LINKS_PER_TRANSFER || |payloads| == 1
      requires Kept(server, target, jobs, Now(), payloads + rest, log)
      modifies this
      ensures ok ==> Kept(server, target, jobs, Now(), rest, log)
      ensures ok ==> |queue| + |old(retried)| == |old(queue)| + |retried|
      ensures ok ==> SentGroups(log) == SentGroups(old(log)) + OneSent(target.kind, payloads)
      ensures !ok ==> log == old(log) + [Batch(Sendable(target.kind, payloads), None)]
    {
      ghost var s0 := Now();
      var sent := FailUnsendable(payloads);
      if sent == [] {
        UnsentKept(server, target, jobs, s0, payloads, rest, log);
        assert SentGroups(log) + [] == SentGroups(log);
        return true;
      }
      var reply := server.reply(clock, sent);
      clock := clock + 1;
      log := log + [Batch(sent, reply)];
      if reply.None? {
        return false;
      }
      ghost var s1 := Now();
      ghost var failures := RecordTransferOutcomes(sent, reply.value);
      PostedKept(server, target, jobs, s0, payloads, rest, old(log), reply.value, failures);
      RecordEach(s1, sent, Given(sent, failures), payloads[0].uid);
      assert log[..|log| - 1] == old(log);
      return true;
    }

    /** Copy one photo from another volume. */
    method CopyPhotoToTarget(server: Server, photo: Payload, ghost jobs: seq<Job>, ghost rest: seq<Payload>)
      requires photo.uid.volume != target.uid.volume && Kept(server, target, jobs, Now(), [photo] + rest, log)
      modifies this
      ensures Kept(server, target, jobs, Now(), rest, log)
      ensures |queue| + |old(retried)| == |old(queue)| + |retried|
    {
      var reply := server.copy(clock, photo);
      var failure := CopyComplaint(reply, photo.uid.volume);
      clock := clock + 1;
      CopiedKept(server, target, jobs, Now(), photo, rest, log, reply);
      RecordOne(Now(), photo.uid, failure, photo.uid);
      RecordTransferOutcome(photo.uid, failure);
      log := log + [Copied(photo, reply)];
    }

    /** Load the payloads of up to twenty queued photos. */
    method LoadRound(server: Server, ghost jobs: seq<Job>) returns (same: seq<Payload>, cross: seq<Payload>)
      requires Kept(server, target, jobs, Now(), [], log)
      modifies this
      ensures Kept(server, target, jobs, Now(), same + cross, log)
      ensures retried == old(retried) && log == old(log)
      ensures queue == old(queue)[if |old(queue)| < LOAD_BATCH then |old(queue)| else LOAD_BATCH..]
      ensures |same| + |cross| <= LOAD_BATCH
      ensures forall g :: g in same + cross ==> FromQueue(server, target, old(queue), g)
      ensures forall g :: g in same ==> g.uid.volume == target.uid.volume
      ensures forall g :: g in cross ==> g.uid.volume != target.uid.volume
    {
      same, cross := [], [];
      var i := 0;
      while i < LOAD_BATCH && queue != []
        invariant 0 <= i <= LOAD_BATCH && |same| + |cross| <= i
        invariant Kept(server, target, jobs, Now(), same + cross, log)
        invariant retried == old(retried) && log == old(log) && i <= |old(queue)| && queue == old(queue)[i..]
        invariant forall g :: g in same + cross ==> FromQueue(server, target, old(queue), g)
        invariant forall g :: g in same ==> g.uid.volume == target.uid.volume
        invariant forall g :: g in cross ==> g.uid.volume != target.uid.volume
      {
        ghost var s0, hand := Now(), same + cross;
        var job := queue[0];
        var body := TransferPhotoPayload(server.drive(clock), target, job);
        queue := queue[1..];
        clock := clock + 1;
        if body.Err? {
          UnloadableKept(server, target, jobs, s0, hand, log, body.error, clock - 1);
          outcomes := outcomes + [About(job.uid, Err(body.error))];
        } else {
          var payload := About(job.uid, body.value);
          assert job == old(queue)[i];
          assert LoadedAt(server, target, old(queue), payload, i, clock - 1);
          OneMoreInHand(same, cross, payload);
          if payload.uid.volume == target.uid.volume {
            LoadedKept(server, target, jobs, s0, hand, payload, same + [payload] + cross, log, clock - 1);
            same := same + [payload];
          } else {
            LoadedKept(server, target, jobs, s0, hand, payload, same + (cross + [payload]), log, clock - 1);
            cross := cross + [payload];
          }
        }
        i := i + 1;
      }
    }

    /** Put the next group into the batch, sending the batch first if the group would
        overflow it. */
    method AddGroup(server: Server, batch: seq<Payload>, links: nat, next: Payload,
                    ghost jobs: seq<Job>, ghost rest: seq<Payload>)
      returns (ok: bool, longer: seq<Payload>, count: nat)
      requires links == Links(batch) && (links <= MAX_LINKS_PER_TRANSFER || |batch| == 1)
      requires forall g :: g in batch + [next] ==> g.uid.volume == target.uid.volume
      requires Kept(server, target, jobs, Now(), batch + ([next] + rest), log)
      modifies this
      ensures ok ==> Kept(server, target, jobs, Now(), longer + rest, log)
      ensures ok ==> longer == if Overflows(batch, next) then [next] else batch + [next]
      ensures ok ==> count == Links(longer) && (count <= MAX_LINKS_PER_TRANSFER || |longer| == 1)
      ensures ok ==> |queue| + |old(retried)| == |old(queue)| + |retried|
      ensures ok && Overflows(batch, next) ==> SentGroups(log) == SentGroups(old(log)) + OneSent(target.kind, batch)
      ensures ok && !Overflows(batch, next) ==> log == old(log)
      ensures !ok ==> log != [] && log[|log| - 1].Batch? && log[|log| - 1].answers.None?
    {
      longer, count, ok := batch, links, true;
      if batch != [] && links + 1 + |next.it.related| > MAX_LINKS_PER_TRANSFER {
        ok := TransferPhotoBatch(server, batch, jobs, [next] + rest);
        if !ok {
          return;
        }
        longer, count := [], 0;
        assert [] + ([next] + rest) == [next] + rest;
      }
      OneOver(longer, next, rest);
      assert [] + [next] == [next];
      longer, count := longer + [next], count + 1 + |next.it.related|;
    }

    /** Send the target volume's photos, closing a batch only before a group that would
        overflow it. */
    method SendBatches(server: Server, same: seq<Payload>, ghost jobs: seq<Job>, ghost cross: seq<Payload>)
      returns (ok: bool)
      requires Kept(server, target, jobs, Now(), same + cross, log)
      requires forall g :: g in same ==> g.uid.volume == target.uid.volume
      modifies this
      ensures ok ==> Kept(server, target, jobs, Now(), cross, log)
      ensures ok ==> |queue| + |old(retried)| == |old(queue)| + |retried|
      ensures ok ==> SentGroups(log) == SentGroups(old(log)) + StillToSend(target.kind, [], same)
      ensures !ok ==> log != [] && log[|log| - 1].Batch? && log[|log| - 1].answers.None?
    {
      var batch: seq<Payload>, links: nat, left := [], 0, same;
      ghost var all := SentGroups(log) + StillToSend(target.kind, [], same);
      assert [] + (left + cross) == same + cross;
      while left != []
        invariant links == Links(batch) && Fits(batch) && AllOn(target, batch + left)
        invariant Kept(server, target, jobs, Now(), batch + (left + cross), log)
        invariant |queue| + |old(retried)| == |old(queue)| + |retried|
        invariant all == SentGroups(log) + StillToSend(target.kind, batch, left)
        decreases |left|
      {
        ghost var sent, batch0 := SentGroups(log), batch;
        var next, later := left[0], left[1..];
        NextGroup(target, batch, left);
        HeadAndRest(left, cross);
        SendsNext(target.kind, batch, left);
        ok, batch, links := AddGroup(server, batch, links, next, jobs, later + cross);
        if !ok {
          return false;
        }
        if Overflows(batch0, next) {
          AddsUp(all, sent, OneSent(target.kind, batch0), StillToSend(target.kind, batch, later));
        }
        left := later;
      }
      assert left + cross == cross && [] + cross == cross;
      SendsLast(target.kind, batch);
      if batch != [] {
        ok := TransferPhotoBatch(server, batch, jobs, cross);
        return;
      }
      return true;
    }

    method SendCopies(server: Server, cross: seq<Payload>, ghost jobs: seq<Job>)
      requires Kept(server, target, jobs, Now(), cross, log)
      requires forall g :: g in cross ==> g.uid.volume != target.uid.volume
      modifies this
      ensures Kept(server, target, jobs, Now(), [], log)
      ensures |queue| + |old(retried)| == |old(queue)| + |retried|
    {
      var i := 0;
      assert cross[0..] == cross;
      while i < |cross|
        invariant 0 <= i <= |cross|
        invariant Kept(server, target, jobs, Now(), cross[i..], log)
        invariant |queue| + |old(retried)| == |old(queue)| + |retried|
      {
        assert [cross[i]] + cross[i + 1..] == cross[i..];
        CopyPhotoToTarget(server, cross[i], jobs, cross[i + 1..]);
        i := i + 1;
      }
      assert cross[i..] == [];
    }
  }

  lemma OneMoreInHand(same: seq<Payload>, cross: seq<Payload>, payload: Payload)
    ensures forall u ::
              Count(same + [payload] + cross, u) == Count(same + cross, u) + (if payload.uid == u then 1 else 0)
    ensures forall u ::
              Count(same + (cross + [payload]), u) == Count(same + cross, u) + (if payload.uid == u then 1 else 0)
  {
    forall u
      ensures Count(same + [payload] + cross, u) == Count(same + cross, u) + (if payload.uid == u then 1 else 0)
      ensures Count(same + (cross + [payload]), u) == Count(same + cross, u) + (if payload.uid == u then 1 else 0)
    {
      CountConcat(same, cross, u);
      CountConcat(same, [payload], u);
      CountConcat(same + [payload], cross, u);
      CountConcat(cross, [payload], u);
      CountConcat(same, cross + [payload], u);
    }
  }

  function Asked(uids: seq<Uid>): seq<Job> {
    seq(|uids|, i requires 0 <= i < |uids| => About(uids[i], []))
  }

  lemma RetriedAreAsked(target: Target, uids: seq<Uid>, s: State, log: seq<Request>)
    requires Sound(target, Asked(uids), s, [], log)
    ensures |s.retried| <= |set u | u in uids|
  {
    var asked := set u | u in uids;
    forall u | u in s.retried ensures u in asked {
      assert Balanced(Asked(uids), s, [], log, u);
      CountedIn(Asked(uids), u);
    }
    SubsetSmaller(s.retried, asked);
  }

  /** Bring `uids` into the target: against any server the queue empties, and unless a
      whole batch goes unanswered every request for a photo gets one outcome. */
  method TransferPhotos(server: Server, target: Target, uids: seq<Uid>)
    returns (r: Option<seq<Report>>, ghost log: seq<Request>)
    ensures r.Some? ==> forall u :: Count(r.value, u) == Count(Asked(uids), u)
    ensures r.Some? ==> forall u :: Count(Asked(uids), u) == 1 ==>
              (Took(log, u) <==> About(u, Ok(())) in r.value) && Sends(log, u) <= 2
    ensures r.Some? ==> forall u :: Sends(log, u) <= if u in uids then Count(Asked(uids), u) + 1 else 0
    ensures r.Some? ==> forall request :: request in log ==> Shaped(target, request)
    ensures r.Some? ==> forall k :: 0 <= k < |log| ==> SentGrounds(server, target, Asked(uids), log, k)
    ensures r.Some? ==> forall o :: o in r.value && Count(Asked(uids), o.uid) == 1 ==>
              OutcomeGrounds(server, target, log, o)
    ensures r.None? ==> log != [] && log[|log| - 1].Batch? && log[|log| - 1].answers.None?
  {
    var transfer := new Transfer(target, uids);
    ghost var jobs, asked := Asked(uids), set u | u in uids;
    forall u ensures Balanced(jobs, transfer.Now(), [], [], u) {
    }
    assert Grounded(server, target, jobs, transfer.Now(), [], transfer.log);
    RetriedAreAsked(target, uids, transfer.Now(), transfer.log);
    while transfer.queue != []
      invariant transfer.target == target && fresh(transfer)
      invariant Kept(server, target, jobs, transfer.Now(), [], transfer.log)
      invariant |transfer.retried| <= |asked|
      decreases |transfer.queue| + |asked| - |transfer.retried|
    {
      var same, cross := transfer.LoadRound(server, jobs);
      var ok := transfer.SendBatches(server, same, jobs, cross);
      if !ok {
        return None, transfer.log;
      }
      transfer.SendCopies(server, cross, jobs);
      RetriedAreAsked(target, uids, transfer.Now(), transfer.log);
    }
    r, log := Some(transfer.outcomes), transfer.log;
    forall u
      ensures Count(r.value, u) == Count(jobs, u)
      ensures Count(jobs, u) == 1 ==> (Took(log, u) <==> About(u, Ok(())) in r.value)
      ensures Sends(log, u) <= if u in uids then Count(jobs, u) + 1 else 0
    {
      assert Balanced(jobs, transfer.Now(), [], log, u);
      CountedIn(jobs, u);
      if Count(jobs, u) > 0 {
        var i :| 0 <= i < |jobs| && jobs[i].uid == u;
        assert uids[i] == u;
      }
    }
  }
}
