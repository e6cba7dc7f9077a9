/** The content manifest: signed by the upload, rebuilt by the download from what is listed. */
module Manifest {
  import opened Bytes
  import opened Wrappers
  import opened Sorting
  import opened TransferSteps
  import opened TransferMoves
  import opened TransferPool

  type Digest = seq<byte>

  /** A thumbnail as encrypted for upload. */
  datatype Thumbnail = Thumbnail(kind: int, digest: Digest)

  /** A thumbnail as a revision lists it; the digest may be missing. */
  datatype ThumbnailDto = ThumbnailDto(kind: int, hash: Option<Digest>)

  /** What storing one content block reports. */
  datatype StoredBlock = StoredBlock(index: nat, digest: Digest)

  function Kind(t: Thumbnail): int { t.kind }
  function DtoKind(t: ThumbnailDto): int { t.kind }
  function Index(b: StoredBlock): int { b.index }
  function Self(n: nat): int { n }

  function ThumbnailDigests(ts: seq<Thumbnail>): seq<Digest> {
    if ts == [] then [] else [ts[0].digest] + ThumbnailDigests(ts[1..])
  }

  function DtoDigests(ts: seq<ThumbnailDto>): seq<Digest> {
    if ts == [] then []
    else (if ts[0].hash.Some? then [ts[0].hash.value] else []) + DtoDigests(ts[1..])
  }

  function BlockDigests(bs: seq<StoredBlock>): seq<Digest> {
    if bs == [] then [] else [bs[0].digest] + BlockDigests(bs[1..])
  }

  // ---------------------------------------------------------------- the methods

  /** The manifest an upload signs. */
  method AssembleManifest(thumbnails: seq<Digest>, blocks: seq<StoredBlock>) returns (manifest: seq<byte>)
    ensures manifest == Flatten(thumbnails) + Flatten(BlockDigests(SortBy(blocks, Index)))
  {
    var sorted := SortBy(blocks, Index);
    manifest := [];
    for i := 0 to |thumbnails|
      invariant Flatten(thumbnails) == manifest + Flatten(thumbnails[i..])
    {
      manifest := manifest + thumbnails[i];
    }
    for i := 0 to |sorted|
      invariant Flatten(thumbnails) + Flatten(BlockDigests(sorted)) == manifest + Flatten(BlockDigests(sorted[i..]))
    {
      assert sorted[i..][1..] == sorted[i + 1..];
      assert Flatten(BlockDigests(sorted[i..])) == sorted[i].digest + Flatten(BlockDigests(sorted[i + 1..]));
      manifest := manifest + sorted[i].digest;
    }
  }

  /** The manifest a download rebuilds: listed thumbnails by type, then the
      digests of the blocks in the order they are delivered. */
  method RebuildManifest(listed: seq<ThumbnailDto>, delivered: seq<Digest>) returns (manifest: seq<byte>)
    ensures manifest == Flatten(DtoDigests(SortBy(listed, DtoKind))) + Flatten(delivered)
  {
    var sorted := SortBy(listed, DtoKind);
    manifest := [];
    for i := 0 to |sorted|
      invariant Flatten(DtoDigests(sorted)) == manifest + Flatten(DtoDigests(sorted[i..]))
    {
      assert sorted[i..][1..] == sorted[i + 1..];
      match sorted[i].hash {
        case Some(digest) =>
          assert Flatten(DtoDigests(sorted[i..])) == digest + Flatten(DtoDigests(sorted[i + 1..]));
          manifest := manifest + digest;
        case None =>
          assert DtoDigests(sorted[i..]) == DtoDigests(sorted[i + 1..]);
      }
    }
    for i := 0 to |delivered|
      invariant Flatten(DtoDigests(sorted)) + Flatten(delivered) == manifest + Flatten(delivered[i..])
    {
      manifest := manifest + delivered[i];
    }
  }

  // ------------------------------------------------------- completion order

  /** What the uploader reports when blocks complete in the order `stored`. */
  function Report(stored: seq<nat>, digest: nat -> Digest): seq<StoredBlock> {
    if stored == [] then [] else [StoredBlock(stored[0], digest(stored[0]))] + Report(stored[1..], digest)
  }

  lemma {:induction false} InsertReport(n: nat, s: seq<nat>, digest: nat -> Digest)
    ensures Insert(StoredBlock(n, digest(n)), Report(s, digest), Index) == Report(Insert(n, s, Self), digest)
  {
    if s != [] && s[0] < n {
      InsertReport(n, s[1..], digest);
      assert Report(s, digest)[1..] == Report(s[1..], digest);
      assert ([s[0]] + Insert(n, s[1..], Self))[1..] == Insert(n, s[1..], Self);
    } else {
      assert ([n] + s)[1..] == s;
    }
  }

  lemma {:induction false} SortReport(s: seq<nat>, digest: nat -> Digest)
    ensures SortBy(Report(s, digest), Index) == Report(SortBy(s, Self), digest)
  {
    if s != [] {
      SortReport(s[1..], digest);
      assert Report(s, digest)[1..] == Report(s[1..], digest);
      InsertReport(s[0], SortBy(s[1..], Self), digest);
    }
  }

  lemma {:induction false} CountIsMultiplicity(s: seq<nat>, x: nat)
    ensures multiset(s)[x] == Count(s, x)
  {
    if s != [] {
      CountIsMultiplicity(s[1..], x);
      assert s == [s[0]] + s[1..];
    }
  }

  /** Blocks stored once each, in any order, sort back into block order. */
  lemma AnyOrderSorts(stored: seq<nat>, n: nat)
    requires forall b: nat :: Count(stored, b) == if 1 <= b <= n then 1 else 0
    ensures SortBy(stored, Self) == Range(1, n + 1)
  {
    var ordered: seq<nat> := Range(1, n + 1);
    forall x: nat ensures multiset(stored)[x] == multiset(ordered)[x] {
      CountIsMultiplicity(stored, x);
      CountIsMultiplicity(ordered, x);
      CountRange(1, n + 1, x);
    }
    assert multiset(stored) == multiset(ordered);
    SortIgnoresOrder(ordered, stored, Self);
    SortOfSorted(ordered, Self);
  }

  function InBlockOrder(a: nat, b: nat, digest: nat -> Digest): seq<Digest>
    decreases b - a
  {
    if a < b then [digest(a)] + InBlockOrder(a + 1, b, digest) else []
  }

  lemma {:induction false} ReportInOrder(a: nat, b: nat, digest: nat -> Digest)
    ensures BlockDigests(Report(Range(a, b), digest)) == InBlockOrder(a, b, digest)
    decreases b - a
  {
    if a < b {
      ReportInOrder(a + 1, b, digest);
      assert Range(a, b)[1..] == Range(a + 1, b);
      var r := Report(Range(a, b), digest);
      assert r[1..] == Report(Range(a + 1, b), digest);
    }
  }

  // ------------------------------------------------------------- thumbnails

  /** What the server lists for a thumbnail it stored. */
  function Listed(ts: seq<Thumbnail>): seq<ThumbnailDto> {
    if ts == [] then [] else [ThumbnailDto(ts[0].kind, Some(ts[0].digest))] + Listed(ts[1..])
  }

  lemma {:induction false} InsertListed(t: Thumbnail, ts: seq<Thumbnail>)
    ensures Insert(ThumbnailDto(t.kind, Some(t.digest)), Listed(ts), DtoKind) == Listed(Insert(t, ts, Kind))
  {
    if ts != [] && ts[0].kind < t.kind {
      InsertListed(t, ts[1..]);
      assert Listed(ts)[1..] == Listed(ts[1..]);
      assert ([ts[0]] + Insert(t, ts[1..], Kind))[1..] == Insert(t, ts[1..], Kind);
    } else {
      assert ([t] + ts)[1..] == ts;
    }
  }

  lemma {:induction false} SortListed(ts: seq<Thumbnail>)
    ensures SortBy(Listed(ts), DtoKind) == Listed(SortBy(ts, Kind))
  {
    if ts != [] {
      SortListed(ts[1..]);
      assert Listed(ts)[1..] == Listed(ts[1..]);
      InsertListed(ts[0], SortBy(ts[1..], Kind));
    }
  }

  lemma {:induction false} ListedDigests(ts: seq<Thumbnail>)
    ensures DtoDigests(Listed(ts)) == ThumbnailDigests(ts)
  {
    if ts != [] {
      ListedDigests(ts[1..]);
      assert Listed(ts)[1..] == Listed(ts[1..]);
    }
  }

  // ------------------------------------------------------------ main result

  /** The content half: blocks reported once each, in any order, give the
      digests in block order. */
  lemma AnyOrderReports(stored: seq<nat>, n: nat, digest: nat -> Digest)
    requires forall b: nat :: Count(stored, b) == if 1 <= b <= n then 1 else 0
    ensures BlockDigests(SortBy(Report(stored, digest), Index)) == InBlockOrder(1, n + 1, digest)
  {
    SortReport(stored, digest);
    AnyOrderSorts(stored, n);
    ReportInOrder(1, n + 1, digest);
  }

  /** The thumbnail half: with one digest a type the listing order is forgotten. */
  lemma AnyListingSorts(thumbnails: seq<Thumbnail>, listed: seq<Thumbnail>)
    requires KeyDetermines(thumbnails, Kind) && multiset(listed) == multiset(thumbnails)
    ensures DtoDigests(SortBy(Listed(listed), DtoKind)) == ThumbnailDigests(SortBy(thumbnails, Kind))
  {
    SortListed(listed);
    ListedDigests(SortBy(listed, Kind));
    SortIgnoresOrder(thumbnails, listed, Kind);
  }

  lemma FinishedUpload(pool: nat, s: State, steps: seq<Step>, i: nat)
    requires Initial(pool, s) && Run(s, steps).Some?
    requires i < |Run(s, steps).value.transfers| && Run(s, steps).value.transfers[i].Uploaded?
    ensures TransferOk(Run(s, steps).value.transfers[i])
  {
    InitialGood(pool, s);
    RunKeeps(pool, s, steps);
    assert Sound(Run(s, steps).value, i);
  }

  /** The digests a download collects, block `b` of its table being the upload's block
      `b + 1`, in the order it delivers them. */
  function DeliveredDigests(delivered: seq<nat>, digest: nat -> Digest): seq<Digest> {
    if delivered == [] then [] else [digest(delivered[0] + 1)] + DeliveredDigests(delivered[1..], digest)
  }

  lemma {:induction false} DeliveredInOrder(a: nat, b: nat, digest: nat -> Digest)
    ensures DeliveredDigests(Range(a, b), digest) == InBlockOrder(a + 1, b + 1, digest)
    decreases b - a
  {
    if a < b {
      DeliveredInOrder(a + 1, b, digest);
      assert Range(a, b)[1..] == Range(a + 1, b);
    }
  }

  lemma FinishedDownload(pool: nat, s: State, steps: seq<Step>, i: nat)
    requires Initial(pool, s) && Run(s, steps).Some?
    requires i < |Run(s, steps).value.transfers| && Run(s, steps).value.transfers[i].Downloaded?
    ensures TransferOk(Run(s, steps).value.transfers[i])
  {
    InitialGood(pool, s);
    RunKeeps(pool, s, steps);
    assert Sound(Run(s, steps).value, i);
  }

  /** For any run of the pool an upload finished in, whatever completion order and
      batches, and any run a download of as many blocks finished in, whatever order its
      fetches came back in: with one thumbnail digest of each type, the manifest the
      upload signs is the one the download rebuilds, however the server lists the
      thumbnails. */
  lemma {:induction false} SignedEqualsRebuilt(
      pool: nat, s: State, steps: seq<Step>, i: nat,
      pool': nat, s': State, steps': seq<Step>, j: nat,
      thumbnails: seq<Thumbnail>, listed: seq<Thumbnail>, digest: nat -> Digest)
    requires Initial(pool, s) && Run(s, steps).Some?
    requires i < |Run(s, steps).value.transfers| && Run(s, steps).value.transfers[i].Uploaded?
    requires Initial(pool', s') && Run(s', steps').Some?
    requires j < |Run(s', steps').value.transfers| && Run(s', steps').value.transfers[j].Downloaded?
    requires Run(s', steps').value.transfers[j].total == Run(s, steps).value.transfers[i].total
    requires KeyDetermines(thumbnails, Kind) && multiset(listed) == multiset(thumbnails)
    ensures
      Flatten(ThumbnailDigests(SortBy(thumbnails, Kind)))
        + Flatten(BlockDigests(SortBy(Report(Run(s, steps).value.transfers[i].stored, digest), Index))) ==
      Flatten(DtoDigests(SortBy(Listed(listed), DtoKind)))
        + Flatten(DeliveredDigests(Run(s', steps').value.transfers[j].delivered, digest))
  {
    FinishedUpload(pool, s, steps, i);
    FinishedDownload(pool', s', steps', j);
    var up := Run(s, steps).value.transfers[i];
    AnyOrderReports(up.stored, up.total, digest);
    AnyListingSorts(thumbnails, listed);
    DeliveredInOrder(0, up.total, digest);
  }

  /** Whatever order the server lists them in, the thumbnails rebuild the part of the
      manifest they signed. */
  ghost predicate ListingForgotten(thumbnails: seq<Thumbnail>) {
    forall listed :: multiset(listed) == multiset(thumbnails) ==>
      Flatten(DtoDigests(SortBy(Listed(listed), DtoKind))) == Flatten(ThumbnailDigests(SortBy(thumbnails, Kind)))
  }

  ghost predicate DigestsOf(size: nat, thumbnails: seq<Thumbnail>) {
    forall i :: 0 <= i < |thumbnails| ==> |thumbnails[i].digest| == size
  }

  /** That is so exactly when no two thumbnails of one type have different digests. */
  lemma ListingForgottenExactlyWhen(thumbnails: seq<Thumbnail>, size: nat)
    requires DigestsOf(size, thumbnails) && size > 0
    ensures ListingForgotten(thumbnails) <==> KeyDetermines(thumbnails, Kind)
  {
    if KeyDetermines(thumbnails, Kind) {
      forall listed | multiset(listed) == multiset(thumbnails)
        ensures Flatten(DtoDigests(SortBy(Listed(listed), DtoKind))) ==
                Flatten(ThumbnailDigests(SortBy(thumbnails, Kind)))
      {
        AnyListingSorts(thumbnails, listed);
      }
    } else {
      var i, j :| 0 <= i < |thumbnails| && 0 <= j < |thumbnails|
                  && thumbnails[i].kind == thumbnails[j].kind && thumbnails[i] != thumbnails[j];
      if i < j { SwapRebuildsAnother(thumbnails, size, i, j); } else { SwapRebuildsAnother(thumbnails, size, j, i); }
    }
  }

  lemma SwapRebuildsAnother(thumbnails: seq<Thumbnail>, size: nat, i: nat, j: nat)
    requires DigestsOf(size, thumbnails) && size > 0
    requires i < j < |thumbnails| && thumbnails[i].kind == thumbnails[j].kind && thumbnails[i] != thumbnails[j]
    ensures !ListingForgotten(thumbnails)
  {
    var swapped := Swapped(thumbnails, i, j);
    SwapShows(thumbnails, Kind, i, j);
    SortSameKeys(swapped, thumbnails, Kind);
    SortedSizes(thumbnails, size);
    SortedSizes(swapped, size);
    SortListed(swapped);
    ListedDigests(SortBy(swapped, Kind));
    if ListingForgotten(thumbnails) {
      assert DtoDigests(SortBy(Listed(swapped), DtoKind)) == ThumbnailDigests(SortBy(swapped, Kind));
      SameDigestsSameThumbnails(SortBy(swapped, Kind), SortBy(thumbnails, Kind), size);
    }
  }

  lemma SortedSizes(thumbnails: seq<Thumbnail>, size: nat)
    requires DigestsOf(size, thumbnails)
    ensures DigestsOf(size, SortBy(thumbnails, Kind))
  {
    SortByCorrect(thumbnails, Kind);
    var sorted := SortBy(thumbnails, Kind);
    forall i | 0 <= i < |sorted| ensures |sorted[i].digest| == size {
      assert sorted[i] in multiset(sorted);
      assert sorted[i] in thumbnails;
    }
  }

  /** With digests of one size, thumbnails of the same types that run together to the
      same bytes are the same. */
  lemma {:induction false} SameDigestsSameThumbnails(a: seq<Thumbnail>, b: seq<Thumbnail>, size: nat)
    requires DigestsOf(size, a) && DigestsOf(size, b) && SameKeys(a, b, Kind)
    requires Flatten(ThumbnailDigests(a)) == Flatten(ThumbnailDigests(b))
    ensures a == b
  {
    if a != [] {
      var resta, restb := Flatten(ThumbnailDigests(a[1..])), Flatten(ThumbnailDigests(b[1..]));
      assert (a[0].digest + resta)[..size] == a[0].digest && (b[0].digest + restb)[..size] == b[0].digest;
      assert (a[0].digest + resta)[size..] == resta && (b[0].digest + restb)[size..] == restb;
      FirstDigest(a);
      FirstDigest(b);
      SameDigestsSameThumbnails(a[1..], b[1..], size);
      assert Kind(a[0]) == Kind(b[0]);
      assert a == [a[0]] + a[1..] && b == [b[0]] + b[1..];
    }
  }

  lemma FirstDigest(ts: seq<Thumbnail>)
    requires ts != []
    ensures Flatten(ThumbnailDigests(ts)) == ts[0].digest + Flatten(ThumbnailDigests(ts[1..]))
  {
    assert ([ts[0].digest] + ThumbnailDigests(ts[1..]))[1..] == ThumbnailDigests(ts[1..]);
  }
}
