/** When block sizes can be trusted: exactly when they put every block where it is. */
module SizeTrust {
  import opened Bytes
  import opened Wrappers
  import opened UploadReader
  import opened RevisionReader

  // A block believed longer than it is shifts those after it; one believed shorter
  // lends its tail's place to the next. Either way some read is wrong. Only the
  // last block may be believed longer, for nothing comes after it.

  ghost predicate ReadsRight(sizes: seq<nat>, blocks: seq<seq<byte>>) {
    forall offset: nat, length: nat ::
      ReadSpec(sizes, FromBlocks(blocks), offset, length) == Ok(Slice(Flatten(blocks), offset, length))
  }

  function FromBlocks(blocks: seq<seq<byte>>): nat -> Result<seq<byte>, string> {
    (i: nat) => if i < |blocks| then Ok(blocks[i]) else Err("missing block")
  }

  /** `sizes` reads every file whose blocks have these lengths. */
  ghost predicate Trustworthy(sizes: seq<nat>, lens: seq<nat>) {
    forall blocks :: Lengths(blocks) == lens ==> ReadsRight(sizes, blocks)
  }

  /** Sizes can be trusted for every content of blocks of given lengths exactly
      when they are right for every block but the last and do not understate the
      last: padding anything but the last block shifts what follows it. */
  lemma TrustedExactlyWhenPlaced(sizes: seq<nat>, lens: seq<nat>)
    requires |sizes| == |lens| && Sum(sizes) <= U64_MAX
    requires forall i :: 0 <= i < |lens| ==> lens[i] > 0
    ensures Trustworthy(sizes, lens) <==> Placed(sizes, lens)
  {
    if Placed(sizes, lens) {
      forall blocks | Lengths(blocks) == lens ensures ReadsRight(sizes, blocks) {
        forall offset: nat, length: nat
          ensures ReadSpec(sizes, FromBlocks(blocks), offset, length) == Ok(Slice(Flatten(blocks), offset, length))
        {
          PlacedReadsSlice(sizes, blocks, FromBlocks(blocks), offset, length);
        }
      }
    } else {
      var k := FirstMismatch(sizes, lens);
      if sizes[k] > lens[k] {
        PrefixPlaces(sizes, lens, k);
        OverstatedLosesBytes(sizes, lens, Marked(lens, k), k);
      } else {
        UnderstatedMovesBytes(sizes, lens, k);
      }
      assert Lengths(Marked(lens, k)) == lens;
    }
  }

  predicate AllOnes(s: seq<byte>) {
    forall p :: 0 <= p < |s| ==> s[p] == 1
  }

  /** Block `k` all zeros, every other block all ones. */
  function Marked(lens: seq<nat>, k: nat): (blocks: seq<seq<byte>>)
    ensures Lengths(blocks) == lens
    ensures forall i :: 0 <= i < |blocks| && i != k ==> AllOnes(blocks[i])
    ensures k < |blocks| ==> forall p :: 0 <= p < |blocks[k]| ==> blocks[k][p] == 0
  {
    seq(|lens|, i requires 0 <= i < |lens| => seq(lens[i], _ => if i == k then 0 else 1))
  }

  /** Where block `k` starts. */
  function StartOf(sizes: seq<nat>, k: nat): nat
    requires k <= |sizes|
  {
    Sum(sizes[..k])
  }

  lemma {:induction false} StartOfNext(sizes: seq<nat>, k: nat)
    requires k < |sizes|
    ensures StartOf(sizes, k + 1) == StartOf(sizes, k) + sizes[k]
    ensures StartOf(sizes, k + 1) <= Sum(sizes)
  {
    assert sizes[..k + 1] == sizes[..k] + [sizes[k]];
    SumAppend(sizes[..k], [sizes[k]]);
    assert sizes == sizes[..k + 1] + sizes[k + 1..];
    SumAppend(sizes[..k + 1], sizes[k + 1..]);
  }

  /** Planning skips every block that ends at or before the offset. */
  lemma {:induction false} PlanSkips(sizes: seq<nat>, index: nat, k: nat, offset: nat, end: nat)
    requires index <= k <= |sizes| && StartOf(sizes, k) <= offset < end
    ensures Plan(sizes, index, StartOf(sizes, index), offset, end) == Plan(sizes, k, StartOf(sizes, k), offset, end)
    decreases k - index
  {
    if index < k {
      StartOfNext(sizes, index);
      StartMonotone(sizes, index + 1, k);
      PlanSkips(sizes, index + 1, k, offset, end);
    }
  }

  lemma {:induction false} StartMonotone(sizes: seq<nat>, i: nat, k: nat)
    requires i <= k <= |sizes|
    ensures StartOf(sizes, i) <= StartOf(sizes, k)
    decreases k - i
  {
    if i < k {
      StartOfNext(sizes, k - 1);
      StartMonotone(sizes, i, k - 1);
    }
  }

  lemma {:induction false} FlattenAt(blocks: seq<seq<byte>>, k: nat, p: nat)
    requires k < |blocks| && p < |blocks[k]|
    ensures StartOf(Lengths(blocks), k) + p < |Flatten(blocks)|
    ensures Flatten(blocks)[StartOf(Lengths(blocks), k) + p] == blocks[k][p]
  {
    if k > 0 {
      FlattenAt(blocks[1..], k - 1, p);
      var lens := Lengths(blocks);
      assert lens[..k] == [lens[0]] + Lengths(blocks[1..])[..k - 1];
      assert lens[..k][1..] == Lengths(blocks[1..])[..k - 1];
    } else {
      assert Lengths(blocks)[..0] == [];
    }
  }

  lemma SpliceOfOnes(plaintext: seq<byte>, start: nat, offset: nat, end: nat)
    requires AllOnes(plaintext)
    ensures AllOnes(Splice(plaintext, start, offset, end))
  {
  }

  lemma OnesConcat(a: seq<byte>, b: seq<byte>)
    requires AllOnes(a) && AllOnes(b)
    ensures AllOnes(a + b)
  {
  }

  /** Bytes assembled from blocks of ones are ones. */
  lemma {:induction false} OnlyOnes(wanted: seq<Want>, blocks: seq<seq<byte>>, offset: nat, end: nat)
    requires forall j :: 0 <= j < |wanted| ==> wanted[j].index < |blocks| && AllOnes(blocks[wanted[j].index])
    ensures var r := Assemble(wanted, FromBlocks(blocks), offset, end);
            r.Ok? && AllOnes(r.value)
  {
    if wanted != [] {
      OnlyOnes(wanted[1..], blocks, offset, end);
      var plaintext := blocks[wanted[0].index];
      SpliceOfOnes(plaintext, wanted[0].start, offset, end);
      OnesConcat(Splice(plaintext, wanted[0].start, offset, end),
                 Assemble(wanted[1..], FromBlocks(blocks), offset, end).value);
    }
  }

  /** What a one-byte read at `offset` assembles, skipping the blocks before `k`. */
  lemma OneByteRead(sizes: seq<nat>, blocks: seq<seq<byte>>, k: nat, offset: nat)
    requires k <= |sizes| && StartOf(sizes, k) <= offset < Sum(sizes) <= U64_MAX
    ensures ReadSpec(sizes, FromBlocks(blocks), offset, 1) ==
            Assemble(Plan(sizes, k, StartOf(sizes, k), offset, offset + 1), FromBlocks(blocks), offset, offset + 1)
  {
    assert sizes[..0] == [];
    PlanSkips(sizes, 0, k, offset, offset + 1);
  }

  lemma OneByteSlice(s: seq<byte>, offset: nat)
    requires offset < |s|
    ensures Slice(s, offset, 1) == [s[offset]]
  {
  }

  lemma SliceRefutes(sizes: seq<nat>, blocks: seq<seq<byte>>, offset: nat)
    requires ReadSpec(sizes, FromBlocks(blocks), offset, 1) != Ok(Slice(Flatten(blocks), offset, 1))
    ensures !ReadsRight(sizes, blocks)
  {
  }

  /** A block believed longer than it is, with another after it, makes a read at
      its true end come back empty. */
  lemma OverstatedLosesBytes(sizes: seq<nat>, lens: seq<nat>, blocks: seq<seq<byte>>, k: nat)
    requires |sizes| == |lens| && k + 1 < |lens| && Sum(sizes) <= U64_MAX
    requires lens[k + 1] > 0 && Lengths(blocks) == lens
    requires sizes[..k] == lens[..k] && sizes[k] > lens[k]
    ensures !ReadsRight(sizes, blocks)
  {
    var start := StartOf(sizes, k);
    var offset := start + lens[k];
    StartOfNext(lens, k);
    FlattenAt(blocks, k + 1, 0);
    OneByteSlice(Flatten(blocks), offset);
    StartOfNext(sizes, k);
    OneByteRead(sizes, blocks, k, offset);
    PlanStep(sizes, FromBlocks(blocks), k, start, offset, offset + 1, blocks[k], []);
    SliceRefutes(sizes, blocks, offset);
  }

  lemma ReadsOnes(sizes: seq<nat>, blocks: seq<seq<byte>>, k: nat, offset: nat)
    requires k <= |sizes| == |blocks|
    requires forall i :: k <= i < |blocks| ==> AllOnes(blocks[i])
    ensures var r := Assemble(Plan(sizes, k, offset, offset, offset + 1), FromBlocks(blocks), offset, offset + 1);
            r.Ok? && AllOnes(r.value)
  {
    var wanted := Plan(sizes, k, offset, offset, offset + 1);
    PlanInRange(sizes, k, offset, offset, offset + 1);
    forall j | 0 <= j < |wanted| ensures wanted[j].index < |blocks| && AllOnes(blocks[wanted[j].index]) {
      assert wanted[j] in wanted;
    }
    OnlyOnes(wanted, blocks, offset, offset + 1);
  }

  lemma NotOnes(s: seq<byte>)
    requires s != [] && s[0] == 0
    ensures !AllOnes(s)
  {
  }

  /** A block believed shorter than it is makes a read past its believed end
      return some other block's bytes, or nothing. */
  lemma UnderstatedMovesBytes(sizes: seq<nat>, lens: seq<nat>, k: nat)
    requires |sizes| == |lens| && k < |lens| && Sum(sizes) <= U64_MAX
    requires sizes[..k] == lens[..k] && sizes[k] < lens[k]
    ensures !ReadsRight(sizes, Marked(lens, k))
  {
    var blocks := Marked(lens, k);
    var offset := StartOf(sizes, k) + sizes[k];
    FlattenAt(blocks, k, sizes[k]);
    OneByteSlice(Flatten(blocks), offset);
    if offset < Sum(sizes) {
      StartOfNext(sizes, k);
      OneByteRead(sizes, blocks, k + 1, offset);
      ReadsOnes(sizes, blocks, k + 1, offset);
      NotOnes([Flatten(blocks)[offset]]);
    }
    SliceRefutes(sizes, blocks, offset);
  }

  lemma {:induction false} FirstMismatch(a: seq<nat>, b: seq<nat>) returns (k: nat)
    requires |a| == |b| && a != b
    ensures k < |a| && a[k] != b[k] && a[..k] == b[..k]
  {
    if a[0] != b[0] {
      k := 0;
    } else {
      assert a == [a[0]] + a[1..] && b == [b[0]] + b[1..];
      k := FirstMismatch(a[1..], b[1..]);
      k := k + 1;
      assert a[..k] == [a[0]] + a[1..][..k - 1];
      assert b[..k] == [b[0]] + b[1..][..k - 1];
    }
  }

  lemma PrefixPlaces(sizes: seq<nat>, lens: seq<nat>, k: nat)
    requires |sizes| == |lens| && k < |sizes| && sizes[..k] == lens[..k] && sizes[k] > lens[k]
    requires !Placed(sizes, lens)
    ensures k + 1 < |lens|
  {
    forall i | 0 <= i < k ensures sizes[i] == lens[i] {
      assert sizes[i] == sizes[..k][i];
    }
  }
}
