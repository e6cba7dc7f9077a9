/** Seekable reads of a revision: which block sizes to believe, which blocks a
    range needs, and where their bytes go. */
module RevisionReader {
  import opened Bytes
  import opened Wrappers
  import opened UploadReader

  const U64_MAX: nat := 0xFFFF_FFFF_FFFF_FFFF

  /** `Common` of a revision's decrypted extended attributes. */
  datatype CommonAttributes = CommonAttributes(size: Option<int>, blockSizes: Option<seq<int>>)

  datatype SizeError = NonPositiveSize | NoUsableSizes

  function BadSize(sizes: seq<int>): bool {
    exists i :: 0 <= i < |sizes| && sizes[i] <= 0
  }

  function AsNats(sizes: seq<int>): (r: seq<nat>)
    requires !BadSize(sizes)
    ensures |r| == |sizes| && forall i :: 0 <= i < |r| ==> r[i] == sizes[i]
  {
    seq(|sizes|, i requires 0 <= i < |sizes| => sizes[i])
  }

  /** Full blocks and a short last one, out of the total alone. */
  function SizesFromTotal(total: nat, count: nat): (r: seq<nat>)
    ensures |r| == count
  {
    seq(count, i requires 0 <= i < count =>
      if total < DEFAULT_BLOCK_SIZE * i then 0 else Min(total - DEFAULT_BLOCK_SIZE * i, DEFAULT_BLOCK_SIZE))
  }

  lemma {:induction false} SumAppend(a: seq<nat>, b: seq<nat>)
    ensures Sum(a + b) == Sum(a) + Sum(b)
  {
    if a == [] {
      assert a + b == b;
    } else {
      assert (a + b)[1..] == a[1..] + b;
      SumAppend(a[1..], b);
    }
  }

  /** They account for the whole total, as far as the blocks reach. */
  lemma {:induction false} SizesAddUp(total: nat, count: nat)
    ensures Sum(SizesFromTotal(total, count)) == Min(total, DEFAULT_BLOCK_SIZE * count)
  {
    if count > 0 {
      var before, reach := SizesFromTotal(total, count - 1), DEFAULT_BLOCK_SIZE * (count - 1);
      var last := if total < reach then 0 else Min(total - reach, DEFAULT_BLOCK_SIZE);
      SizesAddUp(total, count - 1);
      assert SizesFromTotal(total, count) == before + [last];
      SumAppend(before, [last]);
      assert Sum([last]) == last;
    }
  }

  predicate Fits(common: Option<CommonAttributes>, count: nat) {
    common.Some? && common.value.blockSizes.Some? && |common.value.blockSizes.value| == count
  }

  predicate HasTotal(common: Option<CommonAttributes>) {
    common.Some? && common.value.size.Some? && common.value.size.value >= 0
  }

  /** The per-block plaintext sizes, from the most trusted source there is: recorded ones
      that are all positive, else those the total accounts for, else a guess that cannot
      misplace anything. */
  function RankBlockSizes(common: Option<CommonAttributes>, count: nat): (r: Result<seq<nat>, SizeError>)
    ensures r.Ok? ==> |r.value| == count
    ensures Fits(common, count) ==>
              (r.Ok? <==> forall i :: 0 <= i < count ==> common.value.blockSizes.value[i] > 0)
    ensures Fits(common, count) && r.Ok? ==> forall i :: 0 <= i < count ==>
              r.value[i] == common.value.blockSizes.value[i]
    ensures !Fits(common, count) && HasTotal(common) ==>
              r.Ok? && Sum(r.value) == Min(common.value.size.value, DEFAULT_BLOCK_SIZE * count)
    ensures !Fits(common, count) && !HasTotal(common) ==> (r.Ok? <==> count <= 1)
    ensures r == Err(NoUsableSizes) ==> count >= 2
  {
    if Fits(common, count) then
      if BadSize(common.value.blockSizes.value) then Err(NonPositiveSize)
      else Ok(AsNats(common.value.blockSizes.value))
    else if HasTotal(common) then
      SizesAddUp(common.value.size.value, count);
      Ok(SizesFromTotal(common.value.size.value, count))
    else if count <= 1 then Ok(seq(count, i => DEFAULT_BLOCK_SIZE))
    else Err(NoUsableSizes)
  }

  // --------------------------------------------------------- planning a range

  datatype Want = Want(index: nat, start: nat)

  /** The blocks from `index` on, the first starting at `start`, that overlap
      `[offset, end)`. */
  function Plan(sizes: seq<nat>, index: nat, start: nat, offset: nat, end: nat): seq<Want>
    requires index <= |sizes|
    decreases |sizes| - index
  {
    if index == |sizes| || start >= end then []
    else
      (if start + sizes[index] > offset then [Want(index, start)] else [])
      + Plan(sizes, index + 1, start + sizes[index], offset, end)
  }

  method PlanBlocks(sizes: seq<nat>, offset: nat, end: nat) returns (wanted: seq<Want>)
    ensures wanted == Plan(sizes, 0, 0, offset, end)
    ensures forall w :: w in wanted ==> w.index < |sizes| && w.start < end
  {
    wanted := [];
    var blockStart: nat := 0;
    var index: nat := 0;
    while index < |sizes|
      invariant index <= |sizes|
      invariant Plan(sizes, 0, 0, offset, end) == wanted + Plan(sizes, index, blockStart, offset, end)
    {
      if blockStart >= end {
        break;
      }
      var blockEnd := blockStart + sizes[index];
      ghost var rest := Plan(sizes, index + 1, blockEnd, offset, end);
      if blockEnd > offset {
        assert wanted + ([Want(index, blockStart)] + rest) == (wanted + [Want(index, blockStart)]) + rest;
        wanted := wanted + [Want(index, blockStart)];
      } else {
        assert [] + rest == rest;
      }
      blockStart := blockEnd;
      index := index + 1;
    }
    assert wanted + [] == wanted;
    PlanInRange(sizes, 0, 0, offset, end);
  }

  /** The part of a block starting at `start` that lies in `[offset, end)`. A
      planned block starts before `end`, so the subtraction never runs out. */
  function Splice(plaintext: seq<byte>, start: nat, offset: nat, end: nat): seq<byte> {
    var from := if offset > start then offset - start else 0;
    var to := Min(if end > start then end - start else 0, |plaintext|);
    if from < to then plaintext[from..to] else []
  }

  lemma {:induction false} PlanInRange(sizes: seq<nat>, index: nat, start: nat, offset: nat, end: nat)
    requires index <= |sizes|
    ensures forall w :: w in Plan(sizes, index, start, offset, end) ==> index <= w.index < |sizes| && w.start < end
    decreases |sizes| - index
  {
    if index < |sizes| && start < end {
      PlanInRange(sizes, index + 1, start + sizes[index], offset, end);
    }
  }

  function Assemble(wanted: seq<Want>, fetch: nat -> Result<seq<byte>, string>,
                    offset: nat, end: nat): Result<seq<byte>, string>
  {
    if wanted == [] then Ok([])
    else match fetch(wanted[0].index)
         case Err(e) => Err(e)
         case Ok(plaintext) =>
           match Assemble(wanted[1..], fetch, offset, end)
           case Err(e) => Err(e)
           case Ok(more) => Ok(Splice(plaintext, wanted[0].start, offset, end) + more)
  }

  function RangeEnd(sizes: seq<nat>, offset: nat, length: nat): nat {
    Min(Min(offset + length, U64_MAX), Sum(sizes))
  }

  /** What a reader that believes `sizes` answers, `fetch` giving each block. */
  function ReadSpec(sizes: seq<nat>, fetch: nat -> Result<seq<byte>, string>,
                    offset: nat, length: nat): Result<seq<byte>, string>
  {
    if length == 0 || offset >= Sum(sizes) then Ok([])
    else
      var end := RangeEnd(sizes, offset, length);
      Assemble(Plan(sizes, 0, 0, offset, end), fetch, offset, end)
  }

  method ReadAt(sizes: seq<nat>, fetch: nat -> Result<seq<byte>, string>, offset: nat, length: nat)
    returns (r: Result<seq<byte>, string>)
    ensures r == ReadSpec(sizes, fetch, offset, length)
  {
    if length == 0 || offset >= Sum(sizes) {
      return Ok([]);
    }
    var end := RangeEnd(sizes, offset, length);
    var wanted := PlanBlocks(sizes, offset, end);
    var out: seq<byte> := [];
    assert wanted[0..] == wanted;
    AfterNothing(Assemble(wanted, fetch, offset, end));
    for next := 0 to |wanted|
      invariant Assemble(wanted, fetch, offset, end) == After(out, Assemble(wanted[next..], fetch, offset, end))
    {
      assert wanted[next] == wanted[next..][0] && wanted[next..][1..] == wanted[next + 1..];
      match fetch(wanted[next].index) {
        case Err(e) => return Err(e);
        case Ok(plaintext) =>
          var piece := Splice(plaintext, wanted[next].start, offset, end);
          AfterAfter(out, piece, Assemble(wanted[next + 1..], fetch, offset, end));
          out := out + piece;
      }
    }
    assert out + [] == out;
    return Ok(out);
  }

  function After(out: seq<byte>, more: Result<seq<byte>, string>): Result<seq<byte>, string> {
    if more.Err? then more else Ok(out + more.value)
  }

  lemma AfterNothing(more: Result<seq<byte>, string>)
    ensures After([], more) == more
  {
    if more.Ok? { assert [] + more.value == more.value; }
  }

  lemma AfterAfter(out: seq<byte>, piece: seq<byte>, more: Result<seq<byte>, string>)
    ensures After(out, After(piece, more)) == After(out + piece, more)
  {
    if more.Ok? { assert out + (piece + more.value) == (out + piece) + more.value; }
  }

  // ------------------------------------------------------- when reads are right

  /** The bytes `[offset, offset + length)` of `s`, as far as `s` goes. */
  function Slice(s: seq<byte>, offset: nat, length: nat): seq<byte> {
    if offset >= |s| then [] else s[offset..Min(offset + length, |s|)]
  }

  /** How far into a sequence of length `size` placed at `start` position `p` is. */
  function Into(p: nat, start: nat, size: nat): (k: nat)
    ensures k <= size
  {
    if p < start then 0 else Min(p - start, size)
  }

  /** The part of `s`, placed at `start`, inside `[offset, end)`. */
  function Clip(s: seq<byte>, start: nat, offset: nat, end: nat): seq<byte>
    requires offset <= end
  {
    s[Into(offset, start, |s|)..Into(end, start, |s|)]
  }

  lemma SliceOfConcat(a: seq<byte>, b: seq<byte>, lo: nat, hi: nat)
    requires lo <= hi <= |a| + |b|
    ensures (a + b)[lo..hi] ==
            a[Min(lo, |a|)..Min(hi, |a|)] + b[(if lo < |a| then 0 else lo - |a|)..(if hi < |a| then 0 else hi - |a|)]
  {
  }

  lemma ClipConcat(a: seq<byte>, b: seq<byte>, start: nat, offset: nat, end: nat)
    requires offset <= end
    ensures Clip(a + b, start, offset, end) == Clip(a, start, offset, end) + Clip(b, start + |a|, offset, end)
  {
    SliceOfConcat(a, b, Into(offset, start, |a + b|), Into(end, start, |a + b|));
  }

  /** `sizes` puts every block of these lengths where it is: right for all but
      the last, and the last not short. */
  predicate Placed(sizes: seq<nat>, lens: seq<nat>) {
    && |sizes| == |lens|
    && (forall i :: 0 <= i < |sizes| - 1 ==> sizes[i] == lens[i])
    && (sizes != [] ==> sizes[|sizes| - 1] >= lens[|lens| - 1])
  }

  ghost predicate Serves(fetch: nat -> Result<seq<byte>, string>, blocks: seq<seq<byte>>) {
    forall i :: 0 <= i < |blocks| ==> fetch(i) == Ok(blocks[i])
  }

  lemma SpliceIsClip(plaintext: seq<byte>, start: nat, size: nat, offset: nat, end: nat)
    requires start < end && offset <= end && |plaintext| <= size
    ensures (if start + size > offset then Splice(plaintext, start, offset, end) else [])
         == Clip(plaintext, start, offset, end)
  {
  }

  lemma PlanStep(sizes: seq<nat>, fetch: nat -> Result<seq<byte>, string>,
                 index: nat, start: nat, offset: nat, end: nat, plaintext: seq<byte>, more: seq<byte>)
    requires index < |sizes| && start < end && fetch(index) == Ok(plaintext)
    requires Assemble(Plan(sizes, index + 1, start + sizes[index], offset, end), fetch, offset, end) == Ok(more)
    ensures Assemble(Plan(sizes, index, start, offset, end), fetch, offset, end) ==
            Ok((if start + sizes[index] > offset then Splice(plaintext, start, offset, end) else []) + more)
  {
    var rest := Plan(sizes, index + 1, start + sizes[index], offset, end);
    if start + sizes[index] > offset {
      assert Plan(sizes, index, start, offset, end)[1..] == rest;
    } else {
      assert Plan(sizes, index, start, offset, end) == rest;
      assert [] + more == more;
    }
  }

  /** A range of the file from block `index` on is that range of the block, then
      of the blocks after it, which start where `sizes` says they do. */
  lemma {:induction false} ClipNext(sizes: seq<nat>, blocks: seq<seq<byte>>, index: nat, start: nat, offset: nat,
                                    end: nat)
    requires Placed(sizes, Lengths(blocks)) && index < |sizes| && offset <= end
    ensures Clip(Flatten(blocks[index..]), start, offset, end) ==
            Clip(blocks[index], start, offset, end)
            + Clip(Flatten(blocks[index + 1..]), start + sizes[index], offset, end)
  {
    assert blocks[index..][1..] == blocks[index + 1..];
    var more := Flatten(blocks[index + 1..]);
    ClipConcat(blocks[index], more, start, offset, end);
    if index + 1 == |sizes| {
      assert more == [];
    }
  }

  lemma PlacedStep(
      sizes: seq<nat>, blocks: seq<seq<byte>>, fetch: nat -> Result<seq<byte>, string>,
      index: nat, start: nat, offset: nat, end: nat)
    requires Placed(sizes, Lengths(blocks)) && Serves(fetch, blocks)
    requires index < |sizes| && offset <= end && start < end
    requires Assemble(Plan(sizes, index + 1, start + sizes[index], offset, end), fetch, offset, end) ==
             Ok(Clip(Flatten(blocks[index + 1..]), start + sizes[index], offset, end))
    ensures Assemble(Plan(sizes, index, start, offset, end), fetch, offset, end) ==
            Ok(Clip(Flatten(blocks[index..]), start, offset, end))
  {
    ClipNext(sizes, blocks, index, start, offset, end);
    SpliceIsClip(blocks[index], start, sizes[index], offset, end);
    PlanStep(sizes, fetch, index, start, offset, end, blocks[index],
             Clip(Flatten(blocks[index + 1..]), start + sizes[index], offset, end));
  }

  lemma NothingMore(blocks: seq<seq<byte>>, index: nat, start: nat, offset: nat, end: nat)
    requires index <= |blocks| && offset <= end && (index == |blocks| || start >= end)
    ensures Clip(Flatten(blocks[index..]), start, offset, end) == []
  {
    if index == |blocks| { assert Flatten(blocks[index..]) == []; }
  }

  lemma {:induction false} PlacedSuffix(
      sizes: seq<nat>, blocks: seq<seq<byte>>, fetch: nat -> Result<seq<byte>, string>,
      index: nat, start: nat, offset: nat, end: nat)
    requires Placed(sizes, Lengths(blocks)) && Serves(fetch, blocks)
    requires index <= |sizes| && offset <= end
    ensures Assemble(Plan(sizes, index, start, offset, end), fetch, offset, end) ==
            Ok(Clip(Flatten(blocks[index..]), start, offset, end))
    decreases |sizes| - index
  {
    if index == |sizes| || start >= end {
      NothingMore(blocks, index, start, offset, end);
    } else {
      PlacedSuffix(sizes, blocks, fetch, index + 1, start + sizes[index], offset, end);
      PlacedStep(sizes, blocks, fetch, index, start, offset, end);
    }
  }

  lemma {:induction false} SumBounds(sizes: seq<nat>, blocks: seq<seq<byte>>)
    requires Placed(sizes, Lengths(blocks))
    ensures Sum(sizes) >= |Flatten(blocks)|
  {
    if sizes != [] {
      if |sizes| > 1 {
        assert Lengths(blocks[1..]) == Lengths(blocks)[1..];
        SumBounds(sizes[1..], blocks[1..]);
      } else {
        assert Flatten(blocks) == blocks[0] + Flatten(blocks[1..]);
      }
    }
  }

  /** With sizes that place every block, a read is the slice it asked for. */
  lemma PlacedReadsSlice(
      sizes: seq<nat>, blocks: seq<seq<byte>>, fetch: nat -> Result<seq<byte>, string>, offset: nat, length: nat)
    requires Placed(sizes, Lengths(blocks)) && Serves(fetch, blocks)
    requires Sum(sizes) <= U64_MAX
    ensures ReadSpec(sizes, fetch, offset, length) == Ok(Slice(Flatten(blocks), offset, length))
  {
    var all := Flatten(blocks);
    SumBounds(sizes, blocks);
    if length > 0 && offset < Sum(sizes) {
      var end := RangeEnd(sizes, offset, length);
      PlacedSuffix(sizes, blocks, fetch, 0, 0, offset, end);
      assert blocks[0..] == blocks;
      assert Clip(all, 0, offset, end) == Slice(all, offset, length);
    } else {
      assert Slice(all, offset, length) == [];
    }
  }

  // ------------------------------------------------------------- the round trip

  /** Sizes derived from the true total are the true sizes. */
  lemma TotalGivesLengths(s: seq<byte>)
    ensures SizesFromTotal(|s|, |Chunks(s)|) == Lengths(Chunks(s))
  {
    forall i | 0 <= i < |Chunks(s)| ensures SizesFromTotal(|s|, |Chunks(s)|)[i] == |Chunks(s)[i]| {
      ChunkSize(s, i);
    }
  }

  lemma {:induction false} SumOfLengths(blocks: seq<seq<byte>>)
    ensures Sum(Lengths(blocks)) == |Flatten(blocks)|
  {
    if blocks != [] {
      assert Lengths(blocks)[1..] == Lengths(blocks[1..]);
      SumOfLengths(blocks[1..]);
    }
  }

  /** What an upload of `s` may have left in the extended attributes: the block
      sizes, or only the total, or nothing a reader can use. */
  ghost predicate Describes(common: Option<CommonAttributes>, s: seq<byte>) {
    var lens := Lengths(Chunks(s));
    match common
    case None => true
    case Some(c) =>
      && (c.blockSizes.Some? ==>
           |c.blockSizes.value| == |lens| && forall i :: 0 <= i < |lens| ==> c.blockSizes.value[i] == lens[i])
      && (c.size.Some? ==> c.size.value == |s|)
  }

  /** For a stream cut into blocks, the ranking either places every block or,
      only when it has neither sizes nor a total for several blocks, refuses. */
  lemma RankingPlaces(common: Option<CommonAttributes>, s: seq<byte>)
    requires Describes(common, s)
    ensures var r := RankBlockSizes(common, |Chunks(s)|);
            && (r.Err? <==>
                |Chunks(s)| >= 2 && (common.None? || (common.value.size.None? && common.value.blockSizes.None?)))
            && (r.Ok? ==> Placed(r.value, Lengths(Chunks(s))))
            && ((r.Ok? && common.Some? && (common.value.size.Some? || common.value.blockSizes.Some?)) ==>
                 r.value == Lengths(Chunks(s)))
  {
    var blocks := Chunks(s);
    forall i | 0 <= i < |blocks| ensures 0 < |blocks[i]| <= DEFAULT_BLOCK_SIZE {
      ChunkSize(s, i);
    }
    TotalGivesLengths(s);
    var r := RankBlockSizes(common, |blocks|);
    if r.Ok? && common.Some? && common.value.blockSizes.Some? {
      assert r.value == Lengths(blocks);
    }
  }

  /** A reader given the blocks of a stream, and what an upload recorded of it, answers
      every range with that range of the stream, and nothing past its end. */
  lemma StreamReads(s: seq<byte>, common: Option<CommonAttributes>, fetch: nat -> Result<seq<byte>, string>,
                    offset: nat, length: nat)
    requires |s| + DEFAULT_BLOCK_SIZE <= U64_MAX
    requires Serves(fetch, Chunks(s)) && Describes(common, s) && RankBlockSizes(common, |Chunks(s)|).Ok?
    ensures ReadSpec(RankBlockSizes(common, |Chunks(s)|).value, fetch, offset, length) == Ok(Slice(s, offset, length))
  {
    var blocks := Chunks(s);
    var sizes := RankBlockSizes(common, |blocks|).value;
    RankingPlaces(common, s);
    ChunksRejoin(s);
    SumOfLengths(blocks);
    assert Sum(sizes) <= U64_MAX by {
      if sizes != Lengths(blocks) && |sizes| == 1 {
        assert sizes[1..] == [] && sizes[0] == DEFAULT_BLOCK_SIZE;
      }
    }
    PlacedReadsSlice(sizes, blocks, fetch, offset, length);
  }
}
