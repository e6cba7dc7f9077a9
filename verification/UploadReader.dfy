/** How an upload cuts an arbitrary reader into content blocks. */
module UploadReader {
  import opened Bytes
  import opened Wrappers

  const DEFAULT_BLOCK_SIZE: nat := 4 * 1024 * 1024

  /** What the reader does at its next call. */
  datatype ReadEvent = Interrupted | Failing | Short(count: nat)

  datatype ReadResult = Count(n: nat) | Interrupt | Failure

  /** A source of bytes: `rest` is what it has not handed out, `plan` decides how its
      calls go, `at` of them so far; once the plan is used up it reads as much as fits. */
  class ByteReader {
    const plan: seq<ReadEvent>
    var rest: seq<byte>
    var at: nat

    constructor (bytes: seq<byte>, plan: seq<ReadEvent>)
      ensures rest == bytes && this.plan == plan && at == 0
    {
      this.plan := plan;
      this.rest, at := bytes, 0;
    }

    /** Some call made from `from` to `upto` met a real read error. */
    ghost predicate FailedIn(from: nat, upto: nat) {
      exists k :: from <= k < upto && k < |plan| && plan[k].Failing?
    }

    /** Read some bytes into `buf[from..]`; zero only at the end of the stream. */
    method Read(buf: array<byte>, from: nat) returns (r: ReadResult)
      requires from < buf.Length
      modifies this, buf
      ensures at == if old(at) < |plan| then old(at) + 1 else old(at)
      ensures r.Failure? <==> old(at) < |plan| && plan[old(at)].Failing?
      ensures r.Interrupt? <==> old(at) < |plan| && plan[old(at)].Interrupted?
      ensures !r.Count? ==> rest == old(rest) && buf[..] == old(buf[..])
      ensures r.Count? ==>
        && r.n <= buf.Length - from && r.n <= |old(rest)|
        && rest == old(rest)[r.n..]
        && (r.n == 0 ==> old(rest) == [])
        && buf[from..from + r.n] == old(rest)[..r.n]
        && (forall k :: 0 <= k < from ==> buf[k] == old(buf[k]))
    {
      var count := Min(buf.Length - from, |rest|);
      if at < |plan| {
        var event := plan[at];
        at := at + 1;
        match event {
          case Interrupted => return Interrupt;
          case Failing => return Failure;
          case Short(limit) => count := Min(count, Max(limit, 1));
        }
      }
      forall k | 0 <= k < count {
        buf[from + k] := rest[k];
      }
      rest := rest[count..];
      return Count(count);
    }
  }

  /** Fill `buf`, or as much of it as the stream has left, however short the individual
      reads are; fail exactly if one of them does. */
  method ReadFullBlock(reader: ByteReader, buf: array<byte>) returns (r: Result<nat, string>)
    modifies reader, buf
    ensures r.Ok? ==>
      && r.value == Min(buf.Length, |old(reader.rest)|)
      && buf[..r.value] == old(reader.rest)[..r.value]
      && reader.rest == old(reader.rest)[r.value..]
    ensures old(reader.at) <= reader.at
    ensures r.Err? <==> reader.FailedIn(old(reader.at), reader.at)
  {
    var filled: nat := 0;
    while filled < buf.Length
      invariant filled <= buf.Length && filled <= |old(reader.rest)|
      invariant buf[..filled] == old(reader.rest)[..filled]
      invariant reader.rest == old(reader.rest)[filled..]
      invariant old(reader.at) <= reader.at && !reader.FailedIn(old(reader.at), reader.at)
      decreases buf.Length - filled, if reader.at < |reader.plan| then |reader.plan| - reader.at else 0
    {
      ghost var before, was := buf[..filled], reader.rest;
      var n := reader.Read(buf, filled);
      match n {
        case Count(count) =>
          assert buf[..filled] == before;
          if count == 0 {
            return Ok(filled);
          }
          assert buf[..filled + count] == buf[..filled] + buf[filled..filled + count];
          assert old(reader.rest)[..filled + count] == old(reader.rest)[..filled] + was[..count];
          filled := filled + count;
        case Interrupt =>
          assert buf[..filled] == buf[..][..filled];
        case Failure =>
          return Err("read block");
      }
    }
    return Ok(filled);
  }

  /** The stream in blocks of `DEFAULT_BLOCK_SIZE`, the last one shorter. */
  function Chunks(s: seq<byte>): seq<seq<byte>> {
    if s == [] then []
    else if |s| <= DEFAULT_BLOCK_SIZE then [s]
    else [s[..DEFAULT_BLOCK_SIZE]] + Chunks(s[DEFAULT_BLOCK_SIZE..])
  }

  datatype Cut = Cut(blocks: seq<seq<byte>>, sizes: seq<nat>, total: nat)

  /** The encryptor's reading loop, one fresh buffer per block. */
  method CutStream(reader: ByteReader) returns (r: Result<Cut, string>)
    modifies reader
    ensures r.Ok? ==> r.value.blocks == Chunks(old(reader.rest))
    ensures r.Ok? ==> r.value.sizes == Lengths(Chunks(old(reader.rest)))
    ensures r.Ok? ==> r.value.total == |old(reader.rest)|
    ensures old(reader.at) <= reader.at
    ensures r.Err? <==> reader.FailedIn(old(reader.at), reader.at)
  {
    var blocks: seq<seq<byte>> := [];
    var sizes: seq<nat> := [];
    var total: nat := 0;
    ghost var all := reader.rest;
    while true
      invariant old(reader.at) <= reader.at && !reader.FailedIn(old(reader.at), reader.at)
      invariant Chunks(all) == blocks + Chunks(reader.rest)
      invariant sizes == Lengths(blocks)
      invariant total + |reader.rest| == |all|
      decreases |reader.rest|
    {
      ghost var was := reader.rest;
      var buf := new byte[DEFAULT_BLOCK_SIZE];
      var n := ReadFullBlock(reader, buf);
      match n {
        case Err(e) => return Err(e);
        case Ok(count) =>
          if count == 0 {
            break;
          }
          ghost var block := buf[..count];
          assert was == block + reader.rest;
          if |was| <= DEFAULT_BLOCK_SIZE {
            assert reader.rest == [] && block == was;
          }
          assert Chunks(was) == [block] + Chunks(reader.rest);
          assert blocks + ([block] + Chunks(reader.rest)) == (blocks + [block]) + Chunks(reader.rest);
          blocks := blocks + [buf[..count]];
          sizes := sizes + [count];
          total := total + count;
      }
    }
    assert blocks + [] == blocks;
    return Ok(Cut(blocks, sizes, total));
  }

  // -------------------------------------------------------- facts about blocks

  lemma {:induction false} ChunksRejoin(s: seq<byte>)
    ensures Flatten(Chunks(s)) == s
    decreases |s|
  {
    if |s| > DEFAULT_BLOCK_SIZE {
      ChunksRejoin(s[DEFAULT_BLOCK_SIZE..]);
      assert s == s[..DEFAULT_BLOCK_SIZE] + s[DEFAULT_BLOCK_SIZE..];
    } else if s != [] {
      assert Flatten([s]) == s + Flatten([]);
    }
  }

  /** Every block but the last is full, and the `i`-th starts at `i` full blocks. */
  lemma {:induction false} ChunkSize(s: seq<byte>, i: nat)
    requires i < |Chunks(s)|
    ensures DEFAULT_BLOCK_SIZE * i < |s|
    ensures |Chunks(s)[i]| == Min(DEFAULT_BLOCK_SIZE, |s| - DEFAULT_BLOCK_SIZE * i)
    ensures i + 1 < |Chunks(s)| ==> |Chunks(s)[i]| == DEFAULT_BLOCK_SIZE
    decreases |s|
  {
    if |s| > DEFAULT_BLOCK_SIZE && i > 0 {
      ChunkSize(s[DEFAULT_BLOCK_SIZE..], i - 1);
    }
  }
}
