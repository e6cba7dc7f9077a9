/** From a stream to a server and back: a finished upload, listed and fetched again, is the stream. */
module EndToEnd {
  import opened Bytes
  import opened Wrappers
  import opened UploadReader
  import opened RevisionReader
  import Steps = TransferSteps
  import Pool = TransferPool
  import Tables = BlockListing

  // -------------------------------------------------------------- what is left behind

  /** What storage holds once these blocks were stored, in any order. */
  function Stored<C>(stored: seq<nat>, ciphertext: nat -> C): map<nat, C> {
    map b | b in stored :: ciphertext(b)
  }

  /** Block `b`'s ciphertext, blocks numbered from 1, decrypts to its plaintext. */
  ghost predicate Encrypts<C>(ciphertext: nat -> C, decrypt: C -> Result<seq<byte>, string>, blocks: seq<seq<byte>>) {
    forall k :: 0 <= k < |blocks| ==> decrypt(ciphertext(k + 1)) == Ok(blocks[k])
  }

  lemma {:induction false} Counted(s: seq<nat>, b: nat)
    ensures b in s <==> Steps.Count(s, b) > 0
  {
    if s != [] {
      Counted(s[1..], b);
      assert s == [s[0]] + s[1..];
    }
  }

  /** Pages of the block table, and the storage its URLs point to. */
  datatype Server<!C> = Server(page: nat -> Tables.Page, url: nat -> string, storage: string -> Result<C, string>)

  /** The server lists as many blocks as it holds and answers their URLs with them. */
  ghost predicate Keeps<C>(server: Server<C>, held: map<nat, C>) {
    && Tables.Holds(server.page, |held|, server.url)
    && (forall b :: b in held ==> server.storage(server.url(b)) == Ok(held[b]))
  }

  /** Fetch block `i` of a listed table and decrypt it. */
  function Fetched<C>(server: Server<C>, table: seq<Tables.Block>, decrypt: C -> Result<seq<byte>, string>)
    : nat -> Result<seq<byte>, string>
  {
    (i: nat) =>
      if i >= |table| then Err("missing block")
      else match server.storage(table[i].url)
           case Err(e) => Err(e)
           case Ok(c) => decrypt(c)
  }

  // -------------------------------------------------------------------- one upload

  /** In some run of the pool, transfer `i` finished uploading `total` blocks. */
  ghost predicate Uploads(pool: nat, s: Pool.State, steps: seq<Pool.Step>, i: nat, total: nat) {
    && Pool.Initial(pool, s) && Pool.Run(s, steps).Some?
    && var s' := Pool.Run(s, steps).value;
       i < |s'.transfers| && s'.transfers[i].Uploaded? && s'.transfers[i].total == total
  }

  /** In some run of the pool, transfer `i` finished downloading `total` blocks. */
  ghost predicate Downloads(pool: nat, s: Pool.State, steps: seq<Pool.Step>, i: nat, total: nat) {
    && Pool.Initial(pool, s) && Pool.Run(s, steps).Some?
    && var s' := Pool.Run(s, steps).value;
       i < |s'.transfers| && s'.transfers[i].Downloaded? && s'.transfers[i].total == total
  }

  lemma RunTransferOk(pool: nat, s: Pool.State, steps: seq<Pool.Step>, i: nat)
    requires Pool.Initial(pool, s) && Pool.Run(s, steps).Some?
    requires i < |Pool.Run(s, steps).value.transfers|
    ensures Steps.TransferOk(Pool.Run(s, steps).value.transfers[i])
  {
    Pool.InitialGood(pool, s);
    Pool.RunKeeps(pool, s, steps);
    assert Pool.Sound(Pool.Run(s, steps).value, i);
  }

  /** A finished upload has left exactly its blocks, 1 to `total`. */
  lemma UploadLeaves(pool: nat, s: Pool.State, steps: seq<Pool.Step>, i: nat, total: nat)
    requires Uploads(pool, s, steps, i, total)
    ensures forall b: nat :: b in Pool.Run(s, steps).value.transfers[i].stored <==> 1 <= b <= total
  {
    var stored := Pool.Run(s, steps).value.transfers[i].stored;
    RunTransferOk(pool, s, steps, i);
    forall b: nat ensures b in stored <==> 1 <= b <= total {
      Counted(stored, b);
    }
  }

  lemma {:induction false} HeldCounts<C>(held: map<nat, C>, n: nat)
    requires forall b: nat :: b in held <==> 1 <= b <= n
    ensures |held| == n
  {
    if n == 0 {
      assert held == map[];
    } else {
      HeldCounts(held - {n}, n - 1);
      assert (held - {n}).Keys == held.Keys - {n};
      assert |held.Keys| == |held| && |(held - {n}).Keys| == |held - {n}|;
    }
  }

  /** Blocks held, and nothing else, are listed and fetched in order. */
  lemma HeldIsServed<C>(
      held: map<nat, C>, blocks: seq<seq<byte>>, ciphertext: nat -> C, decrypt: C -> Result<seq<byte>, string>,
      server: Server<C>)
    returns (table: seq<Tables.Block>)
    requires forall b: nat :: b in held <==> 1 <= b <= |blocks|
    requires forall b: nat :: b in held ==> held[b] == ciphertext(b)
    requires Encrypts(ciphertext, decrypt, blocks) && Keeps(server, held)
    ensures Tables.Ends(server.page, |blocks| / Tables.PAGE_SIZE)
    ensures Tables.Listing(server.page, |blocks| / Tables.PAGE_SIZE) == Ok(table)
    ensures |table| == |blocks| && Serves(Fetched(server, table, decrypt), blocks)
  {
    HeldCounts(held, |blocks|);
    Tables.ListsEverything(server.page, |blocks|, server.url);
    table := Tables.Numbered(0, |blocks|, server.url);
    forall k | 0 <= k < |blocks| ensures Fetched(server, table, decrypt)(k) == Ok(blocks[k]) {
      assert table[k] == Tables.Block(k + 1, server.url(k + 1));
      assert held[k + 1] == ciphertext(k + 1);
    }
  }

  /** Whatever run of the pool an upload of the blocks finished in. */
  lemma UploadIsServed<C>(
      blocks: seq<seq<byte>>, pool: nat, s: Pool.State, steps: seq<Pool.Step>, i: nat,
      ciphertext: nat -> C, decrypt: C -> Result<seq<byte>, string>, server: Server<C>)
    returns (table: seq<Tables.Block>)
    requires Uploads(pool, s, steps, i, |blocks|) && Encrypts(ciphertext, decrypt, blocks)
    requires Keeps(server, Stored(Pool.Run(s, steps).value.transfers[i].stored, ciphertext))
    ensures Tables.Ends(server.page, |blocks| / Tables.PAGE_SIZE)
    ensures Tables.Listing(server.page, |blocks| / Tables.PAGE_SIZE) == Ok(table)
    ensures |table| == |blocks| && Serves(Fetched(server, table, decrypt), blocks)
  {
    var held := Stored(Pool.Run(s, steps).value.transfers[i].stored, ciphertext);
    UploadLeaves(pool, s, steps, i, |blocks|);
    table := HeldIsServed(held, blocks, ciphertext, decrypt, server);
  }

  /** Seekable reads: any stream, cut into blocks and uploaded in any run of the pool, in
      any completion order and any batches, to a server that keeps what it is given.
      Listing the table, ranking the sizes the upload recorded and reading any range gives
      that range of the stream, and nothing past its end. */
  lemma UploadThenRead<C>(
      stream: seq<byte>, pool: nat, s: Pool.State, steps: seq<Pool.Step>, i: nat,
      ciphertext: nat -> C, decrypt: C -> Result<seq<byte>, string>, server: Server<C>,
      common: Option<CommonAttributes>, offset: nat, length: nat)
    requires |stream| + DEFAULT_BLOCK_SIZE <= U64_MAX
    requires Uploads(pool, s, steps, i, |Chunks(stream)|)
    requires Encrypts(ciphertext, decrypt, Chunks(stream))
    requires Keeps(server, Stored(Pool.Run(s, steps).value.transfers[i].stored, ciphertext))
    requires Describes(common, stream)
    ensures Tables.Ends(server.page, |Chunks(stream)| / Tables.PAGE_SIZE)
    ensures var listing := Tables.Listing(server.page, |Chunks(stream)| / Tables.PAGE_SIZE);
      && listing.Ok?
      && var sizes := RankBlockSizes(common, |listing.value|);
         sizes.Ok? ==>
           ReadSpec(sizes.value, Fetched(server, listing.value, decrypt), offset, length)
           == Ok(Slice(stream, offset, length))
  {
    var table := UploadIsServed(Chunks(stream), pool, s, steps, i, ciphertext, decrypt, server);
    if RankBlockSizes(common, |table|).Ok? {
      StreamReads(stream, common, Fetched(server, table, decrypt), offset, length);
    }
  }

  /** The plaintexts of these blocks, in this order. */
  function Written(delivered: seq<nat>, fetch: nat -> Result<seq<byte>, string>): Result<seq<byte>, string> {
    if delivered == [] then Ok([])
    else
      var first := fetch(delivered[0]);
      var rest := Written(delivered[1..], fetch);
      if first.Err? then Err(first.error) else if rest.Err? then Err(rest.error) else Ok(first.value + rest.value)
  }

  lemma {:induction false} WrittenInOrder(a: nat, n: nat, fetch: nat -> Result<seq<byte>, string>,
                                          blocks: seq<seq<byte>>)
    requires Serves(fetch, blocks) && a <= n == |blocks|
    ensures Written(Steps.Range(a, n), fetch) == Ok(Flatten(blocks[a..]))
    decreases n - a
  {
    if a < n {
      WrittenInOrder(a + 1, n, fetch, blocks);
      assert Steps.Range(a, n)[1..] == Steps.Range(a + 1, n);
      assert blocks[a..][1..] == blocks[a + 1..];
    } else {
      assert blocks[a..] == [];
    }
  }

  /** Whole downloads: the blocks any finished download delivers, in whatever order its
      fetches came back, write out the stream. */
  lemma UploadThenDownload<C>(
      stream: seq<byte>, pool: nat, s: Pool.State, steps: seq<Pool.Step>, i: nat,
      pool': nat, s': Pool.State, steps': seq<Pool.Step>, j: nat,
      ciphertext: nat -> C, decrypt: C -> Result<seq<byte>, string>, server: Server<C>)
    requires Uploads(pool, s, steps, i, |Chunks(stream)|)
    requires Downloads(pool', s', steps', j, |Chunks(stream)|)
    requires Encrypts(ciphertext, decrypt, Chunks(stream))
    requires Keeps(server, Stored(Pool.Run(s, steps).value.transfers[i].stored, ciphertext))
    ensures Tables.Ends(server.page, |Chunks(stream)| / Tables.PAGE_SIZE)
    ensures var listing := Tables.Listing(server.page, |Chunks(stream)| / Tables.PAGE_SIZE);
      && listing.Ok?
      && Written(Pool.Run(s', steps').value.transfers[j].delivered, Fetched(server, listing.value, decrypt))
         == Ok(stream)
  {
    var n := |Chunks(stream)|;
    var table := UploadIsServed(Chunks(stream), pool, s, steps, i, ciphertext, decrypt, server);
    RunTransferOk(pool', s', steps', j);
    WrittenInOrder(0, n, Fetched(server, table, decrypt), Chunks(stream));
    assert Chunks(stream)[0..] == Chunks(stream);
    ChunksRejoin(stream);
  }
}
