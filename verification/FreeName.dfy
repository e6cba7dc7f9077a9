/** Finding a free name: the name itself, then numbered alternates, asked of the
    server by hash ten at a time. */
module FreeName {
  import opened Nodes
  import opened Wrappers

  const NAME_AVAILABILITY_BATCH: nat := 10

  datatype Target = File | Folder

  // ------------------------------------------------------------------- the candidates

  function Decimal(n: nat): string {
    if n < 10 then [Digit(n)] else Decimal(n / 10) + [Digit(n % 10)]
  }

  function Digit(d: nat): char
    requires d < 10
  {
    ('0' as int + d) as char
  }

  function ValueOf(digits: string): int {
    if digits == [] then 0 else 10 * ValueOf(digits[..|digits| - 1]) + (digits[|digits| - 1] as int - '0' as int)
  }

  lemma {:induction false} DecimalRoundTrip(n: nat)
    ensures ValueOf(Decimal(n)) == n
  {
    if n >= 10 {
      DecimalRoundTrip(n / 10);
      assert Decimal(n)[..|Decimal(n)| - 1] == Decimal(n / 10);
    } else {
      assert Decimal(n)[..0] == [];
    }
  }

  /** Where the last dot is, or the length when there is none. */
  function LastDot(name: string): (dot: nat)
    ensures dot <= |name| && (dot < |name| ==> name[dot] == '.')
    ensures '.' !in name[dot + (if dot < |name| then 1 else 0)..]
    ensures dot == |name| ==> '.' !in name
  {
    if name == [] then 0
    else if name[|name| - 1] == '.' then |name| - 1
    else
      var shorter := name[..|name| - 1];
      var dot := LastDot(shorter);
      assert name == shorter + [name[|name| - 1]];
      if dot == |shorter| then |name| else dot
  }

  /** The `i`th name to try: a file keeps its extension last, a folder's number goes
      after the whole name. */
  function Candidate(name: string, target: Target, i: nat): string {
    if i == 0 then name
    else
      var cut := if target.File? then LastDot(name) else |name|;
      name[..cut] + (" (" + Decimal(i) + ")") + name[cut..]
  }

  /** An alternate starts with the name up to its extension and ends with the
      extension; a folder has none, and a dot in its name stays where it is. */
  lemma AlternateKeepsExtension(name: string, target: Target, i: nat)
    requires i > 0
    ensures var alternate := Candidate(name, target, i);
      var cut := if target.File? then LastDot(name) else |name|;
      && |alternate| == |name| + 3 + |Decimal(i)|
      && alternate[..cut] == name[..cut]
      && alternate[cut..cut + 3 + |Decimal(i)|] == " (" + Decimal(i) + ")"
      && alternate[|alternate| - (|name| - cut)..] == name[cut..]
  {
  }

  lemma {:induction false} SameMiddle(a: string, x: string, y: string, b: string)
    requires a + x + b == a + y + b
    ensures x == y
  {
    assert |x| == |y|;
    forall k | 0 <= k < |x| ensures x[k] == y[k] {
      assert (a + x + b)[|a| + k] == x[k] && (a + y + b)[|a| + k] == y[k];
    }
  }

  lemma CandidatesDiffer(name: string, target: Target, i: nat, j: nat)
    requires i != j
    ensures Candidate(name, target, i) != Candidate(name, target, j)
  {
    if i > 0 && j > 0 && Candidate(name, target, i) == Candidate(name, target, j) {
      var cut := if target.File? then LastDot(name) else |name|;
      SameMiddle(name[..cut], " (" + Decimal(i) + ")", " (" + Decimal(j) + ")", name[cut..]);
      SameMiddle(" (", Decimal(i), Decimal(j), ")");
      DecimalRoundTrip(i);
      DecimalRoundTrip(j);
    }
  }

  // ----------------------------------------------------------------------- the search

  type Digest = string

  /** A stream of candidate names. */
  type Names = nat -> string

  function Candidates(name: string, target: Target): Names {
    (i: nat) => Candidate(name, target, i)
  }

  /** No two candidates share a digest. */
  ghost predicate Distinguishes(hash: string -> Digest, names: Names) {
    forall i: nat, j: nat :: i < j ==> hash(names(i)) != hash(names(j))
  }

  ghost predicate CollisionFree(hash: string -> Digest) {
    forall a, b :: hash(a) == hash(b) ==> a == b
  }

  lemma CandidatesAreDistinguished(hash: string -> Digest, name: string, target: Target)
    requires CollisionFree(hash)
    ensures Distinguishes(hash, Candidates(name, target))
  {
    var names := Candidates(name, target);
    forall i: nat, j: nat | i < j ensures hash(names(i)) != hash(names(j)) {
      CandidatesDiffer(name, target, i, j);
    }
  }

  /** Which digests are taken when, and what the server answers to a batch: None when
      the request fails. */
  datatype Server = Server(taken: nat -> set<Digest>, answer: (nat, seq<Digest>) -> Option<seq<Digest>>)

  /** Request `k` for `order` finds nothing only where everything is taken. */
  ghost predicate EmptyTruly(server: Server, k: nat, order: seq<Digest>) {
    server.answer(k, order) == Some([]) ==> forall d :: d in order ==> d in server.taken(k)
  }

  /** Every digest taken at any time is in `ever`, and no other is called taken. */
  ghost predicate Within(server: Server, ever: set<Digest>) {
    && (forall k: nat :: server.taken(k) <= ever)
    && (forall k: nat, order: seq<Digest> :: EmptyTruly(server, k, order))
  }

  ghost predicate AnswersTruly(server: Server, k: nat, order: seq<Digest>) {
    server.answer(k, order).Some? ==>
      forall d :: d in server.answer(k, order).value <==> d in order && d !in server.taken(k)
  }

  /** The server lists the free ones among those asked about, in an order of its own. */
  ghost predicate Honest(server: Server) {
    forall k: nat, order: seq<Digest> :: AnswersTruly(server, k, order)
  }

  /** The digests of request `k`. */
  function Digests(names: Names, hash: string -> Digest, k: nat): (order: seq<Digest>)
    ensures |order| == NAME_AVAILABILITY_BATCH
    ensures forall i :: 0 <= i < |order| ==> order[i] == hash(names(k * NAME_AVAILABILITY_BATCH + i))
  {
    seq(NAME_AVAILABILITY_BATCH, i requires 0 <= i < NAME_AVAILABILITY_BATCH =>
      hash(names(k * NAME_AVAILABILITY_BATCH + i)))
  }

  /** `candidate` is one of the names request `k` asks about. */
  ghost predicate InBatch(names: Names, k: nat, candidate: string) {
    exists i: nat :: k * NAME_AVAILABILITY_BATCH <= i < (k + 1) * NAME_AVAILABILITY_BATCH && candidate == names(i)
  }

  /** Request `k` found nothing free. */
  ghost predicate Fruitless(server: Server, names: Names, hash: string -> Digest, k: nat) {
    server.answer(k, Digests(names, hash, k)) == Some([])
  }

  /** The digests of the first `n` candidates. */
  ghost function Tried(names: Names, hash: string -> Digest, n: nat): set<Digest> {
    set i: nat | i < n :: hash(names(i))
  }

  lemma {:induction false} TriedCounts(names: Names, hash: string -> Digest, n: nat)
    requires Distinguishes(hash, names)
    ensures |Tried(names, hash, n)| == n
  {
    if n > 0 {
      TriedCounts(names, hash, n - 1);
      assert Tried(names, hash, n) == Tried(names, hash, n - 1) + {hash(names(n - 1))};
    }
  }

  lemma FruitlessTaken(server: Server, names: Names, hash: string -> Digest, ever: set<Digest>, i: nat)
    requires Within(server, ever) && Fruitless(server, names, hash, i / NAME_AVAILABILITY_BATCH)
    ensures hash(names(i)) in ever
  {
    var k, j := i / NAME_AVAILABILITY_BATCH, i % NAME_AVAILABILITY_BATCH;
    var order := Digests(names, hash, k);
    assert order[j] == hash(names(i)) && order[j] in order;
    assert EmptyTruly(server, k, order) && server.taken(k) <= ever;
  }

  /** Every fruitless request uses up ten of the digests that are ever taken. */
  lemma FruitlessBound(server: Server, names: Names, hash: string -> Digest, ever: set<Digest>, n: nat)
    requires Distinguishes(hash, names) && Within(server, ever)
    requires forall k: nat :: k < n ==> Fruitless(server, names, hash, k)
    ensures n * NAME_AVAILABILITY_BATCH <= |ever|
  {
    forall i: nat | i < n * NAME_AVAILABILITY_BATCH ensures hash(names(i)) in ever {
      FruitlessTaken(server, names, hash, ever, i);
    }
    TriedCounts(names, hash, n * NAME_AVAILABILITY_BATCH);
    SubsetSmaller(Tried(names, hash, n * NAME_AVAILABILITY_BATCH), ever);
  }

  datatype Failure = RequestFailed | UnknownDigest

  /** What an answer to request `k` is turned into: the candidate whose digest it lists
      first, if there is one. */
  ghost predicate Taking(names: Names, hash: string -> Digest, k: nat, answer: Option<seq<Digest>>,
                         r: Result<string, Failure>)
  {
    && answer != Some([])
    && (answer.None? <==> r == Err(RequestFailed))
    && (answer.Some? ==>
         if answer.value[0] in Digests(names, hash, k)
         then r.Ok? && hash(r.value) == answer.value[0] && InBatch(names, k, r.value)
         else r == Err(UnknownDigest))
  }

  /** What the search gives after `requests` requests: all but the last were fruitless. */
  ghost predicate Found(server: Server, names: Names, hash: string -> Digest, requests: nat,
                        r: Result<string, Failure>)
  {
    && requests > 0
    && (forall k: nat :: k < requests - 1 ==> Fruitless(server, names, hash, k))
    && Taking(names, hash, requests - 1, server.answer(requests - 1, Digests(names, hash, requests - 1)), r)
  }

  /** From an honest server: a free name, of the earliest batch that has one. */
  lemma FoundIsFree(server: Server, names: Names, hash: string -> Digest, requests: nat, r: Result<string, Failure>)
    requires Honest(server) && Found(server, names, hash, requests, r)
    ensures r != Err(UnknownDigest)
    ensures r.Ok? ==> hash(r.value) !in server.taken(requests - 1) && InBatch(names, requests - 1, r.value)
    ensures forall k: nat, d :: k < requests - 1 && d in Digests(names, hash, k) ==> d in server.taken(k)
  {
    forall k: nat, d | k < requests - 1 && d in Digests(names, hash, k) ensures d in server.taken(k) {
      assert Fruitless(server, names, hash, k) && AnswersTruly(server, k, Digests(names, hash, k));
    }
    var order := Digests(names, hash, requests - 1);
    assert AnswersTruly(server, requests - 1, order);
    var answer := server.answer(requests - 1, order);
    if answer.Some? { assert answer.value[0] in answer.value; }
  }

  /** Look for a free name along a stream of candidates. */
  method Search(names: Names, hash: string -> Digest, server: Server, ghost ever: set<Digest>)
    returns (r: Result<string, Failure>, requests: nat)
    requires Distinguishes(hash, names) && Within(server, ever)
    ensures Found(server, names, hash, requests, r)
    ensures requests <= |ever| / NAME_AVAILABILITY_BATCH + 1
  {
    requests := 0;
    while true
      invariant forall k: nat :: k < requests ==> Fruitless(server, names, hash, k)
      invariant requests * NAME_AVAILABILITY_BATCH <= |ever|
      decreases |ever| - requests * NAME_AVAILABILITY_BATCH
    {
      var order, byDigest := NextBatch(names, hash, requests);
      var answer := server.answer(requests, order);
      requests := requests + 1;
      if answer != Some([]) {
        r := Take(names, hash, requests - 1, order, byDigest, answer);
        return r, requests;
      }
      FruitlessBound(server, names, hash, ever, requests);
    }
  }

  method Take(names: Names, hash: string -> Digest, k: nat, order: seq<Digest>, byDigest: map<Digest, string>,
              answer: Option<seq<Digest>>) returns (r: Result<string, Failure>)
    requires answer != Some([]) && order == Digests(names, hash, k)
    requires forall d :: d in byDigest <==> d in order
    requires forall d :: d in byDigest ==> hash(byDigest[d]) == d && InBatch(names, k, byDigest[d])
    ensures Taking(names, hash, k, answer, r)
  {
    if answer.None? {
      return Err(RequestFailed);
    }
    var digest := answer.value[0];
    return if digest in byDigest then Ok(byDigest[digest]) else Err(UnknownDigest);
  }

  method NextBatch(names: Names, hash: string -> Digest, k: nat)
    returns (order: seq<Digest>, byDigest: map<Digest, string>)
    ensures order == Digests(names, hash, k)
    ensures forall d :: d in byDigest <==> d in order
    ensures forall d :: d in byDigest ==> hash(byDigest[d]) == d && InBatch(names, k, byDigest[d])
  {
    order, byDigest := [], map[];
    var i := 0;
    while i < NAME_AVAILABILITY_BATCH
      invariant 0 <= i <= NAME_AVAILABILITY_BATCH
      invariant order == Digests(names, hash, k)[..i]
      invariant forall d :: d in byDigest <==> d in order
      invariant forall d :: d in byDigest ==> hash(byDigest[d]) == d && InBatch(names, k, byDigest[d])
    {
      var candidate := names(k * NAME_AVAILABILITY_BATCH + i);
      order := order + [hash(candidate)];
      byDigest := byDigest[hash(candidate) := candidate];
      i := i + 1;
    }
  }

  /** The name itself, or the alternate the search finds. `ever` bounds the digests
      that are taken at any time while it runs. */
  method GetAvailableName(name: string, target: Target, hash: string -> Digest, server: Server, ghost ever: set<Digest>)
    returns (r: Result<string, Failure>, requests: nat)
    requires CollisionFree(hash) && Within(server, ever)
    ensures Found(server, Candidates(name, target), hash, requests, r)
    ensures requests <= |ever| / NAME_AVAILABILITY_BATCH + 1
  {
    CandidatesAreDistinguished(hash, name, target);
    r, requests := Search(Candidates(name, target), hash, server, ever);
  }

  // ------------------------------------------------------------- when the name is kept

  /** With these digests taken at the first request, every honest server leaves the name
      unchanged. */
  ghost predicate AlwaysKept(names: Names, hash: string -> Digest, taken: set<Digest>) {
    forall server, requests, r {:trigger Found(server, names, hash, requests, Ok(r))} ::
      Honest(server) && server.taken(0) == taken && Found(server, names, hash, requests, Ok(r)) ==> r == names(0)
  }

  /** The other nine candidates of the first request are taken. */
  ghost predicate AlternatesTaken(names: Names, hash: string -> Digest, taken: set<Digest>) {
    forall i: nat :: 0 < i < NAME_AVAILABILITY_BATCH ==> hash(names(i)) in taken
  }

  /** A name that is free comes back unchanged, whatever honest server is asked, exactly
      when its first nine alternates are taken. */
  lemma FreeNameKeptExactlyWhenAlternatesTaken(names: Names, hash: string -> Digest, taken: set<Digest>)
    requires CollisionFree(hash) && Distinguishes(hash, names) && hash(names(0)) !in taken
    ensures AlwaysKept(names, hash, taken) <==> AlternatesTaken(names, hash, taken)
  {
    if AlternatesTaken(names, hash, taken) {
      forall server, requests, r | Honest(server) && server.taken(0) == taken
            && Found(server, names, hash, requests, Ok(r))
        ensures r == names(0)
      {
        OnlyFreeNameKept(names, hash, server, requests, r);
      }
    } else {
      var i: nat :| 0 < i < NAME_AVAILABILITY_BATCH && hash(names(i)) !in taken;
      FreeAlternateCanWin(names, hash, taken, i);
    }
  }

  lemma FirstRequestDecides(names: Names, hash: string -> Digest, server: Server, requests: nat,
                            r: Result<string, Failure>)
    requires Honest(server) && hash(names(0)) !in server.taken(0) && Found(server, names, hash, requests, r)
    ensures requests == 1
  {
    var order := Digests(names, hash, 0);
    assert order[0] == hash(names(0)) && order[0] in order;
    FoundIsFree(server, names, hash, requests, r);
  }

  /** A name that is the only free candidate of the first ten is kept. */
  lemma OnlyFreeNameKept(names: Names, hash: string -> Digest, server: Server, requests: nat, r: string)
    requires CollisionFree(hash) && Honest(server) && hash(names(0)) !in server.taken(0)
    requires AlternatesTaken(names, hash, server.taken(0))
    requires Found(server, names, hash, requests, Ok(r))
    ensures r == names(0)
  {
    FirstRequestDecides(names, hash, server, requests, Ok(r));
    FoundIsFree(server, names, hash, requests, Ok(r));
    var i: nat :| 0 <= i < NAME_AVAILABILITY_BATCH && r == names(i);
    assert hash(names(i)) !in server.taken(0);
  }

  /** The free digests of a request, in its order. */
  function Free(order: seq<Digest>, taken: set<Digest>): (free: seq<Digest>)
    ensures forall d :: d in free <==> d in order && d !in taken
  {
    if order == [] then []
    else if order[0] in taken then Free(order[1..], taken)
    else [order[0]] + Free(order[1..], taken)
  }

  /** A server that names `favourite` first when it is asked about it and it is free. */
  function Favouring(favourite: Digest, taken: set<Digest>): Server {
    Server((k: nat) => taken,
           (k: nat, order: seq<Digest>) =>
             Some((if favourite in order && favourite !in taken then [favourite] else []) + Free(order, taken)))
  }

  lemma FavouringIsHonest(favourite: Digest, taken: set<Digest>)
    ensures Honest(Favouring(favourite, taken))
  {
    var server := Favouring(favourite, taken);
    forall k: nat, order: seq<Digest> ensures AnswersTruly(server, k, order) {
      assert forall d :: d in Free(order, taken) <==> d in order && d !in taken;
    }
  }

  /** One free alternate is enough for some honest server to rename a free name. */
  lemma FreeAlternateCanWin(names: Names, hash: string -> Digest, taken: set<Digest>, i: nat)
    requires Distinguishes(hash, names) && hash(names(0)) !in taken
    requires 0 < i < NAME_AVAILABILITY_BATCH && hash(names(i)) !in taken
    ensures !AlwaysKept(names, hash, taken)
  {
    var favourite := hash(names(i));
    var server := Favouring(favourite, taken);
    FavouringIsHonest(favourite, taken);
    var order := Digests(names, hash, 0);
    assert order[i] == favourite && order[i] in order;
    assert server.answer(0, order).value[0] == favourite;
    assert InBatch(names, 0, names(i));
    assert Found(server, names, hash, 1, Ok(names(i)));
    assert hash(names(0)) != hash(names(i));
  }
}
