/** The paged block table of a revision, listed with a speculative window. */
module BlockListing {
  import opened Wrappers
  import opened Sorting

  const PAGE_SIZE: nat := 50
  const MAX_PAGE_WINDOW: nat := 6

  datatype Block = Block(index: int, url: string)

  type Page = Result<seq<Block>, string>

  function IndexOf(b: Block): int { b.index }

  /** Whether the walk goes no further than page `k`. */
  predicate Ends(page: nat -> Page, k: nat) {
    page(k).Err? || |page(k).value| < PAGE_SIZE
  }

  /** The first page from `k` on that ends the walk. */
  function Stop(page: nat -> Page, k: nat, last: nat): (stop: nat)
    requires k <= last && Ends(page, last)
    ensures k <= stop <= last && Ends(page, stop)
    ensures forall j :: k <= j < stop ==> !Ends(page, j)
    decreases last - k
  {
    if Ends(page, k) then k else Stop(page, k + 1, last)
  }

  /** The blocks of the first `k` pages, in page order. */
  function Pages(page: nat -> Page, k: nat): seq<Block> {
    if k == 0 then [] else Pages(page, k - 1) + (if page(k - 1).Ok? then page(k - 1).value else [])
  }

  function FirstError(page: nat -> Page, a: nat, b: nat): (r: Option<string>)
    ensures r.None? <==> forall j :: a <= j < b ==> page(j).Ok?
    decreases b - a
  {
    if a >= b then None
    else if page(a).Err? then Some(page(a).error)
    else FirstError(page, a + 1, b)
  }

  predicate Contiguous(blocks: seq<Block>) {
    forall i :: 0 <= i < |blocks| ==> blocks[i].index == i + 1
  }

  /** The order and completeness check at the end of a listing. */
  function Checked(blocks: seq<Block>): (r: Page)
    ensures r.Ok? ==> Contiguous(r.value)
  {
    var sorted := SortBy(blocks, IndexOf);
    if Contiguous(sorted) then Ok(sorted) else Err("non-contiguous blocks")
  }

  /** How many pages are requested by the time page `k` has been looked at, when
      `next` have been requested and the next batch has `window`. */
  function Ramp(next: nat, window: nat, k: nat): nat
    requires window >= 1
    decreases k + 1 - next
  {
    if k < next then next
    else Ramp(next + window, Wider(window), k)
  }

  function Issued(k: nat): nat { Ramp(1, 2, k) }

  /** The listing as the windowed walk computes it. */
  function Listing(page: nat -> Page, last: nat): Page
    requires Ends(page, last)
  {
    var stop := Stop(page, 0, last);
    match FirstError(page, stop, Issued(stop))
    case Some(e) => Err(e)
    case None => Checked(Pages(page, stop + 1))
  }

  /** The listing as a walk of one page at a time computes it. */
  function SerialListing(page: nat -> Page, last: nat): Page
    requires Ends(page, last)
  {
    var stop := Stop(page, 0, last);
    if page(stop).Err? then Err(page(stop).error) else Checked(Pages(page, stop + 1))
  }

  lemma StopUnique(page: nat -> Page, last: nat, k: nat)
    requires Ends(page, last) && Ends(page, k)
    requires forall j :: 0 <= j < k ==> !Ends(page, j)
    ensures Stop(page, 0, last) == k
  {
  }

  /** One batch of pages, consumed in page order; a page after the one that ends
      the walk is discarded, unless it is an error. */
  method ReadBatch(page: nat -> Page, start: nat, size: nat, sofar: seq<Block>, ghost stop: nat)
    returns (error: Option<string>, blocks: seq<Block>, complete: bool)
    requires start <= stop && Ends(page, stop)
    requires forall j :: 0 <= j < stop ==> !Ends(page, j)
    requires sofar == Pages(page, start)
    ensures error == if stop < start + size then FirstError(page, stop, start + size) else None
    ensures error.None? ==> complete == (stop < start + size)
    ensures error.None? ==> blocks == Pages(page, if complete then stop + 1 else start + size)
  {
    blocks, complete := sofar, false;
    var j := start;
    while j < start + size
      invariant start <= j <= start + size
      invariant complete == (stop < j)
      invariant blocks == Pages(page, if complete then stop + 1 else j)
      invariant complete ==> forall i :: stop <= i < j ==> page(i).Ok?
    {
      var response := page(j);
      if response.Err? {
        assert Ends(page, j);
        FirstErrorAt(page, stop, j, start + size);
        return Some(response.error), blocks, complete;
      }
      if !complete {
        assert Ends(page, j) <==> j == stop;
        complete := |response.value| < PAGE_SIZE;
        blocks := blocks + response.value;
      }
      j := j + 1;
    }
    return None, blocks, complete;
  }

  /** The walk has asked for `next` pages, `window` more to come, and is on the way to
      page `stop`. */
  ghost predicate OnTheWay(page: nat -> Page, last: nat, next: nat, window: nat)
    requires Ends(page, last)
  {
    next >= 1 && window >= 1 && Issued(Stop(page, 0, last)) == Ramp(next, window, Stop(page, 0, last))
  }

  function Wider(window: nat): nat {
    if 2 * window < MAX_PAGE_WINDOW then 2 * window else MAX_PAGE_WINDOW
  }

  lemma GoesOn(page: nat -> Page, last: nat, next: nat, window: nat)
    requires Ends(page, last) && OnTheWay(page, last, next, window) && next <= Stop(page, 0, last)
    ensures OnTheWay(page, last, next + window, Wider(window))
  {
  }

  lemma Arrived(page: nat -> Page, last: nat, next: nat, window: nat)
    requires Ends(page, last) && OnTheWay(page, last, next, window) && Stop(page, 0, last) < next
    ensures Issued(Stop(page, 0, last)) == next
    ensures Listing(page, last) == match FirstError(page, Stop(page, 0, last), next)
                                   case Some(e) => Err(e)
                                   case None => Checked(Pages(page, Stop(page, 0, last) + 1))
  {
  }

  /** `last` is any page known to end the walk; the walk itself never sees it. */
  method ListBlocks(page: nat -> Page, ghost last: nat) returns (r: Page, requests: nat)
    requires Ends(page, last)
    ensures r == Listing(page, last)
    ensures requests == Issued(Stop(page, 0, last))
  {
    ghost var stop := Stop(page, 0, last);
    requests := 1;
    var nextPage: nat, window: nat := 1, 2;
    var error, blocks, complete := ReadBatch(page, 0, 1, [], stop);
    if error.Some? {
      Arrived(page, last, nextPage, window);
      return Err(error.value), requests;
    }
    while !complete
      invariant requests == nextPage && OnTheWay(page, last, nextPage, window)
      invariant complete == (stop < nextPage)
      invariant blocks == Pages(page, if complete then stop + 1 else nextPage)
      invariant complete ==> FirstError(page, stop, nextPage).None?
      decreases if complete then 0 else stop + 1 - nextPage
    {
      GoesOn(page, last, nextPage, window);
      requests := requests + window;
      error, blocks, complete := ReadBatch(page, nextPage, window, blocks, stop);
      nextPage := nextPage + window;
      window := Wider(window);
      if error.Some? {
        Arrived(page, last, nextPage, window);
        return Err(error.value), requests;
      }
    }
    Arrived(page, last, nextPage, window);
    return Checked(blocks), requests;
  }

  lemma {:induction false} FirstErrorAt(page: nat -> Page, a: nat, j: nat, b: nat)
    requires a <= j < b && page(j).Err?
    requires forall i :: a <= i < j ==> page(i).Ok?
    ensures FirstError(page, a, b) == Some(page(j).error)
    decreases j - a
  {
    if a < j { FirstErrorAt(page, a + 1, j, b); }
  }

  // --------------------------------------------------------------- main results

  lemma {:induction false} RampSurplus(next: nat, window: nat, k: nat)
    requires 1 <= window <= MAX_PAGE_WINDOW && next <= k + window
    requires k < next ==> next <= k + MAX_PAGE_WINDOW
    ensures k < Ramp(next, window, k) <= k + MAX_PAGE_WINDOW
    decreases k + 1 - next
  {
    if k >= next {
      RampSurplus(next + window, if 2 * window < MAX_PAGE_WINDOW then 2 * window else MAX_PAGE_WINDOW, k);
    }
  }

  lemma {:induction false} FullWindows(next: nat, k: nat)
    requires next <= k
    ensures Ramp(next, 6, k) == next + 6 * ((k - next) / 6 + 1)
    decreases k - next
  {
    if next + 6 <= k {
      FullWindows(next + 6, k);
      assert (k - next) / 6 == (k - (next + 6)) / 6 + 1;
    }
  }

  /** One page first, then batches of two, of four, and of six from there on. */
  lemma IssuedExactly(stop: nat)
    ensures Issued(stop) ==
            if stop < 1 then 1 else if stop < 3 then 3 else if stop < 7 then 7 else 13 + 6 * ((stop - 7) / 6)
  {
    assert stop >= 1 ==> Issued(stop) == Ramp(3, 4, stop);
    assert stop >= 3 ==> Issued(stop) == Ramp(7, 6, stop);
    if stop >= 7 { FullWindows(7, stop); }
  }

  /** The window asks for at most five pages the serial walk would not. */
  lemma AtMostFiveSurplus(stop: nat)
    ensures stop + 1 <= Issued(stop) <= (stop + 1) + 5
  {
    RampSurplus(1, 2, stop);
  }

  /** Against any server: a listing that succeeds is the serial one, with indices
      exactly 1 to its length; and it succeeds exactly when the serial one does
      and no page asked for in advance came back as an error. */
  lemma WindowRefinesSerial(page: nat -> Page, last: nat)
    requires Ends(page, last)
    ensures var stop := Stop(page, 0, last);
            Listing(page, last).Ok? <==>
              SerialListing(page, last).Ok? && forall j :: stop < j < Issued(stop) ==> page(j).Ok?
    ensures Listing(page, last).Ok? ==>
              Listing(page, last) == SerialListing(page, last) && Contiguous(Listing(page, last).value)
  {
    AtMostFiveSurplus(Stop(page, 0, last));
  }

  /** The blocks numbered `a + 1` to `b`. */
  function Numbered(a: nat, b: nat, url: nat -> string): (r: seq<Block>)
    requires a <= b
    ensures |r| == b - a && forall i :: 0 <= i < |r| ==> r[i] == Block(a + i + 1, url(a + i + 1))
  {
    seq(b - a, i requires 0 <= i < b - a => Block(a + i + 1, url(a + i + 1)))
  }

  /** A server holding blocks 1 to `n`, answering any page. */
  ghost predicate Holds(page: nat -> Page, n: nat, url: nat -> string) {
    forall k: nat :: page(k) ==
      var a := if k * PAGE_SIZE < n then k * PAGE_SIZE else n;
      var b := if (k + 1) * PAGE_SIZE < n then (k + 1) * PAGE_SIZE else n;
      Ok(Numbered(a, b, url))
  }

  lemma {:induction false} PagesOfHolder(page: nat -> Page, n: nat, url: nat -> string, k: nat)
    requires Holds(page, n, url)
    ensures Pages(page, k) == Numbered(0, if k * PAGE_SIZE < n then k * PAGE_SIZE else n, url)
  {
    if k > 0 {
      PagesOfHolder(page, n, url, k - 1);
      assert page(k - 1).Ok?;
    }
  }

  lemma CheckedInOrder(blocks: seq<Block>)
    requires Contiguous(blocks)
    ensures Checked(blocks) == Ok(blocks)
  {
    SortOfSorted(blocks, IndexOf);
  }

  lemma HolderStops(page: nat -> Page, n: nat, url: nat -> string)
    requires Holds(page, n, url)
    ensures Ends(page, n / PAGE_SIZE)
    ensures forall j: nat :: page(j).Ok?
    ensures forall j: nat :: j < n / PAGE_SIZE ==> !Ends(page, j)
  {
    forall j: nat ensures page(j).Ok? && (j < n / PAGE_SIZE ==> !Ends(page, j)) {
      assert j < n / PAGE_SIZE ==> (j + 1) * PAGE_SIZE <= n;
    }
    assert page(n / PAGE_SIZE).Ok?;
  }

  lemma AnsweringServerListed(page: nat -> Page, last: nat, blocks: seq<Block>)
    requires Ends(page, last) && forall j: nat :: j < last ==> !Ends(page, j)
    requires forall j: nat :: page(j).Ok?
    requires Pages(page, last + 1) == blocks && Contiguous(blocks)
    ensures Stop(page, 0, last) == last && Listing(page, last) == Ok(blocks)
  {
    StopUnique(page, last, last);
    CheckedInOrder(blocks);
  }

  /** A server with `n` blocks is listed completely and in order, for every `n`,
      in at most five pages more than it takes to read them one by one. */
  lemma ListsEverything(page: nat -> Page, n: nat, url: nat -> string)
    requires Holds(page, n, url)
    ensures Ends(page, n / PAGE_SIZE)
    ensures Listing(page, n / PAGE_SIZE) == Ok(Numbered(0, n, url))
    ensures Issued(Stop(page, 0, n / PAGE_SIZE)) <= n / PAGE_SIZE + 6
  {
    var last := n / PAGE_SIZE;
    HolderStops(page, n, url);
    AtMostFiveSurplus(last);
    PagesOfHolder(page, n, url, last + 1);
    AnsweringServerListed(page, last, Numbered(0, n, url));
  }

  /** An error on a page past the end of the table fails the whole listing,
      although a walk of one page at a time would never have asked for it. */
  lemma SurplusErrorFailsListing(page: nat -> Page, url: nat -> string)
    requires page(0) == Ok(Numbered(0, 50, url)) && page(1) == Ok(Numbered(50, 51, url))
    requires page(2) == Err("gone")
    ensures SerialListing(page, 1) == Ok(Numbered(0, 51, url))
    ensures Listing(page, 1) == Err("gone")
  {
    StopUnique(page, 1, 1);
    assert Pages(page, 2) == Pages(page, 1) + page(1).value;
    assert Pages(page, 1) == Pages(page, 0) + page(0).value;
    assert Pages(page, 2) == Numbered(0, 51, url);
    SortOfSorted(Numbered(0, 51, url), IndexOf);
    assert Issued(1) == 3;
    FirstErrorAt(page, 1, 2, 3);
  }
}
