/** Resolving a node's key over caches: climb to the nearest known key, decrypt downward. */
module KeyWalk {
  import opened Wrappers

  const MAX_BATCH_COUNT: nat := 150

  /** A link as the server describes it: its own id, its parent, its locked key. */
  datatype Link = Link(id: nat, parent: Option<nat>, lockedKey: nat)

  /** The server's links, the keys their roots' shares give, and what unlocking a
      locked key with a parent key yields. `depth` witnesses that no link is its own
      ancestor. */
  datatype World<!K> = World(
    links: map<nat, Link>, depth: nat -> nat, shareKey: nat -> Option<K>, unlock: (K, nat) -> Option<K>)

  ghost predicate Tree<K>(w: World<K>) {
    forall id :: id in w.links ==>
      && w.links[id].id == id
      && (w.links[id].parent.Some? ==> w.depth(w.links[id].parent.value) < w.depth(id))
  }

  // ------------------------------------------------------- the naive recursion

  /** The key of node `id`, derived from its root's share key down. */
  ghost function NodeKey<K>(w: World<K>, id: nat): Option<K>
    requires Tree(w)
    decreases w.depth(id), 1
  {
    if id !in w.links then None else Unlocked(w, ParentKey(w, w.links[id]), w.links[id])
  }

  /** The key that unlocks `link`: its parent's node key, or its share's key. */
  ghost function ParentKey<K>(w: World<K>, link: Link): Option<K>
    requires Tree(w)
    decreases if link.parent.Some? then w.depth(link.parent.value) + 1 else 0, 0
  {
    match link.parent
    case None => w.shareKey(link.id)
    case Some(parent) => NodeKey(w, parent)
  }

  function Unlocked<K>(w: World<K>, key: Option<K>, link: Link): Option<K> {
    if key.None? then None else w.unlock(key.value, link.lockedKey)
  }

  // -------------------------------------------------------------- the two caches

  /** The decrypted folder keys and the cached parent pointers of one volume. */
  class Caches<K(==)> {
    var folderKeys: map<nat, K>
    var parents: map<nat, Option<nat>>

    /** How many awaits have seen another task change the caches. */
    ghost var disturbances: nat

    constructor ()
      ensures folderKeys == map[] && parents == map[]
    {
      folderKeys, parents := map[], map[];
    }

    /** Every cached key is the node's own, every cached pointer the server's. */
    ghost predicate Truthful(w: World<K>)
      requires Tree(w)
      reads this
    {
      && (forall id :: id in folderKeys ==> NodeKey(w, id) == Some(folderKeys[id]))
      && (forall id :: id in parents ==> id in w.links && w.links[id].parent == parents[id])
    }

    /** An await: other tasks add true entries and the LRU evicts any it likes.
        Callers learn nothing about the caches except that they stay truthful. */
    method Await(ghost w: World<K>)
      requires Tree(w) && Truthful(w)
      modifies this
      ensures Truthful(w)
      ensures disturbances >= old(disturbances)
      ensures disturbances == old(disturbances) <==> folderKeys == old(folderKeys) && parents == old(parents)
    {
      var evicted: set<nat> := *;
      folderKeys, parents := folderKeys - evicted, parents - evicted;
      if folderKeys != old(folderKeys) || parents != old(parents) { disturbances := disturbances + 1; }
    }

    /** Cache the key of a node once the cache is free. */
    method StoreKey(ghost w: World<K>, id: nat, key: K)
      requires Tree(w) && Truthful(w) && NodeKey(w, id) == Some(key)
      modifies this
      ensures Truthful(w) && disturbances >= old(disturbances)
      ensures disturbances == old(disturbances) ==> folderKeys == old(folderKeys)[id := key]
    {
      Await(w);
      PutKey(id, key);
    }

    method GetKey(id: nat) returns (key: Option<K>)
      ensures key == if id in folderKeys then Some(folderKeys[id]) else None
    {
      key := if id in folderKeys then Some(folderKeys[id]) else None;
    }

    method PutKey(id: nat, key: K)
      modifies this`folderKeys
      ensures folderKeys == old(folderKeys)[id := key]
    {
      folderKeys := folderKeys[id := key];
    }
  }

  // --------------------------------------------------------------- the requests

  /** Link details for a batch of ids, or None when the request fails. One walk
      never repeats a request, so a function loses no behaviour of the server. */
  type Fetch = seq<nat> -> Option<map<nat, Link>>

  ghost predicate Honest<K>(fetch: Fetch, w: World<K>) {
    forall ids, id :: fetch(ids).Some? && id in fetch(ids).value ==>
        id in w.links && fetch(ids).value[id] == w.links[id]
  }

  ghost predicate Reliable<K>(fetch: Fetch, w: World<K>) {
    forall ids :: fetch(ids).Some? && forall id :: id in ids && id in w.links ==> id in fetch(ids).value
  }

  /** The server answers every request for some of these ids with those it has. */
  ghost predicate ReliableOn<K>(fetch: Fetch, w: World<K>, some: set<nat>) {
    forall ids :: (forall id :: id in ids ==> id in some) ==> AnswersAll(fetch, w, ids)
  }

  ghost predicate AnswersAll<K>(fetch: Fetch, w: World<K>, ids: seq<nat>) {
    fetch(ids).Some? && forall id :: id in ids && id in w.links ==> id in fetch(ids).value
  }

  /** The ancestors from `next` up that lie below the nearest one whose key is cached. */
  ghost function Needed<K>(w: World<K>, keys: set<nat>, next: Option<nat>): set<nat>
    requires Tree(w)
    decreases Height(w, next)
  {
    match next
    case None => {}
    case Some(id) =>
      if id in keys then {}
      else if id !in w.links then {id}
      else {id} + Needed(w, keys, w.links[id].parent)
  }

  ghost function Ids(chain: seq<Link>): set<nat> {
    set link | link in chain :: link.id
  }

  ghost function Members(ids: seq<nat>): set<nat> {
    set id | id in ids
  }

  lemma IdsOfMore(link: Link, chain: seq<Link>)
    ensures Ids([link] + chain) == {link.id} + Ids(chain) == Ids(chain + [link])
  {
    assert forall l :: l in [link] + chain <==> l == link || l in chain;
    assert forall l :: l in chain + [link] <==> l == link || l in chain;
  }

  lemma IdsFrom(chain: seq<Link>, i: nat)
    requires i < |chain|
    ensures Ids(chain[i..]) == {chain[i].id} + Ids(chain[i + 1..])
  {
    assert chain[i..] == [chain[i]] + chain[i + 1..];
    IdsOfMore(chain[i], chain[i + 1..]);
  }

  /** A run of ancestors with no cached key is needed, and so is what lies beyond it. */
  lemma {:induction false} RunNeeded<K>(w: World<K>, keys: set<nat>, run: seq<nat>)
    requires Tree(w) && run != [] && Upward(w, run) && run[0] !in keys && NoneDecrypted(keys, run)
    ensures forall id :: id in run ==> id in Needed(w, keys, Some(run[0]))
    ensures (forall id :: id in run ==> id in w.links) ==>
              Needed(w, keys, Some(run[0])) ==
              Members(run) + Needed(w, keys, w.links[run[|run| - 1]].parent)
    decreases |run|
  {
    var rest := run[1..];
    assert forall id :: id in run <==> id == run[0] || id in rest;
    if rest != [] {
      assert Upward(w, rest) by {
        forall i | 0 <= i < |rest| - 1 ensures rest[i] in w.links && w.links[rest[i]].parent == Some(rest[i + 1]) {
          assert rest[i] == run[i + 1];
        }
      }
      assert NoneDecrypted(keys, rest) && rest[0] == run[1];
      RunNeeded(w, keys, rest);
      assert w.links[run[0]].parent == Some(rest[0]);
      assert rest[|rest| - 1] == run[|run| - 1];
    }
  }

  // --------------------------------------------------------------- the upward walk

  /** Each id is the parent of the one before it. */
  ghost predicate Upward<K>(w: World<K>, run: seq<nat>) {
    forall i :: 0 <= i < |run| - 1 ==> run[i] in w.links && w.links[run[i]].parent == Some(run[i + 1])
  }

  /** Why a run of ancestors stops where it does: it is full, its last id is unknown or a
      root, or the next ancestor's key is already there. */
  ghost predicate StopsHere(keys: set<nat>, parents: map<nat, Option<nat>>, run: seq<nat>)
    requires run != []
  {
    var last := run[|run| - 1];
    || |run| == MAX_BATCH_COUNT
    || last !in parents || parents[last].None?
    || parents[last].value in keys
  }

  /** Nothing after the first id would have been found decrypted. */
  ghost predicate NoneDecrypted(keys: set<nat>, run: seq<nat>) {
    forall i :: 0 < i < |run| ==> run[i] !in keys
  }

  lemma RunGrows<K>(w: World<K>, keys: set<nat>, run: seq<nat>, parent: nat)
    requires run != [] && Upward(w, run)
    requires run[|run| - 1] in w.links && w.links[run[|run| - 1]].parent == Some(parent)
    ensures Upward(w, run + [parent])
    ensures NoneDecrypted(keys, run) && parent !in keys ==> NoneDecrypted(keys, run + [parent])
  {
  }

  /** The run of ancestors from `first` up that the entity cache can name. While nothing
      else touches the caches it holds no ancestor that would not have been fetched, and
      stops only where it has to. */
  method CachedAncestorRun<K(==)>(caches: Caches<K>, ghost w: World<K>, first: nat)
    returns (run: seq<nat>)
    requires Tree(w) && caches.Truthful(w)
    modifies caches
    ensures caches.Truthful(w)
    ensures 1 <= |run| <= MAX_BATCH_COUNT && run[0] == first && Upward(w, run)
    ensures caches.disturbances >= old(caches.disturbances)
    ensures caches.disturbances == old(caches.disturbances) ==>
              && caches.folderKeys == old(caches.folderKeys) && caches.parents == old(caches.parents)
              && NoneDecrypted(caches.folderKeys.Keys, run)
              && StopsHere(caches.folderKeys.Keys, caches.parents, run)
  {
    run := [first];
    var current := first;
    while |run| < MAX_BATCH_COUNT
      invariant caches.Truthful(w)
      invariant 1 <= |run| <= MAX_BATCH_COUNT && run[0] == first && run[|run| - 1] == current && Upward(w, run)
      invariant caches.disturbances >= old(caches.disturbances)
      invariant caches.disturbances == old(caches.disturbances) ==>
        && caches.folderKeys == old(caches.folderKeys) && caches.parents == old(caches.parents)
        && NoneDecrypted(caches.folderKeys.Keys, run)
      decreases MAX_BATCH_COUNT - |run|
    {
      caches.Await(w);
      if current !in caches.parents {
        break;
      }
      var known := caches.parents[current];
      if known.None? {
        break;
      }
      var parent := known.value;
      assert w.links[current].parent == Some(parent);
      caches.Await(w);
      var key := caches.GetKey(parent);
      if key.Some? {
        break;
      }
      RunGrows(w, caches.folderKeys.Keys, run, parent);
      current := parent;
      run := run + [current];
    }
  }

  /** Decrypt `key` downward through `chain`, topmost link last. */
  function Descend<K>(w: World<K>, chain: seq<Link>, key: Option<K>): Option<K>
    decreases |chain|
  {
    if chain == [] then key
    else Descend(w, chain[..|chain| - 1], Unlocked(w, key, chain[|chain| - 1]))
  }

  lemma {:induction false} DescendNone<K>(w: World<K>, chain: seq<Link>)
    ensures Descend(w, chain, None) == None
    decreases |chain|
  {
    if chain != [] { DescendNone(w, chain[..|chain| - 1]); }
  }

  lemma DescendAppend<K>(w: World<K>, chain: seq<Link>, link: Link, key: Option<K>)
    ensures Descend(w, chain + [link], key) == Descend(w, chain, Unlocked(w, key, link))
  {
    assert (chain + [link])[..|chain|] == chain;
  }

  /** Where a chain climbing from `link` goes after its first `i` links. */
  ghost function Above(link: Link, chain: seq<Link>, i: nat): Option<nat>
    requires i <= |chain|
  {
    if i == 0 then link.parent else chain[i - 1].parent
  }

  ghost predicate ClimbsAt<K>(w: World<K>, link: Link, chain: seq<Link>, i: nat)
    requires i < |chain|
  {
    && Above(link, chain, i) == Some(chain[i].id)
    && chain[i].id in w.links
    && w.links[chain[i].id] == chain[i]
  }

  /** `chain` climbs from `link`: its links are the server's, each the parent of
      the one before, and `next` is where it would go on. */
  ghost predicate Climbs<K>(w: World<K>, link: Link, chain: seq<Link>, next: Option<nat>) {
    && (forall i {:trigger ClimbsAt(w, link, chain, i)} :: 0 <= i < |chain| ==> ClimbsAt(w, link, chain, i))
    && next == Above(link, chain, |chain|)
  }

  /** The key the top of a chain starts from. */
  ghost function TopKey<K>(w: World<K>, link: Link, chain: seq<Link>, next: Option<nat>): Option<K>
    requires Tree(w)
  {
    match next
    case Some(id) => NodeKey(w, id)
    case None => w.shareKey(if chain == [] then link.id else chain[|chain| - 1].id)
  }

  /** A walk from `link` up to `next`: what it has climbed leads down to the key sought. */
  ghost predicate Reaches<K>(w: World<K>, link: Link, chain: seq<Link>, next: Option<nat>)
    requires Tree(w)
  {
    && Climbs(w, link, chain, next)
    && ParentKey(w, link) == Descend(w, chain, TopKey(w, link, chain, next))
  }

  ghost function Height<K>(w: World<K>, next: Option<nat>): nat {
    if next.None? then 0 else w.depth(next.value) + 1
  }

  lemma ClimbsOn<K>(w: World<K>, link: Link, chain: seq<Link>, up: Link)
    requires Climbs(w, link, chain, Some(up.id)) && up.id in w.links && w.links[up.id] == up
    ensures Climbs(w, link, chain + [up], up.parent)
  {
    var longer := chain + [up];
    forall i | 0 <= i < |longer| ensures ClimbsAt(w, link, longer, i) {
      if i < |chain| {
        assert ClimbsAt(w, link, chain, i);
        assert Above(link, longer, i) == Above(link, chain, i);
      } else {
        assert Above(link, longer, i) == Above(link, chain, |chain|);
      }
    }
  }

  lemma ClimbOne<K>(w: World<K>, link: Link, chain: seq<Link>, up: Link)
    requires Tree(w) && Climbs(w, link, chain, Some(up.id)) && up.id in w.links && w.links[up.id] == up
    ensures Climbs(w, link, chain + [up], up.parent)
    ensures Descend(w, chain, NodeKey(w, up.id)) == Descend(w, chain + [up], TopKey(w, link, chain + [up], up.parent))
    ensures Height(w, up.parent) < Height(w, Some(up.id))
  {
    ClimbsOn(w, link, chain, up);
    DescendAppend(w, chain, up, ParentKey(w, up));
    assert TopKey(w, link, chain + [up], up.parent) == ParentKey(w, up);
  }

  lemma OneUp(chain: seq<Link>, longer: seq<Link>, up: Link, run: seq<nat>, i: nat)
    requires i < |run| && up.id == run[i] && Ids(longer) == Ids(chain) + Members(run[..i])
    ensures Ids(longer + [up]) == Ids(chain) + Members(run[..i + 1])
  {
    assert run[..i + 1] == run[..i] + [run[i]];
    IdsOfMore(up, longer);
  }

  lemma ClimbOneMore<K>(w: World<K>, link: Link, chain: seq<Link>, up: Link)
    requires Tree(w) && Reaches(w, link, chain, Some(up.id)) && up.id in w.links && w.links[up.id] == up
    ensures Reaches(w, link, chain + [up], up.parent)
    ensures Height(w, up.parent) < Height(w, Some(up.id))
  {
    ClimbOne(w, link, chain, up);
  }

  lemma NothingAbove<K>(w: World<K>, link: Link, chain: seq<Link>, next: Option<nat>)
    requires Tree(w) && Reaches(w, link, chain, next) && TopKey(w, link, chain, next).None?
    ensures ParentKey(w, link).None?
  {
    DescendNone(w, chain);
  }

  /** Fetch a run of ancestors and climb over them one by one. */
  method ClimbRun<K(==)>(ghost w: World<K>, ghost link: Link, fetch: Fetch, run: seq<nat>, chain: seq<Link>)
    returns (ok: bool, longer: seq<Link>, next: Option<nat>)
    requires Tree(w) && Honest(fetch, w) && Upward(w, run) && run != []
    requires Reaches(w, link, chain, Some(run[0]))
    ensures ok ==> Reaches(w, link, longer, next) && Height(w, next) < Height(w, Some(run[0]))
    ensures ok ==> (forall id :: id in run ==> id in w.links) && next == w.links[run[|run| - 1]].parent
    ensures ok ==> Ids(longer) == Ids(chain) + Members(run)
    ensures !ok && AnswersAll(fetch, w, run) ==> ParentKey(w, link).None?
  {
    longer, next := chain, Some(run[0]);
    var details := fetch(run);
    if details.None? {
      return false, longer, next;
    }
    var byId := details.value;
    var i: nat := 0;
    while i < |run|
      invariant i <= |run|
      invariant i < |run| ==> next == Some(run[i])
      invariant Reaches(w, link, longer, next)
      invariant Height(w, next) <= Height(w, Some(run[0]))
      invariant i > 0 ==> Height(w, next) < Height(w, Some(run[0]))
      invariant i > 0 ==> run[i - 1] in w.links && next == w.links[run[i - 1]].parent
      invariant forall id :: id in run[..i] ==> id in w.links
      invariant Ids(longer) == Ids(chain) + Members(run[..i])
      invariant forall id :: id in byId ==> id in w.links && byId[id] == w.links[id]
      invariant forall id :: id in details.value && id !in byId ==> i < |run| ==> w.depth(id) > w.depth(run[i])
    {
      if run[i] !in byId {
        if AnswersAll(fetch, w, run) {
          assert run[i] in run;
          NothingAbove(w, link, longer, next);
        }
        return false, longer, next;
      }
      var ancestor := byId[run[i]];
      OneUp(chain, longer, ancestor, run, i);
      byId := byId - {run[i]};
      ClimbOneMore(w, link, longer, ancestor);
      next := ancestor.parent;
      longer := longer + [ancestor];
      i := i + 1;
    }
    assert run[..i] == run;
    return true, longer, next;
  }

  /** The key that unlocks `link`. While nothing else touches the caches, the walk asks only
      for ancestors below the nearest cached one, and caches the keys of all of these. */
  method ResolveParentKeyWalk<K(==)>(caches: Caches<K>, w: World<K>, fetch: Fetch, link: Link) returns (r: Option<K>)
    requires Tree(w) && Honest(fetch, w) && caches.Truthful(w)
    modifies caches
    ensures caches.Truthful(w)
    ensures r.Some? ==> ParentKey(w, link) == r
    ensures Reliable(fetch, w) ==> r == ParentKey(w, link)
    ensures caches.disturbances >= old(caches.disturbances)
    ensures caches.disturbances == old(caches.disturbances) ==>
              var needed := Needed(w, old(caches.folderKeys).Keys, link.parent);
              && (ReliableOn(fetch, w, needed) ==> r == ParentKey(w, link))
              && (r.Some? ==> caches.folderKeys.Keys == old(caches.folderKeys).Keys + needed)
  {
    ghost var keys, needed := caches.folderKeys.Keys, Needed(w, caches.folderKeys.Keys, link.parent);
    var ancestry: seq<Link> := [];
    var current := link.parent;
    var base: Option<K> := None;
    while current.Some?
      invariant caches.Truthful(w) && base.None? && Reaches(w, link, ancestry, current)
      invariant caches.disturbances >= old(caches.disturbances)
      invariant caches.disturbances == old(caches.disturbances) ==>
        caches.folderKeys == old(caches.folderKeys) && needed == Ids(ancestry) + Needed(w, keys, current)
      decreases Height(w, current)
    {
      caches.Await(w);
      base := caches.GetKey(current.value);
      if base.Some? {
        break;
      }
      var ok, longer, next := ClimbMore(caches, w, link, fetch, ancestry, current.value);
      if !ok {
        return None;
      }
      ancestry, current := longer, next;
    }
    if base.None? {
      caches.Await(w);
      base := w.shareKey(if ancestry == [] then link.id else ancestry[|ancestry| - 1].id);
      if base.None? {
        NothingAbove(w, link, ancestry, current);
        return None;
      }
    }
    r := DecryptDown(caches, w, ancestry, base.value, link, current);
  }

  /** Climb as far from `first` as the entity cache can name ancestors, in one request. */
  method ClimbMore<K(==)>(caches: Caches<K>, ghost w: World<K>, ghost link: Link, fetch: Fetch, chain: seq<Link>,
                          first: nat)
    returns (ok: bool, longer: seq<Link>, next: Option<nat>)
    requires Tree(w) && Honest(fetch, w) && caches.Truthful(w) && Reaches(w, link, chain, Some(first))
    modifies caches
    ensures caches.Truthful(w) && caches.disturbances >= old(caches.disturbances)
    ensures ok ==> Reaches(w, link, longer, next) && Height(w, next) < Height(w, Some(first))
    ensures !ok && Reliable(fetch, w) ==> ParentKey(w, link).None?
    ensures caches.disturbances == old(caches.disturbances) ==> caches.folderKeys == old(caches.folderKeys)
    ensures caches.disturbances == old(caches.disturbances) && first !in caches.folderKeys ==>
              var keys := caches.folderKeys.Keys;
              && (ok ==> Ids(chain) + Needed(w, keys, Some(first)) == Ids(longer) + Needed(w, keys, next))
              && (!ok && ReliableOn(fetch, w, Needed(w, keys, Some(first))) ==> ParentKey(w, link).None?)
  {
    var run := CachedAncestorRun(caches, w, first);
    caches.Await(w);
    ok, longer, next := ClimbRun(w, link, fetch, run, chain);
    if caches.disturbances == old(caches.disturbances) && first !in caches.folderKeys {
      RunNeeded(w, caches.folderKeys.Keys, run);
    }
  }

  /** One step down: the key above the last link unlocks it to that link's own. */
  lemma DescendOne<K>(w: World<K>, link: Link, chain: seq<Link>, next: Option<nat>, i: nat)
    requires Tree(w) && Climbs(w, link, chain, next) && i < |chain|
    ensures NodeKey(w, chain[i].id) == Unlocked(w, ParentKey(w, chain[i]), chain[i])
    ensures i > 0 ==> ParentKey(w, chain[i - 1]) == NodeKey(w, chain[i].id)
    ensures forall key :: Descend(w, chain[..i + 1], key) == Descend(w, chain[..i], Unlocked(w, key, chain[i]))
  {
    assert ClimbsAt(w, link, chain, i);
    assert chain[..i + 1] == chain[..i] + [chain[i]];
    forall key ensures Descend(w, chain[..i + 1], key) == Descend(w, chain[..i], Unlocked(w, key, chain[i])) {
      DescendAppend(w, chain[..i], chain[i], key);
    }
  }

  /** Unlock `ancestry` from the top down, caching every key on the way. */
  method DecryptDown<K(==)>(caches: Caches<K>, w: World<K>, ancestry: seq<Link>, base: K,
                            ghost link: Link, ghost next: Option<nat>) returns (r: Option<K>)
    requires Tree(w) && caches.Truthful(w)
    requires Reaches(w, link, ancestry, next) && TopKey(w, link, ancestry, next) == Some(base)
    modifies caches
    ensures caches.Truthful(w)
    ensures r == ParentKey(w, link)
    ensures caches.disturbances >= old(caches.disturbances)
    ensures caches.disturbances == old(caches.disturbances) && r.Some? ==>
              caches.folderKeys.Keys == old(caches.folderKeys).Keys + Ids(ancestry)
  {
    var key := base;
    var i := |ancestry|;
    assert ancestry[..i] == ancestry;
    while i > 0
      invariant 0 <= i <= |ancestry| && caches.Truthful(w) && Unlocks(w, link, ancestry, i, key)
      invariant caches.disturbances >= old(caches.disturbances)
      invariant caches.disturbances == old(caches.disturbances) ==>
        caches.folderKeys.Keys == old(caches.folderKeys).Keys + Ids(ancestry[i..])
    {
      i := i - 1;
      var ancestor := ancestry[i];
      UnlocksOne(w, link, ancestry, next, i, key);
      var unlocked := w.unlock(key, ancestor.lockedKey);
      if unlocked.None? {
        return None;
      }
      key := unlocked.value;
      caches.StoreKey(w, ancestor.id, key);
      IdsFrom(ancestry, i);
    }
    assert ancestry[i..] == ancestry;
    return Some(key);
  }

  /** `key` is what unlocks the `i`th link from below, and leads down to the key sought. */
  ghost predicate Unlocks<K>(w: World<K>, link: Link, chain: seq<Link>, i: nat, key: K)
    requires Tree(w) && i <= |chain|
  {
    && (i > 0 ==> ParentKey(w, chain[i - 1]) == Some(key))
    && ParentKey(w, link) == Descend(w, chain[..i], Some(key))
  }

  lemma UnlocksOne<K>(w: World<K>, link: Link, chain: seq<Link>, next: Option<nat>, i: nat, key: K)
    requires Tree(w) && Climbs(w, link, chain, next) && i < |chain| && Unlocks(w, link, chain, i + 1, key)
    ensures var unlocked := w.unlock(key, chain[i].lockedKey);
      if unlocked.None? then ParentKey(w, link).None?
      else NodeKey(w, chain[i].id) == unlocked && Unlocks(w, link, chain, i, unlocked.value)
  {
    DescendOne(w, link, chain, next, i);
    if w.unlock(key, chain[i].lockedKey).None? { DescendNone(w, chain[..i]); }
  }

  /** The entry point: a parent key already decrypted needs no walk. */
  method ResolveParentKey<K(==)>(caches: Caches<K>, w: World<K>, fetch: Fetch, link: Link) returns (r: Option<K>)
    requires Tree(w) && Honest(fetch, w) && caches.Truthful(w)
    modifies caches
    ensures caches.Truthful(w)
    ensures r.Some? ==> ParentKey(w, link) == r
    ensures Reliable(fetch, w) ==> r == ParentKey(w, link)
    ensures caches.disturbances >= old(caches.disturbances)
    ensures caches.disturbances == old(caches.disturbances) ==>
              var needed := Needed(w, old(caches.folderKeys).Keys, link.parent);
              && (ReliableOn(fetch, w, needed) ==> r == ParentKey(w, link))
              && (r.Some? ==> caches.folderKeys.Keys == old(caches.folderKeys).Keys + needed)
  {
    if link.parent.Some? {
      var key := caches.GetKey(link.parent.value);
      if key.Some? {
        return key;
      }
    }
    r := ResolveParentKeyWalk(caches, w, fetch, link);
  }

  // ----------------------------------------------------------- a visitor's walk

  /** What a public link's visitor can see: the shared root counts as a root,
      unlocked by the link's share key, and no other root has a key. */
  function Shared<K>(w: World<K>, root: nat, share: K): World<K> {
    World(if root in w.links then w.links[root := w.links[root].(parent := None)] else w.links,
          w.depth, id => if id == root then Some(share) else None, w.unlock)
  }

  /** What a visitor makes of one link: the shared root opens with the share key, any
      other link with its parent's key, and no other root opens. */
  lemma SeenLink<K>(w: World<K>, root: nat, share: K, id: nat)
    requires Tree(w)
    ensures var seen := Shared(w, root, share);
      && Tree(seen)
      && (id !in w.links ==> NodeKey(seen, id).None?)
      && (id in w.links && id == root ==> NodeKey(seen, id) == w.unlock(share, w.links[id].lockedKey))
      && (id in w.links && id != root ==> id in seen.links && seen.links[id] == w.links[id])
      && (id in w.links && id != root && w.links[id].parent.None? ==> NodeKey(seen, id).None?)
  {
    var seen := Shared(w, root, share);
    if id in w.links && id == root {
      assert ParentKey(seen, seen.links[id]) == Some(share);
    }
  }

  /** The visitor's chain leads from `target` up to `cursor`: the walk to a node's key is
      the walk to the parent key of a child of it. */
  ghost predicate Leads<K>(seen: World<K>, target: nat, chain: seq<Link>, cursor: nat)
    requires Tree(seen)
  {
    && Climbs(seen, ChildOf(target), chain, Some(cursor))
    && NodeKey(seen, target) == Descend(seen, chain, NodeKey(seen, cursor))
  }

  function ChildOf(target: nat): Link {
    Link(target, Some(target), 0)
  }

  lemma LeadsOn<K>(w: World<K>, root: nat, share: K, target: nat, chain: seq<Link>, link: Link)
    requires Tree(w) && link.id in w.links && w.links[link.id] == link && link.id != root && link.parent.Some?
    requires Tree(Shared(w, root, share)) && Leads(Shared(w, root, share), target, chain, link.id)
    ensures Leads(Shared(w, root, share), target, chain + [link], link.parent.value)
    ensures w.depth(link.parent.value) < w.depth(link.id)
  {
    SeenLink(w, root, share, link.id);
    ClimbOne(Shared(w, root, share), ChildOf(target), chain, link);
  }

  lemma LeadsNowhere<K>(seen: World<K>, target: nat, chain: seq<Link>, cursor: nat)
    requires Tree(seen) && Leads(seen, target, chain, cursor) && NodeKey(seen, cursor).None?
    ensures NodeKey(seen, target).None?
  {
    DescendNone(seen, chain);
  }

  lemma LeadsBack<K>(seen: World<K>, target: nat, chain: seq<Link>, cursor: nat, key: K)
    requires Tree(seen) && Leads(seen, target, chain, cursor) && NodeKey(seen, cursor) == Some(key)
    ensures var child := ChildOf(target);
      && Climbs(seen, child, chain, Some(cursor)) && TopKey(seen, child, chain, Some(cursor)) == Some(key)
      && ParentKey(seen, child) == Descend(seen, chain, Some(key)) == NodeKey(seen, target)
  {
  }

  /** What a visitor makes of the link at the cursor. */
  datatype Visit<+K> = Known(key: K) | Up(link: Link) | Gone

  /** Look the cursor's key up, or fetch its link: the shared root opens with the share key,
      any other link is climbed over. */
  method VisitOne<K(==)>(caches: Caches<K>, w: World<K>, fetch: Fetch, root: nat, share: K, cursor: nat)
    returns (visit: Visit<K>)
    requires Tree(w) && Honest(fetch, w) && Tree(Shared(w, root, share)) && caches.Truthful(Shared(w, root, share))
    modifies caches
    ensures caches.Truthful(Shared(w, root, share)) && caches.disturbances >= old(caches.disturbances)
    ensures visit.Known? ==> NodeKey(Shared(w, root, share), cursor) == Some(visit.key)
    ensures visit.Up? ==>
              var link := visit.link;
              && link.id == cursor && link.id in w.links && w.links[link.id] == link
              && link.id != root && link.parent.Some?
    ensures visit.Gone? && AnswersAll(fetch, w, [cursor]) ==> NodeKey(Shared(w, root, share), cursor).None?
    ensures caches.disturbances == old(caches.disturbances) ==>
              && (cursor in old(caches.folderKeys) ==> visit.Known? && caches.folderKeys == old(caches.folderKeys))
              && (cursor !in old(caches.folderKeys) && visit.Known? ==>
                    cursor == root && root in w.links
                    && caches.folderKeys.Keys == old(caches.folderKeys).Keys + {root})
              && (!visit.Known? ==> caches.folderKeys == old(caches.folderKeys))
  {
    SeenLink(w, root, share, cursor);
    caches.Await(Shared(w, root, share));
    var cached := caches.GetKey(cursor);
    if cached.Some? {
      return Known(cached.value);
    }
    var details := fetch([cursor]);
    caches.Await(Shared(w, root, share));
    if details.None? || cursor !in details.value {
      assert cursor in [cursor];
      return Gone;
    }
    var link := details.value[cursor];
    if link.id == root {
      var unlocked := w.unlock(share, link.lockedKey);
      if unlocked.None? {
        return Gone;
      }
      caches.PutKey(cursor, unlocked.value);
      return Known(unlocked.value);
    }
    return if link.parent.None? then Gone else Up(link);
  }

  /** One link up, what is needed of the server is that link and what lies above. */
  lemma NeededAbove<K>(w: World<K>, root: nat, share: K, keys: set<nat>, chain: seq<Link>, link: Link)
    requires Tree(w) && Tree(Shared(w, root, share))
    requires link.id in w.links && w.links[link.id] == link && link.id != root && link.id !in keys
    ensures var seen := Shared(w, root, share);
      Ids(chain) + Needed(seen, keys, Some(link.id)) == Ids(chain + [link]) + Needed(seen, keys, link.parent)
  {
    IdsOfMore(link, chain);
  }

  /** A node's own key, as a visitor of the share at `root`. With the caches undisturbed the
      walk asks only for what lies below the nearest cached key, and caches all of it. */
  method VisitorNodeKey<K(==)>(caches: Caches<K>, w: World<K>, fetch: Fetch, root: nat, share: K, target: nat)
    returns (r: Option<K>)
    requires Tree(w) && Honest(fetch, w) && caches.Truthful(Shared(w, root, share))
    modifies caches
    ensures caches.Truthful(Shared(w, root, share))
    ensures r.Some? ==> NodeKey(Shared(w, root, share), target) == r
    ensures Reliable(fetch, w) ==> r == NodeKey(Shared(w, root, share), target)
    ensures caches.disturbances >= old(caches.disturbances)
    ensures caches.disturbances == old(caches.disturbances) ==>
              var needed := Needed(Shared(w, root, share), old(caches.folderKeys).Keys, Some(target));
              && (ReliableOn(fetch, w, needed) ==> r == NodeKey(Shared(w, root, share), target))
              && (r.Some? ==> caches.folderKeys.Keys == old(caches.folderKeys).Keys + needed)
  {
    var seen := Shared(w, root, share);
    SeenLink(w, root, share, target);
    ghost var keys, needed := caches.folderKeys.Keys, Needed(seen, caches.folderKeys.Keys, Some(target));
    var chain: seq<Link> := [];
    var cursor := target;
    var key := share;
    while true
      invariant caches.Truthful(seen) && Leads(seen, target, chain, cursor)
      invariant caches.disturbances >= old(caches.disturbances)
      invariant caches.disturbances == old(caches.disturbances) ==>
        caches.folderKeys == old(caches.folderKeys) && needed == Ids(chain) + Needed(seen, keys, Some(cursor))
      decreases w.depth(cursor)
    {
      var visit := VisitOne(caches, w, fetch, root, share, cursor);
      match visit {
        case Known(known) =>
          key := known;
          break;
        case Gone =>
          if NodeKey(seen, cursor).None? { LeadsNowhere(seen, target, chain, cursor); }
          return None;
        case Up(link) =>
          LeadsOn(w, root, share, target, chain, link);
          if caches.disturbances == old(caches.disturbances) { NeededAbove(w, root, share, keys, chain, link); }
          chain := chain + [link];
          cursor := link.parent.value;
      }
    }
    LeadsBack(seen, target, chain, cursor, key);
    r := DecryptDown(caches, seen, chain, key, ChildOf(target), Some(cursor));
  }
}
