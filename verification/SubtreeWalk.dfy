/** Listing everything below a shared folder, a level at a time and several folders
    at once: the same nodes as plain recursion, in level order.

    Listings finish in any order and are handed on in the level's; on a tree each
    node below the folder comes exactly once. */
module SubtreeWalk {
  import opened Wrappers

  const MAX_CONCURRENT_FOLDER_LISTINGS: nat := 6

  datatype Node = Node(uid: nat, folder: bool)

  /** What each folder holds. `height` bounds how deep it goes below a folder. */
  datatype Share = Share(list: nat -> seq<Node>, height: nat -> nat)

  ghost predicate Finite(share: Share) {
    forall f, c :: c in share.list(f) && c.folder ==> share.height(c.uid) < share.height(f)
  }

  // -------------------------------------------------------------- the plain recursion

  /** Every node below `f`: each child, followed by what is below it. */
  ghost function Descendants(share: Share, f: nat): seq<Node>
    requires Finite(share)
    decreases share.height(f), 1, 0
  {
    Families(share, f, share.list(f))
  }

  ghost function Families(share: Share, f: nat, children: seq<Node>): seq<Node>
    requires Finite(share) && forall c :: c in children ==> c in share.list(f)
    decreases share.height(f), 0, |children|
  {
    if children == [] then []
    else
      var c := children[0];
      assert c in children;
      [c] + (if c.folder then Descendants(share, c.uid) else []) + Families(share, f, children[1..])
  }

  function Count(nodes: seq<Node>, n: Node): nat {
    if nodes == [] then 0 else (if nodes[0] == n then 1 else 0) + Count(nodes[1..], n)
  }

  lemma {:induction false} CountConcat(a: seq<Node>, b: seq<Node>, n: Node)
    ensures Count(a + b, n) == Count(a, n) + Count(b, n)
  {
    if a == [] {
      assert a + b == b;
    } else {
      assert (a + b)[1..] == a[1..] + b;
      CountConcat(a[1..], b, n);
    }
  }

  lemma {:induction false} Counted(nodes: seq<Node>, n: Node)
    ensures Count(nodes, n) > 0 <==> n in nodes
  {
    if nodes != [] { Counted(nodes[1..], n); }
  }

  // --------------------------------------------------------------------- level order

  /** The children of a level's folders, folder by folder. */
  function Below(share: Share, level: seq<nat>): seq<Node> {
    if level == [] then [] else Below(share, level[..|level| - 1]) + share.list(level[|level| - 1])
  }

  function Folders(nodes: seq<Node>): seq<nat> {
    if nodes == [] then []
    else
      var before, last := Folders(nodes[..|nodes| - 1]), nodes[|nodes| - 1];
      if last.folder then before + [last.uid] else before
  }

  lemma {:induction false} FoldersConcat(a: seq<Node>, b: seq<Node>)
    ensures Folders(a + b) == Folders(a) + Folders(b)
    decreases |b|
  {
    if b == [] {
      assert a + b == a;
    } else {
      assert (a + b)[..|a + b| - 1] == a + b[..|b| - 1];
      FoldersConcat(a, b[..|b| - 1]);
    }
  }

  ghost predicate Bounded(share: Share, level: seq<nat>, height: nat) {
    forall f :: f in level ==> share.height(f) < height
  }

  lemma {:induction false} BelowMembers(share: Share, level: seq<nat>, c: Node)
    returns (f: nat)
    requires c in Below(share, level)
    ensures f in level && c in share.list(f)
    decreases |level|
  {
    f := level[|level| - 1];
    if c !in share.list(f) { f := BelowMembers(share, level[..|level| - 1], c); }
  }

  lemma {:induction false} FoldersMembers(nodes: seq<Node>, uid: nat)
    ensures uid in Folders(nodes) <==> Node(uid, true) in nodes
    decreases |nodes|
  {
    if nodes != [] {
      FoldersMembers(nodes[..|nodes| - 1], uid);
      assert nodes == nodes[..|nodes| - 1] + [nodes[|nodes| - 1]];
    }
  }

  lemma NextLevelIsLower(share: Share, level: seq<nat>, height: nat)
    requires Finite(share) && Bounded(share, level, height)
    ensures level != [] ==> height > 0
    ensures height > 0 ==> Bounded(share, Folders(Below(share, level)), height - 1)
  {
    if level != [] { assert level[0] in level; }
    forall f | f in Folders(Below(share, level)) && height > 0 ensures share.height(f) < height - 1 {
      FoldersMembers(Below(share, level), f);
      var parent := BelowMembers(share, level, Node(f, true));
    }
  }

  /** A level's children, then everything below them. */
  ghost function Walk(share: Share, level: seq<nat>, height: nat): seq<Node>
    requires Finite(share) && Bounded(share, level, height)
    decreases height
  {
    NextLevelIsLower(share, level, height);
    if level == [] then []
    else Below(share, level) + Walk(share, Folders(Below(share, level)), height - 1)
  }

  lemma WalkOneLevel(share: Share, level: seq<nat>, height: nat)
    requires Finite(share) && Bounded(share, level, height) && level != []
    ensures height > 0 && Bounded(share, Folders(Below(share, level)), height - 1)
    ensures Walk(share, level, height) == Below(share, level) + Walk(share, Folders(Below(share, level)), height - 1)
  {
    NextLevelIsLower(share, level, height);
  }

  // ----------------------------------------------------------------- the walk itself

  type Listing = nat -> Option<seq<Node>>

  ghost predicate Lists(fetch: Listing, share: Share) {
    forall f :: fetch(f).Some? ==> fetch(f).value == share.list(f)
  }

  /** The listings under way: handed on up to `yielded`, begun up to `started`. */
  datatype Window = Window(yielded: nat, started: nat, pending: set<nat>, finished: map<nat, Option<seq<Node>>>)

  /** Listings `yielded` to `started` are under way or back; at most six of them. */
  ghost predicate Sliding(fetch: Listing, level: seq<nat>, w: Window) {
    && w.yielded <= w.started <= |level| && w.started - w.yielded <= MAX_CONCURRENT_FOLDER_LISTINGS
    && (forall i :: i in w.pending ==> w.yielded <= i < w.started)
    && (forall i :: w.yielded <= i < w.started ==> i in w.pending || i in w.finished)
    && (forall i :: i in w.finished ==> w.yielded <= i < w.started && w.finished[i] == fetch(level[i]))
    && (forall i :: i in w.pending ==> i !in w.finished)
  }

  function Outstanding(level: seq<nat>, w: Window): int {
    2 * (|level| - w.started) + |w.pending|
  }

  function Open(w: Window): Window {
    w.(started := w.started + 1, pending := w.pending + {w.started})
  }

  function Close(w: Window): Window {
    w.(yielded := w.yielded + 1, finished := w.finished - {w.yielded})
  }

  function Finish(w: Window, i: nat, listing: Option<seq<Node>>): Window {
    w.(pending := w.pending - {i}, finished := w.finished[i := listing])
  }

  lemma OpenSlides(fetch: Listing, level: seq<nat>, w: Window)
    requires Sliding(fetch, level, w) && w.started < |level| && w.started - w.yielded < MAX_CONCURRENT_FOLDER_LISTINGS
    ensures Sliding(fetch, level, Open(w)) && Outstanding(level, Open(w)) < Outstanding(level, w)
  {
    assert w.started !in w.pending;
  }

  lemma CloseSlides(fetch: Listing, level: seq<nat>, w: Window)
    requires Sliding(fetch, level, w) && w.yielded in w.finished
    ensures Sliding(fetch, level, Close(w))
  {
  }

  lemma FinishSlides(fetch: Listing, level: seq<nat>, w: Window, i: nat)
    requires Sliding(fetch, level, w) && i in w.pending
    ensures Sliding(fetch, level, Finish(w, i, fetch(level[i])))
    ensures Outstanding(level, Finish(w, i, fetch(level[i]))) < Outstanding(level, w)
  {
  }

  /** One turn: start a listing while there is room, hand on the next one if it is back,
      or wait for any of those under way. */
  method Turn(fetch: Listing, level: seq<nat>, w: Window) returns (w': Window, handed: Option<Option<seq<Node>>>)
    requires Sliding(fetch, level, w) && w.yielded < |level|
    ensures Sliding(fetch, level, w')
    ensures handed.Some? ==> w'.yielded == w.yielded + 1 && handed.value == fetch(level[w.yielded])
    ensures handed.None? ==> w'.yielded == w.yielded && Outstanding(level, w') < Outstanding(level, w)
    ensures w'.started == w.started ==>
              w.started == |level| || w.started - w.yielded == MAX_CONCURRENT_FOLDER_LISTINGS
  {
    if w.started < |level| && w.started - w.yielded < MAX_CONCURRENT_FOLDER_LISTINGS {
      OpenSlides(fetch, level, w);
      w', handed := Open(w), None;
    } else if w.yielded in w.finished {
      CloseSlides(fetch, level, w);
      w', handed := Close(w), Some(w.finished[w.yielded]);
    } else {
      assert w.yielded in w.pending;
      var i: nat :| i in w.pending;
      FinishSlides(fetch, level, w, i);
      w', handed := Finish(w, i, fetch(level[i])), None;
    }
  }

  /** List a level's folders, at most six at a time, finishing in any order; hand on
      the listings in the level's order. */
  method ListLevel(fetch: Listing, level: seq<nat>, sofar: seq<Node>, ghost share: Share)
    returns (ok: bool, found: seq<Node>, next: seq<nat>, progress: seq<nat>)
    requires Lists(fetch, share)
    ensures ok ==> forall i :: 0 <= i < |level| ==> fetch(level[i]).Some?
    ensures !ok ==> exists f :: f in level && fetch(f).None?
    ensures ok ==> found == sofar + Below(share, level) && next == Folders(Below(share, level))
    ensures ok ==> |progress| == |level| && Rising(|sofar|, progress) && Last(|sofar|, progress) == |found|
  {
    found, next, progress := sofar, [], [];
    var w := Window(0, 0, {}, map[]);
    while w.yielded < |level|
      invariant Sliding(fetch, level, w)
      invariant Reported(fetch, share, level, w.yielded, sofar, found, next, progress)
      decreases |level| - w.yielded, Outstanding(level, w)
    {
      ghost var i := w.yielded;
      var handed;
      w, handed := Turn(fetch, level, w);
      if handed.Some? {
        if handed.value.None? {
          assert level[i] in level;
          return false, found, next, progress;
        }
        var children := handed.value.value;
        ReportOne(fetch, share, level, i, sofar, found, next, progress, children);
        found := found + children;
        next := next + Folders(children);
        progress := progress + [|found|];
      }
    }
    assert level[..w.yielded] == level;
    return true, found, next, progress;
  }

  /** What has been handed on after `yielded` listings. */
  ghost predicate Reported(fetch: Listing, share: Share, level: seq<nat>, yielded: nat, sofar: seq<Node>,
                           found: seq<Node>, next: seq<nat>, progress: seq<nat>)
  {
    && yielded <= |level| && |progress| == yielded
    && (forall i :: 0 <= i < yielded ==> fetch(level[i]).Some?)
    && found == sofar + Below(share, level[..yielded]) && next == Folders(Below(share, level[..yielded]))
    && Rising(|sofar|, progress) && Last(|sofar|, progress) == |found|
  }

  lemma ReportOne(fetch: Listing, share: Share, level: seq<nat>, yielded: nat, sofar: seq<Node>,
                  found: seq<Node>, next: seq<nat>, progress: seq<nat>, children: seq<Node>)
    requires Reported(fetch, share, level, yielded, sofar, found, next, progress) && yielded < |level|
    requires fetch(level[yielded]) == Some(children) && children == share.list(level[yielded])
    ensures Reported(fetch, share, level, yielded + 1, sofar, found + children, next + Folders(children),
                     progress + [|found + children|])
  {
    Yielded(share, level, yielded);
    RisingOn(|sofar|, progress, |found + children|);
    assert found + children == sofar + (Below(share, level[..yielded]) + children);
  }

  lemma Yielded(share: Share, level: seq<nat>, i: nat)
    requires i < |level|
    ensures Below(share, level[..i + 1]) == Below(share, level[..i]) + share.list(level[i])
    ensures Folders(Below(share, level[..i + 1])) == Folders(Below(share, level[..i])) + Folders(share.list(level[i]))
  {
    assert level[..i + 1][..i] == level[..i];
    FoldersConcat(Below(share, level[..i]), share.list(level[i]));
  }

  function Last(start: nat, counts: seq<nat>): nat {
    if counts == [] then start else counts[|counts| - 1]
  }

  /** Reported counts never fall, from `start` on. */
  ghost predicate Rising(start: nat, counts: seq<nat>) {
    counts != [] ==>
      var before := counts[..|counts| - 1];
      Rising(start, before) && Last(start, before) <= Last(start, counts)
  }

  lemma RisingOn(start: nat, counts: seq<nat>, count: nat)
    requires Rising(start, counts) && Last(start, counts) <= count
    ensures Rising(start, counts + [count]) && Last(start, counts + [count]) == count
  {
    assert (counts + [count])[..|counts|] == counts;
  }

  lemma {:induction false} RisingConcat(start: nat, a: seq<nat>, b: seq<nat>)
    requires Rising(start, a) && Rising(Last(start, a), b)
    ensures Rising(start, a + b) && Last(start, a + b) == Last(Last(start, a), b)
    decreases |b|
  {
    if b == [] {
      assert a + b == a;
    } else {
      var shorter, last := b[..|b| - 1], b[|b| - 1];
      RisingConcat(start, a, shorter);
      RisingOn(start, a + shorter, last);
      assert a + b == (a + shorter) + [last];
    }
  }

  lemma {:induction false} RisingMeans(start: nat, counts: seq<nat>, i: nat, j: nat)
    requires Rising(start, counts) && i < j < |counts|
    ensures start <= counts[i] <= counts[j]
    decreases |counts|
  {
    var before := counts[..|counts| - 1];
    if j < |counts| - 1 {
      RisingMeans(start, before, i, j);
    } else if i < |before| - 1 {
      RisingMeans(start, before, i, |before| - 1);
    } else {
      RisingFrom(start, before);
    }
  }

  lemma NeverFalls(counts: seq<nat>)
    requires Rising(0, counts)
    ensures forall i, j :: 0 <= i < j < |counts| ==> counts[i] <= counts[j]
  {
    forall i, j | 0 <= i < j < |counts| ensures counts[i] <= counts[j] {
      RisingMeans(0, counts, i, j);
    }
  }

  lemma {:induction false} RisingFrom(start: nat, counts: seq<nat>)
    requires Rising(start, counts)
    ensures start <= Last(start, counts)
    decreases |counts|
  {
    if counts != [] { RisingFrom(start, counts[..|counts| - 1]); }
  }

  /** `whole` is what has been found and the walk from `level` on. */
  ghost predicate Left(share: Share, whole: seq<Node>, found: seq<Node>, level: seq<nat>, height: nat) {
    Finite(share) && Bounded(share, level, height) && whole == found + Walk(share, level, height)
  }

  lemma LeftAfterLevel(share: Share, whole: seq<Node>, found: seq<Node>, level: seq<nat>, height: nat)
    requires Left(share, whole, found, level, height) && level != []
    ensures height > 0 && Left(share, whole, found + Below(share, level), Folders(Below(share, level)), height - 1)
  {
    WalkOneLevel(share, level, height);
    var rest := Walk(share, Folders(Below(share, level)), height - 1);
    assert found + (Below(share, level) + rest) == (found + Below(share, level)) + rest;
  }

  /** Walk a share, reporting how many nodes have been found after each listing. */
  method EnumerateSubtree(fetch: Listing, root: nat, ghost share: Share)
    returns (r: Option<seq<Node>>, progress: seq<nat>)
    requires Finite(share) && Lists(fetch, share)
    ensures r.Some? ==> r.value == Walk(share, [root], share.height(root) + 1)
    ensures r.Some? ==> progress != [] && progress[|progress| - 1] == |r.value|
    ensures r.Some? ==> forall i, j :: 0 <= i < j < |progress| ==> progress[i] <= progress[j]
    ensures r.None? ==> exists f :: fetch(f).None?
  {
    var level, found: seq<Node> := [root], [];
    progress := [];
    ghost var height: nat := share.height(root) + 1;
    ghost var whole := Walk(share, level, height);
    while level != []
      invariant Left(share, whole, found, level, height)
      invariant Rising(0, progress) && Last(0, progress) == |found|
      invariant level == [root] || progress != []
      decreases height
    {
      var ok, longer, next, counts := ListLevel(fetch, level, found, share);
      if !ok {
        return None, progress;
      }
      LeftAfterLevel(share, whole, found, level, height);
      RisingConcat(0, progress, counts);
      found, progress := longer, progress + counts;
      level := next;
      height := height - 1;
    }
    NeverFalls(progress);
    return Some(found), progress;
  }

  // --------------------------------------------------------------- the same, counted

  ghost function AllDescendants(share: Share, level: seq<nat>): seq<Node>
    requires Finite(share)
  {
    if level == [] then [] else AllDescendants(share, level[..|level| - 1]) + Descendants(share, level[|level| - 1])
  }

  /** The walk lists every node exactly as often as the plain recursion does. */
  lemma {:induction false} WalkIsDescendants(share: Share, level: seq<nat>, height: nat, n: Node)
    requires Finite(share) && Bounded(share, level, height)
    ensures Count(Walk(share, level, height), n) == Count(AllDescendants(share, level), n)
    decreases height
  {
    if level != [] {
      WalkOneLevel(share, level, height);
      var next := Folders(Below(share, level));
      WalkIsDescendants(share, next, height - 1, n);
      LevelSplit(share, level, n);
      CountConcat(Below(share, level), Walk(share, next, height - 1), n);
    }
  }

  lemma {:induction false} AllConcat(share: Share, a: seq<nat>, b: seq<nat>, n: Node)
    requires Finite(share)
    ensures Count(AllDescendants(share, a + b), n) ==
            Count(AllDescendants(share, a), n) + Count(AllDescendants(share, b), n)
    decreases |b|
  {
    if b == [] {
      assert a + b == a;
    } else {
      assert (a + b)[..|a + b| - 1] == a + b[..|b| - 1];
      AllConcat(share, a, b[..|b| - 1], n);
      CountConcat(AllDescendants(share, a + b[..|b| - 1]), Descendants(share, b[|b| - 1]), n);
      CountConcat(AllDescendants(share, b[..|b| - 1]), Descendants(share, b[|b| - 1]), n);
    }
  }

  /** Below a folder are its children and what is below those. */
  lemma {:induction false} FamiliesSplit(share: Share, f: nat, children: seq<Node>, n: Node)
    requires Finite(share) && forall c :: c in children ==> c in share.list(f)
    ensures Count(Families(share, f, children), n) ==
            Count(children, n) + Count(AllDescendants(share, Folders(children)), n)
    decreases |children|
  {
    if children != [] {
      var c, rest := children[0], children[1..];
      assert c in children;
      FamiliesSplit(share, f, rest, n);
      var own := if c.folder then Descendants(share, c.uid) else [];
      CountConcat([c] + own, Families(share, f, rest), n);
      CountConcat([c], own, n);
      assert [c][1..] == [];
      assert children == [c] + rest;
      FoldersConcat([c], rest);
      AllConcat(share, Folders([c]), Folders(rest), n);
      assert [c][..0] == [];
      assert AllDescendants(share, []) == [];
      if c.folder {
        assert Folders([c]) == [c.uid];
        assert [c.uid][..0] == [];
        assert AllDescendants(share, [c.uid]) == [] + Descendants(share, c.uid);
        assert [] + Descendants(share, c.uid) == Descendants(share, c.uid);
      }
    }
  }

  /** One level: its descendants are the next level and that one's descendants. */
  lemma {:induction false} LevelSplit(share: Share, level: seq<nat>, n: Node)
    requires Finite(share)
    ensures Count(AllDescendants(share, level), n) ==
            Count(Below(share, level), n) + Count(AllDescendants(share, Folders(Below(share, level))), n)
    decreases |level|
  {
    if level != [] {
      var shorter, f := level[..|level| - 1], level[|level| - 1];
      LevelSplit(share, shorter, n);
      CountConcat(AllDescendants(share, shorter), Descendants(share, f), n);
      FamiliesSplit(share, f, share.list(f), n);
      CountConcat(Below(share, shorter), share.list(f), n);
      FoldersConcat(Below(share, shorter), share.list(f));
      AllConcat(share, Folders(Below(share, shorter)), Folders(share.list(f)), n);
    }
  }

  // ------------------------------------------------------------------ on a real tree

  /** A tree: every node has one parent, one place in its listing, and one depth. */
  ghost predicate Tree(share: Share, parent: nat -> nat, depth: nat -> nat) {
    && (forall f, c :: c in share.list(f) ==> parent(c.uid) == f && depth(c.uid) == depth(f) + 1)
    && (forall f :: Distinct(share.list(f)))
  }

  ghost predicate Distinct(nodes: seq<Node>) {
    forall i, j :: 0 <= i < j < |nodes| ==> nodes[i].uid != nodes[j].uid
  }

  /** Walking a tree from its root lists each descendant once, in level order, and never
      the root. */
  lemma {:induction false} WalkListsEachOnce(share: Share, parent: nat -> nat, depth: nat -> nat, root: nat, n: Node)
    requires Finite(share) && Tree(share, parent, depth)
    ensures var found := Walk(share, [root], share.height(root) + 1);
      && Count(found, n) == (if n in Descendants(share, root) then 1 else 0)
      && (n.uid == root ==> n !in found)
      && InOrder(depth, found, depth(root))
  {
    var found := Walk(share, [root], share.height(root) + 1);
    WalkIsDescendants(share, [root], share.height(root) + 1, n);
    assert [root][..0] == [];
    assert AllDescendants(share, [root]) == [] + Descendants(share, root);
    assert [] + Descendants(share, root) == Descendants(share, root);
    DescendantsOnce(share, parent, depth, root, share.list(root), n);
    Counted(Descendants(share, root), n);
    Counted(found, n);
    WalkInLevelOrder(share, parent, depth, [root], share.height(root) + 1, depth(root));
  }

  /** Nodes come level by level. */
  lemma {:induction false} WalkInLevelOrder(share: Share, parent: nat -> nat, depth: nat -> nat, level: seq<nat>,
                                            height: nat, d: nat)
    requires Finite(share) && Tree(share, parent, depth) && Bounded(share, level, height)
    requires forall f :: f in level ==> depth(f) == d
    ensures InOrder(depth, Walk(share, level, height), d)
    decreases height
  {
    if level != [] {
      WalkOneLevel(share, level, height);
      BelowDepth(share, parent, depth, level, d);
      var next := Folders(Below(share, level));
      WalkInLevelOrder(share, parent, depth, next, height - 1, d + 1);
      InOrderConcat(depth, Below(share, level), Walk(share, next, height - 1), d);
    }
  }

  ghost function Up(parent: nat -> nat, uid: nat, steps: nat): nat
    decreases steps
  {
    if steps == 0 then uid else Up(parent, parent(uid), steps - 1)
  }

  lemma {:induction false} UpOnce(parent: nat -> nat, uid: nat, steps: nat)
    ensures Up(parent, uid, steps + 1) == parent(Up(parent, uid, steps))
    decreases steps
  {
    if steps > 0 { UpOnce(parent, parent(uid), steps - 1); }
  }

  /** A node below `f` is deeper, and going up from it reaches `f` through one of
      `f`'s children. */
  ghost predicate Through(parent: nat -> nat, depth: nat -> nat, f: nat, c: Node, n: Node) {
    && depth(n.uid) > depth(f)
    && Up(parent, n.uid, depth(n.uid) - depth(f) - 1) == c.uid
    && Up(parent, n.uid, depth(n.uid) - depth(f)) == f
  }

  lemma ChildThrough(share: Share, parent: nat -> nat, depth: nat -> nat, f: nat, c: Node)
    requires Tree(share, parent, depth) && c in share.list(f)
    ensures Through(parent, depth, f, c, c)
  {
    UpOnce(parent, c.uid, 0);
  }

  lemma GrandchildThrough(share: Share, parent: nat -> nat, depth: nat -> nat, f: nat, c: Node, d: Node, n: Node)
    requires Tree(share, parent, depth) && c in share.list(f) && Through(parent, depth, c.uid, d, n)
    ensures Through(parent, depth, f, c, n)
  {
    UpOnce(parent, n.uid, depth(n.uid) - depth(f) - 1);
  }

  lemma {:induction false} BelowThrough(share: Share, parent: nat -> nat, depth: nat -> nat, f: nat,
                                        children: seq<Node>, n: Node)
    returns (c: Node)
    requires Finite(share) && Tree(share, parent, depth) && forall c :: c in children ==> c in share.list(f)
    requires n in Families(share, f, children)
    ensures c in children && Through(parent, depth, f, c, n)
    decreases share.height(f), |children|
  {
    c := children[0];
    assert c in children;
    if n == c {
      ChildThrough(share, parent, depth, f, c);
    } else if c.folder && n in Descendants(share, c.uid) {
      var d := BelowThrough(share, parent, depth, c.uid, share.list(c.uid), n);
      GrandchildThrough(share, parent, depth, f, c, d, n);
    } else {
      c := BelowThrough(share, parent, depth, f, children[1..], n);
    }
  }

  /** The nodes a child brings: itself and what is below it. */
  ghost function Own(share: Share, c: Node): seq<Node>
    requires Finite(share)
  {
    if c.folder then Descendants(share, c.uid) else []
  }

  lemma ChildNotBelowItself(share: Share, parent: nat -> nat, depth: nat -> nat, c: Node)
    requires Finite(share) && Tree(share, parent, depth)
    ensures Count(Own(share, c), c) == 0
  {
    Counted(Own(share, c), c);
    if c in Own(share, c) {
      var d := BelowThrough(share, parent, depth, c.uid, share.list(c.uid), c);
    }
  }

  /** No node comes through two children. */
  lemma NotThroughTwo(share: Share, parent: nat -> nat, depth: nat -> nat, f: nat, children: seq<Node>, n: Node)
    requires Finite(share) && Tree(share, parent, depth) && forall c :: c in children ==> c in share.list(f)
    requires children != [] && Distinct(children)
    requires n == children[0] || n in Own(share, children[0])
    ensures Count(Families(share, f, children[1..]), n) == 0
  {
    var c, rest := children[0], children[1..];
    assert c in children;
    Counted(Families(share, f, rest), n);
    if n in Families(share, f, rest) {
      var other := BelowThrough(share, parent, depth, f, rest, n);
      if n == c {
        ChildThrough(share, parent, depth, f, c);
      } else {
        var d := BelowThrough(share, parent, depth, c.uid, share.list(c.uid), n);
        GrandchildThrough(share, parent, depth, f, c, d, n);
      }
    }
  }

  /** So nothing is below a folder twice. */
  lemma {:induction false} DescendantsOnce(share: Share, parent: nat -> nat, depth: nat -> nat, f: nat,
                                           children: seq<Node>, n: Node)
    requires Finite(share) && Tree(share, parent, depth) && forall c :: c in children ==> c in share.list(f)
    requires Distinct(children)
    ensures Count(Families(share, f, children), n) <= 1
    decreases share.height(f), |children|
  {
    if children != [] {
      var c, rest := children[0], children[1..];
      assert c in children;
      assert Families(share, f, children) == [c] + Own(share, c) + Families(share, f, rest);
      CountConcat([c] + Own(share, c), Families(share, f, rest), n);
      CountConcat([c], Own(share, c), n);
      assert [c][1..] == [];
      DescendantsOnce(share, parent, depth, f, rest, n);
      if c.folder { DescendantsOnce(share, parent, depth, c.uid, share.list(c.uid), n); }
      ChildNotBelowItself(share, parent, depth, c);
      Counted(Own(share, c), n);
      if n == c || n in Own(share, c) { NotThroughTwo(share, parent, depth, f, children, n); }
    }
  }

  lemma {:induction false} BelowDepth(share: Share, parent: nat -> nat, depth: nat -> nat, level: seq<nat>, d: nat)
    requires Tree(share, parent, depth) && forall f :: f in level ==> depth(f) == d
    ensures forall c :: c in Below(share, level) ==> depth(c.uid) == d + 1
    ensures forall f :: f in Folders(Below(share, level)) ==> depth(f) == d + 1
  {
    forall c | c in Below(share, level) ensures depth(c.uid) == d + 1 {
      var f := BelowMembers(share, level, c);
    }
    forall f | f in Folders(Below(share, level)) ensures depth(f) == d + 1 {
      FoldersMembers(Below(share, level), f);
    }
  }

  /** All deeper than `d`, and never going back up. */
  ghost predicate InOrder(depth: nat -> nat, nodes: seq<Node>, d: nat) {
    && (forall n :: n in nodes ==> depth(n.uid) > d)
    && forall i, j :: 0 <= i < j < |nodes| ==> depth(nodes[i].uid) <= depth(nodes[j].uid)
  }

  lemma InOrderConcat(depth: nat -> nat, below: seq<Node>, rest: seq<Node>, d: nat)
    requires forall n :: n in below ==> depth(n.uid) == d + 1
    requires InOrder(depth, rest, d + 1)
    ensures InOrder(depth, below + rest, d)
  {
    var nodes := below + rest;
    forall i, j | 0 <= i < j < |nodes| ensures depth(nodes[i].uid) <= depth(nodes[j].uid) {
      if i < |below| {
        assert nodes[i] in below;
        assert j < |below| ==> nodes[j] in below;
        assert j >= |below| ==> nodes[j] in rest;
      } else {
        assert nodes[i] == rest[i - |below|] && nodes[j] == rest[j - |below|];
      }
    }
  }
}
