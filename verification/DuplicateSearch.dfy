/** Looking for photos the account already has, one at a time or many names to a request. */
module DuplicateSearch {
  import opened Wrappers

  const ACTIVE_LINK_STATE: int := 1
  const DUPLICATE_BATCH: nat := 150

  datatype Duplicate = Duplicate(link: Option<nat>, state: Option<int>, nameHash: string, contentHash: string)

  type Query = seq<string> -> Option<seq<Duplicate>>

  datatype Failure = NoVolume | Unavailable | RequestFailed

  /** The account's photos volume, if it has one and it can be reached. */
  datatype Photos = Volume(query: Query) | Missing(reason: Failure)

  function LowerChar(c: char): char {
    if 'A' <= c <= 'Z' then (c as int + 32) as char else c
  }

  function Lower(s: string): (r: string)
    ensures |r| == |s|
  {
    seq(|s|, i requires 0 <= i < |s| => LowerChar(s[i]))
  }

  predicate SameIgnoringCase(a: string, b: string) { Lower(a) == Lower(b) }

  /** A keyed digest in lower-case hexadecimal. */
  ghost predicate Hexadecimal(digest: string -> string) {
    forall s :: Lower(digest(s)) == digest(s)
  }

  // ------------------------------------------------------------------- the question

  predicate Active(d: Duplicate) { d.link.Some? && d.state == Some(ACTIVE_LINK_STATE) }

  predicate Candidate(d: Duplicate) { Active(d) && d.nameHash != "" && d.contentHash != "" }

  /** The links, in the order the server lists them, whose name and content match. */
  function Matches(listed: seq<Duplicate>, nameHash: string, contentHash: string): seq<nat> {
    if listed == [] then []
    else
      var before, last := Matches(listed[..|listed| - 1], nameHash, contentHash), listed[|listed| - 1];
      if Candidate(last) && SameIgnoringCase(last.nameHash, nameHash) && SameIgnoringCase(last.contentHash, contentHash)
      then before + [last.link.value] else before
  }

  predicate Collides(listed: seq<Duplicate>, nameHash: string) {
    exists d :: d in listed && Active(d) && SameIgnoringCase(d.nameHash, nameHash)
  }

  /** The same letter, in either case, or the same character. */
  ghost predicate SameLetter(c: char, d: char) {
    || c == d
    || ('A' <= c <= 'Z' && d as int == c as int + 32)
    || ('A' <= d <= 'Z' && c as int == d as int + 32)
  }

  lemma CaseIsIgnored(a: string, b: string)
    ensures SameIgnoringCase(a, b) <==> |a| == |b| && forall i :: 0 <= i < |a| ==> SameLetter(a[i], b[i])
  {
    assert forall i :: 0 <= i < |a| ==> Lower(a)[i] == LowerChar(a[i]);
    assert forall i :: 0 <= i < |b| ==> Lower(b)[i] == LowerChar(b[i]);
  }

  /** An entry with a link, in state 1, whose hashes are given and are the ones asked for. */
  ghost predicate IsMatch(d: Duplicate, nameHash: string, contentHash: string) {
    && d.link.Some? && d.state == Some(1) && d.nameHash != "" && d.contentHash != ""
    && SameIgnoringCase(d.nameHash, nameHash) && SameIgnoringCase(d.contentHash, contentHash)
  }

  /** The matches are the links of exactly the entries that match. */
  lemma {:induction false} MatchesAre(listed: seq<Duplicate>, nameHash: string, contentHash: string, link: nat)
    ensures link in Matches(listed, nameHash, contentHash) <==>
            exists d :: d in listed && d.link == Some(link) && IsMatch(d, nameHash, contentHash)
    decreases |listed|
  {
    if listed != [] {
      var shorter, last := listed[..|listed| - 1], listed[|listed| - 1];
      MatchesAre(shorter, nameHash, contentHash, link);
      assert forall d :: d in listed <==> d in shorter || d == last;
    }
  }

  /** Each entry that matches adds its link at the end, and no other adds anything. */
  lemma MatchesGrow(listed: seq<Duplicate>, nameHash: string, contentHash: string, k: nat)
    requires k < |listed|
    ensures var before := Matches(listed[..k], nameHash, contentHash);
      var after := Matches(listed[..k + 1], nameHash, contentHash);
      && before <= after
      && |after| == |before| + (if IsMatch(listed[k], nameHash, contentHash) then 1 else 0)
      && (IsMatch(listed[k], nameHash, contentHash) ==> listed[k].link == Some(after[|before|]))
  {
    assert listed[..k + 1][..k] == listed[..k];
  }

  /** A name collides just if some entry with a link, in state 1, carries it. */
  lemma CollidesMeans(listed: seq<Duplicate>, nameHash: string)
    ensures Collides(listed, nameHash) <==>
            exists i :: 0 <= i < |listed| && listed[i].link.Some? && listed[i].state == Some(1)
                        && SameIgnoringCase(listed[i].nameHash, nameHash)
  {
    if Collides(listed, nameHash) {
      var d :| d in listed && Active(d) && SameIgnoringCase(d.nameHash, nameHash);
      var i :| 0 <= i < |listed| && listed[i] == d;
    }
  }

  /** What an answer says about one name. */
  function About(listed: seq<Duplicate>, nameHash: string): seq<Duplicate> {
    if listed == [] then []
    else
      var before, last := About(listed[..|listed| - 1], nameHash), listed[|listed| - 1];
      if SameIgnoringCase(last.nameHash, nameHash) then before + [last] else before
  }

  /** The server answers each name of a request as it would alone, and no other. */
  ghost predicate AnswersTruly(query: Query, known: string -> seq<Duplicate>, asked: seq<string>) {
    query(asked).Some? ==>
      && (forall h :: h in asked ==> About(query(asked).value, h) == known(h))
      && (forall d :: d in query(asked).value ==> exists h :: h in asked && SameIgnoringCase(d.nameHash, h))
  }

  ghost predicate Honest(query: Query, known: string -> seq<Duplicate>) {
    forall asked :: AnswersTruly(query, known, asked)
  }

  /** Matches and collisions only depend on what an answer says about the name. */
  lemma {:induction false} OnlyAboutMatters(listed: seq<Duplicate>, nameHash: string, contentHash: string)
    ensures Matches(listed, nameHash, contentHash) == Matches(About(listed, nameHash), nameHash, contentHash)
    decreases |listed|
  {
    if listed != [] {
      var shorter, last := listed[..|listed| - 1], listed[|listed| - 1];
      OnlyAboutMatters(shorter, nameHash, contentHash);
      assert (About(shorter, nameHash) + [last])[..|About(shorter, nameHash)|] == About(shorter, nameHash);
    }
  }

  lemma {:induction false} AboutMembers(listed: seq<Duplicate>, nameHash: string)
    ensures forall d :: d in About(listed, nameHash) <==> d in listed && SameIgnoringCase(d.nameHash, nameHash)
    decreases |listed|
  {
    if listed != [] {
      AboutMembers(listed[..|listed| - 1], nameHash);
      assert listed == listed[..|listed| - 1] + [listed[|listed| - 1]];
    }
  }

  lemma CollidesAbout(listed: seq<Duplicate>, nameHash: string)
    ensures Collides(listed, nameHash) <==> Collides(About(listed, nameHash), nameHash)
  {
    AboutMembers(listed, nameHash);
  }

  lemma {:induction false} NoneAbout(listed: seq<Duplicate>, nameHash: string, contentHash: string)
    requires forall d :: d in listed ==> !SameIgnoringCase(d.nameHash, nameHash)
    ensures Matches(listed, nameHash, contentHash) == [] && !Collides(listed, nameHash)
    decreases |listed|
  {
    if listed != [] { NoneAbout(listed[..|listed| - 1], nameHash, contentHash); }
  }

  /** No match without a collision: a `false` is conclusive. */
  lemma {:induction false} NoCollisionNoMatch(listed: seq<Duplicate>, nameHash: string, contentHash: string)
    requires !Collides(listed, nameHash)
    ensures Matches(listed, nameHash, contentHash) == []
    decreases |listed|
  {
    if listed != [] {
      assert listed[|listed| - 1] in listed;
      NoCollisionNoMatch(listed[..|listed| - 1], nameHash, contentHash);
    }
  }

  // -------------------------------------------------------------------- one photo

  /** The active photos with this name and this content. */
  method FindPhotoDuplicates(photos: Photos, digest: string -> string, name: string, sha1Hex: string,
                             ghost known: string -> seq<Duplicate>)
    returns (r: Result<seq<nat>, Failure>)
    requires photos.Volume? ==> Honest(photos.query, known)
    ensures r.Ok? <==> photos.Volume? && photos.query([digest(name)]).Some?
    ensures r.Ok? ==> r.value == Matches(known(digest(name)), digest(name), digest(sha1Hex))
  {
    if photos.Missing? {
      return Err(photos.reason);
    }
    var nameHash := digest(name);
    var answer := photos.query([nameHash]);
    if answer.None? {
      return Err(RequestFailed);
    }
    assert AnswersTruly(photos.query, known, [nameHash]) && nameHash in [nameHash];
    OnlyAboutMatters(answer.value, nameHash, digest(sha1Hex));
    var links := MatchingLinks(answer.value, nameHash, digest(sha1Hex));
    return Ok(links);
  }

  method MatchingLinks(listed: seq<Duplicate>, nameHash: string, contentHash: string) returns (links: seq<nat>)
    ensures links == Matches(listed, nameHash, contentHash)
  {
    links := [];
    var i := 0;
    while i < |listed|
      invariant 0 <= i <= |listed| && links == Matches(listed[..i], nameHash, contentHash)
    {
      var d := listed[i];
      assert listed[..i + 1][..i] == listed[..i];
      if Candidate(d) && SameIgnoringCase(d.nameHash, nameHash) && SameIgnoringCase(d.contentHash, contentHash) {
        links := links + [d.link.value];
      }
      i := i + 1;
    }
    assert listed[..i] == listed;
  }

  // -------------------------------------------------------------------- many photos

  ghost predicate Increasing(s: seq<nat>) {
    forall i, j :: 0 <= i < j < |s| ==> s[i] < s[j]
  }

  lemma IncreasingAppend(s: seq<nat>, x: nat)
    requires Increasing(s) && forall k :: k in s ==> k < x
    ensures Increasing(s + [x])
  {
    forall i | 0 <= i < |s| ensures s[i] < x {
      assert s[i] in s;
    }
  }

  /** `positions` sends each digest to the inputs that produced it. */
  ghost predicate Indexes(positions: map<string, seq<nat>>, hashes: seq<string>, n: nat)
    requires n <= |hashes|
  {
    && (forall h :: h in positions ==> Increasing(positions[h]))
    && (forall h, k {:trigger k in positions[h]} ::
          h in positions ==> (k in positions[h] <==> 0 <= k < n && hashes[k] == h))
    && (forall k :: 0 <= k < n ==> hashes[k] in positions)
  }

  ghost predicate NoRepeats(s: seq<string>) {
    forall i, j :: 0 <= i < j < |s| ==> s[i] != s[j]
  }

  /** The distinct digests of `hashes`, in order of appearance, and who has each. */
  method IndexByHash(hashes: seq<string>) returns (positions: map<string, seq<nat>>, distinct: seq<string>)
    ensures Indexes(positions, hashes, |hashes|)
    ensures NoRepeats(distinct) && forall h :: h in distinct <==> h in hashes
  {
    positions, distinct := map[], [];
    var index := 0;
    while index < |hashes|
      invariant 0 <= index <= |hashes|
      invariant Indexes(positions, hashes, index)
      invariant NoRepeats(distinct)
      invariant forall h :: h in distinct <==> h in positions
      invariant forall h :: h in positions <==> h in hashes[..index]
    {
      var h := hashes[index];
      assert hashes[..index + 1] == hashes[..index] + [h];
      if h !in positions {
        distinct := distinct + [h];
        positions := positions[h := [index]];
      } else {
        IncreasingAppend(positions[h], index);
        positions := positions[h := positions[h] + [index]];
      }
      index := index + 1;
    }
    assert hashes[..index] == hashes;
  }

  function Digests(digest: string -> string, names: seq<string>): (hashes: seq<string>)
    ensures |hashes| == |names| && forall i :: 0 <= i < |names| ==> hashes[i] == digest(names[i])
  {
    seq(|names|, i requires 0 <= i < |names| => digest(names[i]))
  }

  /** Give each input its matches among one answer's duplicates. */
  method SortOnto(listed: seq<Duplicate>, positions: map<string, seq<nat>>, hashes: seq<string>, contents: seq<string>,
                  sofar: seq<seq<nat>>) returns (out: seq<seq<nat>>)
    requires Indexes(positions, hashes, |hashes|) && |contents| == |hashes| == |sofar|
    requires forall k :: 0 <= k < |hashes| ==> Lower(hashes[k]) == hashes[k]
    ensures |out| == |hashes|
    ensures forall k :: 0 <= k < |hashes| ==> out[k] == sofar[k] + Matches(listed, hashes[k], contents[k])
  {
    out := sofar;
    var i := 0;
    while i < |listed|
      invariant 0 <= i <= |listed| && |out| == |hashes|
      invariant forall k :: 0 <= k < |hashes| ==> out[k] == sofar[k] + Matches(listed[..i], hashes[k], contents[k])
    {
      var d := listed[i];
      assert listed[..i + 1][..i] == listed[..i];
      var key := Lower(d.nameHash);
      if Candidate(d) && key in positions {
        var before := out;
        out := PushTo(d, positions[key], contents, before);
        forall k | 0 <= k < |hashes| ensures out[k] == sofar[k] + Matches(listed[..i + 1], hashes[k], contents[k]) {
          assert k in positions[key] <==> SameIgnoringCase(d.nameHash, hashes[k]);
        }
      } else {
        forall k | 0 <= k < |hashes|
          ensures Matches(listed[..i + 1], hashes[k], contents[k]) == Matches(listed[..i], hashes[k], contents[k])
        {
          assert hashes[k] in positions;
        }
      }
      i := i + 1;
    }
    assert listed[..i] == listed;
  }

  method PushTo(d: Duplicate, indices: seq<nat>, contents: seq<string>, before: seq<seq<nat>>)
    returns (out: seq<seq<nat>>)
    requires d.link.Some? && |before| == |contents| && Increasing(indices)
    requires forall k :: k in indices ==> k < |contents|
    ensures |out| == |before|
    ensures forall k :: 0 <= k < |before| ==>
              out[k] ==
                if k in indices && SameIgnoringCase(d.contentHash, contents[k])
                then before[k] + [d.link.value]
                else before[k]
  {
    out := before;
    var i := 0;
    while i < |indices|
      invariant 0 <= i <= |indices| && |out| == |before|
      invariant forall k :: 0 <= k < |before| ==>
        out[k] ==
          if k in indices[..i] && SameIgnoringCase(d.contentHash, contents[k])
          then before[k] + [d.link.value]
          else before[k]
    {
      var index := indices[i];
      assert index in indices;
      assert index !in indices[..i];
      assert indices[..i + 1] == indices[..i] + [index];
      if SameIgnoringCase(d.contentHash, contents[index]) {
        out := out[index := out[index] + [d.link.value]];
      }
      i := i + 1;
    }
    assert indices[..i] == indices;
  }

  /** One answer tells a name asked about everything, and the others nothing. */
  lemma AnswerTells(query: Query, known: string -> seq<Duplicate>, asked: seq<string>, hashes: seq<string>,
                    nameHash: string, contentHash: string)
    requires Honest(query, known) && query(asked).Some?
    requires forall h :: h in hashes ==> Lower(h) == h
    requires nameHash in hashes && forall h :: h in asked ==> h in hashes
    ensures Matches(query(asked).value, nameHash, contentHash) ==
            if nameHash in asked then Matches(known(nameHash), nameHash, contentHash) else []
    ensures Collides(query(asked).value, nameHash) <==> nameHash in asked && Collides(known(nameHash), nameHash)
  {
    assert AnswersTruly(query, known, asked);
    var listed := query(asked).value;
    if nameHash in asked {
      OnlyAboutMatters(listed, nameHash, contentHash);
      CollidesAbout(listed, nameHash);
    } else {
      NoneAbout(listed, nameHash, contentHash);
    }
  }

  lemma InOneChunk(distinct: seq<string>, done: nat, upto: nat, h: string)
    requires NoRepeats(distinct) && done <= upto <= |distinct|
    ensures h in distinct[..upto] <==> h in distinct[..done] || h in distinct[done..upto]
    ensures !(h in distinct[..done] && h in distinct[done..upto])
  {
    assert distinct[..upto] == distinct[..done] + distinct[done..upto];
  }

  /** Every input whose digest is among `seen` has its matches, the others nothing yet. */
  ghost predicate Answered(known: string -> seq<Duplicate>, hashes: seq<string>, contents: seq<string>,
                           seen: seq<string>, out: seq<seq<nat>>)
  {
    && |out| == |hashes| == |contents|
    && forall k :: 0 <= k < |hashes| ==>
         out[k] == if hashes[k] in seen then Matches(known(hashes[k]), hashes[k], contents[k]) else []
  }

  lemma ChunkAnswered(query: Query, known: string -> seq<Duplicate>, hashes: seq<string>, contents: seq<string>,
                      distinct: seq<string>, done: nat, upto: nat, before: seq<seq<nat>>, out: seq<seq<nat>>)
    requires Honest(query, known) && NoRepeats(distinct) && done <= upto <= |distinct|
    requires forall h :: h in hashes ==> Lower(h) == h
    requires forall h :: h in distinct ==> h in hashes
    requires Answered(known, hashes, contents, distinct[..done], before) && query(distinct[done..upto]).Some?
    requires |out| == |hashes| && forall k :: 0 <= k < |hashes| ==>
               out[k] == before[k] + Matches(query(distinct[done..upto]).value, hashes[k], contents[k])
    ensures Answered(known, hashes, contents, distinct[..upto], out)
  {
    forall k | 0 <= k < |hashes|
      ensures out[k] == if hashes[k] in distinct[..upto] then Matches(known(hashes[k]), hashes[k], contents[k]) else []
    {
      AnswerTells(query, known, distinct[done..upto], hashes, hashes[k], contents[k]);
      InOneChunk(distinct, done, upto, hashes[k]);
    }
  }

  /** The many-photo search gives each input, in input order, what the one-photo search
      would: however the names repeat and wherever the requests are cut. */
  method FindPhotoDuplicatesMany(photos: Photos, digest: string -> string, names: seq<string>, sha1s: seq<string>,
                                 ghost known: string -> seq<Duplicate>)
    returns (r: Result<seq<seq<nat>>, Failure>)
    requires |sha1s| == |names| && Hexadecimal(digest)
    requires photos.Volume? ==> Honest(photos.query, known)
    ensures names == [] ==> r == Ok([])
    ensures r.Ok? ==> |r.value| == |names| && forall k :: 0 <= k < |names| ==>
              r.value[k] == Matches(known(digest(names[k])), digest(names[k]), digest(Lower(sha1s[k])))
    ensures r.Err? ==> names != [] && (photos.Missing? || exists asked :: photos.query(asked).None?)
    ensures photos.Missing? && names != [] ==> r.Err?
  {
    var out := seq(|names|, i => []);
    if names == [] {
      assert out == [];
      return Ok(out);
    }
    if photos.Missing? {
      return Err(photos.reason);
    }
    var hashes := Digests(digest, names);
    var contents := seq(|names|, i requires 0 <= i < |names| => digest(Lower(sha1s[i])));
    var positions, distinct := IndexByHash(hashes);
    var done := 0;
    while done < |distinct|
      invariant 0 <= done <= |distinct| && Answered(known, hashes, contents, distinct[..done], out)
    {
      var upto := if |distinct| - done < DUPLICATE_BATCH then |distinct| else done + DUPLICATE_BATCH;
      var asked := distinct[done..upto];
      var answer := photos.query(asked);
      if answer.None? {
        return Err(RequestFailed);
      }
      var before := out;
      out := SortOnto(answer.value, positions, hashes, contents, before);
      ChunkAnswered(photos.query, known, hashes, contents, distinct, done, upto, before, out);
      done := upto;
    }
    assert distinct[..done] == distinct;
    return Ok(out);
  }

  /** Which names some active photo carries: exactly those the server lists one for. */
  method PhotoNameCollisions(photos: Photos, digest: string -> string, names: seq<string>,
                             ghost known: string -> seq<Duplicate>)
    returns (r: Result<seq<bool>, Failure>)
    requires Hexadecimal(digest) && (photos.Volume? ==> Honest(photos.query, known))
    ensures names == [] ==> r == Ok([])
    ensures r.Ok? ==> |r.value| == |names| && forall k :: 0 <= k < |names| ==>
              (r.value[k] <==> Collides(known(digest(names[k])), digest(names[k])))
    ensures r.Err? ==> names != [] && (photos.Missing? || exists asked :: photos.query(asked).None?)
  {
    var out := seq(|names|, i => false);
    if names == [] {
      assert out == [];
      return Ok(out);
    }
    if photos.Missing? {
      return Err(photos.reason);
    }
    var hashes := Digests(digest, names);
    var positions, distinct := IndexByHash(hashes);
    var done := 0;
    while done < |distinct|
      invariant 0 <= done <= |distinct| && |out| == |names|
      invariant forall k :: 0 <= k < |names| ==>
        (out[k] <==> hashes[k] in distinct[..done] && Collides(known(hashes[k]), hashes[k]))
    {
      var upto := if |distinct| - done < DUPLICATE_BATCH then |distinct| else done + DUPLICATE_BATCH;
      var asked := distinct[done..upto];
      var answer := photos.query(asked);
      if answer.None? {
        return Err(RequestFailed);
      }
      var before := out;
      out := FlagFrom(answer.value, positions, hashes, before);
      forall k | 0 <= k < |names|
        ensures out[k] <==> hashes[k] in distinct[..upto] && Collides(known(hashes[k]), hashes[k])
      {
        AnswerTells(photos.query, known, asked, hashes, hashes[k], "");
        InOneChunk(distinct, done, upto, hashes[k]);
      }
      done := upto;
    }
    assert distinct[..done] == distinct;
    return Ok(out);
  }

  method FlagFrom(listed: seq<Duplicate>, positions: map<string, seq<nat>>, hashes: seq<string>, before: seq<bool>)
    returns (out: seq<bool>)
    requires Indexes(positions, hashes, |hashes|) && |hashes| == |before|
    requires forall k :: 0 <= k < |hashes| ==> Lower(hashes[k]) == hashes[k]
    ensures |out| == |hashes|
    ensures forall k :: 0 <= k < |hashes| ==> (out[k] <==> before[k] || Collides(listed, hashes[k]))
  {
    out := before;
    var i := 0;
    while i < |listed|
      invariant 0 <= i <= |listed| && |out| == |hashes|
      invariant forall k :: 0 <= k < |hashes| ==> (out[k] <==> before[k] || Collides(listed[..i], hashes[k]))
    {
      var d := listed[i];
      assert listed[..i + 1] == listed[..i] + [d];
      var key := Lower(d.nameHash);
      if Active(d) && key in positions {
        ghost var was := out;
        var j := 0;
        while j < |positions[key]|
          invariant 0 <= j <= |positions[key]| && |out| == |hashes|
          invariant forall k :: 0 <= k < |hashes| ==> (out[k] <==> was[k] || k in positions[key][..j])
        {
          assert positions[key][j] in positions[key];
          assert positions[key][..j + 1] == positions[key][..j] + [positions[key][j]];
          out := out[positions[key][j] := true];
          j := j + 1;
        }
        assert positions[key][..j] == positions[key];
      }
      forall k | 0 <= k < |hashes| ensures out[k] <==> before[k] || Collides(listed[..i + 1], hashes[k]) {
        assert hashes[k] in positions;
        assert key in positions ==> (k in positions[key] <==> SameIgnoringCase(d.nameHash, hashes[k]));
      }
      i := i + 1;
    }
    assert listed[..i] == listed;
  }
}
