/** Incremental sync: draining event pages, and the manager that publishes them. */
module EventFeed {
  import opened Wrappers

  // The manager invalidates caches, publishes each event and persists the cursor,
  // through failed polls, failed saves, failed loads and restarts.

  /** The server's log. An event's id is its position, counted from one; a scope
      sees only some of them. */
  datatype Entry = Visible | Hidden

  datatype DriveEvent = Node(id: nat) | ContinuityLost(id: nat) | CursorAdvanced(id: nat)

  datatype Page = Page(events: seq<nat>, last: nat, more: bool, refresh: bool)

  /** The ids after `from`, up to `upto`, that the scope sees. */
  function VisibleIn(log: seq<Entry>, from: nat, upto: nat): seq<nat>
    requires from <= upto <= |log|
    decreases upto
  {
    if from == upto then []
    else if log[upto - 1].Visible? then VisibleIn(log, from, upto - 1) + [upto]
    else VisibleIn(log, from, upto - 1)
  }

  lemma {:induction false} VisibleExactly(log: seq<Entry>, from: nat, upto: nat, id: nat)
    requires from <= upto <= |log|
    ensures id in VisibleIn(log, from, upto) <==> from < id <= upto && log[id - 1].Visible?
    decreases upto
  {
    if upto > from { VisibleExactly(log, from, upto - 1, id); }
  }

  lemma {:induction false} VisibleSplits(log: seq<Entry>, from: nat, mid: nat, upto: nat)
    requires from <= mid <= upto <= |log|
    ensures VisibleIn(log, from, upto) == VisibleIn(log, from, mid) + VisibleIn(log, mid, upto)
    decreases upto
  {
    if upto > mid { VisibleSplits(log, from, mid, upto - 1); }
  }

  lemma {:induction false} VisibleStays(log: seq<Entry>, longer: seq<Entry>, from: nat, upto: nat)
    requires from <= upto <= |log| && log <= longer
    ensures VisibleIn(log, from, upto) == VisibleIn(longer, from, upto)
    decreases upto
  {
    if upto > from {
      VisibleStays(log, longer, from, upto - 1);
      assert longer[upto - 1] == log[upto - 1];
    }
  }

  // ------------------------------------------------------------------ draining pages

  /** A page of a contiguous log: every visible event after `cursor` up to `last`,
      unless it says that continuity was lost. */
  ghost predicate Contiguous(log: seq<Entry>, cursor: nat, page: Page) {
    && page.last <= |log|
    && (!page.refresh ==> cursor <= page.last && page.events == VisibleIn(log, cursor, page.last))
  }

  function Nodes(ids: seq<nat>): (events: seq<DriveEvent>)
    ensures |events| == |ids| && forall i :: 0 <= i < |ids| ==> events[i] == Node(ids[i])
  {
    seq(|ids|, i requires 0 <= i < |ids| => Node(ids[i]))
  }

  /** How a drained batch may end after the events up to `mid`. */
  ghost predicate EndsWell(log: seq<Entry>, mid: nat, tail: seq<DriveEvent>)
    requires mid <= |log|
  {
    || tail == []
    || (|tail| == 1 && tail[0].ContinuityLost? && tail[0].id <= |log|)
    || (|tail| == 1 && tail[0].CursorAdvanced? && mid < tail[0].id <= |log| && VisibleIn(log, mid, tail[0].id) == [])
  }

  ghost predicate BatchTo(log: seq<Entry>, cursor: nat, events: seq<DriveEvent>, mid: nat, tail: seq<DriveEvent>) {
    && cursor <= mid <= |log|
    && events == Nodes(VisibleIn(log, cursor, mid)) + tail
    && EndsWell(log, mid, tail)
  }

  /** A batch drained from `cursor`: the visible events in order, none missing, up to
      where it stops, is told to jump, or finds nothing more. */
  ghost predicate Drained(log: seq<Entry>, cursor: nat, events: seq<DriveEvent>) {
    exists mid: nat, tail: seq<DriveEvent> :: BatchTo(log, cursor, events, mid, tail)
  }

  /** Answers to the pages asked for: by request number and cursor; None is a failure. */
  type Pages = (nat, nat) -> Option<Page>

  ghost predicate Honest(fetch: Pages, log: seq<Entry>) {
    forall k: nat, c: nat :: fetch(k, c).Some? && c <= |log| ==> Contiguous(log, c, fetch(k, c).value)
  }

  lemma PageMovesOn(fetch: Pages, log: seq<Entry>, k: nat, cursor: nat)
    requires Honest(fetch, log) && cursor <= |log| && fetch(k, cursor).Some?
    requires var page := fetch(k, cursor).value; !page.refresh && page.events != []
    ensures cursor < fetch(k, cursor).value.last <= |log|
  {
  }

  function Then(events: seq<DriveEvent>, rest: Option<seq<DriveEvent>>): Option<seq<DriveEvent>> {
    if rest.None? then None else Some(events + rest.value)
  }

  lemma ThenNothing(rest: Option<seq<DriveEvent>>)
    ensures Then([], rest) == rest
  {
    if rest.Some? { assert [] + rest.value == rest.value; }
  }

  lemma ThenThen(a: seq<DriveEvent>, b: seq<DriveEvent>, rest: Option<seq<DriveEvent>>)
    ensures Then(a, Then(b, rest)) == Then(a + b, rest)
  {
    if rest.Some? { assert a + (b + rest.value) == (a + b) + rest.value; }
  }

  /** What draining from `cursor` gives, from request `k` on. */
  ghost function Enumerated(fetch: Pages, log: seq<Entry>, k: nat, cursor: nat): Option<seq<DriveEvent>>
    requires Honest(fetch, log) && cursor <= |log|
    decreases |log| - cursor
  {
    if fetch(k, cursor).None? then None
    else
      var page := fetch(k, cursor).value;
      if page.refresh then Some([ContinuityLost(page.last)])
      else if page.events == [] then Some(if page.last != cursor then [CursorAdvanced(page.last)] else [])
      else if !page.more then Some(Nodes(page.events))
      else
        PageMovesOn(fetch, log, k, cursor);
        Then(Nodes(page.events), Enumerated(fetch, log, k + 1, page.last))
  }

  lemma DrainedJoins(log: seq<Entry>, cursor: nat, last: nat, rest: seq<DriveEvent>)
    requires cursor <= last <= |log| && Drained(log, last, rest)
    ensures Drained(log, cursor, Nodes(VisibleIn(log, cursor, last)) + rest)
  {
    var mid: nat, tail: seq<DriveEvent> :| BatchTo(log, last, rest, mid, tail);
    VisibleSplits(log, cursor, last, mid);
    var a, b := VisibleIn(log, cursor, last), VisibleIn(log, last, mid);
    assert Nodes(a + b) == Nodes(a) + Nodes(b);
    assert Nodes(a) + (Nodes(b) + tail) == Nodes(a + b) + tail;
    assert BatchTo(log, cursor, Nodes(a) + rest, mid, tail);
  }

  /** Every answer a drain can give is a drained batch. */
  lemma {:induction false} EnumeratedIsDrained(fetch: Pages, log: seq<Entry>, k: nat, cursor: nat)
    requires Honest(fetch, log) && cursor <= |log| && Enumerated(fetch, log, k, cursor).Some?
    ensures Drained(log, cursor, Enumerated(fetch, log, k, cursor).value)
    decreases |log| - cursor
  {
    var page := fetch(k, cursor).value;
    var events := Enumerated(fetch, log, k, cursor).value;
    if page.refresh || page.events == [] {
      assert BatchTo(log, cursor, events, cursor, events);
    } else if !page.more {
      assert BatchTo(log, cursor, events, page.last, []);
    } else {
      PageMovesOn(fetch, log, k, cursor);
      EnumeratedIsDrained(fetch, log, k + 1, page.last);
      DrainedJoins(log, cursor, page.last, Enumerated(fetch, log, k + 1, page.last).value);
    }
  }

  // ---------------------------------------------------------- where a drain stops

  /** A page after which the drain asks for the next one. */
  ghost predicate Onward(page: Option<Page>) {
    page.Some? && !page.value.refresh && page.value.events != [] && page.value.more
  }

  ghost predicate GoesOn(fetch: Pages, k: nat, path: seq<nat>, i: nat)
    requires i + 1 < |path|
  {
    Onward(fetch(k + i, path[i])) && path[i + 1] == fetch(k + i, path[i]).value.last
  }

  /** A drain makes request `k + i` at cursor `path[i]` and stops at the last of these. */
  ghost predicate Walks(fetch: Pages, k: nat, path: seq<nat>) {
    && path != []
    && (forall i {:trigger GoesOn(fetch, k, path, i)} :: 0 <= i < |path| - 1 ==> GoesOn(fetch, k, path, i))
    && !Onward(LastPage(fetch, k, path))
  }

  ghost function LastPage(fetch: Pages, k: nat, path: seq<nat>): Option<Page>
    requires path != []
  {
    fetch(k + |path| - 1, path[|path| - 1])
  }

  lemma WalksOn(fetch: Pages, k: nat, path: seq<nat>)
    requires Walks(fetch, k, path) && |path| > 1
    ensures Onward(fetch(k, path[0])) && path[1] == fetch(k, path[0]).value.last
    ensures Walks(fetch, k + 1, path[1..]) && LastPage(fetch, k + 1, path[1..]) == LastPage(fetch, k, path)
  {
    var rest, next := path[1..], k + 1;
    assert GoesOn(fetch, k, path, 0);
    assert next + |rest| - 1 == k + |path| - 1;
    forall i {:trigger GoesOn(fetch, next, rest, i)} | 0 <= i < |rest| - 1 ensures GoesOn(fetch, next, rest, i) {
      assert GoesOn(fetch, k, path, i + 1);
      assert next + i == k + (i + 1);
    }
  }

  /** Every drain walks some pages and stops. */
  lemma {:induction false} DrainWalks(fetch: Pages, log: seq<Entry>, k: nat, cursor: nat) returns (path: seq<nat>)
    requires Honest(fetch, log) && cursor <= |log|
    ensures Walks(fetch, k, path) && path[0] == cursor
    decreases |log| - cursor
  {
    if Onward(fetch(k, cursor)) {
      PageMovesOn(fetch, log, k, cursor);
      var rest := DrainWalks(fetch, log, k + 1, fetch(k, cursor).value.last);
      path := [cursor] + rest;
      forall i | 0 <= i < |path| - 1 ensures GoesOn(fetch, k, path, i) {
        if i > 0 {
          assert GoesOn(fetch, k + 1, rest, i - 1);
          assert k + i == (k + 1) + (i - 1);
        }
      }
      assert k + |path| - 1 == (k + 1) + |rest| - 1;
      assert LastPage(fetch, k, path) == LastPage(fetch, k + 1, rest);
    } else {
      path := [cursor];
    }
  }

  /** Of what a drain answers, the end is what its last page says: that continuity was
      lost, that the cursor moved over nothing, or that page's own events. */
  ghost predicate EndsAsSaid(events: seq<DriveEvent>, page: Page, asked: nat) {
    && (page.refresh <==> events != [] && events[|events| - 1].ContinuityLost?)
    && (page.refresh ==> events[|events| - 1] == ContinuityLost(page.last))
    && (!page.refresh && page.events == [] && page.last != asked <==>
          events != [] && events[|events| - 1].CursorAdvanced?)
    && (!page.refresh && page.events == [] && page.last != asked ==>
          events[|events| - 1] == CursorAdvanced(page.last))
  }

  /** The nodes a drain answers are the visible ones up to the last page, and that page's. */
  ghost predicate NodesAsSaid(log: seq<Entry>, start: nat, events: seq<DriveEvent>, page: Page, asked: nat)
    requires start <= asked <= |log| && page.last <= |log|
  {
    if page.refresh || page.events == [] then
      && |VisibleIn(log, start, asked)| <= |events| <= |VisibleIn(log, start, asked)| + 1
      && Nodes(VisibleIn(log, start, asked)) <= events
      && (|events| > |VisibleIn(log, start, asked)| <==> page.refresh || page.last != asked)
    else asked <= page.last && events == Nodes(VisibleIn(log, start, page.last))
  }

  lemma {:induction false} DrainAnswers(fetch: Pages, log: seq<Entry>, k: nat, path: seq<nat>)
    requires Honest(fetch, log) && Walks(fetch, k, path) && path[0] <= |log|
    ensures path[0] <= path[|path| - 1] <= |log|
    ensures var r, page := Enumerated(fetch, log, k, path[0]), LastPage(fetch, k, path);
      && (r.None? <==> page.None?)
      && (r.Some? ==>
            && page.value.last <= |log|
            && EndsAsSaid(r.value, page.value, path[|path| - 1])
            && NodesAsSaid(log, path[0], r.value, page.value, path[|path| - 1]))
    decreases |path|
  {
    var start, page := path[0], LastPage(fetch, k, path);
    if |path| == 1 {
      assert VisibleIn(log, start, start) == [] && Nodes([]) == [];
    } else {
      WalksOn(fetch, k, path);
      PageMovesOn(fetch, log, k, start);
      DrainAnswers(fetch, log, k + 1, path[1..]);
      var rest := Enumerated(fetch, log, k + 1, path[1]);
      if rest.Some? { PageBefore(log, start, path[1], rest.value, page.value, path[|path| - 1]); }
    }
  }

  /** One page more at the front of a drain. */
  lemma PageBefore(log: seq<Entry>, start: nat, next: nat, rest: seq<DriveEvent>, page: Page, asked: nat)
    requires start <= next <= asked <= |log| && page.last <= |log|
    requires EndsAsSaid(rest, page, asked) && NodesAsSaid(log, next, rest, page, asked)
    ensures EndsAsSaid(Nodes(VisibleIn(log, start, next)) + rest, page, asked)
    ensures NodesAsSaid(log, start, Nodes(VisibleIn(log, start, next)) + rest, page, asked)
  {
    var before := VisibleIn(log, start, next);
    var upto := if page.refresh || page.events == [] then asked else page.last;
    VisibleSplits(log, start, next, upto);
    assert Nodes(before + VisibleIn(log, next, upto)) == Nodes(before) + Nodes(VisibleIn(log, next, upto));
  }

  /** The server answers every page, never loses continuity, and says there is no more
      only at its end. */
  ghost predicate Complete(fetch: Pages, log: seq<Entry>) {
    forall k: nat, c: nat :: fetch(k, c).Some? &&
      var page := fetch(k, c).value;
      !page.refresh && (page.last == |log| || (page.more && page.events != []))
  }

  /** Then a drain delivers everything there is. */
  lemma {:induction false} EnumeratesAll(fetch: Pages, log: seq<Entry>, k: nat, cursor: nat)
    requires Honest(fetch, log) && Complete(fetch, log) && cursor <= |log|
    ensures Enumerated(fetch, log, k, cursor).Some?
    ensures forall id :: cursor < id <= |log| && log[id - 1].Visible? ==>
              Node(id) in Enumerated(fetch, log, k, cursor).value
    decreases |log| - cursor
  {
    var page := fetch(k, cursor).value;
    assert !page.refresh && (page.last == |log| || (page.more && page.events != []));
    AllIn(log, cursor, page.last, Nodes(page.events));
    if page.events != [] && page.more {
      PageMovesOn(fetch, log, k, cursor);
      EnumeratesAll(fetch, log, k + 1, page.last);
    }
  }

  /** Drain the events after `start`, page by page, or fail; without a cursor, seed one
      from the server's head. The log may grow between pages; `log` is where it stands
      at the end. */
  method EnumerateEvents(latest: Option<nat>, fetch: Pages, start: Option<nat>, ghost log: seq<Entry>)
    returns (r: Option<seq<DriveEvent>>)
    requires Honest(fetch, log) && (start.Some? ==> start.value <= |log|)
    ensures start.None? ==> r == if latest.None? then None else Some([CursorAdvanced(latest.value)])
    ensures start.Some? ==> r == Enumerated(fetch, log, 0, start.value)
  {
    if start.None? {
      if latest.None? {
        return None;
      }
      return Some([CursorAdvanced(latest.value)]);
    }
    var cursor, pages: nat := start.value, 0;
    var events: seq<DriveEvent> := [];
    ThenNothing(Enumerated(fetch, log, 0, cursor));
    while true
      invariant cursor <= |log|
      invariant Enumerated(fetch, log, 0, start.value) == Then(events, Enumerated(fetch, log, pages, cursor))
      decreases |log| - cursor
    {
      var fetched := fetch(pages, cursor);
      if fetched.None? {
        return None;
      }
      var page := fetched.value;
      if page.refresh {
        return Some(events + [ContinuityLost(page.last)]);
      }
      if page.events == [] {
        if page.last != cursor {
          events := events + [CursorAdvanced(page.last)];
        } else {
          assert events + [] == events;
        }
        return Some(events);
      }
      if page.more {
        PageMovesOn(fetch, log, pages, cursor);
        ThenThen(events, Nodes(page.events), Enumerated(fetch, log, pages + 1, page.last));
      }
      events := events + Nodes(page.events);
      if !page.more {
        return Some(events);
      }
      cursor := page.last;
      pages := pages + 1;
    }
  }

  lemma AllIn(log: seq<Entry>, from: nat, upto: nat, events: seq<DriveEvent>)
    requires from <= upto <= |log| && Nodes(VisibleIn(log, from, upto)) <= events
    ensures forall id :: from < id <= upto && log[id - 1].Visible? ==> Node(id) in events
  {
    forall id | from < id <= upto && log[id - 1].Visible? ensures Node(id) in events {
      VisibleExactly(log, from, upto, id);
      var ids := VisibleIn(log, from, upto);
      var i :| 0 <= i < |ids| && ids[i] == id;
      assert events[i] == Node(id);
    }
  }

  /** Nothing visible between the cursor and where a batch moves it is left out of the
      batch, unless the batch says that continuity was lost. */
  lemma BatchCovers(log: seq<Entry>, cursor: nat, events: seq<DriveEvent>, id: nat)
    requires Drained(log, cursor, events) && events != []
    requires cursor < id <= events[|events| - 1].id && id <= |log| && log[id - 1].Visible?
    ensures Node(id) in events || (events[|events| - 1].ContinuityLost? && cursor < id <= events[|events| - 1].id)
  {
    var mid: nat, tail: seq<DriveEvent> :| BatchTo(log, cursor, events, mid, tail);
    AllIn(log, cursor, mid, events);
    if tail == [] {
      var ids := VisibleIn(log, cursor, mid);
      assert events[|events| - 1].id == ids[|ids| - 1] && ids[|ids| - 1] in ids;
      VisibleExactly(log, cursor, mid, ids[|ids| - 1]);
    } else if tail[0].CursorAdvanced? {
      VisibleExactly(log, mid, tail[0].id, id);
    }
  }

  lemma BatchIsReal(log: seq<Entry>, cursor: nat, events: seq<DriveEvent>, i: nat)
    requires Drained(log, cursor, events) && i < |events|
    ensures events[i].id <= |log|
    ensures events[i].Node? ==> cursor < events[i].id && log[events[i].id - 1].Visible?
  {
    var mid: nat, tail: seq<DriveEvent> :| BatchTo(log, cursor, events, mid, tail);
    var ids := VisibleIn(log, cursor, mid);
    if i < |ids| {
      assert ids[i] in ids;
      VisibleExactly(log, cursor, mid, ids[i]);
    }
  }

  lemma DrainedStays(log: seq<Entry>, longer: seq<Entry>, cursor: nat, events: seq<DriveEvent>)
    requires Drained(log, cursor, events) && log <= longer
    ensures Drained(longer, cursor, events)
  {
    var mid: nat, tail: seq<DriveEvent> :| BatchTo(log, cursor, events, mid, tail);
    VisibleStays(log, longer, cursor, mid);
    if |tail| == 1 && tail[0].CursorAdvanced? { VisibleStays(log, longer, mid, tail[0].id); }
    assert BatchTo(longer, cursor, events, mid, tail);
  }

  // --------------------------------------------------------------------- the manager

  /** What the manager does that can be seen: it tries to invalidate the caches for
      an event, or publishes one drained after some cursor. */
  datatype Act = Invalidated(event: DriveEvent, ok: bool) | Published(event: DriveEvent, after: nat)

  datatype Phase =
    | Down
    | Seeding
    | SavingSeed(head: nat)
    | Idle(cursor: nat)
    | Applying(from: nat, events: seq<DriveEvent>, next: nat, invalidated: bool)
    | Saving(reached: nat)

  /** `base` is the latest cursor seeded from the server's head. */
  datatype State = State(log: seq<Entry>, stored: Option<nat>, base: nat, phase: Phase, trace: seq<Act>)

  datatype Step =
    | Append(entry: Entry)
    | Start(loaded: bool)
    | Seed(answered: bool)
    | Poll(batch: Option<seq<DriveEvent>>)
    | Invalidate(ok: bool)
    | Publish
    | Save(ok: bool)
    | Crash

  predicate Initial(s: State) {
    s == State([], None, 0, Down, [])
  }

  function Stored(s: State, cursor: nat, ok: bool): State {
    s.(stored := if ok then Some(cursor) else s.stored, phase := Idle(cursor))
  }

  /** One step, where it is possible. */
  ghost function Do(s: State, step: Step): Option<State> {
    match step
    case Append(entry) => Some(s.(log := s.log + [entry]))
    case Crash => Some(s.(phase := Down))
    case Start(loaded) =>
      if !s.phase.Down? then None
      else if loaded && s.stored.Some? then Some(s.(phase := Idle(s.stored.value)))
      else Some(s.(phase := Seeding))
    case Seed(answered) =>
      if !s.phase.Seeding? then None
      else if answered then Some(s.(base := |s.log|, phase := SavingSeed(|s.log|)))
      else Some(s)
    case Poll(batch) =>
      if !s.phase.Idle? then None
      else if batch.None? then Some(s)
      else if !Drained(s.log, s.phase.cursor, batch.value) then None
      else if batch.value == [] then Some(s)
      else Some(s.(phase := Applying(s.phase.cursor, batch.value, 0, false)))
    case Invalidate(ok) =>
      if !s.phase.Applying? || s.phase.invalidated || s.phase.next >= |s.phase.events| then None
      else Some(s.(phase := s.phase.(invalidated := true),
                   trace := s.trace + [Invalidated(s.phase.events[s.phase.next], ok)]))
    case Publish =>
      if !s.phase.Applying? || !s.phase.invalidated || s.phase.next >= |s.phase.events| then None
      else
        var p := s.phase;
        var done := p.next + 1 == |p.events|;
        Some(s.(phase := if done then Saving(p.events[p.next].id) else Applying(p.from, p.events, p.next + 1, false),
                trace := s.trace + [Published(p.events[p.next], p.from)]))
    case Save(ok) =>
      match s.phase
      case SavingSeed(head) => Some(Stored(s, head, ok))
      case Saving(reached) => Some(Stored(s, reached, ok))
      case _ => None
  }

  ghost function Run(s: State, steps: seq<Step>): Option<State>
    decreases |steps|
  {
    if steps == [] then Some(s)
    else
      var s1 := Do(s, steps[0]);
      if s1.None? then None else Run(s1.value, steps[1..])
  }

  // ------------------------------------------------------------- what is never skipped

  /** Act `i` told subscribers of event `id`: it published it, or a loss of
      continuity that jumped over it. */
  ghost predicate TellsAt(trace: seq<Act>, id: nat, i: nat) {
    && i < |trace| && trace[i].Published?
    && match trace[i].event
       case Node(told) => told == id
       case ContinuityLost(upto) => trace[i].after < id <= upto
       case CursorAdvanced(_) => false
  }

  ghost predicate Told(trace: seq<Act>, id: nat) { exists i: nat :: TellsAt(trace, id, i) }

  /** Every visible event from the seed up to `cursor` has been told. */
  ghost predicate Covered(s: State, cursor: nat) {
    && cursor <= |s.log|
    && forall id :: s.base < id <= cursor && s.log[id - 1].Visible? ==> Told(s.trace, id)
  }

  /** Each published event is real and was invalidated for just before. */
  ghost predicate PublishedWell(s: State, i: nat)
    requires i < |s.trace|
  {
    s.trace[i].Published? ==>
      && i > 0 && s.trace[i - 1].Invalidated? && s.trace[i - 1].event == s.trace[i].event
      && s.trace[i].event.id <= |s.log|
      && (s.trace[i].event.Node? ==> s.trace[i].event.id > 0 && s.log[s.trace[i].event.id - 1].Visible?)
  }

  ghost predicate PublishedAt(trace: seq<Act>, event: DriveEvent, after: nat, i: nat) {
    i < |trace| && trace[i] == Published(event, after)
  }

  ghost predicate WasPublished(trace: seq<Act>, event: DriveEvent, after: nat) {
    exists i: nat :: PublishedAt(trace, event, after, i)
  }

  ghost predicate PhaseSound(s: State) {
    match s.phase
    case Down => true
    case Seeding => true
    case SavingSeed(head) => Covered(s, head)
    case Idle(cursor) => Covered(s, cursor)
    case Saving(reached) => Covered(s, reached)
    case Applying(from, events, next, invalidated) =>
      && Covered(s, from) && Drained(s.log, from, events) && next < |events|
      && (forall j :: 0 <= j < next ==> WasPublished(s.trace, events[j], from))
      && (invalidated ==>
          s.trace != [] && s.trace[|s.trace| - 1].Invalidated? && s.trace[|s.trace| - 1].event == events[next])
  }

  ghost predicate Sound(s: State) {
    && s.base <= |s.log|
    && (s.stored.Some? ==> Covered(s, s.stored.value))
    && (forall i :: 0 <= i < |s.trace| ==> PublishedWell(s, i))
    && PhaseSound(s)
  }

  lemma ToldStays(trace: seq<Act>, act: Act)
    ensures forall id :: Told(trace, id) ==> Told(trace + [act], id)
    ensures forall event, after :: WasPublished(trace, event, after) ==> WasPublished(trace + [act], event, after)
  {
    forall id | Told(trace, id) ensures Told(trace + [act], id) {
      var i: nat :| TellsAt(trace, id, i);
      assert TellsAt(trace + [act], id, i);
    }
    forall event, after | WasPublished(trace, event, after) ensures WasPublished(trace + [act], event, after) {
      var i: nat :| PublishedAt(trace, event, after, i);
      assert PublishedAt(trace + [act], event, after, i);
    }
  }

  lemma CoveredStays(s: State, entries: seq<Entry>, act: Act, cursor: nat)
    requires Covered(s, cursor)
    ensures Covered(s.(log := s.log + entries), cursor)
    ensures Covered(s.(trace := s.trace + [act]), cursor)
  {
    ToldStays(s.trace, act);
    var s' := s.(log := s.log + entries);
    forall id | s'.base < id <= cursor && s'.log[id - 1].Visible? ensures Told(s'.trace, id) {
      assert s.log[id - 1] == s'.log[id - 1];
    }
  }

  lemma AppendKeeps(s: State, entry: Entry)
    requires Sound(s)
    ensures Sound(s.(log := s.log + [entry]))
  {
    var s' := s.(log := s.log + [entry]);
    forall cursor | Covered(s, cursor) ensures Covered(s', cursor) {
      CoveredStays(s, [entry], Invalidated(CursorAdvanced(0), true), cursor);
    }
    forall i | 0 <= i < |s'.trace| ensures PublishedWell(s', i) {
      assert PublishedWell(s, i);
    }
    if s.phase.Applying? { DrainedStays(s.log, s'.log, s.phase.from, s.phase.events); }
  }

  /** When the last event of a batch is out, the cursor may move past all of it. */
  lemma BatchToldCovers(s: State, from: nat, events: seq<DriveEvent>)
    requires Covered(s, from) && Drained(s.log, from, events) && events != []
    requires forall j :: 0 <= j < |events| ==> WasPublished(s.trace, events[j], from)
    ensures Covered(s, events[|events| - 1].id)
  {
    var reached := events[|events| - 1].id;
    BatchIsReal(s.log, from, events, |events| - 1);
    forall id | s.base < id <= reached && s.log[id - 1].Visible? ensures Told(s.trace, id) {
      if id > from {
        BatchCovers(s.log, from, events, id);
        var j := if Node(id) in events then IndexOf(events, Node(id)) else |events| - 1;
        assert WasPublished(s.trace, events[j], from);
        var i: nat :| PublishedAt(s.trace, events[j], from, i);
        assert TellsAt(s.trace, id, i);
      }
    }
  }

  function IndexOf(events: seq<DriveEvent>, event: DriveEvent): (i: nat)
    requires event in events
    ensures i < |events| && events[i] == event
  {
    if events[0] == event then 0 else 1 + IndexOf(events[1..], event)
  }

  lemma InvalidateKeeps(s: State, ok: bool)
    requires Sound(s) && Do(s, Invalidate(ok)).Some?
    ensures Sound(Do(s, Invalidate(ok)).value)
  {
    var s' := Do(s, Invalidate(ok)).value;
    var act := s'.trace[|s.trace|];
    ToldStays(s.trace, act);
    forall i | 0 <= i < |s'.trace| ensures PublishedWell(s', i) {
      if i < |s.trace| { assert PublishedWell(s, i); }
    }
  }

  lemma PublishKeeps(s: State)
    requires Sound(s) && Do(s, Publish).Some?
    ensures Sound(Do(s, Publish).value)
  {
    var s' := Do(s, Publish).value;
    var from, events, next := s.phase.from, s.phase.events, s.phase.next;
    ToldStays(s.trace, Published(events[next], from));
    assert PublishedAt(s'.trace, events[next], from, |s.trace|);
    BatchIsReal(s.log, from, events, next);
    forall i | 0 <= i < |s'.trace| ensures PublishedWell(s', i) {
      if i < |s.trace| { assert PublishedWell(s, i); }
    }
    if next + 1 == |events| { BatchToldCovers(s', from, events); }
  }

  lemma StepKeeps(s: State, step: Step)
    requires Sound(s) && Do(s, step).Some?
    ensures Sound(Do(s, step).value)
  {
    match step
    case Append(entry) => AppendKeeps(s, entry);
    case Invalidate(ok) => InvalidateKeeps(s, ok);
    case Publish => PublishKeeps(s);
    case Seed(answered) => SeedKeeps(s, answered);
    case _ =>
      var s' := Do(s, step).value;
      forall i | 0 <= i < |s'.trace| ensures PublishedWell(s', i) {
        assert PublishedWell(s, i);
      }
  }

  /** Seeding starts the account afresh: it forgets what came before. */
  lemma SeedKeeps(s: State, answered: bool)
    requires Sound(s) && Do(s, Seed(answered)).Some?
    ensures Sound(Do(s, Seed(answered)).value)
  {
    var s' := Do(s, Seed(answered)).value;
    forall i | 0 <= i < |s'.trace| ensures PublishedWell(s', i) {
      assert PublishedWell(s, i);
    }
  }

  /** Through failed polls, failed saves and crashes: nothing between the latest seed
      and the cursor, in memory or saved, was skipped, and nothing was published
      before the attempt to invalidate for it. */
  lemma {:induction false} RunKeeps(s: State, steps: seq<Step>)
    requires Sound(s) && Run(s, steps).Some?
    ensures Sound(Run(s, steps).value)
    decreases |steps|
  {
    if steps != [] {
      StepKeeps(s, steps[0]);
      RunKeeps(Do(s, steps[0]).value, steps[1..]);
    }
  }

  // ------------------------------------------------------------- one undisturbed poll

  /** Invalidate for each of `n` events, whether that works or not, and publish it. */
  function ApplySteps(n: nat, works: nat -> bool): seq<Step> {
    if n == 0 then [] else [Invalidate(works(n)), Publish] + ApplySteps(n - 1, works)
  }

  /** One poll that gets `batch`, applies all of it and tries to save. */
  function PollSteps(batch: seq<DriveEvent>, works: nat -> bool, saved: bool): seq<Step> {
    if batch == [] then [Poll(Some(batch))]
    else [Poll(Some(batch))] + (ApplySteps(|batch|, works) + [Save(saved)])
  }

  /** Every event from the `k`th on has been published, and nothing told is forgotten. */
  ghost predicate AppliedFrom(s: State, s': State, k: nat)
    requires s.phase.Applying?
  {
    var events := s.phase.events;
    && events != [] && s' == s.(phase := Saving(events[|events| - 1].id), trace := s'.trace)
    && s.trace <= s'.trace
    && forall j :: k <= j < |events| ==> WasPublished(s'.trace, events[j], s.phase.from)
  }

  lemma PublishedStays(trace: seq<Act>, longer: seq<Act>, event: DriveEvent, after: nat)
    requires trace <= longer && WasPublished(trace, event, after)
    ensures WasPublished(longer, event, after)
  {
    var i: nat :| PublishedAt(trace, event, after, i);
    assert PublishedAt(longer, event, after, i);
  }

  lemma AppliesOne(s: State, ok: bool)
    requires s.phase.Applying? && !s.phase.invalidated && s.phase.next < |s.phase.events|
    ensures var p, s' := s.phase, Run(s, [Invalidate(ok), Publish]);
      && s'.Some? && s'.value == s.(phase := s'.value.phase, trace := s'.value.trace)
      && s.trace <= s'.value.trace && WasPublished(s'.value.trace, p.events[p.next], p.from)
      && s'.value.phase == if p.next + 1 == |p.events| then Saving(p.events[p.next].id)
                           else Applying(p.from, p.events, p.next + 1, false)
  {
    Unroll2(s, Invalidate(ok), Publish);
    var s' := Run(s, [Invalidate(ok), Publish]).value;
    assert PublishedAt(s'.trace, s.phase.events[s.phase.next], s.phase.from, |s.trace| + 1);
  }

  /** The first two steps of applying what is left of a batch. */
  lemma AppliesMore(s: State, works: nat -> bool) returns (s1: State)
    requires s.phase.Applying? && !s.phase.invalidated && s.phase.next < |s.phase.events|
    ensures var p, n := s.phase, |s.phase.events| - s.phase.next;
      && s1 == s.(phase := s1.phase, trace := s1.trace)
      && s.trace <= s1.trace && WasPublished(s1.trace, p.events[p.next], p.from)
      && s1.phase == (if n == 1 then Saving(p.events[p.next].id) else Applying(p.from, p.events, p.next + 1, false))
      && Run(s, ApplySteps(n, works)) == Run(s1, ApplySteps(n - 1, works))
  {
    var n := |s.phase.events| - s.phase.next;
    AppliesOne(s, works(n));
    s1 := Run(s, [Invalidate(works(n)), Publish]).value;
    RunTwo(s, [Invalidate(works(n)), Publish], ApplySteps(n - 1, works));
  }

  lemma {:induction false} AppliesAll(s: State, works: nat -> bool)
    requires s.phase.Applying? && !s.phase.invalidated && s.phase.next < |s.phase.events|
    ensures var s' := Run(s, ApplySteps(|s.phase.events| - s.phase.next, works));
      s'.Some? && AppliedFrom(s, s'.value, s.phase.next)
    decreases |s.phase.events| - s.phase.next
  {
    var n := |s.phase.events| - s.phase.next;
    var s1 := AppliesMore(s, works);
    if n > 1 {
      AppliesAll(s1, works);
      var s' := Run(s1, ApplySteps(n - 1, works)).value;
      PublishedStays(s1.trace, s'.trace, s.phase.events[s.phase.next], s.phase.from);
    }
  }

  lemma ToldStaysLonger(trace: seq<Act>, longer: seq<Act>, id: nat)
    requires trace <= longer && Told(trace, id)
    ensures Told(longer, id)
  {
    var i: nat :| TellsAt(trace, id, i);
    assert TellsAt(longer, id, i);
  }

  lemma InBatchTold(trace: seq<Act>, events: seq<DriveEvent>, from: nat, id: nat)
    requires Node(id) in events && forall j :: 0 <= j < |events| ==> WasPublished(trace, events[j], from)
    ensures Told(trace, id)
  {
    var j := IndexOf(events, Node(id));
    assert WasPublished(trace, events[j], from);
    var i: nat :| PublishedAt(trace, events[j], from, i);
    assert TellsAt(trace, id, i);
  }

  /** The steps of one poll can all be taken, whichever invalidations work and whether or
      not the save does, and publish the whole batch. */
  lemma PollRuns(s: State, batch: seq<DriveEvent>, works: nat -> bool, saved: bool)
    requires s.phase.Idle? && Drained(s.log, s.phase.cursor, batch)
    ensures var s' := Run(s, PollSteps(batch, works, saved));
      && s'.Some? && s'.value.phase.Idle? && s'.value.log == s.log && s'.value.base == s.base
      && s.trace <= s'.value.trace
      && (batch != [] ==> s'.value.phase.cursor == batch[|batch| - 1].id)
      && forall j :: 0 <= j < |batch| ==> WasPublished(s'.value.trace, batch[j], s.phase.cursor)
  {
    var poll := Poll(Some(batch));
    assert [poll][1..] == [];
    if batch == [] {
      assert Run(s, [poll]) == Run(s, []);
    } else {
      var applying := s.(phase := Applying(s.phase.cursor, batch, 0, false));
      assert Run(s, [poll]) == Run(applying, []);
      AppliesAll(applying, works);
      var steps := ApplySteps(|batch|, works);
      var saving := Run(applying, steps).value;
      assert [Save(saved)][1..] == [];
      assert Run(saving, [Save(saved)]) == Run(Do(saving, Save(saved)).value, []);
      RunTwo(applying, steps, [Save(saved)]);
      RunTwo(s, [poll], steps + [Save(saved)]);
    }
  }

  /** With a server that keeps continuity and is drained to its end, one poll leaves every
      visible event after the seed told, whichever invalidations work and whether or not
      the save does. */
  lemma OnePollTellsAll(s: State, fetch: Pages, works: nat -> bool, saved: bool)
    requires Sound(s) && s.phase.Idle? && Honest(fetch, s.log) && Complete(fetch, s.log)
    ensures var drained := Enumerated(fetch, s.log, 0, s.phase.cursor);
      && drained.Some?
      && var s' := Run(s, PollSteps(drained.value, works, saved));
         && s'.Some? && s'.value.phase.Idle? && s'.value.log == s.log
         && forall id :: s.base < id <= |s.log| && s.log[id - 1].Visible? ==> Told(s'.value.trace, id)
  {
    var from := s.phase.cursor;
    EnumeratesAll(fetch, s.log, 0, from);
    EnumeratedIsDrained(fetch, s.log, 0, from);
    var batch := Enumerated(fetch, s.log, 0, from).value;
    PollRuns(s, batch, works, saved);
    var s' := Run(s, PollSteps(batch, works, saved)).value;
    forall id | s.base < id <= |s.log| && s.log[id - 1].Visible? ensures Told(s'.trace, id) {
      if id <= from {
        ToldStaysLonger(s.trace, s'.trace, id);
      } else {
        InBatchTold(s'.trace, batch, from, id);
      }
    }
  }

  /** A poll that meets a gap publishes it, moves the cursor to where the server jumps, and
      leaves every visible event up to there told. */
  lemma GapIsTold(s: State, fetch: Pages, path: seq<nat>, works: nat -> bool, saved: bool)
    requires Sound(s) && s.phase.Idle? && Honest(fetch, s.log)
    requires Walks(fetch, 0, path) && path[0] == s.phase.cursor
    requires LastPage(fetch, 0, path).Some? && LastPage(fetch, 0, path).value.refresh
    ensures var drained, last := Enumerated(fetch, s.log, 0, s.phase.cursor), LastPage(fetch, 0, path).value.last;
      && drained.Some?
      && var s' := Run(s, PollSteps(drained.value, works, saved));
         && s'.Some? && s'.value.phase == Idle(last) && last <= |s.log|
         && WasPublished(s'.value.trace, ContinuityLost(last), s.phase.cursor)
         && forall id :: s.base < id <= last && s.log[id - 1].Visible? ==> Told(s'.value.trace, id)
  {
    var from := s.phase.cursor;
    DrainAnswers(fetch, s.log, 0, path);
    EnumeratedIsDrained(fetch, s.log, 0, from);
    var batch := Enumerated(fetch, s.log, 0, from).value;
    PollRuns(s, batch, works, saved);
    RunKeeps(s, PollSteps(batch, works, saved));
  }

  // ----------------------------------------------------------------- when seeds move

  predicate LoadsSucceed(steps: seq<Step>) {
    forall i :: 0 <= i < |steps| ==> steps[i] != Start(false)
  }

  /** Once a cursor is saved, while every load succeeds, the seed stays where it was
      and a cursor stays saved. */
  lemma {:induction false} SavedSeedsStay(s: State, steps: seq<Step>)
    requires s.stored.Some? && !s.phase.Seeding? && LoadsSucceed(steps) && Run(s, steps).Some?
    ensures Run(s, steps).value.base == s.base && Run(s, steps).value.stored.Some?
    decreases |steps|
  {
    if steps != [] {
      assert steps[0] != Start(false);
      var s1 := Do(s, steps[0]).value;
      assert s1.base == s.base && s1.stored.Some? && !s1.phase.Seeding?;
      assert forall i :: 0 <= i < |steps[1..]| ==> steps[1..][i] == steps[i + 1];
      SavedSeedsStay(s1, steps[1..]);
    }
  }

  /** Some cursor, saved or in memory, is at or past event `id`. */
  predicate Passed(s: State, id: nat) {
    || (s.stored.Some? && id <= s.stored.value)
    || match s.phase
       case Idle(cursor) => id <= cursor
       case Applying(from, _, _, _) => id <= from
       case Saving(reached) => id <= reached
       case SavingSeed(head) => id <= head
       case _ => false
  }

  /** From a saved cursor on, while loads succeed, no event after the seed is skipped. */
  lemma NothingSkippedOnceSaved(s: State, steps: seq<Step>, id: nat)
    requires Sound(s) && s.stored.Some? && !s.phase.Seeding?
    requires LoadsSucceed(steps) && Run(s, steps).Some?
    requires var s' := Run(s, steps).value;
      s.base < id <= |s'.log| && s'.log[id - 1].Visible? && Passed(s', id)
    ensures Told(Run(s, steps).value.trace, id)
  {
    RunKeeps(s, steps);
    SavedSeedsStay(s, steps);
  }

  lemma ToldAreLogged(s: State, id: nat)
    requires Sound(s) && Told(s.trace, id)
    ensures id <= |s.log|
  {
    var i: nat :| TellsAt(s.trace, id, i);
    assert PublishedWell(s, i);
  }

  lemma {:induction false} LogGrows(s: State, steps: seq<Step>)
    requires Run(s, steps).Some?
    ensures s.log <= Run(s, steps).value.log
    decreases |steps|
  {
    if steps != [] { LogGrows(Do(s, steps[0]).value, steps[1..]); }
  }

  function Arrived(s: State): State {
    s.(log := s.log + [Visible])
  }

  /** Whatever happens next, while loads succeed, no cursor passes the event that arrives
      now before subscribers are told of it. */
  ghost predicate ArrivalAlwaysTold(s: State) {
    forall steps :: LoadsSucceed(steps) && Run(Arrived(s), steps).Some?
                    && Passed(Run(Arrived(s), steps).value, |s.log| + 1) ==>
      Told(Run(Arrived(s), steps).value.trace, |s.log| + 1)
  }

  /** An event that arrives while the manager is down is told before any cursor passes it,
      however polls, saves and restarts go, exactly when a cursor had been saved. */
  lemma ArrivalToldExactlyWhenSaved(s: State)
    requires Sound(s) && s.phase.Down?
    ensures ArrivalAlwaysTold(s) <==> s.stored.Some?
  {
    var id, arrived := |s.log| + 1, Arrived(s);
    AppendKeeps(s, Visible);
    if s.stored.Some? {
      forall steps | LoadsSucceed(steps) && Run(arrived, steps).Some? && Passed(Run(arrived, steps).value, id)
        ensures Told(Run(arrived, steps).value.trace, id)
      {
        LogGrows(arrived, steps);
        RunKeeps(arrived, steps);
        assert arrived.log[id - 1] == Run(arrived, steps).value.log[id - 1];
        NothingSkippedOnceSaved(arrived, steps, id);
      }
    } else {
      ArrivalSkippedOtherwise(s, true);
      Unroll3(arrived, Start(true), Seed(true), Save(true));
      assert LoadsSucceed([Start(true), Seed(true), Save(true)]);
      assert Passed(Run(arrived, [Start(true), Seed(true), Save(true)]).value, id);
    }
  }

  /** If the load fails, or none had been saved, the cursor is seeded past it, and nobody
      was told of it. */
  lemma ArrivalSkippedOtherwise(s: State, loaded: bool)
    requires Sound(s) && s.phase.Down? && !(loaded && s.stored.Some?)
    ensures Run(s, [Append(Visible), Start(loaded)] + [Seed(true), Save(true)]) ==
            Some(State(s.log + [Visible], Some(|s.log| + 1), |s.log| + 1, Idle(|s.log| + 1), s.trace))
    ensures !Told(s.trace, |s.log| + 1)
  {
    var seeding := State(s.log + [Visible], s.stored, s.base, Seeding, s.trace);
    Unroll2(s, Append(Visible), Start(loaded));
    assert Run(s, [Append(Visible), Start(loaded)]) == Some(seeding);
    Unroll2(seeding, Seed(true), Save(true));
    RunTwo(s, [Append(Visible), Start(loaded)], [Seed(true), Save(true)]);
    if Told(s.trace, |s.log| + 1) { ToldAreLogged(s, |s.log| + 1); }
  }

  /** The manager starts up; an event arrives while it is down; it starts again and
      seeds from the head. */
  function SkippingRun(saved: bool, loaded: bool): seq<Step> {
    [Start(true), Seed(true), Save(saved)] + ([Crash, Append(Visible), Start(loaded)] + [Seed(true), Save(true)])
  }

  /** If the load then fails, or if the first seed could not be saved, the cursor
      passes that event and nobody was told of it. */
  lemma RestartCanSkip(s0: State, saved: bool, loaded: bool)
    requires Initial(s0) && !(saved && loaded)
    ensures Run(s0, SkippingRun(saved, loaded)) == Some(State([Visible], Some(1), 1, Idle(1), []))
    ensures !Told([], 1)
  {
    var up := State([], if saved then Some(0) else None, 0, Idle(0), []);
    var restarted := State([Visible], up.stored, 0, Seeding, []);
    Unroll3(s0, Start(true), Seed(true), Save(saved));
    Unroll3(up, Crash, Append(Visible), Start(loaded));
    assert [] + [Visible] == [Visible];
    assert Run(up, [Crash, Append(Visible), Start(loaded)]) == Some(restarted);
    Unroll2(restarted, Seed(true), Save(true));
    assert Run(restarted, [Seed(true), Save(true)]) == Some(State([Visible], Some(1), 1, Idle(1), []));
    RunTwo(up, [Crash, Append(Visible), Start(loaded)], [Seed(true), Save(true)]);
    RunTwo(s0, [Start(true), Seed(true), Save(saved)],
        [Crash, Append(Visible), Start(loaded)] + [Seed(true), Save(true)]);
  }

  lemma {:induction false} RunTwo(s: State, first: seq<Step>, second: seq<Step>)
    ensures Run(s, first + second) ==
            if Run(s, first).None? then None else Run(Run(s, first).value, second)
    decreases |first|
  {
    if first == [] {
      assert first + second == second;
    } else {
      assert (first + second)[1..] == first[1..] + second;
      var s1 := Do(s, first[0]);
      if s1.Some? { RunTwo(s1.value, first[1..], second); }
    }
  }

  lemma Unroll2(s: State, a: Step, b: Step)
    ensures Run(s, [a, b]) == if Do(s, a).None? then None else Do(Do(s, a).value, b)
  {
    assert [a, b][1..] == [b] && [b][1..] == [];
    if Do(s, a).Some? && Do(Do(s, a).value, b).Some? {
      assert Run(Do(Do(s, a).value, b).value, []) == Do(Do(s, a).value, b);
    }
  }

  lemma Unroll3(s: State, a: Step, b: Step, c: Step)
    ensures Run(s, [a, b, c]) ==
            if Do(s, a).None? then None
            else if Do(Do(s, a).value, b).None? then None
            else Do(Do(Do(s, a).value, b).value, c)
  {
    assert [a, b, c][1..] == [b, c];
    if Do(s, a).Some? { Unroll2(Do(s, a).value, b, c); }
  }
}
