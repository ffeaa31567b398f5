/** What the hypotheses of the delivery theorems keep out: for uids that tell events apart, a finished
    range left closed, a stable opening, covering replays, one uid in one place and time enough to see
    it again, a concrete run each that breaks the conclusion. */
module Witnesses {
  import opened Domain
  import opened StateSpec
  import opened Protocol
  import opened ExactlyOnce

  // ----- running several steps at once -----

  /** `acts` is a legal run from `st` that ends in `end`. */
  ghost predicate Runs(e: Env, st: State, acts: seq<Action>, end: State) {
    Legal(e, st, acts) && Exec(e, st, acts) == end
  }

  predicate Uncrashed(acts: seq<Action>) {
    forall a :: a in acts ==> !a.Halt?
  }

  lemma {:induction false} RunsOn(e: Env, st: State, first: seq<Action>, mid: State, rest: seq<Action>, end: State)
    requires Runs(e, st, first, mid) && Runs(e, mid, rest, end)
    ensures Runs(e, st, first + rest, end)
    decreases |first|
  {
    if first == [] {
      assert first + rest == rest;
    } else {
      RunsOn(e, Apply(e, st, first[0]), first[1..], mid, rest, end);
      assert (first + rest)[0] == first[0] && (first + rest)[1..] == first[1..] + rest;
    }
  }

  lemma RunsOne(e: Env, st: State, a: Action)
    requires Enabled(e, st, a)
    ensures Runs(e, st, [a], Apply(e, st, a))
  {
    assert [a][1..] == [];
    assert Legal(e, Apply(e, st, a), []);
  }

  lemma RunsOpen(e: Env, d: State, s: Stream, start: Cursor)
    requires s in e.streams && s in d.procs && d.procs[s].Down? && !Finished(d.store, s) && start == Start(e, d, s)
    ensures Runs(e, d, [Open(s)], With(d, s, Up(start, start, [], [], Ready)))
  {
    RunsOne(e, d, Open(s));
  }

  lemma RunsHalt(e: Env, d: State, s: Stream, p: Proc)
    requires s in e.streams && s in d.procs && d.procs[s].Down?
    ensures Runs(e, With(d, s, p), [Halt(s)], d)
  {
    RunsOne(e, With(d, s, p), Halt(s));
    assert With(With(d, s, p), s, Down).procs == d.procs;
  }

  lemma RunsTickUp(e: Env, d: State, s: Stream, p: Proc, now: int)
    requires d.now <= now
    ensures Runs(e, With(d, s, p), [Tick(now)], With(d.(now := now), s, p))
  {
    RunsOne(e, With(d, s, p), Tick(now));
  }

  /** A move, when all but the process is told apart from it. */
  lemma RunsMove(e: Env, d: State, s: Stream, p: Proc, m: Move, d': State, p': Proc)
    requires s in e.streams && CanMove(e, With(d, s, p), s, m)
    requires d' == State(d.logs, LakeAfter(e, With(d, s, p), s, m), StoreAfter(e, With(d, s, p), s, m), d.now,
                         UptoAfter(e, With(d, s, p), s, m), d.procs)
    requires p' == ProcAfter(e, With(d, s, p), s, m)
    ensures Runs(e, With(d, s, p), [Act(s, m)], With(d', s, p'))
  {
    hide LakeAfter, StoreAfter, UptoAfter, ProcAfter, CanMove, Runs;
    RunsOne(e, With(d, s, p), Act(s, m));
    assert d.procs[s := p][s := p'] == d.procs[s := p'];
  }

  /** Fetching and filtering a page. */
  lemma RunsKept(e: Env, d: State, s: Stream, p: Proc, n: nat, next: Option<Cursor>, page: Page, kept: seq<Event>)
    requires s in e.streams && CanMove(e, With(d, s, p), s, Fetch(n, next)) && p.Up?
    requires var at := e.pos(p.cursor); page == Page(LogOf(d, s)[at..at + n], next, at + n, |LogOf(d, s)|)
    requires kept == Filtered(d.store.seen, d.now, page.events)
    ensures Runs(e, With(d, s, p), [Act(s, Fetch(n, next)), Act(s, Filter)],
                 With(d, s, Up(p.cursor, p.batchKey, p.pending, p.buffer, Kept(page, kept))))
  {
    hide Runs, Filtered, Uids, UniqueUids, HasUid;
    var p1 := Up(p.cursor, p.batchKey, p.pending, p.buffer, Fetched(page));
    var p2 := Up(p.cursor, p.batchKey, p.pending, p.buffer, Kept(page, kept));
    RunsMove(e, d, s, p, Fetch(n, next), d, p1);
    RunsMove(e, d, s, p1, Filter, d, p2);
    RunsOn(e, With(d, s, p), [Act(s, Fetch(n, next))], With(d, s, p1), [Act(s, Filter)], With(d, s, p2));
    assert [Act(s, Fetch(n, next))] + [Act(s, Filter)] == [Act(s, Fetch(n, next)), Act(s, Filter)];
  }

  /** Reading one page into the buffer: fetch, filter, write. */
  lemma RunsRead(e: Env, d: State, s: Stream, p: Proc, n: nat, next: Option<Cursor>, page: Page, kept: seq<Event>)
    requires s in e.streams && CanMove(e, With(d, s, p), s, Fetch(n, next)) && p.Up?
    requires var at := e.pos(p.cursor); page == Page(LogOf(d, s)[at..at + n], next, at + n, |LogOf(d, s)|)
    requires kept == Filtered(d.store.seen, d.now, page.events)
    ensures Runs(e, With(d, s, p), [Act(s, Fetch(n, next)), Act(s, Filter), Act(s, Write)],
                 With(d, s, Up(p.cursor, p.batchKey, p.pending + Uids(kept), p.buffer + kept, Written(page))))
  {
    hide Runs, Filtered, Uids, UniqueUids, HasUid;
    var p2 := Up(p.cursor, p.batchKey, p.pending, p.buffer, Kept(page, kept));
    var p3 := Up(p.cursor, p.batchKey, p.pending + Uids(kept), p.buffer + kept, Written(page));
    RunsKept(e, d, s, p, n, next, page, kept);
    RunsMove(e, d, s, p2, Write, d, p3);
    RunsOn(e, With(d, s, p), [Act(s, Fetch(n, next)), Act(s, Filter)], With(d, s, p2), [Act(s, Write)], With(d, s, p3));
    assert [Act(s, Fetch(n, next)), Act(s, Filter)] + [Act(s, Write)]
      == [Act(s, Fetch(n, next)), Act(s, Filter), Act(s, Write)];
  }

  /** Going on to the next page without a flush. */
  lemma RunsSkip(e: Env, d: State, s: Stream, p: Proc)
    requires s in e.streams && p.Up? && p.phase.Written? && p.phase.page.next.Some?
    ensures Runs(e, With(d, s, p), [Act(s, Skip), Act(s, Advance)],
                 With(d, s, Up(p.phase.page.next.value, p.batchKey, p.pending, p.buffer, Ready)))
  {
    hide Runs;
    var p1 := Up(p.cursor, p.batchKey, p.pending, p.buffer, Settled(p.phase.page));
    var p2 := Up(p.phase.page.next.value, p.batchKey, p.pending, p.buffer, Ready);
    RunsMove(e, d, s, p, Skip, d, p1);
    RunsMove(e, d, s, p1, Advance, d, p2);
    RunsOn(e, With(d, s, p), [Act(s, Skip)], With(d, s, p1), [Act(s, Advance)], With(d, s, p2));
    assert [Act(s, Skip)] + [Act(s, Advance)] == [Act(s, Skip), Act(s, Advance)];
  }

  lemma RunsPut(e: Env, d: State, s: Stream, p: Proc, b: Bucket, rows: seq<Event>)
    requires s in e.streams && p.Up? && p.phase.Written? && p.buffer != []
    requires b in Targets(e, p.buffer) && multiset(rows) == multiset(InBucket(e, p.buffer, b))
    ensures Runs(e, With(d, s, p), [Act(s, BeginFlush), Act(s, Put(b, rows))],
                 With(d.(lake := d.lake[ObjectKey(p.batchKey, b) := rows]), s,
                      Up(p.cursor, p.batchKey, p.pending, p.buffer, Flushing(p.phase.page, {b}))))
  {
    hide Runs, Targets, InBucket;
    var d' := d.(lake := d.lake[ObjectKey(p.batchKey, b) := rows]);
    var p1 := Up(p.cursor, p.batchKey, p.pending, p.buffer, Flushing(p.phase.page, {}));
    var p2 := Up(p.cursor, p.batchKey, p.pending, p.buffer, Flushing(p.phase.page, {b}));
    assert {} + {b} == {b};
    RunsMove(e, d, s, p, BeginFlush, d, p1);
    RunsMove(e, d, s, p1, Put(b, rows), d', p2);
    RunsOn(e, With(d, s, p), [Act(s, BeginFlush)], With(d, s, p1), [Act(s, Put(b, rows))], With(d', s, p2));
    assert [Act(s, BeginFlush)] + [Act(s, Put(b, rows))] == [Act(s, BeginFlush), Act(s, Put(b, rows))];
  }

  /** Acknowledging a flush whose every object is PUT, and committing it. */
  lemma RunsCommit(e: Env, d: State, s: Stream, p: Proc, key: Cursor)
    requires s in e.streams && p.Up? && p.phase.Flushing? && p.phase.done == Targets(e, p.buffer)
    requires key == if p.phase.page.next.Some? then p.phase.page.next.value else p.batchKey
    ensures Runs(e, With(d, s, p), [Act(s, Ack), Act(s, CommitBatch(""))],
                 With(d.(store := Commit(d.store, d.now, e.ttl, s, p.phase.page.next, p.pending, ""),
                         upto := d.upto[s := p.phase.page.end]), s,
                      Up(p.cursor, key, [], [], Settled(p.phase.page))))
  {
    hide Runs, Targets, Commit;
    var page := p.phase.page;
    var d' := d.(store := Commit(d.store, d.now, e.ttl, s, page.next, p.pending, ""), upto := d.upto[s := page.end]);
    var p1 := Up(p.cursor, p.batchKey, p.pending, [], Acked(page, p.buffer));
    var p2 := Up(p.cursor, key, [], [], Settled(page));
    RunsMove(e, d, s, p, Ack, d, p1);
    RunsMove(e, d, s, p1, CommitBatch(""), d', p2);
    RunsOn(e, With(d, s, p), [Act(s, Ack)], With(d, s, p1), [Act(s, CommitBatch(""))], With(d', s, p2));
    assert [Act(s, Ack)] + [Act(s, CommitBatch(""))] == [Act(s, Ack), Act(s, CommitBatch(""))];
  }

  /** A batch whose every event goes into one bucket: PUT, acknowledged, committed. */
  lemma RunsBatch(e: Env, d: State, s: Stream, p: Proc, b: Bucket, key: Cursor) returns (acts: seq<Action>)
    requires s in e.streams && !e.oneObject && p.Up? && p.phase.Written? && p.buffer != []
    requires forall ev :: ev in p.buffer ==> BucketOf(e, ev) == b
    requires key == if p.phase.page.next.Some? then p.phase.page.next.value else p.batchKey
    ensures Uncrashed(acts)
    ensures Runs(e, With(d, s, p), acts,
                 With(d.(lake := d.lake[ObjectKey(p.batchKey, b) := p.buffer],
                         store := Commit(d.store, d.now, e.ttl, s, p.phase.page.next, p.pending, ""),
                         upto := d.upto[s := p.phase.page.end]), s,
                      Up(p.cursor, key, [], [], Settled(p.phase.page))))
  {
    hide Runs, Targets, InBucket, Commit;
    OneBucket(e, p.buffer, b);
    OneTarget(e, p.buffer, b);
    var d1 := d.(lake := d.lake[ObjectKey(p.batchKey, b) := p.buffer]);
    var p1 := Up(p.cursor, p.batchKey, p.pending, p.buffer, Flushing(p.phase.page, {b}));
    RunsPut(e, d, s, p, b, p.buffer);
    RunsCommit(e, d1, s, p1, key);
    acts := [Act(s, BeginFlush), Act(s, Put(b, p.buffer))] + [Act(s, Ack), Act(s, CommitBatch(""))];
    RunsOn(e, With(d, s, p), [Act(s, BeginFlush), Act(s, Put(b, p.buffer))], With(d1, s, p1),
           [Act(s, Ack), Act(s, CommitBatch(""))],
           With(d1.(store := Commit(d1.store, d1.now, e.ttl, s, p.phase.page.next, p.pending, ""),
                    upto := d1.upto[s := p.phase.page.end]), s,
                Up(p.cursor, key, [], [], Settled(p.phase.page))));
  }

  lemma {:induction false} OneBucket(e: Env, events: seq<Event>, b: Bucket)
    requires forall ev :: ev in events ==> BucketOf(e, ev) == b
    ensures InBucket(e, events, b) == events
  {
    hide UniqueUids, BucketOf;
    if events != [] {
      var n := |events| - 1;
      OneBucket(e, events[..n], b);
      assert events == events[..n] + [events[n]];
    }
  }

  lemma OneTarget(e: Env, events: seq<Event>, b: Bucket)
    requires forall ev :: ev in events ==> BucketOf(e, ev) == b
    requires events != [] && !e.oneObject
    ensures Targets(e, events) == {b}
  {
    assert BucketOf(e, events[0]) in Targets(e, events);
  }

  lemma AllLiveKeepsNone(seen: map<string, int>, now: int, events: seq<Event>)
    requires forall ev :: ev in events ==> Live(seen, now, ev.uid)
    ensures Filtered(seen, now, events) == []
  {
    var unseen := set u | u in Unseen(seen, now, Uids(events));
    var _ := UnseenMeaning(seen, now, Uids(events));
    var kept := Fresh(events, unseen);
    FirstIsIn(kept);
  }

  // ----- a small world: one stream, two events -----

  const S: Stream := "s"
  const A := Event(3002, 0, "a", JNull)
  const B := Event(3001, 0, "b", JNull)

  function At(c: Cursor): nat {
    if c == "0" then 0 else if c == "1" then 1 else 2
  }

  const World := Env({S}, (_: Stream) => "0", At, (_: Cursor) => S, (_: int) => "", false, 10)

  const KeyA := ClassDay(3002, "")
  const KeyB := ClassDay(3001, "")

  function Begin(log: seq<Event>): State {
    State(map[S := log], map[], EmptyStore, 0, map[S := 0], map[S := Down])
  }

  /** An attempt that reads both events, PUTs the second one's object and dies. */
  lemma CrashedAttempt() returns (acts: seq<Action>)
    ensures Runs(World, Begin([A, B]), acts, Begin([A, B]).(lake := map[ObjectKey("0", KeyB) := [B]]))
  {
    hide Runs, CanMove, Filtered, InBucket, Targets, With, UniqueUids, HasUid;
    var d, page := Begin([A, B]), Page([A, B], Some("2"), 2, 2);
    var up, full := Up("0", "0", [], [], Ready), Up("0", "0", ["a", "b"], [A, B], Written(page));
    RunsOpen(World, d, S, "0");
    acts := [Open(S)];
    TwoNew();
    CanFetch(World, d, S, up, 2, Some("2"));
    RunsRead(World, d, S, up, 2, Some("2"), page, [A, B]);
    assert up.pending + Uids([A, B]) == full.pending && up.buffer + [A, B] == full.buffer;
    RunsOn(World, d, acts, With(d, S, up), [Act(S, Fetch(2, Some("2"))), Act(S, Filter), Act(S, Write)], With(d, S, full));
    acts := acts + [Act(S, Fetch(2, Some("2"))), Act(S, Filter), Act(S, Write)];
    BInBucket();
    RunsPut(World, d, S, full, KeyB, [B]);
    var d' := d.(lake := map[ObjectKey("0", KeyB) := [B]]);
    var part := Up("0", "0", ["a", "b"], [A, B], Flushing(page, {KeyB}));
    RunsHalt(World, d', S, part);
    RunsOn(World, d, acts, With(d, S, full), [Act(S, BeginFlush), Act(S, Put(KeyB, [B]))], With(d', S, part));
    acts := acts + [Act(S, BeginFlush), Act(S, Put(KeyB, [B]))];
    RunsOn(World, d, acts, With(d', S, part), [Halt(S)], d');
    acts := acts + [Halt(S)];
  }

  lemma TwoNew()
    ensures Uids([A, B]) == ["a", "b"]
    ensures Filtered(map[], 0, [A, B]) == [A, B]
  {
    assert Uids([A, B]) == ["a", "b"];
    NoneLiveKeepsAll(map[], 0, [A, B]);
  }

  lemma CanFetch(e: Env, d: State, s: Stream, p: Proc, n: nat, next: Option<Cursor>)
    requires p.Up? && p.phase.Ready? && e.pos(p.cursor) + n <= |LogOf(d, s)|
    requires next.Some? ==> e.owner(next.value) == s && e.pos(next.value) == e.pos(p.cursor) + n
    ensures CanMove(e, With(d, s, p), s, Fetch(n, next))
  {
  }

  lemma BInBucket()
    ensures KeyB in Targets(World, [A, B]) && InBucket(World, [A, B], KeyB) == [B]
  {
    assert BucketOf(World, B) in Targets(World, [A, B]);
    assert [A, B][..1] == [A] && [A][..0] == [];
    assert InBucket(World, [A], KeyB) == [];
  }

  lemma RunsAdvance(e: Env, d: State, s: Stream, p: Proc)
    requires s in e.streams && p.Up? && p.phase.Settled? && p.phase.page.next.Some?
    ensures Runs(e, With(d, s, p), [Act(s, Advance)],
                 With(d, s, Up(p.phase.page.next.value, p.batchKey, p.pending, p.buffer, Ready)))
  {
    hide Runs;
    var p' := Up(p.phase.page.next.value, p.batchKey, p.pending, p.buffer, Ready);
    RunsMove(e, d, s, p, Advance, d, p');
  }

  /** What a batch of one event leaves behind. */
  function OneDelivered(e: Env, d: State, s: Stream, cursor: Cursor, next: Cursor, ev: Event): State {
    d.(lake := d.lake[ObjectKey(cursor, BucketOf(e, ev)) := [ev]],
       store := Commit(d.store, d.now, e.ttl, s, Some(next), [ev.uid], ""),
       upto := d.upto[s := e.pos(cursor) + 1])
  }

  lemma OneIsKept(d: State, ev: Event)
    requires !Live(d.store.seen, d.now, ev.uid)
    ensures Filtered(d.store.seen, d.now, [ev]) == [ev] && Uids([ev]) == [ev.uid]
  {
    hide Filtered, Live;
    NoneLiveKeepsAll(d.store.seen, d.now, [ev]);
  }

  lemma ReadsOneEvent(e: Env, d: State, s: Stream, cursor: Cursor, next: Cursor, ev: Event)
    requires s in e.streams && e.pos(cursor) < |LogOf(d, s)| && ev == LogOf(d, s)[e.pos(cursor)]
    requires e.owner(next) == s && e.pos(next) == e.pos(cursor) + 1 && !Live(d.store.seen, d.now, ev.uid)
    ensures Runs(e, With(d, s, Up(cursor, cursor, [], [], Ready)), [Act(s, Fetch(1, Some(next))), Act(s, Filter), Act(s, Write)],
                 With(d, s, Up(cursor, cursor, [ev.uid], [ev], Written(Page([ev], Some(next), e.pos(cursor) + 1, |LogOf(d, s)|)))))
  {
    hide Runs, CanMove, Unseen, With, Fresh, Live, Uids, LogOf, UniqueUids, HasUid;
    var up, page := Up(cursor, cursor, [], [], Ready), Page([ev], Some(next), e.pos(cursor) + 1, |LogOf(d, s)|);
    assert LogOf(d, s)[e.pos(cursor)..e.pos(cursor) + 1] == [ev];
    OneIsKept(d, ev);
    CanFetch(e, d, s, up, 1, Some(next));
    RunsRead(e, d, s, up, 1, Some(next), page, [ev]);
    assert [] + [ev.uid] == [ev.uid] && [] + [ev] == [ev];
  }

  /** A page of one new event, flushed and committed on its own. */
  lemma RunsOneEvent(e: Env, d: State, s: Stream, cursor: Cursor, next: Cursor, ev: Event) returns (acts: seq<Action>)
    requires s in e.streams && !e.oneObject
    requires e.pos(cursor) < |LogOf(d, s)| && ev == LogOf(d, s)[e.pos(cursor)]
    requires e.owner(next) == s && e.pos(next) == e.pos(cursor) + 1 && !Live(d.store.seen, d.now, ev.uid)
    ensures Uncrashed(acts)
    ensures Runs(e, With(d, s, Up(cursor, cursor, [], [], Ready)), acts,
                 With(OneDelivered(e, d, s, cursor, next, ev), s, Up(next, next, [], [], Ready)))
  {
    hide Runs, With, Commit, BucketOf, LogOf;
    var up, page := Up(cursor, cursor, [], [], Ready), Page([ev], Some(next), e.pos(cursor) + 1, |LogOf(d, s)|);
    var full, done := Up(cursor, cursor, [ev.uid], [ev], Written(page)), Up(cursor, next, [], [], Settled(page));
    var d' := OneDelivered(e, d, s, cursor, next, ev);
    var read := [Act(s, Fetch(1, Some(next))), Act(s, Filter), Act(s, Write)];
    ReadsOneEvent(e, d, s, cursor, next, ev);
    var flush := RunsBatch(e, d, s, full, BucketOf(e, ev), next);
    RunsOn(e, With(d, s, up), read, With(d, s, full), flush, With(d', s, done));
    RunsAdvance(e, d', s, done);
    acts := read + flush + [Act(s, Advance)];
    RunsOn(e, With(d, s, up), read + flush, With(d', s, done), [Act(s, Advance)], With(d', s, Up(next, next, [], [], Ready)));
  }

  /** Shorter replays. The crashed attempt PUT the second event's object under the opening cursor; the
      replay is served the first event only, so its commit leaves that object stranded, and the next
      batch writes the second event again: one uid, two rows, every event committed past. */
  lemma ShorterReplayDuplicates() returns (acts: seq<Action>)
    ensures Init(World, Begin([A, B])) && Legal(World, Begin([A, B]), acts)
    ensures var end := Exec(World, Begin([A, B]), acts);
      && DistinctLogs(end) && UptoOf(end, S) == |LogOf(end, S)|
      && RowAt(end.lake, ObjectKey("0", KeyB), 0, "b") && RowAt(end.lake, ObjectKey("1", KeyB), 0, "b")
      && !AtMostOne(end.lake)
  {
    hide Filtered, Commit, InBucket, Uids, Targets, CanMove, Moved;
    var d0 := Begin([A, B]);
    var d1 := d0.(lake := map[ObjectKey("0", KeyB) := [B]]);
    var d2 := OneDelivered(World, d1, S, "0", "1", A);
    var d3 := OneDelivered(World, d2, S, "1", "2", B);
    acts := ReplayOneByOne();
    assert Exec(World, d0, acts) == With(d3, S, Up("2", "2", [], [], Ready));
    assert d3.lake[ObjectKey("0", KeyB)] == [B] && d3.lake[ObjectKey("1", KeyB)] == [B];
    assert RowAt(d3.lake, ObjectKey("0", KeyB), 0, "b") && RowAt(d3.lake, ObjectKey("1", KeyB), 0, "b");
  }

  lemma ReplayOneByOne() returns (acts: seq<Action>)
    ensures var d1 := Begin([A, B]).(lake := map[ObjectKey("0", KeyB) := [B]]);
      var d2 := OneDelivered(World, d1, S, "0", "1", A);
      Runs(World, Begin([A, B]), acts,
           With(OneDelivered(World, d2, S, "1", "2", B), S, Up("2", "2", [], [], Ready)))
  {
    hide Runs, BucketOf;
    var d0 := Begin([A, B]);
    var d1 := d0.(lake := map[ObjectKey("0", KeyB) := [B]]);
    var d2 := OneDelivered(World, d1, S, "0", "1", A);
    var d3 := OneDelivered(World, d2, S, "1", "2", B);
    acts := CrashedAttempt();
    RunsOpen(World, d1, S, "0");
    RunsOn(World, d0, acts, d1, [Open(S)], With(d1, S, Up("0", "0", [], [], Ready)));
    acts := acts + [Open(S)];
    var first := RunsOneEvent(World, d1, S, "0", "1", A);
    RunsOn(World, d0, acts, With(d1, S, Up("0", "0", [], [], Ready)), first, With(d2, S, Up("1", "1", [], [], Ready)));
    acts := acts + first;
    var second := RunsOneEvent(World, d2, S, "1", "2", B);
    RunsOn(World, d0, acts, With(d2, S, Up("1", "1", [], [], Ready)), second, With(d3, S, Up("2", "2", [], [], Ready)));
    acts := acts + second;
  }

  // ----- reopening a finished range -----

  const C := Event(3002, 1, "c", JNull)

  /** Two events of one object, committed as one finished range. */
  function FinishedRange(): State {
    var d := Begin([A, C]);
    d.(lake := d.lake[ObjectKey("0", KeyA) := [A, C]],
       store := Commit(d.store, d.now, World.ttl, S, None, ["a", "c"], ""), upto := d.upto[S := 2])
  }

  lemma SecondPage(d: State, x: Event, kept: seq<Event>)
    requires d.logs == map[S := [A, x]] && S in d.procs && !Live(d.store.seen, d.now, x.uid)
    ensures Runs(World, With(d, S, Up("1", "0", Uids(kept), kept, Ready)), Second,
                 With(d, S, Up("1", "0", Uids(kept + [x]), kept + [x], Written(Page([x], None, 2, 2)))))
  {
    hide Runs, CanMove, Filtered, Live, With, HasUid;
    var next := Up("1", "0", Uids(kept), kept, Ready);
    assert [A, x][1..2] == [x];
    OneIsKept(d, x);
    CanFetch(World, d, S, next, 1, None);
    RunsRead(World, d, S, next, 1, None, Page([x], None, 2, 2), [x]);
    UidsConcat(kept, [x]);
  }

  const First := [Act(S, Fetch(1, Some("1"))), Act(S, Filter), Act(S, Write)] + [Act(S, Skip), Act(S, Advance)]
  const Second := [Act(S, Fetch(1, None)), Act(S, Filter), Act(S, Write)]

  lemma FirstPage(d: State, x: Event, kept: seq<Event>)
    requires d.logs == map[S := [A, x]] && S in d.procs
    requires kept == Filtered(d.store.seen, d.now, [A])
    ensures Runs(World, With(d, S, Up("0", "0", [], [], Ready)), First, With(d, S, Up("1", "0", Uids(kept), kept, Ready)))
  {
    hide Runs, CanMove, Filtered, With, UniqueUids, HasUid;
    var up, page := Up("0", "0", [], [], Ready), Page([A], Some("1"), 1, 2);
    var full := Up("0", "0", Uids(kept), kept, Written(page));
    assert [A, x][0..1] == [A] && Uids([A]) == ["a"];
    CanFetch(World, d, S, up, 1, Some("1"));
    RunsRead(World, d, S, up, 1, Some("1"), page, kept);
    assert [] + Uids(kept) == Uids(kept) && [] + kept == kept;
    RunsSkip(World, d, S, full);
    RunsOn(World, With(d, S, up), [Act(S, Fetch(1, Some("1"))), Act(S, Filter), Act(S, Write)], With(d, S, full),
           [Act(S, Skip), Act(S, Advance)], With(d, S, Up("1", "0", Uids(kept), kept, Ready)));
  }

  lemma PagesUncrashed()
    ensures Uncrashed(First) && Uncrashed(Second)
  {
  }

  lemma TwoPages(d: State, x: Event, kept: seq<Event>, now: int) returns (acts: seq<Action>)
    requires d.logs == map[S := [A, x]] && d.now <= now && S in d.procs
    requires kept == Filtered(d.store.seen, d.now, [A])
    requires !Live(d.store.seen, now, x.uid)
    ensures Uncrashed(acts)
    ensures Runs(World, With(d, S, Up("0", "0", [], [], Ready)), acts,
                 With(d.(now := now), S, Up("1", "0", Uids(kept + [x]), kept + [x], Written(Page([x], None, 2, 2)))))
  {
    hide Runs, Filtered, Live, With, Uids, First, Second, UniqueUids, HasUid;
    var d', up, next := d.(now := now), Up("0", "0", [], [], Ready), Up("1", "0", Uids(kept), kept, Ready);
    var full := Up("1", "0", Uids(kept + [x]), kept + [x], Written(Page([x], None, 2, 2)));
    FirstPage(d, x, kept);
    RunsTickUp(World, d, S, next, now);
    SecondPage(d', x, kept);
    RunsOn(World, With(d, S, up), First, With(d, S, next), [Tick(now)], With(d', S, next));
    RunsOn(World, With(d, S, up), First + [Tick(now)], With(d', S, next), Second, With(d', S, full));
    acts := First + [Tick(now)] + Second;
    PagesUncrashed();
  }

  lemma Finishes() returns (acts: seq<Action>)
    ensures Runs(World, Begin([A, C]), acts, FinishedRange())
  {
    hide Runs, With, Commit, Filtered;
    var d := Begin([A, C]);
    var full, done := Up("1", "0", ["a", "c"], [A, C], Written(Page([C], None, 2, 2))), Up("1", "0", [], [], Settled(Page([C], None, 2, 2)));
    assert Uids([A]) == ["a"] && Uids([A] + [C]) == ["a", "c"] && [A] + [C] == [A, C];
    NoneLiveKeepsAll(map[], 0, [A]);
    RunsOpen(World, d, S, "0");
    acts := TwoPages(d, C, [A], 0);
    RunsOn(World, d, [Open(S)], With(d, S, Up("0", "0", [], [], Ready)), acts, With(d, S, full));
    acts := [Open(S)] + acts;
    var flush := RunsBatch(World, d, S, full, KeyA, "0");
    RunsOn(World, d, acts, With(d, S, full), flush, With(FinishedRange(), S, done));
    acts := acts + flush;
    RunsHalt(World, FinishedRange(), S, done);
    RunsOn(World, d, acts, With(FinishedRange(), S, done), [Halt(S)], FinishedRange());
    acts := acts + [Halt(S)];
  }

  lemma FinishedMeans()
    ensures var d := FinishedRange();
      && Live(d.store.seen, 0, "a") && !Live(d.store.seen, 10, "c") && Start(World, d, S) == "0" && Finished(d.store, S)
  {
  }

  lemma Rewrites() returns (acts: seq<Action>, d: State)
    ensures d.lake == map[ObjectKey("0", KeyA) := [C]]
    ensures Runs(World, Opened(World, FinishedRange(), S), acts, d)
  {
    hide Runs, Commit, Filtered;
    var d0 := FinishedRange();
    var d1 := d0.(now := 10);
    var full := Up("1", "0", ["c"], [C], Written(Page([C], None, 2, 2)));
    assert Uids([]) == [] && Uids([A]) == ["a"] && Uids([] + [C]) == ["c"] && [] + [C] == [C];
    FinishedMeans();
    AllLiveKeepsNone(d0.store.seen, 0, [A]);
    acts := TwoPages(d0, C, [], 10);
    var flush := RunsBatch(World, d1, S, full, KeyA, "0");
    var d2 := d1.(lake := d1.lake[ObjectKey("0", KeyA) := [C]],
                  store := Commit(d1.store, d1.now, World.ttl, S, None, ["c"], ""), upto := d1.upto[S := 2]);
    d := With(d2, S, Up("1", "0", [], [], Settled(Page([C], None, 2, 2))));
    RunsOn(World, With(d0, S, Up("0", "0", [], [], Ready)), acts, With(d1, S, full), flush, d);
    acts := acts + flush;
  }

  /** Reopening a finished range. Its committed cursor is `None`, so a new run starts over at the
      opening cursor and the same key; what the seen-set still absorbs is then missing from the
      overwriting PUT. Here the first event is live at the first page and the second has expired by
      the second page: the object loses its first row, and no other object has it. */
  lemma ReopeningLoses() returns (first: seq<Action>, second: seq<Action>)
    ensures Init(World, Begin([A, C])) && Legal(World, Begin([A, C]), first)
    ensures var end := Exec(World, Begin([A, C]), first);
      && DistinctLogs(end) && Finished(end.store, S) && InLake(World, end, S, "a")
      && Legal(World, Opened(World, end, S), second)
      && !InLake(World, Exec(World, Opened(World, end, S), second), S, "a")
  {
    hide Filtered, Commit, InBucket, Uids;
    first := Finishes();
    FinishedMeans();
    assert RowAt(FinishedRange().lake, ObjectKey("0", KeyA), 0, "a");
    var d;
    second, d := Rewrites();
    assert forall k, r :: !RowAt(d.lake, k, r, "a");
  }

  // ----- a uid on two pages of one batch -----

  function OneBatch(): State {
    var d := Begin([A, A]);
    With(d.(lake := d.lake[ObjectKey("0", KeyA) := [A, A]],
            store := Commit(d.store, d.now, World.ttl, S, None, ["a", "a"], ""), upto := d.upto[S := 2]), S,
         Up("1", "0", [], [], Settled(Page([A], None, 2, 2))))
  }

  lemma BothPagesKept() returns (acts: seq<Action>)
    ensures Runs(World, Begin([A, A]), acts, OneBatch()) && Uncrashed(acts)
  {
    hide Runs, With, Commit, Filtered;
    var d, full := Begin([A, A]), Up("1", "0", ["a", "a"], [A, A], Written(Page([A], None, 2, 2)));
    assert Uids([A] + [A]) == ["a", "a"] && [A] + [A] == [A, A];
    OneIsKept(d, A);
    RunsOpen(World, d, S, "0");
    acts := TwoPages(d, A, [A], 0);
    RunsOn(World, d, [Open(S)], With(d, S, Up("0", "0", [], [], Ready)), acts, With(d, S, full));
    acts := [Open(S)] + acts;
    var flush := RunsBatch(World, d, S, full, KeyA, "0");
    RunsOn(World, d, acts, With(d, S, full), flush, OneBatch());
    acts := acts + flush;
  }

  /** A uid on two pages of one open batch. The filter asks the store, which does not know it yet, and the
      collapse is page by page: without any crash one object gets two rows of it. */
  lemma OpenBatchDuplicates() returns (acts: seq<Action>)
    ensures Init(World, Begin([A, A])) && Legal(World, Begin([A, A]), acts) && Uncrashed(acts)
    ensures Exec(World, Begin([A, A]), acts).lake == map[ObjectKey("0", KeyA) := [A, A]]
    ensures !AtMostOne(Exec(World, Begin([A, A]), acts).lake)
  {
    acts := BothPagesKept();
    RunsMeans(World, Begin([A, A]), acts, OneBatch());
    assert RowAt(OneBatch().lake, ObjectKey("0", KeyA), 0, "a") && RowAt(OneBatch().lake, ObjectKey("0", KeyA), 1, "a");
  }

  // ----- an opening that moves -----

  const Later := World.(opening := (_: Stream) => "1")

  /** An opening that moves. The first run dies before its first commit, with the second event PUT under
      the opening key; the restart computes its opening anew and begins one event later. The second event
      is then on two rows and the first on none, though the log has no repeats. */
  lemma MovedOpening() returns (first: seq<Action>, second: seq<Action>)
    ensures Init(World, Begin([A, B])) && Legal(World, Begin([A, B]), first)
    ensures var mid := Exec(World, Begin([A, B]), first); Legal(Later, mid, second)
    ensures var end := Exec(Later, Exec(World, Begin([A, B]), first), second);
      && DistinctLogs(end) && UptoOf(end, S) == |LogOf(end, S)| && !InLake(Later, end, S, "a")
      && RowAt(end.lake, ObjectKey("0", KeyB), 0, "b") && RowAt(end.lake, ObjectKey("1", KeyB), 0, "b")
  {
    hide Filtered, Commit, InBucket, Uids, Targets, CanMove, Moved, Runs;
    var d := Begin([A, B]).(lake := map[ObjectKey("0", KeyB) := [B]]);
    var end := With(OneDelivered(Later, d, S, "1", "2", B), S, Up("2", "2", [], [], Ready));
    first := CrashedAttempt();
    RunsMeans(World, Begin([A, B]), first, d);
    RunsOpen(Later, d, S, "1");
    second := RunsOneEvent(Later, d, S, "1", "2", B);
    RunsOn(Later, d, [Open(S)], With(d, S, Up("1", "1", [], [], Ready)), second, end);
    second := [Open(S)] + second;
    RunsMeans(Later, d, second, end);
    assert end.lake[ObjectKey("0", KeyB)] == [B] && end.lake[ObjectKey("1", KeyB)] == [B];
  }

  // ----- a uid that comes back after the window -----

  /** Expiry. A uid the log repeats a dedup window later is written again: two rows, without any crash. */
  lemma ExpiryDuplicates() returns (acts: seq<Action>)
    ensures Init(World, Begin([A, A])) && Legal(World, Begin([A, A]), acts) && Uncrashed(acts)
    ensures var end := Exec(World, Begin([A, A]), acts);
      RowAt(end.lake, ObjectKey("0", KeyA), 0, "a") && RowAt(end.lake, ObjectKey("1", KeyA), 0, "a")
  {
    hide Filtered, InBucket, Uids, Targets, CanMove, Moved, Runs;
    var d0, up := Begin([A, A]), Up("0", "0", [], [], Ready);
    var d1 := OneDelivered(World, d0, S, "0", "1", A);
    var d2 := d1.(now := 10);
    var d3 := OneDelivered(World, d2, S, "1", "2", A);
    RunsOpen(World, d0, S, "0");
    var first := RunsOneEvent(World, d0, S, "0", "1", A);
    RunsOn(World, d0, [Open(S)], With(d0, S, up), first, With(d1, S, Up("1", "1", [], [], Ready)));
    RunsTickUp(World, d1, S, Up("1", "1", [], [], Ready), 10);
    acts := [Open(S)] + first;
    RunsOn(World, d0, acts, With(d1, S, Up("1", "1", [], [], Ready)), [Tick(10)], With(d2, S, Up("1", "1", [], [], Ready)));
    acts := acts + [Tick(10)];
    var second := RunsOneEvent(World, d2, S, "1", "2", A);
    RunsOn(World, d0, acts, With(d2, S, Up("1", "1", [], [], Ready)), second, With(d3, S, Up("2", "2", [], [], Ready)));
    acts := acts + second;
    RunsMeans(World, d0, acts, With(d3, S, Up("2", "2", [], [], Ready)));
  }

  // ----- one uid in two logs -----

  const T: Stream := "t"

  const Pair := Env({S, T}, (s: Stream) => if s == S then "0" else "t0", (c: Cursor) => if c == "0" || c == "t0" then 0 else 1,
    (c: Cursor) => if c == "0" || c == "1" then S else T, (_: int) => "", false, 10)

  const BeginPair := State(map[S := [A], T := [A]], map[], EmptyStore, 0, map[S := 0, T := 0], map[S := Down, T := Down])

  function Holding(c: Cursor, next: Cursor): Proc {
    Up(c, c, ["a"], [A], Written(Page([A], Some(next), 1, 1)))
  }

  lemma Reading(d: State, s: Stream, c: Cursor, next: Cursor)
    requires s in d.logs && d.logs[s] == [A] && d.store == EmptyStore && s in d.procs && d.procs[s].Down?
    requires (s == S && c == "0" && next == "1") || (s == T && c == "t0" && next == "t1")
    ensures Runs(Pair, d, [Open(s)] + [Act(s, Fetch(1, Some(next))), Act(s, Filter), Act(s, Write)], With(d, s, Holding(c, next)))
  {
    hide Runs, With, Filtered;
    RunsOpen(Pair, d, s, c);
    ReadsOneEvent(Pair, d, s, c, next, A);
    RunsOn(Pair, d, [Open(s)], With(d, s, Up(c, c, [], [], Ready)),
           [Act(s, Fetch(1, Some(next))), Act(s, Filter), Act(s, Write)], With(d, s, Holding(c, next)));
  }

  /** The lake and the store after stream `s` has committed its batch of one. */
  function PairCommitted(d: State, s: Stream, c: Cursor, next: Cursor): State {
    d.(lake := d.lake[ObjectKey(c, KeyA) := [A]], store := Commit(d.store, d.now, Pair.ttl, s, Some(next), ["a"], ""),
       upto := d.upto[s := 1])
  }

  lemma Committing(d: State, s: Stream, c: Cursor, next: Cursor) returns (acts: seq<Action>)
    requires s in Pair.streams
    ensures Uncrashed(acts)
    ensures Runs(Pair, With(d, s, Holding(c, next)), acts,
                 With(PairCommitted(d, s, c, next), s, SettledAt(c, next)))
  {
    hide Runs, With, Commit;
    acts := RunsBatch(Pair, d, s, Holding(c, next), KeyA, next);
  }

  function SettledAt(c: Cursor, next: Cursor): Proc {
    Up(c, next, [], [], Settled(Page([A], Some(next), 1, 1)))
  }

  const BothHold := With(With(BeginPair, S, Holding("0", "1")), T, Holding("t0", "t1"))
  const OneCommitted := With(PairCommitted(BeginPair, T, "t0", "t1"), T, SettledAt("t0", "t1"))
  const BothCommitted := With(PairCommitted(OneCommitted, S, "0", "1"), S, SettledAt("0", "1"))

  lemma BothRead() returns (acts: seq<Action>)
    ensures Runs(Pair, BeginPair, acts, BothHold) && Uncrashed(acts)
  {
    hide Runs;
    var d := With(BeginPair, S, Holding("0", "1"));
    Reading(BeginPair, S, "0", "1");
    Reading(d, T, "t0", "t1");
    var first := [Open(S)] + [Act(S, Fetch(1, Some("1"))), Act(S, Filter), Act(S, Write)];
    var second := [Open(T)] + [Act(T, Fetch(1, Some("t1"))), Act(T, Filter), Act(T, Write)];
    RunsOn(Pair, BeginPair, first, d, second, BothHold);
    acts := first + second;
  }

  lemma SecondStillHolds()
    ensures With(PairCommitted(With(BeginPair, S, Holding("0", "1")), T, "t0", "t1"), T, SettledAt("t0", "t1"))
      == With(OneCommitted, S, Holding("0", "1"))
  {
    hide Commit;
  }

  lemma BothCommit() returns (acts: seq<Action>)
    ensures Runs(Pair, BothHold, acts, BothCommitted) && Uncrashed(acts)
  {
    hide Runs, With, Commit, PairCommitted, Holding, SettledAt;
    var first := Committing(With(BeginPair, S, Holding("0", "1")), T, "t0", "t1");
    SecondStillHolds();
    var second := Committing(OneCommitted, S, "0", "1");
    RunsOn(Pair, BothHold, first, With(OneCommitted, S, Holding("0", "1")), second, BothCommitted);
    acts := first + second;
  }

  /** One uid in two logs. Two live streams both read it before either commits: the filter passes it
      twice, and without any crash it is on two rows. */
  lemma SharedUidDuplicates() returns (acts: seq<Action>)
    ensures Init(Pair, BeginPair) && Legal(Pair, BeginPair, acts) && Uncrashed(acts)
    ensures var end := Exec(Pair, BeginPair, acts);
      RowAt(end.lake, ObjectKey("0", KeyA), 0, "a") && RowAt(end.lake, ObjectKey("t0", KeyA), 0, "a")
  {
    hide Runs, BothHold, BothCommitted;
    PairEnds();
    var read := BothRead();
    var committed := BothCommit();
    RunsOn(Pair, BeginPair, read, BothHold, committed, BothCommitted);
    acts := read + committed;
    RunsMeans(Pair, BeginPair, acts, BothCommitted);
  }

  lemma PairEnds()
    ensures RowAt(BothCommitted.lake, ObjectKey("0", KeyA), 0, "a") && RowAt(BothCommitted.lake, ObjectKey("t0", KeyA), 0, "a")
  {
    hide Commit, Holding, SettledAt;
  }

  // ----- blank uids -----

  const D := Event(3002, 0, "", JBool(true))
  const F := Event(3002, 0, "", JBool(false))

  lemma BlankCollapse()
    ensures Uids([D, F]) == ["", ""] && Filtered(map[], 0, [D, F]) == [D]
  {
    var events := [D, F];
    assert Uids(events) == ["", ""];
    var _ := UnseenMeaning(map[], 0, ["", ""]);
    var unseen := set u | u in Unseen(map[], 0, ["", ""]);
    assert ["", ""][0] in ["", ""] && "" in unseen;
    assert events[..1] == [D] && [D][..0] == [];
    assert Fresh([D], unseen) == [D];
    assert HasUid([D], F.uid) by { assert [D][0].uid == F.uid; }
  }

  function BlankEnd(): State {
    var d := Begin([D, F]);
    With(d.(lake := d.lake[ObjectKey("0", KeyA) := [D]],
            store := Commit(d.store, d.now, World.ttl, S, Some("2"), [""], ""), upto := d.upto[S := 2]), S,
         Up("0", "2", [], [], Settled(Page([D, F], Some("2"), 2, 2))))
  }

  const BlankRead := [Act(S, Fetch(2, Some("2"))), Act(S, Filter), Act(S, Write)]
  const BlankFull := Up("0", "0", [""], [D], Written(Page([D, F], Some("2"), 2, 2)))

  lemma BlankReads()
    ensures Runs(World, With(Begin([D, F]), S, Up("0", "0", [], [], Ready)), BlankRead, With(Begin([D, F]), S, BlankFull))
  {
    hide Runs, CanMove, Filtered, With, UniqueUids, HasUid;
    var d, up := Begin([D, F]), Up("0", "0", [], [], Ready);
    BlankCollapse();
    CanFetch(World, d, S, up, 2, Some("2"));
    assert [D, F][0..2] == [D, F] && Uids([D]) == [""] && [] + [""] == [""] && [] + [D] == [D];
    RunsRead(World, d, S, up, 2, Some("2"), Page([D, F], Some("2"), 2, 2), [D]);
  }

  lemma BlankRuns() returns (acts: seq<Action>)
    ensures Runs(World, Begin([D, F]), acts, BlankEnd())
  {
    hide Runs, Commit, With, BlankRead;
    var d, up := Begin([D, F]), Up("0", "0", [], [], Ready);
    RunsOpen(World, d, S, "0");
    BlankReads();
    RunsOn(World, d, [Open(S)], With(d, S, up), BlankRead, With(d, S, BlankFull));
    var flush := RunsBatch(World, d, S, BlankFull, KeyA, "2");
    RunsOn(World, d, [Open(S)] + BlankRead, With(d, S, BlankFull), flush, BlankEnd());
    acts := [Open(S)] + BlankRead + flush;
  }

  /** Blank uids. Two different events without a uid share the uid "": the page keeps one, the commit
      passes both, and the other is in no object. */
  lemma BlankUidsLose() returns (acts: seq<Action>)
    ensures Init(World, Begin([D, F])) && Legal(World, Begin([D, F]), acts)
    ensures var end := Exec(World, Begin([D, F]), acts);
      && LogOf(end, S) == [D, F] && UptoOf(end, S) == 2
      && forall k :: k in end.lake ==> F !in end.lake[k]
  {
    acts := BlankRuns();
    RunsMeans(World, Begin([D, F]), acts, BlankEnd());
  }

  lemma RunsMeans(e: Env, st: State, acts: seq<Action>, end: State)
    requires Runs(e, st, acts, end)
    ensures Legal(e, st, acts) && Exec(e, st, acts) == end
  {
  }
}
