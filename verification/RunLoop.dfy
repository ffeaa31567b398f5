/** The runner: fetch, map, filter, buffer, flush, commit, in a loop. Every call on the source, the
    object store or the state store may fail, which ends the run. The run is proved to be a run of the
    protocol machine, so all that is proved of the machine is true of it. */
module RunLoop {
  import opened Domain
  import opened StateSpec
  import opened StateStores
  import opened Protocol
  import opened Backfill
  import opened LakeSink
  import opened Neighbours
  import opened RunTrace

  datatype RunStats = RunStats(
    pages: nat, mapped: nat, written: nat, duplicates: nat, commits: nat,
    exhausted: bool, stoppedBy: Option<int>)

  // ----- the collaborators -----

  class Clock {
    var now: int

    method Read() returns (t: int)
      modifies this
      ensures old(now) <= now == t
    {
      var elapsed: int := *;
      if elapsed > 0 {
        now := now + elapsed;
      }
      t := now;
    }
  }

  /** Whoever may ask the run to end: the number of a signal, or nothing yet. */
  class StopSignal {
    /** The signals read so far. */
    ghost var heard: seq<int>

    method Read() returns (signal: Option<int>)
      modifies this
      ensures heard == old(heard) + if signal.Some? then [signal.value] else []
    {
      var asked: bool := *;
      var number: int := *;
      signal := if asked then Some(number) else None;
      if signal.Some? {
        heard := heard + [number];
      }
    }
  }

  datatype RawPage = RawPage(records: seq<Json>, next: Option<Cursor>)

  function MapAll(mapRecord: Json -> Event, records: seq<Json>): (r: seq<Event>)
    ensures |r| == |records|
    ensures forall i :: 0 <= i < |records| ==> r[i] == mapRecord(records[i])
  {
    seq(|records|, i requires 0 <= i < |records| => mapRecord(records[i]))
  }

  /** The vendor's log of one stream, which grows while it is read. A bounded query is a finite chain
      of pages: `chain` ranks its cursors, and every `next` link leads down, from an empty page too. A
      tail has no rank and no end; `answers` is how many more of its fetches succeed before the process
      dies, any number. */
  class Source {
    const env: Env
    const stream: Stream
    const mapRecord: Json -> Event
    const chain: Option<Cursor -> nat>
    var log: seq<Json>
    var answers: nat
    /** How many of its calls have failed. */
    ghost var faults: nat

    /** How long the loop can go on fetching from here. */
    function Left(cursor: Cursor): nat
      reads `answers
    {
      if chain.Some? then chain.value(cursor) + 1 else answers
    }

    method Fetch(cursor: Cursor) returns (page: Option<RawPage>, ghost grown: seq<Json>)
      modifies this
      ensures log == old(log) + grown && faults == old(faults) + if page.Some? then 0 else 1
      ensures page.Some? ==>
        var n, at := |page.value.records|, env.pos(cursor);
        && at + n <= |log| && page.value.records == log[at..at + n]
        && (page.value.next.Some? ==>
              env.owner(page.value.next.value) == stream && env.pos(page.value.next.value) == at + n)
      ensures page.Some? ==>
        0 < old(Left(cursor)) && (page.value.next.Some? ==> Left(page.value.next.value) < old(Left(cursor)))
      ensures page.Some? && chain.Some? ==> Falls(chain.value, cursor, page.value.next)
    {
      var more: seq<Json> := *;
      var count: int := *;
      var url: Cursor := *;
      var last: bool := *;
      var served: bool := *;
      var next := if last then None else Some(url);
      grown, page := more, None;
      log := log + more;
      var at := env.pos(cursor);
      if served && (chain.Some? || answers > 0) && 0 <= count && at + count <= |log|
        && (next.None? || (env.owner(next.value) == stream && env.pos(next.value) == at + count))
        && (chain.None? || Falls(chain.value, cursor, next))
      {
        answers := if chain.Some? then answers else answers - 1;
        page := Some(RawPage(log[at..at + count], next));
      } else {
        faults := faults + 1;
      }
    }

    /** The opening cursor, which the source refuses if it cannot be made. */
    method Opening() returns (ok: bool, cursor: Cursor)
      modifies `faults
      ensures cursor == env.opening(stream) && faults == old(faults) + if ok then 0 else 1
    {
      cursor := env.opening(stream);
      ok := *;
      if !ok {
        faults := faults + 1;
      }
    }
  }

  datatype Parts = Parts(
    env: Env, stream: Stream, source: Source, sink: SecurityLakeSink, store: SqliteStateStore, clock: Clock,
    stop: StopSignal, others: Others)

  ghost predicate Wired(p: Parts)
    reads p.sink, p.store
  {
    && p.stream in p.env.streams
    && p.source.env == p.env && p.source.stream == p.stream
    && p.sink.env == p.env && p.sink.Valid()
    && p.store.ttl == p.env.ttl && p.store.Valid()
  }

  /** The collaborators are in the state `st` describes, and the run is at `proc`. */
  ghost predicate Mirrors(p: Parts, st: State, proc: Proc)
    reads p.source, p.sink, p.sink.store, p.store, p.clock, p.others
  {
    && Beside(p.stream, p.others.Picture(), st)
    && LogOf(st, p.stream) == MapAll(p.source.mapRecord, p.source.log)
    && st.lake == p.sink.store.objects
    && st.store == p.store.Contents()
    && st.now == p.clock.now
    && ProcOf(st, p.stream) == proc
  }

  /** What the run's own stream has done so far. */
  ghost function Done(p: Parts, tr: Trace): Tally
    requires Recorded(p.env, tr)
  {
    TallyOf(p.env, p.stream, tr)
  }

  /** How many calls of the run on its collaborators have failed. */
  ghost function Faults(p: Parts): nat
    reads p.source`faults, p.sink.store`faults, p.store`faults
  {
    p.source.faults + p.sink.store.faults + p.store.faults
  }

  // ----- the steps of one turn -----

  method Tell(p: Parts, ghost proc: Proc, ghost tr: Trace) returns (t: int, ghost tr': Trace)
    requires Wired(p) && Recorded(p.env, tr) && Mirrors(p, tr.now, proc)
    modifies p.clock
    ensures Recorded(p.env, tr') && Mirrors(p, tr'.now, proc) && tr'.start == tr.start && Done(p, tr') == Done(p, tr)
    ensures old(p.clock.now) <= t == p.clock.now
  {
    hide Beside, Recorded, TallyOf;
    t := p.clock.Read();
    tr' := Then(p.env, tr, Tick(t));
  }

  /** What a move of another process does to the store and the lake. When its call fails a PUT may have
      landed, and nothing else has changed. */
  method OthersEffect(p: Parts, w: State, s: Stream, m: Move) returns (ok: bool, ghost done: bool)
    requires Wired(p) && CanMove(p.env, w, s, m)
    requires w == p.others.World(p.sink.store.objects, p.store.Contents(), p.clock.now)
    modifies p.sink.store, p.store
    ensures Wired(p) && (ok ==> done) && Faults(p) == old(Faults(p))
    ensures done ==> p.sink.store.objects == LakeAfter(p.env, w, s, m) && p.store.Contents() == StoreAfter(p.env, w, s, m)
    ensures !done ==> p.sink.store.objects == old(p.sink.store.objects) && p.store.Contents() == old(p.store.Contents())
  {
    hide Targets, InBucket, Filtered, StateSpec.Commit, StateSpec.MarkCaughtUp;
    ghost var storeFaults, lakeFaults := p.store.faults, p.sink.store.faults;
    var q := ProcOf(w, s);
    ok, done := true, true;
    match m {
      case CommitBatch(version) =>
        ok := p.store.Commit(p.clock.now, s, q.phase.page.next, q.pending, version);
        done := ok;
      case Publish(ms) =>
        PublishedAgree(p.store.Contents(), s, ms);
        ok := false;
        if ms > 0 {
          ok := p.store.RecordPublished(s, ms);
        }
        done := ok;
      case Stamp =>
        ok := p.store.MarkCaughtUp(p.clock.now, s);
        done := ok;
      case Put(b, rows) =>
        ok, done := p.sink.store.Put(ObjectKey(q.batchKey, b), rows);
      case _ =>
    }
    // A call that fails is the other process's, not the run's.
    p.store.faults, p.sink.store.faults := storeFaults, lakeFaults;
  }

  /** One move of another process, on the store and the lake it shares with the run. A process whose call
      fails is gone. */
  method OthersMove(p: Parts, s: Stream, m: Move, ghost proc: Proc, ghost tr: Trace) returns (ghost tr': Trace)
    requires Wired(p) && Recorded(p.env, tr) && Mirrors(p, tr.now, proc) && s in p.env.streams && s != p.stream
    modifies p.others, p.sink.store, p.store
    ensures Wired(p) && Recorded(p.env, tr') && tr'.start == tr.start && Mirrors(p, tr'.now, proc) && Done(p, tr') == Done(p, tr)
    ensures RowOf(p.store.Contents(), p.stream) == old(RowOf(p.store.Contents(), p.stream)) && Faults(p) == old(Faults(p))
  {
    hide Beside, Recorded, TallyOf, RowOf, CanMove, ProcAfter, LakeAfter, StoreAfter, Apply, Enabled;
    tr' := tr;
    var w := p.others.World(p.sink.store.objects, p.store.Contents(), p.clock.now);
    if !CanMove(p.env, w, s, m) {
      return;
    }
    ghost var w' := MoveAlike(p.env, p.stream, p.others.Picture(), w, tr.now, s, m);
    ghost var done;
    var ok;
    ok, done := OthersEffect(p, w, s, m);
    if done {
      tr' := Then(p.env, tr, Act(s, m));
    }
    if ok {
      p.others.procs := p.others.procs[s := ProcAfter(p.env, w, s, m)];
      BesideWorld(p.stream, w', p.others.Picture(), tr'.now);
    } else {
      p.others.procs := p.others.procs[s := Down];
      Dies(p.env, p.stream, if done then w' else w, p.others.Picture(), tr'.now, s);
      tr' := Then(p.env, tr', Halt(s));
    }
  }

  /** One step of another stream: its log grows, it opens or dies, or it moves. */
  method OthersStep(p: Parts, a: Action, ghost proc: Proc, ghost tr: Trace) returns (ghost tr': Trace)
    requires Wired(p) && Recorded(p.env, tr) && Mirrors(p, tr.now, proc)
    modifies p.others, p.sink.store, p.store
    ensures Wired(p) && Recorded(p.env, tr') && tr'.start == tr.start && Mirrors(p, tr'.now, proc) && Done(p, tr') == Done(p, tr)
    ensures RowOf(p.store.Contents(), p.stream) == old(RowOf(p.store.Contents(), p.stream)) && Faults(p) == old(Faults(p))
  {
    hide Beside, Recorded, TallyOf, CanMove, Moved, Finished, Start, GetCursor;
    tr' := tr;
    var w := p.others.World(p.sink.store.objects, p.store.Contents(), p.clock.now);
    BesideWorld(p.stream, p.others.Picture(), w, tr.now);
    if a.PurgeExpired? {
      ghost var faults := p.store.faults;
      var ok, removed := p.store.PurgeExpired(p.clock.now);
      if ok {
        tr' := Then(p.env, tr, a);
      }
      p.store.faults := faults;
    } else if a.Act? {
      if a.s in p.env.streams && a.s != p.stream {
        tr' := OthersMove(p, a.s, a.move, proc, tr);
      }
    } else if !a.Tick? && a.s in p.env.streams && a.s != p.stream && StartsOrEnds(w, a) {
      StepAlike(p.env, p.stream, w, tr.now, a);
      tr' := Then(p.env, tr, a);
      var w' := After(p.env, w, a);
      p.others.logs, p.others.procs := w'.logs, w'.procs;
      BesideWorld(p.stream, w', p.others.Picture(), tr'.now);
    }
  }

  /** Whatever other streams do between two calls of the run: any number of steps, at any pace. */
  method Meanwhile(p: Parts, ghost proc: Proc, ghost tr: Trace) returns (ghost tr': Trace)
    requires Wired(p) && Recorded(p.env, tr) && Mirrors(p, tr.now, proc)
    modifies p.others, p.sink.store, p.store, p.clock
    ensures Wired(p) && Recorded(p.env, tr') && tr'.start == tr.start && Mirrors(p, tr'.now, proc) && Done(p, tr') == Done(p, tr)
    ensures old(p.clock.now) <= p.clock.now
    ensures RowOf(p.store.Contents(), p.stream) == old(RowOf(p.store.Contents(), p.stream)) && Faults(p) == old(Faults(p))
  {
    hide Beside, Recorded, TallyOf, RowOf;
    tr' := tr;
    var steps: int := *;
    while steps > 0
      invariant Wired(p) && Recorded(p.env, tr') && tr'.start == tr.start && Mirrors(p, tr'.now, proc) && Done(p, tr') == Done(p, tr)
      invariant old(p.clock.now) <= p.clock.now
      invariant RowOf(p.store.Contents(), p.stream) == old(RowOf(p.store.Contents(), p.stream)) && Faults(p) == old(Faults(p))
    {
      var t;
      t, tr' := Tell(p, proc, tr');
      var a: Action := *;
      tr' := OthersStep(p, a, proc, tr');
      steps := steps - 1;
    }
  }

  method Poll(p: Parts, cursor: Cursor, ghost proc: Proc, ghost tr: Trace)
    returns (page: Option<RawPage>, ghost served: Page, ghost tr': Trace)
    requires Wired(p) && Recorded(p.env, tr) && Mirrors(p, tr.now, proc)
    requires proc.Up? && proc.cursor == cursor && proc.phase.Ready?
    modifies p.source
    ensures Recorded(p.env, tr') && tr'.start == tr.start
    ensures Done(p, tr') == Done(p, tr).(pages := Done(p, tr).pages + if page.Some? then 1 else 0)
    ensures Faults(p) == old(Faults(p)) + if page.Some? then 0 else 1
    ensures page.None? ==> Mirrors(p, tr'.now, proc)
    ensures page.Some? ==>
      && served.events == MapAll(p.source.mapRecord, page.value.records) && served.next == page.value.next
      && Mirrors(p, tr'.now, proc.(phase := Fetched(served)))
    ensures page.Some? ==> 0 < old(p.source.Left(cursor))
    ensures page.Some? && page.value.next.Some? ==> p.source.Left(page.value.next.value) < old(p.source.Left(cursor))
  {
    hide Recorded, TallyOf, Beside, Apply, Enabled, MapAll, Falls;
    ghost var grown;
    ghost var log, f := p.source.log, p.source.mapRecord;
    page, grown := p.source.Fetch(cursor);
    GrowsMapped(p.env, p.stream, tr.now, f, log, grown);
    tr' := Then(p.env, tr, Grow(p.stream, MapAll(f, grown)));
    served := Page([], None, 0, 0);
    if page.Some? {
      var n := |page.value.records|;
      served := ServesMapped(p.env, p.stream, tr'.now, f, p.source.log, n, page.value.next);
      tr' := Then(p.env, tr', Act(p.stream, Fetch(n, page.value.next)));
    }
  }

  /** New records become new events of the log. */
  lemma GrowsMapped(e: Env, s: Stream, st: State, f: Json -> Event, log: seq<Json>, grown: seq<Json>)
    requires s in e.streams && LogOf(st, s) == MapAll(f, log)
    ensures Enabled(e, st, Grow(s, MapAll(f, grown)))
    ensures var st' := Apply(e, st, Grow(s, MapAll(f, grown)));
      && LogOf(st', s) == MapAll(f, log + grown) && ProcOf(st', s) == ProcOf(st, s)
      && st'.lake == st.lake && st'.store == st.store && st'.now == st.now
  {
    assert MapAll(f, log + grown) == MapAll(f, log) + MapAll(f, grown);
  }

  /** A page of records is fetched as the page of their events. */
  lemma ServesMapped(e: Env, s: Stream, st: State, f: Json -> Event, log: seq<Json>, n: nat, next: Option<Cursor>) returns (served: Page)
    requires s in e.streams && LogOf(st, s) == MapAll(f, log) && ProcOf(st, s).Up? && ProcOf(st, s).phase.Ready?
    requires var at := e.pos(ProcOf(st, s).cursor);
      at + n <= |log| && (next.Some? ==> e.owner(next.value) == s && e.pos(next.value) == at + n)
    ensures Enabled(e, st, Act(s, Fetch(n, next)))
    ensures var st' := Apply(e, st, Act(s, Fetch(n, next))); var at := e.pos(ProcOf(st, s).cursor);
      && served.events == MapAll(f, log[at..at + n]) && served.next == next
      && ProcOf(st', s) == ProcOf(st, s).(phase := Fetched(served)) && LogOf(st', s) == LogOf(st, s)
      && st'.lake == st.lake && st'.store == st.store && st'.now == st.now
  {
    var at := e.pos(ProcOf(st, s).cursor);
    assert MapAll(f, log)[at..at + n] == MapAll(f, log[at..at + n]);
    served := Page(LogOf(st, s)[at..at + n], next, at + n, |LogOf(st, s)|);
  }

  method MapPage(mapRecord: Json -> Event, records: seq<Json>) returns (events: seq<Event>)
    ensures events == MapAll(mapRecord, records)
  {
    events := [];
    for i := 0 to |records|
      invariant events == MapAll(mapRecord, records[..i])
    {
      events := events + [mapRecord(records[i])];
    }
    assert records[..|records|] == records;
  }

  /** Keeps the first event of each unseen uid: each uid is crossed off as it is kept. */
  method Collapse(events: seq<Event>, unseenUids: seq<string>) returns (kept: seq<Event>)
    ensures kept == Fresh(events, set u | u in unseenUids)
  {
    ghost var all := set u | u in unseenUids;
    var unseen := set u | u in unseenUids;
    kept := [];
    for i := 0 to |events|
      invariant kept == Fresh(events[..i], all)
      invariant forall u :: u in unseen <==> u in all && !HasUid(kept, u)
    {
      assert events[..i + 1][..i] == events[..i] && events[..i + 1][i] == events[i];
      if events[i].uid in unseen {
        ghost var before := kept;
        unseen := unseen - {events[i].uid};
        kept := kept + [events[i]];
        assert kept[|before|].uid == events[i].uid;
        forall u | HasUid(before, u) ensures HasUid(kept, u) {
          var j :| 0 <= j < |before| && before[j].uid == u;
          assert kept[j].uid == u;
        }
      }
    }
    assert events[..|events|] == events;
  }

  /** Drops what the store has already seen. `ok` is false when the store could not say. */
  method KeepFresh(p: Parts, events: seq<Event>, ghost proc: Proc, ghost tr: Trace)
    returns (ok: bool, kept: seq<Event>, ghost tr': Trace)
    requires Wired(p) && Recorded(p.env, tr) && Mirrors(p, tr.now, proc)
    requires proc.Up? && proc.phase.Fetched? && proc.phase.page.events == events
    modifies p.clock, p.store`faults
    ensures Wired(p) && Faults(p) == old(Faults(p)) + if ok then 0 else 1
    ensures p.store.Contents() == old(p.store.Contents())
    ensures Recorded(p.env, tr') && tr'.start == tr.start && old(p.clock.now) <= p.clock.now
    ensures Done(p, tr') == Done(p, tr).(mapped := Done(p, tr).mapped + if ok then |events| else 0)
    ensures !ok ==> Mirrors(p, tr'.now, proc)
    ensures ok ==> Mirrors(p, tr'.now, proc.(phase := Kept(proc.phase.page, kept))) && |kept| <= |events|
  {
    hide Beside, Recorded, TallyOf, Fresh, Unseen, MapAll, StateSpec.Commit, Targets, InBucket;
    var t;
    t, tr' := Tell(p, proc, tr);
    kept := [];
    var unseen;
    ok, unseen := p.store.FilterUnseen(t, Uids(events));
    if ok {
      kept := Collapse(events, unseen);
      tr' := Then(p.env, tr', Act(p.stream, Filter));
      FreshIsShorter(events, set u | u in unseen);
    }
  }

  lemma FreshIsShorter(events: seq<Event>, unseen: set<string>)
    ensures |Fresh(events, unseen)| <= |events|
  {
  }

  /** The newest timestamp that parsed, if any did. */
  method NewestDated(events: seq<Event>) returns (newest: Option<int>)
    ensures newest.None? <==> forall ev :: ev in events ==> ev.timeMs <= 0
    ensures newest.Some? ==> newest.value > 0 && exists ev :: ev in events && ev.timeMs == newest.value
    ensures newest.Some? ==> forall ev :: ev in events ==> ev.timeMs <= newest.value
  {
    newest := None;
    for i := 0 to |events|
      invariant newest.None? <==> forall ev :: ev in events[..i] ==> ev.timeMs <= 0
      invariant newest.Some? ==> newest.value > 0 && exists ev :: ev in events[..i] && ev.timeMs == newest.value
      invariant newest.Some? ==> forall ev :: ev in events[..i] ==> ev.timeMs <= newest.value
    {
      assert events[..i + 1] == events[..i] + [events[i]];
      assert events[i] in events[..i + 1];
      if events[i].timeMs > 0 && (newest.None? || newest.value < events[i].timeMs) {
        newest := Some(events[i].timeMs);
      }
    }
    assert events[..|events|] == events;
  }

  /** What a page does to the stream's row: the published time becomes the newest of what it was and the
      times of the page that parsed, and nothing else moves. */
  ghost predicate Observed(row: Row, row': Row, events: seq<Event>) {
    && row'.(published := row.published) == row
    && (forall ev :: ev in events && ev.timeMs > 0 ==> row'.published.Some? && ev.timeMs <= row'.published.value)
    && (row.published.Some? ==> row'.published.Some? && row.published.value <= row'.published.value)
    && (row'.published != row.published ==> exists ev :: ev in events && ev.timeMs > 0 && row'.published == Some(ev.timeMs))
  }

  method RecordNewest(p: Parts, events: seq<Event>, ghost proc: Proc, ghost tr: Trace)
    returns (ok: bool, ghost tr': Trace)
    requires Wired(p) && Recorded(p.env, tr) && Mirrors(p, tr.now, proc)
    requires proc.Up? && proc.phase.Kept?
    modifies p.store
    ensures Wired(p) && Recorded(p.env, tr') && tr'.start == tr.start && Mirrors(p, tr'.now, proc)
    ensures Done(p, tr') == Done(p, tr)
    ensures if ok then Observed(old(RowOf(p.store.Contents(), p.stream)), RowOf(p.store.Contents(), p.stream), events)
      else p.store.Contents() == old(p.store.Contents())
    ensures Faults(p) == old(Faults(p)) + if ok then 0 else 1
  {
    hide Beside, Recorded, TallyOf;
    ok, tr' := true, tr;
    var newest := NewestDated(events);
    if newest.Some? {
      PublishedAgree(p.store.Contents(), p.stream, newest.value);
      PublishedIsNewest(p.store.Contents(), p.stream, newest.value);
      ok := p.store.RecordPublished(p.stream, newest.value);
      if ok {
        tr' := Then(p.env, tr', Act(p.stream, Publish(newest.value)));
      }
    }
  }

  method WriteKept(p: Parts, kept: seq<Event>, ghost proc: Proc, ghost tr: Trace)
    returns (ghost proc': Proc, ghost tr': Trace)
    requires Wired(p) && Recorded(p.env, tr) && Mirrors(p, tr.now, proc)
    requires proc.Up? && proc.phase.Kept? && proc.phase.kept == kept && proc.buffer == p.sink.buffer
    modifies p.sink, p.clock
    ensures Wired(p) && Recorded(p.env, tr') && tr'.start == tr.start && Mirrors(p, tr'.now, proc')
    ensures proc' == Up(proc.cursor, proc.batchKey, proc.pending + Uids(kept), p.sink.buffer, Written(proc.phase.page))
    ensures old(p.clock.now) <= p.clock.now && Done(p, tr') == Done(p, tr).(written := Done(p, tr).written + |kept|)
  {
    hide Beside, Recorded, TallyOf;
    var t;
    t, tr' := Tell(p, proc, tr);
    p.sink.Write(t, kept);
    tr' := Then(p.env, tr', Act(p.stream, Write));
    proc' := ProcOf(tr'.now, p.stream);
  }

  // ----- flush, then commit -----

  /** The machine state in the middle of a flush: these buckets PUT, nothing else moved. */
  function MidFlush(e: Env, st: State, s: Stream, proc: Proc, put: seq<Bucket>): State
    requires proc.Up? && proc.phase.Flushing?
  {
    var done := set b | b in put;
    st.(procs := st.procs[s := proc.(phase := Flushing(proc.phase.page, done))],
        lake := PutAll(e, st.lake, proc.batchKey, proc.buffer, put))
  }

  lemma PutStep(e: Env, s: Stream, st: State, b: Bucket, rows: seq<Event>)
    requires s in e.streams && CanMove(e, st, s, Put(b, rows))
    ensures var q := ProcOf(st, s);
      Apply(e, st, Act(s, Put(b, rows))) == st.(
        procs := st.procs[s := q.(phase := Flushing(q.phase.page, q.phase.done + {b}))],
        lake := st.lake[ObjectKey(q.batchKey, b) := rows])
  {
  }

  lemma MidFlushLast(e: Env, st: State, s: Stream, proc: Proc, put: seq<Bucket>, b: Bucket)
    requires proc.Up? && proc.phase.Flushing?
    ensures var mid := MidFlush(e, st, s, proc, put); var q := ProcOf(mid, s);
      && q == proc.(phase := Flushing(proc.phase.page, set c | c in put))
      && MidFlush(e, st, s, proc, put + [b]) == mid.(
           procs := mid.procs[s := q.(phase := Flushing(q.phase.page, q.phase.done + {b}))],
           lake := mid.lake[ObjectKey(q.batchKey, b) := SortByTime(InBucket(e, q.buffer, b))])
  {
    assert (set c | c in put + [b]) == (set c | c in put) + {b};
    assert (put + [b])[..|put|] == put;
    var q := proc.(phase := Flushing(proc.phase.page, set c | c in put));
    var q' := q.(phase := Flushing(q.phase.page, q.phase.done + {b}));
    assert st.procs[s := q][s := q'] == st.procs[s := q'];
  }

  lemma MidFlushNone(e: Env, st: State, s: Stream)
    requires ProcOf(st, s).Up? && ProcOf(st, s).phase.Flushing? && ProcOf(st, s).phase.done == {}
    ensures MidFlush(e, st, s, ProcOf(st, s), []) == st
  {
    var empty: seq<Bucket> := [];
    assert (set b | b in empty) == {};
    assert st.procs[s := ProcOf(st, s)] == st.procs;
  }

  lemma PutIsDue(e: Env, st: State, s: Stream, b: Bucket, rows: seq<Event>, before: seq<Bucket>)
    requires ProcOf(st, s).Up? && ProcOf(st, s).phase.Flushing?
    requires ProcOf(st, s).phase.done == (set c | c in before) && b !in before
    requires b in Targets(e, ProcOf(st, s).buffer) && multiset(rows) == multiset(InBucket(e, ProcOf(st, s).buffer, b))
    ensures CanMove(e, st, s, Put(b, rows))
  {
    hide Targets, InBucket;
  }

  /** The PUTs of one flush, as machine steps. */
  lemma {:induction false} PutSteps(e: Env, s: Stream, tr: Trace, put: seq<Bucket>) returns (tr': Trace)
    requires Recorded(e, tr) && s in e.streams
    requires ProcOf(tr.now, s).Up? && ProcOf(tr.now, s).phase.Flushing? && ProcOf(tr.now, s).phase.done == {}
    requires Distinct(put)
    requires forall b :: b in put ==> b in Targets(e, ProcOf(tr.now, s).buffer)
    ensures Recorded(e, tr') && tr'.start == tr.start
    ensures TallyOf(e, s, tr') == TallyOf(e, s, tr)
    ensures tr'.now == MidFlush(e, tr.now, s, ProcOf(tr.now, s), put)
    ensures forall w :: Beside(s, w, tr.now) ==> Beside(s, w, tr'.now)
    decreases |put|
  {
    hide Beside, Recorded, TallyOf, Apply, CanMove, Targets, InBucket, SortByTime, MidFlush;
    var proc := ProcOf(tr.now, s);
    if put == [] {
      tr' := tr;
      MidFlushNone(e, tr.now, s);
    } else {
      var n := |put| - 1;
      var b := put[n];
      var rows := SortByTime(InBucket(e, proc.buffer, b));
      tr' := PutSteps(e, s, tr, put[..n]);
      assert put == put[..n] + [b];
      MidFlushLast(e, tr.now, s, proc, put[..n], b);
      SortPermutes(InBucket(e, proc.buffer, b));
      assert b !in put[..n];
      PutIsDue(e, tr'.now, s, b, rows, put[..n]);
      PutStep(e, s, tr'.now, b, rows);
      tr' := Then(e, tr', Act(s, Put(b, rows)));
    }
  }

  /** A whole flush as machine steps, acknowledged if every object was PUT. */
  lemma FlushSteps(e: Env, s: Stream, tr: Trace, put: seq<Bucket>, ok: bool) returns (tr': Trace)
    requires Recorded(e, tr) && s in e.streams && CanMove(e, tr.now, s, BeginFlush)
    requires Distinct(put) && forall b :: b in put ==> b in Targets(e, ProcOf(tr.now, s).buffer)
    requires ok ==> forall b :: b in Targets(e, ProcOf(tr.now, s).buffer) ==> b in put
    ensures Recorded(e, tr') && tr'.start == tr.start && TallyOf(e, s, tr') == TallyOf(e, s, tr)
    ensures forall w :: Beside(s, w, tr.now) ==> Beside(s, w, tr'.now)
    ensures var proc, st := ProcOf(tr.now, s), tr'.now;
      && st.lake == PutAll(e, tr.now.lake, proc.batchKey, proc.buffer, put)
      && LogOf(st, s) == LogOf(tr.now, s) && st.store == tr.now.store && st.now == tr.now.now && ProcOf(st, s).Up?
      && (ok ==> ProcOf(st, s) == proc.(buffer := [], phase := Acked(proc.phase.page, proc.buffer)))
  {
    hide Beside, Recorded, TallyOf, InBucket, PutAll, Targets;
    var proc := ProcOf(tr.now, s);
    tr' := Then(e, tr, Act(s, BeginFlush));
    tr' := PutSteps(e, s, tr', put);
    if ok {
      assert (set b | b in put) == Targets(e, proc.buffer);
      tr' := Then(e, tr', Act(s, Ack));
    }
  }

  /** Flushes the open batch. On a failure some of its objects may have been PUT. */
  method FlushBatch(p: Parts, batchKey: Cursor, ghost proc: Proc, ghost tr: Trace)
    returns (ok: bool, ghost proc': Proc, ghost tr': Trace)
    requires Wired(p) && Recorded(p.env, tr) && Mirrors(p, tr.now, proc)
    requires proc.Up? && proc.phase.Written? && proc.buffer == p.sink.buffer && proc.batchKey == batchKey
    requires proc.phase.page.next.None? || p.sink.buffer != []
    modifies p.sink, p.sink.store
    ensures Wired(p) && Recorded(p.env, tr') && tr'.start == tr.start && Done(p, tr') == Done(p, tr)
    ensures proc'.Up? && Mirrors(p, tr'.now, proc') && Faults(p) == old(Faults(p)) + if ok then 0 else 1
    ensures ok ==> p.sink.buffer == [] && proc' == proc.(buffer := [], phase := Acked(proc.phase.page, proc.buffer))
  {
    hide Beside, Recorded, TallyOf, Targets, PutAll;
    ghost var put;
    ok, put := p.sink.Flush(batchKey);
    tr' := FlushSteps(p.env, p.stream, tr, put, ok);
    proc' := ProcOf(tr'.now, p.stream);
  }

  /** Commits an acknowledged batch, or, when the store fails, leaves all as it was. */
  method CommitAcked(p: Parts, version: string, ghost acked: Proc, ghost tr: Trace,
                     batchKey: Cursor, next: Option<Cursor>, pending: seq<string>)
    returns (ok: bool, ghost tr': Trace)
    requires Wired(p) && Recorded(p.env, tr) && Mirrors(p, tr.now, acked)
    requires acked.Up? && acked.phase.Acked? && acked.buffer == []
    requires acked.batchKey == batchKey && acked.pending == pending && acked.phase.page.next == next
    modifies p.store, p.clock
    ensures Wired(p) && Recorded(p.env, tr') && tr'.start == tr.start && old(p.clock.now) <= p.clock.now
    ensures Done(p, tr') == Done(p, tr).(commits := Done(p, tr).commits + if ok then 1 else 0)
    ensures Faults(p) == old(Faults(p)) + if ok then 0 else 1
    ensures !ok ==> p.store.Contents() == old(p.store.Contents()) && Mirrors(p, tr'.now, acked)
    ensures ok ==>
      && p.store.Contents() == StateSpec.Commit(old(p.store.Contents()), p.clock.now, p.env.ttl, p.stream, next, pending, version)
      && Mirrors(p, tr'.now, Up(acked.cursor, if next.Some? then next.value else batchKey, [], [], Settled(acked.phase.page)))
  {
    hide Beside, StateSpec.Commit, Targets, InBucket;
    var t;
    t, tr' := Tell(p, acked, tr);
    ok := p.store.Commit(t, p.stream, next, pending, version);
    if ok {
      tr' := Then(p.env, tr', Act(p.stream, CommitBatch(version)));
    }
  }

  /** The row of a stream just committed: where it goes on, the mapping that wrote it, and when. */
  ghost predicate Committed(row: Row, row': Row, next: Option<Cursor>, version: string, from: int, to: int) {
    && row'.committed && row'.cursor == next && row'.version == Some(version) && row'.published == row.published
    && row'.caughtUpAt.Some? && from <= row'.caughtUpAt.value <= to
  }

  lemma CommittedLater(row: Row, row': Row, next: Option<Cursor>, version: string, from: int, to: int, from': int, to': int)
    requires Committed(row, row', next, version, from, to) && from' <= from && to <= to'
    ensures Committed(row, row', next, version, from', to')
  {
  }

  lemma CommittedRow(st: Store, now: int, ttl: int, s: Stream, next: Option<Cursor>, uids: seq<string>, version: string)
    ensures Committed(RowOf(st, s), RowOf(StateSpec.Commit(st, now, ttl, s, next, uids, version), s), next, version, now, now)
  {
  }

  /** Flush, and only after its clean return commit. `ok` is false when either failed: then the stream
      has committed nothing and its row is where it was. */
  method FlushThenCommit(p: Parts, version: string, ghost proc: Proc, ghost tr: Trace,
                         batchKey: Cursor, next: Option<Cursor>, pending: seq<string>)
    returns (ok: bool, ghost tr': Trace)
    requires Wired(p) && Recorded(p.env, tr) && Mirrors(p, tr.now, proc)
    requires proc.Up? && proc.phase.Written? && proc.buffer == p.sink.buffer
    requires proc.batchKey == batchKey && proc.pending == pending && proc.phase.page.next == next
    requires next.None? || p.sink.buffer != []
    modifies p.sink, p.sink.store, p.store, p.clock, p.others
    ensures Wired(p) && Recorded(p.env, tr') && tr'.start == tr.start && old(p.clock.now) <= p.clock.now
    ensures Done(p, tr') == Done(p, tr).(commits := Done(p, tr).commits + if ok then 1 else 0)
    ensures Faults(p) == old(Faults(p)) + if ok then 0 else 1
    ensures !ok ==> RowOf(p.store.Contents(), p.stream) == old(RowOf(p.store.Contents(), p.stream))
    ensures !ok ==> ProcOf(tr'.now, p.stream).Up? && Mirrors(p, tr'.now, ProcOf(tr'.now, p.stream))
    ensures ok ==>
      && p.sink.buffer == []
      && Committed(old(RowOf(p.store.Contents(), p.stream)), RowOf(p.store.Contents(), p.stream), next, version,
                   old(p.clock.now), p.clock.now)
      && Mirrors(p, tr'.now, Up(proc.cursor, if next.Some? then next.value else batchKey, [], [], Settled(proc.phase.page)))
  {
    hide Beside, Recorded, TallyOf, RowOf, GetCursor, StateSpec.Commit;
    ghost var acked;
    ok, acked, tr' := FlushBatch(p, batchKey, proc, tr);
    if ok {
      tr' := Meanwhile(p, acked, tr');
      ghost var before := p.store.Contents();
      ok, tr' := CommitAcked(p, version, acked, tr', batchKey, next, pending);
      CommittedRow(before, p.clock.now, p.env.ttl, p.stream, next, pending, version);
    }
  }

  /** Records how new the page is and buffers what was kept of it. */
  method BufferKept(p: Parts, events: seq<Event>, kept: seq<Event>, ghost proc: Proc, ghost tr: Trace)
    returns (ok: bool, ghost tr': Trace)
    requires Wired(p) && Recorded(p.env, tr) && Mirrors(p, tr.now, proc)
    requires proc.Up? && proc.phase.Kept? && proc.phase.kept == kept && proc.buffer == p.sink.buffer
    modifies p.sink, p.sink.store, p.store, p.clock, p.others
    ensures Wired(p) && Recorded(p.env, tr') && tr'.start == tr.start && old(p.clock.now) <= p.clock.now
    ensures Faults(p) == old(Faults(p)) + if ok then 0 else 1
    ensures !ok ==> ProcOf(tr'.now, p.stream).Up? && Mirrors(p, tr'.now, ProcOf(tr'.now, p.stream))
    ensures ok ==>
      && Mirrors(p, tr'.now, Up(proc.cursor, proc.batchKey, proc.pending + Uids(kept), p.sink.buffer, Written(proc.phase.page)))
      && Done(p, tr') == Done(p, tr).(written := Done(p, tr).written + |kept|)
      && Observed(old(RowOf(p.store.Contents(), p.stream)), RowOf(p.store.Contents(), p.stream), events)
  {
    hide Beside, Recorded, TallyOf, RowOf, Observed;
    tr' := Meanwhile(p, proc, tr);
    ok, tr' := RecordNewest(p, events, proc, tr');
    if ok {
      ghost var proc';
      proc', tr' := WriteKept(p, kept, proc, tr');
    }
  }

  /** One page read: fetched, mapped, filtered and buffered. `served` is none when the fetch failed, and
      `read` is false when that or the store did. */
  method ReadPage(p: Parts, cursor: Cursor, pending: seq<string>, ghost proc: Proc, ghost tr: Trace)
    returns (read: bool, events: seq<Event>, kept: seq<Event>, next: Option<Cursor>, ghost served: Page, ghost tr': Trace)
    requires Wired(p) && Recorded(p.env, tr) && Mirrors(p, tr.now, proc)
    requires proc.Up? && proc.cursor == cursor && proc.phase.Ready? && proc.buffer == p.sink.buffer
    requires proc.pending == pending
    modifies p.source, p.sink, p.sink.store, p.store, p.clock, p.others
    ensures Wired(p) && Recorded(p.env, tr') && tr'.start == tr.start && old(p.clock.now) <= p.clock.now
    ensures Faults(p) == old(Faults(p)) + if read then 0 else 1
    ensures !read ==> ProcOf(tr'.now, p.stream).Up? && Mirrors(p, tr'.now, ProcOf(tr'.now, p.stream))
    ensures read ==>
      && |kept| <= |events|
      && served.events == events && served.next == next
      && Mirrors(p, tr'.now, Up(cursor, proc.batchKey, pending + Uids(kept), p.sink.buffer, Written(served)))
      && Done(p, tr') == Done(p, tr).(pages := Done(p, tr).pages + 1, mapped := Done(p, tr).mapped + |events|,
                                      written := Done(p, tr).written + |kept|)
    ensures read ==> Observed(old(RowOf(p.store.Contents(), p.stream)), RowOf(p.store.Contents(), p.stream), events)
    ensures read ==> 0 < old(p.source.Left(cursor))
    ensures read && next.Some? ==> p.source.Left(next.value) < old(p.source.Left(cursor))
  {
    hide Recorded, TallyOf, RowOf, Observed, Mirrors, Wired;
    events, kept, next := [], [], None;
    var page;
    tr' := Meanwhile(p, proc, tr);
    page, served, tr' := Poll(p, cursor, proc, tr');
    read := page.Some?;
    if !read {
      MirrorsProc(p, tr'.now, proc);
    } else {
      events := MapPage(p.source.mapRecord, page.value.records);
      next := page.value.next;
      tr' := Meanwhile(p, proc.(phase := Fetched(served)), tr');
      read, kept, tr' := KeepFresh(p, events, proc.(phase := Fetched(served)), tr');
      MirrorsProc(p, tr'.now, proc.(phase := if read then Kept(served, kept) else Fetched(served)));
    }
    if read {
      read, tr' := BufferKept(p, events, kept, proc.(phase := Kept(served, kept)), tr');
    }
  }

  /** Reclaims expired uids if the last time is long enough ago. */
  method PurgeIfDue(p: Parts, at: int, last: int, every: int, ghost proc: Proc, ghost tr: Trace)
    returns (ok: bool, last': int, ghost tr': Trace)
    requires Wired(p) && Recorded(p.env, tr) && Mirrors(p, tr.now, proc)
    modifies p.store, p.clock
    ensures Wired(p) && Recorded(p.env, tr') && tr'.start == tr.start && Mirrors(p, tr'.now, proc)
    ensures old(p.clock.now) <= p.clock.now && Done(p, tr') == Done(p, tr)
    ensures last' == if at - last >= every then at else last
    ensures p.store.Contents() ==
      if ok && at - last >= every then Purge(old(p.store.Contents()), p.clock.now) else old(p.store.Contents())
    ensures at - last < every ==> ok && p.clock.now == old(p.clock.now)
    ensures Faults(p) == old(Faults(p)) + if ok then 0 else 1
  {
    hide Beside, Recorded, TallyOf;
    ok, last', tr' := true, last, tr;
    if at - last >= every {
      last' := at;
      var t;
      t, tr' := Tell(p, proc, tr);
      var removed;
      ok, removed := p.store.PurgeExpired(t);
      if ok {
        tr' := Then(p.env, tr', PurgeExpired);
      }
    }
  }

  lemma PurgeLeavesLive(st: Store, now: int)
    ensures forall u :: u in Purge(st, now).seen ==> Purge(st, now).seen[u] > now
  {
  }

  lemma PurgeKeepsRows(st: Store, now: int, s: Stream)
    ensures RowOf(Purge(st, now), s) == RowOf(st, s)
  {
  }

  /** A purge long enough after the last leaves nothing expired behind, and is what the next counts from. */
  ghost predicate Purged(st: Store, at: int, last: int, last': int, every: int) {
    if at - last >= every then last' == at && forall u :: u in st.seen ==> st.seen[u] > at else last' == last
  }

  /** Flushes and commits, then purges if that is due. `committed` tells a failure before the commit from
      one after it. */
  method CommitDue(p: Parts, version: string, batchKey: Cursor, next: Option<Cursor>, pending: seq<string>,
                   lastPurgeAt: int, purgeEvery: int, ghost proc: Proc, ghost tr: Trace)
    returns (ok: bool, committed: bool, batchKey': Cursor, lastPurgeAt': int, openedAt: int, ghost tr': Trace)
    requires Wired(p) && Recorded(p.env, tr) && Mirrors(p, tr.now, proc)
    requires proc.Up? && proc.phase.Written? && proc.phase.page.next == next && proc.buffer == p.sink.buffer
    requires proc.batchKey == batchKey && proc.pending == pending && (next.None? || p.sink.buffer != [])
    modifies p.sink, p.sink.store, p.store, p.clock, p.others
    ensures Wired(p) && Recorded(p.env, tr') && tr'.start == tr.start && old(p.clock.now) <= p.clock.now
    ensures Done(p, tr') == Done(p, tr).(commits := Done(p, tr).commits + if committed then 1 else 0) && (ok ==> committed)
    ensures Faults(p) == old(Faults(p)) + if ok then 0 else 1
    ensures !ok ==> ProcOf(tr'.now, p.stream).Up? && Mirrors(p, tr'.now, ProcOf(tr'.now, p.stream))
    ensures ok ==>
      && Mirrors(p, tr'.now, Up(proc.cursor, batchKey', [], p.sink.buffer, Settled(proc.phase.page)))
      && Committed(old(RowOf(p.store.Contents(), p.stream)), RowOf(p.store.Contents(), p.stream), next, version,
                   old(p.clock.now), p.clock.now)
      && old(p.clock.now) <= openedAt <= p.clock.now
      && Purged(p.store.Contents(), openedAt, lastPurgeAt, lastPurgeAt', purgeEvery)
  {
    hide Beside, Recorded, TallyOf, RowOf, Purge, StateSpec.Commit;
    openedAt, lastPurgeAt', batchKey' := 0, lastPurgeAt, if next.Some? then next.value else batchKey;
    ok, tr' := FlushThenCommit(p, version, proc, tr, batchKey, next, pending);
    committed := ok;
    if ok {
      ghost var settled := Up(proc.cursor, batchKey', [], [], Settled(proc.phase.page));
      openedAt, tr' := Tell(p, settled, tr');
      tr' := Meanwhile(p, settled, tr');
      ghost var before := p.store.Contents();
      ok, lastPurgeAt', tr' := PurgeIfDue(p, openedAt, lastPurgeAt, purgeEvery, settled, tr');
      PurgeKeepsRows(before, p.clock.now, p.stream);
      PurgeLeavesLive(before, p.clock.now);
    }
  }

  /** Successive idle stamps are at least `every` apart. */
  ghost predicate Spaced(stamps: seq<int>, every: int) {
    forall i, j :: 0 <= i < |stamps| && 0 <= j < |stamps| && j == i + 1 ==> stamps[j] - stamps[i] >= every
  }

  /** The idle stamps so far, and the pacing variable that will space the next one. */
  ghost predicate Paced(stamps: seq<int>, last: Option<int>, now: int, every: int) {
    && Spaced(stamps, every)
    && (last.Some? ==> last.value <= now)
    && (stamps != [] ==> last.Some? && stamps[|stamps| - 1] <= last.value)
  }

  lemma PacedStays(stamps: seq<int>, last: Option<int>, now: int, last': Option<int>, now': int, every: nat)
    requires Paced(stamps, last, now, every) && now <= now'
    requires last' == last || (last'.Some? && now <= last'.value <= now')
    ensures Paced(stamps, last', now', every)
  {
  }

  lemma PacedStamp(stamps: seq<int>, last: Option<int>, now: int, t: int, every: nat)
    requires Paced(stamps, last, now, every) && (last.Some? ==> t - last.value >= every)
    ensures Paced(stamps + [t], Some(t), t, every)
  {
    forall i, j | 0 <= i && j == i + 1 && j < |stamps| + 1 ensures (stamps + [t])[j] - (stamps + [t])[i] >= every {
      if j < |stamps| {
        assert stamps[j] - stamps[i] >= every;
      }
    }
  }

  /** When page and buffer are both empty: stamp the stream caught up, if the last stamp or commit
      is long enough ago. A stamp that is due is taken, or the store failed. */
  method StampIfDue(p: Parts, last: Option<int>, every: nat, ghost stamps: seq<int>, ghost proc: Proc, ghost tr: Trace)
    returns (ok: bool, last': Option<int>, now: int, ghost stamps': seq<int>, ghost tr': Trace)
    requires Wired(p) && Recorded(p.env, tr) && Mirrors(p, tr.now, proc)
    requires proc.Up? && proc.phase.Settled? && proc.phase.page.next.Some?
    requires proc.phase.page.events == [] && proc.pending == []
    requires Paced(stamps, last, p.clock.now, every)
    modifies p.store, p.clock
    ensures Wired(p) && Recorded(p.env, tr') && tr'.start == tr.start && Mirrors(p, tr'.now, proc)
    ensures Paced(stamps', last', p.clock.now, every) && Done(p, tr') == Done(p, tr) && old(p.clock.now) <= now <= p.clock.now
    ensures Faults(p) == old(Faults(p)) + if ok then 0 else 1
    ensures var due := last.None? || now - last.value >= every;
      if !due then ok && last' == last && stamps' == stamps && p.store.Contents() == old(p.store.Contents())
      else if !ok then stamps' == stamps && p.store.Contents() == old(p.store.Contents())
      else (last' == Some(now) && stamps' == stamps + [now]
        && p.store.Contents() == StateSpec.MarkCaughtUp(old(p.store.Contents()), p.clock.now, p.stream))
  {
    hide Beside, Recorded, TallyOf, Paced, MapAll, Targets, InBucket, Filtered;
    now, tr' := Tell(p, proc, tr);
    ok, last', stamps' := true, last, stamps;
    PacedStays(stamps, last, old(p.clock.now), last, now, every);
    if last.None? || now - last.value >= every {
      last' := Some(now);
      var t;
      t, tr' := Tell(p, proc, tr');
      ok := p.store.MarkCaughtUp(t, p.stream);
      if ok {
        PacedStamp(stamps, last, now, now, every);
        stamps' := stamps + [now];
        tr' := Then(p.env, tr', Act(p.stream, Stamp));
        PacedStays(stamps', last', now, last', t, every);
      } else {
        PacedStays(stamps, last, now, last', t, every);
      }
    }
  }

  ghost predicate Large(sink: SecurityLakeSink)
    reads sink
  {
    sink.buffer != [] && TotalSize(sink.sizeOf, sink.buffer) >= sink.maxBytes
  }

  ghost predicate Old(sink: SecurityLakeSink, now: int)
    reads sink
  {
    sink.buffer != [] && sink.openedAt.Some? && now - sink.openedAt.value >= sink.maxSeconds
  }

  /** After a page is buffered: flush and commit if the range ended or a flush is due. */
  method SettlePage(p: Parts, version: string, batchKey: Cursor, next: Option<Cursor>, pending: seq<string>,
                    lastPurgeAt: int, lastCaughtUpAt: Option<int>, purgeEvery: int, ghost proc: Proc, ghost tr: Trace)
    returns (ok: bool, committed: bool, batchKey': Cursor, pending': seq<string>,
             lastPurgeAt': int, lastCaughtUpAt': Option<int>, ghost asked: int, ghost tr': Trace)
    requires Wired(p) && Recorded(p.env, tr) && Mirrors(p, tr.now, proc)
    requires proc.Up? && proc.phase.Written? && proc.phase.page.next == next && proc.buffer == p.sink.buffer
    requires proc.batchKey == batchKey && proc.pending == pending
    modifies p.sink, p.sink.store, p.store, p.clock, p.others
    ensures Wired(p) && Recorded(p.env, tr') && tr'.start == tr.start && old(p.clock.now) <= p.clock.now
    ensures Done(p, tr') == Done(p, tr).(commits := Done(p, tr).commits + if committed then 1 else 0)
    ensures !ok ==> ProcOf(tr'.now, p.stream).Up? && Mirrors(p, tr'.now, ProcOf(tr'.now, p.stream))
    ensures ok ==> Mirrors(p, tr'.now, Up(proc.cursor, batchKey', pending', p.sink.buffer, Settled(proc.phase.page)))
    ensures Faults(p) == old(Faults(p)) + if ok then 0 else 1
    // A commit, exactly if the range ended or the buffer was large or old enough when asked.
    ensures old(p.clock.now) <= asked <= p.clock.now
    ensures ok ==> (committed <==> next.None? || old(Large(p.sink) || Old(p.sink, asked)))
    ensures ok ==>
      var row, row' := old(RowOf(p.store.Contents(), p.stream)), RowOf(p.store.Contents(), p.stream);
      if committed then
        && Committed(row, row', next, version, old(p.clock.now), p.clock.now)
        && lastCaughtUpAt'.Some? && asked <= lastCaughtUpAt'.value <= p.clock.now
        && Purged(p.store.Contents(), lastCaughtUpAt'.value, lastPurgeAt, lastPurgeAt', purgeEvery)
      else row' == row && lastCaughtUpAt' == lastCaughtUpAt && lastPurgeAt' == lastPurgeAt
  {
    hide Beside, Recorded, TallyOf, RowOf, Committed, Purged, TotalSize;
    ok, committed, batchKey', pending', lastPurgeAt', lastCaughtUpAt' := true, false, batchKey, pending, lastPurgeAt, lastCaughtUpAt;
    var now;
    tr' := Meanwhile(p, proc, tr);
    now, tr' := Tell(p, proc, tr');
    asked := now;
    ghost var from, before := old(p.clock.now), RowOf(p.store.Contents(), p.stream);
    var due := p.sink.ShouldFlush(now);
    if next.None? || due {
      var openedAt;
      ok, committed, batchKey', lastPurgeAt', openedAt, tr' :=
        CommitDue(p, version, batchKey, next, pending, lastPurgeAt, purgeEvery, proc, tr');
      if ok {
        pending', lastCaughtUpAt' := [], Some(openedAt);
        CommittedLater(before, RowOf(p.store.Contents(), p.stream), next, version, now, p.clock.now, from, p.clock.now);
      }
    } else {
      tr' := Then(p.env, tr', Act(p.stream, Skip));
    }
  }

  /** The loop's local variables. */
  datatype Locals = Locals(
    cursor: Cursor, batchKey: Cursor, pending: seq<string>,
    lastPurgeAt: int, lastCaughtUpAt: Option<int>)

  ghost function AtTop(p: Parts, v: Locals): Proc
    reads p.sink
  {
    Up(v.cursor, v.batchKey, v.pending, p.sink.buffer, Ready)
  }

  datatype TurnEnd = Carries | Exhausted | Failed

  /** What a stream has done, from `t` on, if the counters of the run are right. */
  function Counting(t: Tally, s: RunStats): Tally {
    Tally(t.pages + s.pages, t.mapped + s.mapped, t.written + s.written, t.commits + s.commits)
  }

  /** What the counters say after any number of turns. */
  predicate Tallied(s: RunStats) {
    s.mapped == s.written + s.duplicates && s.commits <= s.pages && s.stoppedBy.None?
  }

  /** A stamp is only for a stream that has committed. */
  ghost predicate Stamped(row: Row, row': Row, from: int, to: int) {
    if row.committed then
      row'.(caughtUpAt := row.caughtUpAt) == row && row'.caughtUpAt.Some? && from <= row'.caughtUpAt.value <= to
    else row' == row
  }

  lemma StampedRow(st: Store, now: int, s: Stream)
    ensures Stamped(RowOf(st, s), RowOf(StateSpec.MarkCaughtUp(st, now, s), s), now, now)
  {
  }

  /** Moves to the next cursor, stamping first if the page was empty and nothing is buffered. */
  method MoveOn(p: Parts, events: seq<Event>, pending: seq<string>, last: Option<int>, every: nat, ghost stamps: seq<int>, ghost proc: Proc, ghost tr: Trace)
    returns (ok: bool, last': Option<int>, ghost asked: int, ghost stamps': seq<int>, ghost tr': Trace)
    requires Wired(p) && Recorded(p.env, tr) && Mirrors(p, tr.now, proc)
    requires proc.Up? && proc.phase.Settled? && proc.phase.page.next.Some? && proc.phase.page.events == events
    requires proc.pending == pending && Paced(stamps, last, p.clock.now, every)
    modifies p.others, p.sink.store, p.store, p.clock
    ensures Wired(p) && Recorded(p.env, tr') && tr'.start == tr.start && Done(p, tr') == Done(p, tr)
    ensures Mirrors(p, tr'.now, if ok then proc.(cursor := proc.phase.page.next.value, phase := Ready) else proc)
    ensures Paced(stamps', last', p.clock.now, every)
    ensures old(p.clock.now) <= asked <= p.clock.now && Faults(p) == old(Faults(p)) + if ok then 0 else 1
    ensures ok ==>
      var row, row' := old(RowOf(p.store.Contents(), p.stream)), RowOf(p.store.Contents(), p.stream);
      if events == [] && pending == [] && (last.None? || asked - last.value >= every)
      then last' == Some(asked) && Stamped(row, row', asked, p.clock.now)
      else last' == last && row' == row
  {
    hide Beside, Recorded, TallyOf, RowOf, StateSpec.MarkCaughtUp;
    ok, last', stamps' := true, last, stamps;
    tr' := Meanwhile(p, proc, tr);
    asked := p.clock.now;
    ghost var mid := p.store.Contents();
    PacedStays(stamps, last, old(p.clock.now), last, p.clock.now, every);
    if events == [] && pending == [] {
      var now;
      ok, last', now, stamps', tr' := StampIfDue(p, last, every, stamps, proc, tr');
      asked := now;
      StampedRow(mid, p.clock.now, p.stream);
    }
    if ok {
      tr' := Then(p.env, tr', Act(p.stream, Advance));
    }
  }

  /** What a turn leaves in its stream's row, a commit or not. */
  ghost predicate TurnsRow(row: Row, row': Row, committed: bool, next: Option<Cursor>, version: string) {
    if committed then row'.committed && row'.version == Some(version) && row'.cursor == next
    else row'.committed == row.committed && row'.version == row.version && row'.cursor == row.cursor
  }

  lemma RowsOfTurn(row: Row, read: Row, settled: Row, row': Row, events: seq<Event>, committed: bool,
                   next: Option<Cursor>, version: string, from: int, to: int, from': int, to': int)
    requires Observed(row, read, events)
    requires if committed then Committed(read, settled, next, version, from, to) else settled == read
    requires row' == settled || Stamped(settled, row', from', to')
    ensures TurnsRow(row, row', committed, next, version)
  {
  }

  /** One turn of the loop, from one page to the next. */
  method Turn(p: Parts, version: string, purgeEvery: int, caughtUpEvery: nat, v: Locals, s: RunStats,
              ghost stamps: seq<int>, ghost before: Tally, ghost tr: Trace)
    returns (end: TurnEnd, v': Locals, s': RunStats, ghost committedAt: int, ghost idleAt: int, ghost stamps': seq<int>, ghost tr': Trace)
    requires Wired(p) && Recorded(p.env, tr) && Mirrors(p, tr.now, AtTop(p, v))
    requires Tallied(s) && Done(p, tr) == Counting(before, s)
    requires Paced(stamps, v.lastCaughtUpAt, p.clock.now, caughtUpEvery)
    modifies p.source, p.sink, p.sink.store, p.store, p.clock, p.others
    ensures Wired(p) && Recorded(p.env, tr') && tr'.start == tr.start
    ensures end.Carries? ==> Mirrors(p, tr'.now, AtTop(p, v')) && p.source.Left(v'.cursor) < old(p.source.Left(v.cursor))
    ensures ProcOf(tr'.now, p.stream).Up? && Mirrors(p, tr'.now, ProcOf(tr'.now, p.stream))
    ensures !end.Failed? ==> Tallied(s') && s'.pages == s.pages + 1 && (s'.exhausted <==> end.Exhausted?)
    ensures !end.Failed? ==> Done(p, tr') == Counting(before, s') && 0 < old(p.source.Left(v.cursor))
    ensures Faults(p) == old(Faults(p)) + (if end.Failed? then 1 else 0) && s'.stoppedBy == s.stoppedBy
    ensures end.Exhausted? ==> s'.commits == s.commits + 1
    ensures !end.Failed? ==> s.commits <= s'.commits
    ensures !end.Failed? ==>
      TurnsRow(old(RowOf(p.store.Contents(), p.stream)), RowOf(p.store.Contents(), p.stream), s'.commits > s.commits,
               if end.Carries? then Some(v'.cursor) else None, version)
    ensures end.Carries? ==>
      v'.lastPurgeAt == if s'.commits > s.commits && committedAt - v.lastPurgeAt >= purgeEvery then committedAt else v.lastPurgeAt
    // After an idle page the last stamp or commit is not long ago.
    ensures end.Carries? && s'.mapped == s.mapped && v'.pending == [] ==>
      v'.lastCaughtUpAt.Some? && (v'.lastCaughtUpAt.value == idleAt || idleAt - v'.lastCaughtUpAt.value < caughtUpEvery)
    ensures old(p.clock.now) <= committedAt <= p.clock.now && old(p.clock.now) <= idleAt <= p.clock.now
    ensures Paced(stamps', v'.lastCaughtUpAt, p.clock.now, caughtUpEvery)
  {
    hide Beside, Recorded, TallyOf, RowOf, CanMove, Large, Old, Observed, Committed, Stamped, TurnsRow, Wired, Mirrors;
    v', s', stamps', committedAt, idleAt := v, s, stamps, p.clock.now, p.clock.now;
    var read, events, kept, next;
    ghost var served;
    read, events, kept, next, served, tr' := ReadPage(p, v.cursor, v.pending, AtTop(p, v), tr);
    PacedStays(stamps, v.lastCaughtUpAt, old(p.clock.now), v.lastCaughtUpAt, p.clock.now, caughtUpEvery);
    if !read {
      return Failed, v', s', committedAt, idleAt, stamps, tr';
    }
    ghost var midway, row, readRow := p.clock.now, old(RowOf(p.store.Contents(), p.stream)), RowOf(p.store.Contents(), p.stream);
    s' := s.(pages := s.pages + 1, mapped := s.mapped + |events|, written := s.written + |kept|,
             duplicates := s.duplicates + |events| - |kept|, exhausted := next.None?);
    var pending := v.pending + Uids(kept);
    ghost var written := Up(v.cursor, v.batchKey, pending, p.sink.buffer, Written(served));
    var ok, committed, batchKey, lastPurgeAt, lastCaughtUpAt;
    ghost var asked;
    ok, committed, batchKey, pending, lastPurgeAt, lastCaughtUpAt, asked, tr' :=
      SettlePage(p, version, v.batchKey, next, pending, v.lastPurgeAt, v.lastCaughtUpAt, purgeEvery, written, tr');
    PacedStays(stamps, v.lastCaughtUpAt, midway, v.lastCaughtUpAt, p.clock.now, caughtUpEvery);
    if !ok {
      return Failed, v', s', committedAt, idleAt, stamps, tr';
    }
    PacedStays(stamps, v.lastCaughtUpAt, midway, lastCaughtUpAt, p.clock.now, caughtUpEvery);
    s' := if committed then s'.(commits := s.commits + 1) else s';
    committedAt := if committed then lastCaughtUpAt.value else midway;
    ghost var settledAt, settledRow := p.clock.now, RowOf(p.store.Contents(), p.stream);
    ghost var settled := Up(v.cursor, batchKey, pending, p.sink.buffer, Settled(served));
    if next.None? {
      MirrorsProc(p, tr'.now, settled);
      RowsOfTurn(row, readRow, settledRow, settledRow, events, committed, next, version, midway, settledAt, settledAt, settledAt);
      return Exhausted, v', s', committedAt, idleAt, stamps, tr';
    }
    ok, lastCaughtUpAt, idleAt, stamps', tr' := MoveOn(p, events, pending, lastCaughtUpAt, caughtUpEvery, stamps, settled, tr');
    v' := Locals(next.value, batchKey, pending, lastPurgeAt, lastCaughtUpAt);
    MirrorsProc(p, tr'.now, if ok then settled.(cursor := next.value, phase := Ready) else settled);
    if ok {
      RowsOfTurn(row, readRow, settledRow, RowOf(p.store.Contents(), p.stream), events, committed, next, version,
                 midway, settledAt, idleAt, p.clock.now);
    }
    end := if ok then Carries else Failed;
  }

  predicate Counted(s: RunStats, maxPages: Option<nat>) {
    s.mapped == s.written + s.duplicates && s.commits <= s.pages && (maxPages.Some? ==> s.pages <= maxPages.value)
  }

  /** What the counters of a run that returned say. */
  predicate Sound(s: RunStats, maxPages: Option<nat>) {
    && s.mapped == s.written + s.duplicates
    && !(s.exhausted && s.stoppedBy.Some?)
    && s.commits <= s.pages
    && (s.exhausted ==> s.commits > 0)
    && (maxPages.Some? ==> s.pages <= maxPages.value)
    && (s.stoppedBy.None? && !s.exhausted ==> maxPages == Some(s.pages))
  }

  /** What a run leaves in its stream's row: if it committed, the mapping it used, and a cursor unless the
      range ended; otherwise what was there. */
  ghost predicate LeavesRow(row: Row, row': Row, s: RunStats, version: string) {
    if s.commits > 0 then row'.committed && row'.version == Some(version) && (row'.cursor.None? <==> s.exhausted)
    else row'.committed == row.committed && row'.version == row.version && row'.cursor == row.cursor
  }

  /** The signal a run that was stopped reports. */
  function Stopping(stats: Option<RunStats>): seq<int> {
    if stats.Some? && stats.value.stoppedBy.Some? then [stats.value.stoppedBy.value] else []
  }

  lemma MirrorsProc(p: Parts, st: State, proc: Proc)
    requires Mirrors(p, st, proc)
    ensures ProcOf(st, p.stream) == proc
  {
    hide Beside, Recorded, TallyOf;
  }

  /** The loop itself, from an opened process to wherever it ends. It fetches one page a turn, and over
      a finite chain no more pages than the chain has. */
  method Loop(p: Parts, version: string, maxPages: Option<nat>, purgeEvery: int, caughtUpEvery: nat,
              first: Locals, ghost start: Trace)
    returns (stats: Option<RunStats>, ghost tr: Trace, ghost stamps: seq<int>)
    requires Wired(p) && Recorded(p.env, start) && Mirrors(p, start.now, AtTop(p, first))
    requires first.lastCaughtUpAt.None?
    modifies p.source, p.sink, p.sink.store, p.store, p.clock, p.stop, p.others
    ensures Wired(p) && Recorded(p.env, tr) && tr.start == start.start
    ensures ProcOf(tr.now, p.stream).Up? && Mirrors(p, tr.now, ProcOf(tr.now, p.stream))
    ensures stats.Some? ==> Sound(stats.value, maxPages)
    ensures Faults(p) == old(Faults(p)) + if stats.Some? then 0 else 1
    ensures p.stop.heard == old(p.stop.heard) + Stopping(stats)
    ensures stats.Some? ==> Done(p, tr) == Counting(Done(p, start), stats.value)
    ensures stats.Some? ==> stats.value.pages <= old(p.source.Left(first.cursor))
    ensures stats.Some? ==>
      LeavesRow(old(RowOf(p.store.Contents(), p.stream)), RowOf(p.store.Contents(), p.stream), stats.value, version)
    ensures Spaced(stamps, caughtUpEvery)
  {
    hide Mirrors, Recorded, TallyOf, RowOf, Faults, Wired, Legal, Exec;
    MirrorsProc(p, start.now, AtTop(p, first));
    var v, s := first, RunStats(0, 0, 0, 0, 0, false, None);
    tr, stamps := start, [];
    var end := Carries;
    while end.Carries? && s.stoppedBy.None? && (maxPages.None? || s.pages < maxPages.value)
      invariant Wired(p) && Recorded(p.env, tr) && tr.start == start.start
      invariant end.Carries? ==> Mirrors(p, tr.now, AtTop(p, v))
      invariant Faults(p) == old(Faults(p)) + if end.Failed? then 1 else 0
      invariant p.stop.heard == old(p.stop.heard) + if s.stoppedBy.Some? then [s.stoppedBy.value] else []
      invariant end.Failed? ==> s.stoppedBy.None?
      invariant ProcOf(tr.now, p.stream).Up? && Mirrors(p, tr.now, ProcOf(tr.now, p.stream))
      invariant !end.Failed? ==> Counted(s, maxPages) && (s.exhausted <==> end.Exhausted?)
      invariant !end.Failed? ==> Done(p, tr) == Counting(Done(p, start), s)
      invariant !end.Failed? ==>
        s.pages + (if end.Carries? then p.source.Left(v.cursor) else 0) <= old(p.source.Left(first.cursor))
      invariant end.Exhausted? ==> s.stoppedBy.None? && s.commits > 0
      invariant !end.Failed? ==>
        LeavesRow(old(RowOf(p.store.Contents(), p.stream)), RowOf(p.store.Contents(), p.stream), s, version)
      invariant Paced(stamps, v.lastCaughtUpAt, p.clock.now, caughtUpEvery)
      decreases end.Carries?, s.stoppedBy.None?, p.source.Left(v.cursor)
    {
      var signal := p.stop.Read();
      if signal.Some? {
        s := s.(stoppedBy := signal);
      } else {
        ghost var committedAt, idleAt;
        end, v, s, committedAt, idleAt, stamps, tr := Turn(p, version, purgeEvery, caughtUpEvery, v, s, stamps, Done(p, start), tr);
      }
    }
    stats := if end.Failed? then None else Some(s);
  }

  /** Where a run starts: the stored cursor, or the opening one if there is none. `ok` is false when the
      store could not say, or the opening was refused. */
  method Resume(p: Parts) returns (ok: bool, cursor: Cursor)
    requires Wired(p)
    modifies p.source`faults, p.store`faults
    ensures Wired(p) && p.store.Contents() == old(p.store.Contents()) && Faults(p) == old(Faults(p)) + if ok then 0 else 1
    ensures ok ==> cursor == match GetCursor(p.store.Contents(), p.stream)
      case Some(c) => c
      case None => p.env.opening(p.stream)
  {
    var stored;
    ok, stored := p.store.GetCursor(p.stream);
    if ok && stored.Some? {
      return ok, stored.value;
    }
    cursor := p.env.opening(p.stream);
    if ok {
      ok, cursor := p.source.Opening();
    }
  }

  /** Drives one stream until its range ends, a stop is asked for, `maxPages` is reached, or something
      fails (`stats` is then `None`). Whatever happens, the trace is a legal run of the machine from
      the state the store was opened in to the state the collaborators are left in. */
  method Run(p: Parts, version: string, maxPages: Option<nat>, purgeEvery: int, caughtUpEvery: nat, ghost before: State)
    returns (stats: Option<RunStats>, ghost tr: Trace, ghost stamps: seq<int>)
    requires Wired(p) && p.sink.buffer == [] && Mirrors(p, before, Down)
    modifies p.source, p.sink, p.sink.store, p.store, p.clock, p.stop, p.others
    ensures Wired(p) && Recorded(p.env, tr) && Mirrors(p, tr.now, Down)
    ensures tr.start == Opened(p.env, before, p.stream)
    ensures stats.Some? ==> Sound(stats.value, maxPages)
    // Nothing is returned exactly if a call failed, and then it was the last.
    ensures Faults(p) == old(Faults(p)) + if stats.Some? then 0 else 1
    ensures p.stop.heard == old(p.stop.heard) + Stopping(stats)
    // The counters are what the steps add up to.
    ensures stats.Some? ==> stats.value.pages == Fetches(p.stream, tr.acts) && stats.value.commits == CommitsIn(p.stream, tr.acts)
    ensures stats.Some? ==> stats.value.mapped == MappedIn(p.env, p.stream, tr.start, tr.acts)
    ensures stats.Some? ==> stats.value.written == WrittenIn(p.env, p.stream, tr.start, tr.acts)
    ensures stats.Some? ==> stats.value.pages <= old(p.source.Left(Start(p.env, before, p.stream)))
    ensures stats.Some? && stats.value.exhausted ==> Finished(p.store.Contents(), p.stream)
    ensures stats.Some? ==>
      LeavesRow(old(RowOf(p.store.Contents(), p.stream)), RowOf(p.store.Contents(), p.stream), stats.value, version)
    ensures Spaced(stamps, caughtUpEvery)
  {
    hide Beside, Recorded, TallyOf, RowOf, GetCursor, Apply, Enabled;
    ghost var start := Opened(p.env, before, p.stream);
    stats, tr, stamps := None, Trace(start, [], start), [];
    OpensAlone(p, before, tr);
    var ok, cursor := Resume(p);
    if ok {
      var openedAt;
      openedAt, tr := Tell(p, Up(cursor, cursor, [], [], Ready), tr);
      var first := Locals(cursor, cursor, [], openedAt, None);
      stats, tr, stamps := Loop(p, version, maxPages, purgeEvery, caughtUpEvery, first, tr);
    }
    tr := Dead(p, tr);
    Totals(p, tr);
  }

  lemma Totals(p: Parts, tr: Trace)
    requires Recorded(p.env, tr)
    ensures Recorded(p.env, tr) && Done(p, tr) ==
      Tally(Fetches(p.stream, tr.acts), MappedIn(p.env, p.stream, tr.start, tr.acts),
            WrittenIn(p.env, p.stream, tr.start, tr.acts), CommitsIn(p.stream, tr.acts))
    ensures Legal(p.env, tr.start, tr.acts)
  {
  }

  lemma OpensAlone(p: Parts, before: State, tr: Trace)
    requires Mirrors(p, before, Down) && tr == Trace(Opened(p.env, before, p.stream), [], Opened(p.env, before, p.stream))
    ensures var start := Start(p.env, before, p.stream);
      Recorded(p.env, tr) && Mirrors(p, tr.now, Up(start, start, [], [], Ready))
    ensures Done(p, tr) == Tally(0, 0, 0, 0)
  {
    hide Beside;
    OpenedBeside(p.env, p.stream, p.others.Picture(), before);
  }

  lemma Dead(p: Parts, tr: Trace) returns (tr': Trace)
    requires p.stream in p.env.streams && Recorded(p.env, tr) && Mirrors(p, tr.now, ProcOf(tr.now, p.stream))
    ensures Recorded(p.env, tr') && tr'.start == tr.start && Mirrors(p, tr'.now, Down) && Done(p, tr') == Done(p, tr)
  {
    hide Beside, Recorded, TallyOf;
    tr' := Then(p.env, tr, Halt(p.stream));
  }
}
