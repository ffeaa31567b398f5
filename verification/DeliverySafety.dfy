/** Nothing is lost: an invariant of every step, for any interleaving of any number of streams that
    share one seen-set, crashes and replays included. */
module DeliverySafety {
  import opened Domain
  import opened StateSpec
  import opened Protocol

  // ----- what survives a step -----

  lemma AllDeliveredStay(e: Env, st: State, st': State)
    requires Extends(e, st, st')
    ensures forall u :: Delivered(e, st, u) ==> Delivered(e, st', u)
  {
    forall u | Delivered(e, st, u) ensures Delivered(e, st', u) {
      DeliveredStays(e, st, st', u);
    }
  }

  lemma CoveredStays(e: Env, st: State, st': State, log: seq<Event>, log': seq<Event>, lo: int, hi: int, held: seq<Event>)
    requires Extends(e, st, st') && log <= log' && hi <= |log|
    requires Covered(e, st, log, lo, hi, held)
    ensures Covered(e, st', log', lo, hi, held)
  {
    AllDeliveredStay(e, st, st');
    forall i | lo <= i < hi && 0 <= i < |log'| ensures HasUid(held, log'[i].uid) || Delivered(e, st', log'[i].uid) {
      assert log[i] == log'[i];
    }
  }

  lemma DrawnStays(log: seq<Event>, log': seq<Event>, lo: int, hi: int, held: seq<Event>)
    requires log <= log' && Drawn(log, lo, hi, held)
    ensures Drawn(log', lo, hi, held)
  {
    forall ev | ev in held ensures InRange(log', lo, hi, ev) {
      var i :| lo <= i < hi && 0 <= i < |log| && log[i] == ev;
      assert log'[i] == ev;
    }
  }

  /** What no other stream's step may touch of `s`. */
  ghost predicate SameFor(e: Env, st: State, st': State, s: Stream) {
    && ProcOf(st', s) == ProcOf(st, s)
    && UptoOf(st', s) == UptoOf(st, s)
    && GetCursor(st'.store, s) == GetCursor(st.store, s)
    && (Finished(st'.store, s) <==> Finished(st.store, s))
    && (forall k: ObjectKey :: e.owner(k.batch) == s ==>
          (k in st'.lake <==> k in st.lake) && (k in st.lake ==> st'.lake[k] == st.lake[k]))
  }

  /** A process's own phase is untouched by what keeps its objects and its log. */
  lemma PhaseOkStays(e: Env, st: State, st': State, s: Stream, p: Proc)
    requires p.Up? && PhaseOk(e, st, s, p) && (p.phase.Flushing? || p.phase.Acked? ==> e.owner(p.batchKey) == s)
    requires p.phase.Kept? ==> p.phase.page.end <= |LogOf(st, s)|
    requires Extends(e, st, st') && SameFor(e, st, st', s)
    ensures PhaseOk(e, st', s, p)
  {
    hide Covered, Drawn, Targets, InBucket;
    if p.phase.Kept? {
      var log, log' := LogOf(st, s), LogOf(st', s);
      CoveredStays(e, st, st', log, log', e.pos(p.cursor), p.phase.page.end, p.phase.kept);
      DrawnStays(log, log', e.pos(p.cursor), p.phase.page.end, p.phase.kept);
    }
  }

  lemma PageOkStays(e: Env, st: State, st': State, s: Stream, cursor: Cursor, page: Page)
    requires PageOk(e, st, s, cursor, page) && LogOf(st, s) <= LogOf(st', s)
    ensures PageOk(e, st', s, cursor, page)
  {
    assert LogOf(st', s)[e.pos(cursor)..page.end] == LogOf(st, s)[e.pos(cursor)..page.end];
  }

  lemma ProcOkStays(e: Env, st: State, st': State, s: Stream)
    requires Base(e, st) && s in e.streams && ProcOk(e, st, s)
    requires Extends(e, st, st') && SameFor(e, st, st', s)
    ensures ProcOk(e, st', s)
  {
    hide Covered, Drawn, PhaseOk, PageOk;
    var p := ProcOf(st, s);
    if p.Up? {
      var log, log' := LogOf(st, s), LogOf(st', s);
      ReachedInLog(e, st, s);
      CoveredStays(e, st, st', log, log', UptoOf(st, s), Reached(e, p), Held(p));
      DrawnStays(log, log', UptoOf(st, s), Reached(e, p), Held(p));
      if !p.phase.Ready? {
        PageOkStays(e, st, st', s, p.cursor, p.phase.page);
      }
      PhaseOkStays(e, st, st', s, p);
    }
  }

  lemma ReachedInLog(e: Env, st: State, s: Stream)
    requires Base(e, st) && s in e.streams && ProcOk(e, st, s) && ProcOf(st, s).Up?
    ensures Reached(e, ProcOf(st, s)) <= |LogOf(st, s)|
    ensures !ProcOf(st, s).phase.Ready? ==> ProcOf(st, s).phase.page.end <= |LogOf(st, s)|
    ensures ProcOf(st, s).phase.Flushing? || ProcOf(st, s).phase.Acked? ==> e.owner(ProcOf(st, s).batchKey) == s
  {
    hide Covered, Drawn, PhaseOk;
  }

  /** Until its commit, a live process writes at its stream's start, which is exactly the committed
      position. */
  ghost predicate AtOpenKey(e: Env, st: State, s: Stream, m: Move) {
    (m.Put? || m.CommitBatch?) && ProcOf(st, s).Up? && !ProcOf(st, s).phase.Ready? ==>
      var p := ProcOf(st, s);
      && p.batchKey == Start(e, st, s) && e.owner(p.batchKey) == s
      && e.pos(p.batchKey) == UptoOf(st, s) <= p.phase.page.end <= |LogOf(st, s)|
      && !Finished(st.store, s)
      && (p.phase.page.next.Some? ==>
            e.owner(p.phase.page.next.value) == s && e.pos(p.phase.page.next.value) == p.phase.page.end)
  }

  lemma OpenKey(e: Env, st: State, s: Stream, m: Move)
    requires Base(e, st) && s in e.streams && ProcOk(e, st, s) && CanMove(e, st, s, m)
    ensures AtOpenKey(e, st, s, m)
  {
  }

  lemma MoveExtends(e: Env, st: State, s: Stream, m: Move)
    requires CanMove(e, st, s, m) && AtOpenKey(e, st, s, m)
    ensures Extends(e, st, Moved(e, st, s, m))
  {
    match m
    case Put(b, rows) => assert !Closed(e, st, ObjectKey(ProcOf(st, s).batchKey, b));
    case CommitBatch(_) =>
    case _ =>
  }

  lemma QuietStore(e: Env, st: State, s: Stream, m: Move, t: Stream)
    requires CanMove(e, st, s, m) && (m.CommitBatch? ==> s != t)
    ensures GetCursor(Moved(e, st, s, m).store, t) == GetCursor(st.store, t)
    ensures Finished(Moved(e, st, s, m).store, t) <==> Finished(st.store, t)
  {
  }

  lemma MoveLog(e: Env, st: State, s: Stream, m: Move)
    requires CanMove(e, st, s, m)
    ensures LogOf(Moved(e, st, s, m), s) == LogOf(st, s)
  {
    hide Filtered, InBucket, Targets, Commit;
  }

  lemma QuietSeenMove(e: Env, st: State, s: Stream, m: Move)
    requires CanMove(e, st, s, m) && !m.CommitBatch?
    ensures Moved(e, st, s, m).store.seen == st.store.seen && Moved(e, st, s, m).upto == st.upto
  {
    hide Filtered, InBucket, Targets;
  }

  /** Other steps change neither what is held nor how far it reaches. */
  lemma QuietHolds(e: Env, st: State, s: Stream, m: Move)
    requires ProcOk(e, st, s) && CanMove(e, st, s, m) && !m.Filter? && !m.Write? && !m.CommitBatch?
    ensures var p, p' := ProcOf(st, s), ProcOf(Moved(e, st, s, m), s);
      && p.Up? && p'.Up? && Held(p') == Held(p) && Reached(e, p') == Reached(e, p)
      && (p'.phase.Kept? ==> p == p')
  {
    hide Covered, Drawn, PhaseOk, Filtered, InBucket, Targets;
  }

  lemma QuietReach(e: Env, st: State, s: Stream, m: Move)
    requires ProcOk(e, st, s) && CanMove(e, st, s, m) && !m.Write? && !m.CommitBatch?
    ensures var p, p' := ProcOf(st, s), ProcOf(Moved(e, st, s, m), s);
      p'.Up? && Reached(e, p') == Reached(e, p) && LogOf(Moved(e, st, s, m), s) == LogOf(st, s)
  {
    hide Covered, Drawn, PhaseOk, Filtered, InBucket, Targets;
  }

  lemma MoveIsolated(e: Env, st: State, s: Stream, m: Move, t: Stream)
    requires CanMove(e, st, s, m) && AtOpenKey(e, st, s, m) && s != t
    ensures SameFor(e, st, Moved(e, st, s, m), t)
  {
    hide GetCursor, Finished;
    QuietStore(e, st, s, m, t);
  }

  ghost predicate ActsAtOpenKey(e: Env, st: State, a: Action) {
    a.Act? ==> AtOpenKey(e, st, a.s, a.move)
  }

  lemma StepAtOpenKey(e: Env, st: State, a: Action)
    requires Inv(e, st) && Enabled(e, st, a)
    ensures ActsAtOpenKey(e, st, a)
  {
    hide AtOpenKey, Base, RowsFromLogs, CommittedDelivered, SeenDelivered, ProcOk, CanMove;
    if a.Act? {
      OpenKey(e, st, a.s, a.move);
    }
  }

  lemma ActionExtends(e: Env, st: State, a: Action)
    requires Enabled(e, st, a) && ActsAtOpenKey(e, st, a)
    ensures Extends(e, st, Apply(e, st, a))
  {
    hide AtOpenKey, Moved, CanMove;
    if a.Act? {
      MoveExtends(e, st, a.s, a.move);
    }
  }

  lemma ActionIsolated(e: Env, st: State, a: Action, s: Stream)
    requires Enabled(e, st, a) && ActsAtOpenKey(e, st, a)
    requires a.Tick? || a.PurgeExpired? || a.s != s
    ensures SameFor(e, st, Apply(e, st, a), s)
  {
    hide AtOpenKey, Moved, CanMove;
    if a.Act? {
      MoveIsolated(e, st, a.s, a.move, s);
    }
  }

  /** Every step only ever adds: logs and positions grow, and no final object is touched. */
  lemma StepExtends(e: Env, st: State, a: Action)
    requires Inv(e, st) && Enabled(e, st, a)
    ensures Extends(e, st, Apply(e, st, a))
  {
    hide Inv, Enabled, Apply, Extends, ActsAtOpenKey;
    StepAtOpenKey(e, st, a);
    ActionExtends(e, st, a);
  }

  /** No step of one stream changes another's process, cursor, position or objects. */
  lemma StepIsolated(e: Env, st: State, a: Action, s: Stream)
    requires Inv(e, st) && Enabled(e, st, a)
    requires a.Tick? || a.PurgeExpired? || a.s != s
    ensures SameFor(e, st, Apply(e, st, a), s)
  {
    hide Inv, Enabled, Apply, SameFor, ActsAtOpenKey;
    StepAtOpenKey(e, st, a);
    ActionIsolated(e, st, a, s);
  }

  // ----- one step keeps the invariant -----

  lemma CoveredSplit(e: Env, st: State, log: seq<Event>, lo: int, mid: int, hi: int, a: seq<Event>, b: seq<Event>)
    requires Covered(e, st, log, lo, mid, a) && Covered(e, st, log, mid, hi, b)
    ensures Covered(e, st, log, lo, hi, a + b)
  {
    forall i | lo <= i < hi && 0 <= i < |log| ensures HasUid(a + b, log[i].uid) || Delivered(e, st, log[i].uid) {
      if i < mid && HasUid(a, log[i].uid) {
        var j :| 0 <= j < |a| && a[j].uid == log[i].uid;
        assert (a + b)[j].uid == log[i].uid;
      } else if i >= mid && HasUid(b, log[i].uid) {
        var j :| 0 <= j < |b| && b[j].uid == log[i].uid;
        assert (a + b)[|a| + j].uid == log[i].uid;
      }
    }
  }

  lemma DrawnSplit(log: seq<Event>, lo: int, mid: int, hi: int, a: seq<Event>, b: seq<Event>)
    requires lo <= mid <= hi && Drawn(log, lo, mid, a) && Drawn(log, mid, hi, b)
    ensures Drawn(log, lo, hi, a + b)
  {
    forall ev | ev in a + b ensures InRange(log, lo, hi, ev) {
      if ev in a {
        var i :| lo <= i < mid && 0 <= i < |log| && log[i] == ev;
      } else {
        var i :| mid <= i < hi && 0 <= i < |log| && log[i] == ev;
      }
    }
  }

  lemma FilteredMeans(seen: map<string, int>, now: int, events: seq<Event>)
    ensures forall ev :: ev in events ==> HasUid(Filtered(seen, now, events), ev.uid) || Live(seen, now, ev.uid)
  {
    hide UniqueUids, Live;
    var _ := UnseenMeaning(seen, now, Uids(events));
    forall ev | ev in events && !Live(seen, now, ev.uid) ensures HasUid(Filtered(seen, now, events), ev.uid) {
      var i :| 0 <= i < |events| && events[i] == ev;
      assert Uids(events)[i] == ev.uid;
    }
  }

  /** The filter loses nothing: what it drops is already in a final object. */
  lemma FilterCovers(e: Env, st: State, log: seq<Event>, lo: nat, hi: nat, kept: seq<Event>)
    requires SeenDelivered(e, st) && lo <= hi <= |log|
    requires kept == Filtered(st.store.seen, st.now, log[lo..hi])
    ensures Covered(e, st, log, lo, hi, kept) && Drawn(log, lo, hi, kept)
  {
    hide Filtered, UniqueUids;
    var events := log[lo..hi];
    FilteredMeans(st.store.seen, st.now, events);
    forall i | lo <= i < hi ensures HasUid(kept, log[i].uid) || Delivered(e, st, log[i].uid) {
      assert events[i - lo] in events && log[i] == events[i - lo];
    }
    forall ev | ev in kept ensures InRange(log, lo, hi, ev) {
      var j :| 0 <= j < |events| && events[j] == ev;
      assert log[lo + j] == ev;
    }
  }

  lemma FilterKeeps(e: Env, st: State, s: Stream)
    requires Base(e, st) && SeenDelivered(e, st) && s in e.streams && ProcOk(e, st, s) && CanMove(e, st, s, Filter)
    ensures ProcOk(e, Moved(e, st, s, Filter), s)
  {
    hide Covered, Drawn;
    var p, st' := ProcOf(st, s), Moved(e, st, s, Filter);
    var page, log := p.phase.page, LogOf(st, s);
    var kept := ProcOf(st', s).phase.kept;
    FilterCovers(e, st, log, e.pos(p.cursor), page.end, kept);
    MoveExtends(e, st, s, Filter);
    CoveredStays(e, st, st', log, log, e.pos(p.cursor), page.end, kept);
    CoveredStays(e, st, st', log, log, UptoOf(st, s), Reached(e, p), Held(p));
  }

  lemma PutStored(e: Env, st: State, s: Stream, b: Bucket, rows: seq<Event>)
    requires CanMove(e, st, s, Put(b, rows)) && PhaseOk(e, st, s, ProcOf(st, s))
    ensures PhaseOk(e, Moved(e, st, s, Put(b, rows)), s, ProcOf(Moved(e, st, s, Put(b, rows)), s))
  {
    var p, st' := ProcOf(st, s), Moved(e, st, s, Put(b, rows));
    forall c | c in p.phase.done + {b} ensures Stored(e, st', p.batchKey, p.buffer, c) {
      assert c != b ==> Stored(e, st, p.batchKey, p.buffer, c);
    }
  }

  lemma PutStores(e: Env, st: State, s: Stream, b: Bucket, rows: seq<Event>)
    requires Base(e, st) && s in e.streams && ProcOk(e, st, s) && CanMove(e, st, s, Put(b, rows))
    ensures ProcOk(e, Moved(e, st, s, Put(b, rows)), s)
  {
    hide Covered, Drawn, PhaseOk, Stored, Extends;
    var p, st' := ProcOf(st, s), Moved(e, st, s, Put(b, rows));
    PutStored(e, st, s, b, rows);
    OpenKey(e, st, s, Put(b, rows));
    MoveExtends(e, st, s, Put(b, rows));
    CoveredStays(e, st, st', LogOf(st, s), LogOf(st, s), UptoOf(st, s), Reached(e, p), Held(p));
  }

  lemma WriteCovers(e: Env, st: State, s: Stream)
    requires Base(e, st) && s in e.streams && ProcOk(e, st, s) && CanMove(e, st, s, Write)
    ensures ProcOk(e, Moved(e, st, s, Write), s)
  {
    hide Covered, Drawn;
    var p, st' := ProcOf(st, s), Moved(e, st, s, Write);
    var log := LogOf(st, s);
    MoveExtends(e, st, s, Write);
    UidsConcat(p.buffer, p.phase.kept);
    CoveredSplit(e, st, log, UptoOf(st, s), e.pos(p.cursor), p.phase.page.end, p.buffer, p.phase.kept);
    CoveredStays(e, st, st', log, log, UptoOf(st, s), p.phase.page.end, p.buffer + p.phase.kept);
    DrawnSplit(log, UptoOf(st, s), e.pos(p.cursor), p.phase.page.end, p.buffer, p.phase.kept);
  }

  lemma CommitResets(e: Env, st: State, s: Stream, version: string)
    requires Base(e, st) && s in e.streams && ProcOk(e, st, s) && CanMove(e, st, s, CommitBatch(version))
    ensures ProcOk(e, Moved(e, st, s, CommitBatch(version)), s)
  {
  }

  lemma FetchKeeps(e: Env, st: State, s: Stream, n: nat, next: Option<Cursor>)
    requires Base(e, st) && s in e.streams && ProcOk(e, st, s) && CanMove(e, st, s, Fetch(n, next))
    ensures ProcOk(e, Moved(e, st, s, Fetch(n, next)), s)
  {
    hide Covered, Drawn;
    var p, st' := ProcOf(st, s), Moved(e, st, s, Fetch(n, next));
    MoveExtends(e, st, s, Fetch(n, next));
    CoveredStays(e, st, st', LogOf(st, s), LogOf(st, s), UptoOf(st, s), Reached(e, p), Held(p));
  }

  lemma PublishKeeps(e: Env, st: State, s: Stream, ms: int)
    requires Base(e, st) && s in e.streams && ProcOk(e, st, s) && CanMove(e, st, s, Publish(ms))
    ensures ProcOk(e, Moved(e, st, s, Publish(ms)), s)
  {
    hide Covered, Drawn;
    var p, st' := ProcOf(st, s), Moved(e, st, s, Publish(ms));
    MoveExtends(e, st, s, Publish(ms));
    CoveredStays(e, st, st', LogOf(st, s), LogOf(st, s), UptoOf(st, s), Reached(e, p), Held(p));
    CoveredStays(e, st, st', LogOf(st, s), LogOf(st, s), e.pos(p.cursor), p.phase.page.end, p.phase.kept);
  }

  lemma AckKeeps(e: Env, st: State, s: Stream)
    requires Base(e, st) && s in e.streams && ProcOk(e, st, s) && CanMove(e, st, s, Ack)
    ensures ProcOk(e, Moved(e, st, s, Ack), s)
  {
    hide Covered, Drawn, Extends, Filtered, GetCursor, Finished, Uids, InBucket, Targets;
    QuietStore(e, st, s, Ack, s);
    var p, st' := ProcOf(st, s), Moved(e, st, s, Ack);
    MoveExtends(e, st, s, Ack);
    CoveredStays(e, st, st', LogOf(st, s), LogOf(st, s), UptoOf(st, s), Reached(e, p), Held(p));
    assert forall b :: b in Targets(e, p.buffer) ==> Stored(e, st, p.batchKey, p.buffer, b);
  }

  lemma QuietKeeps(e: Env, st: State, s: Stream, m: Move)
    requires m.BeginFlush? || m.Skip? || m.Stamp? || m.Advance?
    requires Base(e, st) && s in e.streams && ProcOk(e, st, s) && CanMove(e, st, s, m)
    ensures ProcOk(e, Moved(e, st, s, m), s)
  {
    hide Covered, Drawn, Extends, Stored, Filtered, Finished, GetCursor;
    var p, st' := ProcOf(st, s), Moved(e, st, s, m);
    QuietStore(e, st, s, m, s);
    MoveExtends(e, st, s, m);
    CoveredStays(e, st, st', LogOf(st, s), LogOf(st, s), UptoOf(st, s), Reached(e, p), Held(p));
  }

  lemma MoveKeepsProc(e: Env, st: State, s: Stream, m: Move)
    requires Base(e, st) && SeenDelivered(e, st) && s in e.streams && ProcOk(e, st, s) && CanMove(e, st, s, m)
    ensures ProcOk(e, Moved(e, st, s, m), s)
  {
    hide ProcOk, Moved, Base, SeenDelivered;
    match m
    case Fetch(n, next) => FetchKeeps(e, st, s, n, next);
    case Filter => FilterKeeps(e, st, s);
    case Publish(ms) => PublishKeeps(e, st, s, ms);
    case Write =>
      OpenKey(e, st, s, m);
      WriteCovers(e, st, s);
    case Put(b, rows) => PutStores(e, st, s, b, rows);
    case CommitBatch(version) => CommitResets(e, st, s, version);
    case Ack => AckKeeps(e, st, s);
    case _ => QuietKeeps(e, st, s, m);
  }

  /** The row a commit makes final for a held event. */
  lemma FinalRow(e: Env, st: State, s: Stream, version: string, ev: Event) returns (k: ObjectKey, r: nat)
    requires Base(e, st) && s in e.streams && ProcOk(e, st, s) && CanMove(e, st, s, CommitBatch(version))
    requires ev in ProcOf(st, s).phase.sent
    ensures var st' := Moved(e, st, s, CommitBatch(version));
      RowAt(st'.lake, k, r, ev.uid) && Closed(e, st', k) && e.pos(k.batch) == UptoOf(st, s)
  {
    var p, st' := ProcOf(st, s), Moved(e, st, s, CommitBatch(version));
    OpenKey(e, st, s, CommitBatch(version));
    k := ObjectKey(p.batchKey, BucketOf(e, ev));
    assert Stored(e, st, p.batchKey, p.phase.sent, k.bucket);
    assert ev in multiset(InBucket(e, p.phase.sent, k.bucket));
    assert ev in st.lake[k];
    r :| 0 <= r < |st.lake[k]| && st.lake[k][r] == ev;
    assert InRange(LogOf(st, s), UptoOf(st, s), p.phase.page.end, ev);
    assert RowAt(st'.lake, k, r, ev.uid) && Closed(e, st', k);
  }

  /** Committing makes every held event final. */
  lemma CommitDelivers(e: Env, st: State, s: Stream, version: string)
    requires Base(e, st) && s in e.streams && ProcOk(e, st, s) && CanMove(e, st, s, CommitBatch(version))
    ensures forall ev :: ev in ProcOf(st, s).phase.sent ==> Delivered(e, Moved(e, st, s, CommitBatch(version)), ev.uid)
  {
    hide Base, ProcOk, Moved;
    forall ev | ev in ProcOf(st, s).phase.sent ensures Delivered(e, Moved(e, st, s, CommitBatch(version)), ev.uid) {
      var k, r := FinalRow(e, st, s, version, ev);
    }
  }

  /** Steps that move no object and no position only have to keep every stream's start. */
  lemma BaseStays(e: Env, st: State, st': State)
    requires Base(e, st)
    requires st'.lake == st.lake && st'.upto == st.upto && st'.procs.Keys == st'.logs.Keys == e.streams
    requires forall s :: s in e.streams ==>
      && LogOf(st, s) <= LogOf(st', s)
      && GetCursor(st'.store, s) == GetCursor(st.store, s)
      && (Finished(st'.store, s) <==> Finished(st.store, s))
    ensures Base(e, st')
  {
    forall s | s in e.streams
      ensures Start(e, st', s) == Start(e, st, s) && |LogOf(st, s)| <= |LogOf(st', s)|
    {
    }
  }

  lemma CommitKeepsStream(e: Env, st: State, s: Stream, version: string, t: Stream)
    requires Base(e, st) && s in e.streams && CanMove(e, st, s, CommitBatch(version)) && t in e.streams
    requires AtOpenKey(e, st, s, CommitBatch(version))
    ensures StreamOk(e, Moved(e, st, s, CommitBatch(version)), t)
  {
    if t != s {
      QuietStore(e, st, s, CommitBatch(version), t);
    }
  }

  lemma CommitKeepsBase(e: Env, st: State, s: Stream, version: string)
    requires Base(e, st) && s in e.streams && CanMove(e, st, s, CommitBatch(version))
    requires AtOpenKey(e, st, s, CommitBatch(version))
    ensures Base(e, Moved(e, st, s, CommitBatch(version)))
  {
    hide StreamOk;
    forall t | t in e.streams ensures StreamOk(e, Moved(e, st, s, CommitBatch(version)), t) {
      CommitKeepsStream(e, st, s, version, t);
    }
  }

  lemma PutKeepsBase(e: Env, st: State, s: Stream, b: Bucket, rows: seq<Event>)
    requires Base(e, st) && s in e.streams && CanMove(e, st, s, Put(b, rows)) && AtOpenKey(e, st, s, Put(b, rows))
    ensures Base(e, Moved(e, st, s, Put(b, rows)))
  {
    var st' := Moved(e, st, s, Put(b, rows));
    forall t | t in e.streams
      ensures Start(e, st', t) == Start(e, st, t) && (Finished(st'.store, t) <==> Finished(st.store, t))
    {
    }
  }

  lemma QuietKeepsBase(e: Env, st: State, s: Stream, m: Move)
    requires Base(e, st) && s in e.streams && CanMove(e, st, s, m) && !m.Put? && !m.CommitBatch?
    ensures Base(e, Moved(e, st, s, m))
  {
    hide GetCursor, Finished;
    forall t { QuietStore(e, st, s, m, t); }
    BaseStays(e, st, Moved(e, st, s, m));
  }

  lemma MoveKeepsBase(e: Env, st: State, s: Stream, m: Move)
    requires Base(e, st) && s in e.streams && CanMove(e, st, s, m) && AtOpenKey(e, st, s, m)
    ensures Base(e, Moved(e, st, s, m))
  {
    hide Base, Moved, CanMove, AtOpenKey;
    match m
    case CommitBatch(version) => CommitKeepsBase(e, st, s, version);
    case Put(b, rows) => PutKeepsBase(e, st, s, b, rows);
    case _ => QuietKeepsBase(e, st, s, m);
  }

  lemma ActionKeepsBase(e: Env, st: State, a: Action)
    requires Base(e, st) && Enabled(e, st, a) && !a.Act?
    ensures Base(e, Apply(e, st, a))
  {
    BaseStays(e, st, Apply(e, st, a));
  }

  lemma StepKeepsBase(e: Env, st: State, a: Action)
    requires Base(e, st) && Enabled(e, st, a) && ActsAtOpenKey(e, st, a)
    ensures Base(e, Apply(e, st, a))
  {
    hide Base, Moved, CanMove, AtOpenKey;
    if a.Act? {
      MoveKeepsBase(e, st, a.s, a.move);
    } else {
      ActionKeepsBase(e, st, a);
    }
  }

  /** Only a PUT changes the lake, only a commit a position or what is seen. */
  lemma QuietLake(e: Env, st: State, a: Action)
    requires Enabled(e, st, a) && !(a.Act? && a.move.Put?)
    ensures Apply(e, st, a).lake == st.lake
  {
  }

  lemma QuietSeen(e: Env, st: State, a: Action)
    requires Enabled(e, st, a) && !(a.Act? && a.move.CommitBatch?)
    ensures Apply(e, st, a).upto == st.upto && Apply(e, st, a).store.seen.Keys <= st.store.seen.Keys
  {
  }

  lemma PutKeepsRows(e: Env, st: State, s: Stream, b: Bucket, rows: seq<Event>)
    requires RowsFromLogs(e, st) && s in e.streams && CanMove(e, st, s, Put(b, rows)) && AtOpenKey(e, st, s, Put(b, rows))
    requires Drawn(LogOf(st, s), UptoOf(st, s), Reached(e, ProcOf(st, s)), ProcOf(st, s).buffer)
    ensures RowsFromLogs(e, Moved(e, st, s, Put(b, rows)))
  {
    var p, log := ProcOf(st, s), LogOf(st, s);
    forall ev | ev in rows ensures InRange(log, e.pos(p.batchKey), |log|, ev) {
      assert ev in multiset(rows) && ev in multiset(InBucket(e, p.buffer, b));
      assert InRange(log, UptoOf(st, s), Reached(e, p), ev);
    }
  }

  /** An event of a log is one of a longer log. */
  lemma InRangeStays(log: seq<Event>, log': seq<Event>, lo: int, ev: Event)
    requires log <= log' && InRange(log, lo, |log|, ev)
    ensures InRange(log', lo, |log'|, ev)
  {
    var i :| lo <= i < |log| && 0 <= i < |log| && log[i] == ev;
    assert log'[i] == ev;
  }

  /** Where in its log a row comes from. */
  lemma RowInLog(e: Env, st: State, k: ObjectKey, r: nat) returns (j: nat)
    requires RowsFromLogs(e, st) && k in st.lake && r < |st.lake[k]|
    ensures e.pos(k.batch) <= j < |LogOf(st, e.owner(k.batch))| && LogOf(st, e.owner(k.batch))[j] == st.lake[k][r]
  {
    var log := LogOf(st, e.owner(k.batch));
    assert InRange(log, e.pos(k.batch), |log|, st.lake[k][r]);
    j :| e.pos(k.batch) <= j < |log| && 0 <= j < |log| && log[j] == st.lake[k][r];
  }

  lemma RowsStay(e: Env, st: State, st': State)
    requires RowsFromLogs(e, st) && Extends(e, st, st') && st'.lake == st.lake
    ensures RowsFromLogs(e, st')
  {
    hide InRange;
    forall k, ev | k in st'.lake && ev in st'.lake[k]
      ensures InRange(LogOf(st', e.owner(k.batch)), e.pos(k.batch), |LogOf(st', e.owner(k.batch))|, ev)
    {
      InRangeStays(LogOf(st, e.owner(k.batch)), LogOf(st', e.owner(k.batch)), e.pos(k.batch), ev);
    }
  }

  lemma StepKeepsRows(e: Env, st: State, a: Action)
    requires RowsFromLogs(e, st) && Enabled(e, st, a) && ActsAtOpenKey(e, st, a)
    requires a.Act? && a.move.Put? ==> ProcOk(e, st, a.s)
    ensures RowsFromLogs(e, Apply(e, st, a))
  {
    hide RowsFromLogs, Moved, AtOpenKey;
    if a.Act? && a.move.Put? {
      PutKeepsRows(e, st, a.s, a.move.bucket, a.move.rows);
    } else {
      ActionExtends(e, st, a);
      QuietLake(e, st, a);
      RowsStay(e, st, Apply(e, st, a));
    }
  }

  /** The two delivery invariants, over a commit: what becomes seen and what the cursor passes is
      exactly the batch just acknowledged. */
  lemma CommitKeepsDelivery(e: Env, st: State, s: Stream, version: string)
    requires Inv(e, st) && s in e.streams && CanMove(e, st, s, CommitBatch(version))
    ensures var st' := Moved(e, st, s, CommitBatch(version)); CommittedDelivered(e, st') && SeenDelivered(e, st')
  {
    var m := CommitBatch(version);
    var p, st' := ProcOf(st, s), Moved(e, st, s, m);
    var sent := p.phase.sent;
    OpenKey(e, st, s, m);
    MoveExtends(e, st, s, m);
    AllDeliveredStay(e, st, st');
    CommitDelivers(e, st, s, version);
    forall u | u in st'.store.seen ensures Delivered(e, st', u) {
      if u in p.pending {
        var i :| 0 <= i < |p.pending| && p.pending[i] == u;
        assert sent[i] in sent && sent[i].uid == u;
      }
    }
    forall t, i | t in e.streams && e.pos(e.opening(t)) <= i < UptoOf(st', t) && i < |LogOf(st', t)|
      ensures Delivered(e, st', LogOf(st', t)[i].uid)
    {
      if t == s && UptoOf(st, s) <= i {
        assert HasUid(sent, LogOf(st, s)[i].uid) || Delivered(e, st, LogOf(st, s)[i].uid);
      }
    }
  }

  lemma DeliveryStays(e: Env, st: State, st': State)
    requires Base(e, st) && CommittedDelivered(e, st) && SeenDelivered(e, st) && Extends(e, st, st')
    requires st'.upto == st.upto && st'.store.seen.Keys <= st.store.seen.Keys
    ensures CommittedDelivered(e, st') && SeenDelivered(e, st')
  {
    AllDeliveredStay(e, st, st');
    forall t, i | t in e.streams && e.pos(e.opening(t)) <= i < UptoOf(st', t) && i < |LogOf(st', t)|
      ensures Delivered(e, st', LogOf(st', t)[i].uid)
    {
      assert LogOf(st', t)[i] == LogOf(st, t)[i];
    }
  }

  lemma StepKeepsDelivery(e: Env, st: State, a: Action)
    requires Inv(e, st) && Enabled(e, st, a)
    ensures CommittedDelivered(e, Apply(e, st, a)) && SeenDelivered(e, Apply(e, st, a))
  {
    hide Base, CommittedDelivered, SeenDelivered, RowsFromLogs, ProcOk, Moved, CanMove;
    if a.Act? && a.move.CommitBatch? {
      CommitKeepsDelivery(e, st, a.s, a.move.version);
    } else {
      StepExtends(e, st, a);
      QuietSeen(e, st, a);
      DeliveryStays(e, st, Apply(e, st, a));
    }
  }

  lemma StepKeepsProcs(e: Env, st: State, a: Action, s: Stream)
    requires Inv(e, st) && Enabled(e, st, a) && s in e.streams
    ensures ProcOk(e, Apply(e, st, a), s)
  {
    hide Base, CommittedDelivered, SeenDelivered, RowsFromLogs, Moved, CanMove, SameFor, Extends;
    assert ProcOk(e, st, s);
    if a.Act? && a.s == s {
      MoveKeepsProc(e, st, s, a.move);
    } else if a.Tick? || a.PurgeExpired? || a.s != s {
      StepExtends(e, st, a);
      StepIsolated(e, st, a, s);
      ProcOkStays(e, st, Apply(e, st, a), s);
    } else if a.Grow? {
      StepExtends(e, st, a);
      GrowSame(e, st, s, a.more);
      ProcOkStays(e, st, Apply(e, st, a), s);
    } else {
      StartsOk(e, st, a);
    }
  }

  lemma GrowSame(e: Env, st: State, s: Stream, more: seq<Event>)
    requires Enabled(e, st, Grow(s, more))
    ensures SameFor(e, st, Apply(e, st, Grow(s, more)), s)
  {
  }

  /** A process that has just come up, or gone down, holds nothing. */
  lemma StartsOk(e: Env, st: State, a: Action)
    requires Base(e, st) && Enabled(e, st, a) && (a.Open? || a.Halt?)
    ensures ProcOk(e, Apply(e, st, a), a.s)
  {
  }

  lemma StepKeepsInv(e: Env, st: State, a: Action)
    requires Inv(e, st) && Enabled(e, st, a)
    ensures Inv(e, Apply(e, st, a)) && Extends(e, st, Apply(e, st, a))
  {
    hide Base, CommittedDelivered, SeenDelivered, RowsFromLogs, Moved, Apply, CanMove, ProcOk, Extends, ActsAtOpenKey;
    StepAtOpenKey(e, st, a);
    StepExtends(e, st, a);
    StepKeepsBase(e, st, a);
    StepKeepsRows(e, st, a);
    StepKeepsDelivery(e, st, a);
    forall s | s in e.streams ensures ProcOk(e, Apply(e, st, a), s) {
      StepKeepsProcs(e, st, a, s);
    }
  }

  lemma InitInv(e: Env, st: State)
    requires Init(e, st)
    ensures Inv(e, st)
  {
  }

  // ----- theorems over whole runs -----

  lemma ExtendsTransitive(e: Env, a: State, b: State, c: State)
    requires Extends(e, a, b) && Extends(e, b, c)
    ensures Extends(e, a, c)
  {
    forall k | k in a.lake && Closed(e, a, k) ensures k in c.lake && c.lake[k] == a.lake[k] {
      assert k in b.lake && Closed(e, b, k);
    }
    forall s ensures LogOf(a, s) <= LogOf(c, s) && UptoOf(a, s) <= UptoOf(c, s) {
      assert LogOf(a, s) <= LogOf(b, s) && LogOf(b, s) <= LogOf(c, s);
    }
  }

  /** Over any run: the invariant holds at the end, and no object that was final at the start has
      been rewritten, whatever crashed in between. */
  lemma {:induction false} RunKeepsInv(e: Env, st: State, acts: seq<Action>)
    requires Inv(e, st) && Legal(e, st, acts)
    ensures Inv(e, Exec(e, st, acts)) && Extends(e, st, Exec(e, st, acts))
    decreases |acts|
  {
    if acts != [] {
      var st' := Apply(e, st, acts[0]);
      StepKeepsInv(e, st, acts[0]);
      RunKeepsInv(e, st', acts[1..]);
      ExtendsTransitive(e, st, st', Exec(e, st', acts[1..]));
    }
  }

  /** Equal uids mean the same event, in whichever logs they appear. */
  ghost predicate UidsIdentify(st: State) {
    forall s, t, i, j |
      0 <= i < |LogOf(st, s)| && 0 <= j < |LogOf(st, t)| && LogOf(st, s)[i].uid == LogOf(st, t)[j].uid
      :: LogOf(st, s)[i] == LogOf(st, t)[j]
  }

  /** Nothing is lost: in every reachable state, every event a stream has committed past, from its
      opening on, is a row of a final object. When uids identify events it is the event itself. */
  lemma NoLoss(e: Env, st: State, acts: seq<Action>, s: Stream, i: nat) returns (k: ObjectKey, r: nat)
    requires Init(e, st) && Legal(e, st, acts)
    requires s in e.streams
    requires e.pos(e.opening(s)) <= i < UptoOf(Exec(e, st, acts), s)
    ensures var end := Exec(e, st, acts);
      && i < |LogOf(end, s)|
      && k in end.lake && r < |end.lake[k]| && Closed(e, end, k)
      && end.lake[k][r].uid == LogOf(end, s)[i].uid
      && (UidsIdentify(end) ==> end.lake[k][r] == LogOf(end, s)[i])
  {
    InitInv(e, st);
    RunKeepsInv(e, st, acts);
    var end := Exec(e, st, acts);
    assert Delivered(e, end, LogOf(end, s)[i].uid);
    var k', r' :| RowAt(end.lake, k', r', LogOf(end, s)[i].uid) && Closed(e, end, k');
    k, r := k', r';
    var _ := RowInLog(e, end, k, r);
  }

  /** Whatever the seen-set absorbs has really been delivered: a stream that skips an event because
      another stream took it first loses nothing. */
  lemma SeenImpliesDelivered(e: Env, st: State, acts: seq<Action>, uid: string)
    requires Init(e, st) && Legal(e, st, acts)
    requires uid in Exec(e, st, acts).store.seen
    ensures Delivered(e, Exec(e, st, acts), uid)
  {
    InitInv(e, st);
    RunKeepsInv(e, st, acts);
  }

  /** The open-key discipline in every reachable state: a live process that has not finished writes
      only at its stored cursor, `pending` names exactly the held rows, and every object in the lake
      sits at or before its stream's committed position. */
  lemma OpenKeyInvariant(e: Env, st: State, acts: seq<Action>, s: Stream)
    requires Init(e, st) && Legal(e, st, acts) && s in e.streams
    ensures var end := Exec(e, st, acts); var p := ProcOf(end, s);
      && (p.Up? ==> p.pending == Uids(Held(p)))
      && (p.Up? && !Finished(end.store, s) ==>
            p.batchKey == Start(e, end, s) && e.pos(p.batchKey) == UptoOf(end, s))
      && (forall k: ObjectKey :: k in end.lake && e.owner(k.batch) == s ==> e.pos(k.batch) <= UptoOf(end, s))
  {
    InitInv(e, st);
    RunKeepsInv(e, st, acts);
    assert ProcOk(e, Exec(e, st, acts), s);
  }

  /** Committing a batch from a sink that PUTs nothing for an empty buffer strictly advances. */
  lemma CommitAdvances(e: Env, st: State, s: Stream, version: string)
    requires Inv(e, st) && s in e.streams && CanMove(e, st, s, CommitBatch(version))
    requires !e.oneObject && ProcOf(st, s).phase.page.next.Some?
    ensures UptoOf(st, s) < UptoOf(Moved(e, st, s, CommitBatch(version)), s)
  {
    var p := ProcOf(st, s);
    assert ProcOk(e, st, s);
    assert InRange(LogOf(st, s), UptoOf(st, s), p.phase.page.end, p.phase.sent[0]);
  }

  /** Caught up means caught up: when the stamp is taken, every event from the opening to the place
      the empty page was served from is in a final object, even if the committed cursor lags behind
      pages of duplicates. If the source served that page at the end of its log, that is every event
      the log held at that moment. */
  lemma CaughtUpIsSound(e: Env, st: State, acts: seq<Action>, s: Stream, i: nat)
    requires Init(e, st) && Legal(e, st, acts) && s in e.streams
    requires CanMove(e, Exec(e, st, acts), s, Stamp)
    ensures var end := Exec(e, st, acts);
      e.pos(e.opening(s)) <= i < ProcOf(end, s).phase.page.end
      ==> i < |LogOf(end, s)| && Delivered(e, end, LogOf(end, s)[i].uid)
    ensures var end := Exec(e, st, acts);
      var page := ProcOf(end, s).phase.page;
      page.end == page.horizon && e.pos(e.opening(s)) <= i < page.horizon
      ==> i < |LogOf(end, s)| && Delivered(e, end, LogOf(end, s)[i].uid)
  {
    InitInv(e, st);
    RunKeepsInv(e, st, acts);
    var end := Exec(e, st, acts);
    assert ProcOk(e, end, s);
    if e.pos(e.opening(s)) <= i < ProcOf(end, s).phase.page.end {
      assert i < UptoOf(end, s) || HasUid([], LogOf(end, s)[i].uid) || Delivered(e, end, LogOf(end, s)[i].uid);
    }
  }
}
