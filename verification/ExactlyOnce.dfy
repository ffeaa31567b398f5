/** How many rows an event gets when the logs repeat no uid: exactly one, precisely when no commit
    leaves behind an object that its own batch does not rewrite. */
module ExactlyOnce {
  import opened Domain
  import opened StateSpec
  import opened Protocol
  import opened DeliverySafety

  /** No uid occurs twice, in one log or in two. */
  ghost predicate DistinctLogs(st: State) {
    forall s, t, i, j |
      0 <= i < |LogOf(st, s)| && 0 <= j < |LogOf(st, t)| && LogOf(st, s)[i].uid == LogOf(st, t)[j].uid
      :: s == t && i == j
  }

  /** No two rows of the lake, in one object or in two, carry the same uid. */
  ghost predicate AtMostOne(lake: Lake) {
    forall k, i, k', i', u :: RowAt(lake, k, i, u) && RowAt(lake, k', i', u) ==> k == k' && i == i'
  }

  /** The batch being committed rewrites every object that an earlier, crashed attempt at the same
      key left non-empty. Checkable before the commit: it reads the lake's keys and the batch. */
  ghost predicate Covers(e: Env, st: State, s: Stream)
    requires ProcOf(st, s).Up? && ProcOf(st, s).phase.Acked?
  {
    var p := ProcOf(st, s);
    forall k: ObjectKey :: k in st.lake && k.batch == p.batchKey && st.lake[k] != [] ==> k.bucket in Targets(e, p.phase.sent)
  }

  ghost predicate CoversIfCommit(e: Env, st: State, a: Action)
    requires Enabled(e, st, a)
  {
    a.Act? && a.move.CommitBatch? ==> Covers(e, st, a.s)
  }

  ghost predicate Covering(e: Env, st: State, acts: seq<Action>)
    requires Legal(e, st, acts)
    decreases |acts|
  {
    acts == [] || (CoversIfCommit(e, st, acts[0]) && Covering(e, Apply(e, st, acts[0]), acts[1..]))
  }

  // ----- what holds with or without covering -----

  ghost predicate ObjectPlain(e: Env, st: State, k: ObjectKey, rows: seq<Event>) {
    UniqueUids(rows) && forall ev :: ev in rows ==>
      BucketOf(e, ev) == k.bucket
      && InRange(LogOf(st, e.owner(k.batch)), e.pos(k.batch), |LogOf(st, e.owner(k.batch))|, ev)
  }

  ghost predicate ObjectsPlain(e: Env, st: State) {
    forall k :: k in st.lake ==> ObjectPlain(e, st, k, st.lake[k])
  }

  /** A uid is only ever seen once its stream has committed past it. */
  ghost predicate SeenBehind(e: Env, st: State) {
    forall s, i :: 0 <= i < |LogOf(st, s)| && LogOf(st, s)[i].uid in st.store.seen ==> i < UptoOf(st, s)
  }

  /** With no repeats nothing is filtered: a process holds the log from the committed position on. */
  ghost predicate HeldExact(e: Env, st: State, s: Stream) {
    ProcOf(st, s).Up? && !Finished(st.store, s) ==>
      var p := ProcOf(st, s);
      && UptoOf(st, s) <= Reached(e, p) <= |LogOf(st, s)|
      && Held(p) == LogOf(st, s)[UptoOf(st, s)..Reached(e, p)]
      && (p.phase.Kept? ==> p.phase.kept == p.phase.page.events)
  }

  ghost predicate Plain(e: Env, st: State) {
    && ObjectsPlain(e, st)
    && SeenBehind(e, st)
    && forall s :: s in e.streams ==> HeldExact(e, st, s)
  }

  lemma DistinctSlice(st: State, s: Stream, lo: nat, hi: nat)
    requires DistinctLogs(st) && lo <= hi <= |LogOf(st, s)|
    ensures UniqueUids(LogOf(st, s)[lo..hi])
  {
    var events := LogOf(st, s)[lo..hi];
    forall i, j | 0 <= i < |events| && 0 <= j < |events| && events[i].uid == events[j].uid ensures i == j {
      assert LogOf(st, s)[lo + i].uid == LogOf(st, s)[lo + j].uid;
    }
  }

  /** A multiset tells how often a value occurs. */
  lemma TwiceInMultiset<T>(xs: seq<T>, i: nat, j: nat)
    requires i < j < |xs| && xs[i] == xs[j]
    ensures multiset(xs)[xs[i]] >= 2
  {
    assert xs == xs[..j] + [xs[j]] + xs[j + 1..];
    assert xs[i] in xs[..j];
  }

  lemma OnceInMultiset(xs: seq<Event>, ev: Event)
    requires UniqueUids(xs)
    ensures multiset(xs)[ev] <= 1
  {
    if xs != [] {
      var n := |xs| - 1;
      OnceInMultiset(xs[..n], ev);
      assert xs == xs[..n] + [xs[n]];
      if xs[n] == ev {
        assert forall i :: 0 <= i < n ==> xs[..n][i] != ev;
        assert ev !in xs[..n];
      }
    }
  }

  lemma PermutationKeepsUnique(xs: seq<Event>, ys: seq<Event>)
    requires UniqueUids(xs) && multiset(xs) == multiset(ys)
    ensures UniqueUids(ys)
  {
    forall i, j | 0 <= i < |ys| && 0 <= j < |ys| && ys[i].uid == ys[j].uid ensures i == j {
      assert ys[i] in multiset(xs) && ys[j] in multiset(xs);
      assert ys[i] in xs && ys[j] in xs;
      assert ys[i] == ys[j];
      OnceInMultiset(xs, ys[i]);
      if i < j {
        TwiceInMultiset(ys, i, j);
      } else if j < i {
        TwiceInMultiset(ys, j, i);
      }
    }
  }

  lemma PutRow(e: Env, st: State, s: Stream, b: Bucket, rows: seq<Event>, ev: Event)
    requires ProcOk(e, st, s) && CanMove(e, st, s, Put(b, rows)) && ev in rows
    ensures BucketOf(e, ev) == b && InRange(LogOf(st, s), UptoOf(st, s), Reached(e, ProcOf(st, s)), ev)
  {
    assert ev in multiset(rows) && ev in multiset(InBucket(e, ProcOf(st, s).buffer, b));
  }

  lemma PlainRows(e: Env, st: State, s: Stream, b: Bucket, rows: seq<Event>)
    requires Base(e, st) && ProcOk(e, st, s) && HeldExact(e, st, s) && DistinctLogs(st)
    requires s in e.streams && CanMove(e, st, s, Put(b, rows))
    ensures ObjectPlain(e, st, ObjectKey(ProcOf(st, s).batchKey, b), rows)
  {
    var p, log := ProcOf(st, s), LogOf(st, s);
    OpenKey(e, st, s, Put(b, rows));
    DistinctSlice(st, s, UptoOf(st, s), Reached(e, p));
    PermutationKeepsUnique(InBucket(e, p.buffer, b), rows);
    forall ev | ev in rows ensures BucketOf(e, ev) == b && InRange(log, e.pos(p.batchKey), |log|, ev) {
      PutRow(e, st, s, b, rows, ev);
    }
  }

  lemma PlainPut(e: Env, st: State, s: Stream, b: Bucket, rows: seq<Event>)
    requires Base(e, st) && ProcOk(e, st, s) && HeldExact(e, st, s) && DistinctLogs(st) && ObjectsPlain(e, st)
    requires s in e.streams && CanMove(e, st, s, Put(b, rows))
    ensures ObjectsPlain(e, Moved(e, st, s, Put(b, rows)))
  {
    hide Base, ProcOk, HeldExact, DistinctLogs, InRange, UniqueUids, BucketOf, InBucket;
    PlainRows(e, st, s, b, rows);
    forall k ensures LogOf(Moved(e, st, s, Put(b, rows)), e.owner(k)) == LogOf(st, e.owner(k)) {
    }
  }

  lemma ObjectsPlainStay(e: Env, st: State, st': State)
    requires ObjectsPlain(e, st) && st'.lake == st.lake && forall s :: LogOf(st, s) <= LogOf(st', s)
    ensures ObjectsPlain(e, st')
  {
    forall k, ev | k in st.lake && ev in st.lake[k]
      ensures InRange(LogOf(st', e.owner(k.batch)), e.pos(k.batch), |LogOf(st', e.owner(k.batch))|, ev)
    {
      var log, log' := LogOf(st, e.owner(k.batch)), LogOf(st', e.owner(k.batch));
      assert log <= log';
      var i :| e.pos(k.batch) <= i < |log| && 0 <= i < |log| && log[i] == ev;
      assert log'[i] == ev;
    }
  }

  lemma FreshKeepsAll(events: seq<Event>, unseen: set<string>)
    requires UniqueUids(events) && forall ev :: ev in events ==> ev.uid in unseen
    ensures Fresh(events, unseen) == events
  {
    if events != [] {
      var n := |events| - 1;
      FreshKeepsAll(events[..n], unseen);
      assert events == events[..n] + [events[n]];
      assert !HasUid(events[..n], events[n].uid);
    }
  }

  lemma NoneLiveKeepsAll(seen: map<string, int>, now: int, events: seq<Event>)
    requires UniqueUids(events) && forall ev :: ev in events ==> !Live(seen, now, ev.uid)
    ensures Filtered(seen, now, events) == events
  {
    var unseen := set u | u in Unseen(seen, now, Uids(events));
    var _ := UnseenMeaning(seen, now, Uids(events));
    forall ev | ev in events ensures ev.uid in unseen {
      var i :| 0 <= i < |events| && events[i] == ev;
      assert Uids(events)[i] == ev.uid;
    }
    FreshKeepsAll(events, unseen);
  }

  /** What the filter keeps of a page of a log without repeats: all of it. */
  lemma KeepsPage(e: Env, st: State, s: Stream)
    requires ProcOk(e, st, s) && SeenBehind(e, st) && HeldExact(e, st, s) && DistinctLogs(st)
    requires CanMove(e, st, s, Filter) && !Finished(st.store, s)
    ensures var events := ProcOf(st, s).phase.page.events;
      Filtered(st.store.seen, st.now, events) == events
  {
    hide Covered, Drawn, PhaseOk, Filtered, DistinctLogs, Finished, UniqueUids;
    var p, log := ProcOf(st, s), LogOf(st, s);
    var at, end := e.pos(p.cursor), p.phase.page.end;
    DistinctSlice(st, s, at, end);
    forall ev | ev in log[at..end] ensures ev.uid !in st.store.seen {
      var i :| 0 <= i < end - at && log[at..end][i] == ev;
      assert log[at + i] == ev;
    }
    NoneLiveKeepsAll(st.store.seen, st.now, log[at..end]);
  }

  lemma HeldAfterFilter(e: Env, st: State, s: Stream)
    requires ProcOk(e, st, s) && SeenBehind(e, st) && HeldExact(e, st, s) && DistinctLogs(st)
    requires CanMove(e, st, s, Filter)
    ensures HeldExact(e, Moved(e, st, s, Filter), s)
  {
    hide ProcOk, SeenBehind, DistinctLogs, Finished, Filtered;
    QuietStore(e, st, s, Filter, s);
    if !Finished(st.store, s) {
      KeepsPage(e, st, s);
    }
  }

  lemma HeldAfterWrite(e: Env, st: State, s: Stream)
    requires ProcOk(e, st, s) && HeldExact(e, st, s) && CanMove(e, st, s, Write)
    ensures HeldExact(e, Moved(e, st, s, Write), s)
  {
    hide Covered, Drawn, PhaseOk, Uids, Finished;
    QuietStore(e, st, s, Write, s);
    var p, log := ProcOf(st, s), LogOf(st, s);
    if !Finished(st.store, s) {
      assert log[UptoOf(st, s)..e.pos(p.cursor)] + log[e.pos(p.cursor)..p.phase.page.end]
        == log[UptoOf(st, s)..p.phase.page.end];
    }
  }

  lemma HeldAfterCommit(e: Env, st: State, s: Stream, version: string)
    requires ProcOk(e, st, s) && HeldExact(e, st, s) && CanMove(e, st, s, CommitBatch(version))
    ensures HeldExact(e, Moved(e, st, s, CommitBatch(version)), s)
  {
    hide Covered, Drawn, Stored, Uids, MarkAll;
  }

  lemma HeldAfterQuiet(e: Env, st: State, s: Stream, m: Move)
    requires ProcOk(e, st, s) && HeldExact(e, st, s) && CanMove(e, st, s, m)
    requires !m.Filter? && !m.Write? && !m.CommitBatch?
    ensures HeldExact(e, Moved(e, st, s, m), s)
  {
    hide ProcOk, Finished, Held, Reached, Moved, CanMove;
    QuietStore(e, st, s, m, s);
    QuietHolds(e, st, s, m);
    QuietSeenMove(e, st, s, m);
    MoveLog(e, st, s, m);
  }

  lemma HeldAfterStep(e: Env, st: State, a: Action, s: Stream)
    requires Inv(e, st) && Plain(e, st) && DistinctLogs(st) && Enabled(e, st, a) && s in e.streams
    ensures HeldExact(e, Apply(e, st, a), s)
  {
    hide ProcOk, HeldExact, SeenBehind, ObjectsPlain, DistinctLogs, Moved, CanMove, Base, RowsFromLogs, SeenDelivered, CommittedDelivered;
    assert ProcOk(e, st, s) && HeldExact(e, st, s);
    if a.Act? && a.s == s {
      match a.move
      case Filter => HeldAfterFilter(e, st, s);
      case Write => HeldAfterWrite(e, st, s);
      case CommitBatch(version) => HeldAfterCommit(e, st, s, version);
      case m => HeldAfterQuiet(e, st, s, m);
    } else if a.Tick? || a.PurgeExpired? || a.s != s {
      HeldElsewhere(e, st, a, s);
    } else if a.Grow? {
      HeldAfterGrow(e, st, s, a.more);
    } else {
      HeldAtStart(e, st, a);
    }
  }

  lemma HeldAtStart(e: Env, st: State, a: Action)
    requires Base(e, st) && Enabled(e, st, a) && (a.Open? || a.Halt?)
    ensures HeldExact(e, Apply(e, st, a), a.s)
  {
    hide KeyOk;
    assert a.s in e.streams;
  }

  lemma HeldElsewhere(e: Env, st: State, a: Action, s: Stream)
    requires Inv(e, st) && HeldExact(e, st, s) && Enabled(e, st, a) && s in e.streams
    requires a.Tick? || a.PurgeExpired? || a.s != s
    ensures HeldExact(e, Apply(e, st, a), s)
  {
    StepIsolated(e, st, a, s);
    assert LogOf(Apply(e, st, a), s) == LogOf(st, s);
  }

  lemma HeldAfterGrow(e: Env, st: State, s: Stream, more: seq<Event>)
    requires HeldExact(e, st, s) && s in e.streams
    ensures HeldExact(e, Apply(e, st, Grow(s, more)), s)
  {
    var p, log := ProcOf(st, s), LogOf(st, s);
    if p.Up? && !Finished(st.store, s) {
      assert (log + more)[UptoOf(st, s)..Reached(e, p)] == log[UptoOf(st, s)..Reached(e, p)];
    }
  }

  ghost predicate InLogs(st: State, uid: string) {
    exists s, i :: 0 <= i < |LogOf(st, s)| && LogOf(st, s)[i].uid == uid
  }

  lemma SeenInLogs(e: Env, st: State, uid: string)
    requires Inv(e, st) && uid in st.store.seen
    ensures InLogs(st, uid)
  {
    var k, r :| RowAt(st.lake, k, r, uid) && Closed(e, st, k);
    var j := RowInLog(e, st, k, r);
    assert LogOf(st, e.owner(k.batch))[j].uid == uid;
  }

  ghost predicate LoggedBefore(log: seq<Event>, hi: int, uid: string) {
    exists j :: 0 <= j < |log| && j < hi && log[j].uid == uid
  }

  lemma PendingLogged(e: Env, st: State, s: Stream, version: string)
    requires ProcOk(e, st, s) && CanMove(e, st, s, CommitBatch(version)) && !Finished(st.store, s)
    ensures forall u :: u in ProcOf(st, s).pending ==> LoggedBefore(LogOf(st, s), ProcOf(st, s).phase.page.end, u)
  {
    var p, log := ProcOf(st, s), LogOf(st, s);
    forall u | u in p.pending ensures LoggedBefore(log, p.phase.page.end, u) {
      var n :| 0 <= n < |p.pending| && p.pending[n] == u;
      assert p.phase.sent[n] in p.phase.sent && p.phase.sent[n].uid == u;
      assert InRange(log, UptoOf(st, s), p.phase.page.end, p.phase.sent[n]);
    }
  }

  lemma SeenBehindGrows(e: Env, st: State, st': State, s: Stream, fresh': set<string>)
    requires SeenBehind(e, st) && DistinctLogs(st) && st'.logs == st.logs
    requires forall t :: UptoOf(st, t) <= UptoOf(st', t)
    requires st'.store.seen.Keys <= st.store.seen.Keys + fresh'
    requires forall u :: u in fresh' ==> LoggedBefore(LogOf(st, s), UptoOf(st', s), u)
    ensures SeenBehind(e, st')
  {
    forall t, i | 0 <= i < |LogOf(st', t)| && LogOf(st', t)[i].uid in st'.store.seen ensures i < UptoOf(st', t) {
      var u := LogOf(st, t)[i].uid;
      if u !in st.store.seen {
        var j :| 0 <= j < |LogOf(st, s)| && j < UptoOf(st', s) && LogOf(st, s)[j].uid == u;
      }
    }
  }

  lemma SeenBehindShrinks(e: Env, st: State, st': State)
    requires SeenBehind(e, st) && DistinctLogs(st')
    requires forall t :: LogOf(st, t) <= LogOf(st', t) && UptoOf(st, t) == UptoOf(st', t)
    requires forall u :: u in st'.store.seen ==> u in st.store.seen && InLogs(st, u)
    ensures SeenBehind(e, st')
  {
    forall t, i | 0 <= i < |LogOf(st', t)| && LogOf(st', t)[i].uid in st'.store.seen ensures i < UptoOf(st', t) {
      var u := LogOf(st', t)[i].uid;
      var r, j :| 0 <= j < |LogOf(st, r)| && LogOf(st, r)[j].uid == u;
      assert LogOf(st, r) <= LogOf(st', r);
      assert LogOf(st', r)[j].uid == u;
    }
  }

  lemma CommitSeen(e: Env, st: State, s: Stream, version: string)
    requires CanMove(e, st, s, CommitBatch(version))
    ensures var st' := Moved(e, st, s, CommitBatch(version));
      && st'.logs == st.logs && UptoOf(st', s) == ProcOf(st, s).phase.page.end
      && forall u :: u in st'.store.seen ==> u in st.store.seen || u in ProcOf(st, s).pending
  {
  }

  lemma SeenBehindCommit(e: Env, st: State, s: Stream, version: string)
    requires SeenBehind(e, st) && DistinctLogs(st) && ProcOk(e, st, s) && CanMove(e, st, s, CommitBatch(version))
    requires AtOpenKey(e, st, s, CommitBatch(version))
    ensures SeenBehind(e, Moved(e, st, s, CommitBatch(version)))
  {
    hide SeenBehind, DistinctLogs, ProcOk, LoggedBefore, Moved;
    CommitSeen(e, st, s, version);
    PendingLogged(e, st, s, version);
    MoveExtends(e, st, s, CommitBatch(version));
    SeenBehindGrows(e, st, Moved(e, st, s, CommitBatch(version)), s, set u | u in ProcOf(st, s).pending);
  }

  lemma SeenBehindStays(e: Env, st: State, a: Action)
    requires Inv(e, st) && Enabled(e, st, a) && SeenBehind(e, st) && DistinctLogs(st) && DistinctLogs(Apply(e, st, a))
    ensures SeenBehind(e, Apply(e, st, a))
  {
    hide Base, SeenBehind, DistinctLogs, ProcOk, InLogs, Moved, SeenDelivered, CommittedDelivered, RowsFromLogs, AtOpenKey;
    var st' := Apply(e, st, a);
    StepAtOpenKey(e, st, a);
    if a.Act? && a.move.CommitBatch? {
      SeenBehindCommit(e, st, a.s, a.move.version);
    } else {
      ActionExtends(e, st, a);
      QuietSeen(e, st, a);
      forall u | u in st'.store.seen ensures InLogs(st, u) {
        SeenInLogs(e, st, u);
      }
      SeenBehindShrinks(e, st, st');
    }
  }

  lemma ObjectsPlainAfter(e: Env, st: State, a: Action)
    requires Inv(e, st) && Enabled(e, st, a) && Plain(e, st) && DistinctLogs(st)
    ensures ObjectsPlain(e, Apply(e, st, a))
  {
    hide Base, SeenBehind, HeldExact, ObjectsPlain, ProcOk, Moved, SeenDelivered, CommittedDelivered, RowsFromLogs;
    if a.Act? && a.move.Put? {
      PlainPut(e, st, a.s, a.move.bucket, a.move.rows);
    } else {
      StepExtends(e, st, a);
      QuietLake(e, st, a);
      ObjectsPlainStay(e, st, Apply(e, st, a));
    }
  }

  lemma PlainStays(e: Env, st: State, a: Action)
    requires Inv(e, st) && Enabled(e, st, a) && Plain(e, st) && DistinctLogs(st) && DistinctLogs(Apply(e, st, a))
    ensures Plain(e, Apply(e, st, a))
  {
    hide Inv, SeenBehind, DistinctLogs, HeldExact, ObjectsPlain, Moved, Apply;
    SeenBehindStays(e, st, a);
    ObjectsPlainAfter(e, st, a);
    forall s | s in e.streams ensures HeldExact(e, Apply(e, st, a), s) {
      HeldAfterStep(e, st, a, s);
    }
  }

  // ----- what covering buys -----

  /** Each final object holds only events its stream has committed past. */
  ghost predicate ClosedTidy(e: Env, st: State) {
    forall k, ev :: k in st.lake && Closed(e, st, k) && ev in st.lake[k] ==>
      InRange(LogOf(st, e.owner(k.batch)), e.pos(k.batch), UptoOf(st, e.owner(k.batch)), ev)
  }

  /** Of the objects that are not final, only those at a stream's start hold anything. */
  ghost predicate OpenTidy(e: Env, st: State) {
    forall k :: k in st.lake && !Closed(e, st, k) && st.lake[k] != [] ==>
      k.batch == Start(e, st, e.owner(k.batch)) && !Finished(st.store, e.owner(k.batch))
  }

  ghost predicate Tidy(e: Env, st: State) {
    ClosedTidy(e, st) && OpenTidy(e, st) && AtMostOne(st.lake)
  }

  /** Two ranges that hold the same uid are of the same log and overlap. */
  lemma SamePlace(st: State, s: Stream, t: Stream, lo: int, hi: int, lo': int, hi': int, ev: Event, ev': Event)
    requires DistinctLogs(st) && ev.uid == ev'.uid
    requires InRange(LogOf(st, s), lo, hi, ev) && InRange(LogOf(st, t), lo', hi', ev')
    ensures s == t && ev == ev' && lo < hi' && lo' < hi
  {
    var i :| lo <= i < hi && 0 <= i < |LogOf(st, s)| && LogOf(st, s)[i] == ev;
    var j :| lo' <= j < hi' && 0 <= j < |LogOf(st, t)| && LogOf(st, t)[j] == ev';
    assert LogOf(st, s)[i].uid == LogOf(st, t)[j].uid;
  }

  /** A row about to be PUT is nowhere else in the lake. */
  lemma PutElsewhere(e: Env, st: State, s: Stream, b: Bucket, rows: seq<Event>, ev: Event, k: ObjectKey, ev': Event)
    requires Base(e, st) && ProcOk(e, st, s) && ObjectsPlain(e, st) && ClosedTidy(e, st) && OpenTidy(e, st) && DistinctLogs(st)
    requires s in e.streams && CanMove(e, st, s, Put(b, rows))
    requires ev in rows && k in st.lake && ev' in st.lake[k] && ev.uid == ev'.uid
    ensures k == ObjectKey(ProcOf(st, s).batchKey, b)
  {
    var t := e.owner(k.batch);
    OpenKey(e, st, s, Put(b, rows));
    PutRow(e, st, s, b, rows, ev);
    SamePlace(st, s, t, UptoOf(st, s), Reached(e, ProcOf(st, s)), e.pos(k.batch), |LogOf(st, t)|, ev, ev');
    if Closed(e, st, k) {
      SamePlace(st, s, t, UptoOf(st, s), Reached(e, ProcOf(st, s)), e.pos(k.batch), UptoOf(st, t), ev, ev');
    }
  }

  lemma PutAtMostOne(e: Env, st: State, s: Stream, b: Bucket, rows: seq<Event>)
    requires Base(e, st) && ProcOk(e, st, s) && ObjectsPlain(e, st) && Tidy(e, st) && DistinctLogs(st)
    requires s in e.streams && CanMove(e, st, s, Put(b, rows)) && UniqueUids(rows)
    ensures AtMostOne(Moved(e, st, s, Put(b, rows)).lake)
  {
    var k0 := ObjectKey(ProcOf(st, s).batchKey, b);
    var lake' := st.lake[k0 := rows];
    forall k, i, k', i', u | RowAt(lake', k, i, u) && RowAt(lake', k', i', u) ensures k == k' && i == i' {
      if k == k0 && k' != k0 {
        PutElsewhere(e, st, s, b, rows, rows[i], k', st.lake[k'][i']);
      } else if k' == k0 && k != k0 {
        PutElsewhere(e, st, s, b, rows, rows[i'], k, st.lake[k][i]);
      } else if k != k0 {
        assert RowAt(st.lake, k, i, u) && RowAt(st.lake, k', i', u);
      }
    }
  }

  lemma OpenTidyAfterPut(e: Env, st: State, s: Stream, b: Bucket, rows: seq<Event>)
    requires Base(e, st) && ProcOk(e, st, s) && OpenTidy(e, st) && s in e.streams && CanMove(e, st, s, Put(b, rows))
    ensures OpenTidy(e, Moved(e, st, s, Put(b, rows)))
  {
    hide ProcOk, Base, Targets, InBucket;
    OpenKey(e, st, s, Put(b, rows));
    var st' := Moved(e, st, s, Put(b, rows));
    forall k ensures Closed(e, st', k) == Closed(e, st, k) && Start(e, st', e.owner(k.batch)) == Start(e, st, e.owner(k.batch)) {
    }
  }

  lemma TidyPut(e: Env, st: State, s: Stream, b: Bucket, rows: seq<Event>)
    requires Base(e, st) && ProcOk(e, st, s) && ObjectsPlain(e, st) && Tidy(e, st) && DistinctLogs(st)
    requires s in e.streams && CanMove(e, st, s, Put(b, rows)) && UniqueUids(rows)
    ensures Tidy(e, Moved(e, st, s, Put(b, rows)))
  {
    hide ProcOk, Base, ObjectsPlain, DistinctLogs, UniqueUids, AtMostOne, Targets, InBucket, OpenTidy;
    OpenKey(e, st, s, Put(b, rows));
    PutAtMostOne(e, st, s, b, rows);
    OpenTidyAfterPut(e, st, s, b, rows);
    assert !Closed(e, st, ObjectKey(ProcOf(st, s).batchKey, b));
  }

  /** The objects a covered commit closes hold exactly the batch. */
  lemma CommittedRow(e: Env, st: State, s: Stream, version: string, k: ObjectKey, ev: Event)
    requires Base(e, st) && ProcOk(e, st, s) && OpenTidy(e, st)
    requires s in e.streams && CanMove(e, st, s, CommitBatch(version)) && Covers(e, st, s)
    requires k in st.lake && e.owner(k.batch) == s && !Closed(e, st, k) && ev in st.lake[k]
    ensures k.batch == ProcOf(st, s).batchKey && e.pos(k.batch) == UptoOf(st, s)
    ensures InRange(LogOf(st, s), UptoOf(st, s), ProcOf(st, s).phase.page.end, ev)
  {
    var sent := ProcOf(st, s).phase.sent;
    OpenKey(e, st, s, CommitBatch(version));
    assert k.bucket in Targets(e, sent);
    assert Stored(e, st, ProcOf(st, s).batchKey, sent, k.bucket);
    assert ev in multiset(InBucket(e, sent, k.bucket));
  }

  /** Only the key a stream stands at holds anything that is not final: with covering commits this needs
      no assumption on the logs. */
  lemma OpenTidyAfterCommit(e: Env, st: State, s: Stream, version: string)
    requires Inv(e, st) && OpenTidy(e, st) && s in e.streams && CanMove(e, st, s, CommitBatch(version)) && Covers(e, st, s)
    ensures OpenTidy(e, Moved(e, st, s, CommitBatch(version)))
  {
    hide Covered, Drawn, PhaseOk, Stored, RowsFromLogs, SeenDelivered, CommittedDelivered, MarkAll, Uids, InBucket, Targets;
    var st' := Moved(e, st, s, CommitBatch(version));
    OpenKey(e, st, s, CommitBatch(version));
    assert ProcOk(e, st, s);
    MoveExtends(e, st, s, CommitBatch(version));
    forall k | k in st'.lake && !Closed(e, st', k) && st'.lake[k] != []
      ensures k.batch == Start(e, st', e.owner(k.batch)) && !Finished(st'.store, e.owner(k.batch))
    {
      if e.owner(k.batch) == s {
        CommittedRow(e, st, s, version, k, st.lake[k][0]);
      } else {
        MoveIsolated(e, st, s, CommitBatch(version), e.owner(k.batch));
      }
    }
  }

  lemma TidyCommit(e: Env, st: State, s: Stream, version: string)
    requires Inv(e, st) && Tidy(e, st)
    requires s in e.streams && CanMove(e, st, s, CommitBatch(version)) && Covers(e, st, s)
    ensures Tidy(e, Moved(e, st, s, CommitBatch(version)))
  {
    hide Covered, Drawn, PhaseOk, Stored, AtMostOne, RowsFromLogs, SeenDelivered, CommittedDelivered, MarkAll, Uids, InBucket, Targets;
    var st' := Moved(e, st, s, CommitBatch(version));
    OpenKey(e, st, s, CommitBatch(version));
    assert ProcOk(e, st, s);
    MoveExtends(e, st, s, CommitBatch(version));
    forall k, ev | k in st'.lake && Closed(e, st', k) && ev in st'.lake[k]
      ensures InRange(LogOf(st', e.owner(k.batch)), e.pos(k.batch), UptoOf(st', e.owner(k.batch)), ev)
    {
      if Closed(e, st, k) {
        assert InRange(LogOf(st, e.owner(k.batch)), e.pos(k.batch), UptoOf(st, e.owner(k.batch)), ev);
      } else {
        CommittedRow(e, st, s, version, k, ev);
      }
    }
    OpenTidyAfterCommit(e, st, s, version);
  }

  lemma ClosedTidyStays(e: Env, st: State, st': State)
    requires ClosedTidy(e, st) && Extends(e, st, st') && st'.lake == st.lake && st'.upto == st.upto
    ensures ClosedTidy(e, st')
  {
    forall k, ev | k in st'.lake && Closed(e, st', k) && ev in st'.lake[k]
      ensures InRange(LogOf(st', e.owner(k.batch)), e.pos(k.batch), UptoOf(st', e.owner(k.batch)), ev)
    {
      var log, log' := LogOf(st, e.owner(k.batch)), LogOf(st', e.owner(k.batch));
      assert log <= log' && Closed(e, st, k);
      var i :| e.pos(k.batch) <= i < UptoOf(st, e.owner(k.batch)) && 0 <= i < |log| && log[i] == ev;
      assert log'[i] == ev;
    }
  }

  lemma OpenTidyAfterQuiet(e: Env, st: State, a: Action)
    requires OpenTidy(e, st) && Enabled(e, st, a) && !(a.Act? && (a.move.Put? || a.move.CommitBatch?))
    ensures OpenTidy(e, Apply(e, st, a))
  {
    hide Enabled, Apply, Start, Finished;
    var st' := Apply(e, st, a);
    QuietLake(e, st, a);
    QuietSeen(e, st, a);
    forall k | k in st'.lake && !Closed(e, st', k) && st'.lake[k] != []
      ensures k.batch == Start(e, st', e.owner(k.batch)) && !Finished(st'.store, e.owner(k.batch))
    {
      QuietStart(e, st, a, e.owner(k.batch));
    }
  }

  lemma TidyQuiet(e: Env, st: State, a: Action)
    requires Inv(e, st) && Tidy(e, st) && Enabled(e, st, a)
    requires !(a.Act? && (a.move.Put? || a.move.CommitBatch?))
    ensures Tidy(e, Apply(e, st, a))
  {
    hide Inv, Enabled, Apply, ClosedTidy, Extends, Start, Finished, Filtered;
    var st' := Apply(e, st, a);
    StepExtends(e, st, a);
    QuietLake(e, st, a);
    QuietSeen(e, st, a);
    ClosedTidyStays(e, st, st');
    OpenTidyAfterQuiet(e, st, a);
  }

  lemma QuietStart(e: Env, st: State, a: Action, s: Stream)
    requires Enabled(e, st, a) && !(a.Act? && a.move.CommitBatch?)
    ensures Start(e, Apply(e, st, a), s) == Start(e, st, s)
    ensures Finished(Apply(e, st, a).store, s) <==> Finished(st.store, s)
  {
    hide Moved, CanMove;
    if a.Act? {
      QuietStore(e, st, a.s, a.move, s);
    }
  }

  lemma StepStaysTidy(e: Env, st: State, a: Action)
    requires Inv(e, st) && Plain(e, st) && DistinctLogs(st) && Tidy(e, st)
    requires Enabled(e, st, a) && CoversIfCommit(e, st, a)
    requires a.Act? && a.move.Put? ==> UniqueUids(a.move.rows)
    ensures Tidy(e, Apply(e, st, a))
  {
    hide Base, ObjectsPlain, SeenBehind, HeldExact, DistinctLogs, Tidy, Moved, ProcOk, SeenDelivered, CommittedDelivered, RowsFromLogs;
    if a.Act? && a.move.Put? {
      TidyPut(e, st, a.s, a.move.bucket, a.move.rows);
    } else if a.Act? && a.move.CommitBatch? {
      TidyCommit(e, st, a.s, a.move.version);
    } else {
      TidyQuiet(e, st, a);
    }
  }

  lemma UniquePut(e: Env, st: State, a: Action)
    requires Inv(e, st) && Plain(e, st) && DistinctLogs(st) && Enabled(e, st, a)
    ensures a.Act? && a.move.Put? ==> UniqueUids(a.move.rows)
  {
    hide Base, ObjectsPlain, SeenBehind, HeldExact, DistinctLogs, ProcOk, SeenDelivered, CommittedDelivered, RowsFromLogs, UniqueUids;
    if a.Act? && a.move.Put? {
      PlainRows(e, st, a.s, a.move.bucket, a.move.rows);
    }
  }

  lemma DistinctPrefix(e: Env, st: State, st': State)
    requires Extends(e, st, st') && DistinctLogs(st')
    ensures DistinctLogs(st)
  {
    forall s, t, i, j | 0 <= i < |LogOf(st, s)| && 0 <= j < |LogOf(st, t)| && LogOf(st, s)[i].uid == LogOf(st, t)[j].uid
      ensures s == t && i == j
    {
      assert LogOf(st, s) <= LogOf(st', s) && LogOf(st, t) <= LogOf(st', t);
      assert LogOf(st', s)[i].uid == LogOf(st', t)[j].uid;
    }
  }

  lemma {:induction false} RunStaysTidy(e: Env, st: State, acts: seq<Action>)
    requires Inv(e, st) && Plain(e, st) && Legal(e, st, acts) && DistinctLogs(Exec(e, st, acts))
    ensures Inv(e, Exec(e, st, acts)) && Plain(e, Exec(e, st, acts)) && DistinctLogs(st)
    ensures Tidy(e, st) && Covering(e, st, acts) ==> Tidy(e, Exec(e, st, acts))
    decreases |acts|
  {
    hide Inv, Plain, Tidy, DistinctLogs, Apply, Enabled, Extends, CoversIfCommit, UniqueUids;
    RunKeepsInv(e, st, acts);
    DistinctPrefix(e, st, Exec(e, st, acts));
    if acts != [] {
      var a := acts[0];
      var st' := Apply(e, st, a);
      StepKeepsInv(e, st, a);
      RunKeepsInv(e, st', acts[1..]);
      DistinctPrefix(e, st', Exec(e, st, acts));
      PlainStays(e, st, a);
      RunStaysTidy(e, st', acts[1..]);
      if Tidy(e, st) && Covering(e, st, acts) {
        UniquePut(e, st, a);
        StepStaysTidy(e, st, a);
      }
    }
  }

  lemma InitPlain(e: Env, st: State)
    requires Init(e, st)
    ensures Plain(e, st) && Tidy(e, st)
  {
  }

  /** Exactly once: over logs of distinct uids, a run whose every commit covers its key has at most
      one row per uid in every state it reaches, and exactly one, in a final object, for each event
      a stream has committed past. */
  lemma ExactlyOnceWhenCovering(e: Env, st: State, acts: seq<Action>)
    requires Init(e, st) && Legal(e, st, acts) && DistinctLogs(Exec(e, st, acts)) && Covering(e, st, acts)
    ensures var end := Exec(e, st, acts);
      && AtMostOne(end.lake)
      && (forall s, i :: s in e.streams && e.pos(e.opening(s)) <= i < UptoOf(end, s) && i < |LogOf(end, s)|
            ==> Delivered(e, end, LogOf(end, s)[i].uid))
      && ClosedTidy(e, end)
  {
    InitInv(e, st);
    InitPlain(e, st);
    RunStaysTidy(e, st, acts);
  }

  /** Some object of stream `s` has a row of this uid. */
  ghost predicate InLake(e: Env, st: State, s: Stream, uid: string) {
    exists k, r :: RowAt(st.lake, k, r, uid) && e.owner(k.batch) == s
  }

  ghost predicate InPassed(e: Env, st: State, s: Stream, uid: string) {
    exists i :: e.pos(e.opening(s)) <= i < UptoOf(st, s) && i < |LogOf(st, s)| && LogOf(st, s)[i].uid == uid
  }

  /** With no uid in two logs, an event is delivered into its own stream's objects. */
  lemma DeliveredAtHome(e: Env, st: State, s: Stream, i: nat)
    requires RowsFromLogs(e, st) && DistinctLogs(st) && i < |LogOf(st, s)| && Delivered(e, st, LogOf(st, s)[i].uid)
    ensures InLake(e, st, s, LogOf(st, s)[i].uid)
  {
    var uid := LogOf(st, s)[i].uid;
    var k, r :| RowAt(st.lake, k, r, uid) && Closed(e, st, k);
    var j := RowInLog(e, st, k, r);
    assert LogOf(st, e.owner(k.batch))[j].uid == LogOf(st, s)[i].uid;
  }

  lemma LakeRowPassed(e: Env, st: State, s: Stream, k: ObjectKey, r: nat)
    requires Base(e, st) && ClosedTidy(e, st) && OpenTidy(e, st) && Finished(st.store, s)
    requires k in st.lake && r < |st.lake[k]| && e.owner(k.batch) == s
    ensures InPassed(e, st, s, st.lake[k][r].uid)
  {
    assert Closed(e, st, k);
    assert st.lake[k][r] in st.lake[k];
    assert InRange(LogOf(st, s), e.pos(k.batch), UptoOf(st, s), st.lake[k][r]);
    assert KeyOk(e, st, k);
  }

  /** The end state of a finished range: its objects hold exactly the uids from its opening to where
      it finished, each on one row, however often it crashed and restarted on the way. */
  lemma FinishedRangeIsExact(e: Env, st: State, acts: seq<Action>, s: Stream)
    requires Init(e, st) && Legal(e, st, acts) && DistinctLogs(Exec(e, st, acts)) && Covering(e, st, acts)
    requires s in e.streams && Finished(Exec(e, st, acts).store, s)
    ensures var end := Exec(e, st, acts);
      AtMostOne(end.lake) && forall u :: InLake(e, end, s, u) <==> InPassed(e, end, s, u)
  {
    hide Init, Legal, Covering, DistinctLogs, ObjectsPlain, SeenBehind, HeldExact, ProcOk, AtMostOne, ClosedTidy, OpenTidy;
    InitInv(e, st);
    InitPlain(e, st);
    RunStaysTidy(e, st, acts);
    var end := Exec(e, st, acts);
    forall u ensures InLake(e, end, s, u) <==> InPassed(e, end, s, u) {
      if InLake(e, end, s, u) {
        var k, r :| RowAt(end.lake, k, r, u) && e.owner(k.batch) == s;
        LakeRowPassed(e, end, s, k, r);
      }
      if InPassed(e, end, s, u) {
        var i :| e.pos(e.opening(s)) <= i < UptoOf(end, s) && i < |LogOf(end, s)| && LogOf(end, s)[i].uid == u;
        DeliveredAtHome(e, end, s, i);
      }
    }
  }

  /** A replay that reads at least as far as every attempt that crashed at its key covers them: the
      rows they left are events of the batch being committed. */
  lemma LongerReplayCovers(e: Env, st: State, s: Stream, version: string)
    requires Base(e, st) && ProcOk(e, st, s) && HeldExact(e, st, s) && ObjectsPlain(e, st) && s in e.streams
    requires CanMove(e, st, s, CommitBatch(version))
    requires forall k: ObjectKey, ev | k in st.lake && k.batch == ProcOf(st, s).batchKey && ev in st.lake[k] ::
      InRange(LogOf(st, s), UptoOf(st, s), ProcOf(st, s).phase.page.end, ev)
    ensures Covers(e, st, s)
  {
    hide ProcOk, Covered, Drawn;
    var p, log := ProcOf(st, s), LogOf(st, s);
    OpenKey(e, st, s, CommitBatch(version));
    forall k: ObjectKey | k in st.lake && k.batch == p.batchKey && st.lake[k] != []
      ensures k.bucket in Targets(e, p.phase.sent)
    {
      var ev := st.lake[k][0];
      assert ev in st.lake[k] && ObjectPlain(e, st, k, st.lake[k]);
      assert InRange(log, UptoOf(st, s), p.phase.page.end, ev);
      var i :| UptoOf(st, s) <= i < p.phase.page.end && 0 <= i < |log| && log[i] == ev;
      assert p.phase.sent[i - UptoOf(st, s)] == ev;
      assert ev in p.phase.sent && BucketOf(e, ev) == k.bucket;
    }
  }

  /** A sink that writes one object per batch key always covers. */
  lemma {:induction false} OneObjectCovers(e: Env, st: State, acts: seq<Action>)
    requires e.oneObject && Inv(e, st) && Plain(e, st) && Legal(e, st, acts) && DistinctLogs(Exec(e, st, acts))
    ensures Covering(e, st, acts)
    decreases |acts|
  {
    if acts != [] {
      var a, st' := acts[0], Apply(e, st, acts[0]);
      StepKeepsInv(e, st, a);
      RunKeepsInv(e, st', acts[1..]);
      DistinctPrefix(e, st', Exec(e, st, acts));
      DistinctPrefix(e, st, st');
      PlainStays(e, st, a);
      OneObjectCovers(e, st', acts[1..]);
      if a.Act? && a.move.CommitBatch? {
        forall k: ObjectKey | k in st.lake && st.lake[k] != [] ensures k.bucket == Whole {
          assert st.lake[k][0] in st.lake[k];
        }
      }
    }
  }

  /** Hence for one object per key, exactly once holds of every run, whatever crashes and however
      differently a replay is cut. */
  lemma ExactlyOnceForOneObject(e: Env, st: State, acts: seq<Action>)
    requires e.oneObject && Init(e, st) && Legal(e, st, acts) && DistinctLogs(Exec(e, st, acts))
    ensures var end := Exec(e, st, acts);
      && AtMostOne(end.lake)
      && (forall s, i :: s in e.streams && e.pos(e.opening(s)) <= i < UptoOf(end, s) && i < |LogOf(end, s)|
            ==> Delivered(e, end, LogOf(end, s)[i].uid))
  {
    InitInv(e, st);
    InitPlain(e, st);
    OneObjectCovers(e, st, acts);
    ExactlyOnceWhenCovering(e, st, acts);
  }
}
