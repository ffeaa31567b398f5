/** Opening a finished range again can lose rows from every state but the safe ones: the exact condition. */
module ReopeningLoss {
  import opened Domain
  import opened StateSpec
  import opened Protocol
  import opened DeliverySafety
  import opened ExactlyOnce
  import opened RunLoop
  import opened RunTrace
  import opened RunGuarantees
  import opened EventLoss
  import opened Reopening

  // ----- a run to the object's key -----

  /** For the sink that writes nothing for an empty batch: only an opening key points at an opening
      position. */
  ghost predicate OpeningKeys(e: Env, st: State) {
    !e.oneObject ==>
      && (forall k | k in st.lake && e.pos(k.batch) == e.pos(e.opening(e.owner(k.batch))) :: k.batch == e.opening(e.owner(k.batch)))
      && (forall s | s in e.streams && GetCursor(st.store, s).Some? :: e.pos(e.opening(s)) < UptoOf(st, s))
  }

  lemma StepOpeningKeys(e: Env, st: State, a: Action)
    requires Inv(e, st) && Enabled(e, st, a) && OpeningKeys(e, st)
    ensures OpeningKeys(e, Apply(e, st, a))
  {
    hide Base, RowsFromLogs, CommittedDelivered, SeenDelivered, ProcOk, Moved, AtOpenKey, CanMove, GetCursor, Finished;
    var st' := Apply(e, st, a);
    if e.oneObject {
    } else if a.Act? && a.move.CommitBatch? {
      CommitOpeningKeys(e, st, a.s, a.move.version);
    } else if a.Act? && a.move.Put? {
      PutOpeningKeys(e, st, a.s, a.move.bucket, a.move.rows);
    } else {
      QuietLake(e, st, a);
      QuietSeen(e, st, a);
      forall s | s in e.streams ensures GetCursor(st'.store, s) == GetCursor(st.store, s) {
        QuietCursor(e, st, a, s);
      }
    }
  }

  lemma QuietCursor(e: Env, st: State, a: Action, s: Stream)
    requires Enabled(e, st, a) && !(a.Act? && a.move.CommitBatch?)
    ensures GetCursor(Apply(e, st, a).store, s) == GetCursor(st.store, s)
  {
    hide Moved, CanMove;
    if a.Act? {
      QuietStore(e, st, a.s, a.move, s);
    }
  }

  lemma CommitOpeningKeys(e: Env, st: State, s: Stream, version: string)
    requires Inv(e, st) && s in e.streams && CanMove(e, st, s, CommitBatch(version)) && OpeningKeys(e, st) && !e.oneObject
    ensures OpeningKeys(e, Moved(e, st, s, CommitBatch(version)))
  {
    hide RowsFromLogs, CommittedDelivered, SeenDelivered, ProcOk, KeyOk, MarkAll;
    assert StreamOk(e, st, s);
    if ProcOf(st, s).phase.page.next.Some? {
      CommitAdvances(e, st, s, version);
    }
    forall t | t in e.streams && t != s
      ensures GetCursor(Moved(e, st, s, CommitBatch(version)).store, t) == GetCursor(st.store, t)
    {
      QuietStore(e, st, s, CommitBatch(version), t);
    }
  }

  lemma PutOpeningKeys(e: Env, st: State, s: Stream, b: Bucket, rows: seq<Event>)
    requires Inv(e, st) && s in e.streams && CanMove(e, st, s, Put(b, rows)) && OpeningKeys(e, st) && !e.oneObject
    ensures OpeningKeys(e, Moved(e, st, s, Put(b, rows)))
  {
    hide RowsFromLogs, CommittedDelivered, SeenDelivered, Targets, InBucket;
    assert ProcOk(e, st, s);
    OpenKey(e, st, s, Put(b, rows));
  }

  lemma {:induction false} RunOpeningKeys(e: Env, st: State, acts: seq<Action>)
    requires Inv(e, st) && OpeningKeys(e, st) && Legal(e, st, acts)
    ensures OpeningKeys(e, Exec(e, st, acts))
    decreases |acts|
  {
    hide Inv, OpeningKeys, Apply, Enabled;
    if acts != [] {
      StepOpeningKeys(e, st, acts[0]);
      StepKeepsInv(e, st, acts[0]);
      RunOpeningKeys(e, Apply(e, st, acts[0]), acts[1..]);
    }
  }

  /** Every object is as before, or holds only these events. */
  ghost predicate ChangedBy(lake: Lake, lake': Lake, events: seq<Event>) {
    forall k | k in lake' :: (k in lake && lake'[k] == lake[k]) || forall ev :: ev in lake'[k] ==> ev in events
  }

  /** The seen-set says the same of every uid but these events'. */
  ghost predicate SeenBut(seen: map<string, int>, seen': map<string, int>, events: seq<Event>) {
    forall u :: HasUid(events, u) || ((u in seen <==> u in seen') && (u in seen ==> seen[u] == seen'[u]))
  }

  lemma MarkedBut(e: Env, st: State, s: Stream, next: Option<Cursor>, events: seq<Event>)
    ensures SeenBut(st.store.seen, Commit(st.store, st.now, e.ttl, s, next, Uids(KeptNow(st, events)), "").seen, events)
  {
    hide Filtered;
    KeptAreOf(st, events);
    var kept := KeptNow(st, events);
    forall u | u in Uids(kept) ensures HasUid(kept, u) {
      var i :| 0 <= i < |kept| && Uids(kept)[i] == u;
      assert kept[i].uid == u;
    }
  }

  lemma RewrittenIsChanged(e: Env, lake: Lake, key: Cursor, st: State, events: seq<Event>, lake': Lake)
    requires Rewritten(e, lake, key, KeptNow(st, events), lake')
    ensures ChangedBy(lake, lake', events)
  {
    hide Targets, KeptNow;
    KeptAreOf(st, events);
  }

  lemma Unchanged(lake: Lake, seen: map<string, int>, events: seq<Event>)
    ensures ChangedBy(lake, lake, events) && SeenBut(seen, seen, events)
  {
  }

  /** One committed batch brings a run from the opening to a key further on. */
  lemma Reaches(e: Env, s: Stream, tr: Trace, o: Cursor, c: Cursor) returns (tr': Trace)
    requires Recorded(e, tr) && s in e.streams && ReadyAt(tr.now, s, o)
    requires e.owner(c) == s && e.pos(o) <= e.pos(c) <= |LogOf(tr.now, s)|
    requires c == o || e.oneObject || KeptNow(tr.now, LogOf(tr.now, s)[e.pos(o)..e.pos(c)]) != []
    ensures Recorded(e, tr') && tr'.start == tr.start && ReadyAt(tr'.now, s, c)
    ensures tr'.now.logs == tr.now.logs && tr'.now.now == tr.now.now
    ensures ChangedBy(tr.now.lake, tr'.now.lake, LogOf(tr.now, s)[e.pos(o)..e.pos(c)])
    ensures SeenBut(tr.now.store.seen, tr'.now.store.seen, LogOf(tr.now, s)[e.pos(o)..e.pos(c)])
  {
    hide KeptNow, Rewritten, Commit, Uids, ChangedBy, SeenBut;
    tr' := tr;
    Unchanged(tr.now.lake, tr.now.store.seen, LogOf(tr.now, s)[e.pos(o)..e.pos(c)]);
    if c != o {
      var events := LogOf(tr.now, s)[e.pos(o)..e.pos(c)];
      var page, kept;
      tr', page, kept := ReadsPage(e, s, tr, o, e.pos(c) - e.pos(o), Some(c));
      tr' := CommitsAll(e, s, tr', o, kept, page);
      MarkedBut(e, tr.now, s, Some(c), events);
      RewrittenIsChanged(e, tr.now.lake, o, tr.now, events, tr'.now.lake);
      tr' := Then(e, tr', Act(s, Advance));
    }
  }

  lemma KeptAreOf(st: State, events: seq<Event>)
    ensures forall ev :: ev in KeptNow(st, events) ==> ev in events
    ensures forall u :: HasUid(KeptNow(st, events), u) ==> HasUid(events, u)
  {
    var kept := KeptNow(st, events);
    forall u | HasUid(kept, u) ensures HasUid(events, u) {
      var i :| 0 <= i < |kept| && kept[i].uid == u;
      assert kept[i] in events;
      var j :| 0 <= j < |events| && events[j] == kept[i];
      assert events[j].uid == u;
    }
  }

  /** A batch that overwrites one object and goes no further. */
  lemma Overwrites(e: Env, s: Stream, tr: Trace, c: Cursor, n: nat, b: Bucket) returns (tr': Trace)
    requires Recorded(e, tr) && s in e.streams && ReadyAt(tr.now, s, c) && e.pos(c) + n <= |LogOf(tr.now, s)|
    requires b in Targets(e, KeptNow(tr.now, LogOf(tr.now, s)[e.pos(c)..e.pos(c) + n]))
    ensures Recorded(e, tr') && tr'.start == tr.start && tr'.now.logs == tr.now.logs
    ensures tr'.now.lake == tr.now.lake[ObjectKey(c, b) := InBucket(e, KeptNow(tr.now, LogOf(tr.now, s)[e.pos(c)..e.pos(c) + n]), b)]
  {
    hide Filtered, Targets, Uids, InBucket;
    var page, kept;
    tr', page, kept := ReadsPage(e, s, tr, c, n, None);
    tr' := Then(e, tr', Act(s, BeginFlush));
    tr' := Then(e, tr', Act(s, Put(b, InBucket(e, kept, b))));
  }

  lemma NotInSlice(st: State, s: Stream, lo: nat, hi: nat, i: nat)
    requires DistinctLogs(st) && lo <= hi <= i < |LogOf(st, s)|
    ensures !HasUid(LogOf(st, s)[lo..hi], LogOf(st, s)[i].uid)
    ensures forall ev :: ev in LogOf(st, s)[lo..hi] ==> ev.uid != LogOf(st, s)[i].uid
  {
    var log, slice := LogOf(st, s), LogOf(st, s)[lo..hi];
    forall n | 0 <= n < |slice| ensures slice[n].uid != log[i].uid {
      assert log[lo + n] == slice[n];
    }
  }

  lemma Gone(lake: Lake, mid: Lake, k: ObjectKey, r: nat, events: seq<Event>, rows: seq<Event>)
    requires AtMostOne(lake) && k in lake && r < |lake[k]| && ChangedBy(lake, mid, events)
    requires forall ev :: ev in events || ev in rows ==> ev.uid != lake[k][r].uid
    ensures !OnSomeRow(mid[k := rows], lake[k][r].uid)
  {
    var u, lake' := lake[k][r].uid, mid[k := rows];
    assert RowAt(lake, k, r, u);
    forall k', r' ensures !RowAt(lake', k', r', u) {
      if k' in mid && k' != k && 0 <= r' < |mid[k']| {
        assert mid[k'][r'] in mid[k'];
        if k' in lake && mid[k'] == lake[k'] {
          assert !RowAt(lake, k', r', u);
        }
      } else if k' == k && 0 <= r' < |rows| {
        assert rows[r'] in rows;
      }
    }
  }

  // ----- the three ways to lose a row -----

  /** A delivered uid and a rerun after which it is on no row. */
  ghost predicate Lost(e: Env, st: State, s: Stream, acts: seq<Action>, u: string) {
    && Legal(e, Opened(e, st, s), acts)
    && DistinctLogs(Exec(e, Opened(e, st, s), acts))
    && Delivered(e, st, u) && !OnSomeRow(Exec(e, Opened(e, st, s), acts).lake, u)
  }

  /** What the ways share: the finished range, and an object of it. */
  ghost predicate Losable(e: Env, st: State, s: Stream, k: ObjectKey) {
    && Inv(e, st) && ObjectsPlain(e, st) && Tidy(e, st) && OpeningKeys(e, st) && DistinctLogs(st)
    && s in e.streams && Finished(st.store, s)
    && k in st.lake && st.lake[k] != [] && e.owner(k.batch) == s
  }

  lemma LosableMeans(e: Env, st: State, s: Stream, k: ObjectKey)
    requires Losable(e, st, s, k)
    ensures e.pos(e.opening(s)) <= e.pos(k.batch) <= |LogOf(st, s)| && AtMostOne(st.lake) && Closed(e, st, k)
    ensures Start(e, st, s) == e.opening(s) && ReadyAt(Opened(e, st, s), s, e.opening(s)) && UniqueUids(st.lake[k])
    ensures forall u, r :: RowAt(st.lake, k, r, u) ==> Delivered(e, st, u)
    ensures !e.oneObject && k.batch != e.opening(s) ==> e.pos(e.opening(s)) < e.pos(k.batch)
  {
    assert KeyOk(e, st, k) && StreamOk(e, st, s);
  }

  /** One object for a key: an empty page overwrites it with nothing. */
  lemma LosesToEmpty(e: Env, st: State, s: Stream, k: ObjectKey) returns (acts: seq<Action>, u: string)
    requires Losable(e, st, s, k) && e.oneObject
    ensures Lost(e, st, s, acts, u)
  {
    hide Inv, ObjectsPlain, Tidy, OpeningKeys, DistinctLogs, Opened, Start, InBucket;
    var o, log := e.opening(s), LogOf(st, s);
    LosableMeans(e, st, s, k);
    var i := RowIndex(e, st, s, k, 0);
    u := st.lake[k][0].uid;
    var tr := Trace(Opened(e, st, s), [], Opened(e, st, s));
    OpenedKeeps(e, st, s);
    var mid := Reaches(e, s, tr, o, k.batch);
    assert log[e.pos(k.batch)..e.pos(k.batch) + 0] == [];
    NothingKept(e, mid.now, Whole);
    var end := Overwrites(e, s, mid, k.batch, 0, Whole);
    NotInSlice(st, s, e.pos(o), e.pos(k.batch), i);
    Gone(st.lake, mid.now.lake, k, 0, log[e.pos(o)..e.pos(k.batch)], []);
    acts := end.acts;
    DistinctToo(st, end.now);
    assert RowAt(st.lake, k, 0, u) && k == ObjectKey(k.batch, Whole);
  }

  lemma NothingKept(e: Env, st: State, b: Bucket)
    ensures KeptNow(st, []) == [] && InBucket(e, [], b) == []
    ensures e.oneObject ==> Whole in Targets(e, [])
  {
  }

  lemma OpenedKeeps(e: Env, st: State, s: Stream)
    ensures var st' := Opened(e, st, s); st'.lake == st.lake && st'.logs == st.logs && st'.store == st.store && st'.now == st.now
  {
  }

  /** Where a row of the object stands in the log. */
  lemma RowIndex(e: Env, st: State, s: Stream, k: ObjectKey, r: nat) returns (i: nat)
    requires Losable(e, st, s, k) && r < |st.lake[k]|
    ensures e.pos(k.batch) <= i < |LogOf(st, s)| && LogOf(st, s)[i] == st.lake[k][r]
    ensures BucketOf(e, st.lake[k][r]) == k.bucket
  {
    i := RowInLog(e, st, k, r);
    assert st.lake[k][r] in st.lake[k];
  }

  lemma {:induction false} LastExpiry(seen: map<string, int>, us: set<string>, now: int) returns (t: int)
    requires us <= seen.Keys
    ensures now <= t && forall u :: u in us ==> seen[u] <= t
    decreases us
  {
    t := now;
    if us != {} {
      var u :| u in us;
      t := LastExpiry(seen, us - {u}, now);
      t := if seen[u] <= t then t else seen[u];
    }
  }

  lemma AllKept(st: State, s: Stream, lo: nat, hi: nat)
    requires DistinctLogs(st) && lo <= hi <= |LogOf(st, s)|
    requires forall ev :: ev in LogOf(st, s)[lo..hi] ==> !Live(st.store.seen, st.now, ev.uid)
    ensures KeptNow(st, LogOf(st, s)[lo..hi]) == LogOf(st, s)[lo..hi]
  {
    hide Filtered;
    DistinctSlice(st, s, lo, hi);
    NoneLiveKeepsAll(st.store.seen, st.now, LogOf(st, s)[lo..hi]);
  }

  /** What an earlier page of the log marks says nothing of a later one. */
  lemma LaterUnmarked(st: State, s: Stream, lo: nat, mid: nat, hi: nat)
    requires DistinctLogs(st) && lo <= mid <= hi <= |LogOf(st, s)|
    ensures forall ev :: ev in LogOf(st, s)[mid..hi] ==> !HasUid(LogOf(st, s)[lo..mid], ev.uid)
  {
    forall ev | ev in LogOf(st, s)[mid..hi] ensures !HasUid(LogOf(st, s)[lo..mid], ev.uid) {
      var n :| 0 <= n < hi - mid && LogOf(st, s)[mid..hi][n] == ev;
      NotInSlice(st, s, lo, mid, mid + n);
    }
  }

  /** Once everything has expired, a rerun brought to the object's key keeps all of the next page. */
  lemma ReachesExpired(e: Env, st: State, s: Stream, k: ObjectKey, hi: nat) returns (mid: Trace)
    requires Losable(e, st, s, k) && !e.oneObject && e.pos(k.batch) <= hi <= |LogOf(st, s)|
    ensures Recorded(e, mid) && mid.start == Opened(e, st, s) && ReadyAt(mid.now, s, k.batch) && mid.now.logs == st.logs
    ensures e.pos(e.opening(s)) <= e.pos(k.batch) && ChangedBy(st.lake, mid.now.lake, LogOf(st, s)[e.pos(e.opening(s))..e.pos(k.batch)])
    ensures KeptNow(mid.now, LogOf(st, s)[e.pos(k.batch)..hi]) == LogOf(st, s)[e.pos(k.batch)..hi]
  {
    hide Inv, ObjectsPlain, Tidy, OpeningKeys, DistinctLogs, Opened, Start, KeptNow, UniqueUids;
    var o, c := e.opening(s), k.batch;
    LosableMeans(e, st, s, k);
    OpenedKeeps(e, st, s);
    var t := LastExpiry(st.store.seen, st.store.seen.Keys, st.now);
    var tr := Trace(Opened(e, st, s), [], Opened(e, st, s));
    tr := Then(e, tr, Tick(t));
    DistinctToo(st, tr.now);
    AllKept(tr.now, s, e.pos(o), e.pos(c));
    mid := Reaches(e, s, tr, o, c);
    DistinctToo(st, mid.now);
    LaterUnmarked(st, s, e.pos(o), e.pos(c), hi);
    AllKept(mid.now, s, e.pos(c), hi);
  }

  /** The places in the log of two rows of an object, and the row of the later one. */
  lemma TwoPlaces(e: Env, st: State, s: Stream, k: ObjectKey) returns (first: nat, last: nat, r: nat)
    requires Losable(e, st, s, k) && |st.lake[k]| > 1
    ensures e.pos(k.batch) <= first < last < |LogOf(st, s)| && r < |st.lake[k]|
    ensures BucketOf(e, LogOf(st, s)[first]) == k.bucket && LogOf(st, s)[last] == st.lake[k][r]
  {
    hide Inv, ObjectsPlain, Tidy, OpeningKeys, DistinctLogs, Opened, Start, InRange;
    LosableMeans(e, st, s, k);
    var i := RowIndex(e, st, s, k, 0);
    var j := RowIndex(e, st, s, k, 1);
    r := if i < j then 1 else 0;
    first, last := if i < j then i else j, if i < j then j else i;
  }

  /** Several rows: once all have expired, a shorter page overwrites the object without the later ones. */
  lemma LosesToShortPage(e: Env, st: State, s: Stream, k: ObjectKey) returns (acts: seq<Action>, u: string)
    requires Losable(e, st, s, k) && !e.oneObject && |st.lake[k]| > 1
    ensures Lost(e, st, s, acts, u)
  {
    hide Inv, ObjectsPlain, Tidy, OpeningKeys, DistinctLogs, Opened, Start, InBucket, KeptNow, ChangedBy, InRange, UniqueUids;
    var o, c, log := e.opening(s), k.batch, LogOf(st, s);
    LosableMeans(e, st, s, k);
    var first, last, r := TwoPlaces(e, st, s, k);
    u := st.lake[k][r].uid;
    var n := first + 1 - e.pos(c);
    var mid := ReachesExpired(e, st, s, k, e.pos(c) + n);
    var page := log[e.pos(c)..e.pos(c) + n];
    assert page[n - 1] == log[first];
    var end := Overwrites(e, s, mid, c, n, k.bucket);
    NotInSlice(st, s, e.pos(c), e.pos(c) + n, last);
    NotInSlice(st, s, e.pos(o), e.pos(c), last);
    Gone(st.lake, mid.now.lake, k, r, log[e.pos(o)..e.pos(c)], InBucket(e, page, k.bucket));
    acts := end.acts;
    DistinctToo(st, end.now);
    assert RowAt(st.lake, k, r, u);
  }

  /** A string longer than all of these. */
  lemma {:induction false} NewString(us: set<string>) returns (u: string)
    ensures forall x :: x in us ==> |x| < |u|
    decreases us
  {
    u := "u";
    if us != {} {
      var x :| x in us;
      var v := NewString(us - {x});
      u := if |x| < |v| then v else x + "u";
    }
  }

  ghost function LoggedUids(e: Env, st: State): set<string> {
    set t, i | t in e.streams && 0 <= i < |LogOf(st, t)| :: LogOf(st, t)[i].uid
  }

  /** A new event of the class and time of a given one. */
  lemma Newcomer(e: Env, st: State, s: Stream, like: Event) returns (ev: Event)
    requires Inv(e, st) && DistinctLogs(st) && s in e.streams
    ensures BucketOf(e, ev) == BucketOf(e, like) && ev.uid !in st.store.seen
    ensures DistinctLogs(Apply(e, st, Grow(s, [ev])))
  {
    hide RowsFromLogs, SeenDelivered, CommittedDelivered, ProcOk, StreamOk, KeyOk;
    var u := NewString(LoggedUids(e, st));
    ev := Event(like.classUid, like.timeMs, u, JNull);
    forall t, i | 0 <= i < |LogOf(st, t)| ensures LogOf(st, t)[i].uid != u {
      assert LogOf(st, t)[i].uid in LoggedUids(e, st);
    }
    if u in st.store.seen {
      SeenInLogs(e, st, u);
    }
    GrowsDistinct(e, st, s, ev);
  }

  lemma GrowsDistinct(e: Env, st: State, s: Stream, ev: Event)
    requires DistinctLogs(st) && s in e.streams && forall t, i | 0 <= i < |LogOf(st, t)| :: LogOf(st, t)[i].uid != ev.uid
    ensures DistinctLogs(Apply(e, st, Grow(s, [ev])))
  {
    var st' := Apply(e, st, Grow(s, [ev]));
    forall t, i | 0 <= i < |LogOf(st', t)|
      ensures if i < |LogOf(st, t)| then LogOf(st', t)[i] == LogOf(st, t)[i] else t == s && i == |LogOf(st, s)| && LogOf(st', t)[i] == ev
    {
    }
  }

  /** A page whose live event is dropped and whose new event is kept. */
  lemma DropsLive(e: Env, st: State, events: seq<Event>, live: Event, fresh': Event)
    requires UniqueUids(events) && fresh' in events && Live(st.store.seen, st.now, live.uid) && fresh'.uid !in st.store.seen
    ensures fresh' in KeptNow(st, events) && BucketOf(e, fresh') in Targets(e, KeptNow(st, events))
    ensures forall ev :: ev in KeptNow(st, events) ==> ev.uid != live.uid
  {
    var kept := KeptNow(st, events);
    var _ := UnseenMeaning(st.store.seen, st.now, Uids(events));
    var i :| 0 <= i < |events| && events[i] == fresh';
    assert Uids(events)[i] == fresh'.uid;
    assert HasUid(kept, fresh'.uid);
    var j :| 0 <= j < |kept| && kept[j].uid == fresh'.uid;
    assert kept[j] in events;
    var n :| 0 <= n < |events| && events[n] == kept[j];
    assert kept[j] in kept;
  }

  /** A rerun brought to the object's key while one of its rows is live, with a new event of its bucket at
      the end of the log: the next page keeps the new event and drops the row. */
  lemma ReachesLive(e: Env, st: State, s: Stream, k: ObjectKey, i: nat, ev: Event) returns (mid: Trace)
    requires Losable(e, st, s, k) && !e.oneObject && e.pos(k.batch) <= i < |LogOf(st, s)|
    requires Live(st.store.seen, st.now, LogOf(st, s)[i].uid) && ev.uid !in st.store.seen
    requires DistinctLogs(Apply(e, st, Grow(s, [ev])))
    requires k.batch == e.opening(s) || !Live(st.store.seen, st.now, LogOf(st, s)[e.pos(e.opening(s))].uid)
    ensures Recorded(e, mid) && mid.start == Opened(e, st, s) && ReadyAt(mid.now, s, k.batch)
    ensures mid.now.logs == Apply(e, st, Grow(s, [ev])).logs && LogOf(mid.now, s) == LogOf(st, s) + [ev]
    ensures e.pos(e.opening(s)) <= e.pos(k.batch) && ChangedBy(st.lake, mid.now.lake, LogOf(st, s)[e.pos(e.opening(s))..e.pos(k.batch)])
    ensures Live(mid.now.store.seen, mid.now.now, LogOf(st, s)[i].uid) && ev.uid !in mid.now.store.seen
  {
    hide Inv, ObjectsPlain, Tidy, OpeningKeys, DistinctLogs, Opened, Start, KeptNow, UniqueUids, ChangedBy;
    var o, c := e.opening(s), k.batch;
    LosableMeans(e, st, s, k);
    OpenedKeeps(e, st, s);
    var tr := Trace(Opened(e, st, s), [], Opened(e, st, s));
    tr := Then(e, tr, Grow(s, [ev]));
    var log := LogOf(tr.now, s);
    assert log == LogOf(st, s) + [ev];
    assert log[e.pos(o)..e.pos(c)] == LogOf(st, s)[e.pos(o)..e.pos(c)];
    DistinctToo(Apply(e, st, Grow(s, [ev])), tr.now);
    if c != o {
      FirstKept(tr.now, s, e.pos(o), e.pos(c));
    }
    mid := Reaches(e, s, tr, o, c);
    NotInSlice(tr.now, s, e.pos(o), e.pos(c), i);
    NotInSlice(tr.now, s, e.pos(o), e.pos(c), |log| - 1);
  }

  /** A live row: a new event of its bucket overwrites the object without it, if the object's key can be
      reached while the row is live. */
  lemma LosesToLive(e: Env, st: State, s: Stream, k: ObjectKey, r: nat) returns (acts: seq<Action>, u: string)
    requires Losable(e, st, s, k) && !e.oneObject && r < |st.lake[k]| && Live(st.store.seen, st.now, st.lake[k][r].uid)
    requires k.batch == e.opening(s) || (e.pos(e.opening(s)) < |LogOf(st, s)|
      && !Live(st.store.seen, st.now, LogOf(st, s)[e.pos(e.opening(s))].uid))
    ensures Lost(e, st, s, acts, u)
  {
    hide Inv, ObjectsPlain, Tidy, OpeningKeys, DistinctLogs, Opened, Start, InBucket, KeptNow, Targets, ChangedBy, Apply, UniqueUids, InRange;
    var o, c := e.opening(s), k.batch;
    LosableMeans(e, st, s, k);
    var i := RowIndex(e, st, s, k, r);
    u := st.lake[k][r].uid;
    var ev := Newcomer(e, st, s, st.lake[k][r]);
    var mid := ReachesLive(e, st, s, k, i, ev);
    DistinctToo(Apply(e, st, Grow(s, [ev])), mid.now);
    var n := |LogOf(st, s)| + 1 - e.pos(c);
    var page := LogOf(mid.now, s)[e.pos(c)..e.pos(c) + n];
    assert page[n - 1] == ev;
    DistinctSlice(mid.now, s, e.pos(c), e.pos(c) + n);
    DropsLive(e, mid.now, page, st.lake[k][r], ev);
    var end := Overwrites(e, s, mid, c, n, k.bucket);
    NotInSlice(st, s, e.pos(o), e.pos(c), i);
    Gone(st.lake, mid.now.lake, k, r, LogOf(st, s)[e.pos(o)..e.pos(c)], InBucket(e, KeptNow(mid.now, page), k.bucket));
    acts := end.acts;
    DistinctToo(mid.now, end.now);
    assert RowAt(st.lake, k, r, u);
  }

  lemma FirstKept(st: State, s: Stream, lo: nat, hi: nat)
    requires lo < hi <= |LogOf(st, s)| && !Live(st.store.seen, st.now, LogOf(st, s)[lo].uid)
    ensures KeptNow(st, LogOf(st, s)[lo..hi]) != []
  {
    var events := LogOf(st, s)[lo..hi];
    var _ := UnseenMeaning(st.store.seen, st.now, Uids(events));
    assert Uids(events)[0] == LogOf(st, s)[lo].uid && events[0] in events;
    assert HasUid(KeptNow(st, events), LogOf(st, s)[lo].uid);
  }

  /** If the first event of the range is live, it is on a row at the opening key. */
  lemma FirstIsAtOpening(e: Env, st: State, s: Stream, k: ObjectKey) returns (k': ObjectKey, r: nat)
    requires Losable(e, st, s, k) && !e.oneObject && e.pos(e.opening(s)) < |LogOf(st, s)|
    requires Live(st.store.seen, st.now, LogOf(st, s)[e.pos(e.opening(s))].uid)
    ensures Losable(e, st, s, k') && k'.batch == e.opening(s) && RowAt(st.lake, k', r, LogOf(st, s)[e.pos(e.opening(s))].uid)
  {
    hide ClosedTidy, AtMostOne, ObjectsPlain, ProcOk, CommittedDelivered, StreamOk;
    var i := e.pos(e.opening(s));
    assert Delivered(e, st, LogOf(st, s)[i].uid);
    var k1, r1 :| RowAt(st.lake, k1, r1, LogOf(st, s)[i].uid) && Closed(e, st, k1);
    var j := RowInLog(e, st, k1, r1);
    assert LogOf(st, e.owner(k1.batch))[j].uid == LogOf(st, s)[i].uid;
    assert KeyOk(e, st, k1);
    k', r := k1, r1;
  }

  lemma UnsafeLoses(e: Env, st: State, s: Stream, k: ObjectKey) returns (acts: seq<Action>, u: string)
    requires Losable(e, st, s, k)
    requires e.oneObject || |st.lake[k]| > 1 || Live(st.store.seen, st.now, st.lake[k][0].uid)
    ensures Lost(e, st, s, acts, u)
  {
    hide Inv, ObjectsPlain, Tidy, OpeningKeys, DistinctLogs, Lost;
    LosableMeans(e, st, s, k);
    if e.oneObject {
      acts, u := LosesToEmpty(e, st, s, k);
    } else if |st.lake[k]| > 1 {
      acts, u := LosesToShortPage(e, st, s, k);
    } else if k.batch != e.opening(s) && Live(st.store.seen, st.now, LogOf(st, s)[e.pos(e.opening(s))].uid) {
      var k', r := FirstIsAtOpening(e, st, s, k);
      acts, u := LosesToLive(e, st, s, k', r);
    } else {
      acts, u := LosesToLive(e, st, s, k, 0);
    }
  }

  // ----- the exact condition -----

  lemma ReachableShape(e: Env, st0: State, acts: seq<Action>)
    requires Init(e, st0) && Legal(e, st0, acts) && Covering(e, st0, acts) && DistinctLogs(Exec(e, st0, acts))
    ensures var st := Exec(e, st0, acts); Inv(e, st) && Plain(e, st) && Tidy(e, st) && OpeningKeys(e, st) && Gathered(e, st)
  {
    InitInv(e, st0);
    InitPlain(e, st0);
    RunStaysTidy(e, st0, acts);
    RunOpeningKeys(e, st0, acts);
    FirstRunShape(e, st0, acts);
  }

  /** In every state a covering run over distinct uids can reach, whatever other streams do: opening a
      finished range one of whose objects is not safe can lose a row that was delivered. */
  lemma ReopeningCanLose(e: Env, st0: State, acts: seq<Action>, s: Stream) returns (more: seq<Action>, u: string)
    requires Init(e, st0) && Legal(e, st0, acts) && Covering(e, st0, acts) && DistinctLogs(Exec(e, st0, acts))
    requires s in e.streams && Finished(Exec(e, st0, acts).store, s) && !SafeToReopen(e, Exec(e, st0, acts), s)
    ensures Lost(e, Exec(e, st0, acts), s, more, u)
  {
    hide Inv, SeenBehind, HeldExact, Tidy, OpeningKeys, Gathered, DistinctLogs, Lost;
    ReachableShape(e, st0, acts);
    var st := Exec(e, st0, acts);
    var k :| k in st.lake && e.owner(k.batch) == s && st.lake[k] != []
      && !(!e.oneObject && |st.lake[k]| == 1 && !Live(st.store.seen, st.now, st.lake[k][0].uid));
    more, u := UnsafeLoses(e, st, s, k);
  }

  /** Exactly when a finished range may be opened again. Every rerun of it, with any crashes, keeps every
      delivered uid on a row if and only if each of its objects holds one row at most, of a uid that has
      expired, and the sink writes nothing for an empty batch. For a range worth the name that never
      holds: whether the range is finished is the guard to check. */
  lemma ReopeningKeepsIffSafe(e: Env, st0: State, acts: seq<Action>, s: Stream)
    requires Init(e, st0) && Legal(e, st0, acts) && Covering(e, st0, acts) && DistinctLogs(Exec(e, st0, acts))
    requires e.streams == {s} && Finished(Exec(e, st0, acts).store, s) && ProcOf(Exec(e, st0, acts), s).Down?
    ensures var st := Exec(e, st0, acts);
      (forall more | Reruns(e, st, s, more) && DistinctLogs(Rerun(e, st, s, more)) :: KeepsDelivered(e, st, Rerun(e, st, s, more)))
      <==> SafeToReopen(e, st, s)
  {
    hide Inv, SeenBehind, HeldExact, ObjectsPlain, Tidy, OpeningKeys, Gathered, DistinctLogs, SafeToReopen, KeepsDelivered, Lost, Covering, Init, Finished, ProcOf;
    ReachableShape(e, st0, acts);
    var st := Exec(e, st0, acts);
    if SafeToReopen(e, st, s) {
      forall more | Reruns(e, st, s, more) && DistinctLogs(Rerun(e, st, s, more)) ensures KeepsDelivered(e, st, Rerun(e, st, s, more)) {
        SafeKeepsDelivered(e, st, s, more);
      }
    } else {
      var more, u := ReopeningCanLose(e, st0, acts, s);
      LostIsRerun(e, st, s, more, u);
    }
  }

  lemma LostIsRerun(e: Env, st: State, s: Stream, more: seq<Action>, u: string)
    requires Lost(e, st, s, more, u) && ProcOf(st, s).Down?
    ensures var acts := [Open(s)] + more;
      Reruns(e, st, s, acts) && DistinctLogs(Rerun(e, st, s, acts)) && !KeepsDelivered(e, st, Rerun(e, st, s, acts))
  {
    RunIsRerun(e, st, s, more);
  }
}
