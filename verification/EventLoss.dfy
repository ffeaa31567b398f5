/** The exact condition for losing no event. The protocol delivers uids; it delivers events precisely
    when no two different events of the ranges share one. */
module EventLoss {
  import opened Domain
  import opened StateSpec
  import opened Protocol
  import opened DeliverySafety
  import opened LakeSink
  import opened RunLoop
  import opened RunTrace

  /** Two different events of one uid, at or past the openings of their streams. */
  ghost predicate Clash(e: Env, st: State, s: Stream, i: nat, t: Stream, j: nat) {
    && s in e.streams && t in e.streams
    && e.pos(e.opening(s)) <= i < |LogOf(st, s)| && e.pos(e.opening(t)) <= j < |LogOf(st, t)|
    && LogOf(st, s)[i].uid == LogOf(st, t)[j].uid && LogOf(st, s)[i] != LogOf(st, t)[j]
  }

  /** At or past the openings, a uid tells its event, in whichever log. */
  ghost predicate Distinguishes(e: Env, st: State) {
    forall s, i: nat, t, j: nat :: !Clash(e, st, s, i, t, j)
  }

  ghost predicate OnRow(lake: Lake, ev: Event) {
    exists k :: k in lake && ev in lake[k]
  }

  /** Each event a stream has committed past is itself on a row. */
  ghost predicate EventsKept(e: Env, st: State) {
    forall s, i | s in e.streams && e.pos(e.opening(s)) <= i < UptoOf(st, s) && i < |LogOf(st, s)| :: OnRow(st.lake, LogOf(st, s)[i])
  }

  /** Where uids tell events apart every run keeps every event, whichever stream's objects hold it. */
  lemma KeptIfDistinguished(e: Env, st: State, acts: seq<Action>)
    requires Init(e, st) && Legal(e, st, acts) && Distinguishes(e, Exec(e, st, acts))
    ensures EventsKept(e, Exec(e, st, acts))
  {
    InitInv(e, st);
    RunKeepsInv(e, st, acts);
    var end := Exec(e, st, acts);
    forall s, i | s in e.streams && e.pos(e.opening(s)) <= i < UptoOf(end, s) && i < |LogOf(end, s)| ensures OnRow(end.lake, LogOf(end, s)[i]) {
      KeptAt(e, end, s, i);
    }
  }

  lemma KeptAt(e: Env, st: State, s: Stream, i: nat)
    requires Inv(e, st) && s in e.streams && Distinguishes(e, st)
    requires e.pos(e.opening(s)) <= i < UptoOf(st, s) && i < |LogOf(st, s)|
    ensures OnRow(st.lake, LogOf(st, s)[i])
  {
    hide StreamOk, ProcOk, SeenDelivered;
    assert Delivered(e, st, LogOf(st, s)[i].uid);
    var k, r :| RowAt(st.lake, k, r, LogOf(st, s)[i].uid) && Closed(e, st, k);
    assert KeyOk(e, st, k);
    var j := RowInLog(e, st, k, r);
    assert !Clash(e, st, e.owner(k.batch), j, s, i);
    assert st.lake[k][r] in st.lake[k];
  }

  // ----- the losing run: the whole log in one page -----

  lemma {:induction false} Enumerate(buckets: set<Bucket>) returns (order: seq<Bucket>)
    ensures Distinct(order) && forall b :: b in order <==> b in buckets
    decreases buckets
  {
    if buckets == {} {
      order := [];
    } else {
      var b :| b in buckets;
      var rest := Enumerate(buckets - {b});
      order := rest + [b];
    }
  }

  /** Whatever is PUT holds nothing but the batch. */
  lemma {:induction false} PutAllRows(e: Env, lake: Lake, key: Cursor, events: seq<Event>, order: seq<Bucket>, k: ObjectKey)
    requires k in PutAll(e, lake, key, events, order)
    ensures (k in lake && PutAll(e, lake, key, events, order)[k] == lake[k])
      || forall ev :: ev in PutAll(e, lake, key, events, order)[k] ==> ev in events
    decreases |order|
  {
    if order != [] {
      var b := order[|order| - 1];
      if k == ObjectKey(key, b) {
        SortPermutes(InBucket(e, events, b));
        forall ev | ev in SortByTime(InBucket(e, events, b)) ensures ev in events {
          assert ev in multiset(SortByTime(InBucket(e, events, b)));
          assert ev in multiset(InBucket(e, events, b));
        }
      } else {
        PutAllRows(e, lake, key, events, order[..|order| - 1], k);
      }
    }
  }

  /** What the filter and the collapse keep of a page, now. */
  function KeptNow(st: State, events: seq<Event>): seq<Event> {
    Filtered(st.store.seen, st.now, events)
  }

  ghost predicate ReadyAt(st: State, s: Stream, c: Cursor) {
    ProcOf(st, s) == Up(c, c, [], [], Ready)
  }

  /** Reading one page at the start of a batch: fetch, filter, write. */
  lemma ReadsPage(e: Env, s: Stream, tr: Trace, c: Cursor, n: nat, next: Option<Cursor>) returns (tr': Trace, page: Page, kept: seq<Event>)
    requires Recorded(e, tr) && s in e.streams && ReadyAt(tr.now, s, c) && e.pos(c) + n <= |LogOf(tr.now, s)|
    requires next.Some? ==> e.owner(next.value) == s && e.pos(next.value) == e.pos(c) + n
    ensures Recorded(e, tr') && tr'.start == tr.start && kept == KeptNow(tr.now, LogOf(tr.now, s)[e.pos(c)..e.pos(c) + n])
    ensures tr'.now.lake == tr.now.lake && tr'.now.logs == tr.now.logs && tr'.now.store == tr.now.store && tr'.now.now == tr.now.now
    ensures tr'.now.upto == tr.now.upto && tr'.now.procs == tr.now.procs[s := ProcOf(tr'.now, s)]
    ensures page.next == next && page.end == e.pos(c) + n && ProcOf(tr'.now, s) == Up(c, c, Uids(kept), kept, Written(page))
  {
    hide Unseen, Uids, Fresh;
    tr' := Then(e, tr, Act(s, Fetch(n, next)));
    page := ProcOf(tr'.now, s).phase.page;
    tr' := Then(e, tr', Act(s, Filter));
    kept := ProcOf(tr'.now, s).phase.kept;
    tr' := Then(e, tr', Act(s, Write));
    assert [] + kept == kept && [] + Uids(kept) == Uids(kept);
  }

  lemma {:induction false} PutAllWrites(e: Env, lake: Lake, key: Cursor, events: seq<Event>, order: seq<Bucket>, b: Bucket)
    requires b in order
    ensures ObjectKey(key, b) in PutAll(e, lake, key, events, order)
    ensures forall ev :: ev in PutAll(e, lake, key, events, order)[ObjectKey(key, b)] ==> ev in events
    decreases |order|
  {
    var n := |order| - 1;
    if b == order[n] {
      SortPermutes(InBucket(e, events, b));
      forall ev | ev in SortByTime(InBucket(e, events, b)) ensures ev in events {
        assert ev in multiset(SortByTime(InBucket(e, events, b)));
        assert ev in multiset(InBucket(e, events, b));
      }
    } else {
      PutAllWrites(e, lake, key, events, order[..n], b);
    }
  }

  /** What a lake is after a batch is PUT: every bucket of the batch holds only its events, and an object
      that was not rewritten is as it was. */
  ghost predicate Rewritten(e: Env, lake: Lake, key: Cursor, kept: seq<Event>, lake': Lake) {
    && (forall k | k in lake' :: (k in lake && lake'[k] == lake[k]) || forall ev :: ev in lake'[k] ==> ev in kept)
    && (forall b | b in Targets(e, kept) :: ObjectKey(key, b) in lake' && forall ev :: ev in lake'[ObjectKey(key, b)] ==> ev in kept)
  }

  ghost predicate FullBatch(e: Env, st: State, s: Stream, key: Cursor, kept: seq<Event>, page: Page) {
    ProcOf(st, s) == Up(key, key, Uids(kept), kept, Written(page)) && (page.next.None? || e.oneObject || kept != [])
  }

  /** Flushing a whole buffer. */
  lemma PutsAll(e: Env, s: Stream, tr: Trace, key: Cursor, kept: seq<Event>, page: Page) returns (tr': Trace)
    requires Recorded(e, tr) && s in e.streams && FullBatch(e, tr.now, s, key, kept, page)
    ensures Recorded(e, tr') && tr'.start == tr.start && Rewritten(e, tr.now.lake, key, kept, tr'.now.lake)
    ensures tr'.now.logs == tr.now.logs && tr'.now.store == tr.now.store && tr'.now.now == tr.now.now
    ensures ProcOf(tr'.now, s) == Up(key, key, Uids(kept), kept, Flushing(page, Targets(e, kept)))
    ensures tr'.now.upto == tr.now.upto && tr'.now.procs == tr.now.procs[s := ProcOf(tr'.now, s)]
  {
    hide Targets, PutAll;
    var lake := tr.now.lake;
    tr' := Then(e, tr, Act(s, BeginFlush));
    var order := Enumerate(Targets(e, kept));
    tr' := PutSteps(e, s, tr', order);
    assert (set b | b in order) == Targets(e, kept);
    assert tr'.now.lake == PutAll(e, lake, key, kept, order);
    forall k | k in tr'.now.lake
      ensures (k in lake && tr'.now.lake[k] == lake[k]) || forall ev :: ev in tr'.now.lake[k] ==> ev in kept
    {
      PutAllRows(e, lake, key, kept, order, k);
    }
    forall b | b in Targets(e, kept)
      ensures ObjectKey(key, b) in tr'.now.lake && forall ev :: ev in tr'.now.lake[ObjectKey(key, b)] ==> ev in kept
    {
      PutAllWrites(e, lake, key, kept, order, b);
    }
  }

  /** Flushing and committing it. */
  lemma CommitsAll(e: Env, s: Stream, tr: Trace, key: Cursor, kept: seq<Event>, page: Page) returns (tr': Trace)
    requires Recorded(e, tr) && s in e.streams && FullBatch(e, tr.now, s, key, kept, page)
    ensures Recorded(e, tr') && tr'.start == tr.start && Rewritten(e, tr.now.lake, key, kept, tr'.now.lake)
    ensures tr'.now.logs == tr.now.logs && tr'.now.now == tr.now.now
    ensures tr'.now.upto == tr.now.upto[s := page.end] && tr'.now.procs == tr.now.procs[s := ProcOf(tr'.now, s)]
    ensures tr'.now.store == Commit(tr.now.store, tr.now.now, e.ttl, s, page.next, Uids(kept), "")
    ensures ProcOf(tr'.now, s) == Up(key, if page.next.Some? then page.next.value else key, [], [], Settled(page))
  {
    hide Targets, Commit, Rewritten;
    tr' := PutsAll(e, s, tr, key, kept, page);
    tr' := Then(e, tr', Act(s, Ack));
    tr' := Then(e, tr', Act(s, CommitBatch("")));
  }

  /** A stream that has never run reads its whole log as one page and commits it. */
  lemma TakesAll(e: Env, s: Stream, tr: Trace) returns (tr': Trace, kept: seq<Event>)
    requires Recorded(e, tr) && s in e.streams && ProcOf(tr.now, s).Down? && RowOf(tr.now.store, s) == EmptyRow
    requires e.pos(e.opening(s)) <= |LogOf(tr.now, s)|
    ensures Recorded(e, tr') && tr'.start == tr.start && Rewritten(e, tr.now.lake, e.opening(s), kept, tr'.now.lake)
    ensures kept == KeptNow(tr.now, LogOf(tr.now, s)[e.pos(e.opening(s))..])
    ensures tr'.now.logs == tr.now.logs && tr'.now.now == tr.now.now
    ensures tr'.now.upto == tr.now.upto[s := |LogOf(tr.now, s)|]
    ensures forall t | t != s :: ProcOf(tr'.now, t) == ProcOf(tr.now, t)
    ensures tr'.now.store == Commit(tr.now.store, tr.now.now, e.ttl, s, None, Uids(kept), "")
  {
    hide KeptNow, Commit, Rewritten, Uids;
    var c, n := e.opening(s), |LogOf(tr.now, s)| - e.pos(e.opening(s));
    tr' := Then(e, tr, Open(s));
    var page;
    tr', page, kept := ReadsPage(e, s, tr', c, n, None);
    assert LogOf(tr.now, s)[e.pos(c)..e.pos(c) + n] == LogOf(tr.now, s)[e.pos(c)..];
    SameKept(tr.now, Opened(e, tr.now, s), LogOf(tr.now, s)[e.pos(c)..]);
    tr' := CommitsAll(e, s, tr', c, kept, page);
  }

  lemma SameKept(st: State, st': State, events: seq<Event>)
    requires st'.store == st.store && st'.now == st.now
    ensures KeptNow(st', events) == KeptNow(st, events)
  {
  }

  /** The event stands before its stream's position and on no row. */
  ghost predicate EventLost(e: Env, st: State, s: Stream, i: nat) {
    s in e.streams && e.pos(e.opening(s)) <= i < UptoOf(st, s) && i < |LogOf(st, s)| && !OnRow(st.lake, LogOf(st, s)[i])
  }

  /** Within one log: the page keeps one of the two. */
  lemma LosesOfOne(e: Env, st: State, s: Stream, i: nat, j: nat) returns (acts: seq<Action>, m: nat)
    requires Init(e, st) && Clash(e, st, s, i, s, j)
    ensures Legal(e, st, acts) && Exec(e, st, acts).logs == st.logs && EventLost(e, Exec(e, st, acts), s, m)
  {
    hide Filtered, Commit;
    var tr, kept := TakesAll(e, s, Trace(st, [], st));
    acts := tr.acts;
    m := i;
    if LogOf(st, s)[i] in kept {
      m := j;
      OneOfTwo(kept, LogOf(st, s)[i], LogOf(st, s)[j]);
    }
  }

  /** In two logs: the first stream commits one at most, and while that uid is live the second stream's
      filter drops the other. */
  lemma LosesOfTwo(e: Env, st: State, s: Stream, i: nat, t: Stream, j: nat) returns (acts: seq<Action>, r: Stream, m: nat)
    requires Init(e, st) && Clash(e, st, s, i, t, j) && s != t && e.ttl > 0
    ensures Legal(e, st, acts) && Exec(e, st, acts).logs == st.logs && EventLost(e, Exec(e, st, acts), r, m)
  {
    hide KeptNow, Rewritten, Uids, Init;
    InitMeans(e, st, s);
    InitMeans(e, st, t);
    var tr, first := TakesAll(e, s, Trace(st, [], st));
    var mid := tr.now;
    FirstTakesUid(e, st, s, i, mid, first);
    var second;
    tr, second := TakesAll(e, t, tr);
    acts := tr.acts;
    NoneOfLive(mid, LogOf(mid, t)[e.pos(e.opening(t))..], LogOf(st, s)[i].uid);
    OnlyKept(e, st.lake, e.opening(s), first, mid.lake, e.opening(t), second, tr.now.lake);
    r, m := s, i;
    if LogOf(st, s)[i] in first {
      r, m := t, j;
      OneOfTwo(first, LogOf(st, s)[i], LogOf(st, t)[j]) by { KeptUnique(st, LogOf(st, s)[e.pos(e.opening(s))..]); }
    }
  }

  lemma InitMeans(e: Env, st: State, s: Stream)
    requires Init(e, st) && s in e.streams
    ensures ProcOf(st, s).Down? && RowOf(st.store, s) == EmptyRow && e.pos(e.opening(s)) <= |LogOf(st, s)|
    ensures st.lake == map[] && st.store.seen == map[]
  {
  }

  lemma KeptUnique(st: State, events: seq<Event>)
    ensures UniqueUids(KeptNow(st, events))
  {
  }

  /** What the first stream commits makes every uid of its log live. */
  lemma FirstTakesUid(e: Env, st: State, s: Stream, i: nat, mid: State, kept: seq<Event>)
    requires e.pos(e.opening(s)) <= i < |LogOf(st, s)| && st.store.seen == map[] && e.ttl > 0
    requires kept == KeptNow(st, LogOf(st, s)[e.pos(e.opening(s))..])
    requires mid.now == st.now && mid.store == Commit(st.store, st.now, e.ttl, s, None, Uids(kept), "")
    ensures Live(mid.store.seen, mid.now, LogOf(st, s)[i].uid)
  {
    hide Filtered;
    var events := LogOf(st, s)[e.pos(e.opening(s))..];
    assert events[i - e.pos(e.opening(s))] == LogOf(st, s)[i] && LogOf(st, s)[i] in events;
    FilteredMeans(st.store.seen, st.now, events);
    var n :| 0 <= n < |kept| && kept[n].uid == LogOf(st, s)[i].uid;
    assert Uids(kept)[n] == LogOf(st, s)[i].uid;
  }

  lemma NoneOfLive(st: State, events: seq<Event>, uid: string)
    requires Live(st.store.seen, st.now, uid)
    ensures forall ev :: ev in KeptNow(st, events) ==> ev.uid != uid
  {
    var _ := UnseenMeaning(st.store.seen, st.now, Uids(events));
  }

  /** After both, whatever is on a row was kept by one of them. */
  lemma OnlyKept(e: Env, lake: Lake, k1: Cursor, first: seq<Event>, lake1: Lake, k2: Cursor, second: seq<Event>, lake2: Lake)
    requires lake == map[] && Rewritten(e, lake, k1, first, lake1) && Rewritten(e, lake1, k2, second, lake2)
    ensures forall ev :: OnRow(lake2, ev) ==> ev in first || ev in second
  {
    hide Targets;
  }

  /** Two different events of one uid, at or past the openings: some run commits past both and stores one
      at most. */
  lemma LosesEvent(e: Env, st: State, s: Stream, i: nat, t: Stream, j: nat) returns (acts: seq<Action>, r: Stream, m: nat)
    requires Init(e, st) && Clash(e, st, s, i, t, j) && e.ttl > 0
    ensures Legal(e, st, acts) && Exec(e, st, acts).logs == st.logs && EventLost(e, Exec(e, st, acts), r, m)
  {
    r := s;
    if s == t {
      acts, m := LosesOfOne(e, st, s, i, j);
    } else {
      acts, r, m := LosesOfTwo(e, st, s, i, t, j);
    }
  }

  lemma OneOfTwo(kept: seq<Event>, a: Event, b: Event)
    requires UniqueUids(kept) && a.uid == b.uid && a != b && a in kept
    ensures b !in kept
  {
    var i :| 0 <= i < |kept| && kept[i] == a;
    assert forall j | 0 <= j < |kept| :: kept[j].uid == kept[i].uid ==> j == i;
  }

  /** No event is lost, if and only if uids tell events apart: over any number of streams and logs that
      stay as they are, every run keeps each event it commits past on a row exactly when no two different
      events at or past the openings, in one log or in two, share a uid. A caller can check that on the
      records alone. */
  lemma NoEventLostIffUidsDistinguish(e: Env, st: State)
    requires Init(e, st) && e.ttl > 0
    ensures (forall acts | Legal(e, st, acts) && Exec(e, st, acts).logs == st.logs :: EventsKept(e, Exec(e, st, acts)))
      <==> Distinguishes(e, st)
  {
    if Distinguishes(e, st) {
      forall acts | Legal(e, st, acts) && Exec(e, st, acts).logs == st.logs ensures EventsKept(e, Exec(e, st, acts)) {
        SameLogs(e, st, Exec(e, st, acts));
        KeptIfDistinguished(e, st, acts);
      }
    } else {
      var s, t, i, j :| Clash(e, st, s, i, t, j);
      var acts, r, m := LosesEvent(e, st, s, i, t, j);
      assert !EventsKept(e, Exec(e, st, acts));
    }
  }

  lemma SameLogs(e: Env, st: State, st': State)
    requires Distinguishes(e, st) && st'.logs == st.logs
    ensures Distinguishes(e, st')
  {
    forall s, i: nat, t, j: nat ensures !Clash(e, st', s, i, t, j) {
      assert !Clash(e, st, s, i, t, j);
    }
  }
}
