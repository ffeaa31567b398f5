/** Opening a finished range again, which the runner does not refuse. The run starts over at the opening
    cursor and the opening key; what the seen-set still absorbs is then missing from the PUT that
    overwrites the object. When nothing is absorbed, a rerun is a first run and loses nothing. */
module Reopening {
  import opened Domain
  import opened StateSpec
  import opened Protocol
  import opened DeliverySafety
  import opened ExactlyOnce
  import opened Backfill
  import opened RunLoop
  import opened RunTrace
  import opened RunGuarantees

  // ----- a reopened run -----

  /** Until the reopened range commits again it may be opened, however often it crashes. */
  ghost predicate MayDo(e: Env, st: State, s: Stream, a: Action) {
    Enabled(e, st, a) || (a == Open(s) && ProcOf(st, s).Down?)
  }

  ghost function Next(e: Env, st: State, s: Stream, a: Action): State
    requires MayDo(e, st, s, a)
  {
    if a == Open(s) then Opened(e, st, s) else Apply(e, st, a)
  }

  /** A run that may open `s` although it is finished, until `s` commits. */
  ghost predicate Reruns(e: Env, st: State, s: Stream, acts: seq<Action>)
    decreases |acts|
  {
    acts == [] ||
      (MayDo(e, st, s, acts[0]) &&
       var st' := Next(e, st, s, acts[0]);
       if Commits(s, acts[0]) then Legal(e, st', acts[1..]) else Reruns(e, st', s, acts[1..]))
  }

  ghost function Rerun(e: Env, st: State, s: Stream, acts: seq<Action>): State
    requires Reruns(e, st, s, acts)
    decreases |acts|
  {
    if acts == [] then st
    else
      var st' := Next(e, st, s, acts[0]);
      if Commits(s, acts[0]) then Exec(e, st', acts[1..]) else Rerun(e, st', s, acts[1..])
  }

  lemma {:induction false} LegalReruns(e: Env, st: State, s: Stream, acts: seq<Action>)
    requires Legal(e, st, acts)
    ensures Reruns(e, st, s, acts) && Rerun(e, st, s, acts) == Exec(e, st, acts)
    decreases |acts|
  {
    hide Enabled, Apply, Opened;
    if acts != [] {
      assert Next(e, st, s, acts[0]) == Apply(e, st, acts[0]) by { OpenIsNext(e, st, s, acts[0]); }
      LegalReruns(e, Apply(e, st, acts[0]), s, acts[1..]);
    }
  }

  lemma OpenIsNext(e: Env, st: State, s: Stream, a: Action)
    requires Enabled(e, st, a)
    ensures Next(e, st, s, a) == Apply(e, st, a)
  {
  }

  // ----- the condition -----

  /** What a caller can read off the lake and the seen-set: each object of the stream holds at most one
      row, of a uid that has expired, and the sink writes nothing for an empty batch. */
  ghost predicate SafeToReopen(e: Env, st: State, s: Stream) {
    forall k | k in st.lake && e.owner(k.batch) == s && st.lake[k] != [] ::
      !e.oneObject && |st.lake[k]| == 1 && !Live(st.store.seen, st.now, st.lake[k][0].uid)
  }

  /** Every uid that was delivered is still on a row. */
  ghost predicate KeepsDelivered(e: Env, st: State, st': State) {
    forall u :: Delivered(e, st, u) ==> OnSomeRow(st'.lake, u)
  }

  // ----- when nothing is live, a rerun is a first run -----

  /** The stream as it was before its first run, at today's clock and log. */
  function Forgotten(e: Env, st: State, s: Stream): State {
    State(map[s := LogOf(st, s)], map[], EmptyStore, st.now, map[s := e.pos(e.opening(s))], map[s := Down])
  }

  ghost predicate SameRows(e: Env, x: Store, y: Store) {
    forall t :: t in e.streams ==> GetCursor(x, t) == GetCursor(y, t) && (RowOf(y, t).committed ==> RowOf(x, t).committed)
  }

  /** The same uids are live, now and later. */
  ghost predicate SameLive(x: map<string, int>, y: map<string, int>, now: int) {
    && (forall u :: u in y ==> u in x && x[u] == y[u])
    && (forall u :: u in x && u !in y ==> x[u] <= now)
  }

  /** The rerun is at `a` while the first run is at `v`: the same but for the objects of before that the
      first run has not written. */
  ghost predicate Shadows(e: Env, past: Lake, a: State, v: State) {
    && a.logs == v.logs && a.now == v.now && a.procs == v.procs && a.lake == past + v.lake
    && SameRows(e, a.store, v.store) && SameLive(a.store.seen, v.store.seen, a.now)
  }

  lemma {:induction false} SameUnseen(x: map<string, int>, y: map<string, int>, now: int, uids: seq<string>)
    requires SameLive(x, y, now)
    ensures Unseen(x, now, uids) == Unseen(y, now, uids)
    decreases |uids|
  {
    if uids != [] {
      SameUnseen(x, y, now, uids[..|uids| - 1]);
    }
  }

  lemma SameFiltered(x: map<string, int>, y: map<string, int>, now: int, events: seq<Event>)
    requires SameLive(x, y, now)
    ensures Filtered(x, now, events) == Filtered(y, now, events)
  {
    SameUnseen(x, y, now, Uids(events));
  }

  lemma SameMove(e: Env, past: Lake, a: State, v: State, s: Stream, m: Move)
    requires Shadows(e, past, a, v) && CanMove(e, a, s, m)
    ensures CanMove(e, v, s, m) && ProcAfter(e, a, s, m) == ProcAfter(e, v, s, m)
  {
    hide Filtered, Targets, InBucket, Uids, SameRows;
    assert ProcOf(a, s) == ProcOf(v, s) && LogOf(a, s) == LogOf(v, s);
    if m.Filter? {
      SameFiltered(a.store.seen, v.store.seen, a.now, ProcOf(a, s).phase.page.events);
    }
  }

  lemma SameSeen(e: Env, past: Lake, a: State, v: State, s: Stream, m: Move)
    requires Shadows(e, past, a, v) && CanMove(e, a, s, m) && CanMove(e, v, s, m)
    ensures SameLive(StoreAfter(e, a, s, m).seen, StoreAfter(e, v, s, m).seen, a.now)
  {
    hide CanMove, SameRows;
    assert ProcOf(a, s) == ProcOf(v, s);
  }

  lemma SameStore(e: Env, past: Lake, a: State, v: State, s: Stream, m: Move)
    requires Shadows(e, past, a, v) && CanMove(e, a, s, m) && CanMove(e, v, s, m)
    ensures SameRows(e, StoreAfter(e, a, s, m), StoreAfter(e, v, s, m))
    ensures SameLive(StoreAfter(e, a, s, m).seen, StoreAfter(e, v, s, m).seen, a.now)
  {
    hide CanMove, SameLive;
    assert ProcOf(a, s) == ProcOf(v, s);
    SameSeen(e, past, a, v, s, m);
    var x, y := StoreAfter(e, a, s, m), StoreAfter(e, v, s, m);
    forall t | t in e.streams ensures GetCursor(x, t) == GetCursor(y, t) && (RowOf(y, t).committed ==> RowOf(x, t).committed) {
      assert GetCursor(a.store, t) == GetCursor(v.store, t);
    }
  }

  lemma SamePurge(e: Env, x: Store, y: Store, now: int)
    requires SameRows(e, x, y) && SameLive(x.seen, y.seen, now)
    ensures SameRows(e, Purge(x, now), Purge(y, now)) && SameLive(Purge(x, now).seen, Purge(y, now).seen, now)
  {
    forall t ensures GetCursor(Purge(x, now), t) == GetCursor(x, t) && GetCursor(Purge(y, now), t) == GetCursor(y, t) {
    }
  }

  lemma SameLake(e: Env, past: Lake, a: State, v: State, s: Stream, m: Move)
    requires Shadows(e, past, a, v) && CanMove(e, a, s, m) && CanMove(e, v, s, m)
    ensures LakeAfter(e, a, s, m) == past + LakeAfter(e, v, s, m)
  {
    assert ProcOf(a, s) == ProcOf(v, s);
  }

  lemma StepShadows(e: Env, past: Lake, a: State, v: State, s: Stream, act: Action)
    requires Shadows(e, past, a, v) && MayDo(e, a, s, act) && (act == Open(s) ==> s in e.streams && !Finished(v.store, s))
    ensures Enabled(e, v, act) && Shadows(e, past, Next(e, a, s, act), Apply(e, v, act))
  {
    hide CanMove, ProcAfter, StoreAfter, LakeAfter, UptoAfter;
    match act
    case Act(t, m) =>
      SameMove(e, past, a, v, t, m);
      SameStore(e, past, a, v, t, m);
      SameLake(e, past, a, v, t, m);
    case Open(t) =>
      assert GetCursor(a.store, t) == GetCursor(v.store, t);
      assert ProcOf(a, t) == ProcOf(v, t);
    case PurgeExpired => SamePurge(e, a.store, v.store, a.now);
    case _ =>
  }

  lemma SameFinished(e: Env, x: Store, y: Store, s: Stream)
    requires SameRows(e, x, y) && s in e.streams && Finished(y, s)
    ensures Finished(x, s)
  {
    assert GetCursor(x, s) == GetCursor(y, s);
  }

  lemma {:induction false} LegalShadows(e: Env, past: Lake, a: State, v: State, s: Stream, acts: seq<Action>)
    requires Shadows(e, past, a, v) && Legal(e, a, acts) && s in e.streams
    ensures Legal(e, v, acts) && Shadows(e, past, Exec(e, a, acts), Exec(e, v, acts))
    decreases |acts|
  {
    hide Apply, Opened, SameRows, SameLive, CanMove;
    if acts != [] {
      if Finished(v.store, s) {
        SameFinished(e, a.store, v.store, s);
      }
      OpenIsNext(e, a, s, acts[0]);
      StepShadows(e, past, a, v, s, acts[0]);
      LegalShadows(e, past, Apply(e, a, acts[0]), Apply(e, v, acts[0]), s, acts[1..]);
    }
  }

  lemma StaysUncommitted(e: Env, st: State, s: Stream, a: Action)
    requires Enabled(e, st, a) && !RowOf(st.store, s).committed && !Commits(s, a)
    ensures !RowOf(Apply(e, st, a).store, s).committed
  {
    hide CanMove, ProcAfter, LakeAfter, UptoAfter;
  }

  lemma {:induction false} RerunShadows(e: Env, past: Lake, a: State, v: State, s: Stream, acts: seq<Action>)
    requires Shadows(e, past, a, v) && Reruns(e, a, s, acts) && s in e.streams && !RowOf(v.store, s).committed
    ensures Legal(e, v, acts) && Shadows(e, past, Rerun(e, a, s, acts), Exec(e, v, acts))
    decreases |acts|
  {
    hide Enabled, Apply, Opened, Next, MayDo, Shadows, RowOf;
    if acts != [] {
      var act := acts[0];
      StepShadows(e, past, a, v, s, act) by { assert !Finished(v.store, s); }
      var a', v' := Next(e, a, s, act), Apply(e, v, act);
      if Commits(s, act) {
        LegalShadows(e, past, a', v', s, acts[1..]);
      } else {
        StaysUncommitted(e, v, s, act);
        RerunShadows(e, past, a', v', s, acts[1..]);
      }
    }
  }

  /** Nothing the stream delivered is live, so nothing at all is. */
  lemma NothingLive(e: Env, st: State, s: Stream)
    requires Inv(e, st) && e.streams == {s} && SafeToReopen(e, st, s)
    ensures forall u :: u in st.store.seen ==> st.store.seen[u] <= st.now
  {
    hide RowsFromLogs, CommittedDelivered, ProcOk, StreamOk;
    forall u | u in st.store.seen ensures st.store.seen[u] <= st.now {
      assert Delivered(e, st, u);
      var k, r :| RowAt(st.lake, k, r, u) && Closed(e, st, k);
      assert KeyOk(e, st, k);
    }
  }

  lemma ForgottenIsInit(e: Env, st: State, s: Stream)
    requires Inv(e, st) && e.streams == {s}
    ensures Init(e, Forgotten(e, st, s))
  {
    assert StreamOk(e, st, s);
  }

  /** A finished range none of whose uids is live reads, from its stream's first run on, like one that
      never ran: the rerun is, action for action, a run of the machine from an empty store. */
  lemma ReopenedIsFirstRun(e: Env, st: State, s: Stream, acts: seq<Action>)
    requires Inv(e, st) && e.streams == {s} && Finished(st.store, s) && ProcOf(st, s).Down?
    requires SafeToReopen(e, st, s) && Reruns(e, st, s, acts)
    ensures var v := Forgotten(e, st, s);
      Init(e, v) && Legal(e, v, acts) && Shadows(e, st.lake, Rerun(e, st, s, acts), Exec(e, v, acts))
  {
    hide Inv, SafeToReopen, Init, Reruns, Rerun, Legal, Exec, Shadows;
    ForgottenIsInit(e, st, s);
    NothingLive(e, st, s);
    ForgottenShadows(e, st, s);
    RerunShadows(e, st.lake, st, Forgotten(e, st, s), s, acts);
  }

  lemma ForgottenShadows(e: Env, st: State, s: Stream)
    requires Inv(e, st) && e.streams == {s} && Finished(st.store, s) && ProcOf(st, s).Down?
    requires forall u :: u in st.store.seen ==> st.store.seen[u] <= st.now
    ensures Shadows(e, st.lake, st, Forgotten(e, st, s))
  {
    hide StreamOk, KeyOk, RowsFromLogs, CommittedDelivered, SeenDelivered, ProcOk;
    var v := Forgotten(e, st, s);
    assert st.procs == v.procs && st.logs == v.logs && st.lake == st.lake + v.lake;
    forall t | t in e.streams ensures GetCursor(st.store, t) == GetCursor(v.store, t) {
    }
  }

  // ----- what an object holds of its bucket -----

  /** An object that holds an event holds every earlier one of its bucket, from where its key points on. */
  ghost predicate ObjectGathers(e: Env, log: seq<Event>, k: ObjectKey, rows: seq<Event>) {
    && (!e.oneObject ==> rows != [])
    && (forall i, j | e.pos(k.batch) <= j < i < |log| && log[i] in rows && BucketOf(e, log[j]) == k.bucket :: log[j] in rows)
  }

  ghost predicate Gathered(e: Env, st: State) {
    forall k | k in st.lake :: ObjectGathers(e, LogOf(st, e.owner(k.batch)), k, st.lake[k])
  }

  lemma InBucketTargets(e: Env, events: seq<Event>, b: Bucket, rows: seq<Event>)
    requires b in Targets(e, events) && multiset(rows) == multiset(InBucket(e, events, b))
    ensures !e.oneObject ==> rows != []
    ensures forall ev :: ev in rows <==> ev in events && BucketOf(e, ev) == b
  {
    forall ev ensures ev in rows <==> ev in InBucket(e, events, b) {
      assert ev in multiset(rows) <==> ev in multiset(InBucket(e, events, b));
    }
    if !e.oneObject {
      var ev :| ev in events && BucketOf(e, ev) == b;
      assert ev in rows;
    }
  }

  /** A slice of a log without repeats holds just the events of its positions. */
  lemma SliceHolds(st: State, s: Stream, lo: nat, hi: nat, i: nat)
    requires DistinctLogs(st) && lo <= hi <= |LogOf(st, s)| && i < |LogOf(st, s)|
    ensures LogOf(st, s)[i] in LogOf(st, s)[lo..hi] <==> lo <= i < hi
  {
    var log := LogOf(st, s);
    if log[i] in log[lo..hi] {
      var n :| 0 <= n < hi - lo && log[lo..hi][n] == log[i];
      assert log[lo + n].uid == log[i].uid;
    }
    if lo <= i < hi {
      assert log[lo..hi][i - lo] == log[i];
    }
  }

  lemma PutGathers(e: Env, st: State, s: Stream, b: Bucket, rows: seq<Event>)
    requires Base(e, st) && ProcOk(e, st, s) && HeldExact(e, st, s) && DistinctLogs(st)
    requires s in e.streams && CanMove(e, st, s, Put(b, rows))
    ensures ObjectGathers(e, LogOf(st, s), ObjectKey(ProcOf(st, s).batchKey, b), rows)
  {
    hide DistinctLogs, ProcOk, Targets, InBucket;
    var p, log := ProcOf(st, s), LogOf(st, s);
    OpenKey(e, st, s, Put(b, rows));
    InBucketTargets(e, p.buffer, b, rows);
    forall i, j | e.pos(p.batchKey) <= j < i < |log| && log[i] in rows && BucketOf(e, log[j]) == b ensures log[j] in rows {
      SliceHolds(st, s, UptoOf(st, s), Reached(e, p), i);
      SliceHolds(st, s, UptoOf(st, s), Reached(e, p), j);
    }
  }

  lemma GathersStays(e: Env, st: State, st': State, k: ObjectKey)
    requires k in st.lake && ObjectPlain(e, st, k, st.lake[k]) && DistinctLogs(st')
    requires LogOf(st, e.owner(k.batch)) <= LogOf(st', e.owner(k.batch))
    requires ObjectGathers(e, LogOf(st, e.owner(k.batch)), k, st.lake[k])
    ensures ObjectGathers(e, LogOf(st', e.owner(k.batch)), k, st.lake[k])
  {
    var log, log', rows := LogOf(st, e.owner(k.batch)), LogOf(st', e.owner(k.batch)), st.lake[k];
    forall i, j | e.pos(k.batch) <= j < i < |log'| && log'[i] in rows && BucketOf(e, log'[j]) == k.bucket ensures log'[j] in rows {
      var n :| 0 <= n < |log| && log[n] == log'[i];
      assert log'[n].uid == log'[i].uid;
    }
  }

  lemma StepGathers(e: Env, st: State, a: Action)
    requires Inv(e, st) && Plain(e, st) && DistinctLogs(st) && Enabled(e, st, a) && DistinctLogs(Apply(e, st, a)) && Gathered(e, st)
    ensures Gathered(e, Apply(e, st, a))
  {
    hide Base, ProcOk, HeldExact, SeenBehind, DistinctLogs, ObjectGathers, ObjectPlain, Moved, RowsFromLogs, CommittedDelivered, SeenDelivered;
    var st' := Apply(e, st, a);
    StepExtends(e, st, a);
    if a.Act? && a.move.Put? {
      PutGathers(e, st, a.s, a.move.bucket, a.move.rows);
      PutIs(e, st, a.s, a.move.bucket, a.move.rows);
    } else {
      QuietLake(e, st, a);
    }
    forall k | k in st'.lake ensures ObjectGathers(e, LogOf(st', e.owner(k.batch)), k, st'.lake[k]) {
      if !(a.Act? && a.move.Put? && k == ObjectKey(ProcOf(st, a.s).batchKey, a.move.bucket)) {
        GathersStays(e, st, st', k);
      }
    }
  }

  lemma PutIs(e: Env, st: State, s: Stream, b: Bucket, rows: seq<Event>)
    requires Base(e, st) && s in e.streams && ProcOk(e, st, s) && CanMove(e, st, s, Put(b, rows))
    ensures e.owner(ProcOf(st, s).batchKey) == s && Moved(e, st, s, Put(b, rows)).logs == st.logs
    ensures Moved(e, st, s, Put(b, rows)).lake == st.lake[ObjectKey(ProcOf(st, s).batchKey, b) := rows]
  {
    OpenKey(e, st, s, Put(b, rows));
  }

  lemma {:induction false} RunGathers(e: Env, st: State, acts: seq<Action>)
    requires Inv(e, st) && Plain(e, st) && Gathered(e, st) && Legal(e, st, acts) && DistinctLogs(Exec(e, st, acts))
    ensures Gathered(e, Exec(e, st, acts))
    decreases |acts|
  {
    hide Inv, Plain, Gathered, DistinctLogs, Apply, Enabled, Extends;
    if acts != [] {
      var st' := Apply(e, st, acts[0]);
      StepKeepsInv(e, st, acts[0]);
      RunKeepsInv(e, st', acts[1..]);
      DistinctPrefix(e, st', Exec(e, st, acts));
      DistinctPrefix(e, st, st');
      PlainStays(e, st, acts[0]);
      StepGathers(e, st, acts[0]);
      RunGathers(e, st', acts[1..]);
    }
  }

  // ----- safe means nothing is lost -----

  /** An object of before that a first run has rewritten holds its one row again. */
  lemma RowIsBack(e: Env, st: State, v: State, s: Stream, k: ObjectKey)
    requires Gathered(e, st) && Gathered(e, v) && ObjectsPlain(e, st) && ObjectsPlain(e, v) && DistinctLogs(v)
    requires LogOf(st, s) <= LogOf(v, s) && !e.oneObject
    requires k in st.lake && k in v.lake && e.owner(k.batch) == s && |st.lake[k]| == 1
    ensures st.lake[k][0] in v.lake[k]
  {
    var log, log', old', new' := LogOf(st, s), LogOf(v, s), st.lake[k], v.lake[k];
    assert ObjectGathers(e, log, k, old') && ObjectGathers(e, log', k, new');
    assert old'[0] in old' && new'[0] in new';
    var i :| e.pos(k.batch) <= i < |log| && 0 <= i < |log| && log[i] == old'[0];
    var j :| e.pos(k.batch) <= j < |log'| && 0 <= j < |log'| && log'[j] == new'[0];
    OnlyOfBucket(e, log, k, old', i);
    NotBefore(e, log, log', e.pos(k.batch), k.bucket, i, j) by { DistinctUids(v, s); }
  }

  lemma DistinctUids(st: State, s: Stream)
    requires DistinctLogs(st)
    ensures UniqueUids(LogOf(st, s))
  {
  }

  lemma NotBefore(e: Env, log: seq<Event>, log': seq<Event>, lo: nat, b: Bucket, i: nat, j: nat)
    requires log <= log' && UniqueUids(log') && i < |log| && lo <= j < |log'| && BucketOf(e, log'[j]) == b
    requires forall n | lo <= n < i && BucketOf(e, log[n]) == b :: log[n].uid == log[i].uid
    ensures i <= j
  {
    assert forall n | 0 <= n < |log| :: log[n] == log'[n];
  }

  lemma OnlyOfBucket(e: Env, log: seq<Event>, k: ObjectKey, rows: seq<Event>, i: nat)
    requires ObjectGathers(e, log, k, rows) && |rows| == 1 && i < |log| && log[i] == rows[0]
    ensures forall j | e.pos(k.batch) <= j < i && BucketOf(e, log[j]) == k.bucket :: log[j].uid == log[i].uid
  {
    assert log[i] in rows;
  }

  lemma FirstRunShape(e: Env, v0: State, acts: seq<Action>)
    requires Init(e, v0) && Legal(e, v0, acts) && DistinctLogs(Exec(e, v0, acts))
    ensures var v := Exec(e, v0, acts); Gathered(e, v) && ObjectsPlain(e, v) && Extends(e, v0, v)
  {
    hide DistinctLogs, Legal;
    InitInv(e, v0);
    InitPlain(e, v0);
    RunStaysTidy(e, v0, acts);
    RunKeepsInv(e, v0, acts);
    RunGathers(e, v0, acts);
  }

  lemma DistinctToo(st: State, st': State)
    requires DistinctLogs(st) && st'.logs == st.logs
    ensures DistinctLogs(st')
  {
    forall s ensures LogOf(st, s) == LogOf(st', s) {
    }
  }

  lemma SafeKeepsDelivered(e: Env, st: State, s: Stream, acts: seq<Action>)
    requires Inv(e, st) && Plain(e, st) && Gathered(e, st) && e.streams == {s} && Finished(st.store, s) && ProcOf(st, s).Down?
    requires SafeToReopen(e, st, s) && Reruns(e, st, s, acts) && DistinctLogs(Rerun(e, st, s, acts))
    ensures KeepsDelivered(e, st, Rerun(e, st, s, acts))
  {
    hide Gathered, ObjectsPlain, SafeToReopen, Legal, Exec, Reruns, Rerun, Init, SeenBehind, HeldExact, RowsFromLogs, ProcOk, SeenDelivered, CommittedDelivered;
    ReopenedIsFirstRun(e, st, s, acts);
    var v0 := Forgotten(e, st, s);
    var v, end := Exec(e, v0, acts), Rerun(e, st, s, acts);
    DistinctToo(end, v);
    FirstRunShape(e, v0, acts);
    assert v0.logs[s] == LogOf(st, s);
    assert LogOf(v0, s) <= LogOf(v, s);
    forall u | Delivered(e, st, u) ensures OnSomeRow(end.lake, u) {
      var k, r :| RowAt(st.lake, k, r, u) && Closed(e, st, k);
      assert KeyOk(e, st, k);
      StillOnRow(e, st, v, s, k, r, end.lake);
    }
  }

  lemma StillOnRow(e: Env, st: State, v: State, s: Stream, k: ObjectKey, r: nat, lake: Lake)
    requires Gathered(e, st) && Gathered(e, v) && ObjectsPlain(e, st) && ObjectsPlain(e, v) && DistinctLogs(v)
    requires LogOf(st, s) <= LogOf(v, s) && SafeToReopen(e, st, s) && lake == st.lake + v.lake
    requires k in st.lake && e.owner(k.batch) == s && r < |st.lake[k]|
    ensures OnSomeRow(lake, st.lake[k][r].uid)
  {
    hide Gathered, ObjectsPlain, DistinctLogs, LogOf;
    if k in v.lake {
      RowIsBack(e, st, v, s, k);
      var n :| 0 <= n < |v.lake[k]| && v.lake[k][n] == st.lake[k][0];
      assert RowAt(lake, k, n, st.lake[k][r].uid);
    } else {
      assert RowAt(lake, k, r, st.lake[k][r].uid);
    }
  }

  // ----- of the runner -----

  /** Opening a range, finished or not, and what follows is a rerun. */
  lemma RunIsRerun(e: Env, st: State, s: Stream, more: seq<Action>)
    requires ProcOf(st, s).Down? && Legal(e, Opened(e, st, s), more)
    ensures var acts := [Open(s)] + more; Reruns(e, st, s, acts) && Rerun(e, st, s, acts) == Exec(e, Opened(e, st, s), more)
  {
    var acts := [Open(s)] + more;
    LegalReruns(e, Opened(e, st, s), s, more);
    assert acts[0] == Open(s) && acts[1..] == more;
  }

  /** Each event before the cursor a rerun leaves is on a row. */
  lemma RerunCursorIsSafe(e: Env, st: State, s: Stream, acts: seq<Action>)
    requires Inv(e, st) && e.streams == {s} && Finished(st.store, s) && ProcOf(st, s).Down?
    requires SafeToReopen(e, st, s) && Reruns(e, st, s, acts)
    ensures var end := Rerun(e, st, s, acts); StoredCursorIsSafe(e, s, LogOf(end, s), GetCursor(end.store, s), end.lake)
  {
    hide Inv, SafeToReopen, Reruns, Rerun, Legal, Exec, Init;
    ReopenedIsFirstRun(e, st, s, acts);
    var v0 := Forgotten(e, st, s);
    var v, end := Exec(e, v0, acts), Rerun(e, st, s, acts);
    InitInv(e, v0);
    RunKeepsInv(e, v0, acts);
    InvMakesCursorSafe(e, v, s);
    assert GetCursor(end.store, s) == GetCursor(v.store, s) && LogOf(end, s) == LogOf(v, s);
    forall u | OnSomeRow(v.lake, u) ensures OnSomeRow(end.lake, u) {
      var k, r :| RowAt(v.lake, k, r, u);
      assert RowAt(end.lake, k, r, u);
    }
  }

  /** The runner on a finished range, where opening it again is safe: as in a run on any other, each mapped
      event before the cursor now stored is on a row, and over distinct uids so is every uid that was
      delivered before. */
  method RerunWithoutLoss(p: Parts, version: string, maxPages: Option<nat>, purgeEvery: int, caughtUpEvery: nat,
                          ghost before: State)
    returns (stats: Option<RunStats>, ghost after: State)
    requires Wired(p) && p.sink.buffer == [] && Mirrors(p, before, Down)
    requires Inv(p.env, before) && p.env.streams == {p.stream}
    requires Finished(before.store, p.stream) && SafeToReopen(p.env, before, p.stream)
    modifies p.source, p.sink, p.sink.store, p.store, p.clock, p.stop, p.others
    ensures Wired(p) && Mirrors(p, after, Down)
    ensures StoredCursorIsSafe(p.env, p.stream, MapAll(p.source.mapRecord, p.source.log),
                               GetCursor(p.store.Contents(), p.stream), p.sink.store.objects)
    ensures Plain(p.env, before) && Gathered(p.env, before) && DistinctLogs(after) ==> KeepsDelivered(p.env, before, after)
  {
    hide Inv, SafeToReopen, Plain, Gathered, DistinctLogs, KeepsDelivered, StoredCursorIsSafe;
    MirrorsProc(p, before, Down);
    ghost var tr, stamps;
    stats, tr, stamps := Run(p, version, maxPages, purgeEvery, caughtUpEvery, before);
    after := tr.now;
    ghost var acts := [Open(p.stream)] + tr.acts;
    RunIsRerun(p.env, before, p.stream, tr.acts);
    RerunCursorIsSafe(p.env, before, p.stream, acts);
    if Plain(p.env, before) && Gathered(p.env, before) && DistinctLogs(after) {
      SafeKeepsDelivered(p.env, before, p.stream, acts);
    }
  }
}
