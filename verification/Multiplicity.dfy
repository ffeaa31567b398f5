/** Repeats in the source. The filter asks the store, which knows only committed uids, so a uid on
    several pages of one open batch is written once per page: exactly as many rows as pages carry it
    in the first batch that has it, and never again. */
module Multiplicity {
  import opened Domain
  import opened StateSpec
  import opened Protocol
  import opened DeliverySafety
  import opened ExactlyOnce

  /** A batch as history: the key it was written under and the pages read into it. */
  datatype Batch = Batch(key: Cursor, pages: seq<seq<Event>>)

  /** The batches committed so far, and the pages written into the open one. */
  datatype History = History(done: seq<Batch>, open: seq<seq<Event>>)

  /** How many of the pages carry the uid. */
  function PagesWith(pages: seq<seq<Event>>, uid: string): nat {
    if pages == [] then 0
    else PagesWith(pages[..|pages| - 1], uid) + if HasUid(pages[|pages| - 1], uid) then 1 else 0
  }

  /** The first batch with a page that carries the uid. */
  function First(done: seq<Batch>, uid: string): Option<Batch> {
    if done == [] then None
    else if First(done[..|done| - 1], uid).Some? then First(done[..|done| - 1], uid)
    else if PagesWith(done[|done| - 1].pages, uid) > 0 then Some(done[|done| - 1])
    else None
  }

  /** What one action of stream `s` adds to its history. */
  function Noted(st: State, s: Stream, a: Action, h: History): History {
    var p := ProcOf(st, s);
    if a == Act(s, Write) && p.Up? && p.phase.Kept? then h.(open := h.open + [p.phase.page.events])
    else if a.Act? && a.s == s && a.move.CommitBatch? && p.Up? then History(h.done + [Batch(p.batchKey, h.open)], [])
    else h
  }

  ghost function HistoryOf(e: Env, st: State, s: Stream, acts: seq<Action>, h: History): History
    requires Legal(e, st, acts)
    decreases |acts|
  {
    if acts == [] then h
    else HistoryOf(e, Apply(e, st, acts[0]), s, acts[1..], Noted(st, s, acts[0], h))
  }

  /** A run in which `s` never dies. Other streams do as they like. */
  predicate Calm(s: Stream, acts: seq<Action>) {
    forall a :: a in acts ==> CalmStep(s, a)
  }

  predicate CalmStep(s: Stream, a: Action) {
    a.Halt? ==> a.s != s
  }

  /** A step of `s` itself, or of the world. */
  predicate OwnStep(s: Stream, a: Action) {
    !a.Halt? && (a.Open? || a.Act? ==> a.s == s)
  }

  // ----- counting -----

  /** The uid names one event of the log, however often it is there. */
  predicate Names(log: seq<Event>, ev: Event) {
    forall i :: 0 <= i < |log| && log[i].uid == ev.uid ==> log[i] == ev
  }

  /** The page-local collapse keeps one row of a uid the store does not know. */
  lemma FreshCount(events: seq<Event>, unseen: set<string>, ev: Event)
    requires Names(events, ev)
    ensures multiset(Fresh(events, unseen))[ev] == if ev.uid in unseen && HasUid(events, ev.uid) then 1 else 0
  {
    var kept := Fresh(events, unseen);
    OnceInMultiset(kept, ev);
    if ev in events {
      var i :| 0 <= i < |events| && events[i] == ev;
      assert HasUid(events, ev.uid);
    }
    if ev.uid in unseen && HasUid(events, ev.uid) {
      var i :| 0 <= i < |events| && events[i].uid == ev.uid;
      assert events[i] in events;
      var j :| 0 <= j < |kept| && kept[j].uid == ev.uid;
      assert kept[j] in events;
      assert kept[j] in multiset(kept);
    }
  }

  lemma FilterCount(seen: map<string, int>, now: int, events: seq<Event>, ev: Event)
    requires Names(events, ev)
    ensures multiset(Filtered(seen, now, events))[ev]
      == if HasUid(events, ev.uid) && !Live(seen, now, ev.uid) then 1 else 0
  {
    var _ := UnseenMeaning(seen, now, Uids(events));
    var unseen := set u | u in Unseen(seen, now, Uids(events));
    FreshCount(events, unseen, ev);
    if HasUid(events, ev.uid) {
      var i :| 0 <= i < |events| && events[i].uid == ev.uid;
      assert Uids(events)[i] == ev.uid;
    }
  }

  /** No other log carries the uid. */
  ghost predicate OnlyIn(st: State, s: Stream, uid: string) {
    forall t, i :: t != s && 0 <= i < |LogOf(st, t)| ==> LogOf(st, t)[i].uid != uid
  }

  // ----- the invariant -----

  /** How many rows of `ev` object `k` should hold once final. */
  function Due(e: Env, done: seq<Batch>, k: ObjectKey, ev: Event): nat {
    match First(done, ev.uid)
    case Some(b) => if k == ObjectKey(b.key, BucketOf(e, ev)) then PagesWith(b.pages, ev.uid) else 0
    case None => 0
  }

  /** The objects the open batch has already been PUT to. */
  predicate InFlight(e: Env, p: Proc, k: ObjectKey) {
    && p.Up? && k.batch == p.batchKey
    && ((p.phase.Flushing? && k.bucket in p.phase.done)
        || (p.phase.Acked? && k.bucket in Targets(e, p.phase.sent)))
  }

  ghost predicate SeenTally(e: Env, st: State, done: seq<Batch>, ev: Event, t0: int) {
    && (ev.uid in st.store.seen <==> First(done, ev.uid).Some?)
    && (ev.uid in st.store.seen ==> st.store.seen[ev.uid] >= t0 + e.ttl)
  }

  ghost predicate HeldTally(e: Env, st: State, s: Stream, h: History, ev: Event) {
    var p := ProcOf(st, s);
    if p.Up? && !Finished(st.store, s) then
      && multiset(Held(p))[ev] == (if ev.uid in st.store.seen then 0 else PagesWith(h.open, ev.uid))
      && (p.phase.Kept? ==> (multiset(p.phase.kept)[ev]
            == if ev.uid in st.store.seen || !HasUid(p.phase.page.events, ev.uid) then 0 else 1))
      && (PagesWith(h.open, ev.uid) > 0 ==> UptoOf(st, s) < Reached(e, p))
    else h.open == []
  }

  /** Of the stream's objects: a final one holds its due, and one that is neither final nor in flight
      holds none. */
  ghost predicate RowsDue(e: Env, st: State, s: Stream, done: seq<Batch>, ev: Event, k: ObjectKey)
    requires k in st.lake
  {
    e.owner(k.batch) == s ==>
      && (Closed(e, st, k) ==> multiset(st.lake[k])[ev] == Due(e, done, k, ev))
      && (!Closed(e, st, k) && !InFlight(e, ProcOf(st, s), k) ==> multiset(st.lake[k])[ev] == 0)
  }

  ghost predicate LakeTally(e: Env, st: State, s: Stream, done: seq<Batch>, ev: Event) {
    && (forall k :: k in st.lake ==> RowsDue(e, st, s, done, ev, k))
    && (First(done, ev.uid).Some? ==>
          var k := ObjectKey(First(done, ev.uid).value.key, BucketOf(e, ev)); k in st.lake && e.owner(k.batch) == s && Closed(e, st, k))
  }

  ghost predicate Tally(e: Env, st: State, s: Stream, h: History, ev: Event, t0: int) {
    SeenTally(e, st, h.done, ev, t0) && HeldTally(e, st, s, h, ev) && LakeTally(e, st, s, h.done, ev)
  }

  // ----- one step keeps it -----

  lemma LastPage(pages: seq<seq<Event>>, page: seq<Event>, uid: string)
    ensures PagesWith(pages + [page], uid) == PagesWith(pages, uid) + if HasUid(page, uid) then 1 else 0
  {
    assert (pages + [page])[..|pages|] == pages;
  }

  lemma LastBatch(done: seq<Batch>, b: Batch, uid: string)
    ensures First(done + [b], uid) ==
      if First(done, uid).Some? then First(done, uid) else if PagesWith(b.pages, uid) > 0 then Some(b) else None
  {
    assert (done + [b])[..|done|] == done;
  }

  lemma {:induction false} FirstCarries(done: seq<Batch>, uid: string)
    ensures First(done, uid).Some? ==> PagesWith(First(done, uid).value.pages, uid) > 0
  {
    if done != [] {
      FirstCarries(done[..|done| - 1], uid);
    }
  }

  lemma NamesSlice(log: seq<Event>, lo: nat, hi: nat, ev: Event)
    requires Names(log, ev) && lo <= hi <= |log|
    ensures Names(log[lo..hi], ev)
  {
    forall i | 0 <= i < hi - lo && log[lo..hi][i].uid == ev.uid ensures log[lo..hi][i] == ev {
      assert log[lo + i] == log[lo..hi][i];
    }
  }

  lemma HeldAfterFilterMove(e: Env, st: State, s: Stream, h: History, ev: Event, t0: int)
    requires ProcOk(e, st, s) && CanMove(e, st, s, Filter) && Names(LogOf(st, s), ev)
    requires SeenTally(e, st, h.done, ev, t0) && HeldTally(e, st, s, h, ev) && st.now < t0 + e.ttl
    ensures HeldTally(e, Moved(e, st, s, Filter), s, h, ev)
  {
    hide Covered, Drawn, PhaseOk, Filtered, Uids, HasUid, Names, First, PagesWith, Finished;
    QuietStore(e, st, s, Filter, s);
    var p := ProcOf(st, s);
    NamesSlice(LogOf(st, s), e.pos(p.cursor), p.phase.page.end, ev);
    FilterCount(st.store.seen, st.now, p.phase.page.events, ev);
  }

  lemma WriteHolds(e: Env, st: State, s: Stream)
    requires ProcOk(e, st, s) && CanMove(e, st, s, Write) && !Finished(st.store, s)
    ensures var p, p' := ProcOf(st, s), ProcOf(Moved(e, st, s, Write), s);
      && p'.Up? && Held(p') == Held(p) + p.phase.kept && Reached(e, p') == p.phase.page.end && !p'.phase.Kept?
      && UptoOf(st, s) <= Reached(e, p) <= p.phase.page.end
      && (p.phase.page.events != [] ==> UptoOf(st, s) < p.phase.page.end)
  {
    hide Covered, Drawn, PhaseOk, Uids, Finished;
  }

  lemma HeldAfterWriteMove(e: Env, st: State, s: Stream, h: History, ev: Event)
    requires ProcOk(e, st, s) && CanMove(e, st, s, Write) && HeldTally(e, st, s, h, ev)
    ensures HeldTally(e, Moved(e, st, s, Write), s, Noted(st, s, Act(s, Write), h), ev)
  {
    hide PagesWith, Finished, Moved, Held, Reached;
    var p := ProcOf(st, s);
    QuietStore(e, st, s, Write, s);
    QuietSeenMove(e, st, s, Write);
    LastPage(h.open, p.phase.page.events, ev.uid);
    if Finished(st.store, s) {
      FinishedWritesNothing(e, st, s);
    } else {
      WriteHolds(e, st, s);
    }
  }

  lemma FinishedWritesNothing(e: Env, st: State, s: Stream)
    requires ProcOk(e, st, s) && ProcOf(st, s).Up? && Finished(st.store, s)
    ensures ProcOf(st, s).phase.Settled?
  {
    hide Covered, Drawn, PhaseOk, Uids, Finished;
  }

  lemma HeldAfterOtherMove(e: Env, st: State, s: Stream, m: Move, h: History, ev: Event)
    requires ProcOk(e, st, s) && CanMove(e, st, s, m) && HeldTally(e, st, s, h, ev)
    requires !m.Filter? && !m.Write? && !m.CommitBatch?
    ensures HeldTally(e, Moved(e, st, s, m), s, h, ev)
  {
    hide ProcOk, Finished, HasUid;
    QuietStore(e, st, s, m, s);
    QuietHolds(e, st, s, m);
    QuietSeenMove(e, st, s, m);
  }

  /** What the commit is about to make final, for one event. */
  lemma SentCount(e: Env, st: State, s: Stream, version: string, h: History, ev: Event)
    requires ProcOk(e, st, s) && CanMove(e, st, s, CommitBatch(version)) && !Finished(st.store, s)
    requires HeldTally(e, st, s, h, ev) && Names(LogOf(st, s), ev)
    ensures var p := ProcOf(st, s);
      && multiset(p.phase.sent)[ev] == (if ev.uid in st.store.seen then 0 else PagesWith(h.open, ev.uid))
      && (ev.uid in p.pending <==> ev in p.phase.sent)
      && (PagesWith(h.open, ev.uid) > 0 ==> UptoOf(st, s) < p.phase.page.end)
  {
    hide Covered, PhaseOk;
    var p, log := ProcOf(st, s), LogOf(st, s);
    var sent := p.phase.sent;
    if ev.uid in p.pending {
      var i :| 0 <= i < |p.pending| && p.pending[i] == ev.uid;
      assert sent[i] in sent && sent[i].uid == ev.uid;
      var j :| UptoOf(st, s) <= j < Reached(e, p) && 0 <= j < |log| && log[j] == sent[i];
    }
    if ev in sent {
      var i :| 0 <= i < |sent| && sent[i] == ev;
      assert p.pending[i] == ev.uid;
    }
  }

  lemma SeenAfterCommit(e: Env, st: State, s: Stream, version: string, h: History, ev: Event, t0: int)
    requires ProcOk(e, st, s) && CanMove(e, st, s, CommitBatch(version)) && !Finished(st.store, s)
    requires HeldTally(e, st, s, h, ev) && SeenTally(e, st, h.done, ev, t0) && Names(LogOf(st, s), ev) && t0 <= st.now
    ensures SeenTally(e, Moved(e, st, s, CommitBatch(version)), Noted(st, s, Act(s, CommitBatch(version)), h).done, ev, t0)
  {
    hide ProcOk, HeldTally, Names, First, PagesWith;
    var p := ProcOf(st, s);
    SentCount(e, st, s, version, h, ev);
    LastBatch(h.done, Batch(p.batchKey, h.open), ev.uid);
  }

  lemma SentStored(e: Env, st: State, s: Stream, version: string, b: Bucket)
    requires ProcOk(e, st, s) && CanMove(e, st, s, CommitBatch(version)) && b in Targets(e, ProcOf(st, s).phase.sent)
    ensures Stored(e, st, ProcOf(st, s).batchKey, ProcOf(st, s).phase.sent, b)
  {
  }

  /** An object the commit makes final holds its due. */
  lemma RowsAfterCommit(e: Env, st: State, s: Stream, version: string, h: History, ev: Event, t0: int, k: ObjectKey)
    requires ProcOk(e, st, s) && CanMove(e, st, s, CommitBatch(version)) && AtOpenKey(e, st, s, CommitBatch(version))
    requires SeenTally(e, st, h.done, ev, t0) && HeldTally(e, st, s, h, ev) && LakeTally(e, st, s, h.done, ev) && Names(LogOf(st, s), ev)
    requires k in st.lake && KeyOk(e, st, k)
    ensures RowsDue(e, Moved(e, st, s, CommitBatch(version)), s, Noted(st, s, Act(s, CommitBatch(version)), h).done, ev, k)
  {
    hide HeldTally, Names, First, PagesWith, ProcOk, Targets, InBucket;
    var p := ProcOf(st, s);
    SentCount(e, st, s, version, h, ev);
    LastBatch(h.done, Batch(p.batchKey, h.open), ev.uid);
    assert RowsDue(e, st, s, h.done, ev, k);
    if InFlight(e, p, k) {
      SentStored(e, st, s, version, k.bucket);
      BucketCount(e, p.phase.sent, k.bucket, ev);
    } else {
      NotTargeted(e, p.phase.sent, k.bucket, ev);
    }
  }

  lemma NotTargeted(e: Env, events: seq<Event>, b: Bucket, ev: Event)
    ensures b !in Targets(e, events) && b == BucketOf(e, ev) ==> multiset(events)[ev] == 0
    ensures ev in events ==> BucketOf(e, ev) in Targets(e, events)
  {
  }

  lemma LakeAfterCommit(e: Env, st: State, s: Stream, version: string, h: History, ev: Event, t0: int)
    requires Base(e, st) && s in e.streams && ProcOk(e, st, s) && CanMove(e, st, s, CommitBatch(version))
    requires AtOpenKey(e, st, s, CommitBatch(version))
    requires SeenTally(e, st, h.done, ev, t0) && HeldTally(e, st, s, h, ev) && LakeTally(e, st, s, h.done, ev) && Names(LogOf(st, s), ev)
    ensures LakeTally(e, Moved(e, st, s, CommitBatch(version)), s, Noted(st, s, Act(s, CommitBatch(version)), h).done, ev)
  {
    hide HeldTally, Names, First, PagesWith, ProcOk, Targets, InBucket, StreamOk, KeyOk, RowsDue;
    var p, st' := ProcOf(st, s), Moved(e, st, s, CommitBatch(version));
    forall k | k in st'.lake ensures RowsDue(e, st', s, Noted(st, s, Act(s, CommitBatch(version)), h).done, ev, k) {
      RowsAfterCommit(e, st, s, version, h, ev, t0, k);
    }
    SentCount(e, st, s, version, h, ev);
    LastBatch(h.done, Batch(p.batchKey, h.open), ev.uid);
    NotTargeted(e, p.phase.sent, BucketOf(e, ev), ev);
    if First(h.done, ev.uid).None? && PagesWith(h.open, ev.uid) > 0 {
      assert ev in p.phase.sent;
      SentStored(e, st, s, version, BucketOf(e, ev));
    }
  }

  lemma LakeAfterPut(e: Env, st: State, s: Stream, b: Bucket, rows: seq<Event>, h: History, ev: Event)
    requires CanMove(e, st, s, Put(b, rows)) && AtOpenKey(e, st, s, Put(b, rows))
    requires LakeTally(e, st, s, h.done, ev)
    ensures LakeTally(e, Moved(e, st, s, Put(b, rows)), s, h.done, ev)
  {
    hide First, PagesWith, Targets, InBucket, Due, RowsDue;
    var st' := Moved(e, st, s, Put(b, rows));
    forall k | k in st'.lake ensures RowsDue(e, st', s, h.done, ev, k) {
      RowsAfterPut(e, st, s, b, rows, h, ev, k);
    }
  }

  lemma RowsAfterPut(e: Env, st: State, s: Stream, b: Bucket, rows: seq<Event>, h: History, ev: Event, k: ObjectKey)
    requires CanMove(e, st, s, Put(b, rows)) && AtOpenKey(e, st, s, Put(b, rows))
    requires k in st.lake ==> RowsDue(e, st, s, h.done, ev, k)
    requires k in Moved(e, st, s, Put(b, rows)).lake
    ensures RowsDue(e, Moved(e, st, s, Put(b, rows)), s, h.done, ev, k)
  {
    hide Targets, InBucket, Due;
  }

  /** Steps that change neither the lake, nor a position, nor what is in flight. */
  lemma LakeStays(e: Env, st: State, st': State, s: Stream, h: History, ev: Event)
    requires LakeTally(e, st, s, h.done, ev) && st'.lake == st.lake && st'.upto == st.upto
    requires forall k :: InFlight(e, ProcOf(st, s), k) ==> InFlight(e, ProcOf(st', s), k)
    ensures LakeTally(e, st', s, h.done, ev)
  {
    forall k | k in st'.lake ensures RowsDue(e, st', s, h.done, ev, k) {
      assert RowsDue(e, st, s, h.done, ev, k);
    }
  }

  lemma StaysInFlight(e: Env, st: State, a: Action, s: Stream, k: ObjectKey)
    requires Enabled(e, st, a) && InFlight(e, ProcOf(st, s), k) && !a.Halt?
    requires !(a.Act? && (a.move.Put? || a.move.CommitBatch?))
    ensures InFlight(e, ProcOf(Apply(e, st, a), s), k)
  {
    hide Filtered, InBucket, Targets;
  }

  lemma LakeAfterQuiet(e: Env, st: State, a: Action, s: Stream, h: History, ev: Event)
    requires Enabled(e, st, a) && LakeTally(e, st, s, h.done, ev) && !a.Halt?
    requires !(a.Act? && (a.move.Put? || a.move.CommitBatch?))
    ensures LakeTally(e, Apply(e, st, a), s, h.done, ev)
  {
    hide InFlight, LakeTally, Apply, Enabled;
    QuietLake(e, st, a);
    QuietSeen(e, st, a);
    forall k | InFlight(e, ProcOf(st, s), k) ensures InFlight(e, ProcOf(Apply(e, st, a), s), k) {
      StaysInFlight(e, st, a, s, k);
    }
    LakeStays(e, st, Apply(e, st, a), s, h, ev);
  }

  /** Nothing expires before the run is one window old, so only a commit changes what is live. */
  lemma SeenAfterQuiet(e: Env, st: State, a: Action, h: History, ev: Event, t0: int)
    requires Enabled(e, st, a) && SeenTally(e, st, h.done, ev, t0) && st.now < t0 + e.ttl
    requires !(a.Act? && a.move.CommitBatch?)
    ensures SeenTally(e, Apply(e, st, a), h.done, ev, t0)
    ensures ev.uid in Apply(e, st, a).store.seen <==> ev.uid in st.store.seen
  {
    hide Filtered, InBucket, Targets, First;
  }

  lemma HeldAfterCommitMove(e: Env, st: State, s: Stream, version: string, h: History, ev: Event)
    requires ProcOk(e, st, s) && CanMove(e, st, s, CommitBatch(version))
    ensures HeldTally(e, Moved(e, st, s, CommitBatch(version)), s, Noted(st, s, Act(s, CommitBatch(version)), h), ev)
  {
    hide Filtered, InBucket, Targets, Covered, Drawn, Stored;
    assert PagesWith([], ev.uid) == 0;
  }

  lemma HeldAround(e: Env, st: State, a: Action, s: Stream, h: History, ev: Event)
    requires Enabled(e, st, a) && HeldTally(e, st, s, h, ev) && !a.Act? && !a.Halt? && (a.Open? ==> a.s == s)
    requires ev.uid in Apply(e, st, a).store.seen <==> ev.uid in st.store.seen
    ensures HeldTally(e, Apply(e, st, a), s, h, ev)
  {
    hide HasUid;
  }

  lemma HeldAfterStep(e: Env, st: State, a: Action, s: Stream, h: History, ev: Event, t0: int)
    requires ProcOk(e, st, s) && Enabled(e, st, a) && OwnStep(s, a) && Tally(e, st, s, h, ev, t0)
    requires Names(LogOf(st, s), ev) && st.now < t0 + e.ttl
    ensures HeldTally(e, Apply(e, st, a), s, Noted(st, s, a, h), ev)
  {
    hide ProcOk, HeldTally, SeenTally, LakeTally, Moved, CanMove, Names, PagesWith;
    if a.Act? {
      match a.move
      case Filter => HeldAfterFilterMove(e, st, s, h, ev, t0);
      case Write => HeldAfterWriteMove(e, st, s, h, ev);
      case CommitBatch(version) => HeldAfterCommitMove(e, st, s, version, h, ev);
      case m => HeldAfterOtherMove(e, st, s, m, h, ev);
    } else {
      SeenAfterQuiet(e, st, a, h, ev, t0);
      HeldAround(e, st, a, s, h, ev);
    }
  }

  lemma TallyAfterOwnStep(e: Env, st: State, a: Action, s: Stream, h: History, ev: Event, t0: int)
    requires Inv(e, st) && s in e.streams && Enabled(e, st, a) && OwnStep(s, a) && Tally(e, st, s, h, ev, t0)
    requires Names(LogOf(st, s), ev) && t0 <= st.now < t0 + e.ttl
    ensures Tally(e, Apply(e, st, a), s, Noted(st, s, a, h), ev, t0)
  {
    hide Base, RowsFromLogs, CommittedDelivered, SeenDelivered, ProcOk, HeldTally, SeenTally, LakeTally, Moved, CanMove, Names, AtOpenKey;
    HeldAfterStep(e, st, a, s, h, ev, t0);
    StepAtOpenKey(e, st, a);
    if a.Act? && a.move.CommitBatch? {
      CommitsUnfinished(e, st, s, a.move.version);
      SeenAfterCommit(e, st, s, a.move.version, h, ev, t0);
      LakeAfterCommit(e, st, s, a.move.version, h, ev, t0);
    } else {
      SeenAfterQuiet(e, st, a, h, ev, t0);
      if a.Act? && a.move.Put? {
        LakeAfterPut(e, st, s, a.move.bucket, a.move.rows, h, ev);
      } else {
        LakeAfterQuiet(e, st, a, s, h, ev);
      }
    }
  }

  /** Another stream's commit marks other uids. */
  lemma SeenElsewhere(e: Env, st: State, a: Action, s: Stream, h: History, ev: Event, t0: int)
    requires Inv(e, st) && Enabled(e, st, a) && SeenTally(e, st, h.done, ev, t0) && st.now < t0 + e.ttl
    requires OnlyIn(st, s, ev.uid) && (a.Act? ==> a.s != s)
    ensures SeenTally(e, Apply(e, st, a), h.done, ev, t0)
    ensures ev.uid in Apply(e, st, a).store.seen <==> ev.uid in st.store.seen
  {
    hide Base, RowsFromLogs, CommittedDelivered, SeenDelivered, ProcOk, AtOpenKey, First, Targets;
    if a.Act? && a.move.CommitBatch? {
      StepAtOpenKey(e, st, a);
      CommitsUnfinished(e, st, a.s, a.move.version);
      assert ProcOk(e, st, a.s);
      PendingLogged(e, st, a.s, a.move.version);
      assert ev.uid !in ProcOf(st, a.s).pending;
    } else {
      SeenAfterQuiet(e, st, a, h, ev, t0);
    }
  }

  lemma TallyElsewhere(e: Env, st: State, a: Action, s: Stream, h: History, ev: Event, t0: int)
    requires Inv(e, st) && s in e.streams && Enabled(e, st, a) && !OwnStep(s, a) && CalmStep(s, a) && Tally(e, st, s, h, ev, t0)
    requires OnlyIn(st, s, ev.uid) && st.now < t0 + e.ttl
    ensures Tally(e, Apply(e, st, a), s, h, ev, t0)
  {
    hide Inv, SeenTally, Apply, Enabled, OnlyIn, First, PagesWith, InFlight, Due;
    StepIsolated(e, st, a, s);
    SeenElsewhere(e, st, a, s, h, ev, t0);
    var st' := Apply(e, st, a);
    forall k | k in st'.lake ensures RowsDue(e, st', s, h.done, ev, k) {
      assert k in st.lake ==> RowsDue(e, st, s, h.done, ev, k);
    }
  }

  lemma TallyAfterStep(e: Env, st: State, a: Action, s: Stream, h: History, ev: Event, t0: int)
    requires Inv(e, st) && s in e.streams && Enabled(e, st, a) && CalmStep(s, a) && Tally(e, st, s, h, ev, t0)
    requires Names(LogOf(st, s), ev) && OnlyIn(st, s, ev.uid) && t0 <= st.now < t0 + e.ttl
    ensures Tally(e, Apply(e, st, a), s, Noted(st, s, a, h), ev, t0)
  {
    hide Inv, Tally, Apply, Enabled, OnlyIn, Names;
    if OwnStep(s, a) {
      TallyAfterOwnStep(e, st, a, s, h, ev, t0);
    } else {
      TallyElsewhere(e, st, a, s, h, ev, t0);
    }
  }

  lemma OnlyInBefore(e: Env, st: State, st': State, s: Stream, uid: string)
    requires Extends(e, st, st') && OnlyIn(st', s, uid)
    ensures OnlyIn(st, s, uid)
  {
    forall t, i | t != s && 0 <= i < |LogOf(st, t)| ensures LogOf(st, t)[i].uid != uid {
      assert LogOf(st, t) <= LogOf(st', t);
      assert LogOf(st', t)[i] == LogOf(st, t)[i];
    }
  }

  lemma CommitsUnfinished(e: Env, st: State, s: Stream, version: string)
    requires AtOpenKey(e, st, s, CommitBatch(version)) && CanMove(e, st, s, CommitBatch(version))
    ensures !Finished(st.store, s)
  {
  }

  lemma NamesBefore(log: seq<Event>, log': seq<Event>, ev: Event)
    requires log <= log' && Names(log', ev)
    ensures Names(log, ev)
  {
    forall i | 0 <= i < |log| && log[i].uid == ev.uid ensures log[i] == ev {
      assert log'[i] == log[i];
    }
  }

  lemma {:induction false} RunTally(e: Env, st: State, acts: seq<Action>, s: Stream, h: History, ev: Event, t0: int)
    requires Inv(e, st) && s in e.streams && Legal(e, st, acts) && Calm(s, acts) && Tally(e, st, s, h, ev, t0)
    requires Names(LogOf(Exec(e, st, acts), s), ev) && OnlyIn(Exec(e, st, acts), s, ev.uid)
    requires t0 <= st.now && Exec(e, st, acts).now < t0 + e.ttl
    ensures Tally(e, Exec(e, st, acts), s, HistoryOf(e, st, s, acts, h), ev, t0)
    decreases |acts|
  {
    hide Inv, Tally, Names, OnlyIn, Enabled, Apply;
    if acts != [] {
      var a, st' := acts[0], Apply(e, st, acts[0]);
      assert a in acts;
      RunKeepsInv(e, st, acts);
      NamesBefore(LogOf(st, s), LogOf(Exec(e, st, acts), s), ev);
      OnlyInBefore(e, st, Exec(e, st, acts), s, ev.uid);
      StepKeepsInv(e, st, a);
      TallyAfterStep(e, st, a, s, h, ev, t0);
      assert Calm(s, acts[1..]);
      RunTally(e, st', acts[1..], s, Noted(st, s, a, h), ev, t0);
    }
  }

  const NoHistory := History([], [])

  /** A run of `s` shorter than the dedup window in which it never dies, from any reachable state in
      which it is down and the event is new. Others run, crash and commit beside it. */
  ghost predicate FreshRun(e: Env, st: State, acts: seq<Action>, s: Stream, ev: Event)
    requires Legal(e, st, acts)
  {
    var end := Exec(e, st, acts);
    && Inv(e, st) && s in e.streams && ProcOf(st, s).Down? && Calm(s, acts) && end.now < st.now + e.ttl
    && ev.uid !in st.store.seen && (forall k :: k in st.lake ==> ev !in st.lake[k])
    && Names(LogOf(end, s), ev) && OnlyIn(end, s, ev.uid)
  }

  lemma FreshRunTally(e: Env, st: State, acts: seq<Action>, s: Stream, ev: Event)
    requires Legal(e, st, acts) && FreshRun(e, st, acts, s, ev)
    ensures Tally(e, Exec(e, st, acts), s, HistoryOf(e, st, s, acts, NoHistory), ev, st.now) && Inv(e, Exec(e, st, acts))
  {
    hide Inv, Names, OnlyIn, Extends;
    RunKeepsInv(e, st, acts);
    forall k | k in st.lake ensures RowsDue(e, st, s, [], ev, k) {
      assert ev !in multiset(st.lake[k]);
    }
    assert PagesWith([], ev.uid) == 0;
    RunTally(e, st, acts, s, NoHistory, ev, st.now);
  }

  /** Another stream's objects hold events of its own log. */
  lemma NotElsewhere(e: Env, st: State, s: Stream, ev: Event, k: ObjectKey)
    requires RowsFromLogs(e, st) && OnlyIn(st, s, ev.uid) && k in st.lake && e.owner(k.batch) != s
    ensures ev !in st.lake[k]
  {
    forall r | 0 <= r < |st.lake[k]| ensures st.lake[k][r].uid != ev.uid {
      var j := RowInLog(e, st, k, r);
    }
  }

  /** The exact number of rows. In such a run every final object holds, of an event the log may repeat,
      exactly one row per page that carries it in the first batch that has it, under that batch's key and
      the event's bucket; every other final object holds none. */
  lemma RowsPerPage(e: Env, st: State, acts: seq<Action>, s: Stream, ev: Event, k: ObjectKey)
    requires Legal(e, st, acts) && FreshRun(e, st, acts, s, ev)
    ensures var end := Exec(e, st, acts); var first := First(HistoryOf(e, st, s, acts, NoHistory).done, ev.uid);
      && (first.Some? && k == ObjectKey(first.value.key, BucketOf(e, ev)) ==>
            k in end.lake && Closed(e, end, k)
            && multiset(end.lake[k])[ev] == PagesWith(first.value.pages, ev.uid) > 0)
      && (k in end.lake && Closed(e, end, k) && !(first.Some? && k == ObjectKey(first.value.key, BucketOf(e, ev))) ==>
            ev !in end.lake[k])
  {
    hide SeenTally, HeldTally, Base, CommittedDelivered, SeenDelivered, ProcOk, Names, OnlyIn, RowsFromLogs, InFlight;
    FreshRunTally(e, st, acts, s, ev);
    FirstCarries(HistoryOf(e, st, s, acts, NoHistory).done, ev.uid);
    var end := Exec(e, st, acts);
    if k in end.lake {
      assert RowsDue(e, end, s, HistoryOf(e, st, s, acts, NoHistory).done, ev, k);
      if e.owner(k.batch) != s {
        NotElsewhere(e, end, s, ev, k);
      }
    }
  }

  // ----- the history is the log -----

  function Flat(pages: seq<seq<Event>>): seq<Event> {
    if pages == [] then [] else Flat(pages[..|pages| - 1]) + pages[|pages| - 1]
  }

  /** The batches tile `lo..hi` of the log, each under a key that points at where it starts. */
  ghost predicate Tiles(e: Env, log: seq<Event>, lo: nat, done: seq<Batch>, hi: nat)
    decreases |done|
  {
    if done == [] then lo == hi
    else
      var n := |done| - 1;
      var at := e.pos(done[n].key);
      && lo <= at <= hi <= |log| && log[at..hi] == Flat(done[n].pages)
      && Tiles(e, log, lo, done[..n], at)
  }

  ghost predicate OpenPages(e: Env, st: State, s: Stream, open: seq<seq<Event>>) {
    var p := ProcOf(st, s);
    if p.Up? && !Finished(st.store, s) then
      UptoOf(st, s) <= Reached(e, p) <= |LogOf(st, s)| && LogOf(st, s)[UptoOf(st, s)..Reached(e, p)] == Flat(open)
    else open == []
  }

  lemma {:induction false} TilesStay(e: Env, log: seq<Event>, log': seq<Event>, lo: nat, done: seq<Batch>, hi: nat)
    requires Tiles(e, log, lo, done, hi) && log <= log'
    ensures Tiles(e, log', lo, done, hi)
    decreases |done|
  {
    if done != [] {
      var n := |done| - 1;
      var at := e.pos(done[n].key);
      TilesStay(e, log, log', lo, done[..n], at);
      assert log'[at..hi] == log[at..hi];
    }
  }

  lemma FlatGrows(pages: seq<seq<Event>>, page: seq<Event>, log: seq<Event>, lo: nat, mid: nat, hi: nat)
    requires lo <= mid <= hi <= |log| && Flat(pages) == log[lo..mid] && page == log[mid..hi]
    ensures Flat(pages + [page]) == log[lo..hi]
  {
    assert (pages + [page])[..|pages|] == pages;
    assert log[lo..mid] + log[mid..hi] == log[lo..hi];
  }

  lemma TilesGrow(e: Env, log: seq<Event>, lo: nat, done: seq<Batch>, b: Batch, mid: nat, hi: nat)
    requires Tiles(e, log, lo, done, mid) && e.pos(b.key) == mid
    requires lo <= mid <= hi <= |log| && log[mid..hi] == Flat(b.pages)
    ensures Tiles(e, log, lo, done + [b], hi)
  {
    assert (done + [b])[..|done|] == done;
  }

  lemma OpenAfterWrite(e: Env, st: State, s: Stream, h: History)
    requires ProcOk(e, st, s) && CanMove(e, st, s, Write) && OpenPages(e, st, s, h.open)
    ensures OpenPages(e, Moved(e, st, s, Write), s, Noted(st, s, Act(s, Write), h).open)
  {
    hide Covered, Drawn, PhaseOk, Uids, Flat;
    var p := ProcOf(st, s);
    if !Finished(st.store, s) {
      FlatGrows(h.open, p.phase.page.events, LogOf(st, s), UptoOf(st, s), e.pos(p.cursor), p.phase.page.end);
    }
  }

  lemma OpenAfterOther(e: Env, st: State, s: Stream, m: Move, h: History)
    requires ProcOk(e, st, s) && CanMove(e, st, s, m) && OpenPages(e, st, s, h.open)
    requires !m.Write? && !m.CommitBatch?
    ensures OpenPages(e, Moved(e, st, s, m), s, h.open)
  {
    hide ProcOk, Finished, Flat;
    QuietStore(e, st, s, m, s);
    QuietReach(e, st, s, m);
    QuietSeenMove(e, st, s, m);
  }

  lemma CommitMoves(e: Env, st: State, s: Stream, version: string)
    requires CanMove(e, st, s, CommitBatch(version))
    ensures var p, st' := ProcOf(st, s), Moved(e, st, s, CommitBatch(version));
      && UptoOf(st', s) == p.phase.page.end && LogOf(st', s) == LogOf(st, s) && Reached(e, p) == p.phase.page.end
      && ProcOf(st', s).Up? && Reached(e, ProcOf(st', s)) == p.phase.page.end
  {
    hide Commit, Targets;
  }

  lemma TilesAfterCommit(e: Env, st: State, s: Stream, version: string, lo: nat, h: History)
    requires CanMove(e, st, s, CommitBatch(version)) && AtOpenKey(e, st, s, CommitBatch(version))
    requires lo <= UptoOf(st, s) && OpenPages(e, st, s, h.open)
    requires Tiles(e, LogOf(st, s), lo, h.done, UptoOf(st, s))
    ensures var st' := Moved(e, st, s, CommitBatch(version)); var h' := Noted(st, s, Act(s, CommitBatch(version)), h);
      && Tiles(e, LogOf(st', s), lo, h'.done, UptoOf(st', s))
      && OpenPages(e, st', s, h'.open)
  {
    hide Moved, Tiles, Finished, Reached, Start;
    var p := ProcOf(st, s);
    CommitMoves(e, st, s, version);
    TilesGrow(e, LogOf(st, s), lo, h.done, Batch(p.batchKey, h.open), UptoOf(st, s), p.phase.page.end);
  }

  ghost predicate Chronicle(e: Env, st: State, s: Stream, lo: nat, h: History) {
    OpenPages(e, st, s, h.open) && Tiles(e, LogOf(st, s), lo, h.done, UptoOf(st, s))
  }

  lemma OpenAround(e: Env, st: State, a: Action, s: Stream, open: seq<seq<Event>>)
    requires Base(e, st) && Enabled(e, st, a) && OpenPages(e, st, s, open) && !a.Act? && OwnStep(s, a) && s in e.streams
    ensures OpenPages(e, Apply(e, st, a), s, open) && UptoOf(Apply(e, st, a), s) == UptoOf(st, s)
    ensures LogOf(st, s) <= LogOf(Apply(e, st, a), s)
  {
    hide KeyOk;
    assert StreamOk(e, st, s);
    if a.Grow? && a.s == s && ProcOf(st, s).Up? && !Finished(st.store, s) {
      var log := LogOf(st, s);
      assert (log + a.more)[UptoOf(st, s)..Reached(e, ProcOf(st, s))] == log[UptoOf(st, s)..Reached(e, ProcOf(st, s))];
    }
  }

  lemma ChronicleElsewhere(e: Env, st: State, a: Action, s: Stream, lo: nat, h: History)
    requires Inv(e, st) && s in e.streams && Enabled(e, st, a) && !OwnStep(s, a) && CalmStep(s, a) && Chronicle(e, st, s, lo, h)
    ensures Chronicle(e, Apply(e, st, a), s, lo, h)
  {
    hide Inv, Enabled, Apply, Tiles, Flat, Finished, Reached;
    StepIsolated(e, st, a, s);
    StepExtends(e, st, a);
    var log, log' := LogOf(st, s), LogOf(Apply(e, st, a), s);
    assert log <= log';
    TilesStay(e, log, log', lo, h.done, UptoOf(st, s));
    var p := ProcOf(st, s);
    if p.Up? && !Finished(st.store, s) {
      assert log'[UptoOf(st, s)..Reached(e, p)] == log[UptoOf(st, s)..Reached(e, p)];
    }
  }

  lemma ChronicleAfterStep(e: Env, st: State, a: Action, s: Stream, lo: nat, h: History)
    requires Inv(e, st) && s in e.streams && Enabled(e, st, a) && CalmStep(s, a) && Chronicle(e, st, s, lo, h)
    ensures Chronicle(e, Apply(e, st, a), s, lo, Noted(st, s, a, h))
  {
    hide Base, RowsFromLogs, CommittedDelivered, SeenDelivered, ProcOk, Moved, CanMove, AtOpenKey, OpenPages, Tiles;
    StepAtOpenKey(e, st, a);
    assert ProcOk(e, st, s);
    if !OwnStep(s, a) {
      ChronicleElsewhere(e, st, a, s, lo, h);
    } else if a.Act? && a.move.CommitBatch? {
      TilesForward(e, LogOf(st, s), lo, h.done, UptoOf(st, s));
      TilesAfterCommit(e, st, s, a.move.version, lo, h);
    } else if a.Act? {
      if a.move.Write? {
        OpenAfterWrite(e, st, s, h);
      } else {
        OpenAfterOther(e, st, s, a.move, h);
      }
      QuietSeen(e, st, a);
      MoveLog(e, st, s, a.move);
    } else {
      OpenAround(e, st, a, s, h.open);
      TilesStay(e, LogOf(st, s), LogOf(Apply(e, st, a), s), lo, h.done, UptoOf(st, s));
    }
  }

  lemma TilesForward(e: Env, log: seq<Event>, lo: nat, done: seq<Batch>, hi: nat)
    requires Tiles(e, log, lo, done, hi)
    ensures lo <= hi
  {
  }

  lemma {:induction false} RunChronicle(e: Env, st: State, acts: seq<Action>, s: Stream, lo: nat, h: History)
    requires Inv(e, st) && s in e.streams && Legal(e, st, acts) && Calm(s, acts) && Chronicle(e, st, s, lo, h)
    ensures Chronicle(e, Exec(e, st, acts), s, lo, HistoryOf(e, st, s, acts, h))
    decreases |acts|
  {
    hide Inv, Chronicle, Enabled, Apply;
    if acts != [] {
      var a, st' := acts[0], Apply(e, st, acts[0]);
      assert a in acts;
      StepKeepsInv(e, st, a);
      ChronicleAfterStep(e, st, a, s, lo, h);
      assert Calm(s, acts[1..]);
      RunChronicle(e, st', acts[1..], s, lo, Noted(st, s, a, h));
    }
  }

  /** The pages counted are the log: the batches committed since the run began tile it from where the
      stream stood to where it stands, each under a key that points at its first event. */
  lemma HistoryTilesTheLog(e: Env, st: State, acts: seq<Action>, s: Stream)
    requires Inv(e, st) && s in e.streams && ProcOf(st, s).Down? && Legal(e, st, acts) && Calm(s, acts)
    ensures var end := Exec(e, st, acts);
      Tiles(e, LogOf(end, s), UptoOf(st, s), HistoryOf(e, st, s, acts, NoHistory).done, UptoOf(end, s))
  {
    assert Chronicle(e, st, s, UptoOf(st, s), NoHistory);
    RunChronicle(e, st, acts, s, UptoOf(st, s), NoHistory);
  }

  /** When every page is flushed at once, a uid the log repeats still gets one row. */
  lemma OneRowWhenEveryPageFlushes(e: Env, st: State, acts: seq<Action>, s: Stream, ev: Event, k: ObjectKey)
    requires Legal(e, st, acts) && FreshRun(e, st, acts, s, ev)
    requires forall b :: b in HistoryOf(e, st, s, acts, NoHistory).done ==> |b.pages| == 1
    requires k in Exec(e, st, acts).lake && Closed(e, Exec(e, st, acts), k)
    ensures multiset(Exec(e, st, acts).lake[k])[ev] <= 1
    ensures var first := First(HistoryOf(e, st, s, acts, NoHistory).done, ev.uid);
      ev in Exec(e, st, acts).lake[k] <==> first.Some? && k == ObjectKey(first.value.key, BucketOf(e, ev))
  {
    var done := HistoryOf(e, st, s, acts, NoHistory).done;
    RowsPerPage(e, st, acts, s, ev, k);
    FirstIsOne(done, ev.uid);
    if First(done, ev.uid).Some? {
      var pages := First(done, ev.uid).value.pages;
      assert PagesWith(pages[..0], ev.uid) == 0;
    }
  }

  lemma {:induction false} FirstIsOne(done: seq<Batch>, uid: string)
    ensures First(done, uid).Some? ==> First(done, uid).value in done
  {
    if done != [] {
      FirstIsOne(done[..|done| - 1], uid);
    }
  }
}
