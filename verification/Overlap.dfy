/** Streams whose logs overlap, as a backfill meets the tail: the shared seen-set keeps what two of them
    read on one row, as long as no two live processes hold the same uid at once. */
module Overlap {
  import opened Domain
  import opened StateSpec
  import opened Protocol
  import opened DeliverySafety
  import opened ExactlyOnce

  /** Each log repeats no uid. Two logs may share any. */
  ghost predicate EachDistinct(st: State) {
    forall s :: UniqueUids(LogOf(st, s))
  }

  /** What a live process has past the filter and not committed. */
  function Carried(p: Proc): seq<Event>
    requires p.Up?
  {
    if p.phase.Kept? then p.buffer + p.phase.kept else Held(p)
  }

  ghost predicate Carries(st: State, s: Stream, uid: string) {
    ProcOf(st, s).Up? && HasUid(Carried(ProcOf(st, s)), uid)
  }

  /** No uid is past the filter in two processes at once. */
  ghost predicate Apart(st: State) {
    forall s, t, u :: Carries(st, s, u) && Carries(st, t, u) ==> s == t
  }

  ghost predicate AlwaysApart(e: Env, st: State, acts: seq<Action>)
    requires Legal(e, st, acts)
    decreases |acts|
  {
    Apart(st) && (acts == [] || AlwaysApart(e, Apply(e, st, acts[0]), acts[1..]))
  }

  /** No uid is on two rows of final objects. */
  ghost predicate FinalOnce(e: Env, st: State) {
    forall k, i, k', i', u | RowAt(st.lake, k, i, u) && RowAt(st.lake, k', i', u) && Closed(e, st, k) && Closed(e, st, k')
      :: k == k' && i == i'
  }

  ghost predicate FinalSeen(e: Env, st: State) {
    forall k, i, u :: RowAt(st.lake, k, i, u) && Closed(e, st, k) ==> u in st.store.seen
  }

  ghost predicate Unexpired(e: Env, st: State, t0: int) {
    t0 <= st.now < t0 + e.ttl && forall u :: u in st.store.seen ==> st.store.seen[u] >= t0 + e.ttl
  }

  /** What a process carries it carries once, and no stream has committed it. */
  ghost predicate CarriesNew(st: State, s: Stream) {
    ProcOf(st, s).Up? ==>
      UniqueUids(Carried(ProcOf(st, s))) && forall u :: HasUid(Carried(ProcOf(st, s)), u) ==> u !in st.store.seen
  }

  ghost predicate Once(e: Env, st: State) {
    && OpenTidy(e, st) && FinalOnce(e, st) && FinalSeen(e, st)
    && forall s :: s in e.streams ==> CarriesNew(st, s)
  }

  // ----- what a process carries -----

  lemma {:induction false} JoinedUnique(a: seq<Event>, b: seq<Event>)
    requires UniqueUids(a) && UniqueUids(b) && forall u :: HasUid(a, u) ==> !HasUid(b, u)
    ensures UniqueUids(a + b)
    ensures forall u :: HasUid(a + b, u) ==> HasUid(a, u) || HasUid(b, u)
  {
    forall i | 0 <= i < |a + b| ensures if i < |a| then HasUid(a, (a + b)[i].uid) else HasUid(b, (a + b)[i].uid) {
      if i >= |a| {
        assert (a + b)[i] == b[i - |a|];
      }
    }
  }

  lemma DrawnApart(log: seq<Event>, lo: int, mid: int, hi: int, a: seq<Event>, b: seq<Event>)
    requires UniqueUids(log) && Drawn(log, lo, mid, a) && Drawn(log, mid, hi, b)
    ensures forall u :: HasUid(a, u) ==> !HasUid(b, u)
  {
    forall i, j | 0 <= i < |a| && 0 <= j < |b| ensures a[i].uid != b[j].uid {
      var n := PlaceOf(log, lo, mid, a, i);
      var m := PlaceOf(log, mid, hi, b, j);
    }
  }

  lemma PlaceOf(log: seq<Event>, lo: int, hi: int, held: seq<Event>, i: nat) returns (n: nat)
    requires Drawn(log, lo, hi, held) && i < |held|
    ensures lo <= n < hi && n < |log| && log[n] == held[i]
  {
    assert held[i] in held;
    n :| lo <= n < hi && 0 <= n < |log| && log[n] == held[i];
  }

  lemma NewAfterFilter(e: Env, st: State, s: Stream, t0: int)
    requires Inv(e, st) && s in e.streams && CanMove(e, st, s, Filter) && EachDistinct(st) && CarriesNew(st, s) && Unexpired(e, st, t0)
    ensures CarriesNew(Moved(e, st, s, Filter), s)
  {
    hide Base, RowsFromLogs, CommittedDelivered, Covered, Drawn, PhaseOk, UniqueUids, InRange;
    var p, log := ProcOf(st, s), LogOf(st, s);
    assert ProcOk(e, st, s) && UniqueUids(log);
    var kept := Filtered(st.store.seen, st.now, p.phase.page.events);
    FilterCovers(e, st, log, e.pos(p.cursor), p.phase.page.end, kept);
    FilteredIsNew(e, st, p.phase.page.events, t0);
    DrawnApart(log, UptoOf(st, s), e.pos(p.cursor), p.phase.page.end, p.buffer, kept);
    JoinedUnique(p.buffer, kept);
  }

  lemma FilteredIsNew(e: Env, st: State, events: seq<Event>, t0: int)
    requires Unexpired(e, st, t0)
    ensures forall u :: HasUid(Filtered(st.store.seen, st.now, events), u) ==> u !in st.store.seen
  {
    var kept := Filtered(st.store.seen, st.now, events);
    var _ := UnseenMeaning(st.store.seen, st.now, Uids(events));
    forall u | HasUid(kept, u) ensures u !in st.store.seen {
      var i :| 0 <= i < |kept| && kept[i].uid == u;
      assert kept[i] in kept;
    }
  }

  lemma NewAfterMove(e: Env, st: State, s: Stream, m: Move)
    requires ProcOk(e, st, s) && CanMove(e, st, s, m) && CarriesNew(st, s) && !m.Filter? && !m.CommitBatch?
    ensures CarriesNew(Moved(e, st, s, m), s)
  {
    hide Covered, Drawn, PhaseOk, UniqueUids, HasUid, Targets, InBucket, Moved;
    QuietSeenMove(e, st, s, m);
    CarriesSame(e, st, s, m);
  }

  lemma CarriesSame(e: Env, st: State, s: Stream, m: Move)
    requires ProcOk(e, st, s) && CanMove(e, st, s, m) && !m.Filter? && !m.CommitBatch?
    ensures var p, p' := ProcOf(st, s), ProcOf(Moved(e, st, s, m), s); p.Up? && p'.Up? && Carried(p') == Carried(p)
  {
    hide Covered, Drawn, PhaseOk, Targets, InBucket, Uids;
    if !m.Write? {
      QuietHolds(e, st, s, m);
    }
  }

  /** What a commit marks as seen, its process carried. */
  lemma PendingCarried(e: Env, st: State, s: Stream, version: string)
    requires ProcOk(e, st, s) && CanMove(e, st, s, CommitBatch(version))
    ensures forall u :: u in ProcOf(st, s).pending ==> Carries(st, s, u)
  {
    hide Covered, Drawn, PhaseOk;
    var p := ProcOf(st, s);
    forall u | u in p.pending ensures HasUid(p.phase.sent, u) {
      var i :| 0 <= i < |p.pending| && p.pending[i] == u;
      assert p.phase.sent[i].uid == u;
    }
  }

  lemma NewAfterCommit(e: Env, st: State, s: Stream, version: string)
    requires ProcOk(e, st, s) && CanMove(e, st, s, CommitBatch(version))
    ensures CarriesNew(Moved(e, st, s, CommitBatch(version)), s)
  {
    hide Commit, Targets, InBucket, Covered, Drawn;
  }

  /** What one stream commits, no other carries. */
  lemma NewElsewhere(e: Env, st: State, s: Stream, m: Move, t: Stream)
    requires ProcOk(e, st, s) && CanMove(e, st, s, m) && Apart(st) && s != t && CarriesNew(st, t)
    ensures CarriesNew(Moved(e, st, s, m), t)
  {
    hide Covered, Drawn, PhaseOk, UniqueUids, Targets, InBucket;
    var p, st' := ProcOf(st, s), Moved(e, st, s, m);
    assert ProcOf(st', t) == ProcOf(st, t);
    if !m.CommitBatch? {
      QuietSeenMove(e, st, s, m);
    } else if ProcOf(st, t).Up? {
      PendingCarried(e, st, s, m.version);
      forall u | HasUid(Carried(ProcOf(st, t)), u) ensures u !in st'.store.seen {
        assert Carries(st, t, u) && !Carries(st, s, u);
      }
    }
  }

  // ----- final objects -----

  /** A covering commit closes exactly the objects of its batch. */
  lemma NewlyFinal(e: Env, st: State, s: Stream, version: string, k: ObjectKey, i: nat)
    requires Base(e, st) && ProcOk(e, st, s) && OpenTidy(e, st)
    requires s in e.streams && CanMove(e, st, s, CommitBatch(version)) && Covers(e, st, s)
    requires k in st.lake && i < |st.lake[k]| && !Closed(e, st, k) && Closed(e, Moved(e, st, s, CommitBatch(version)), k)
    ensures k.batch == ProcOf(st, s).batchKey && Stored(e, st, k.batch, ProcOf(st, s).phase.sent, k.bucket)
    ensures st.lake[k][i] in ProcOf(st, s).phase.sent && BucketOf(e, st.lake[k][i]) == k.bucket
  {
    hide Covered, Drawn, InRange, Commit;
    var sent := ProcOf(st, s).phase.sent;
    OpenKey(e, st, s, CommitBatch(version));
    assert k.bucket in Targets(e, sent) && Stored(e, st, ProcOf(st, s).batchKey, sent, k.bucket);
    assert st.lake[k][i] in multiset(st.lake[k]) && st.lake[k][i] in multiset(InBucket(e, sent, k.bucket));
  }

  /** Two rows of the batch with one uid are one row. */
  lemma NewlyFinalOnce(e: Env, st: State, sent: seq<Event>, k: ObjectKey, i: nat, k': ObjectKey, i': nat)
    requires UniqueUids(sent) && k.batch == k'.batch && Stored(e, st, k.batch, sent, k.bucket)
    requires k' in st.lake && i < |st.lake[k]| && i' < |st.lake[k']| && st.lake[k][i].uid == st.lake[k'][i'].uid
    requires st.lake[k][i] in sent && st.lake[k'][i'] in sent
    requires BucketOf(e, st.lake[k][i]) == k.bucket && BucketOf(e, st.lake[k'][i']) == k'.bucket
    ensures k == k' && i == i'
  {
    hide BucketOf, InBucket;
    PermutationKeepsUnique(InBucket(e, sent, k.bucket), st.lake[k]);
  }

  lemma FinalOnceAfterCommit(e: Env, st: State, s: Stream, version: string)
    requires Inv(e, st) && Once(e, st) && s in e.streams && CanMove(e, st, s, CommitBatch(version)) && Covers(e, st, s)
    ensures FinalOnce(e, Moved(e, st, s, CommitBatch(version)))
  {
    hide RowsFromLogs, CommittedDelivered, SeenDelivered, Base, ProcOk, OpenTidy, Covers, Commit, InBucket, Targets, UniqueUids, Stored, BucketOf;
    var p, st' := ProcOf(st, s), Moved(e, st, s, CommitBatch(version));
    assert ProcOk(e, st, s) && CarriesNew(st, s);
    forall k, i, k', i', u | RowAt(st'.lake, k, i, u) && RowAt(st'.lake, k', i', u) && Closed(e, st', k) && Closed(e, st', k')
      ensures k == k' && i == i'
    {
      RowSide(e, st, s, version, k, i);
      RowSide(e, st, s, version, k', i');
      assert RowAt(st.lake, k, i, u) && RowAt(st.lake, k', i', u);
      if !Closed(e, st, k) && !Closed(e, st, k') {
        NewlyFinalOnce(e, st, p.phase.sent, k, i, k', i');
      }
    }
  }

  /** A row of a final object was final before the commit, and seen, or is of the batch, and new. */
  lemma RowSide(e: Env, st: State, s: Stream, version: string, k: ObjectKey, i: nat)
    requires Inv(e, st) && Once(e, st) && s in e.streams && CanMove(e, st, s, CommitBatch(version)) && Covers(e, st, s)
    requires k in st.lake && i < |st.lake[k]| && Closed(e, Moved(e, st, s, CommitBatch(version)), k)
    ensures Closed(e, st, k) <==> st.lake[k][i].uid in st.store.seen
    ensures !Closed(e, st, k) ==>
      k.batch == ProcOf(st, s).batchKey && Stored(e, st, k.batch, ProcOf(st, s).phase.sent, k.bucket)
      && st.lake[k][i] in ProcOf(st, s).phase.sent && BucketOf(e, st.lake[k][i]) == k.bucket
  {
    hide RowsFromLogs, CommittedDelivered, SeenDelivered, Base, ProcOk, OpenTidy, Covers, InBucket, Targets, UniqueUids, Stored, BucketOf, Moved;
    assert ProcOk(e, st, s) && CarriesNew(st, s);
    assert RowAt(st.lake, k, i, st.lake[k][i].uid);
    if !Closed(e, st, k) {
      NewlyFinal(e, st, s, version, k, i);
      var n :| 0 <= n < |ProcOf(st, s).phase.sent| && ProcOf(st, s).phase.sent[n] == st.lake[k][i];
      assert HasUid(Carried(ProcOf(st, s)), st.lake[k][i].uid);
    }
  }

  lemma FinalSeenAfterCommit(e: Env, st: State, s: Stream, version: string)
    requires Inv(e, st) && Once(e, st) && s in e.streams && CanMove(e, st, s, CommitBatch(version)) && Covers(e, st, s)
    ensures FinalSeen(e, Moved(e, st, s, CommitBatch(version)))
  {
    hide RowsFromLogs, CommittedDelivered, SeenDelivered, Base, OpenTidy, Covers, InBucket, Targets, UniqueUids, Stored, BucketOf, Covered, Drawn, PhaseOk;
    var p, st' := ProcOf(st, s), Moved(e, st, s, CommitBatch(version));
    assert ProcOk(e, st, s);
    forall k, i, u | RowAt(st'.lake, k, i, u) && Closed(e, st', k) ensures u in st'.store.seen {
      RowSide(e, st, s, version, k, i);
      if !Closed(e, st, k) {
        var n :| 0 <= n < |p.phase.sent| && p.phase.sent[n] == st.lake[k][i];
        assert p.pending[n] == u;
      }
    }
  }

  // ----- one step, and a run -----

  lemma FinalAfterOther(e: Env, st: State, a: Action, t0: int)
    requires Inv(e, st) && Enabled(e, st, a) && FinalOnce(e, st) && FinalSeen(e, st) && Unexpired(e, st, t0)
    requires !(a.Act? && a.move.CommitBatch?)
    ensures FinalOnce(e, Apply(e, st, a)) && FinalSeen(e, Apply(e, st, a))
  {
    hide RowsFromLogs, CommittedDelivered, SeenDelivered, Base, ProcOk, Moved, CanMove, AtOpenKey;
    var st' := Apply(e, st, a);
    QuietSeen(e, st, a);
    NothingPurged(e, st, a, t0);
    if a.Act? && a.move.Put? {
      PutIsOpen(e, st, a.s, a.move.bucket, a.move.rows);
    } else {
      QuietLake(e, st, a);
    }
    forall k, i, u | RowAt(st'.lake, k, i, u) && Closed(e, st', k) ensures RowAt(st.lake, k, i, u) && Closed(e, st, k) {
    }
  }

  lemma PutIsOpen(e: Env, st: State, s: Stream, b: Bucket, rows: seq<Event>)
    requires Inv(e, st) && s in e.streams && CanMove(e, st, s, Put(b, rows))
    ensures !Closed(e, st, ObjectKey(ProcOf(st, s).batchKey, b))
    ensures Moved(e, st, s, Put(b, rows)).lake == st.lake[ObjectKey(ProcOf(st, s).batchKey, b) := rows]
  {
    hide RowsFromLogs, CommittedDelivered, SeenDelivered, Targets, InBucket;
    assert ProcOk(e, st, s);
    OpenKey(e, st, s, Put(b, rows));
  }

  lemma NothingPurged(e: Env, st: State, a: Action, t0: int)
    requires Enabled(e, st, a) && Unexpired(e, st, t0) && !(a.Act? && a.move.CommitBatch?)
    ensures Apply(e, st, a).store.seen == st.store.seen
  {
    hide CanMove, ProcAfter, LakeAfter, UptoAfter;
  }

  lemma StaysUnexpired(e: Env, st: State, a: Action, t0: int)
    requires Enabled(e, st, a) && Unexpired(e, st, t0) && Apply(e, st, a).now < t0 + e.ttl
    ensures Unexpired(e, Apply(e, st, a), t0)
  {
    hide ProcAfter, LakeAfter, UptoAfter, Targets, InBucket;
  }

  lemma CarriesNewAfter(e: Env, st: State, a: Action, t0: int, t: Stream)
    requires Inv(e, st) && Enabled(e, st, a) && EachDistinct(st) && Apart(st) && Unexpired(e, st, t0)
    requires t in e.streams && CarriesNew(st, t)
    ensures CarriesNew(Apply(e, st, a), t)
  {
    hide RowsFromLogs, CommittedDelivered, SeenDelivered, Base, ProcOk, Moved, CanMove, EachDistinct, Apart, Unexpired, UniqueUids, HasUid;
    if a.Act? {
      assert ProcOk(e, st, a.s);
      if a.s != t {
        NewElsewhere(e, st, a.s, a.move, t);
      } else if a.move.Filter? {
        NewAfterFilter(e, st, t, t0);
      } else if a.move.CommitBatch? {
        NewAfterCommit(e, st, t, a.move.version);
      } else {
        NewAfterMove(e, st, t, a.move);
      }
    } else {
      NothingPurged(e, st, a, t0);
      CarriesAround(st, Apply(e, st, a), a, t);
    }
  }

  lemma CarriesAround(st: State, st': State, a: Action, t: Stream)
    requires CarriesNew(st, t) && st'.store.seen == st.store.seen
    requires ProcOf(st', t) == ProcOf(st, t) || ProcOf(st', t).Down? || (ProcOf(st', t).phase.Ready? && ProcOf(st', t).buffer == [])
    ensures CarriesNew(st', t)
  {
  }

  lemma StaysOnce(e: Env, st: State, a: Action, t0: int)
    requires Inv(e, st) && Once(e, st) && Enabled(e, st, a) && CoversIfCommit(e, st, a)
    requires EachDistinct(st) && Apart(st) && Unexpired(e, st, t0)
    ensures Once(e, Apply(e, st, a))
  {
    hide RowsFromLogs, CommittedDelivered, SeenDelivered, Base, ProcOk, Moved, CanMove, EachDistinct, Apart, Unexpired, CarriesNew,
      FinalOnce, FinalSeen, OpenTidy, Covers;
    forall t | t in e.streams ensures CarriesNew(Apply(e, st, a), t) {
      CarriesNewAfter(e, st, a, t0, t);
    }
    if a.Act? && a.move.CommitBatch? {
      FinalOnceAfterCommit(e, st, a.s, a.move.version);
      FinalSeenAfterCommit(e, st, a.s, a.move.version);
      OpenTidyAfterCommit(e, st, a.s, a.move.version);
    } else {
      FinalAfterOther(e, st, a, t0);
      if a.Act? && a.move.Put? {
        assert ProcOk(e, st, a.s);
        OpenTidyAfterPut(e, st, a.s, a.move.bucket, a.move.rows);
      } else {
        OpenTidyAfterQuiet(e, st, a);
      }
    }
  }

  lemma DistinctBefore(e: Env, st: State, st': State)
    requires Extends(e, st, st') && EachDistinct(st')
    ensures EachDistinct(st)
  {
    forall s ensures UniqueUids(LogOf(st, s)) {
      assert LogOf(st, s) <= LogOf(st', s) && UniqueUids(LogOf(st', s));
    }
  }

  lemma {:induction false} RunStaysOnce(e: Env, st: State, acts: seq<Action>, t0: int)
    requires Inv(e, st) && Once(e, st) && Legal(e, st, acts) && Covering(e, st, acts) && AlwaysApart(e, st, acts)
    requires EachDistinct(Exec(e, st, acts)) && Unexpired(e, st, t0) && Exec(e, st, acts).now < t0 + e.ttl
    ensures Once(e, Exec(e, st, acts))
    decreases |acts|
  {
    hide Inv, Once, EachDistinct, Apart, Unexpired, Apply, Enabled, CoversIfCommit;
    if acts != [] {
      var st' := Apply(e, st, acts[0]);
      RunKeepsInv(e, st, acts);
      DistinctBefore(e, st, Exec(e, st, acts));
      StepKeepsInv(e, st, acts[0]);
      RunKeepsInv(e, st', acts[1..]);
      StaysUnexpired(e, st, acts[0], t0);
      StaysOnce(e, st, acts[0], t0);
      RunStaysOnce(e, st', acts[1..], t0);
    }
  }

  /** What the shared seen-set is for. Logs repeat nothing within themselves and overlap as they like; no
      two processes have the same uid past the filter at once, the run is shorter than the dedup window,
      and its commits cover. Then no uid is on two rows of final objects, and each event any stream has
      committed past is on one. */
  lemma OnceAcrossStreams(e: Env, st: State, acts: seq<Action>)
    requires Init(e, st) && Legal(e, st, acts) && Covering(e, st, acts) && AlwaysApart(e, st, acts)
    requires EachDistinct(Exec(e, st, acts)) && Exec(e, st, acts).now < st.now + e.ttl
    ensures FinalOnce(e, Exec(e, st, acts)) && CommittedDelivered(e, Exec(e, st, acts))
  {
    hide Init, Legal, Exec, Covering, AlwaysApart, EachDistinct, Extends;
    InitInv(e, st);
    InitOnce(e, st);
    RunKeepsInv(e, st, acts);
    RunStaysOnce(e, st, acts, st.now);
  }

  lemma InitOnce(e: Env, st: State)
    requires Init(e, st)
    ensures Once(e, st) && st.store.seen == map[]
  {
  }
}
