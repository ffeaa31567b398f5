/** The exact condition for exactly-once: a row that a commit leaves stranded comes back. */
module Duplicates {
  import opened Domain
  import opened StateSpec
  import opened Protocol
  import opened DeliverySafety
  import opened ExactlyOnce
  import opened Backfill

  /** Every stream has committed its whole log. */
  ghost predicate Quiescent(e: Env, st: State) {
    forall s :: s in e.streams ==> UptoOf(st, s) == |LogOf(st, s)|
  }

  /** A final object of a batch that began at or after position `q` holds the uid. */
  ghost predicate DeliveredSince(e: Env, st: State, q: nat, uid: string) {
    exists k, r :: RowAt(st.lake, k, r, uid) && Closed(e, st, k) && q <= e.pos(k.batch)
  }

  /** What stream `s` has committed past since position `q` lies in batches begun since `q`. */
  ghost predicate CommittedSince(e: Env, st: State, s: Stream, q: nat) {
    forall i :: q <= i < UptoOf(st, s) && i < |LogOf(st, s)| ==> DeliveredSince(e, st, q, LogOf(st, s)[i].uid)
  }

  lemma SinceStays(e: Env, st: State, st': State, q: nat, uid: string)
    requires Extends(e, st, st') && DeliveredSince(e, st, q, uid)
    ensures DeliveredSince(e, st', q, uid)
  {
    var k, r :| RowAt(st.lake, k, r, uid) && Closed(e, st, k) && q <= e.pos(k.batch);
    assert RowAt(st'.lake, k, r, uid);
  }

  lemma CommitDeliversSince(e: Env, st: State, s: Stream, version: string, q: nat, ev: Event)
    requires Base(e, st) && s in e.streams && ProcOk(e, st, s) && CanMove(e, st, s, CommitBatch(version))
    requires q <= UptoOf(st, s) && ev in ProcOf(st, s).phase.sent
    ensures DeliveredSince(e, Moved(e, st, s, CommitBatch(version)), q, ev.uid)
  {
    hide Base, ProcOk, Moved;
    var k, r := FinalRow(e, st, s, version, ev);
  }

  lemma SinceAfterCommit(e: Env, st: State, s: Stream, version: string, q: nat)
    requires Base(e, st) && s in e.streams && ProcOk(e, st, s) && HeldExact(e, st, s)
    requires CanMove(e, st, s, CommitBatch(version)) && q <= UptoOf(st, s) && CommittedSince(e, st, s, q)
    ensures CommittedSince(e, Moved(e, st, s, CommitBatch(version)), s, q)
  {
    hide Base, ProcOk, HeldExact, Moved, CanMove, DeliveredSince, Extends, AtOpenKey;
    var st', log := Moved(e, st, s, CommitBatch(version)), LogOf(st, s);
    OpenKey(e, st, s, CommitBatch(version));
    MoveExtends(e, st, s, CommitBatch(version));
    MoveLog(e, st, s, CommitBatch(version));
    CommitPosition(e, st, s, version);
    forall i | q <= i < UptoOf(st', s) && i < |log| ensures DeliveredSince(e, st', q, log[i].uid) {
      if i < UptoOf(st, s) {
        SinceStays(e, st, st', q, log[i].uid);
      } else {
        NewlyPassed(e, st, s, version, q, i);
      }
    }
  }

  lemma CommitPosition(e: Env, st: State, s: Stream, version: string)
    requires CanMove(e, st, s, CommitBatch(version))
    ensures UptoOf(Moved(e, st, s, CommitBatch(version)), s) == ProcOf(st, s).phase.page.end
  {
    hide Commit, Targets;
  }

  /** An event the commit passes is one it delivers. */
  lemma NewlyPassed(e: Env, st: State, s: Stream, version: string, q: nat, i: nat)
    requires Base(e, st) && s in e.streams && ProcOk(e, st, s) && HeldExact(e, st, s)
    requires CanMove(e, st, s, CommitBatch(version)) && q <= UptoOf(st, s)
    requires UptoOf(st, s) <= i < ProcOf(st, s).phase.page.end && i < |LogOf(st, s)|
    ensures DeliveredSince(e, Moved(e, st, s, CommitBatch(version)), q, LogOf(st, s)[i].uid)
  {
    hide Base, Moved, DeliveredSince, Covered, Drawn, Stored, Targets;
    assert ProcOf(st, s).phase.sent[i - UptoOf(st, s)] == LogOf(st, s)[i];
    CommitDeliversSince(e, st, s, version, q, LogOf(st, s)[i]);
  }

  lemma SinceAfterStep(e: Env, st: State, a: Action, s: Stream, q: nat)
    requires Inv(e, st) && Plain(e, st) && Enabled(e, st, a) && s in e.streams
    requires q <= UptoOf(st, s) && CommittedSince(e, st, s, q)
    ensures CommittedSince(e, Apply(e, st, a), s, q)
  {
    var st' := Apply(e, st, a);
    assert ProcOk(e, st, s) && HeldExact(e, st, s);
    if a.Act? && a.move.CommitBatch? && a.s == s {
      SinceAfterCommit(e, st, s, a.move.version, q);
    } else {
      StepExtends(e, st, a);
      assert UptoOf(st', s) == UptoOf(st, s) <= |LogOf(st, s)|;
      forall i | q <= i < UptoOf(st', s) && i < |LogOf(st', s)| ensures DeliveredSince(e, st', q, LogOf(st', s)[i].uid) {
        assert LogOf(st, s) <= LogOf(st', s);
        SinceStays(e, st, st', q, LogOf(st, s)[i].uid);
      }
    }
  }

  lemma {:induction false} RunSince(e: Env, st: State, acts: seq<Action>, s: Stream, q: nat)
    requires Inv(e, st) && Plain(e, st) && Legal(e, st, acts) && DistinctLogs(Exec(e, st, acts)) && s in e.streams
    requires q <= UptoOf(st, s) && CommittedSince(e, st, s, q)
    ensures CommittedSince(e, Exec(e, st, acts), s, q)
    ensures Finished(st.store, s) ==> UptoOf(Exec(e, st, acts), s) == UptoOf(st, s)
    decreases |acts|
  {
    if acts != [] {
      var a, st' := acts[0], Apply(e, st, acts[0]);
      StepKeepsInv(e, st, a);
      RunKeepsInv(e, st', acts[1..]);
      DistinctPrefix(e, st', Exec(e, st, acts));
      DistinctPrefix(e, st, st');
      PlainStays(e, st, a);
      SinceAfterStep(e, st, a, s, q);
      if Finished(st.store, s) {
        FinishedStays(e, st, a, s);
      }
      RunSince(e, st', acts[1..], s, q);
    }
  }

  /** The row an uncovered commit strands: it lies at or past the committed position. */
  lemma StrandedRow(e: Env, st: State, s: Stream, version: string) returns (k: ObjectKey, i: nat)
    requires Base(e, st) && s in e.streams && ProcOk(e, st, s) && HeldExact(e, st, s) && ObjectsPlain(e, st)
    requires CanMove(e, st, s, CommitBatch(version)) && !Covers(e, st, s)
    ensures k.batch == ProcOf(st, s).batchKey && k in st.lake && st.lake[k] != []
    ensures ProcOf(st, s).phase.page.end <= i < |LogOf(st, s)| && LogOf(st, s)[i] == st.lake[k][0]
    ensures ProcOf(st, s).phase.page.next.Some? ==> e.pos(k.batch) < ProcOf(st, s).phase.page.end
  {
    hide Commit, Filtered, Fresh, Unseen, Covered, Drawn, Stored, Finished, StreamOk;
    var p, log := ProcOf(st, s), LogOf(st, s);
    OpenKey(e, st, s, CommitBatch(version));
    forall j | UptoOf(st, s) <= j < p.phase.page.end ensures log[j] in p.phase.sent {
      assert p.phase.sent[j - UptoOf(st, s)] == log[j];
    }
    k :| k in st.lake && k.batch == p.batchKey && st.lake[k] != [] && k.bucket !in Targets(e, p.phase.sent);
    var ev := st.lake[k][0];
    assert ev in st.lake[k];
    i :| e.pos(k.batch) <= i < |log| && 0 <= i < |log| && log[i] == ev;
    if p.phase.page.next.Some? {
      assert e.oneObject ==> k.bucket == Whole;
      assert p.phase.sent != [];
    }
  }

  /** A row left in an object whose batch is closed, of an event that a later batch delivers. */
  lemma TwoRows(e: Env, st: State, k: ObjectKey, q: nat, uid: string)
    requires RowAt(st.lake, k, 0, uid) && e.pos(k.batch) < q && DeliveredSince(e, st, q, uid)
    ensures !AtMostOne(st.lake)
  {
    var k', r :| RowAt(st.lake, k', r, uid) && Closed(e, st, k') && q <= e.pos(k'.batch);
    assert k' != k;
  }

  /** Where an uncovered commit of a page with a next cursor leaves its stranded row, and what the
      log says of it. */
  lemma StrandedAfter(e: Env, st: State, s: Stream, version: string) returns (k: ObjectKey, i: nat)
    requires Inv(e, st) && Plain(e, st) && s in e.streams
    requires CanMove(e, st, s, CommitBatch(version)) && !Covers(e, st, s)
    ensures var st' := Moved(e, st, s, CommitBatch(version)); var q := UptoOf(st', s);
      && q <= i < |LogOf(st', s)| && k in st'.lake && st'.lake[k] != [] && st'.lake[k][0] == LogOf(st', s)[i]
      && (Finished(st'.store, s) || (e.owner(k.batch) == s && e.pos(k.batch) < q && Closed(e, st', k)))
  {
    hide ProcOk, HeldExact, ObjectsPlain, SeenBehind, RowsFromLogs, SeenDelivered, CommittedDelivered, Covers;
    OpenKey(e, st, s, CommitBatch(version));
    k, i := StrandedRow(e, st, s, version);
  }

  /** One uncovered commit in a run that goes on to commit everything leaves some uid on two rows. */
  lemma UncoveredCommitDuplicates(e: Env, st: State, a: Action, rest: seq<Action>)
    requires Inv(e, st) && Plain(e, st) && Enabled(e, st, a) && !CoversIfCommit(e, st, a)
    requires Legal(e, Apply(e, st, a), rest)
    requires var end := Exec(e, Apply(e, st, a), rest); DistinctLogs(end) && Quiescent(e, end)
    ensures !AtMostOne(Exec(e, Apply(e, st, a), rest).lake)
  {
    hide Inv, Plain, DistinctLogs, Moved, CanMove, Legal, Covers, AtMostOne;
    var s, st' := a.s, Apply(e, st, a);
    var end := Exec(e, st', rest);
    var k, i := StrandedAfter(e, st, s, a.move.version);
    var q := UptoOf(st', s);
    StepKeepsInv(e, st, a);
    RunKeepsInv(e, st', rest);
    DistinctPrefix(e, st', end);
    DistinctPrefix(e, st, st');
    PlainStays(e, st, a);
    RunSince(e, st', rest, s, q);
    assert LogOf(st', s) <= LogOf(end, s);
    assert DeliveredSince(e, end, q, LogOf(end, s)[i].uid);
    TwoRows(e, end, k, q, LogOf(end, s)[i].uid);
  }

  lemma {:induction false} UncoveredRunDuplicates(e: Env, st: State, acts: seq<Action>)
    requires Inv(e, st) && Plain(e, st) && Legal(e, st, acts) && !Covering(e, st, acts)
    requires DistinctLogs(Exec(e, st, acts)) && Quiescent(e, Exec(e, st, acts))
    ensures !AtMostOne(Exec(e, st, acts).lake)
    decreases |acts|
  {
    var a, st' := acts[0], Apply(e, st, acts[0]);
    if !CoversIfCommit(e, st, a) {
      UncoveredCommitDuplicates(e, st, a, acts[1..]);
    } else {
      StepKeepsInv(e, st, a);
      RunKeepsInv(e, st', acts[1..]);
      DistinctPrefix(e, st', Exec(e, st, acts));
      DistinctPrefix(e, st, st');
      PlainStays(e, st, a);
      UncoveredRunDuplicates(e, st', acts[1..]);
    }
  }

  /** The exact condition. Over logs of distinct uids, once everything has been committed: no uid is
      on two rows if and only if every commit of the run rewrote every object its crashed attempts
      had left under the same key. */
  lemma ExactlyOnceIffCovering(e: Env, st: State, acts: seq<Action>)
    requires Init(e, st) && Legal(e, st, acts)
    requires DistinctLogs(Exec(e, st, acts)) && Quiescent(e, Exec(e, st, acts))
    ensures AtMostOne(Exec(e, st, acts).lake) <==> Covering(e, st, acts)
  {
    InitInv(e, st);
    InitPlain(e, st);
    if Covering(e, st, acts) {
      ExactlyOnceWhenCovering(e, st, acts);
    } else {
      UncoveredRunDuplicates(e, st, acts);
    }
  }
}
