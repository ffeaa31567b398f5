/** The reconciliation of a finished range, run against the lake the protocol left, comes out clean
    exactly when the run kept exactly-once. */
module DeliveryReconciles {
  import opened Domain
  import opened StateSpec
  import opened Protocol
  import opened DeliverySafety
  import opened ExactlyOnce
  import opened Duplicates
  import opened Reconcile

  /** `rows` is a full read of the lake, in any order; `at` says which row each one is. */
  ghost predicate ReadsLake(lake: Lake, rows: seq<LakeRow>, at: seq<(ObjectKey, nat)>) {
    && |at| == |rows|
    && (forall i :: 0 <= i < |at| ==> at[i].0 in lake && at[i].1 < |lake[at[i].0]| && rows[i].uid == lake[at[i].0][at[i].1].uid)
    && (forall i, j :: 0 <= i < |at| && 0 <= j < |at| && at[i] == at[j] ==> i == j)
    && (forall k, r, u :: RowAt(lake, k, r, u) ==> exists i :: 0 <= i < |at| && at[i] == (k, r))
  }

  /** The range as the source gives it again: every event from the opening to where it finished. */
  ghost function RangeUids(e: Env, st: State, s: Stream): seq<string>
    requires e.pos(e.opening(s)) <= UptoOf(st, s) <= |LogOf(st, s)|
  {
    Uids(LogOf(st, s)[e.pos(e.opening(s))..UptoOf(st, s)])
  }

  lemma RangeMeans(e: Env, st: State, s: Stream, uid: string)
    requires e.pos(e.opening(s)) <= UptoOf(st, s) <= |LogOf(st, s)|
    ensures uid in RangeUids(e, st, s) <==> InPassed(e, st, s, uid)
  {
    var lo := e.pos(e.opening(s));
    var events := LogOf(st, s)[lo..UptoOf(st, s)];
    if uid in RangeUids(e, st, s) {
      var i :| 0 <= i < |events| && Uids(events)[i] == uid;
      assert LogOf(st, s)[lo + i].uid == uid;
    }
    if InPassed(e, st, s, uid) {
      var i :| lo <= i < UptoOf(st, s) && i < |LogOf(st, s)| && LogOf(st, s)[i].uid == uid;
      assert Uids(events)[i - lo] == uid;
    }
  }

  lemma OnRowMeans(e: Env, st: State, s: Stream, rows: seq<LakeRow>, at: seq<(ObjectKey, nat)>, uid: string)
    requires ReadsLake(st.lake, rows, at) && forall k :: k in st.lake ==> e.owner(k.batch) == s
    ensures OnRow(rows, uid) <==> InLake(e, st, s, uid)
  {
    if OnRow(rows, uid) {
      var i :| 0 <= i < |rows| && rows[i].uid == uid;
      assert RowAt(st.lake, at[i].0, at[i].1, uid);
    }
    if InLake(e, st, s, uid) {
      var k, r :| RowAt(st.lake, k, r, uid) && e.owner(k.batch) == s;
      var i :| 0 <= i < |at| && at[i] == (k, r);
      assert rows[i].uid == uid;
    }
  }

  /** No uid on two rows of the lake is no uid on two rows of the read. */
  lemma RowsOnce(lake: Lake, rows: seq<LakeRow>, at: seq<(ObjectKey, nat)>)
    requires ReadsLake(lake, rows, at)
    ensures AtMostOne(lake) <==>
      forall i, j :: 0 <= i < |rows| && 0 <= j < |rows| && rows[i].uid == rows[j].uid ==> i == j
  {
    if AtMostOne(lake) {
      forall i, j | 0 <= i < |rows| && 0 <= j < |rows| && rows[i].uid == rows[j].uid ensures i == j {
        assert RowAt(lake, at[i].0, at[i].1, rows[i].uid) && RowAt(lake, at[j].0, at[j].1, rows[i].uid);
        assert at[i] == at[j];
      }
    }
    if forall i, j :: 0 <= i < |rows| && 0 <= j < |rows| && rows[i].uid == rows[j].uid ==> i == j {
      forall k, r, k', r', u | RowAt(lake, k, r, u) && RowAt(lake, k', r', u) ensures k == k' && r == r' {
        var i :| 0 <= i < |at| && at[i] == (k, r);
        var j :| 0 <= j < |at| && at[j] == (k', r');
        assert rows[i].uid == rows[j].uid;
      }
    }
  }

  lemma OneOwner(e: Env, st: State, s: Stream)
    requires Base(e, st) && e.streams == {s}
    ensures forall k :: k in st.lake ==> e.owner(k.batch) == s
    ensures e.pos(e.opening(s)) <= UptoOf(st, s) <= |LogOf(st, s)|
  {
    assert StreamOk(e, st, s);
    forall k | k in st.lake ensures e.owner(k.batch) == s {
      assert KeyOk(e, st, k);
    }
  }

  lemma CoveredRunReconciles(e: Env, st: State, acts: seq<Action>, s: Stream, rows: seq<LakeRow>, at: seq<(ObjectKey, nat)>,
                             sinceMs: int, untilMs: int)
    requires Init(e, st) && Legal(e, st, acts) && DistinctLogs(Exec(e, st, acts)) && Covering(e, st, acts)
    requires e.streams == {s} && Finished(Exec(e, st, acts).store, s)
    requires ReadsLake(Exec(e, st, acts).lake, rows, at) && forall ev :: ev in LogOf(Exec(e, st, acts), s) ==> ev.uid != ""
    requires Base(e, Exec(e, st, acts))
    ensures e.pos(e.opening(s)) <= UptoOf(Exec(e, st, acts), s) <= |LogOf(Exec(e, st, acts), s)|
    ensures Reconciled(RangeUids(e, Exec(e, st, acts), s), rows, sinceMs, untilMs)
  {
    hide InLake, InPassed, ReadsLake, Legal, Covering, DistinctLogs, Finished, Init, AtMostOne;
    var end := Exec(e, st, acts);
    OneOwner(e, end, s);
    FinishedRangeIsExact(e, st, acts, s);
    RowsOnce(end.lake, rows, at);
    forall u ensures OnRow(rows, u) <==> u in RangeUids(e, end, s) {
      OnRowMeans(e, end, s, rows, at, u);
      RangeMeans(e, end, s, u);
    }
    forall row | row in rows ensures row.uid in RangeUids(e, end, s) && row.uid != "" {
      var i :| 0 <= i < |rows| && rows[i] == row;
      assert OnRow(rows, row.uid);
      NotBlank(e, end, s, row.uid);
    }
  }

  lemma NotBlank(e: Env, st: State, s: Stream, uid: string)
    requires e.pos(e.opening(s)) <= UptoOf(st, s) <= |LogOf(st, s)| && uid in RangeUids(e, st, s)
    requires forall ev :: ev in LogOf(st, s) ==> ev.uid != ""
    ensures uid != ""
  {
    RangeMeans(e, st, s, uid);
  }

  /** The reconciliation tells the truth about the run. Over one stream of distinct, non-blank uids
      whose range has finished at the end of its log, comparing the range with a full read of the lake
      comes out clean if and only if every commit covered what its crashed attempts had left. */
  lemma ReconcilesIffCovering(e: Env, st: State, acts: seq<Action>, s: Stream, rows: seq<LakeRow>, at: seq<(ObjectKey, nat)>,
                              sinceMs: int, untilMs: int)
    requires Init(e, st) && Legal(e, st, acts) && DistinctLogs(Exec(e, st, acts)) && e.streams == {s}
    requires Finished(Exec(e, st, acts).store, s) && Quiescent(e, Exec(e, st, acts))
    requires ReadsLake(Exec(e, st, acts).lake, rows, at) && forall ev :: ev in LogOf(Exec(e, st, acts), s) ==> ev.uid != ""
    ensures e.pos(e.opening(s)) <= UptoOf(Exec(e, st, acts), s) <= |LogOf(Exec(e, st, acts), s)|
    ensures Reconciled(RangeUids(e, Exec(e, st, acts), s), rows, sinceMs, untilMs) <==> Covering(e, st, acts)
  {
    hide InLake, InPassed, ReadsLake, Legal, Covering, DistinctLogs, Finished, Init, AtMostOne, Quiescent, Uids;
    InitInv(e, st);
    RunKeepsInv(e, st, acts);
    OneOwner(e, Exec(e, st, acts), s);
    ExactlyOnceIffCovering(e, st, acts);
    RowsOnce(Exec(e, st, acts).lake, rows, at);
    if Covering(e, st, acts) {
      CoveredRunReconciles(e, st, acts, s, rows, at, sinceMs, untilMs);
    }
  }
}
