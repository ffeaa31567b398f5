/** The only window for a duplicate: between the first PUT of a flush and its commit. A run whose
    processes never die there keeps exactly-once, whatever else it does. */
module CrashWindow {
  import opened Domain
  import opened Protocol
  import opened DeliverySafety
  import opened ExactlyOnce
  import opened Multiplicity

  /** Every object that holds something and is not final belongs to a flush under way. */
  ghost predicate NothingStranded(e: Env, st: State) {
    forall k :: k in st.lake && !Closed(e, st, k) && st.lake[k] != [] ==> InFlight(e, ProcOf(st, e.owner(k.batch)), k)
  }

  /** The process dies with nothing of its open batch in the lake. */
  ghost predicate DiesOutside(e: Env, st: State, a: Action) {
    a.Halt? ==> forall k :: k in st.lake && e.owner(k.batch) == a.s && !Closed(e, st, k) ==> st.lake[k] == []
  }

  ghost predicate AllDieOutside(e: Env, st: State, acts: seq<Action>)
    requires Legal(e, st, acts)
    decreases |acts|
  {
    acts == [] || (DiesOutside(e, st, acts[0]) && AllDieOutside(e, Apply(e, st, acts[0]), acts[1..]))
  }

  /** With nothing stranded, every commit covers. */
  lemma CommitCovers(e: Env, st: State, s: Stream, version: string)
    requires NothingStranded(e, st) && CanMove(e, st, s, CommitBatch(version)) && AtOpenKey(e, st, s, CommitBatch(version))
    ensures Covers(e, st, s)
  {
    var p := ProcOf(st, s);
    forall k: ObjectKey | k in st.lake && k.batch == p.batchKey && st.lake[k] != []
      ensures k.bucket in Targets(e, p.phase.sent)
    {
      assert !Closed(e, st, k);
      assert InFlight(e, ProcOf(st, e.owner(k.batch)), k);
    }
  }

  /** A commit that does not advance acknowledged nothing but empty objects. */
  lemma StandingCommitIsEmpty(e: Env, st: State, s: Stream, version: string, k: ObjectKey)
    requires ProcOk(e, st, s) && CanMove(e, st, s, CommitBatch(version)) && ProcOf(st, s).phase.page.end <= UptoOf(st, s)
    requires k in st.lake && InFlight(e, ProcOf(st, s), k)
    ensures st.lake[k] == []
  {
    hide Covered, Targets;
    var p := ProcOf(st, s);
    var sent := p.phase.sent;
    FirstDrawn(LogOf(st, s), UptoOf(st, s), Reached(e, p), sent);
    assert Stored(e, st, p.batchKey, sent, k.bucket);
    assert |multiset(st.lake[k])| == |st.lake[k]|;
  }

  lemma FirstDrawn(log: seq<Event>, lo: int, hi: int, held: seq<Event>)
    requires Drawn(log, lo, hi, held) && hi <= lo
    ensures held == []
  {
    FirstIsIn(held);
  }

  lemma StrandedAfterCommit(e: Env, st: State, s: Stream, version: string)
    requires NothingStranded(e, st) && ProcOk(e, st, s) && CanMove(e, st, s, CommitBatch(version))
    requires AtOpenKey(e, st, s, CommitBatch(version))
    ensures NothingStranded(e, Moved(e, st, s, CommitBatch(version)))
  {
    hide ProcOk, InFlight;
    var st' := Moved(e, st, s, CommitBatch(version));
    MoveExtends(e, st, s, CommitBatch(version));
    forall k | k in st'.lake && !Closed(e, st', k) && st'.lake[k] != [] ensures InFlight(e, ProcOf(st', e.owner(k.batch)), k) {
      assert !Closed(e, st, k) && InFlight(e, ProcOf(st, e.owner(k.batch)), k);
      if e.owner(k.batch) == s {
        InFlightAtKey(e, ProcOf(st, s), k);
        StandingCommitIsEmpty(e, st, s, version, k);
      }
    }
  }

  lemma InFlightAtKey(e: Env, p: Proc, k: ObjectKey)
    requires InFlight(e, p, k)
    ensures p.Up? && k.batch == p.batchKey
  {
  }

  lemma StrandedAfterPut(e: Env, st: State, s: Stream, b: Bucket, rows: seq<Event>)
    requires NothingStranded(e, st) && CanMove(e, st, s, Put(b, rows)) && AtOpenKey(e, st, s, Put(b, rows))
    ensures NothingStranded(e, Moved(e, st, s, Put(b, rows)))
  {
    hide Targets, InBucket;
  }

  lemma InFlightElsewhere(e: Env, st: State, a: Action, s: Stream)
    requires Enabled(e, st, a) && (a.Tick? || a.PurgeExpired? || a.s != s)
    ensures ProcOf(Apply(e, st, a), s) == ProcOf(st, s)
  {
    hide Targets, InBucket, Filtered;
  }

  lemma StrandedAfterQuiet(e: Env, st: State, a: Action)
    requires NothingStranded(e, st) && Enabled(e, st, a) && DiesOutside(e, st, a)
    requires !(a.Act? && (a.move.Put? || a.move.CommitBatch?))
    ensures NothingStranded(e, Apply(e, st, a))
  {
    hide InFlight, Apply, Enabled;
    var st' := Apply(e, st, a);
    QuietLake(e, st, a);
    QuietSeen(e, st, a);
    forall k | k in st'.lake && !Closed(e, st', k) && st'.lake[k] != [] ensures InFlight(e, ProcOf(st', e.owner(k.batch)), k) {
      assert InFlight(e, ProcOf(st, e.owner(k.batch)), k);
      if a.Tick? || a.PurgeExpired? || a.s != e.owner(k.batch) {
        InFlightElsewhere(e, st, a, e.owner(k.batch));
      } else {
        StaysInFlight(e, st, a, e.owner(k.batch), k);
      }
    }
  }

  lemma NothingStrandedStays(e: Env, st: State, a: Action)
    requires Inv(e, st) && NothingStranded(e, st) && Enabled(e, st, a) && DiesOutside(e, st, a)
    ensures NothingStranded(e, Apply(e, st, a))
    ensures CoversIfCommit(e, st, a)
  {
    hide Base, ProcOk, RowsFromLogs, SeenDelivered, CommittedDelivered, NothingStranded, Moved, AtOpenKey, Covers;
    StepAtOpenKey(e, st, a);
    if a.Act? && a.move.CommitBatch? {
      CommitCovers(e, st, a.s, a.move.version);
      StrandedAfterCommit(e, st, a.s, a.move.version);
    } else if a.Act? && a.move.Put? {
      StrandedAfterPut(e, st, a.s, a.move.bucket, a.move.rows);
    } else {
      StrandedAfterQuiet(e, st, a);
    }
  }

  lemma {:induction false} OutsideTheWindowCovers(e: Env, st: State, acts: seq<Action>)
    requires Inv(e, st) && NothingStranded(e, st) && Legal(e, st, acts) && AllDieOutside(e, st, acts)
    ensures Covering(e, st, acts)
    decreases |acts|
  {
    hide Inv, NothingStranded, Enabled, Apply, DiesOutside, CoversIfCommit;
    if acts != [] {
      NothingStrandedStays(e, st, acts[0]);
      StepKeepsInv(e, st, acts[0]);
      OutsideTheWindowCovers(e, Apply(e, st, acts[0]), acts[1..]);
    }
  }

  /** Exactly once for the Security Lake sink: over distinct uids, in every run whose processes never
      die between the first PUT of a flush and its commit, no uid is ever on two rows. Crashes anywhere
      else, and however differently replays are cut, make no difference. */
  lemma ExactlyOnceOutsideTheWindow(e: Env, st: State, acts: seq<Action>)
    requires Init(e, st) && Legal(e, st, acts) && DistinctLogs(Exec(e, st, acts)) && AllDieOutside(e, st, acts)
    ensures AtMostOne(Exec(e, st, acts).lake)
  {
    InitInv(e, st);
    OutsideTheWindowCovers(e, st, acts);
    ExactlyOnceWhenCovering(e, st, acts);
  }
}
