/** What the machine's theorems say of the runner itself, in terms of the store and the lake it
    leaves behind. */
module RunGuarantees {
  import opened Domain
  import opened StateSpec
  import opened Protocol
  import opened DeliverySafety
  import opened ExactlyOnce
  import opened RunLoop
  import opened RunTrace

  /** A run of the loop on a range that has not finished is a run of the machine from before it. */
  lemma RunIsLegal(e: Env, before: State, s: Stream, tr: Trace)
    requires s in e.streams && ProcOf(before, s).Down? && !Finished(before.store, s)
    requires Recorded(e, tr) && tr.start == Opened(e, before, s)
    ensures var acts := [Open(s)] + tr.acts; Legal(e, before, acts) && Exec(e, before, acts) == tr.now
  {
    var acts := [Open(s)] + tr.acts;
    assert acts[0] == Open(s) && acts[1..] == tr.acts;
    assert Apply(e, before, acts[0]) == tr.start;
  }

  ghost predicate OnSomeRow(lake: Lake, uid: string) {
    exists k, r :: RowAt(lake, k, r, uid)
  }

  /** Every event of the log from the opening to a position is on a row of some object. */
  ghost predicate SafeUpTo(e: Env, s: Stream, log: seq<Event>, upto: nat, lake: Lake) {
    upto <= |log| && forall i :: e.pos(e.opening(s)) <= i < upto ==> OnSomeRow(lake, log[i].uid)
  }

  ghost predicate StoredCursorIsSafe(e: Env, s: Stream, log: seq<Event>, stored: Option<Cursor>, lake: Lake) {
    stored.Some? ==> SafeUpTo(e, s, log, e.pos(stored.value), lake)
  }

  lemma InvMakesCursorSafe(e: Env, st: State, s: Stream)
    requires Inv(e, st) && s in e.streams
    ensures SafeUpTo(e, s, LogOf(st, s), UptoOf(st, s), st.lake)
    ensures StoredCursorIsSafe(e, s, LogOf(st, s), GetCursor(st.store, s), st.lake)
  {
    assert StreamOk(e, st, s);
    forall i | e.pos(e.opening(s)) <= i < UptoOf(st, s) ensures OnSomeRow(st.lake, LogOf(st, s)[i].uid) {
      assert Delivered(e, st, LogOf(st, s)[i].uid);
    }
  }

  lemma RunKeepsGuarantees(e: Env, before: State, s: Stream, tr: Trace)
    requires s in e.streams && ProcOf(before, s).Down? && !Finished(before.store, s) && Inv(e, before)
    requires Recorded(e, tr) && tr.start == Opened(e, before, s)
    ensures Inv(e, tr.now) && Extends(e, before, tr.now)
    ensures SafeUpTo(e, s, LogOf(tr.now, s), UptoOf(tr.now, s), tr.now.lake)
    ensures StoredCursorIsSafe(e, s, LogOf(tr.now, s), GetCursor(tr.now.store, s), tr.now.lake)
  {
    RunIsLegal(e, before, s, tr);
    RunKeepsInv(e, before, [Open(s)] + tr.acts);
    InvMakesCursorSafe(e, tr.now, s);
  }

  /** Exactly once, of the runner: over distinct uids, a run whose commits cover what earlier attempts
      left puts no uid on two rows, and leaves the lake as the next run needs it for the same. */
  lemma RunKeepsExactlyOnce(e: Env, before: State, s: Stream, tr: Trace)
    requires s in e.streams && ProcOf(before, s).Down? && !Finished(before.store, s) && Inv(e, before)
    requires Recorded(e, tr) && tr.start == Opened(e, before, s)
    requires Plain(e, before) && Tidy(e, before) && DistinctLogs(tr.now)
    ensures var acts := [Open(s)] + tr.acts;
      Legal(e, before, acts) && (Covering(e, before, acts) ==> Plain(e, tr.now) && Tidy(e, tr.now) && AtMostOne(tr.now.lake))
  {
    hide Inv, Plain, DistinctLogs, Covering, Legal;
    RunIsLegal(e, before, s, tr);
    RunStaysTidy(e, before, [Open(s)] + tr.acts);
  }

  /** No loss, of the runner: however the run ends, each mapped event of the log before the cursor
      now stored, or up to where the range finished, is on a row of some object now stored. Any number
      of such runs may follow one another, since each leaves the invariant the next one needs. */
  method RunWithoutLoss(p: Parts, version: string, maxPages: Option<nat>, purgeEvery: int, caughtUpEvery: nat,
                        ghost before: State)
    returns (stats: Option<RunStats>, ghost after: State)
    requires Wired(p) && p.sink.buffer == [] && Mirrors(p, before, Down)
    requires Inv(p.env, before) && !Finished(before.store, p.stream)
    modifies p.source, p.sink, p.sink.store, p.store, p.clock, p.stop, p.others
    ensures Wired(p) && Mirrors(p, after, Down) && Inv(p.env, after) && Extends(p.env, before, after)
    ensures StoredCursorIsSafe(p.env, p.stream, MapAll(p.source.mapRecord, p.source.log),
                               GetCursor(p.store.Contents(), p.stream), p.sink.store.objects)
    ensures SafeUpTo(p.env, p.stream, MapAll(p.source.mapRecord, p.source.log), UptoOf(after, p.stream), p.sink.store.objects)
    ensures stats.Some? && stats.value.exhausted ==> Finished(p.store.Contents(), p.stream)
    ensures stats.None? <==> Faults(p) > old(Faults(p))
  {
    ghost var tr, stamps;
    stats, tr, stamps := Run(p, version, maxPages, purgeEvery, caughtUpEvery, before);
    after := tr.now;
    RunKeepsGuarantees(p.env, before, p.stream, tr);
  }

  /** A backfill ends: over a finite chain, a run that does not fail and is not stopped finishes its
      range, having fetched no more pages than the chain has from where the run began, and leaves every
      event up to its end on a row. */
  method Drain(p: Parts, version: string, purgeEvery: int, caughtUpEvery: nat, ghost before: State)
    returns (stats: Option<RunStats>, ghost after: State)
    requires Wired(p) && p.sink.buffer == [] && Mirrors(p, before, Down)
    requires Inv(p.env, before) && !Finished(before.store, p.stream) && p.source.chain.Some?
    modifies p.source, p.sink, p.sink.store, p.store, p.clock, p.stop, p.others
    ensures Wired(p) && Mirrors(p, after, Down) && Inv(p.env, after) && Extends(p.env, before, after)
    ensures stats.Some? && stats.value.stoppedBy.None? ==>
      stats.value.exhausted && Finished(p.store.Contents(), p.stream)
    // If no call fails and no stop is asked for, that is how it ends.
    ensures Faults(p) == old(Faults(p)) && p.stop.heard == old(p.stop.heard) ==> stats.Some? && stats.value.stoppedBy.None?
    ensures stats.Some? ==> stats.value.pages <= p.source.chain.value(Start(p.env, before, p.stream)) + 1
    ensures SafeUpTo(p.env, p.stream, MapAll(p.source.mapRecord, p.source.log), UptoOf(after, p.stream), p.sink.store.objects)
  {
    ghost var tr, stamps;
    stats, tr, stamps := Run(p, version, None, purgeEvery, caughtUpEvery, before);
    after := tr.now;
    RunKeepsGuarantees(p.env, before, p.stream, tr);
  }
}
