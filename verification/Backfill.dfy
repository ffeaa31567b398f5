/** A bounded range: a run over a finite chain of pages ends, and its range is finished once. */
module Backfill {
  import opened Domain
  import opened StateSpec
  import opened Protocol
  import opened DeliverySafety

  predicate IsFetch(s: Stream, a: Action) {
    a.Act? && a.s == s && a.move.Fetch?
  }

  /** How many pages of `s` a stretch of a run fetches. */
  function Fetches(s: Stream, acts: seq<Action>): nat
    decreases |acts|
  {
    if acts == [] then 0 else (if IsFetch(s, acts[0]) then 1 else 0) + Fetches(s, acts[1..])
  }

  lemma {:induction false} FetchesLast(s: Stream, acts: seq<Action>, a: Action)
    ensures Fetches(s, acts + [a]) == Fetches(s, acts) + if IsFetch(s, a) then 1 else 0
    decreases |acts|
  {
    if acts == [] {
      assert (acts + [a])[1..] == [];
    } else {
      assert (acts + [a])[1..] == acts[1..] + [a];
      FetchesLast(s, acts[1..], a);
    }
  }

  predicate Commits(s: Stream, a: Action) {
    a.Act? && a.s == s && a.move.CommitBatch?
  }

  /** How many batches of `s` a stretch of a run commits. */
  function CommitsIn(s: Stream, acts: seq<Action>): nat
    decreases |acts|
  {
    if acts == [] then 0 else (if Commits(s, acts[0]) then 1 else 0) + CommitsIn(s, acts[1..])
  }

  lemma {:induction false} CommitsLast(s: Stream, acts: seq<Action>, a: Action)
    ensures CommitsIn(s, acts + [a]) == CommitsIn(s, acts) + if Commits(s, a) then 1 else 0
    decreases |acts|
  {
    if acts == [] {
      assert (acts + [a])[1..] == [];
    } else {
      assert (acts + [a])[1..] == acts[1..] + [a];
      CommitsLast(s, acts[1..], a);
    }
  }

  /** `left` is a rank on the cursors of a finite chain, say the number of pages after this one: it
      falls along every `next` link, whatever the pages hold. */
  predicate Falls(left: Cursor -> nat, cursor: Cursor, next: Option<Cursor>) {
    next.Some? ==> left(next.value) < left(cursor)
  }

  /** Every page the stretch fetches for `s` is one of the chain. */
  ghost predicate FollowsChain(e: Env, st: State, s: Stream, left: Cursor -> nat, acts: seq<Action>)
    requires Legal(e, st, acts)
    decreases |acts|
  {
    acts == [] ||
      ((IsFetch(s, acts[0]) ==> Falls(left, ProcOf(st, s).cursor, acts[0].move.next))
        && FollowsChain(e, Apply(e, st, acts[0]), s, left, acts[1..]))
  }

  /** Stream `s` neither dies nor restarts. */
  predicate Undisturbed(s: Stream, acts: seq<Action>) {
    forall a :: a in acts ==> (a.Halt? || a.Open? ==> a.s != s)
  }

  /** The pages a process can still fetch: this one and those after it. */
  function FetchesLeft(st: State, s: Stream, left: Cursor -> nat): nat {
    var p := ProcOf(st, s);
    if p.Down? then 0
    else if p.phase.Ready? then left(p.cursor) + 1
    else if p.phase.page.next.None? then 0
    else left(p.phase.page.next.value) + 1
  }

  lemma MoveUsesUp(e: Env, st: State, s: Stream, m: Move, left: Cursor -> nat)
    requires CanMove(e, st, s, m) && (m.Fetch? ==> Falls(left, ProcOf(st, s).cursor, m.next))
    ensures FetchesLeft(Moved(e, st, s, m), s, left) <= FetchesLeft(st, s, left) - if m.Fetch? then 1 else 0
  {
    hide Filtered, Targets, InBucket, LakeAfter, StoreAfter, UptoAfter;
  }

  lemma OtherProc(e: Env, st: State, a: Action, s: Stream)
    requires Enabled(e, st, a) && (a.Halt? || a.Open? || a.Act? ==> a.s != s)
    ensures ProcOf(Apply(e, st, a), s) == ProcOf(st, s)
  {
    hide LakeAfter, StoreAfter, UptoAfter, ProcAfter;
  }

  /** Termination: while nothing crashes, a run over a finite chain fetches no more pages than the
      chain has left, empty pages with a `next` link included, and however the log grows meanwhile. */
  lemma {:induction false} FetchesBounded(e: Env, st: State, acts: seq<Action>, s: Stream, left: Cursor -> nat)
    requires Legal(e, st, acts) && Undisturbed(s, acts) && FollowsChain(e, st, s, left, acts)
    ensures Fetches(s, acts) <= FetchesLeft(st, s, left)
    decreases |acts|
  {
    hide Moved, CanMove, Falls, FetchesLeft;
    if acts != [] {
      var a := acts[0];
      assert a in acts;
      if a.Act? && a.s == s {
        MoveUsesUp(e, st, s, a.move, left);
      } else {
        OtherProc(e, st, a, s);
        SameLeft(st, Apply(e, st, a), s, left);
      }
      assert Undisturbed(s, acts[1..]);
      FetchesBounded(e, Apply(e, st, a), acts[1..], s, left);
    }
  }

  lemma SameLeft(st: State, st': State, s: Stream, left: Cursor -> nat)
    requires ProcOf(st', s) == ProcOf(st, s)
    ensures FetchesLeft(st', s, left) == FetchesLeft(st, s, left)
  {
  }

  /** A fixed log read by pages that carry something, but perhaps for the last. */
  predicate Advances(s: Stream, acts: seq<Action>) {
    forall a :: a in acts ==>
      (IsFetch(s, a) ==> a.move.n > 0 || a.move.next.None?) && (a.Grow? ==> a.s != s)
  }

  lemma {:induction false} PositionsFall(e: Env, st: State, acts: seq<Action>, s: Stream, len: nat)
    requires Legal(e, st, acts) && Advances(s, acts) && |LogOf(st, s)| == len
    ensures FollowsChain(e, st, s, c => if e.pos(c) <= len then len - e.pos(c) else 0, acts)
    decreases |acts|
  {
    hide LakeAfter, StoreAfter, UptoAfter, ProcAfter;
    if acts != [] {
      assert acts[0] in acts;
      assert |LogOf(Apply(e, st, acts[0]), s)| == len;
      assert Advances(s, acts[1..]);
      PositionsFall(e, Apply(e, st, acts[0]), acts[1..], s, len);
    }
  }

  /** With such pages the log's own positions are the rank: at most one page per position left, and
      the last. */
  lemma PositionsBoundFetches(e: Env, st: State, acts: seq<Action>, s: Stream)
    requires Legal(e, st, acts) && Undisturbed(s, acts) && Advances(s, acts)
    requires ProcOf(st, s).Up? && ProcOf(st, s).phase.Ready? && e.pos(ProcOf(st, s).cursor) <= |LogOf(st, s)|
    ensures Fetches(s, acts) <= |LogOf(st, s)| - e.pos(ProcOf(st, s).cursor) + 1
  {
    var len := |LogOf(st, s)|;
    PositionsFall(e, st, acts, s, len);
    FetchesBounded(e, st, acts, s, c => if e.pos(c) <= len then len - e.pos(c) else 0);
  }

  lemma FinishedStays(e: Env, st: State, a: Action, s: Stream)
    requires Inv(e, st) && Enabled(e, st, a) && s in e.streams && Finished(st.store, s)
    ensures Finished(Apply(e, st, a).store, s) && UptoOf(Apply(e, st, a), s) == UptoOf(st, s) && !Commits(s, a)
  {
    hide Base, RowsFromLogs, CommittedDelivered, SeenDelivered, ProcOk, Moved, CanMove, AtOpenKey;
    StepAtOpenKey(e, st, a);
    if Commits(s, a) {
      NotFinished(e, st, s, a.move.version);
    } else if a.Act? {
      if a.s == s {
        QuietSeen(e, st, a);
        QuietStore(e, st, s, a.move, s);
      } else {
        StepIsolated(e, st, a, s);
      }
    }
  }

  lemma NotFinished(e: Env, st: State, s: Stream, version: string)
    requires AtOpenKey(e, st, s, CommitBatch(version)) && CanMove(e, st, s, CommitBatch(version))
    ensures !Finished(st.store, s)
  {
  }

  /** A range finishes once: after it no commit of the stream is ever made again, its position does
      not move, and the stored cursor stays `None`. */
  lemma {:induction false} FinishesOnce(e: Env, st: State, acts: seq<Action>, s: Stream)
    requires Inv(e, st) && s in e.streams && Legal(e, st, acts) && Finished(st.store, s)
    ensures forall a :: a in acts ==> !Commits(s, a)
    ensures Finished(Exec(e, st, acts).store, s) && UptoOf(Exec(e, st, acts), s) == UptoOf(st, s)
    decreases |acts|
  {
    hide Inv, Finished, Enabled, Apply;
    if acts != [] {
      FinishedStays(e, st, acts[0], s);
      StepKeepsInv(e, st, acts[0]);
      FinishesOnce(e, Apply(e, st, acts[0]), acts[1..], s);
      assert forall a :: a in acts ==> a == acts[0] || a in acts[1..];
    }
  }
}
