/** The other streams, which share the state store and the lake with a run and step between its calls. */
module Neighbours {
  import opened Domain
  import opened StateSpec
  import opened Protocol
  import opened DeliverySafety

  /** A step no process of `s` takes. */
  predicate Foreign(s: Stream, a: Action) {
    a.Open? || a.Halt? || a.Act? ==> a.s != s
  }

  /** The other streams' logs and processes; the store, the lake and the clock are shared. */
  class Others {
    var logs: map<Stream, seq<Event>>
    var procs: map<Stream, Proc>

    /** What one of them sees before its next step. */
    function World(lake: Lake, store: Store, now: int): State
      reads this
    {
      State(logs, lake, store, now, map[], procs)
    }

    /** Their logs and processes alone. */
    function Picture(): State
      reads this
    {
      State(logs, map[], EmptyStore, 0, map[], procs)
    }
  }

  /** `w` and `st` agree on every stream but `s`. */
  ghost predicate Beside(s: Stream, w: State, st: State) {
    forall t | t != s :: ProcOf(w, t) == ProcOf(st, t) && LogOf(w, t) == LogOf(st, t)
  }

  /** A step that touches no process and no log but those of `s`. */
  predicate Own(s: Stream, a: Action) {
    a.Grow? || a.Open? || a.Halt? || a.Act? ==> a.s == s
  }

  lemma BesideStays(e: Env, s: Stream, w: State, st: State, a: Action)
    requires Beside(s, w, st) && Own(s, a) && Enabled(e, st, a)
    ensures Beside(s, w, Apply(e, st, a))
  {
    hide CanMove, ProcAfter, LakeAfter, StoreAfter, UptoAfter;
  }

  lemma OpenedBeside(e: Env, s: Stream, w: State, st: State)
    requires Beside(s, w, st)
    ensures Beside(s, w, Opened(e, st, s))
  {
  }

  /** They also agree on the store and the clock. */
  ghost predicate Around(s: Stream, w: State, st: State) {
    Beside(s, w, st) && w.store == st.store && w.now == st.now
  }

  /** What another process may do next, and what it does, can be told without looking at `s`. */
  lemma MovesAlike(e: Env, s: Stream, w: State, st: State, t: Stream, m: Move)
    requires Around(s, w, st) && t != s && CanMove(e, w, t, m)
    ensures CanMove(e, st, t, m) && ProcAfter(e, st, t, m) == ProcAfter(e, w, t, m)
    ensures StoreAfter(e, st, t, m) == StoreAfter(e, w, t, m)
    ensures w.lake == st.lake ==> LakeAfter(e, st, t, m) == LakeAfter(e, w, t, m)
  {
    hide Filtered, Targets, InBucket, Commit;
    assert ProcOf(st, t) == ProcOf(w, t) && LogOf(st, t) == LogOf(w, t);
  }

  /** Another process's move leaves `s` where it was, and the two pictures of the rest alike. */
  lemma MovedAlike(e: Env, s: Stream, w: State, st: State, t: Stream, m: Move)
    requires Around(s, w, st) && w.lake == st.lake && t != s && CanMove(e, w, t, m) && CanMove(e, st, t, m)
    ensures var st' := Moved(e, st, t, m);
      && Beside(s, w.(procs := w.procs[t := ProcAfter(e, w, t, m)]), st')
      && st'.lake == LakeAfter(e, w, t, m) && st'.store == StoreAfter(e, w, t, m) && st'.now == st.now
      && ProcOf(st', s) == ProcOf(st, s) && LogOf(st', s) == LogOf(st, s)
  {
    hide CanMove, ProcAfter, LakeAfter, StoreAfter, UptoAfter;
    MovesAlike(e, s, w, st, t, m);
    var w' := w.(procs := w.procs[t := ProcAfter(e, w, t, m)]);
    forall r | r != s ensures ProcOf(w', r) == ProcOf(Moved(e, st, t, m), r) && LogOf(w', r) == LogOf(Moved(e, st, t, m), r) {
      assert ProcOf(w, r) == ProcOf(st, r) && LogOf(w, r) == LogOf(st, r);
    }
  }

  /** All of it, from a picture `o` of the others and what one of them sees, `w`. */
  lemma MoveAlike(e: Env, s: Stream, o: State, w: State, st: State, t: Stream, m: Move) returns (w': State)
    requires Beside(s, o, st) && o.logs == w.logs && o.procs == w.procs
    requires w.lake == st.lake && w.store == st.store && w.now == st.now
    requires t in e.streams && t != s && CanMove(e, w, t, m)
    ensures Enabled(e, st, Act(t, m)) && w' == w.(procs := w.procs[t := ProcAfter(e, w, t, m)])
    ensures var st' := Apply(e, st, Act(t, m));
      && Beside(s, w', st') && ProcOf(st', s) == ProcOf(st, s) && LogOf(st', s) == LogOf(st, s)
      && st'.lake == LakeAfter(e, w, t, m) && st'.store == StoreAfter(e, w, t, m) && st'.now == st.now
      && RowOf(st'.store, s) == RowOf(st.store, s)
    ensures Beside(s, w, st)
  {
    hide Beside, CanMove, ProcAfter, LakeAfter, StoreAfter, UptoAfter, RowOf;
    BesideWorld(s, o, w, st);
    MovesAlike(e, s, w, st, t, m);
    MovedAlike(e, s, w, st, t, m);
    RowUntouched(e, st, s, t, m);
    w' := w.(procs := w.procs[t := ProcAfter(e, w, t, m)]);
  }

  /** Another stream's log may grow at any time; it may open when it is down and not finished, and die. */
  predicate StartsOrEnds(w: State, a: Action) {
    a.Grow? || a.Halt? || (a.Open? && ProcOf(w, a.s).Down? && !Finished(w.store, a.s))
  }

  function After(e: Env, w: State, a: Action): State
    requires StartsOrEnds(w, a)
  {
    match a
    case Grow(s, more) => w.(logs := w.logs[s := LogOf(w, s) + more])
    case Open(s) => Opened(e, w, s)
    case Halt(s) => With(w, s, Down)
  }

  lemma StepAlike(e: Env, s: Stream, w: State, st: State, a: Action)
    requires Around(s, w, st) && StartsOrEnds(w, a) && a.s in e.streams && a.s != s
    ensures Enabled(e, st, a)
    ensures var st' := Apply(e, st, a);
      && Beside(s, After(e, w, a), st') && st'.lake == st.lake && st'.store == st.store && st'.now == st.now
      && ProcOf(st', s) == ProcOf(st, s) && LogOf(st', s) == LogOf(st, s)
  {
    assert ProcOf(w, a.s) == ProcOf(st, a.s) && LogOf(w, a.s) == LogOf(st, a.s);
    var st', w' := Apply(e, st, a), After(e, w, a);
    forall r | r != s ensures ProcOf(w', r) == ProcOf(st', r) && LogOf(w', r) == LogOf(st', r) {
      assert ProcOf(w, r) == ProcOf(st, r) && LogOf(w, r) == LogOf(st, r);
    }
  }

  /** The picture is of logs and processes only. */
  lemma BesideWorld(s: Stream, w: State, w': State, st: State)
    requires Beside(s, w, st) && w'.logs == w.logs && w'.procs == w.procs
    ensures Beside(s, w', st)
  {
    forall r | r != s ensures ProcOf(w', r) == ProcOf(st, r) && LogOf(w', r) == LogOf(st, r) {
      assert ProcOf(w, r) == ProcOf(st, r) && LogOf(w, r) == LogOf(st, r);
    }
  }

  lemma Dies(e: Env, s: Stream, w: State, w': State, st: State, t: Stream)
    requires Beside(s, w, st) && w'.logs == w.logs && w'.procs[t := Down] == w.procs[t := Down] && ProcOf(w', t) == Down
    requires t != s && t in e.streams
    ensures Enabled(e, st, Halt(t))
    ensures var st' := Apply(e, st, Halt(t));
      && Beside(s, w', st') && ProcOf(st', s) == ProcOf(st, s) && LogOf(st', s) == LogOf(st, s)
      && st'.lake == st.lake && st'.store == st.store && st'.now == st.now
  {
    var st' := Apply(e, st, Halt(t));
    forall r | r != s ensures ProcOf(w', r) == ProcOf(st', r) && LogOf(w', r) == LogOf(st', r) {
      assert ProcOf(w, r) == ProcOf(st, r) && LogOf(w, r) == LogOf(st, r);
      assert r != t ==> ProcOf(w', r) == ProcOf(w'.(procs := w'.procs[t := Down]), r) && ProcOf(w, r) == ProcOf(w.(procs := w.procs[t := Down]), r);
    }
  }

  /** The row of `s` is its own: no other process's move touches it. */
  lemma RowUntouched(e: Env, st: State, s: Stream, t: Stream, m: Move)
    requires CanMove(e, st, t, m) && t != s
    ensures RowOf(StoreAfter(e, st, t, m), s) == RowOf(st.store, s)
  {
  }

  // ----- where in a flush the others step does not matter -----

  lemma PutIs(e: Env, st: State, s: Stream, b: Bucket, rows: seq<Event>)
    requires CanMove(e, st, s, Put(b, rows))
    ensures Moved(e, st, s, Put(b, rows)) == st.(
      lake := st.lake[ObjectKey(ProcOf(st, s).batchKey, b) := rows],
      procs := st.procs[s := ProcAfter(e, st, s, Put(b, rows))])
  {
  }

  /** A PUT and another process's move can change places: they write different objects. */
  lemma PutAndMove(e: Env, st: State, s: Stream, b: Bucket, rows: seq<Event>, t: Stream, m: Move)
    requires CanMove(e, st, s, Put(b, rows)) && CanMove(e, st, t, m) && s != t
    requires m.Put? ==> ProcOf(st, t).batchKey != ProcOf(st, s).batchKey
    ensures CanMove(e, Moved(e, st, s, Put(b, rows)), t, m) && CanMove(e, Moved(e, st, t, m), s, Put(b, rows))
    ensures Moved(e, Moved(e, st, s, Put(b, rows)), t, m) == Moved(e, Moved(e, st, t, m), s, Put(b, rows))
  {
    hide CanMove, ProcAfter, StoreAfter;
    var st1, st2 := Moved(e, st, s, Put(b, rows)), Moved(e, st, t, m);
    PutIs(e, st, s, b, rows);
    MovesAlike(e, s, st, st1, t, m);
    PutAlike(e, st, st2, s, b, rows);
    PutIs(e, st2, s, b, rows);
    assert st.procs[s := ProcOf(st1, s)][t := ProcOf(st2, t)] == st.procs[t := ProcOf(st2, t)][s := ProcOf(st1, s)];
  }

  /** A PUT can be told from its own process. */
  lemma PutAlike(e: Env, st: State, st': State, s: Stream, b: Bucket, rows: seq<Event>)
    requires CanMove(e, st, s, Put(b, rows)) && ProcOf(st', s) == ProcOf(st, s)
    ensures CanMove(e, st', s, Put(b, rows)) && ProcAfter(e, st', s, Put(b, rows)) == ProcAfter(e, st, s, Put(b, rows))
  {
  }

  /** A PUT and any step that is not of its stream can change places. */
  lemma PutCommutes(e: Env, st: State, s: Stream, b: Bucket, rows: seq<Event>, a: Action)
    requires Inv(e, st) && s in e.streams && Foreign(s, a) && Enabled(e, st, a)
    requires Enabled(e, Apply(e, st, a), Act(s, Put(b, rows)))
    ensures Enabled(e, st, Act(s, Put(b, rows))) && Enabled(e, Apply(e, st, Act(s, Put(b, rows))), a)
    ensures Apply(e, Apply(e, st, Act(s, Put(b, rows))), a) == Apply(e, Apply(e, st, a), Act(s, Put(b, rows)))
  {
    hide Inv, CanMove, ProcAfter, LakeAfter, StoreAfter, UptoAfter;
    var put, st2 := Put(b, rows), Apply(e, st, a);
    PutAlike(e, st2, st, s, b, rows);
    PutIs(e, st, s, b, rows);
    PutIs(e, st2, s, b, rows);
    if a.Act? {
      if a.move.Put? {
        KeysApart(e, st, s, put, a.s, a.move);
      }
      PutAndMove(e, st, s, b, rows, a.s, a.move);
    } else if a.Open? || a.Halt? {
      var p, q := ProcAfter(e, st, s, put), ProcOf(st2, a.s);
      assert st.procs[s := p][a.s := q] == st.procs[a.s := q][s := p];
    }
  }

  lemma KeysApart(e: Env, st: State, s: Stream, m: Move, t: Stream, n: Move)
    requires Inv(e, st) && s in e.streams && t in e.streams && s != t && m.Put? && n.Put? && CanMove(e, st, s, m) && CanMove(e, st, t, n)
    ensures ProcOf(st, s).batchKey != ProcOf(st, t).batchKey
  {
    hide Base, RowsFromLogs, CommittedDelivered, SeenDelivered, ProcOk;
    assert ProcOk(e, st, s) && ProcOk(e, st, t);
    OpenKey(e, st, s, m);
    OpenKey(e, st, t, n);
  }

  /** Hence a flush that others' steps cut into can be read as one made in one piece: each of its PUTs
      moves forward past all of them. */
  lemma {:induction false} PutMovesForward(e: Env, st: State, s: Stream, b: Bucket, rows: seq<Event>, acts: seq<Action>)
    requires Inv(e, st) && s in e.streams && Legal(e, st, acts) && forall a :: a in acts ==> Foreign(s, a)
    requires Enabled(e, Exec(e, st, acts), Act(s, Put(b, rows)))
    ensures Enabled(e, st, Act(s, Put(b, rows))) && Legal(e, Apply(e, st, Act(s, Put(b, rows))), acts)
    ensures Exec(e, Apply(e, st, Act(s, Put(b, rows))), acts) == Apply(e, Exec(e, st, acts), Act(s, Put(b, rows)))
    decreases |acts|
  {
    hide Inv, Enabled, Apply, Extends, Foreign;
    if acts != [] {
      var a := acts[0];
      assert a in acts && forall x :: x in acts[1..] ==> x in acts;
      StepKeepsInv(e, st, a);
      PutMovesForward(e, Apply(e, st, a), s, b, rows, acts[1..]);
      PutCommutes(e, st, s, b, rows, a);
    }
  }
}
