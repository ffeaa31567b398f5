/** A run as a run of the machine: the steps it has taken, and what they add up to. */
module RunTrace {
  import opened Domain
  import opened StateSpec
  import opened Protocol
  import opened Backfill
  import opened Neighbours

  datatype Trace = Trace(start: State, acts: seq<Action>, now: State)

  ghost predicate Recorded(e: Env, tr: Trace) {
    Legal(e, tr.start, tr.acts) && Exec(e, tr.start, tr.acts) == tr.now
  }

  // ----- what a run has done to a stream's events -----

  /** How many events a step of `s` takes on to its filter: all of the page fetched. */
  ghost function MappedBy(s: Stream, st: State, a: Action): nat {
    if a == Act(s, Filter) && ProcOf(st, s).Up? && ProcOf(st, s).phase.Fetched? then |ProcOf(st, s).phase.page.events| else 0
  }

  /** How many events a step of `s` puts into its batch: those of the page that were kept. */
  ghost function WrittenBy(s: Stream, st: State, a: Action): nat {
    if a == Act(s, Write) && ProcOf(st, s).Up? && ProcOf(st, s).phase.Kept? then |ProcOf(st, s).phase.kept| else 0
  }

  ghost function MappedIn(e: Env, s: Stream, st: State, acts: seq<Action>): nat
    requires Legal(e, st, acts)
    decreases |acts|
  {
    if acts == [] then 0 else MappedBy(s, st, acts[0]) + MappedIn(e, s, Apply(e, st, acts[0]), acts[1..])
  }

  ghost function WrittenIn(e: Env, s: Stream, st: State, acts: seq<Action>): nat
    requires Legal(e, st, acts)
    decreases |acts|
  {
    if acts == [] then 0 else WrittenBy(s, st, acts[0]) + WrittenIn(e, s, Apply(e, st, acts[0]), acts[1..])
  }

  /** Of one stream: pages fetched, events taken on, events put into a batch, and batches committed. */
  datatype Tally = Tally(pages: nat, mapped: nat, written: nat, commits: nat)

  ghost function TallyOf(e: Env, s: Stream, tr: Trace): Tally
    requires Recorded(e, tr)
  {
    Tally(Fetches(s, tr.acts), MappedIn(e, s, tr.start, tr.acts), WrittenIn(e, s, tr.start, tr.acts), CommitsIn(s, tr.acts))
  }

  /** What one more step adds. */
  ghost function Added(t: Tally, s: Stream, st: State, a: Action): Tally {
    Tally(t.pages + if IsFetch(s, a) then 1 else 0, t.mapped + MappedBy(s, st, a),
          t.written + WrittenBy(s, st, a), t.commits + if Commits(s, a) then 1 else 0)
  }

  lemma {:induction false} StepLast(e: Env, s: Stream, st: State, acts: seq<Action>, a: Action)
    requires Legal(e, st, acts) && Enabled(e, Exec(e, st, acts), a)
    ensures var mid := Exec(e, st, acts);
      && Legal(e, st, acts + [a]) && Exec(e, st, acts + [a]) == Apply(e, mid, a)
      && MappedIn(e, s, st, acts + [a]) == MappedIn(e, s, st, acts) + MappedBy(s, mid, a)
      && WrittenIn(e, s, st, acts + [a]) == WrittenIn(e, s, st, acts) + WrittenBy(s, mid, a)
    decreases |acts|
  {
    hide Enabled, Apply, MappedBy, WrittenBy;
    if acts == [] {
      assert (acts + [a])[1..] == [];
    } else {
      StepLast(e, s, Apply(e, st, acts[0]), acts[1..], a);
      assert (acts + [a])[0] == acts[0] && (acts + [a])[1..] == acts[1..] + [a];
    }
  }

  lemma TallyLast(e: Env, s: Stream, tr: Trace, a: Action)
    requires Recorded(e, tr) && Enabled(e, tr.now, a)
    ensures var tr' := Trace(tr.start, tr.acts + [a], Apply(e, tr.now, a));
      Recorded(e, tr') && TallyOf(e, s, tr') == Added(TallyOf(e, s, tr), s, tr.now, a)
  {
    hide Enabled, Apply, MappedBy, WrittenBy;
    StepLast(e, s, tr.start, tr.acts, a);
    FetchesLast(s, tr.acts, a);
    CommitsLast(s, tr.acts, a);
  }

  /** One more step. */
  lemma Then(e: Env, tr: Trace, a: Action) returns (tr': Trace)
    requires Recorded(e, tr) && Enabled(e, tr.now, a)
    ensures Recorded(e, tr') && tr'.start == tr.start && tr'.acts == tr.acts + [a]
    ensures tr'.now == Apply(e, tr.now, a)
    ensures forall s :: TallyOf(e, s, tr') == Added(TallyOf(e, s, tr), s, tr.now, a)
    ensures forall s, w :: Beside(s, w, tr.now) && Own(s, a) ==> Beside(s, w, tr'.now)
  {
    hide Enabled, Apply, TallyOf, Added, Recorded;
    forall s, w | Beside(s, w, tr.now) && Own(s, a) ensures Beside(s, w, Apply(e, tr.now, a)) {
      BesideStays(e, s, w, tr.now, a);
    }
    tr' := Trace(tr.start, tr.acts + [a], Apply(e, tr.now, a));
    TallyLast(e, "", tr, a);
    forall s ensures TallyOf(e, s, tr') == Added(TallyOf(e, s, tr), s, tr.now, a) {
      TallyLast(e, s, tr, a);
    }
  }
}
