/** The delivery protocol as a step machine: any number of streams over one state store and one
    lake, interleaved, each able to die at any step. Every choice the environment has (how a log
    grows, where a page is cut, when a flush is due, in which order objects are PUT, when a process
    dies) is an argument of an action, so a statement about all action lists is a statement about
    all runs. */
module Protocol {
  import opened Domain
  import opened StateSpec

  /** What names an object inside a batch: one object for everything, or one per class and day. */
  datatype Bucket = Whole | ClassDay(classUid: int, day: string)

  datatype ObjectKey = ObjectKey(batch: Cursor, bucket: Bucket)

  type Lake = map<ObjectKey, seq<Event>>

  /** What the run cannot change: the opening cursors, where a cursor points and in whose log, the
      calendar, the kind of sink and the dedup window. */
  datatype Env = Env(
    streams: set<Stream>,
    opening: Stream -> Cursor,
    pos: Cursor -> nat,
    owner: Cursor -> Stream,
    day: int -> string,
    oneObject: bool,
    ttl: int)

  ghost predicate WellFormed(e: Env) {
    forall s :: s in e.streams ==> e.owner(e.opening(s)) == s
  }

  /** A served page. `end` is the position after it and `horizon` the log length when it was
      served: history only, no branch reads either. */
  datatype Page = Page(events: seq<Event>, next: Option<Cursor>, end: nat, horizon: nat)

  datatype Phase =
    | Ready
    | Fetched(page: Page)
    | Kept(page: Page, kept: seq<Event>)
    | Written(page: Page)
    | Flushing(page: Page, done: set<Bucket>)
    | Acked(page: Page, sent: seq<Event>)
    | Settled(page: Page)

  datatype Proc =
    | Down
    | Up(cursor: Cursor, batchKey: Cursor, pending: seq<string>, buffer: seq<Event>, phase: Phase)

  /** `logs`, `lake` and `store` are durable, `procs` dies in a crash, and `upto` is history: the
      position each stream has committed past. */
  datatype State = State(
    logs: map<Stream, seq<Event>>,
    lake: Lake,
    store: Store,
    now: int,
    upto: map<Stream, nat>,
    procs: map<Stream, Proc>)

  /** What a live process does next. */
  datatype Move =
    | Fetch(n: nat, next: Option<Cursor>)
    | Filter
    | Publish(ms: int)
    | Write
    | BeginFlush
    | Put(bucket: Bucket, rows: seq<Event>)
    | Ack
    | CommitBatch(version: string)
    | Skip
    | Stamp
    | Advance

  /** `Halt` is a crash, a raised error or a requested stop: the process is gone. */
  datatype Action =
    | Grow(s: Stream, more: seq<Event>)
    | Tick(now: int)
    | PurgeExpired
    | Open(s: Stream)
    | Halt(s: Stream)
    | Act(s: Stream, move: Move)

  // ----- what one batch becomes -----

  function BucketOf(e: Env, ev: Event): Bucket {
    if e.oneObject then Whole else ClassDay(ev.classUid, e.day(ev.timeMs))
  }

  function Targets(e: Env, events: seq<Event>): set<Bucket> {
    if e.oneObject then {Whole} else set ev | ev in events :: BucketOf(e, ev)
  }

  function InBucket(e: Env, events: seq<Event>, b: Bucket): (r: seq<Event>)
    ensures forall ev :: ev in r <==> ev in events && BucketOf(e, ev) == b
    ensures UniqueUids(events) ==> UniqueUids(r)
  {
    if events == [] then []
    else
      var n := |events| - 1;
      var rest := InBucket(e, events[..n], b);
      assert events == events[..n] + [events[n]];
      if BucketOf(e, events[n]) == b then
        assert UniqueUids(events) ==> forall ev :: ev in rest ==> ev.uid != events[n].uid;
        rest + [events[n]]
      else rest
  }

  lemma {:induction false} BucketCount(e: Env, events: seq<Event>, b: Bucket, ev: Event)
    ensures multiset(InBucket(e, events, b))[ev] == if BucketOf(e, ev) == b then multiset(events)[ev] else 0
  {
    hide UniqueUids;
    if events != [] {
      var n := |events| - 1;
      BucketCount(e, events[..n], b, ev);
      assert events == events[..n] + [events[n]];
    }
  }

  /** The first event of each uid in `unseen`: the page-local collapse after the store's filter. */
  function Fresh(events: seq<Event>, unseen: set<string>): (r: seq<Event>)
    ensures forall ev :: ev in r ==> ev in events && ev.uid in unseen
    ensures forall ev :: ev in events && ev.uid in unseen ==> HasUid(r, ev.uid)
    ensures UniqueUids(r)
  {
    if events == [] then []
    else
      var n := |events| - 1;
      var rest := Fresh(events[..n], unseen);
      assert events == events[..n] + [events[n]];
      if events[n].uid in unseen && !HasUid(rest, events[n].uid) then
        var r := rest + [events[n]];
        assert HasUid(r, events[n].uid) by { assert r[|rest|] == events[n]; }
        assert forall u :: HasUid(rest, u) ==> HasUid(r, u) by {
          forall u | HasUid(rest, u) ensures HasUid(r, u) {
            var i :| 0 <= i < |rest| && rest[i].uid == u;
            assert r[i].uid == u;
          }
        }
        r
      else rest
  }

  /** What is left of a page: the store's filter, then the collapse. */
  function Filtered(seen: map<string, int>, now: int, events: seq<Event>): (r: seq<Event>)
    ensures UniqueUids(r) && forall ev :: ev in r ==> ev in events
  {
    Fresh(events, set u | u in Unseen(seen, now, Uids(events)))
  }

  // ----- the machine -----

  function UptoOf(st: State, s: Stream): nat {
    if s in st.upto then st.upto[s] else 0
  }

  function LogOf(st: State, s: Stream): seq<Event> {
    if s in st.logs then st.logs[s] else []
  }

  function ProcOf(st: State, s: Stream): Proc {
    if s in st.procs then st.procs[s] else Down
  }

  function With(st: State, s: Stream, p: Proc): State {
    st.(procs := st.procs[s := p])
  }

  /** Where a stream resumes: its stored cursor, or its opening one. */
  function Start(e: Env, st: State, s: Stream): Cursor {
    match GetCursor(st.store, s)
    case Some(c) => c
    case None => e.opening(s)
  }

  /** A run coming up at its stream's start: it knows nothing but the stored cursor. */
  function Opened(e: Env, st: State, s: Stream): State {
    With(st, s, Up(Start(e, st, s), Start(e, st, s), [], [], Ready))
  }

  predicate CanMove(e: Env, st: State, s: Stream, m: Move) {
    ProcOf(st, s).Up? &&
    var p := ProcOf(st, s);
    match m
    case Fetch(n, next) =>
      && p.phase.Ready?
      && e.pos(p.cursor) + n <= |LogOf(st, s)|
      && (next.Some? ==> e.owner(next.value) == s && e.pos(next.value) == e.pos(p.cursor) + n)
    case Filter => p.phase.Fetched?
    case Publish(ms) => p.phase.Kept?
    case Write => p.phase.Kept?
    case BeginFlush => p.phase.Written? && (p.phase.page.next.None? || e.oneObject || p.buffer != [])
    case Put(b, rows) =>
      && p.phase.Flushing?
      && b in Targets(e, p.buffer) - p.phase.done
      && multiset(rows) == multiset(InBucket(e, p.buffer, b))
    case Ack => p.phase.Flushing? && p.phase.done == Targets(e, p.buffer)
    case CommitBatch(version) => p.phase.Acked?
    case Skip => p.phase.Written? && p.phase.page.next.Some?
    case Stamp =>
      && p.phase.Settled? && p.phase.page.next.Some?
      && p.phase.page.events == [] && p.pending == []
    case Advance => p.phase.Settled? && p.phase.page.next.Some?
  }

  /** The process after its move. */
  function ProcAfter(e: Env, st: State, s: Stream, m: Move): Proc
    requires CanMove(e, st, s, m)
  {
    var p := ProcOf(st, s);
    match m
    case Fetch(n, next) =>
      var at := e.pos(p.cursor);
      Up(p.cursor, p.batchKey, p.pending, p.buffer,
         Fetched(Page(LogOf(st, s)[at..at + n], next, at + n, |LogOf(st, s)|)))
    case Filter =>
      var events := p.phase.page.events;
      Up(p.cursor, p.batchKey, p.pending, p.buffer, Kept(p.phase.page, Filtered(st.store.seen, st.now, events)))
    case Write =>
      Up(p.cursor, p.batchKey, p.pending + Uids(p.phase.kept), p.buffer + p.phase.kept, Written(p.phase.page))
    case BeginFlush => Up(p.cursor, p.batchKey, p.pending, p.buffer, Flushing(p.phase.page, {}))
    case Put(b, rows) =>
      Up(p.cursor, p.batchKey, p.pending, p.buffer, Flushing(p.phase.page, p.phase.done + {b}))
    case Ack => Up(p.cursor, p.batchKey, p.pending, [], Acked(p.phase.page, p.buffer))
    case CommitBatch(version) =>
      var page := p.phase.page;
      Up(p.cursor, if page.next.Some? then page.next.value else p.batchKey, [], p.buffer, Settled(page))
    case Skip => Up(p.cursor, p.batchKey, p.pending, p.buffer, Settled(p.phase.page))
    case Advance => Up(p.phase.page.next.value, p.batchKey, p.pending, p.buffer, Ready)
    case _ => p
  }

  ghost function LakeAfter(e: Env, st: State, s: Stream, m: Move): Lake
    requires CanMove(e, st, s, m)
  {
    if m.Put? then st.lake[ObjectKey(ProcOf(st, s).batchKey, m.bucket) := m.rows] else st.lake
  }

  ghost function StoreAfter(e: Env, st: State, s: Stream, m: Move): Store
    requires CanMove(e, st, s, m)
  {
    if m.Publish? then RecordPublished(st.store, s, m.ms)
    else if m.CommitBatch? then
      Commit(st.store, st.now, e.ttl, s, ProcOf(st, s).phase.page.next, ProcOf(st, s).pending, m.version)
    else if m.Stamp? then MarkCaughtUp(st.store, st.now, s)
    else st.store
  }

  ghost function UptoAfter(e: Env, st: State, s: Stream, m: Move): map<Stream, nat>
    requires CanMove(e, st, s, m)
  {
    if m.CommitBatch? then st.upto[s := ProcOf(st, s).phase.page.end] else st.upto
  }

  ghost function Moved(e: Env, st: State, s: Stream, m: Move): State
    requires CanMove(e, st, s, m)
  {
    State(st.logs, LakeAfter(e, st, s, m), StoreAfter(e, st, s, m), st.now, UptoAfter(e, st, s, m),
          st.procs[s := ProcAfter(e, st, s, m)])
  }

  /** Opening is refused to a finished range: a stream name is not reused after completion. */
  ghost predicate Enabled(e: Env, st: State, a: Action) {
    match a
    case Grow(s, more) => s in e.streams
    case Tick(now) => st.now <= now
    case PurgeExpired => true
    case Open(s) => s in e.streams && ProcOf(st, s).Down? && !Finished(st.store, s)
    case Halt(s) => s in e.streams
    case Act(s, m) => s in e.streams && CanMove(e, st, s, m)
  }

  ghost function Apply(e: Env, st: State, a: Action): State
    requires Enabled(e, st, a)
  {
    match a
    case Grow(s, more) => st.(logs := st.logs[s := LogOf(st, s) + more])
    case Tick(now) => st.(now := now)
    case PurgeExpired => st.(store := Purge(st.store, st.now))
    case Open(s) => Opened(e, st, s)
    case Halt(s) => With(st, s, Down)
    case Act(s, m) => Moved(e, st, s, m)
  }

  ghost predicate Legal(e: Env, st: State, acts: seq<Action>)
    decreases |acts|
  {
    acts == [] || (Enabled(e, st, acts[0]) && Legal(e, Apply(e, st, acts[0]), acts[1..]))
  }

  ghost function Exec(e: Env, st: State, acts: seq<Action>): State
    requires Legal(e, st, acts)
    decreases |acts|
  {
    if acts == [] then st else Exec(e, Apply(e, st, acts[0]), acts[1..])
  }

  /** A run begins with logs of any length, an empty lake and an empty store. */
  ghost predicate Init(e: Env, st: State) {
    && WellFormed(e)
    && st.lake == map[] && st.store == EmptyStore
    && st.logs.Keys == st.upto.Keys == st.procs.Keys == e.streams
    && (forall s :: s in e.streams ==>
          st.procs[s].Down? && st.upto[s] == e.pos(e.opening(s)) && st.upto[s] <= |st.logs[s]|)
  }

  // ----- delivery -----

  /** A key is closed once its stream has committed past it: its object is final. */
  ghost predicate Closed(e: Env, st: State, k: ObjectKey) {
    e.pos(k.batch) < UptoOf(st, e.owner(k.batch))
  }

  ghost predicate RowAt(lake: Lake, k: ObjectKey, i: int, uid: string) {
    k in lake && 0 <= i < |lake[k]| && lake[k][i].uid == uid
  }

  ghost predicate Delivered(e: Env, st: State, uid: string) {
    exists k, i :: RowAt(st.lake, k, i, uid) && Closed(e, st, k)
  }

  /** How durable state may change: logs and committed positions only grow, final objects stay. */
  ghost predicate Extends(e: Env, st: State, st': State) {
    && st.now <= st'.now
    && (forall s :: LogOf(st, s) <= LogOf(st', s))
    && (forall s :: UptoOf(st, s) <= UptoOf(st', s))
    && (forall k :: k in st.lake && Closed(e, st, k) ==> k in st'.lake && st'.lake[k] == st.lake[k])
  }

  lemma DeliveredStays(e: Env, st: State, st': State, uid: string)
    requires Extends(e, st, st') && Delivered(e, st, uid)
    ensures Delivered(e, st', uid)
  {
    var k, i :| RowAt(st.lake, k, i, uid) && Closed(e, st, k);
    assert RowAt(st'.lake, k, i, uid);
  }

  // ----- the invariant -----

  /** How far a process has read into its buffer. */
  function Reached(e: Env, p: Proc): nat
    requires p.Up?
  {
    match p.phase
    case Ready => e.pos(p.cursor)
    case Fetched(_) => e.pos(p.cursor)
    case Kept(_, _) => e.pos(p.cursor)
    case _ => p.phase.page.end
  }

  /** The rows of the open batch: buffered, or flushed and not yet committed. */
  function Held(p: Proc): seq<Event>
    requires p.Up?
  {
    if p.phase.Acked? then p.phase.sent else p.buffer
  }

  /** A stream starts at its committed position, inside its log, until its range is finished. */
  ghost predicate StreamOk(e: Env, st: State, s: Stream) {
    && e.pos(e.opening(s)) <= UptoOf(st, s) <= |LogOf(st, s)|
    && e.owner(Start(e, st, s)) == s
    && (!Finished(st.store, s) ==> e.pos(Start(e, st, s)) == UptoOf(st, s))
  }

  /** Nothing is written before a stream's opening, or past where it has committed. */
  ghost predicate KeyOk(e: Env, st: State, k: ObjectKey) {
    && e.owner(k.batch) in e.streams
    && e.pos(e.opening(e.owner(k.batch))) <= e.pos(k.batch) <= UptoOf(st, e.owner(k.batch))
  }

  ghost predicate Base(e: Env, st: State) {
    && WellFormed(e)
    && st.logs.Keys == st.upto.Keys == st.procs.Keys == e.streams
    && (forall s :: s in e.streams ==> StreamOk(e, st, s))
    && (forall k :: k in st.lake ==> KeyOk(e, st, k))
  }

  /** Every row is an event of the log its key belongs to, from where the key points on. */
  ghost predicate RowsFromLogs(e: Env, st: State) {
    forall k, ev :: k in st.lake && ev in st.lake[k] ==>
      InRange(LogOf(st, e.owner(k.batch)), e.pos(k.batch), |LogOf(st, e.owner(k.batch))|, ev)
  }

  ghost predicate CommittedDelivered(e: Env, st: State) {
    forall s, i :: s in e.streams && e.pos(e.opening(s)) <= i < UptoOf(st, s) && i < |LogOf(st, s)| ==>
      Delivered(e, st, LogOf(st, s)[i].uid)
  }

  ghost predicate SeenDelivered(e: Env, st: State) {
    forall u :: u in st.store.seen ==> Delivered(e, st, u)
  }

  ghost predicate PageOk(e: Env, st: State, s: Stream, cursor: Cursor, page: Page) {
    && e.pos(cursor) <= page.end <= page.horizon <= |LogOf(st, s)|
    && page.events == LogOf(st, s)[e.pos(cursor)..page.end]
    && (page.next.Some? ==> e.owner(page.next.value) == s && e.pos(page.next.value) == page.end)
  }

  /** Events `lo..hi` of a log are each held by the process or already in a final object. */
  ghost predicate Covered(e: Env, st: State, log: seq<Event>, lo: int, hi: int, held: seq<Event>) {
    forall i :: lo <= i < hi && 0 <= i < |log| ==> HasUid(held, log[i].uid) || Delivered(e, st, log[i].uid)
  }

  ghost predicate InRange(log: seq<Event>, lo: int, hi: int, ev: Event) {
    exists i :: lo <= i < hi && 0 <= i < |log| && log[i] == ev
  }

  /** Every held event sits in `lo..hi` of the log. */
  ghost predicate Drawn(log: seq<Event>, lo: int, hi: int, held: seq<Event>) {
    forall ev :: ev in held ==> InRange(log, lo, hi, ev)
  }

  ghost predicate Stored(e: Env, st: State, key: Cursor, batch: seq<Event>, b: Bucket) {
    && ObjectKey(key, b) in st.lake
    && multiset(st.lake[ObjectKey(key, b)]) == multiset(InBucket(e, batch, b))
  }

  ghost predicate PhaseOk(e: Env, st: State, s: Stream, p: Proc)
    requires p.Up?
  {
    match p.phase
    case Ready => true
    case Kept(page, kept) =>
      && Covered(e, st, LogOf(st, s), e.pos(p.cursor), page.end, kept)
      && Drawn(LogOf(st, s), e.pos(p.cursor), page.end, kept)
    case Flushing(page, done) =>
      && done <= Targets(e, p.buffer)
      && (page.next.None? || e.oneObject || p.buffer != [])
      && forall b :: b in done ==> Stored(e, st, p.batchKey, p.buffer, b)
    case Acked(page, sent) =>
      && p.buffer == []
      && (page.next.None? || e.oneObject || sent != [])
      && forall b :: b in Targets(e, sent) ==> Stored(e, st, p.batchKey, sent, b)
    case _ => true
  }

  /** The open-key invariant of one live process. */
  ghost predicate ProcOk(e: Env, st: State, s: Stream) {
    ProcOf(st, s).Up? ==>
      var p := ProcOf(st, s);
      && (p.phase.Ready? || PageOk(e, st, s, p.cursor, p.phase.page))
      && e.pos(p.cursor) <= |LogOf(st, s)|
      && (if Finished(st.store, s) then
            p.phase.Settled? && p.phase.page.next.None? && p.pending == [] && p.buffer == []
          else
            && p.batchKey == Start(e, st, s)
            && (p.phase.Settled? ==> p.phase.page.next.Some?)
            && UptoOf(st, s) <= Reached(e, p))
      && p.pending == Uids(Held(p))
      && Covered(e, st, LogOf(st, s), UptoOf(st, s), Reached(e, p), Held(p))
      && Drawn(LogOf(st, s), UptoOf(st, s), Reached(e, p), Held(p))
      && PhaseOk(e, st, s, p)
  }

  ghost predicate Inv(e: Env, st: State) {
    && Base(e, st)
    && RowsFromLogs(e, st)
    && CommittedDelivered(e, st)
    && SeenDelivered(e, st)
    && (forall s :: s in e.streams ==> ProcOk(e, st, s))
  }
}
