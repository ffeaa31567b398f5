/** Whole traces of store operations on one clock: the two stores answer alike, and reclaiming
    expired uids is never observed. */
module StoreTraces {
  import opened Domain
  import opened StateSpec
  import opened StateStores

  datatype Op =
    | DoCommit(stream: Stream, cursor: Option<Cursor>, uids: seq<string>, version: string)
    | DoMark(stream: Stream)
    | DoPublish(stream: Stream, ms: int)
    | DoPurge
    | AskCursor(stream: Stream)
    | AskAge(stream: Stream)
    | AskUnseen(uids: seq<string>)
    | AskVersion(stream: Stream)
    | AskPublished(stream: Stream)
    | AskCommitted(stream: Stream)

  datatype Timed = Timed(at: int, op: Op)

  datatype Answer =
    | Nothing
    | ACursor(cursor: Option<Cursor>)
    | AnAge(age: Option<int>)
    | SomeUids(uids: seq<string>)
    | AVersion(version: Option<string>)
    | ATime(ms: Option<int>)
    | Yes(b: bool)
    | Count(n: int)

  function After(st: Store, ttl: int, t: Timed): Store {
    match t.op
    case DoCommit(stream, cursor, uids, version) => Commit(st, t.at, ttl, stream, cursor, uids, version)
    case DoMark(stream) => MarkCaughtUp(st, t.at, stream)
    case DoPublish(stream, ms) => RecordPublished(st, stream, ms)
    case DoPurge => Purge(st, t.at)
    case _ => st
  }

  function Reply(st: Store, t: Timed): Answer {
    match t.op
    case DoPurge => Count(|st.seen| - |Purge(st, t.at).seen|)
    case AskCursor(stream) => ACursor(GetCursor(st, stream))
    case AskAge(stream) => AnAge(CaughtUpAge(st, t.at, stream))
    case AskUnseen(uids) => SomeUids(Unseen(st.seen, t.at, uids))
    case AskVersion(stream) => AVersion(RowOf(st, stream).version)
    case AskPublished(stream) => ATime(RowOf(st, stream).published)
    case AskCommitted(stream) => Yes(RowOf(st, stream).committed)
    case _ => Nothing
  }

  function Replies(st: Store, ttl: int, trace: seq<Timed>): seq<Answer>
    decreases |trace|
  {
    if trace == [] then [] else [Reply(st, trace[0])] + Replies(After(st, ttl, trace[0]), ttl, trace[1..])
  }

  // ----- purging is invisible -----

  /** The replies to everything but the purges. */
  function Observed(st: Store, ttl: int, trace: seq<Timed>): seq<Answer>
    decreases |trace|
  {
    if trace == [] then []
    else
      (if trace[0].op.DoPurge? then [] else [Reply(st, trace[0])]) + Observed(After(st, ttl, trace[0]), ttl, trace[1..])
  }

  function WithoutPurges(trace: seq<Timed>): seq<Timed> {
    if trace == [] then []
    else (if trace[0].op.DoPurge? then [] else [trace[0]]) + WithoutPurges(trace[1..])
  }

  predicate Ordered(trace: seq<Timed>, since: int) {
    trace == [] || (since <= trace[0].at && Ordered(trace[1..], trace[0].at))
  }

  /** Two stores nobody can tell apart from `now` on. */
  predicate Alike(a: Store, b: Store, now: int) {
    && a.rows == b.rows
    && (forall u :: u in a.seen && a.seen[u] > now ==> u in b.seen && b.seen[u] == a.seen[u])
    && (forall u :: u in b.seen && b.seen[u] > now ==> u in a.seen && a.seen[u] == b.seen[u])
  }

  lemma UnseenAlike(a: map<string, int>, b: map<string, int>, now: int, uids: seq<string>)
    requires forall u :: Live(a, now, u) <==> Live(b, now, u)
    ensures Unseen(a, now, uids) == Unseen(b, now, uids)
    decreases |uids|
  {
    if uids != [] {
      UnseenAlike(a, b, now, uids[..|uids| - 1]);
    }
  }

  lemma AlikeCommit(a: Store, b: Store, ttl: int, since: int, t: Timed)
    requires Alike(a, b, since) && since <= t.at && t.op.DoCommit?
    ensures Alike(After(a, ttl, t), After(b, ttl, t), t.at)
  {
    var a', b' := After(a, ttl, t), After(b, ttl, t);
    forall u | u in a'.seen && a'.seen[u] > t.at ensures u in b'.seen && b'.seen[u] == a'.seen[u] {
    }
    forall u | u in b'.seen && b'.seen[u] > t.at ensures u in a'.seen && a'.seen[u] == b'.seen[u] {
    }
  }

  lemma AlikeAfter(a: Store, b: Store, ttl: int, since: int, t: Timed)
    requires Alike(a, b, since) && since <= t.at && !t.op.DoPurge?
    ensures Reply(a, t) == Reply(b, t) && Alike(After(a, ttl, t), After(b, ttl, t), t.at)
  {
    match t.op
    case AskUnseen(uids) => UnseenAlike(a.seen, b.seen, t.at, uids);
    case DoCommit(_, _, _, _) => AlikeCommit(a, b, ttl, since, t);
    case DoMark(_) =>
    case _ =>
  }

  lemma {:induction false} AlikeReplies(a: Store, b: Store, ttl: int, since: int, trace: seq<Timed>)
    requires Alike(a, b, since) && Ordered(trace, since)
    ensures Observed(a, ttl, trace) == Replies(b, ttl, WithoutPurges(trace))
    decreases |trace|
  {
    if trace != [] {
      var t, rest := trace[0], trace[1..];
      if t.op.DoPurge? {
        AlikeReplies(After(a, ttl, t), b, ttl, t.at, rest);
        assert WithoutPurges(trace) == WithoutPurges(rest);
      } else {
        AlikeAfter(a, b, ttl, since, t);
        AlikeReplies(After(a, ttl, t), After(b, ttl, t), ttl, t.at, rest);
        assert WithoutPurges(trace)[0] == t && WithoutPurges(trace)[1..] == WithoutPurges(rest);
      }
    }
  }

  /** Whatever purges a trace holds, wherever they fall, every other operation gets the answer it
      would get from the same trace with the purges taken out. */
  lemma PurgeIsInvisible(st: Store, ttl: int, since: int, trace: seq<Timed>)
    requires Ordered(trace, since)
    ensures Observed(st, ttl, trace) == Replies(st, ttl, WithoutPurges(trace))
  {
    AlikeReplies(st, st, ttl, since, trace);
  }

  /** On a clock that runs backwards the purge is visible: it forgets a uid that is live again. */
  lemma PurgeNeedsAForwardClock()
    ensures exists st: Store, trace ::
      !Ordered(trace, 10) && Observed(st, 0, trace) != Replies(st, 0, WithoutPurges(trace))
  {
    var st := Store(map[], map["u" := 5]);
    var purge, ask := Timed(10, DoPurge), Timed(1, AskUnseen(["u"]));
    var trace := [purge, ask];
    assert trace[1..] == [ask] && trace[1..][1..] == [];
    assert !Ordered(trace, 10) by {
      assert !Ordered(trace[1..], 10);
    }
    assert WithoutPurges(trace) == [ask] by {
      assert WithoutPurges([ask]) == [ask] + WithoutPurges([]);
    }
    assert Purge(st, 10).seen == map[];
    assert Observed(st, 0, trace) == [SomeUids(Unseen(map[], 1, ["u"]))] by {
      assert Observed(Purge(st, 10), 0, [ask]) == [Reply(Purge(st, 10), ask)] + Observed(Purge(st, 10), 0, []);
    }
    assert Replies(st, 0, [ask]) == [SomeUids(Unseen(st.seen, 1, ["u"]))] + Replies(st, 0, []);
    assert ["u"][..0] == [] && ["u"][0] == "u";
    assert Unseen(map[], 1, ["u"]) == ["u"];
    assert Unseen(st.seen, 1, ["u"]) == [] by {
      assert Live(st.seen, 1, "u");
    }
    assert Observed(st, 0, trace)[0] != Replies(st, 0, WithoutPurges(trace))[0];
  }

  // ----- both stores under one trace -----

  method DoMemory(store: InMemoryStateStore, t: Timed) returns (answer: Answer)
    modifies store
    ensures store.Contents() == After(old(store.Contents()), store.ttl, t)
    ensures answer == Reply(old(store.Contents()), t)
  {
    answer := Nothing;
    match t.op
    case DoCommit(stream, cursor, uids, version) => store.Commit(t.at, stream, cursor, uids, version);
    case DoMark(stream) => store.MarkCaughtUp(t.at, stream);
    case DoPublish(stream, ms) => store.RecordPublished(stream, ms);
    case DoPurge =>
      var n := store.PurgeExpired(t.at);
      answer := Count(n);
    case AskUnseen(uids) =>
      var unseen := store.FilterUnseen(t.at, uids);
      answer := SomeUids(unseen);
    case AskCursor(stream) =>
      var cursor := store.GetCursor(stream);
      answer := ACursor(cursor);
    case AskAge(stream) =>
      var age := store.CaughtUpAge(t.at, stream);
      answer := AnAge(age);
    case AskVersion(stream) =>
      var version := store.GetMappingVersion(stream);
      answer := AVersion(version);
    case AskPublished(stream) =>
      var ms := store.GetLastPublished(stream);
      answer := ATime(ms);
    case AskCommitted(stream) =>
      var b := store.HasCommitted(stream);
      answer := Yes(b);
  }

  /** Any operation that reaches the file may fail; then a statement of it did, the store is unchanged and
      nothing is answered. */
  method DoSqlite(store: SqliteStateStore, t: Timed) returns (ok: bool, answer: Answer)
    requires store.Valid() && (t.op.DoPublish? ==> t.op.ms > 0)
    modifies store
    ensures store.Valid()
    ensures store.Contents() == if ok then After(old(store.Contents()), store.ttl, t) else old(store.Contents())
    ensures ok ==> answer == Reply(old(store.Contents()), t)
    ensures store.faults == old(store.faults) + if ok then 0 else 1
  {
    ok, answer := true, Nothing;
    match t.op
    case DoCommit(stream, cursor, uids, version) => ok := store.Commit(t.at, stream, cursor, uids, version);
    case DoMark(stream) => ok := store.MarkCaughtUp(t.at, stream);
    case DoPublish(stream, ms) =>
      PublishedAgree(store.Contents(), stream, ms);
      ok := store.RecordPublished(stream, ms);
    case DoPurge =>
      var n;
      ok, n := store.PurgeExpired(t.at);
      answer := Count(n);
    case AskUnseen(uids) =>
      var unseen;
      ok, unseen := store.FilterUnseen(t.at, uids);
      answer := SomeUids(unseen);
    case AskCursor(stream) =>
      var cursor;
      ok, cursor := store.GetCursor(stream);
      answer := ACursor(cursor);
    case AskAge(stream) =>
      var age;
      ok, age := store.CaughtUpAge(t.at, stream);
      answer := AnAge(age);
    case AskVersion(stream) =>
      var version;
      ok, version := store.GetMappingVersion(stream);
      answer := AVersion(version);
    case AskPublished(stream) =>
      var ms;
      ok, ms := store.GetLastPublished(stream);
      answer := ATime(ms);
    case AskCommitted(stream) =>
      var b := store.HasCommitted(stream);
      answer := Yes(b);
  }

  /** The operations of a trace that did not fail, in order. */
  function Succeeded(trace: seq<Timed>, oks: seq<bool>): seq<Timed>
    requires |trace| == |oks|
  {
    if trace == [] then []
    else
      var n := |trace| - 1;
      Succeeded(trace[..n], oks[..n]) + if oks[n] then [trace[n]] else []
  }

  lemma SucceededLast(trace: seq<Timed>, n: nat, oks: seq<bool>, ok: bool)
    requires n < |trace| && |oks| == n
    ensures Succeeded(trace[..n + 1], oks + [ok]) ==
      if ok then Succeeded(trace[..n], oks) + [trace[n]] else Succeeded(trace[..n], oks)
  {
    assert trace[..n + 1][..n] == trace[..n] && (oks + [ok])[..n] == oks;
  }

  /** How many of the operations failed. */
  function Failures(oks: seq<bool>): nat {
    if oks == [] then 0 else Failures(oks[..|oks| - 1]) + if oks[|oks| - 1] then 0 else 1
  }

  /** Refinement over whole traces, whichever operations fail: started alike, and given the operations
      the durable store did not fail, the in-memory store gives the same answers and ends alike. A
      failing operation changes nothing that any later one can see. */
  method RunBoth(memory: InMemoryStateStore, sqlite: SqliteStateStore, trace: seq<Timed>)
    returns (fromMemory: seq<Answer>, fromSqlite: seq<Answer>, oks: seq<bool>)
    requires sqlite.Valid() && memory.Contents() == sqlite.Contents() && memory.ttl == sqlite.ttl
    requires forall i :: 0 <= i < |trace| && trace[i].op.DoPublish? ==> trace[i].op.ms > 0
    modifies memory, sqlite
    ensures |oks| == |trace| && sqlite.faults - old(sqlite.faults) == Failures(oks)
    ensures fromMemory == fromSqlite == Replies(old(memory.Contents()), memory.ttl, Succeeded(trace, oks))
    ensures sqlite.Valid() && memory.Contents() == sqlite.Contents()
    ensures sqlite.Contents() == Run(old(memory.Contents()), memory.ttl, Succeeded(trace, oks))
  {
    fromMemory, fromSqlite, oks := [], [], [];
    for n := 0 to |trace|
      invariant |oks| == n && sqlite.faults - old(sqlite.faults) == Failures(oks)
      invariant sqlite.Valid() && memory.Contents() == sqlite.Contents()
      invariant fromMemory == fromSqlite == Replies(old(memory.Contents()), memory.ttl, Succeeded(trace[..n], oks))
      invariant memory.Contents() == Run(old(memory.Contents()), memory.ttl, Succeeded(trace[..n], oks))
    {
      var ok, b := DoSqlite(sqlite, trace[n]);
      ghost var before := Succeeded(trace[..n], oks);
      SucceededLast(trace, n, oks, ok);
      assert (oks + [ok])[..n] == oks;
      oks := oks + [ok];
      if ok {
        var a := DoMemory(memory, trace[n]);
        RunOneMore(old(memory.Contents()), memory.ttl, before, trace[n]);
        ReplyOneMore(old(memory.Contents()), memory.ttl, before, trace[n]);
        fromMemory, fromSqlite := fromMemory + [a], fromSqlite + [b];
      }
    }
    assert trace[..|trace|] == trace;
  }

  function Run(st: Store, ttl: int, trace: seq<Timed>): Store
    decreases |trace|
  {
    if trace == [] then st else Run(After(st, ttl, trace[0]), ttl, trace[1..])
  }

  lemma {:induction false} RunOneMore(st: Store, ttl: int, trace: seq<Timed>, t: Timed)
    ensures Run(st, ttl, trace + [t]) == After(Run(st, ttl, trace), ttl, t)
    decreases |trace|
  {
    if trace == [] {
      assert (trace + [t])[1..] == [];
    } else {
      RunOneMore(After(st, ttl, trace[0]), ttl, trace[1..], t);
      assert (trace + [t])[1..] == trace[1..] + [t];
    }
  }

  lemma {:induction false} ReplyOneMore(st: Store, ttl: int, trace: seq<Timed>, t: Timed)
    ensures Replies(st, ttl, trace + [t]) == Replies(st, ttl, trace) + [Reply(Run(st, ttl, trace), t)]
    decreases |trace|
  {
    if trace == [] {
      assert trace + [t] == [t] && [t][1..] == [];
    } else {
      var st', rest := After(st, ttl, trace[0]), trace[1..];
      ReplyOneMore(st', ttl, rest, t);
      assert (trace + [t])[0] == trace[0] && (trace + [t])[1..] == rest + [t];
      assert Run(st, ttl, trace) == Run(st', ttl, rest);
    }
  }
}
