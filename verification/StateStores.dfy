/** The two state stores, each updated in place and each proved against the one specification. A
    clock reading is an argument: the source injects the clock. Every call on the durable store that
    reaches its file may fail, and then leaves it as it was. */
module StateStores {
  import opened Domain
  import opened StateSpec

  class InMemoryStateStore {
    const ttl: int
    var streams: map<Stream, Row>
    var seen: map<string, int>

    function Contents(): Store reads this { Store(streams, seen) }

    constructor (ttl: int)
      ensures Contents() == EmptyStore && this.ttl == ttl
    {
      this.ttl, streams, seen := ttl, map[], map[];
    }

    method GetCursor(stream: Stream) returns (cursor: Option<Cursor>)
      ensures cursor == StateSpec.GetCursor(Contents(), stream)
    {
      cursor := if stream in streams then streams[stream].cursor else None;
    }

    method CaughtUpAge(now: int, stream: Stream) returns (age: Option<int>)
      ensures age == StateSpec.CaughtUpAge(Contents(), now, stream)
    {
      if stream !in streams || streams[stream].caughtUpAt.None? {
        return None;
      }
      age := Some(now - streams[stream].caughtUpAt.value);
    }

    method GetMappingVersion(stream: Stream) returns (version: Option<string>)
      ensures version == RowOf(Contents(), stream).version
    {
      version := if stream in streams then streams[stream].version else None;
    }

    method GetLastPublished(stream: Stream) returns (ms: Option<int>)
      ensures ms == RowOf(Contents(), stream).published
    {
      ms := if stream in streams then streams[stream].published else None;
    }

    method HasCommitted(stream: Stream) returns (b: bool)
      ensures b == RowOf(Contents(), stream).committed
    {
      b := stream in streams && streams[stream].committed;
    }

    method Commit(now: int, stream: Stream, cursor: Option<Cursor>, uids: seq<string>, version: string)
      modifies this
      ensures Contents() == StateSpec.Commit(old(Contents()), now, ttl, stream, cursor, uids, version)
    {
      var row := if stream in streams then streams[stream] else EmptyRow;
      var expiry := now + ttl;
      for i := 0 to |uids|
        invariant streams == old(streams) && seen == MarkAll(old(seen), uids[..i], expiry)
      {
        seen := seen[uids[i] := expiry];
        assert uids[..i + 1] == uids[..i] + [uids[i]];
      }
      assert uids[..|uids|] == uids;
      streams := streams[stream := row.(cursor := cursor, committed := true, version := Some(version),
                                        caughtUpAt := Some(now))];
    }

    method MarkCaughtUp(now: int, stream: Stream)
      modifies this
      ensures Contents() == StateSpec.MarkCaughtUp(old(Contents()), now, stream)
    {
      if stream in streams && streams[stream].committed {
        streams := streams[stream := streams[stream].(caughtUpAt := Some(now))];
      }
    }

    method FilterUnseen(now: int, uids: seq<string>) returns (unseen: seq<string>)
      ensures unseen == Unseen(seen, now, uids)
    {
      unseen := [];
      var withinBatch: set<string> := {};
      for i := 0 to |uids|
        invariant unseen == Unseen(seen, now, uids[..i])
        invariant forall u :: u in withinBatch <==> u in uids[..i] && !Live(seen, now, u)
      {
        assert uids[..i + 1][..i] == uids[..i] && uids[..i + 1][i] == uids[i];
        if uids[i] !in withinBatch && !(uids[i] in seen && seen[uids[i]] > now) {
          withinBatch := withinBatch + {uids[i]};
          unseen := unseen + [uids[i]];
        }
      }
      assert uids[..|uids|] == uids;
    }

    method RecordPublished(stream: Stream, ms: int)
      modifies this
      ensures Contents() == StateSpec.RecordPublished(old(Contents()), stream, ms)
    {
      var row := if stream in streams then streams[stream] else EmptyRow;
      if row.published.None? || ms > row.published.value {
        row := row.(published := Some(ms));
      }
      streams := streams[stream := row];
    }

    method PurgeExpired(now: int) returns (removed: nat)
      modifies this
      ensures Contents() == Purge(old(Contents()), now)
      ensures removed == |old(seen)| - |seen|
    {
      var stale := set u | u in seen && seen[u] <= now;
      var rest;
      rest, removed := DropAll(seen, stale);
      seen := rest;
    }
  }

  /** Deletes the listed keys one at a time, counting them. */
  method DropAll(m: map<string, int>, keys: set<string>) returns (rest: map<string, int>, removed: nat)
    requires keys <= m.Keys
    ensures rest == m - keys && removed == |m| - |rest|
  {
    rest, removed := m, 0;
    var left := keys;
    while left != {}
      invariant left <= rest.Keys && rest - left == m - keys && removed + |rest| == |m|
      decreases |left|
    {
      var key :| key in left;
      RemoveOne(rest, key);
      assert (rest - {key}) - (left - {key}) == rest - left;
      rest := rest - {key};
      left := left - {key};
      removed := removed + 1;
    }
  }

  lemma RemoveOne<K, V>(m: map<K, V>, k: K)
    requires k in m
    ensures |m - {k}| == |m| - 1
  {
    assert (m - {k}).Keys == m.Keys - {k};
    assert |m| == |m.Keys| && |m - {k}| == |(m - {k}).Keys|;
  }

  const PARAMETER_CHUNK := 400

  /** The one statement whose arithmetic differs from the in-memory store:
      `MAX(COALESCE(last, 0), new)` on a row that exists, the bare value on one that does not. */
  function SqlPublished(st: Store, stream: Stream, ms: int): Store {
    var last := if stream in st.rows then st.rows[stream].published else None;
    var newest :=
      if stream !in st.rows then ms
      else
        var floor := if last.Some? then last.value else 0;
        if ms > floor then ms else floor;
    st.(rows := st.rows[stream := RowOf(st, stream).(published := Some(newest))])
  }

  /** The two stores record a publication time alike exactly when the time is not negative, or the
      stream has no row yet, or it already has a time. The runner only ever passes positive ones. */
  lemma PublishedAgree(st: Store, stream: Stream, ms: int)
    ensures SqlPublished(st, stream, ms) == RecordPublished(st, stream, ms)
      <==> (ms >= 0 || stream !in st.rows || st.rows[stream].published.Some?)
  {
    assert SqlPublished(st, stream, ms).rows[stream].published == RecordPublished(st, stream, ms).rows[stream].published
      <==> (ms >= 0 || stream !in st.rows || st.rows[stream].published.Some?);
  }

  function CommittedStreams(rows: map<Stream, Row>): set<Stream> {
    set s | s in rows && rows[s].committed
  }

  /** `committed` mirrors the table so that `HasCommitted` need not read it. */
  class SqliteStateStore {
    const ttl: int
    var streams: map<Stream, Row>
    var seen: map<string, int>
    var committed: set<Stream>
    /** How many statements have failed. */
    ghost var faults: nat

    function Contents(): Store reads `streams, `seen { Store(streams, seen) }

    ghost predicate Valid() reads `streams, `committed { committed == CommittedStreams(streams) }

    /** Opening a database file reads the mirror back from the rows a commit left there. */
    constructor Reopen(ttl: int, file: Store)
      ensures Valid() && Contents() == file && this.ttl == ttl
    {
      this.ttl, streams, seen, faults := ttl, file.rows, file.seen, 0;
      committed := CommittedStreams(file.rows);
    }

    /** One statement, which SQLite may fail at any time. */
    method Statement() returns (ok: bool)
      modifies `faults
      ensures faults == old(faults) + if ok then 0 else 1
    {
      ok := *;
      if !ok {
        faults := faults + 1;
      }
    }

    /** One `SELECT` on a stream's row. */
    method Select(stream: Stream) returns (ok: bool, row: Option<Row>)
      modifies `faults
      ensures faults == old(faults) + if ok then 0 else 1
      ensures ok ==> row == if stream in streams then Some(streams[stream]) else None
    {
      ok := Statement();
      row := if stream in streams then Some(streams[stream]) else None;
    }

    method GetCursor(stream: Stream) returns (ok: bool, cursor: Option<Cursor>)
      modifies `faults
      ensures faults == old(faults) + if ok then 0 else 1
      ensures ok ==> cursor == StateSpec.GetCursor(Contents(), stream)
    {
      var row;
      ok, row := Select(stream);
      cursor := if row.Some? then row.value.cursor else None;
    }

    method CaughtUpAge(now: int, stream: Stream) returns (ok: bool, age: Option<int>)
      modifies `faults
      ensures faults == old(faults) + if ok then 0 else 1
      ensures ok ==> age == StateSpec.CaughtUpAge(Contents(), now, stream)
    {
      var row;
      ok, row := Select(stream);
      if row.None? || row.value.caughtUpAt.None? {
        return ok, None;
      }
      age := Some(now - row.value.caughtUpAt.value);
    }

    method GetMappingVersion(stream: Stream) returns (ok: bool, version: Option<string>)
      modifies `faults
      ensures faults == old(faults) + if ok then 0 else 1
      ensures ok ==> version == RowOf(Contents(), stream).version
    {
      var row;
      ok, row := Select(stream);
      version := if row.Some? then row.value.version else None;
    }

    method GetLastPublished(stream: Stream) returns (ok: bool, ms: Option<int>)
      modifies `faults
      ensures faults == old(faults) + if ok then 0 else 1
      ensures ok ==> ms == RowOf(Contents(), stream).published
    {
      var row;
      ok, row := Select(stream);
      ms := if row.Some? then row.value.published else None;
    }

    /** Answered from the mirror, so it cannot fail. */
    method HasCommitted(stream: Stream) returns (b: bool)
      requires Valid()
      ensures b == RowOf(Contents(), stream).committed
    {
      b := stream in committed;
    }

    /** One transaction: any statement may fail, and then nothing was written. */
    method Commit(now: int, stream: Stream, cursor: Option<Cursor>, uids: seq<string>, version: string)
      returns (ok: bool)
      requires Valid()
      modifies this
      ensures Valid() && faults == old(faults) + if ok then 0 else 1
      ensures ok ==> Contents() == StateSpec.Commit(old(Contents()), now, ttl, stream, cursor, uids, version)
      ensures !ok ==> Contents() == old(Contents()) && committed == old(committed)
    {
      var expiresAt := now + ttl;
      var streamsBefore, seenBefore := streams, seen;
      ok := Statement();
      if ok {
        var row := if stream in streams then streams[stream] else EmptyRow;
        streams := streams[stream := row.(cursor := cursor, committed := true, version := Some(version),
                                          caughtUpAt := Some(now))];
        ok := InsertSeen(uids, expiresAt);
      }
      if ok {
        ok := Statement();
      }
      if ok {
        committed := committed + {stream};
      } else {
        streams, seen := streamsBefore, seenBefore;
      }
    }

    /** `INSERT OR REPLACE` for every uid, up to the first failing one. */
    method InsertSeen(uids: seq<string>, expiresAt: int) returns (ok: bool)
      modifies `seen, `faults
      ensures faults == old(faults) + if ok then 0 else 1
      ensures ok ==> seen == MarkAll(old(seen), uids, expiresAt)
    {
      ok := true;
      var i := 0;
      while i < |uids| && ok
        invariant 0 <= i <= |uids| && seen == MarkAll(old(seen), uids[..i], expiresAt)
        invariant faults == old(faults) + if ok then 0 else 1
        decreases |uids| - i, ok
      {
        ok := Statement();
        if ok {
          seen := seen[uids[i] := expiresAt];
          assert uids[..i + 1] == uids[..i] + [uids[i]];
          i := i + 1;
        }
      }
      assert uids[..|uids|] == uids;
    }

    /** One query per chunk of the distinct uids, each of which may fail; none for no uids. */
    method FilterUnseen(now: int, uids: seq<string>) returns (ok: bool, unseen: seq<string>)
      modifies `faults
      ensures faults == old(faults) + if ok then 0 else 1
      ensures ok ==> unseen == Unseen(seen, now, uids)
      ensures uids == [] ==> ok
    {
      var unique := FirstOccurrences(uids);
      var found: set<string> := {};
      var start := 0;
      ok, unseen := true, [];
      while start < |unique|
        invariant 0 <= start && ok && faults == old(faults)
        invariant found == set u | u in unique[..if start < |unique| then start else |unique|] && Live(seen, now, u)
      {
        ok := Statement();
        if !ok {
          return;
        }
        var end := if start + PARAMETER_CHUNK < |unique| then start + PARAMETER_CHUNK else |unique|;
        var chunk := unique[start..end];
        assert unique[..end] == unique[..start] + chunk;
        found := found + set u | u in chunk && u in seen && seen[u] > now;
        start := start + PARAMETER_CHUNK;
      }
      for i := 0 to |unique|
        invariant unseen == NotLive(seen, now, unique[..i])
      {
        assert unique[..i + 1][..i] == unique[..i] && unique[..i + 1][i] == unique[i];
        if unique[i] !in found {
          unseen := unseen + [unique[i]];
        }
      }
      assert unique[..|unique|] == unique;
      UnseenOfFirsts(seen, now, uids);
    }

    method RecordPublished(stream: Stream, ms: int) returns (ok: bool)
      requires Valid()
      modifies this
      ensures Valid() && Contents() == if ok then SqlPublished(old(Contents()), stream, ms) else old(Contents())
      ensures faults == old(faults) + if ok then 0 else 1
    {
      ok := Statement();
      if !ok {
        return;
      }
      if stream in streams {
        var last := streams[stream].published;
        var floor := if last.Some? then last.value else 0;
        streams := streams[stream := streams[stream].(published := Some(if ms > floor then ms else floor))];
      } else {
        streams := streams[stream := EmptyRow.(published := Some(ms))];
      }
    }

    method MarkCaughtUp(now: int, stream: Stream) returns (ok: bool)
      requires Valid()
      modifies this
      ensures Valid() && faults == old(faults) + if ok then 0 else 1
      ensures Contents() == if ok then StateSpec.MarkCaughtUp(old(Contents()), now, stream) else old(Contents())
    {
      ok := Statement();
      if ok && stream in streams && streams[stream].committed {
        streams := streams[stream := streams[stream].(caughtUpAt := Some(now))];
      }
    }

    method PurgeExpired(now: int) returns (ok: bool, removed: nat)
      requires Valid()
      modifies this
      ensures Valid() && Contents() == if ok then Purge(old(Contents()), now) else old(Contents())
      ensures removed == |old(seen)| - |seen| && faults == old(faults) + if ok then 0 else 1
    {
      removed := 0;
      ok := Statement();
      if ok {
        var stale := set u | u in seen && seen[u] <= now;
        removed := |stale|;
        assert (seen - stale).Keys == seen.Keys - stale && |seen.Keys - stale| == |seen.Keys| - |stale|;
        seen := seen - stale;
      }
    }
  }

  // ----- the two ways of removing repeats agree -----

  function Firsts(uids: seq<string>): seq<string> {
    if uids == [] then []
    else
      var n := |uids| - 1;
      if uids[n] in uids[..n] then Firsts(uids[..n]) else Firsts(uids[..n]) + [uids[n]]
  }

  function NotLive(seen: map<string, int>, now: int, uids: seq<string>): seq<string> {
    if uids == [] then []
    else
      var n := |uids| - 1;
      NotLive(seen, now, uids[..n]) + if Live(seen, now, uids[n]) then [] else [uids[n]]
  }

  /** Dictionary keys in insertion order. */
  method FirstOccurrences(uids: seq<string>) returns (unique: seq<string>)
    ensures unique == Firsts(uids) && Unique(unique)
    ensures forall u :: u in unique <==> u in uids
  {
    unique := [];
    for i := 0 to |uids|
      invariant unique == Firsts(uids[..i]) && Unique(unique)
      invariant forall u :: u in unique <==> u in uids[..i]
    {
      assert uids[..i + 1][..i] == uids[..i] && uids[..i + 1][i] == uids[i];
      if uids[i] !in unique {
        unique := unique + [uids[i]];
      }
    }
    assert uids[..|uids|] == uids;
  }

  lemma {:induction false} UnseenOfFirsts(seen: map<string, int>, now: int, uids: seq<string>)
    ensures NotLive(seen, now, Firsts(uids)) == Unseen(seen, now, uids)
    decreases |uids|
  {
    if uids != [] {
      var n := |uids| - 1;
      UnseenOfFirsts(seen, now, uids[..n]);
      var firsts := Firsts(uids[..n]);
      assert (firsts + [uids[n]])[..|firsts|] == firsts;
    }
  }
}
