/** The state store every implementation has to agree with: a row per stream and one shared,
    TTL'd set of delivered uids. Operations are total functions of the store and the clock. */
module StateSpec {
  import opened Domain

  /** `committed` tells a finished range (a committed `None` cursor) from a stream that never began. */
  datatype Row = Row(
    cursor: Option<Cursor>,
    committed: bool,
    version: Option<string>,
    published: Option<int>,
    caughtUpAt: Option<int>)

  const EmptyRow := Row(None, false, None, None, None)

  datatype Store = Store(rows: map<Stream, Row>, seen: map<string, int>)

  const EmptyStore := Store(map[], map[])

  predicate Live(seen: map<string, int>, now: int, uid: string) {
    uid in seen && seen[uid] > now
  }

  function RowOf(st: Store, stream: Stream): Row {
    if stream in st.rows then st.rows[stream] else EmptyRow
  }

  function GetCursor(st: Store, stream: Stream): Option<Cursor> {
    RowOf(st, stream).cursor
  }

  predicate Finished(st: Store, stream: Stream) {
    RowOf(st, stream).committed && RowOf(st, stream).cursor.None?
  }

  function MarkAll(seen: map<string, int>, uids: seq<string>, expiry: int): (r: map<string, int>)
    ensures forall u :: u in r <==> u in seen || u in uids
    ensures forall u :: u in r ==> r[u] == if u in uids then expiry else seen[u]
  {
    map u | u in seen.Keys + (set x | x in uids) :: if u in uids then expiry else seen[u]
  }

  /** The cursor and the delivered uids move together. */
  function Commit(st: Store, now: int, ttl: int, stream: Stream, cursor: Option<Cursor>,
                  uids: seq<string>, version: string): Store
  {
    var row := RowOf(st, stream);
    Store(st.rows[stream := row.(cursor := cursor, committed := true, version := Some(version),
                                 caughtUpAt := Some(now))],
          MarkAll(st.seen, uids, now + ttl))
  }

  function MarkCaughtUp(st: Store, now: int, stream: Stream): Store {
    if RowOf(st, stream).committed
    then st.(rows := st.rows[stream := RowOf(st, stream).(caughtUpAt := Some(now))])
    else st
  }

  function RecordPublished(st: Store, stream: Stream, ms: int): Store {
    var row := RowOf(st, stream);
    var newest := if row.published.None? || ms > row.published.value then ms else row.published.value;
    st.(rows := st.rows[stream := row.(published := Some(newest))])
  }

  /** Only the published time moves, only of that stream, and never back: it is the newest told so far. */
  lemma PublishedIsNewest(st: Store, stream: Stream, ms: int)
    ensures var st' := RecordPublished(st, stream, ms);
      var told, before := RowOf(st', stream).published, RowOf(st, stream).published;
      && told.Some? && ms <= told.value && (before.Some? ==> before.value <= told.value) && (told == Some(ms) || told == before)
      && RowOf(st', stream).(published := before) == RowOf(st, stream)
      && (forall s :: s != stream ==> RowOf(st', s) == RowOf(st, s)) && st'.seen == st.seen
  {
  }

  function CaughtUpAge(st: Store, now: int, stream: Stream): Option<int> {
    match RowOf(st, stream).caughtUpAt
    case None => None
    case Some(at) => Some(now - at)
  }

  function Purge(st: Store, now: int): Store {
    st.(seen := map u | u in st.seen && st.seen[u] > now :: st.seen[u])
  }

  /** The first occurrence of each uid that is not live, in order. */
  function Unseen(seen: map<string, int>, now: int, uids: seq<string>): seq<string>
    decreases |uids|
  {
    if uids == [] then []
    else
      var rest := Unseen(seen, now, uids[..|uids| - 1]);
      var last := uids[|uids| - 1];
      if Live(seen, now, last) || last in uids[..|uids| - 1] then rest else rest + [last]
  }

  /** `keep` lists the positions of a sublist, in increasing order. */
  ghost predicate Sublist<T>(sub: seq<T>, all: seq<T>, keep: seq<nat>) {
    && |keep| == |sub|
    && (forall k :: 0 <= k < |keep| ==> keep[k] < |all| && sub[k] == all[keep[k]])
    && (forall j, k :: 0 <= j < k < |keep| ==> keep[j] < keep[k])
  }

  /** What `filter_unseen` promises: exactly the uids not live, each once, in the order given. */
  lemma {:induction false} UnseenMeaning(seen: map<string, int>, now: int, uids: seq<string>)
    returns (keep: seq<nat>)
    ensures var r := Unseen(seen, now, uids);
      && Sublist(r, uids, keep)
      && Unique(r)
      && (forall u :: u in r <==> u in uids && !Live(seen, now, u))
    decreases |uids|
  {
    if uids == [] {
      keep := [];
    } else {
      var n := |uids| - 1;
      keep := UnseenMeaning(seen, now, uids[..n]);
      assert uids == uids[..n] + [uids[n]];
      if !(Live(seen, now, uids[n]) || uids[n] in uids[..n]) {
        keep := keep + [n];
      }
    }
  }
}
