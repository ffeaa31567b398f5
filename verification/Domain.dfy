/** The values that cross the connector's seams. */
module Domain {

  datatype Option<+T> = None | Some(value: T)

  /** A cursor is a URL that is stored and passed on, and never taken apart. */
  type Cursor = string

  type Stream = string

  /** One JSON value. A dictionary is a map: no behaviour modelled here depends on key order. */
  datatype Json =
    | JNull
    | JBool(b: bool)
    | JInt(n: int)
    | JStr(s: string)
    | JArr(items: seq<Json>)
    | JObj(fields: map<string, Json>)

  /** A mapped event. `uid` is the dedup key, `classUid` and `timeMs` decide the object it lands in. */
  datatype Event = Event(classUid: int, timeMs: int, uid: string, body: Json)

  function Uids(events: seq<Event>): (r: seq<string>)
    ensures |r| == |events|
    ensures forall i :: 0 <= i < |events| ==> r[i] == events[i].uid
  {
    seq(|events|, i requires 0 <= i < |events| => events[i].uid)
  }

  lemma UidsConcat(a: seq<Event>, b: seq<Event>)
    ensures Uids(a + b) == Uids(a) + Uids(b)
  {
  }

  lemma FirstIsIn(events: seq<Event>)
    ensures events != [] ==> events[0] in events
  {
  }

  predicate HasUid(events: seq<Event>, uid: string) {
    exists i :: 0 <= i < |events| && events[i].uid == uid
  }

  /** No two positions of the list carry the same uid. */
  predicate UniqueUids(events: seq<Event>) {
    forall i, j :: 0 <= i < |events| && 0 <= j < |events| && events[i].uid == events[j].uid ==> i == j
  }

  /** No two positions of the list hold the same string. */
  predicate Unique(xs: seq<string>) {
    forall i, j :: 0 <= i < |xs| && 0 <= j < |xs| && xs[i] == xs[j] ==> i == j
  }
}
