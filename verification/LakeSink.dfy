/** The Security Lake sink: a buffer flushed as one object per class and day, addressed by the batch. */
module LakeSink {
  import opened Domain
  import opened Protocol

  // ----- rows within an object are sorted by time -----

  /** How many of the rows come before an event of that time: all but a later tail. */
  function Place(rows: seq<Event>, time: int): (i: nat)
    ensures i <= |rows|
    ensures i > 0 ==> rows[i - 1].timeMs <= time
    ensures forall j :: i <= j < |rows| ==> time < rows[j].timeMs
  {
    if rows == [] || rows[|rows| - 1].timeMs <= time then |rows| else Place(rows[..|rows| - 1], time)
  }

  /** Puts `ev` after everything not later than it. */
  function Insert(rows: seq<Event>, ev: Event): seq<Event> {
    var i := Place(rows, ev.timeMs);
    rows[..i] + [ev] + rows[i..]
  }

  function SortByTime(events: seq<Event>): seq<Event> {
    if events == [] then []
    else Insert(SortByTime(events[..|events| - 1]), events[|events| - 1])
  }

  lemma InsertPermutes(rows: seq<Event>, ev: Event)
    ensures multiset(Insert(rows, ev)) == multiset(rows) + multiset{ev}
  {
    var i := Place(rows, ev.timeMs);
    assert rows == rows[..i] + rows[i..];
  }

  lemma {:induction false} SortPermutes(events: seq<Event>)
    ensures multiset(SortByTime(events)) == multiset(events)
    decreases |events|
  {
    hide Insert;
    if events != [] {
      var n := |events| - 1;
      SortPermutes(events[..n]);
      InsertPermutes(SortByTime(events[..n]), events[n]);
      assert events == events[..n] + [events[n]];
    }
  }

  predicate Sorted(events: seq<Event>) {
    forall i, j :: 0 <= i < j < |events| ==> events[i].timeMs <= events[j].timeMs
  }

  /** The events of one instant, in order. */
  function AtTime(events: seq<Event>, t: int): seq<Event> {
    if events == [] then []
    else (if events[0].timeMs == t then [events[0]] else []) + AtTime(events[1..], t)
  }

  lemma {:induction false} AtTimeSum(a: seq<Event>, b: seq<Event>, t: int)
    ensures AtTime(a + b, t) == AtTime(a, t) + AtTime(b, t)
    decreases |a|
  {
    if a == [] {
      assert a + b == b;
    } else {
      AtTimeSum(a[1..], b, t);
      assert (a + b)[0] == a[0] && (a + b)[1..] == a[1..] + b;
      var first := if a[0].timeMs == t then [a[0]] else [];
      assert AtTime(a + b, t) == first + AtTime(a[1..] + b, t);
      assert AtTime(a, t) == first + AtTime(a[1..], t);
    }
  }

  lemma {:induction false} AtTimeNone(events: seq<Event>, t: int)
    requires forall i :: 0 <= i < |events| ==> events[i].timeMs != t
    ensures AtTime(events, t) == []
    decreases |events|
  {
    if events != [] {
      AtTimeNone(events[1..], t);
    }
  }

  lemma AtTimeOne(ev: Event, t: int)
    ensures AtTime([ev], t) == if ev.timeMs == t then [ev] else []
  {
    assert [ev][1..] == [];
  }

  lemma InsertSorted(rows: seq<Event>, ev: Event)
    requires Sorted(rows)
    ensures Sorted(Insert(rows, ev))
  {
  }

  lemma Swap(a: seq<Event>, b: seq<Event>, c: seq<Event>)
    requires b == [] || c == []
    ensures a + b + c == a + c + b
  {
  }

  lemma InsertAtTime(rows: seq<Event>, ev: Event, t: int)
    ensures AtTime(Insert(rows, ev), t) == AtTime(rows, t) + AtTime([ev], t)
  {
    hide AtTime;
    var i := Place(rows, ev.timeMs);
    var early, late := rows[..i], rows[i..];
    AtTimeSum(early + [ev], late, t);
    AtTimeSum(early, [ev], t);
    AtTimeSum(early, late, t);
    assert rows == early + late;
    AtTimeOne(ev, t);
    if ev.timeMs == t {
      AtTimeNone(late, t);
    }
    Swap(AtTime(early, t), AtTime([ev], t), AtTime(late, t));
  }

  lemma {:induction false} SortAtTime(events: seq<Event>, t: int)
    ensures AtTime(SortByTime(events), t) == AtTime(events, t)
    decreases |events|
  {
    if events != [] {
      var n := |events| - 1;
      SortAtTime(events[..n], t);
      InsertAtTime(SortByTime(events[..n]), events[n], t);
      AtTimeSum(events[..n], [events[n]], t);
      assert events == events[..n] + [events[n]];
    }
  }

  lemma {:induction false} SortSorts(events: seq<Event>)
    ensures Sorted(SortByTime(events))
    decreases |events|
  {
    if events != [] {
      SortSorts(events[..|events| - 1]);
      InsertSorted(SortByTime(events[..|events| - 1]), events[|events| - 1]);
    }
  }

  /** What the object's rows are: sorted by time, a permutation of the bucket, and stable. */
  lemma SortIsStable(events: seq<Event>)
    ensures Sorted(SortByTime(events)) && multiset(SortByTime(events)) == multiset(events)
    ensures forall t :: AtTime(SortByTime(events), t) == AtTime(events, t)
  {
    SortSorts(events);
    SortPermutes(events);
    forall t ensures AtTime(SortByTime(events), t) == AtTime(events, t) {
      SortAtTime(events, t);
    }
  }

  // ----- buckets partition the buffer -----

  /** All rows of the objects of the listed buckets, together. */
  function RowsOf(e: Env, events: seq<Event>, order: seq<Bucket>): multiset<Event> {
    if order == [] then multiset{}
    else RowsOf(e, events, order[..|order| - 1]) + multiset(SortByTime(InBucket(e, events, order[|order| - 1])))
  }

  lemma {:induction false} CountRows(e: Env, events: seq<Event>, order: seq<Bucket>, ev: Event)
    requires Distinct(order)
    ensures RowsOf(e, events, order)[ev] == if BucketOf(e, ev) in order then multiset(events)[ev] else 0
    decreases |order|
  {
    if order != [] {
      var n := |order| - 1;
      CountRows(e, events, order[..n], ev);
      BucketCount(e, events, order[n], ev);
      SortPermutes(InBucket(e, events, order[n]));
      assert order == order[..n] + [order[n]];
    }
  }

  /** One flush neither drops nor repeats a row: its objects hold exactly the buffer between them. */
  lemma FlushPartitions(e: Env, events: seq<Event>, order: seq<Bucket>)
    requires Distinct(order)
    requires forall b :: b in order <==> b in Targets(e, events)
    ensures RowsOf(e, events, order) == multiset(events)
  {
    forall ev ensures RowsOf(e, events, order)[ev] == multiset(events)[ev] {
      CountRows(e, events, order, ev);
      if ev in multiset(events) {
        assert ev in events;
      }
    }
  }

  /** Each object has one class and one day. */
  lemma OneClassOneDay(e: Env, events: seq<Event>, b: Bucket, ev: Event, ev': Event)
    requires !e.oneObject
    requires ev in SortByTime(InBucket(e, events, b)) && ev' in SortByTime(InBucket(e, events, b))
    ensures ev.classUid == ev'.classUid && e.day(ev.timeMs) == e.day(ev'.timeMs)
  {
    SortPermutes(InBucket(e, events, b));
    assert ev in multiset(SortByTime(InBucket(e, events, b))) && ev' in multiset(SortByTime(InBucket(e, events, b)));
    assert ev in InBucket(e, events, b) && ev' in InBucket(e, events, b);
  }

  lemma InBucketLast(e: Env, events: seq<Event>, ev: Event, b: Bucket)
    ensures InBucket(e, events + [ev], b) == InBucket(e, events, b) + if BucketOf(e, ev) == b then [ev] else []
  {
    assert (events + [ev])[..|events|] == events;
  }

  lemma TargetsLast(e: Env, events: seq<Event>, ev: Event)
    requires !e.oneObject
    ensures Targets(e, events + [ev]) == Targets(e, events) + {BucketOf(e, ev)}
  {
  }

  predicate Distinct(order: seq<Bucket>) {
    forall i, j :: 0 <= i < j < |order| ==> order[i] != order[j]
  }

  /** The rows of one bucket so far. */
  function Rows(buckets: map<Bucket, seq<Event>>, b: Bucket): seq<Event> {
    if b in buckets then buckets[b] else []
  }

  lemma GroupOne(e: Env, events: seq<Event>, buckets: map<Bucket, seq<Event>>, ev: Event, b: Bucket)
    requires Rows(buckets, b) == InBucket(e, events, b)
    ensures var key := BucketOf(e, ev);
      Rows(buckets[key := Rows(buckets, key) + [ev]], b) == InBucket(e, events + [ev], b)
  {
    InBucketLast(e, events, ev, b);
  }

  /** The dictionary of buckets, and its keys in insertion order. */
  method BucketEvents(e: Env, events: seq<Event>) returns (order: seq<Bucket>, buckets: map<Bucket, seq<Event>>)
    requires !e.oneObject
    ensures Distinct(order) && forall b :: b in order <==> b in buckets
    ensures buckets.Keys == Targets(e, events)
    ensures forall b :: Rows(buckets, b) == InBucket(e, events, b)
  {
    order, buckets := [], map[];
    for n := 0 to |events|
      invariant Distinct(order) && forall b :: b in order <==> b in buckets
      invariant buckets.Keys == Targets(e, events[..n])
      invariant forall b :: Rows(buckets, b) == InBucket(e, events[..n], b)
    {
      var ev := events[n];
      assert events[..n + 1] == events[..n] + [ev];
      TargetsLast(e, events[..n], ev);
      var key := ClassDay(ev.classUid, e.day(ev.timeMs));
      ghost var before := buckets;
      if key !in buckets {
        buckets := buckets[key := []];
        order := order + [key];
      }
      buckets := buckets[key := buckets[key] + [ev]];
      assert buckets == before[key := Rows(before, key) + [ev]];
      forall b ensures Rows(buckets, b) == InBucket(e, events[..n] + [ev], b) {
        GroupOne(e, events[..n], before, ev, b);
      }
    }
    assert events[..|events|] == events;
  }

  // ----- the lake and the sink -----

  /** The lake after PUTting the listed buckets of a batch, in order. */
  function PutAll(e: Env, lake: Lake, key: Cursor, events: seq<Event>, order: seq<Bucket>): Lake {
    if order == [] then lake
    else
      var b := order[|order| - 1];
      PutAll(e, lake, key, events, order[..|order| - 1])[ObjectKey(key, b) := SortByTime(InBucket(e, events, b))]
  }

  /** A destination: a PUT overwrites. One that reports failure may or may not have landed. */
  class ObjectStore {
    var objects: Lake
    /** How many PUTs were answered with a failure. */
    ghost var faults: nat

    constructor ()
      ensures objects == map[]
    {
      objects, faults := map[], 0;
    }

    method Put(key: ObjectKey, rows: seq<Event>) returns (ok: bool, ghost landed: bool)
      modifies this
      ensures objects == if landed then old(objects)[key := rows] else old(objects)
      ensures (ok ==> landed) && faults == old(faults) + if ok then 0 else 1
    {
      var lands: bool := *;
      landed := lands;
      if lands {
        objects := objects[key := rows];
      }
      var answered: bool := *;
      ok := lands && answered;
      if !ok {
        faults := faults + 1;
      }
    }
  }

  class SecurityLakeSink {
    const env: Env
    const store: ObjectStore
    const maxBytes: int
    const maxSeconds: int
    const sizeOf: Event -> nat
    var buffer: seq<Event>
    var bufferedBytes: int
    var openedAt: Option<int>

    ghost predicate Valid() reads this {
      && !env.oneObject
      && bufferedBytes == TotalSize(sizeOf, buffer)
      && (openedAt.None? <==> buffer == [])
    }

    constructor (env: Env, store: ObjectStore, maxBytes: int, maxSeconds: int, sizeOf: Event -> nat)
      requires !env.oneObject
      ensures Valid() && buffer == [] && this.env == env && this.store == store
      ensures this.maxBytes == maxBytes && this.maxSeconds == maxSeconds && this.sizeOf == sizeOf
    {
      this.env, this.store, this.maxBytes, this.maxSeconds, this.sizeOf := env, store, maxBytes, maxSeconds, sizeOf;
      buffer, bufferedBytes, openedAt := [], 0, None;
    }

    /** Buffers; the batch is as old as the first event written to it. */
    method Write(now: int, events: seq<Event>)
      requires Valid()
      modifies this
      ensures Valid() && buffer == old(buffer) + events
      ensures openedAt == if old(buffer) == [] && events != [] then Some(now) else old(openedAt)
    {
      if events == [] {
        return;
      }
      if openedAt.None? {
        openedAt := Some(now);
      }
      TotalSizeSum(sizeOf, buffer, events);
      buffer := buffer + events;
      var i := 0;
      while i < |events|
        invariant 0 <= i <= |events|
        invariant bufferedBytes == old(bufferedBytes) + TotalSize(sizeOf, events[..i])
        invariant buffer == old(buffer) + events
        invariant openedAt == if old(buffer) == [] then Some(now) else old(openedAt)
      {
        assert events[..i + 1][..i] == events[..i];
        bufferedBytes := bufferedBytes + sizeOf(events[i]);
        i := i + 1;
      }
      assert events[..|events|] == events;
    }

    /** Due when something is buffered and it is large enough or old enough. */
    method ShouldFlush(now: int) returns (due: bool)
      requires Valid()
      ensures due <==> buffer != [] && (TotalSize(sizeOf, buffer) >= maxBytes || now - openedAt.value >= maxSeconds)
    {
      if buffer == [] {
        return false;
      }
      if bufferedBytes >= maxBytes {
        return true;
      }
      due := openedAt.Some? && now - openedAt.value >= maxSeconds;
    }

    /** One PUT per bucket, in turn. A clean return means every object of the batch is durable; a
        failure leaves some of them PUT and the buffer as it was. `put` names those PUT. */
    method Flush(batchKey: Cursor) returns (ok: bool, ghost put: seq<Bucket>)
      requires Valid()
      modifies this, store
      ensures Valid()
      ensures Distinct(put)
      ensures forall b :: b in put ==> b in Targets(env, old(buffer))
      ensures store.objects == PutAll(env, old(store.objects), batchKey, old(buffer), put)
      ensures ok ==> (forall b :: b in Targets(env, old(buffer)) ==> b in put) && buffer == []
      ensures !ok ==> buffer == old(buffer)
      ensures store.faults == old(store.faults) + if ok then 0 else 1
    {
      put := [];
      if buffer == [] {
        return true, [];
      }
      var order, buckets := BucketEvents(env, buffer);
      ok, put := PutBuckets(env, store, batchKey, buffer, order, buckets);
      if ok {
        buffer, bufferedBytes, openedAt := [], 0, None;
      }
    }
  }

  method PutBuckets(e: Env, store: ObjectStore, batchKey: Cursor, events: seq<Event>,
                    order: seq<Bucket>, buckets: map<Bucket, seq<Event>>)
    returns (ok: bool, ghost put: seq<Bucket>)
    requires forall b :: b in order ==> b in buckets && Rows(buckets, b) == InBucket(e, events, b)
    modifies store
    ensures put <= order && (ok ==> put == order)
    ensures store.objects == PutAll(e, old(store.objects), batchKey, events, put)
    ensures store.faults == old(store.faults) + if ok then 0 else 1
  {
    put := [];
    var i := 0;
    while i < |order|
      invariant 0 <= i <= |order| && put == order[..i]
      invariant store.objects == PutAll(e, old(store.objects), batchKey, events, put) && store.faults == old(store.faults)
    {
      var stored, landed := store.Put(ObjectKey(batchKey, order[i]), SortByTime(buckets[order[i]]));
      assert order[..i + 1][..i] == order[..i];
      if landed {
        put := order[..i + 1];
      }
      if !stored {
        return false, put;
      }
      i := i + 1;
    }
    ok := true;
  }

  function TotalSize(sizeOf: Event -> nat, events: seq<Event>): nat {
    if events == [] then 0 else TotalSize(sizeOf, events[..|events| - 1]) + sizeOf(events[|events| - 1])
  }

  /** Every event counts with its own size, and nothing else does. */
  lemma TotalSizeOf(sizeOf: Event -> nat, a: seq<Event>, ev: Event, b: seq<Event>)
    ensures TotalSize(sizeOf, []) == 0
    ensures TotalSize(sizeOf, a + [ev] + b) == TotalSize(sizeOf, a) + sizeOf(ev) + TotalSize(sizeOf, b)
  {
    TotalSizeSum(sizeOf, a, [ev]);
    TotalSizeSum(sizeOf, a + [ev], b);
    assert TotalSize(sizeOf, [ev]) == sizeOf(ev);
  }

  lemma {:induction false} TotalSizeSum(sizeOf: Event -> nat, a: seq<Event>, b: seq<Event>)
    ensures TotalSize(sizeOf, a + b) == TotalSize(sizeOf, a) + TotalSize(sizeOf, b)
    decreases |b|
  {
    if b == [] {
      assert a + b == a;
    } else {
      assert (a + b)[..|a + b| - 1] == a + b[..|b| - 1];
      TotalSizeSum(sizeOf, a, b[..|b| - 1]);
    }
  }
}
