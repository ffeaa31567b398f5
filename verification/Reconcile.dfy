/** The reconciliation judgement: what Okta says happened in a window against what the lake holds. It
    is the executable statement of exactly-once. */
module Reconcile {

  datatype LakeRow = LakeRow(uid: string, timeMs: int, source: string)

  /** Each list of the report is sorted and free of repeats, so it is a set here. */
  datatype Report = Report(
    oktaEvents: nat, oktaUnique: nat, lakeRows: nat,
    missing: set<string>, extra: set<string>, duplicated: set<string>, crossClass: set<string>, blankUids: nat)

  predicate Clean(r: Report) {
    !(r.missing != {} || r.extra != {} || r.duplicated != {} || r.crossClass != {} || r.blankUids != 0)
  }

  // ----- what the two sides must satisfy -----

  predicate OnRow(lake: seq<LakeRow>, uid: string) {
    exists i :: 0 <= i < |lake| && lake[i].uid == uid
  }

  /** A row of the strict window: the lake itself is read a little wider. */
  predicate InWindow(row: LakeRow, sinceMs: int, untilMs: int) {
    sinceMs <= row.timeMs < untilMs
  }

  predicate OnWindowRow(lake: seq<LakeRow>, sinceMs: int, untilMs: int, uid: string) {
    exists i :: 0 <= i < |lake| && lake[i].uid == uid && InWindow(lake[i], sinceMs, untilMs)
  }

  /** Two rows of one table carry the uid. */
  predicate TwiceInTable(lake: seq<LakeRow>, uid: string) {
    exists i, j :: 0 <= i < j < |lake| && lake[i].uid == uid && lake[j].uid == uid && lake[i].source == lake[j].source
  }

  /** Rows of two tables carry the uid. */
  predicate InTwoTables(lake: seq<LakeRow>, uid: string) {
    exists i, j :: 0 <= i < |lake| && 0 <= j < |lake| && lake[i].uid == uid && lake[j].uid == uid && lake[i].source != lake[j].source
  }

  /** No uid is blank or on two rows, in one table or in two; every Okta uid is on a row; every row
      of the strict window is an Okta uid. */
  predicate Reconciled(oktaUids: seq<string>, lake: seq<LakeRow>, sinceMs: int, untilMs: int) {
    && (forall row :: row in lake ==> row.uid != "")
    && (forall i, j :: 0 <= i < |lake| && 0 <= j < |lake| && lake[i].uid == lake[j].uid ==> i == j)
    && (forall u :: u in oktaUids ==> OnRow(lake, u))
    && (forall row :: row in lake && InWindow(row, sinceMs, untilMs) ==> row.uid in oktaUids)
  }

  function CountKey(lake: seq<LakeRow>, key: (string, string)): nat {
    if lake == [] then 0
    else CountKey(lake[..|lake| - 1], key) + if (lake[|lake| - 1].uid, lake[|lake| - 1].source) == key then 1 else 0
  }

  predicate At(lake: seq<LakeRow>, i: int, key: (string, string)) {
    0 <= i < |lake| && (lake[i].uid, lake[i].source) == key
  }

  lemma {:induction false} CountKeyPositive(lake: seq<LakeRow>, key: (string, string))
    ensures CountKey(lake, key) > 0 <==> exists i :: At(lake, i, key)
  {
    if lake != [] {
      var n := |lake| - 1;
      CountKeyPositive(lake[..n], key);
      assert forall i :: i < n ==> (At(lake[..n], i, key) <==> At(lake, i, key));
      if i :| At(lake, i, key) {
        assert i < n ==> At(lake[..n], i, key);
      }
      if CountKey(lake, key) > 0 && CountKey(lake[..n], key) == 0 {
        assert At(lake, n, key);
      }
    }
  }

  lemma {:induction false} CountKeyTwice(lake: seq<LakeRow>, key: (string, string))
    ensures CountKey(lake, key) > 1 <==> exists i, j :: i < j && At(lake, i, key) && At(lake, j, key)
  {
    if lake != [] {
      var n := |lake| - 1;
      CountKeyTwice(lake[..n], key);
      CountKeyPositive(lake[..n], key);
      assert forall i :: i < n ==> (At(lake[..n], i, key) <==> At(lake, i, key));
      if CountKey(lake, key) > 1 && CountKey(lake[..n], key) <= 1 {
        var i :| At(lake[..n], i, key);
        assert At(lake, i, key) && At(lake, n, key);
      }
      if CountKey(lake[..n], key) > 1 {
        var i, j :| i < j && At(lake[..n], i, key) && At(lake[..n], j, key);
        assert At(lake, i, key) && At(lake, j, key);
      }
      if i, j :| i < j && At(lake, i, key) && At(lake, j, key) {
        assert At(lake[..n], i, key);
        assert j < n ==> At(lake[..n], j, key);
      }
    }
  }

  /** Rows per (uid, table). */
  method CountRows(lake: seq<LakeRow>) returns (perTable: map<(string, string), nat>)
    ensures forall key :: key in perTable <==> CountKey(lake, key) > 0
    ensures forall key :: key in perTable ==> perTable[key] == CountKey(lake, key)
  {
    perTable := map[];
    for n := 0 to |lake|
      invariant forall key :: key in perTable <==> CountKey(lake[..n], key) > 0
      invariant forall key :: key in perTable ==> perTable[key] == CountKey(lake[..n], key)
    {
      var key := (lake[n].uid, lake[n].source);
      assert lake[..n + 1][..n] == lake[..n] && lake[..n + 1][n] == lake[n];
      perTable := perTable[key := (if key in perTable then perTable[key] else 0) + 1];
    }
    assert lake[..|lake|] == lake;
  }

  predicate InTable(lake: seq<LakeRow>, uid: string, source: string) {
    exists i :: 0 <= i < |lake| && lake[i].uid == uid && lake[i].source == source
  }

  lemma InTableLast(lake: seq<LakeRow>, n: nat, uid: string, source: string)
    requires n < |lake|
    ensures InTable(lake[..n + 1], uid, source)
      <==> InTable(lake[..n], uid, source) || (lake[n].uid == uid && lake[n].source == source)
  {
    assert forall i :: 0 <= i < n ==> lake[..n + 1][i] == lake[..n][i];
    assert lake[..n + 1][n] == lake[n];
    if InTable(lake[..n], uid, source) {
      var i :| 0 <= i < n && lake[..n][i].uid == uid && lake[..n][i].source == source;
      assert lake[..n + 1][i].uid == uid;
    }
  }

  predicate Lists(tables: map<string, set<string>>, uid: string, source: string) {
    uid in tables && source in tables[uid]
  }

  /** The tables that hold each uid. */
  method TablesPerUid(lake: seq<LakeRow>) returns (tables: map<string, set<string>>)
    ensures forall u, t :: Lists(tables, u, t) <==> InTable(lake, u, t)
  {
    tables := map[];
    for n := 0 to |lake|
      invariant forall u, t :: Lists(tables, u, t) <==> InTable(lake[..n], u, t)
    {
      var u := lake[n].uid;
      ghost var before := tables;
      tables := tables[u := (if u in tables then tables[u] else {}) + {lake[n].source}];
      forall v, t ensures Lists(tables, v, t) <==> InTable(lake[..n + 1], v, t) {
        InTableLast(lake, n, v, t);
        assert Lists(before, v, t) <==> InTable(lake[..n], v, t);
      }
    }
    assert lake[..|lake|] == lake;
  }

  lemma TwoMembers(s: set<string>)
    ensures |s| > 1 <==> exists a, b :: a in s && b in s && a != b
  {
    if exists a, b :: a in s && b in s && a != b {
      var a, b :| a in s && b in s && a != b;
      assert {a, b} <= s && |{a, b}| == 2;
      SubsetSize({a, b}, s);
    } else if s != {} {
      var a :| a in s;
      assert s == {a};
    }
  }

  lemma {:induction false} SubsetSize(a: set<string>, b: set<string>)
    requires a <= b
    ensures |a| <= |b|
    decreases a
  {
    if a != {} {
      var x :| x in a;
      SubsetSize(a - {x}, b - {x});
    }
  }

  /** The positions of the rows without a uid. */
  ghost function Blanks(lake: seq<LakeRow>): set<int> {
    set i | 0 <= i < |lake| && lake[i].uid == ""
  }

  method BlankRows(lake: seq<LakeRow>) returns (blank: nat)
    ensures blank == |Blanks(lake)|
  {
    blank := 0;
    for n := 0 to |lake|
      invariant blank == |Blanks(lake[..n])|
    {
      assert Blanks(lake[..n + 1]) == Blanks(lake[..n]) + if lake[n].uid == "" then {n} else {};
      if lake[n].uid == "" {
        blank := blank + 1;
      }
    }
    assert lake[..|lake|] == lake;
  }

  lemma NoBlanks(lake: seq<LakeRow>)
    ensures |Blanks(lake)| == 0 <==> forall row :: row in lake ==> row.uid != ""
  {
    if |Blanks(lake)| == 0 {
      forall row | row in lake ensures row.uid != "" {
        var i :| 0 <= i < |lake| && lake[i] == row;
        assert i !in Blanks(lake);
      }
    }
    if i :| i in Blanks(lake) {
      assert lake[i] in lake;
    }
  }

  predicate NoRepeats(us: seq<string>) {
    forall i, j :: 0 <= i < |us| && 0 <= j < |us| && us[i] == us[j] ==> i == j
  }

  /** A list without repeats is as long as its set. */
  lemma {:induction false} ListedOnce(us: seq<string>, all: set<string>)
    requires NoRepeats(us) && forall u :: u in us <==> u in all
    ensures |us| == |all|
    decreases |us|
  {
    if us == [] {
      assert all == {};
    } else {
      var n := |us| - 1;
      assert us == us[..n] + [us[n]];
      ListedOnce(us[..n], all - {us[n]});
    }
  }

  /** The judgement. Every list says exactly what it is named for, and the report is clean if and only
      if the two sides reconcile. */
  method Compare(oktaUids: seq<string>, lake: seq<LakeRow>, sinceMs: int, untilMs: int) returns (r: Report)
    ensures r.oktaEvents == |oktaUids| && r.lakeRows == |lake|
    ensures forall us: seq<string> | NoRepeats(us) && (forall u :: u in us <==> u in oktaUids) :: r.oktaUnique == |us|
    ensures forall u :: u in r.missing <==> u in oktaUids && !OnRow(lake, u)
    ensures forall u :: u in r.extra <==>
      u !in oktaUids && exists i :: 0 <= i < |lake| && lake[i].uid == u && sinceMs <= lake[i].timeMs < untilMs
    ensures forall u :: u in r.duplicated <==> TwiceInTable(lake, u)
    ensures forall u :: u in r.crossClass <==> InTwoTables(lake, u)
    ensures r.blankUids == |Blanks(lake)|
    ensures Clean(r) <==> Reconciled(oktaUids, lake, sinceMs, untilMs)
  {
    var okta := set u | u in oktaUids;
    var padded := set row | row in lake :: row.uid;
    var strict := set row | row in lake && InWindow(row, sinceMs, untilMs) :: row.uid;
    var perTable := CountRows(lake);
    var tables := TablesPerUid(lake);
    var blank := BlankRows(lake);
    var duplicated := set key | key in perTable && perTable[key] > 1 :: key.0;
    var crossClass := set u | u in tables && |tables[u]| > 1;
    r := Report(|oktaUids|, |okta|, |lake|, okta - padded, strict - okta, duplicated, crossClass, blank);
    forall u ensures u in padded <==> OnRow(lake, u) {
      PaddedMeans(lake, u);
    }
    forall u ensures u in strict <==> OnWindowRow(lake, sinceMs, untilMs, u) {
      StrictMeans(lake, sinceMs, untilMs, u);
    }
    forall u ensures u in duplicated <==> TwiceInTable(lake, u) {
      DuplicatedMeans(lake, perTable, u);
    }
    forall u ensures u in crossClass <==> InTwoTables(lake, u) {
      CrossClassMeans(lake, tables, u);
    }
    forall us: seq<string> | NoRepeats(us) && (forall u :: u in us <==> u in oktaUids) ensures r.oktaUnique == |us| {
      ListedOnce(us, okta);
    }
    NoBlanks(lake);
    CleanMeans(r, oktaUids, lake, sinceMs, untilMs);
  }

  lemma PaddedMeans(lake: seq<LakeRow>, u: string)
    ensures u in (set row | row in lake :: row.uid) <==> OnRow(lake, u)
  {
    if OnRow(lake, u) {
      var i :| 0 <= i < |lake| && lake[i].uid == u;
      assert lake[i] in lake;
    }
  }

  lemma StrictMeans(lake: seq<LakeRow>, sinceMs: int, untilMs: int, u: string)
    ensures u in (set row | row in lake && InWindow(row, sinceMs, untilMs) :: row.uid)
      <==> OnWindowRow(lake, sinceMs, untilMs, u)
  {
    if OnWindowRow(lake, sinceMs, untilMs, u) {
      var i :| 0 <= i < |lake| && lake[i].uid == u && InWindow(lake[i], sinceMs, untilMs);
      assert lake[i] in lake;
    }
  }

  lemma DuplicatedMeans(lake: seq<LakeRow>, perTable: map<(string, string), nat>, u: string)
    requires forall key :: key in perTable <==> CountKey(lake, key) > 0
    requires forall key :: key in perTable ==> perTable[key] == CountKey(lake, key)
    ensures u in (set key | key in perTable && perTable[key] > 1 :: key.0) <==> TwiceInTable(lake, u)
  {
    if TwiceInTable(lake, u) {
      var i, j :| 0 <= i < j < |lake| && lake[i].uid == u && lake[j].uid == u && lake[i].source == lake[j].source;
      CountKeyTwice(lake, (u, lake[i].source));
      assert At(lake, i, (u, lake[i].source)) && At(lake, j, (u, lake[i].source));
      assert (u, lake[i].source) in perTable;
    }
    if u in (set key | key in perTable && perTable[key] > 1 :: key.0) {
      var key :| key in perTable && perTable[key] > 1 && key.0 == u;
      CountKeyTwice(lake, key);
      var i, j :| i < j && At(lake, i, key) && At(lake, j, key);
      assert lake[i].uid == u && lake[j].uid == u;
    }
  }

  lemma CrossClassMeans(lake: seq<LakeRow>, tables: map<string, set<string>>, u: string)
    requires forall v, t :: Lists(tables, v, t) <==> InTable(lake, v, t)
    ensures u in tables && |tables[u]| > 1 <==> InTwoTables(lake, u)
  {
    if InTwoTables(lake, u) {
      var i, j :| 0 <= i < |lake| && 0 <= j < |lake| && lake[i].uid == u && lake[j].uid == u && lake[i].source != lake[j].source;
      assert InTable(lake, u, lake[i].source) && InTable(lake, u, lake[j].source);
      assert Lists(tables, u, lake[i].source) && Lists(tables, u, lake[j].source);
      TwoMembers(tables[u]);
    }
    if u in tables && |tables[u]| > 1 {
      TwoMembers(tables[u]);
      var a, b :| a in tables[u] && b in tables[u] && a != b;
      assert Lists(tables, u, a) && Lists(tables, u, b);
      var i :| 0 <= i < |lake| && lake[i].uid == u && lake[i].source == a;
      var j :| 0 <= j < |lake| && lake[j].uid == u && lake[j].source == b;
    }
  }

  lemma CleanMeans(r: Report, oktaUids: seq<string>, lake: seq<LakeRow>, sinceMs: int, untilMs: int)
    requires forall u :: u in r.missing <==> u in oktaUids && !OnRow(lake, u)
    requires forall u :: u in r.extra <==> OnWindowRow(lake, sinceMs, untilMs, u) && u !in oktaUids
    requires forall u :: u in r.duplicated <==> TwiceInTable(lake, u)
    requires forall u :: u in r.crossClass <==> InTwoTables(lake, u)
    requires r.blankUids == 0 <==> forall row :: row in lake ==> row.uid != ""
    ensures Clean(r) <==> Reconciled(oktaUids, lake, sinceMs, untilMs)
  {
    if Clean(r) {
      forall i, j | 0 <= i < |lake| && 0 <= j < |lake| && lake[i].uid == lake[j].uid ensures i == j {
        assert lake[i].uid !in r.duplicated && lake[i].uid !in r.crossClass;
        assert !TwiceInTable(lake, lake[i].uid) && !InTwoTables(lake, lake[i].uid);
        assert lake[i].source == lake[j].source;
      }
      forall u | u in oktaUids ensures OnRow(lake, u) {
        assert u !in r.missing;
      }
      forall row | row in lake && InWindow(row, sinceMs, untilMs) ensures row.uid in oktaUids {
        var i :| 0 <= i < |lake| && lake[i] == row;
        assert OnWindowRow(lake, sinceMs, untilMs, row.uid);
        assert row.uid !in r.extra;
      }
    }
    if Reconciled(oktaUids, lake, sinceMs, untilMs) {
      assert forall u :: !TwiceInTable(lake, u) && !InTwoTables(lake, u);
      assert forall u :: OnWindowRow(lake, sinceMs, untilMs, u) ==> u in oktaUids;
    }
  }

  /** A clean report is exactly-once: each Okta uid is on one row and no other. */
  lemma CleanIsExactlyOnce(oktaUids: seq<string>, lake: seq<LakeRow>, sinceMs: int, untilMs: int, u: string)
    returns (i: nat)
    requires Reconciled(oktaUids, lake, sinceMs, untilMs) && u in oktaUids
    ensures i < |lake| && lake[i].uid == u && forall j :: 0 <= j < |lake| && lake[j].uid == u ==> j == i
  {
    assert OnRow(lake, u);
    var k :| 0 <= k < |lake| && lake[k].uid == u;
    i := k;
  }
}
