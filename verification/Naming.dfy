/** Where an object lands: one custom source per class, below it region, account and day, and below
    that the digest of the batch's cursor. */
module Naming {

  const MAX_SOURCE_NAME := 20

  /** The classes that have a custom source, in order. */
  const CLASSES := [0, 3001, 3002, 3003, 3004, 3005, 3006]

  predicate HasSource(classUid: int) {
    classUid in CLASSES
  }

  function ClassSource(classUid: int): string
    requires HasSource(classUid)
  {
    if classUid == 0 then "base_event"
    else if classUid == 3001 then "account_change"
    else if classUid == 3002 then "authentication"
    else if classUid == 3003 then "session_authz"
    else if classUid == 3004 then "entity"
    else if classUid == 3005 then "user_access"
    else "group"
  }

  /** The names the tables are registered under, class by class. */
  lemma ClassSources(classUid: int)
    ensures HasSource(classUid) <==> classUid in {0, 3001, 3002, 3003, 3004, 3005, 3006}
    ensures classUid == 0 ==> ClassSource(classUid) == "base_event"
    ensures classUid == 3001 ==> ClassSource(classUid) == "account_change"
    ensures classUid == 3002 ==> ClassSource(classUid) == "authentication"
    ensures classUid == 3003 ==> ClassSource(classUid) == "session_authz"
    ensures classUid == 3004 ==> ClassSource(classUid) == "entity"
    ensures classUid == 3005 ==> ClassSource(classUid) == "user_access"
    ensures classUid == 3006 ==> ClassSource(classUid) == "group"
  {
  }

  function SourceName(prefix: string, classUid: int): string
    requires HasSource(classUid)
  {
    prefix + ("_" + ClassSource(classUid))
  }

  function AllSourceNames(prefix: string): set<string> {
    set c | c in CLASSES :: SourceName(prefix, c)
  }

  /** `word` is the regular expression's word class; all that is used of it is that it has the
      underscore and the lower-case letters, and no slash. */
  ghost predicate WordClass(word: char -> bool) {
    word('_') && (forall c :: 'a' <= c <= 'z' ==> word(c)) && !word('/')
  }

  predicate Allowed(word: char -> bool, c: char) {
    word(c) || c == '-' || c == ':' || c == '.'
  }

  lemma AllowedMeans(word: char -> bool, c: char)
    ensures Allowed(word, c) <==> word(c) || c in "-:."
  {
  }

  predicate AllAllowed(word: char -> bool, s: string) {
    forall i :: 0 <= i < |s| ==> Allowed(word, s[i])
  }

  /** Every derived source name is one that can be registered. */
  predicate Registrable(word: char -> bool, prefix: string) {
    forall c | c in CLASSES :: AllAllowed(word, SourceName(prefix, c)) && 0 < |SourceName(prefix, c)| <= MAX_SOURCE_NAME
  }

  // ----- distinct classes, distinct sources -----

  lemma DropHead(head: string, a: string, b: string)
    requires head + a == head + b
    ensures a == b
  {
    assert (head + a)[|head|..] == a && (head + b)[|head|..] == b;
  }

  lemma ClassSourcesDiffer(c: int, d: int)
    requires HasSource(c) && HasSource(d) && ClassSource(c) == ClassSource(d)
    ensures c == d
  {
  }

  lemma SourcesDiffer(prefix: string, c: int, d: int)
    requires HasSource(c) && HasSource(d) && SourceName(prefix, c) == SourceName(prefix, d)
    ensures c == d
  {
    hide ClassSource;
    DropHead(prefix, "_" + ClassSource(c), "_" + ClassSource(d));
    DropHead("_", ClassSource(c), ClassSource(d));
    ClassSourcesDiffer(c, d);
  }

  // ----- the check at load time -----

  datatype Refusal = NotAllowed(name: string) | TooLong(name: string, excess: nat)

  datatype Verdict = Accepted | Refused(why: Refusal)

  /** Where the longest of the names stands, the first of them on a tie. */
  method Longest(prefix: string) returns (at: nat)
    ensures at < |CLASSES|
    ensures forall i :: 0 <= i < at ==> |SourceName(prefix, CLASSES[i])| < |SourceName(prefix, CLASSES[at])|
    ensures forall i :: at <= i < |CLASSES| ==> |SourceName(prefix, CLASSES[i])| <= |SourceName(prefix, CLASSES[at])|
  {
    hide ClassSource;
    at := 0;
    for n := 1 to |CLASSES|
      invariant at < n
      invariant forall i :: 0 <= i < at ==> |SourceName(prefix, CLASSES[i])| < |SourceName(prefix, CLASSES[at])|
      invariant forall i :: at <= i < n ==> |SourceName(prefix, CLASSES[i])| <= |SourceName(prefix, CLASSES[at])|
    {
      if |SourceName(prefix, CLASSES[n])| > |SourceName(prefix, CLASSES[at])| {
        at := n;
      }
    }
  }

  method CheckSourceNames(word: char -> bool, prefix: string) returns (v: Verdict)
    requires WordClass(word)
    ensures v.Accepted? <==> Registrable(word, prefix)
    ensures v.Refused? && v.why.NotAllowed? ==>
      exists c :: HasSource(c) && v.why.name == SourceName(prefix, c) && !AllAllowed(word, v.why.name)
    ensures v.Refused? && v.why.TooLong? ==>
      && (exists c :: HasSource(c) && v.why.name == SourceName(prefix, c))
      && |v.why.name| == MAX_SOURCE_NAME + v.why.excess > MAX_SOURCE_NAME
      && forall c :: HasSource(c) ==> |SourceName(prefix, c)| <= MAX_SOURCE_NAME + v.why.excess
    ensures v.Accepted? <==> AllAllowed(word, prefix) && |prefix| <= 5
  {
    hide ClassSource, AllAllowed;
    AcceptedMeans(word, prefix);
    for n := 0 to |CLASSES|
      invariant forall i :: 0 <= i < n ==> AllAllowed(word, SourceName(prefix, CLASSES[i]))
    {
      var name := SourceName(prefix, CLASSES[n]);
      if !Matches(word, name) {
        assert HasSource(CLASSES[n]);
        return Refused(NotAllowed(name));
      }
    }
    var at := Longest(prefix);
    var c := CLASSES[at];
    var longest := SourceName(prefix, c);
    if |longest| > MAX_SOURCE_NAME {
      return Refused(TooLong(longest, |longest| - MAX_SOURCE_NAME));
    }
    v := Accepted;
  }

  /** `[\w\-:.]+`, matched in full. */
  predicate Matches(word: char -> bool, name: string) {
    name != "" && AllAllowed(word, name)
  }

  lemma SuffixAllowed(word: char -> bool, c: int)
    requires WordClass(word) && HasSource(c)
    ensures AllAllowed(word, "_" + ClassSource(c)) && |ClassSource(c)| <= 14
  {
    forall i | 0 <= i < |ClassSource(c)| ensures Allowed(word, ClassSource(c)[i]) {
      assert ClassSource(c)[i] == '_' || 'a' <= ClassSource(c)[i] <= 'z';
    }
  }

  /** A prefix passes exactly when its own characters are allowed and it has at most five of them:
      the longest derived names take fifteen. */
  lemma AcceptedMeans(word: char -> bool, prefix: string)
    requires WordClass(word)
    ensures Registrable(word, prefix) <==> AllAllowed(word, prefix) && |prefix| <= 5
  {
    hide ClassSource, AllAllowed;
    forall c | HasSource(c)
      ensures AllAllowed(word, SourceName(prefix, c)) <==> AllAllowed(word, prefix)
      ensures |SourceName(prefix, c)| <= |prefix| + 15
    {
      SuffixAllowed(word, c);
      AllowedSum(word, prefix, "_" + ClassSource(c));
    }
    AuthenticationIsLongest(prefix);
  }

  lemma AuthenticationIsLongest(prefix: string)
    ensures HasSource(3002) && |SourceName(prefix, 3002)| == |prefix| + 15
  {
  }

  lemma AllowedSum(word: char -> bool, a: string, b: string)
    ensures AllAllowed(word, a + b) <==> AllAllowed(word, a) && AllAllowed(word, b)
  {
    assert forall i :: 0 <= i < |a| ==> (a + b)[i] == a[i];
    assert forall i :: 0 <= i < |b| ==> (a + b)[|a| + i] == b[i];
    assert forall i :: |a| <= i < |a| + |b| ==> (a + b)[i] == b[i - |a|];
  }

  // ----- the whole path -----

  function Partition(region: string, account: string, day: string, digest: string): string {
    "region=" + region + "/accountId=" + account + "/eventDay=" + day + "/" + digest + ".parquet"
  }

  /** What a PUT for `source` at `key` addresses in the bucket. */
  function KeyFor(source: string, key: string): string {
    "ext/" + source + "/" + key
  }

  function FullPath(prefix: string, region: string, account: string, classUid: int, day: string, digest: string): string
    requires HasSource(classUid)
  {
    KeyFor(SourceName(prefix, classUid), Partition(region, account, day, digest))
  }

  /** A separator that neither head holds cuts both sides at the same place. */
  lemma CutAtSlash(a: string, b: string, c: string, d: string)
    requires '/' !in a && '/' !in c && a + "/" + b == c + "/" + d
    ensures a == c && b == d
  {
    var s := a + "/" + b;
    assert s[|a|] == '/' && s[|c|] == '/';
    assert forall k :: 0 <= k < |a| ==> s[k] == a[k] && a[k] in a;
    assert forall k :: 0 <= k < |c| ==> s[k] == c[k] && c[k] in c;
    assert s[..|a|] == a && s[..|c|] == c;
    assert s[|a| + 1..] == b && s[|c| + 1..] == d;
  }

  lemma DropTail(a: string, b: string, tail: string)
    requires a + tail == b + tail
    ensures a == b
  {
    assert (a + tail)[..|a|] == a && (b + tail)[..|b|] == b;
  }

  lemma NameHasNoSlash(word: char -> bool, name: string)
    requires WordClass(word) && AllAllowed(word, name)
    ensures '/' !in name
  {
  }

  /** Distinct (class, day, digest) always address distinct objects: under one accepted prefix, a path
      is written for one class, one day and one batch. */
  lemma PathsDiffer(word: char -> bool, prefix: string, region: string, account: string,
                    c: int, day: string, digest: string, c': int, day': string, digest': string)
    requires WordClass(word) && AllAllowed(word, prefix) && HasSource(c) && HasSource(c')
    requires '/' !in day && '/' !in day'
    requires FullPath(prefix, region, account, c, day, digest) == FullPath(prefix, region, account, c', day', digest')
    ensures c == c' && day == day' && digest == digest'
  {
    hide Partition, SourceName, ClassSource, AllAllowed;
    var s, s' := SourceName(prefix, c), SourceName(prefix, c');
    NamesHaveNoSlash(word, prefix, c);
    NamesHaveNoSlash(word, prefix, c');
    var p, p' := Partition(region, account, day, digest), Partition(region, account, day', digest');
    assert FullPath(prefix, region, account, c, day, digest) == "ext/" + (s + "/" + p);
    assert FullPath(prefix, region, account, c', day', digest') == "ext/" + (s' + "/" + p');
    DropHead("ext/", s + "/" + p, s' + "/" + p');
    CutAtSlash(s, p, s', p');
    SourcesDiffer(prefix, c, c');
    PartitionsDiffer(region, account, day, digest, day', digest');
  }

  lemma NamesHaveNoSlash(word: char -> bool, prefix: string, c: int)
    requires WordClass(word) && AllAllowed(word, prefix) && HasSource(c)
    ensures '/' !in SourceName(prefix, c)
  {
    hide ClassSource, AllAllowed;
    SuffixAllowed(word, c);
    NameHasNoSlash(word, prefix);
    NameHasNoSlash(word, "_" + ClassSource(c));
    assert SourceName(prefix, c) == prefix + ("_" + ClassSource(c));
  }

  lemma PartitionsDiffer(region: string, account: string, day: string, digest: string, day': string, digest': string)
    requires '/' !in day && '/' !in day'
    requires Partition(region, account, day, digest) == Partition(region, account, day', digest')
    ensures day == day' && digest == digest'
  {
    var head := "region=" + region + "/accountId=" + account + "/eventDay=";
    assert Partition(region, account, day, digest) == head + (day + "/" + (digest + ".parquet"));
    assert Partition(region, account, day', digest') == head + (day' + "/" + (digest' + ".parquet"));
    DropHead(head, day + "/" + (digest + ".parquet"), day' + "/" + (digest' + ".parquet"));
    CutAtSlash(day, digest + ".parquet", day', digest' + ".parquet");
    DropTail(digest, digest', ".parquet");
  }
}
