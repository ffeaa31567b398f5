/** The sink's settings taken together: what is refused before anything is written, and what an
    accepted setting guarantees of every class. */
module Settings {
  import opened Domain
  import opened Text
  import opened Naming
  import opened Roles

  datatype Kind = Local | S3

  datatype Sink = Sink(
    kind: Kind, bucket: Option<string>, roles: map<string, string>, externalId: Option<string>, sourceName: string)

  datatype Fault =
    | BadSourceName
    | NoBucket
    | RolesWithoutS3
    | RolesWithoutExternalId
    | ExternalIdWithoutRoles
    | WrongRoles(missing: set<string>, spare: set<string>)
    | BucketWithoutS3

  /** Set, and not to the empty string. */
  predicate Given(o: Option<string>) {
    o.Some? && o.value != ""
  }

  /** The checks, in order, the name's own before those on the settings together; the first that fails
      is the one reported. */
  function Check(word: char -> bool, c: Sink): Option<Fault> {
    var expected := AllSourceNames(c.sourceName);
    if !Registrable(word, c.sourceName) then Some(BadSourceName)
    else if c.kind.S3? && !Given(c.bucket) then Some(NoBucket)
    else if c.roles != map[] && !c.kind.S3? then Some(RolesWithoutS3)
    else if c.roles != map[] && !Given(c.externalId) then Some(RolesWithoutExternalId)
    else if Given(c.externalId) && c.roles == map[] then Some(ExternalIdWithoutRoles)
    else if c.roles != map[] && c.roles.Keys != expected then
      Some(WrongRoles(expected - c.roles.Keys, c.roles.Keys - expected))
    else if c.kind.Local? && c.bucket.Some? then Some(BucketWithoutS3)
    else None
  }

  /** What is accepted: a registrable prefix; a bucket for S3, and only there; and either roles with S3, an
      external id and every source's name, or neither roles nor an external id. */
  lemma AcceptedMeans(word: char -> bool, c: Sink)
    ensures Check(word, c).None? <==>
      && Registrable(word, c.sourceName)
      && (if c.kind.S3? then Given(c.bucket) else c.bucket.None?)
      && (if c.roles == map[] then !Given(c.externalId)
          else c.kind.S3? && Given(c.externalId) && c.roles.Keys == AllSourceNames(c.sourceName))
  {
  }

  /** Which fault is reported: each one's own, and only when the checks before it pass. */
  lemma FaultMeans(word: char -> bool, c: Sink)
    requires Check(word, c).Some?
    ensures match Check(word, c).value
      case BadSourceName => !Registrable(word, c.sourceName)
      case NoBucket => Registrable(word, c.sourceName) && c.kind.S3? && !Given(c.bucket)
      case RolesWithoutS3 => Registrable(word, c.sourceName) && c.kind.Local? && c.roles != map[]
      case RolesWithoutExternalId => c.kind.S3? && Given(c.bucket) && c.roles != map[] && !Given(c.externalId)
      case ExternalIdWithoutRoles => (c.kind.S3? ==> Given(c.bucket)) && c.roles == map[] && Given(c.externalId)
      case WrongRoles(missing, spare) =>
        c.kind.S3? && Given(c.bucket) && Given(c.externalId) && c.roles != map[] && (missing != {} || spare != {})
      case BucketWithoutS3 => c.kind.Local? && c.bucket.Some? && c.roles == map[] && !Given(c.externalId)
  {
    hide Registrable, AllSourceNames;
    SameSets(AllSourceNames(c.sourceName), c.roles.Keys);
  }

  /** Every class has a role to write with, and no role is left over. */
  lemma EveryClassHasItsRole(word: char -> bool, c: Sink)
    requires Check(word, c).None? && c.roles != map[]
    ensures c.kind.S3? && Given(c.bucket) && Given(c.externalId)
    ensures forall uid :: HasSource(uid) ==> SourceName(c.sourceName, uid) in c.roles
    ensures forall name :: name in c.roles ==> exists uid :: HasSource(uid) && SourceName(c.sourceName, uid) == name
    ensures |c.roles| == |CLASSES|
  {
    assert c.roles.Keys == AllSourceNames(c.sourceName);
    NamesAreAsManyAsClasses(c.sourceName);
    assert |c.roles| == |c.roles.Keys|;
  }

  /** A report of wrong roles names exactly the roles to add and the roles to drop. */
  lemma WrongRolesAreExact(word: char -> bool, c: Sink)
    requires Check(word, c).Some? && Check(word, c).value.WrongRoles?
    ensures var f := Check(word, c).value;
      && (f.missing != {} || f.spare != {})
      && (c.roles.Keys - f.spare) + f.missing == AllSourceNames(c.sourceName)
  {
    SameSets(AllSourceNames(c.sourceName), c.roles.Keys);
  }

  lemma SameSets(a: set<string>, b: set<string>)
    ensures a - b == {} && b - a == {} ==> a == b
    ensures (b - (b - a)) + (a - b) == a
  {
    if a - b == {} && b - a == {} {
      assert forall x | x in a :: x !in a - b;
      assert forall x | x in b :: x !in b - a;
    }
  }

  /** The names of the first `n` classes. */
  function NamesUpTo(prefix: string, n: nat): set<string>
    requires n <= |CLASSES|
  {
    set i | 0 <= i < n :: SourceName(prefix, CLASSES[i])
  }

  lemma NamesUpToLast(prefix: string, n: nat)
    requires n < |CLASSES|
    ensures NamesUpTo(prefix, n + 1) == NamesUpTo(prefix, n) + {SourceName(prefix, CLASSES[n])}
  {
    hide SourceName, CLASSES;
  }

  lemma NameIsNew(prefix: string, n: nat)
    requires n < |CLASSES|
    ensures SourceName(prefix, CLASSES[n]) !in NamesUpTo(prefix, n)
  {
    hide SourceName, NamesUpTo;
    forall i | 0 <= i < n ensures SourceName(prefix, CLASSES[i]) != SourceName(prefix, CLASSES[n]) {
      if SourceName(prefix, CLASSES[i]) == SourceName(prefix, CLASSES[n]) {
        SourcesDiffer(prefix, CLASSES[i], CLASSES[n]);
      }
    }
    NotAmong(prefix, n, SourceName(prefix, CLASSES[n]));
  }

  lemma NotAmong(prefix: string, n: nat, name: string)
    requires n <= |CLASSES| && forall i :: 0 <= i < n ==> SourceName(prefix, CLASSES[i]) != name
    ensures name !in NamesUpTo(prefix, n)
  {
    hide SourceName, CLASSES;
  }

  lemma {:induction false} NamesUpToSize(prefix: string, n: nat)
    requires n <= |CLASSES|
    ensures |NamesUpTo(prefix, n)| == n
  {
    hide SourceName, CLASSES;
    if n > 0 {
      NamesUpToSize(prefix, n - 1);
      NamesUpToLast(prefix, n - 1);
      NameIsNew(prefix, n - 1);
    }
  }

  /** No two classes share a source name, so there are as many names as classes. */
  lemma NamesAreAsManyAsClasses(prefix: string)
    ensures |AllSourceNames(prefix)| == |CLASSES|
  {
    NamesUpToSize(prefix, |CLASSES|);
    assert AllSourceNames(prefix) == NamesUpTo(prefix, |CLASSES|) by {
      forall name | name in AllSourceNames(prefix) ensures name in NamesUpTo(prefix, |CLASSES|) {
        var c :| c in CLASSES && SourceName(prefix, c) == name;
        var i :| 0 <= i < |CLASSES| && CLASSES[i] == c;
      }
    }
  }

  /** From the environment to an accepted setting: a role list that names every source, written with any
      padding in any order, is read, and accepted if and only if the prefix is one to register under: of
      allowed characters, five at most. */
  lemma CompleteRoleListIsAccepted(word: char -> bool, ws: seq<Written>, prefix: string, bucket: string, externalId: string)
    requires WordClass(word) && forall w :: w in ws ==> Writable(w)
    requires forall name :: name in AllSourceNames(prefix) <==> exists i :: 0 <= i < |ws| && ws[i].name == name
    requires bucket != "" && externalId != ""
    ensures var roles := Entries(Split(Join(ShowAll(ws), ','), ','));
      Check(word, Sink(S3, Some(bucket), roles, Some(externalId), prefix)).None? <==> AllAllowed(word, prefix) && |prefix| <= 5
  {
    Naming.AcceptedMeans(word, prefix);
    SomeName(prefix);
    hide AllSourceNames, Registrable, AllAllowed, Check, Entries, Classify, Show, Join, Split, RolesOf, Writable;
    RoleListRoundTrip(ws);
    RolesOfKeys(ws);
    var roles := Entries(Split(Join(ShowAll(ws), ','), ','));
    assert roles.Keys == AllSourceNames(prefix);
    AcceptedWith(word, Sink(S3, Some(bucket), roles, Some(externalId), prefix));
  }

  lemma AcceptedWith(word: char -> bool, c: Sink)
    requires c.kind.S3? && Given(c.bucket) && Given(c.externalId) && c.roles.Keys == AllSourceNames(c.sourceName) != {}
    ensures Check(word, c).None? <==> Registrable(word, c.sourceName)
  {
    hide AllSourceNames, Registrable;
  }

  lemma SomeName(prefix: string)
    ensures AllSourceNames(prefix) != {}
  {
    assert SourceName(prefix, CLASSES[0]) in AllSourceNames(prefix);
  }
}
