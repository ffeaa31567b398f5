/** Why the body that is built tells of the record what an event is to tell. */
module OktaMeaning {
  import opened Domain
  import opened Leftovers
  import opened OcsfSchema
  import opened OktaBody
  import opened OktaRecords

  // ----- looking into a body -----

  ghost function Look(body: Body, name: string): Option<Json> {
    if name in body then Some(body[name]) else None
  }

  /** What cutting and filling does to one attribute. */
  lemma LookFinished(candidate: Body, classUid: int, name: string)
    requires IsClass(classUid)
    ensures var body := Filled(CutTo(candidate, classUid), Required(classUid));
      && (name !in Allowed(classUid) ==> name !in body)
      && (name in Allowed(classUid) && name !in Required(classUid) ==> Look(body, name) == Look(candidate, name))
      && (name in Required(classUid) ==>
            name in body && body[name] == if name in candidate && Truthy(candidate[name]) then candidate[name] else Placeholder(name))
  {
    if name in Required(classUid) {
      RequiredIsAllowed(classUid, name);
    }
    FilledMeans(CutTo(candidate, classUid), Required(classUid));
    hide Allowed, Required, Truthy, Filled;
  }

  lemma WordIs(t: Texts, j: Json, path: Path)
    ensures Word(t, j, path) == if Truthy(ValueAt(j, path)) then Some(Str(t, ValueAt(j, path))) else None
    ensures Or(Word(t, j, path), "") == StrOr(t, ValueAt(j, path), "")
  {
    hide At;
  }

  // ----- which part of the body holds which attribute -----

  /** The parts of a body have no attribute in common. */
  lemma PartsApart(name: string)
    ensures name in REMARKS ==> name !in BASE_KEYS + USERS + CLIENT + SIGN_IN + OBJECTS
    ensures name in USERS ==> name !in BASE_KEYS + REMARKS + CLIENT + SIGN_IN + OBJECTS
    ensures name in CLIENT ==> name !in BASE_KEYS + REMARKS + USERS + SIGN_IN + OBJECTS
    ensures name in SIGN_IN ==> name !in BASE_KEYS + REMARKS + USERS + CLIENT + OBJECTS
    ensures name in OBJECTS ==> name !in BASE_KEYS + REMARKS + USERS + CLIENT + SIGN_IN
  {
  }

  lemma LookParts(base: Body, remarks: Body, users: Body, client: Body, signIn: Body, objects: Body, name: string)
    requires base.Keys == BASE_KEYS && Within(remarks, REMARKS) && Within(users, USERS) && Within(client, CLIENT)
    requires Within(signIn, SIGN_IN) && Within(objects, OBJECTS)
    ensures var candidate := base + (remarks + users + client + signIn + objects);
      && (name in BASE_KEYS ==> Look(candidate, name) == Look(base, name))
      && (name in REMARKS ==> Look(candidate, name) == Look(remarks, name))
      && (name in USERS ==> Look(candidate, name) == Look(users, name))
      && (name in CLIENT ==> Look(candidate, name) == Look(client, name))
      && (name in SIGN_IN ==> Look(candidate, name) == Look(signIn, name))
      && (name in OBJECTS ==> Look(candidate, name) == Look(objects, name))
      && (name in candidate ==> name in BASE_KEYS + REMARKS + USERS + CLIENT + SIGN_IN + OBJECTS)
  {
    PartsApart(name);
    hide BASE_KEYS, REMARKS, USERS, CLIENT, SIGN_IN, OBJECTS;
  }

  // ----- attribute by attribute -----

  lemma StatusIsTold(t: Texts, source: Json, body: Body)
    requires Look(body, "status_id") == Some(JInt(StatusId(t, ValueAt(source, ["outcome", "result"]))))
    requires Look(body, "status") == Look(RemarksOf(t, source), "status")
    ensures StatusTold(t, source, body)
  {
    WordIs(t, source, ["outcome", "result"]);
    LookRemarks(t, source);
    hide Truthy, Str, Word, ValueAt, RemarksOf;
  }

  lemma LookRemarks(t: Texts, source: Json)
    ensures var message, outcome := ValueAt(source, ["displayMessage"]), ValueAt(source, ["outcome", "result"]);
      var reason := ValueAt(source, ["outcome", "reason"]);
      && Look(RemarksOf(t, source), "message") == (if Truthy(message) then Some(JStr(Str(t, message))) else None)
      && Look(RemarksOf(t, source), "status") == (if Truthy(outcome) then Some(JStr(t.title(Str(t, outcome)))) else None)
      && Look(RemarksOf(t, source), "status_detail") == (if Truthy(reason) then Some(JStr(Str(t, reason))) else None)
  {
    hide Truthy, Str, ValueAt;
  }

  lemma SeverityIsTold(t: Texts, source: Json, body: Body)
    requires Look(body, "severity_id") == Some(JInt(SeverityId(t, ValueAt(source, ["severity"]))))
    ensures SeverityTold(t, source, body)
  {
    WordIs(t, source, ["severity"]);
    hide StrOr, Word, ValueAt;
  }

  lemma TimeIsTold(t: Texts, source: Json, body: Body)
    requires Look(body, "time") == Some(JInt(EpochMs(t, ValueAt(source, ["published"]))))
    ensures TimeTold(t, source, body)
  {
    hide At;
  }

  lemma RemarksAreTold(t: Texts, source: Json, body: Body)
    requires Look(body, "message") == Look(RemarksOf(t, source), "message")
    requires Look(body, "status_detail") == Look(RemarksOf(t, source), "status_detail")
    ensures RemarksTold(t, source, body)
  {
    WordIs(t, source, ["displayMessage"]);
    WordIs(t, source, ["outcome", "reason"]);
    LookRemarks(t, source);
    hide Truthy, Str, Word, ValueAt, RemarksOf;
  }

  // who

  lemma ForeignIs(t: Texts, source: Json)
    ensures Foreign(t, source) <==> Machine(t, source)
  {
    WordIs(t, source, ["actor", "type"]);
    hide StrOr, Word, ValueAt;
  }

  /** What one key of the actor becomes. */
  ghost function OfActor(t: Texts, source: Json, from: string, to: string): Body {
    var v := ValueAt(source, ["actor", from]);
    When(Truthy(v) && t.casefold(Str(t, v)) != "unknown", to, JStr(Str(t, v)))
  }

  lemma PersonOfThree(t: Texts, source: Json)
    ensures PersonOf(t, source, |ACTOR_KEYS|)
      == OfActor(t, source, "id", "uid") + OfActor(t, source, "displayName", "name") + OfActor(t, source, "alternateId", "email_addr")
  {
    hide Truthy, Str, ValueAt, When;
    assert PersonOf(t, source, 0) == map[];
    assert PersonOf(t, source, 1) == OfActor(t, source, "id", "uid");
    assert PersonOf(t, source, 2) == OfActor(t, source, "id", "uid") + OfActor(t, source, "displayName", "name");
  }

  lemma OfActorIs(t: Texts, source: Json, from: string, to: string, body: Body)
    requires !Foreign(t, source)
    requires Look(body, to) == Look(OfActor(t, source, from, to), to)
    ensures Carries(body, to, Known(t, source, from))
  {
    WordIs(t, source, ["actor", from]);
    hide Truthy, Str, Word, ValueAt, Foreign;
  }

  lemma LookThree(a: Body, b: Body, c: Body, x: string, y: string, z: string)
    requires Within(a, {x}) && Within(b, {y}) && Within(c, {z}) && x != y && y != z && x != z
    ensures var all := a + b + c; Look(all, x) == Look(a, x) && Look(all, y) == Look(b, y) && Look(all, z) == Look(c, z) && Within(all, {x, y, z})
  {
  }

  lemma ActorIsPerson(t: Texts, source: Json)
    ensures IsPerson(t, source, ActorOf(t, source))
  {
    ForeignIs(t, source);
    hide Machine, Foreign, PersonOf, OfActor, Carries, Word;
    if !Machine(t, source) {
      var person := ActorOf(t, source);
      var a, b := OfActor(t, source, "id", "uid"), OfActor(t, source, "displayName", "name");
      var c := OfActor(t, source, "alternateId", "email_addr");
      PersonOfThree(t, source);
      OfActorWithin(t, source, "id", "uid");
      OfActorWithin(t, source, "displayName", "name");
      OfActorWithin(t, source, "alternateId", "email_addr");
      LookThree(a, b, c, "uid", "name", "email_addr");
      OfActorIs(t, source, "id", "uid", person);
      OfActorIs(t, source, "displayName", "name", person);
      OfActorIs(t, source, "alternateId", "email_addr", person);
    } else {
      NoneIsPerson(t, source);
    }
  }

  lemma OfActorWithin(t: Texts, source: Json, from: string, to: string)
    ensures Within(OfActor(t, source, from, to), {to})
  {
    hide Truthy, Str, ValueAt;
  }

  lemma NoneIsPerson(t: Texts, source: Json)
    requires Foreign(t, source)
    ensures IsPerson(t, source, map[])
  {
    hide Foreign, Word;
  }

  lemma UserIsTold(t: Texts, source: Json, classUid: int, body: Body)
    requires IsClass(classUid)
    requires Look(body, "actor") == if classUid == 0 then None else Look(UsersOf(t, source), "actor")
    requires classUid in {3001, 3002, 3003, 3005} ==>
      "user" in body && body["user"] == (
        if "user" in UsersOf(t, source) && Truthy(UsersOf(t, source)["user"]) then UsersOf(t, source)["user"] else Placeholder("user"))
    requires classUid in {0, 3004} ==> "user" !in body
    requires classUid == 3006 ==> Look(body, "user") == Look(UsersOf(t, source), "user")
    ensures UserTold(t, source, classUid, body)
  {
    ActorIsPerson(t, source);
    var person := ActorOf(t, source);
    hide ActorOf, IsPerson;
    assert "user" in UsersOf(t, source) <==> person != map[];
    assert "actor" in UsersOf(t, source) <==> person != map[];
    assert "user" in UsersOf(t, source) ==> UsersOf(t, source)["user"] == JObj(person);
    assert IsPerson(t, source, person);
  }

  // from where

  lemma {:induction false} AtBelow(j: Json, path: Path, key: string)
    ensures At(j, path + [key]) ==
      if At(j, path).Some? && At(j, path).value.JObj? && key in At(j, path).value.fields then Some(At(j, path).value.fields[key]) else None
    decreases |path|
  {
    if path == [] {
      assert ([key])[1..] == [];
    } else if j.JObj? && path[0] in j.fields {
      AtBelow(j.fields[path[0]], path[1..], key);
      assert (path + [key])[1..] == path[1..] + [key];
    }
  }

  /** A field of what stands at a path is what stands one key below. */
  lemma FieldIs(j: Json, path: Path, key: string)
    ensures Field(ValueAt(j, path), key) == ValueAt(j, path + [key])
  {
    AtBelow(j, path, key);
    hide At;
  }

  lemma FieldOf(j: Json, key: string)
    ensures Field(j, key) == ValueAt(j, [key])
  {
    FieldIs(j, [], key);
    assert [] + [key] == [key];
  }

  lemma PlaceIs(t: Texts, source: Json)
    ensures IsPlace(t, source, LocationOf(t, ValueAt(source, ["client", "geographicalContext"])))
  {
    var path: Path := ["client", "geographicalContext"];
    var location := ValueAt(source, path);
    PlaceField(t, source, "city");
    PlaceField(t, source, "country");
    PlaceField(t, source, "state");
    hide Truthy, Str, Field, Word, ValueAt;
    var city, country, region := Field(location, "city"), Field(location, "country"), Field(location, "state");
    var a, b := When(Truthy(city), "city", JStr(Str(t, city))), When(Truthy(country), "country", JStr(Str(t, country)));
    var c := When(Truthy(region), "region", JStr(Str(t, region)));
    LookThree(a, b, c, "city", "country", "region");
  }

  lemma PlaceField(t: Texts, source: Json, key: string)
    ensures var v := Field(ValueAt(source, ["client", "geographicalContext"]), key);
      Word(t, source, ["client", "geographicalContext", key]) == if Truthy(v) then Some(Str(t, v)) else None
  {
    var path: Path := ["client", "geographicalContext"];
    FieldIs(source, path, key);
    assert path + [key] == ["client", "geographicalContext", key];
    WordIs(t, source, ["client", "geographicalContext", key]);
    hide Truthy, Str, Field, Word, ValueAt;
  }

  lemma EndpointIs(t: Texts, source: Json)
    ensures IsEndpoint(t, source, EndpointOf(t, source))
  {
    PlaceIs(t, source);
    WordIs(t, source, ["client", "ipAddress"]);
    hide Truthy, Str, Word, ValueAt, LocationOf, IsPlace;
    var place := LocationOf(t, ValueAt(source, ["client", "geographicalContext"]));
    assert IsPlace(t, source, place);
  }

  lemma ClientIsTold(t: Texts, source: Json, classUid: int, body: Body)
    requires Look(body, "src_endpoint") == if classUid == 0 then None else Look(ClientOf(t, source), "src_endpoint")
    requires Look(body, "http_request") == if classUid == 0 then None else Look(ClientOf(t, source), "http_request")
    requires Look(body, "session") == if classUid in {3002, 3003} then Look(ClientOf(t, source), "session") else None
    ensures ClientTold(t, source, classUid, body)
  {
    EndpointIs(t, source);
    WordIs(t, source, ["client", "userAgent", "rawUserAgent"]);
    WordIs(t, source, ["authenticationContext", "externalSessionId"]);
    LookClient(t, source);
    hide Truthy, Str, Word, ValueAt, EndpointOf, IsEndpoint, ClientOf;
    assert IsEndpoint(t, source, EndpointOf(t, source));
  }

  lemma LookClient(t: Texts, source: Json)
    ensures var agent := ValueAt(source, ["client", "userAgent", "rawUserAgent"]);
      var session := ValueAt(source, ["authenticationContext", "externalSessionId"]);
      var endpoint := EndpointOf(t, source);
      && Look(ClientOf(t, source), "src_endpoint") == (if endpoint != map[] then Some(JObj(endpoint)) else None)
      && Look(ClientOf(t, source), "http_request") == (if Truthy(agent) then Some(JObj(map["user_agent" := JStr(Str(t, agent))])) else None)
      && Look(ClientOf(t, source), "session") == (if Truthy(session) then Some(JObj(map["uid" := JStr(Str(t, session))])) else None)
  {
    hide Truthy, Str, ValueAt, EndpointOf;
  }

  // to what

  lemma FitsIs(t: Texts, target: Json, types: Option<set<string>>)
    ensures Fits(t, target, types) <==>
      target.JObj? && (types.None? || StrOr(t, Field(target, "type"), "") in types.value)
  {
    WordIs(t, target, ["type"]);
    FieldOf(target, "type");
    hide StrOr, Word, ValueAt, Field;
  }

  lemma {:induction false} FirstOfIs(t: Texts, items: seq<Json>, types: Option<set<string>>)
    ensures FirstIn(t, items, types, FirstOf(t, items, types))
  {
    if items != [] {
      FitsIs(t, items[0], types);
      hide Fits, StrOr, Field;
      if Fits(t, items[0], types) {
        assert items[0] == FirstOf(t, items, types);
      } else {
        var rest, target := items[1..], FirstOf(t, items, types);
        FirstOfIs(t, rest, types);
        assert forall k :: 1 <= k < |items| ==> items[k] == rest[k - 1];
        if i :| 0 <= i < |rest| && rest[i] == target && Fits(t, target, types) && forall k :: 0 <= k < i ==> !Fits(t, rest[k], types) {
          assert items[i + 1] == target;
        }
      }
    }
  }

  lemma FirstIs(t: Texts, source: Json, types: Option<set<string>>)
    ensures IsFirst(t, source, types, FirstTarget(t, source, types))
  {
    FieldOf(source, "target");
    var targets := Field(source, "target");
    if targets.JArr? {
      FirstOfIs(t, targets.items, types);
    }
    hide FirstIn, Field, FirstOf, At;
  }

  lemma ContainsIs(s: string)
    ensures Contains(s, "FACTOR") <==> exists i :: StandsAt("FACTOR", s, i)
  {
    if i :| StandsAt("FACTOR", s, i) {
      assert OccursAt(s, "FACTOR", i);
    }
    if i :| 0 <= i <= |s| && OccursAt(s, "FACTOR", i) {
      assert StandsAt("FACTOR", s, i);
    }
  }

  lemma NameIs(t: Texts, target: Json, other: string)
    ensures NameOr(t, target, ["displayName"], other) == Or(Word(t, target, ["displayName"]), other)
    ensures NameOr(t, target, ["displayName", "alternateId"], "unknown") == Title(t, target)
    ensures StrOr(t, Field(target, "id"), "") == Or(Word(t, target, ["id"]), "")
    ensures StrOr(t, Field(target, "type"), "") == Or(Word(t, target, ["type"]), "")
  {
    WordIs(t, target, ["displayName"]);
    WordIs(t, target, ["alternateId"]);
    WordIs(t, target, ["id"]);
    WordIs(t, target, ["type"]);
    FieldOf(target, "displayName");
    FieldOf(target, "alternateId");
    FieldOf(target, "id");
    FieldOf(target, "type");
    hide Truthy, Str, StrOr, Word, ValueAt, Field;
    NameOfTwo(t, target, "displayName", "alternateId", "unknown");
    NameOfTwo(t, target, "displayName", "displayName", other);
  }

  lemma NameOfTwo(t: Texts, target: Json, first: string, second: string, other: string)
    ensures NameOr(t, target, [first], other) == if Truthy(Field(target, first)) then Str(t, Field(target, first)) else other
    ensures NameOr(t, target, [first, second], other) ==
      if Truthy(Field(target, first)) then Str(t, Field(target, first))
      else if Truthy(Field(target, second)) then Str(t, Field(target, second)) else other
  {
    hide Truthy, Str, Field;
    assert [first, second][1..] == [second] && [first][1..] == [];
    assert NameOr(t, target, [second], other) == if Truthy(Field(target, second)) then Str(t, Field(target, second)) else other;
  }

  lemma SignInIsTold(t: Texts, source: Json, serviceName: string, classUid: int, body: Body)
    requires Look(body, "service") == if classUid == 3002 then Look(AuthenticationOf(t, source, serviceName, classUid), "service") else None
    requires Look(body, "is_mfa") == if classUid == 3002 then Look(AuthenticationOf(t, source, serviceName, classUid), "is_mfa") else None
    ensures ServiceTold(t, source, serviceName, classUid, body) && FactorsTold(t, source, classUid, body)
  {
    var target := FirstTarget(t, source, Some({"AppInstance", "AppUser"}));
    FirstIs(t, source, Some({"AppInstance", "AppUser"}));
    NameIs(t, target, serviceName);
    MfaIs(t, source);
    hide FirstTarget, IsFirst, NameOr, StrOr, Word, Field, IsMfa, StandsAt;
  }

  lemma MfaIs(t: Texts, source: Json)
    ensures var provider := t.upper(Or(Word(t, source, ["authenticationContext", "credentialProvider"]), ""));
      IsMfa(t, source) <==>
        Word(t, source, ["authenticationContext", "authenticationStep"]).Some? || exists i :: StandsAt("FACTOR", provider, i)
  {
    WordIs(t, source, ["authenticationContext", "authenticationStep"]);
    WordIs(t, source, ["authenticationContext", "credentialProvider"]);
    ContainsIs(t.upper(StrOr(t, ValueAt(source, ["authenticationContext", "credentialProvider"]), "")));
    hide Truthy, Str, StrOr, Word, ValueAt, Contains, StandsAt;
  }

  lemma EntityIsTold(t: Texts, source: Json, classUid: int, body: Body)
    requires classUid == 3004 ==> "entity" in body && Some(body["entity"]) == Look(ClassObjects(t, source, 3004), "entity")
    requires classUid != 3004 ==> "entity" !in body
    ensures EntityTold(t, source, classUid, body)
  {
    var target := FirstTarget(t, source, None);
    FirstIs(t, source, None);
    NameIs(t, target, "");
    hide FirstTarget, IsFirst, NameOr, StrOr, Word, Field, Title;
  }

  lemma PrivilegesAreTold(t: Texts, source: Json, classUid: int, body: Body)
    requires classUid == 3005 ==> "privileges" in body && Some(body["privileges"]) == Look(ClassObjects(t, source, 3005), "privileges")
    requires classUid != 3005 ==> "privileges" !in body
    ensures PrivilegesTold(t, source, classUid, body)
  {
    var target := FirstTarget(t, source, Some({"AppInstance", "AppUser"}));
    FirstIs(t, source, Some({"AppInstance", "AppUser"}));
    NameIs(t, target, "");
    hide FirstTarget, IsFirst, NameOr, StrOr, Word, Field, Title;
  }

  lemma GroupIsTold(t: Texts, source: Json, classUid: int, body: Body)
    requires classUid == 3006 ==> "group" in body && Some(body["group"]) == Look(ClassObjects(t, source, 3006), "group")
    requires classUid != 3006 ==> "group" !in body
    ensures GroupTold(t, source, classUid, body)
  {
    var target := FirstTarget(t, source, Some({"UserGroup"}));
    FirstIs(t, source, Some({"UserGroup"}));
    NameIs(t, target, "unknown");
    hide FirstTarget, IsFirst, NameOr, StrOr, Word, Field, Title;
  }

  // ----- the whole body -----

  ghost function BodyOver(t: Texts, source: Json, serviceName: string, classUid: int, base: Body): Body {
    Filled(CutTo(base + ExtrasOf(t, source, serviceName, classUid), classUid), Required(classUid))
  }

  /** The part of the body an attribute comes from. */
  ghost predicate ComesFrom(t: Texts, source: Json, serviceName: string, classUid: int, base: Body, part: Body, name: string) {
    || (name in BASE_KEYS && part == base)
    || (name in REMARKS && part == RemarksOf(t, source))
    || (name in USERS && part == UsersOf(t, source))
    || (name in CLIENT && part == ClientOf(t, source))
    || (name in SIGN_IN && part == AuthenticationOf(t, source, serviceName, classUid))
    || (name in OBJECTS && part == ClassObjects(t, source, classUid))
  }

  lemma LookBody(t: Texts, source: Json, serviceName: string, classUid: int, base: Body, part: Body, name: string)
    requires IsClass(classUid) && base.Keys == BASE_KEYS && ComesFrom(t, source, serviceName, classUid, base, part, name)
    ensures var body := BodyOver(t, source, serviceName, classUid, base);
      if name in Required(classUid) then
        name in body && body[name] == (if name in part && Truthy(part[name]) then part[name] else Placeholder(name))
      else Look(body, name) == if name in Allowed(classUid) then Look(part, name) else None
  {
    LookCandidate(t, source, serviceName, classUid, base, part, name);
    LookFinished(base + ExtrasOf(t, source, serviceName, classUid), classUid, name);
    hide ComesFrom, ExtrasOf, Filled, CutTo, Required, Allowed, Truthy, Placeholder;
  }

  lemma LookCandidate(t: Texts, source: Json, serviceName: string, classUid: int, base: Body, part: Body, name: string)
    requires base.Keys == BASE_KEYS && ComesFrom(t, source, serviceName, classUid, base, part, name)
    ensures Look(base + ExtrasOf(t, source, serviceName, classUid), name) == Look(part, name)
  {
    var remarks, users, client := RemarksOf(t, source), UsersOf(t, source), ClientOf(t, source);
    var signIn, objects := AuthenticationOf(t, source, serviceName, classUid), ClassObjects(t, source, classUid);
    PartsWithin(t, source, serviceName, classUid);
    LookParts(base, remarks, users, client, signIn, objects, name);
    hide Within, RemarksOf, UsersOf, ClientOf, AuthenticationOf, ClassObjects, BASE_KEYS, REMARKS, USERS, CLIENT, SIGN_IN, OBJECTS;
  }

  lemma AlwaysThere(classUid: int, name: string)
    requires IsClass(classUid) && name in BASE_KEYS + REMARKS
    ensures name in Allowed(classUid) && name !in Required(classUid)
  {
    BaseIsAllowed(classUid);
    RequiredIsNotBase(classUid);
    Carriers(classUid);
    hide Required, ClassAttributes;
  }

  /** Which attributes beside those a class may carry. */
  lemma SometimesThere(classUid: int)
    requires IsClass(classUid)
    ensures var a := Allowed(classUid);
      && ("actor" in a <==> classUid != 0) && ("src_endpoint" in a <==> classUid != 0) && ("http_request" in a <==> classUid != 0)
      && ("user" in a <==> classUid in {3001, 3002, 3003, 3005, 3006})
      && ("service" in a <==> classUid == 3002) && ("is_mfa" in a <==> classUid == 3002)
      && ("session" in a <==> classUid in {3002, 3003}) && ("entity" in a <==> classUid == 3004)
      && (classUid == 3005 ==> "privileges" in a) && (classUid == 3006 ==> "group" in a)
  {
    Carriers(classUid);
    hide Required, ClassAttributes;
  }

  lemma Names()
    ensures "status_id" in BASE_KEYS && "severity_id" in BASE_KEYS && "time" in BASE_KEYS && "metadata" in BASE_KEYS
    ensures "message" in REMARKS && "status" in REMARKS && "status_detail" in REMARKS
    ensures "user" in USERS && "actor" in USERS
    ensures "src_endpoint" in CLIENT && "http_request" in CLIENT && "session" in CLIENT
    ensures "service" in SIGN_IN && "is_mfa" in SIGN_IN
    ensures "entity" in OBJECTS && "privileges" in OBJECTS && "group" in OBJECTS
  {
  }

  /** What every class carries is told as it was put in. */
  lemma LookAlways(t: Texts, source: Json, serviceName: string, classUid: int, base: Body, part: Body, name: string)
    requires IsClass(classUid) && base.Keys == BASE_KEYS && name in BASE_KEYS + REMARKS
    requires ComesFrom(t, source, serviceName, classUid, base, part, name)
    ensures Look(BodyOver(t, source, serviceName, classUid, base), name) == Look(part, name)
  {
    AlwaysThere(classUid, name);
    LookBody(t, source, serviceName, classUid, base, part, name);
    hide BASE_KEYS, REMARKS, USERS, CLIENT, SIGN_IN, OBJECTS, BodyOver, ComesFrom, Allowed, Required, Truthy, Placeholder;
  }

  lemma BaseIsTold(t: Texts, source: Json, serviceName: string, classUid: int, base: Body)
    requires IsClass(classUid) && base.Keys == BASE_KEYS && "status_id" in base && "severity_id" in base && "time" in base && "metadata" in base
    requires base["status_id"] == JInt(StatusId(t, ValueAt(source, ["outcome", "result"])))
    requires base["severity_id"] == JInt(SeverityId(t, ValueAt(source, ["severity"])))
    requires base["time"] == JInt(EpochMs(t, ValueAt(source, ["published"])))
    ensures var body := BodyOver(t, source, serviceName, classUid, base);
      && StatusTold(t, source, body) && SeverityTold(t, source, body) && TimeTold(t, source, body) && RemarksTold(t, source, body)
      && Look(body, "metadata") == Some(base["metadata"])
  {
    hide BASE_KEYS, REMARKS, USERS, CLIENT, SIGN_IN, OBJECTS;
    hide BodyOver, RemarksOf, StatusId, SeverityId, EpochMs, ValueAt, StatusTold, SeverityTold, TimeTold, RemarksTold, Allowed, Required;
    var body, remarks := BodyOver(t, source, serviceName, classUid, base), RemarksOf(t, source);
    Names();
    LookAlways(t, source, serviceName, classUid, base, base, "status_id");
    LookAlways(t, source, serviceName, classUid, base, base, "severity_id");
    LookAlways(t, source, serviceName, classUid, base, base, "time");
    LookAlways(t, source, serviceName, classUid, base, base, "metadata");
    LookAlways(t, source, serviceName, classUid, base, remarks, "message");
    LookAlways(t, source, serviceName, classUid, base, remarks, "status");
    LookAlways(t, source, serviceName, classUid, base, remarks, "status_detail");
    StatusIsTold(t, source, body);
    SeverityIsTold(t, source, body);
    TimeIsTold(t, source, body);
    RemarksAreTold(t, source, body);
  }

  lemma WhoIsTold(t: Texts, source: Json, serviceName: string, classUid: int, base: Body)
    requires IsClass(classUid) && base.Keys == BASE_KEYS
    ensures UserTold(t, source, classUid, BodyOver(t, source, serviceName, classUid, base))
  {
    hide BASE_KEYS, REMARKS, USERS, CLIENT, SIGN_IN, OBJECTS;
    hide BodyOver, UsersOf, Allowed, Required, ClassAttributes, UserTold, Truthy, Placeholder;
    Names();
    SometimesThere(classUid);
    Requires(classUid);
    LookBody(t, source, serviceName, classUid, base, UsersOf(t, source), "user");
    LookBody(t, source, serviceName, classUid, base, UsersOf(t, source), "actor");
    UserIsTold(t, source, classUid, BodyOver(t, source, serviceName, classUid, base));
  }

  lemma WhereIsTold(t: Texts, source: Json, serviceName: string, classUid: int, base: Body)
    requires IsClass(classUid) && base.Keys == BASE_KEYS
    ensures ClientTold(t, source, classUid, BodyOver(t, source, serviceName, classUid, base))
  {
    hide BASE_KEYS, REMARKS, USERS, CLIENT, SIGN_IN, OBJECTS;
    hide BodyOver, ClientOf, Allowed, Required, ClassAttributes, ClientTold, Truthy, Placeholder;
    Names();
    SometimesThere(classUid);
    Requires(classUid);
    LookBody(t, source, serviceName, classUid, base, ClientOf(t, source), "src_endpoint");
    LookBody(t, source, serviceName, classUid, base, ClientOf(t, source), "http_request");
    LookBody(t, source, serviceName, classUid, base, ClientOf(t, source), "session");
    ClientIsTold(t, source, classUid, BodyOver(t, source, serviceName, classUid, base));
  }

  lemma ServiceIsTold(t: Texts, source: Json, serviceName: string, classUid: int, base: Body)
    requires IsClass(classUid) && base.Keys == BASE_KEYS
    ensures var body := BodyOver(t, source, serviceName, classUid, base);
      ServiceTold(t, source, serviceName, classUid, body) && FactorsTold(t, source, classUid, body)
  {
    hide BASE_KEYS, REMARKS, USERS, CLIENT, SIGN_IN, OBJECTS;
    hide BodyOver, AuthenticationOf, Allowed, Required, ClassAttributes, ServiceTold, FactorsTold, Truthy, Placeholder;
    var signIn := AuthenticationOf(t, source, serviceName, classUid);
    Names();
    SometimesThere(classUid);
    Requires(classUid);
    LookBody(t, source, serviceName, classUid, base, signIn, "service");
    LookBody(t, source, serviceName, classUid, base, signIn, "is_mfa");
    SignInIsTold(t, source, serviceName, classUid, BodyOver(t, source, serviceName, classUid, base));
  }

  lemma Requires(classUid: int)
    requires IsClass(classUid)
    ensures var r := Required(classUid);
      && ("user" in r <==> classUid in {3001, 3002, 3003, 3005}) && ("entity" in r <==> classUid == 3004)
      && ("privileges" in r <==> classUid == 3005) && ("group" in r <==> classUid == 3006)
      && "actor" !in r && "src_endpoint" !in r && "http_request" !in r && "session" !in r && "service" !in r && "is_mfa" !in r
  {
    Carriers(classUid);
    hide Required, ClassAttributes;
  }

  lemma ObjectsOfClass(t: Texts, source: Json, classUid: int)
    ensures var objects := ClassObjects(t, source, classUid);
      && ("entity" in objects <==> classUid == 3004) && ("entity" in objects ==> Truthy(objects["entity"]))
      && ("privileges" in objects <==> classUid == 3005) && ("privileges" in objects ==> Truthy(objects["privileges"]))
      && ("group" in objects <==> classUid == 3006) && ("group" in objects ==> Truthy(objects["group"]))
  {
    hide FirstTarget, NameOr, StrOr;
    var objects := ClassObjects(t, source, classUid);
    assert classUid == 3004 ==> "name" in objects["entity"].fields;
    assert classUid == 3006 ==> "name" in objects["group"].fields;
  }

  lemma ObjectsAreTold(t: Texts, source: Json, serviceName: string, classUid: int, base: Body)
    requires IsClass(classUid) && base.Keys == BASE_KEYS
    ensures var body := BodyOver(t, source, serviceName, classUid, base);
      EntityTold(t, source, classUid, body) && PrivilegesTold(t, source, classUid, body) && GroupTold(t, source, classUid, body)
  {
    hide BASE_KEYS, REMARKS, USERS, CLIENT, SIGN_IN, OBJECTS;
    hide BodyOver, ClassObjects, Allowed, Required, ClassAttributes, EntityTold, PrivilegesTold, GroupTold, Truthy, Placeholder;
    var body, objects := BodyOver(t, source, serviceName, classUid, base), ClassObjects(t, source, classUid);
    Names();
    SometimesThere(classUid);
    Requires(classUid);
    ObjectsOfClass(t, source, classUid);
    LookBody(t, source, serviceName, classUid, base, objects, "entity");
    LookBody(t, source, serviceName, classUid, base, objects, "privileges");
    LookBody(t, source, serviceName, classUid, base, objects, "group");
    EntityIsTold(t, source, classUid, body);
    PrivilegesAreTold(t, source, classUid, body);
    GroupIsTold(t, source, classUid, body);
  }

  /** The body tells all there is to tell, and has nothing else in it. */
  lemma BodyIsTold(t: Texts, source: Json, serviceName: string, classUid: int, base: Body)
    requires IsClass(classUid) && base.Keys == BASE_KEYS && "status_id" in base && "severity_id" in base && "time" in base && "metadata" in base
    requires base["status_id"] == JInt(StatusId(t, ValueAt(source, ["outcome", "result"])))
    requires base["severity_id"] == JInt(SeverityId(t, ValueAt(source, ["severity"])))
    requires base["time"] == JInt(EpochMs(t, ValueAt(source, ["published"])))
    ensures Told(t, source, serviceName, classUid, BodyOver(t, source, serviceName, classUid, base))
    ensures Look(BodyOver(t, source, serviceName, classUid, base), "metadata") == Some(base["metadata"])
  {
    hide BASE_KEYS, REMARKS, USERS, CLIENT, SIGN_IN, OBJECTS, BodyOver, ValueAt, StatusId, SeverityId, EpochMs;
    hide StatusTold, SeverityTold, TimeTold, RemarksTold, UserTold, ClientTold, ServiceTold, FactorsTold, EntityTold, PrivilegesTold, GroupTold;
    BaseIsTold(t, source, serviceName, classUid, base);
    WhoIsTold(t, source, serviceName, classUid, base);
    WhereIsTold(t, source, serviceName, classUid, base);
    ServiceIsTold(t, source, serviceName, classUid, base);
    ObjectsAreTold(t, source, serviceName, classUid, base);
    NothingElse(t, source, serviceName, classUid, base);
  }

  lemma NothingElse(t: Texts, source: Json, serviceName: string, classUid: int, base: Body)
    requires IsClass(classUid) && base.Keys == BASE_KEYS
    ensures BodyOver(t, source, serviceName, classUid, base).Keys <= ATTRIBUTES
  {
    PartsWithin(t, source, serviceName, classUid);
    Requires(classUid);
    hide RemarksOf, UsersOf, ClientOf, AuthenticationOf, ClassObjects;
    forall name | name in BodyOver(t, source, serviceName, classUid, base) ensures name in ATTRIBUTES {
      LookFinished(base + ExtrasOf(t, source, serviceName, classUid), classUid, name);
      hide CutTo, Filled, Allowed, Required, Truthy, Placeholder;
    }
  }

  lemma PartsWithin(t: Texts, source: Json, serviceName: string, classUid: int)
    ensures Within(RemarksOf(t, source), REMARKS) && Within(UsersOf(t, source), USERS) && Within(ClientOf(t, source), CLIENT)
    ensures Within(AuthenticationOf(t, source, serviceName, classUid), SIGN_IN) && Within(ClassObjects(t, source, classUid), OBJECTS)
  {
    RemarksWithin(t, source);
    UsersWithin(t, source);
    ClientWithin(t, source);
    AuthenticationIsOne(t, source, serviceName, classUid);
    ObjectsWithin(t, source, classUid);
    hide Within, RemarksOf, UsersOf, ClientOf, AuthenticationOf, ClassObjects;
  }

  lemma ToldHasNoMore(t: Texts, source: Json, serviceName: string, classUid: int, body: Body)
    requires Told(t, source, serviceName, classUid, body)
    ensures "unmapped" !in body
  {
    hide StatusTold, SeverityTold, TimeTold, RemarksTold, UserTold, ClientTold, ServiceTold, FactorsTold, EntityTold, PrivilegesTold, GroupTold;
  }
}
