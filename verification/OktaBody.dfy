/** The body of an event as the mapping builds it from a record, and why it is valid for its class. */
module OktaBody {
  import opened Domain
  import opened Leftovers
  import opened OcsfSchema
  import opened OktaRecords

  predicate Truthy(j: Json) {
    match j
    case JNull => false
    case JBool(b) => b
    case JInt(n) => n != 0
    case JStr(s) => s != ""
    case JArr(items) => items != []
    case JObj(fields) => fields != map[]
  }

  function Str(t: Texts, j: Json): string {
    if j.JStr? then j.s else t.render(j)
  }

  /** `str(value or "")` */
  function StrOr(t: Texts, j: Json, other: string): string {
    if Truthy(j) then Str(t, j) else other
  }

  datatype Entry = Entry(classUid: int, activityId: int)

  predicate LegalEntry(e: Entry) {
    HasActivity(e.classUid, e.activityId)
  }

  // ----- one record -----

  function StatusId(t: Texts, result: Json): int {
    if !Truthy(result) then 0
    else if t.upper(Str(t, result)) == "SUCCESS" then 1
    else if t.upper(Str(t, result)) == "FAILURE" then 2
    else 99
  }

  function SeverityId(t: Texts, severity: Json): int {
    var name := t.upper(StrOr(t, severity, ""));
    if name == "DEBUG" || name == "INFO" then 1
    else if name == "WARN" then 3
    else if name == "ERROR" then 4
    else if name == "FATAL" then 6
    else 0
  }

  function EpochMs(t: Texts, published: Json): int {
    if published.JInt? then published.n
    else if !published.JStr? || published.s == "" then 0
    else
      match t.parseTime(published.s)
      case Some(ms) => ms
      case None => 0
  }

  function Field(j: Json, key: string): Json {
    if j.JObj? && key in j.fields then j.fields[key] else JNull
  }

  /** The first dictionary of `target[]` of one of the types, looked at without being read. */
  function FirstTarget(t: Texts, source: Json, types: Option<set<string>>): (r: Json)
    ensures r.JObj?
  {
    var targets := Field(source, "target");
    if targets.JArr? then FirstOf(t, targets.items, types) else JObj(map[])
  }

  function FirstOf(t: Texts, items: seq<Json>, types: Option<set<string>>): (r: Json)
    ensures r.JObj?
  {
    if items == [] then JObj(map[])
    else if items[0].JObj? && (types.None? || StrOr(t, Field(items[0], "type"), "") in types.value) then items[0]
    else FirstOf(t, items[1..], types)
  }

  /** The attributes every class carries, each with its value. */
  ghost predicate HasBase(body: Body, e: Entry) {
    && "class_uid" in body && body["class_uid"] == JInt(e.classUid)
    && "category_uid" in body && body["category_uid"] == JInt(Category(e.classUid))
    && "activity_id" in body && body["activity_id"] == JInt(e.activityId)
    && "type_uid" in body && body["type_uid"] == JInt(TypeUid(e.classUid, e.activityId))
    && "time" in body && body["time"].JInt?
    && "severity_id" in body && body["severity_id"].JInt?
    && "status_id" in body && body["status_id"].JInt?
    && "metadata" in body && body["metadata"].JObj? && "uid" in body["metadata"].fields
    && body["metadata"].fields["uid"].JStr?
  }

  /** Valid for its class: only what the class defines, all it requires and not empty, and for an
      authentication the service and whether it was multi-factor. */
  ghost predicate ValidFor(body: Body, e: Entry) {
    && HasBase(body, e)
    && body.Keys <= Allowed(e.classUid)
    && (forall name :: name in Required(e.classUid) ==> name in body && Truthy(body[name]))
    && (e.classUid == 3002 ==> Authenticated(body))
  }

  // ----- what a record's body is -----

  /** One attribute, if there is something to put in it. */
  function When(c: bool, name: string, j: Json): Body {
    if c then map[name := j] else map[]
  }

  lemma PutWhen(body: Body, c: bool, name: string, j: Json)
    ensures body + When(c, name, j) == if c then body[name := j] else body
  {
  }

  lemma PutFirst(c: bool, name: string, j: Json)
    ensures When(c, name, j) == if c then map[][name := j] else map[]
  {
  }

  /** The texts of the event, each present exactly when the record has one. */
  function RemarksOf(t: Texts, source: Json): Body {
    var message, outcome := ValueAt(source, ["displayMessage"]), ValueAt(source, ["outcome", "result"]);
    var reason := ValueAt(source, ["outcome", "reason"]);
    When(Truthy(message), "message", JStr(Str(t, message)))
    + When(Truthy(outcome), "status", JStr(t.title(Str(t, outcome))))
    + When(Truthy(reason), "status_detail", JStr(Str(t, reason)))
  }

  /** An actor that says it is something other than a user. */
  predicate Machine(t: Texts, source: Json) {
    var kind := StrOr(t, ValueAt(source, ["actor", "type"]), "");
    kind != "" && t.casefold(kind) != "user"
  }

  /** What of the actor becomes what of the user. */
  const ACTOR_KEYS := [("id", "uid"), ("displayName", "name"), ("alternateId", "email_addr")]

  /** The first `n` of them, each carried when it has a value that is not the vendor's placeholder. */
  function PersonOf(t: Texts, source: Json, n: nat): Body
    requires n <= |ACTOR_KEYS|
  {
    if n == 0 then map[]
    else
      var v := ValueAt(source, ["actor", ACTOR_KEYS[n - 1].0]);
      PersonOf(t, source, n - 1)
      + When(Truthy(v) && t.casefold(Str(t, v)) != "unknown", ACTOR_KEYS[n - 1].1, JStr(Str(t, v)))
  }

  /** The acting person, or nothing: an actor that is not a user is left to `unmapped`. */
  function ActorOf(t: Texts, source: Json): Body {
    if Machine(t, source) then map[] else PersonOf(t, source, |ACTOR_KEYS|)
  }

  /** Who acted, twice over: as the class's user and as the actor. */
  function UsersOf(t: Texts, source: Json): Body {
    var actor := JObj(ActorOf(t, source));
    When(ActorOf(t, source) != map[], "user", actor)
    + When(ActorOf(t, source) != map[], "actor", JObj(map["user" := actor]))
  }

  lemma {:induction false} NoPlaceholder(t: Texts, source: Json, n: nat)
    requires n <= |ACTOR_KEYS|
    ensures forall key :: key in PersonOf(t, source, n) ==>
      PersonOf(t, source, n)[key].JStr? && t.casefold(PersonOf(t, source, n)[key].s) != "unknown"
  {
    hide Truthy, Str, ValueAt;
    if n > 0 {
      NoPlaceholder(t, source, n - 1);
    }
  }

  /** Who an event names: never a machine, the same person as user and as actor, and in no attribute the
      vendor's placeholder. */
  lemma WhoActed(t: Texts, source: Json)
    ensures var users := UsersOf(t, source);
      && ("user" in users <==> "actor" in users)
      && ("user" in users ==>
            && !Machine(t, source)
            && users["actor"] == JObj(map["user" := users["user"]])
            && users["user"].JObj? && users["user"].fields != map[]
            && forall key :: key in users["user"].fields ==>
                 users["user"].fields[key].JStr? && t.casefold(users["user"].fields[key].s) != "unknown")
  {
    hide Machine, PersonOf;
    NoPlaceholder(t, source, |ACTOR_KEYS|);
  }

  function LocationOf(t: Texts, location: Json): Body {
    var city, country, region := Field(location, "city"), Field(location, "country"), Field(location, "state");
    When(Truthy(city), "city", JStr(Str(t, city)))
    + When(Truthy(country), "country", JStr(Str(t, country)))
    + When(Truthy(region), "region", JStr(Str(t, region)))
  }

  function EndpointOf(t: Texts, source: Json): Body {
    var address, location := ValueAt(source, ["client", "ipAddress"]), ValueAt(source, ["client", "geographicalContext"]);
    When(Truthy(address), "ip", JStr(Str(t, address)))
    + When(LocationOf(t, location) != map[], "location", JObj(LocationOf(t, location)))
  }

  /** From where, with what, in which session. */
  function ClientOf(t: Texts, source: Json): Body {
    var userAgent := ValueAt(source, ["client", "userAgent", "rawUserAgent"]);
    var session := ValueAt(source, ["authenticationContext", "externalSessionId"]);
    When(EndpointOf(t, source) != map[], "src_endpoint", JObj(EndpointOf(t, source)))
    + When(Truthy(userAgent), "http_request", JObj(map["user_agent" := JStr(Str(t, userAgent))]))
    + When(Truthy(session), "session", JObj(map["uid" := JStr(Str(t, session))]))
  }

  predicate OccursAt(s: string, sub: string, i: nat) {
    i + |sub| <= |s| && s[i..i + |sub|] == sub
  }

  /** `sub in s` */
  predicate Contains(s: string, sub: string) {
    exists i :: 0 <= i <= |s| && OccursAt(s, sub, i)
  }

  /** A step, or a provider that names a factor. */
  predicate IsMfa(t: Texts, source: Json) {
    var provider := StrOr(t, ValueAt(source, ["authenticationContext", "credentialProvider"]), "");
    Truthy(ValueAt(source, ["authenticationContext", "authenticationStep"])) || Contains(t.upper(provider), "FACTOR")
  }

  function NameOr(t: Texts, j: Json, keys: seq<string>, other: string): string {
    if keys == [] then other
    else if Truthy(Field(j, keys[0])) then Str(t, Field(j, keys[0]))
    else NameOr(t, j, keys[1..], other)
  }

  /** What only an authentication carries: its service, the org itself when no application is named,
      and whether it was multi-factor. */
  function AuthenticationOf(t: Texts, source: Json, serviceName: string, classUid: int): Body {
    var target := FirstTarget(t, source, Some({"AppInstance", "AppUser"}));
    When(classUid == 3002, "service", JObj(map["name" := JStr(NameOr(t, target, ["displayName"], serviceName))]))
    + When(classUid == 3002, "is_mfa", JBool(IsMfa(t, source)))
  }

  /** Entity, privileges or group: what a class cannot do without, taken from the targets. */
  function ClassObjects(t: Texts, source: Json, classUid: int): Body {
    if classUid == 3004 then
      var entity := FirstTarget(t, source, None);
      map["entity" := JObj(map[
        "name" := JStr(NameOr(t, entity, ["displayName", "alternateId"], "unknown")),
        "uid" := JStr(StrOr(t, Field(entity, "id"), "")),
        "type" := JStr(StrOr(t, Field(entity, "type"), ""))])]
    else if classUid == 3005 then
      var granted := FirstTarget(t, source, Some({"AppInstance", "AppUser"}));
      map["privileges" := JArr([JStr(NameOr(t, granted, ["displayName", "alternateId"], "unknown"))])]
    else if classUid == 3006 then
      var group := FirstTarget(t, source, Some({"UserGroup"}));
      map["group" := JObj(map[
        "name" := JStr(NameOr(t, group, ["displayName"], "unknown")),
        "uid" := JStr(StrOr(t, Field(group, "id"), ""))])]
    else map[]
  }

  /** All that only some events carry. */
  function ExtrasOf(t: Texts, source: Json, serviceName: string, classUid: int): Body {
    RemarksOf(t, source) + UsersOf(t, source) + ClientOf(t, source)
    + AuthenticationOf(t, source, serviceName, classUid) + ClassObjects(t, source, classUid)
  }

  const BASE_KEYS: set<string> := {"class_uid", "category_uid", "activity_id", "type_uid", "time", "severity_id", "status_id", "metadata"}

  function BaseOf(e: Entry, time: int, severityId: int, statusId: int, metadata: Json): (r: Body)
    requires metadata.JObj? && "uid" in metadata.fields && metadata.fields["uid"].JStr?
    ensures HasBase(r, e) && r.Keys == BASE_KEYS && r["metadata"] == metadata
    ensures r["time"] == JInt(time) && r["severity_id"] == JInt(severityId) && r["status_id"] == JInt(statusId)
  {
    map[
      "class_uid" := JInt(e.classUid),
      "category_uid" := JInt(Category(e.classUid)),
      "activity_id" := JInt(e.activityId),
      "type_uid" := JInt(TypeUid(e.classUid, e.activityId)),
      "time" := JInt(time),
      "severity_id" := JInt(severityId),
      "status_id" := JInt(statusId),
      "metadata" := metadata]
  }

  /** Cut down to what the class defines. */
  function CutTo(body: Body, classUid: int): Body {
    map name | name in body && name in Allowed(classUid) :: body[name]
  }

  function Placeholder(name: string): Json {
    if name == "privileges" then JArr([JStr("unknown")]) else JObj(map["name" := JStr("unknown")])
  }

  lemma PlaceholderIsTruthy(name: string)
    ensures Truthy(Placeholder(name))
  {
    assert "name" in map["name" := JStr("unknown")];
  }

  /** Filled up with a thin placeholder where a required object is missing or empty. */
  function Filled(body: Body, names: seq<string>): Body {
    if names == [] then body
    else
      var n := |names| - 1;
      var before := Filled(body, names[..n]);
      if names[n] in before && Truthy(before[names[n]]) then before else before[names[n] := Placeholder(names[n])]
  }

  lemma {:induction false} FilledMeans(body: Body, names: seq<string>)
    ensures forall name :: name in Filled(body, names) <==> name in body || name in names
    ensures forall name :: name in names ==> Truthy(Filled(body, names)[name])
    ensures forall name :: name in body && (name !in names || Truthy(body[name])) ==> Filled(body, names)[name] == body[name]
    ensures forall name :: name in names && !(name in body && Truthy(body[name])) ==>
      Filled(body, names)[name] == if name == "privileges" then JArr([JStr("unknown")]) else JObj(map["name" := JStr("unknown")])
    decreases |names|
  {
    hide Truthy;
    if names != [] {
      var n := |names| - 1;
      FilledMeans(body, names[..n]);
      PlaceholderIsTruthy(names[n]);
      assert names == names[..n] + [names[n]];
    }
  }

  // ----- why it is valid -----

  predicate NotBase(extra: Body) {
    extra.Keys !! BASE_KEYS
  }

  /** What an authentication must carry. */
  predicate Authenticated(body: Body) {
    "service" in body && Truthy(body["service"]) && "is_mfa" in body && body["is_mfa"].JBool?
  }

  lemma MergeNotBase(a: Body, b: Body)
    requires NotBase(a) && NotBase(b)
    ensures NotBase(a + b)
  {
  }

  const REMARKS: set<string> := {"message", "status", "status_detail"}
  const USERS: set<string> := {"user", "actor"}
  const CLIENT: set<string> := {"src_endpoint", "http_request", "session"}
  const SIGN_IN: set<string> := {"service", "is_mfa"}
  const OBJECTS: set<string> := {"entity", "privileges", "group"}

  predicate Within(body: Body, names: set<string>) {
    body.Keys <= names
  }

  lemma MergeWithin(a: Body, b: Body, names: set<string>)
    requires Within(a, names) && Within(b, names)
    ensures Within(a + b, names)
  {
  }

  lemma WhenWithin(c: bool, name: string, j: Json, names: set<string>)
    requires name in names
    ensures Within(When(c, name, j), names)
  {
  }

  lemma WithinIsNotBase(body: Body)
    requires Within(body, REMARKS) || Within(body, USERS) || Within(body, CLIENT) || Within(body, SIGN_IN) || Within(body, OBJECTS)
    ensures NotBase(body)
  {
  }

  lemma RemarksWithin(t: Texts, source: Json)
    ensures Within(RemarksOf(t, source), REMARKS)
  {
    hide Truthy, Str, ValueAt, When, Within;
    var message, outcome := ValueAt(source, ["displayMessage"]), ValueAt(source, ["outcome", "result"]);
    var reason := ValueAt(source, ["outcome", "reason"]);
    WhenWithin(Truthy(message), "message", JStr(Str(t, message)), REMARKS);
    WhenWithin(Truthy(outcome), "status", JStr(t.title(Str(t, outcome))), REMARKS);
    WhenWithin(Truthy(reason), "status_detail", JStr(Str(t, reason)), REMARKS);
    var two := When(Truthy(message), "message", JStr(Str(t, message))) + When(Truthy(outcome), "status", JStr(t.title(Str(t, outcome))));
    MergeWithin(When(Truthy(message), "message", JStr(Str(t, message))), When(Truthy(outcome), "status", JStr(t.title(Str(t, outcome)))), REMARKS);
    MergeWithin(two, When(Truthy(reason), "status_detail", JStr(Str(t, reason))), REMARKS);
  }

  lemma UsersWithin(t: Texts, source: Json)
    ensures Within(UsersOf(t, source), USERS)
  {
    hide ActorOf, When, Within;
    var actor := JObj(ActorOf(t, source));
    var user, both := When(ActorOf(t, source) != map[], "user", actor), When(ActorOf(t, source) != map[], "actor", JObj(map["user" := actor]));
    WhenWithin(ActorOf(t, source) != map[], "user", actor, USERS);
    WhenWithin(ActorOf(t, source) != map[], "actor", JObj(map["user" := actor]), USERS);
    MergeWithin(user, both, USERS);
  }

  lemma ClientWithin(t: Texts, source: Json)
    ensures Within(ClientOf(t, source), CLIENT)
  {
    hide Truthy, Str, ValueAt, EndpointOf, When, Within;
    var userAgent := ValueAt(source, ["client", "userAgent", "rawUserAgent"]);
    var session := ValueAt(source, ["authenticationContext", "externalSessionId"]);
    var place := When(EndpointOf(t, source) != map[], "src_endpoint", JObj(EndpointOf(t, source)));
    var agent := When(Truthy(userAgent), "http_request", JObj(map["user_agent" := JStr(Str(t, userAgent))]));
    var last := When(Truthy(session), "session", JObj(map["uid" := JStr(Str(t, session))]));
    WhenWithin(EndpointOf(t, source) != map[], "src_endpoint", JObj(EndpointOf(t, source)), CLIENT);
    WhenWithin(Truthy(userAgent), "http_request", JObj(map["user_agent" := JStr(Str(t, userAgent))]), CLIENT);
    WhenWithin(Truthy(session), "session", JObj(map["uid" := JStr(Str(t, session))]), CLIENT);
    MergeWithin(place, agent, CLIENT);
    MergeWithin(place + agent, last, CLIENT);
  }

  lemma AuthenticationIsOne(t: Texts, source: Json, serviceName: string, classUid: int)
    ensures Within(AuthenticationOf(t, source, serviceName, classUid), SIGN_IN)
    ensures classUid == 3002 ==> Authenticated(AuthenticationOf(t, source, serviceName, classUid))
  {
    hide FirstTarget, NameOr, IsMfa;
    var name := NameOr(t, FirstTarget(t, source, Some({"AppInstance", "AppUser"})), ["displayName"], serviceName);
    assert "name" in map["name" := JStr(name)];
  }

  lemma ObjectsWithin(t: Texts, source: Json, classUid: int)
    ensures Within(ClassObjects(t, source, classUid), OBJECTS)
    ensures classUid == 3002 ==> ClassObjects(t, source, classUid) == map[]
  {
    hide FirstTarget, NameOr, StrOr;
  }

  lemma MergeAuthenticated(before: Body, authentication: Body, objects: Body, classUid: int)
    requires classUid == 3002 ==> Authenticated(authentication) && objects == map[]
    ensures classUid == 3002 ==> Authenticated(before + authentication + objects)
  {
  }

  lemma ExtrasAreNotBase(t: Texts, source: Json, serviceName: string, classUid: int)
    ensures NotBase(ExtrasOf(t, source, serviceName, classUid))
    ensures classUid == 3002 ==> Authenticated(ExtrasOf(t, source, serviceName, classUid))
  {
    hide NotBase, Within, Authenticated, RemarksOf, UsersOf, ClientOf, AuthenticationOf, ClassObjects;
    var remarks, users, client := RemarksOf(t, source), UsersOf(t, source), ClientOf(t, source);
    var authentication, objects := AuthenticationOf(t, source, serviceName, classUid), ClassObjects(t, source, classUid);
    RemarksWithin(t, source);
    UsersWithin(t, source);
    ClientWithin(t, source);
    AuthenticationIsOne(t, source, serviceName, classUid);
    ObjectsWithin(t, source, classUid);
    WithinIsNotBase(remarks);
    WithinIsNotBase(users);
    WithinIsNotBase(client);
    WithinIsNotBase(authentication);
    WithinIsNotBase(objects);
    MergeNotBase(remarks, users);
    MergeNotBase(remarks + users, client);
    MergeNotBase(remarks + users + client, authentication);
    MergeNotBase(remarks + users + client + authentication, objects);
    MergeAuthenticated(remarks + users + client, authentication, objects, classUid);
  }

  /** Cutting down to the class's attributes keeps the base, and an authentication's own. */
  lemma CutKeepsBase(base: Body, extra: Body, e: Entry)
    requires HasBase(base, e) && base.Keys == BASE_KEYS && NotBase(extra)
    ensures var cut := CutTo(base + extra, e.classUid);
      && HasBase(cut, e) && cut.Keys <= Allowed(e.classUid)
      && cut["metadata"] == base["metadata"] && cut["time"] == base["time"]
      && (e.classUid == 3002 && Authenticated(extra) ==> Authenticated(cut))
  {
    BaseIsAllowed(e.classUid);
    hide Allowed;
    var cut := CutTo(base + extra, e.classUid);
    assert forall name :: name in BASE_KEYS ==> name in cut && cut[name] == base[name];
  }

  lemma BaseIsAllowed(classUid: int)
    ensures BASE_KEYS <= Allowed(classUid)
    ensures classUid == 3002 ==> "service" in Allowed(classUid) && "is_mfa" in Allowed(classUid)
  {
  }

  lemma RequiredIsNotBase(classUid: int)
    ensures forall name :: name in Required(classUid) ==> name !in BASE_KEYS && name != "service" && name != "is_mfa"
  {
  }

  /** Filling up what is required completes the record. */
  lemma FilledIsValid(cut: Body, e: Entry)
    requires HasBase(cut, e) && cut.Keys <= Allowed(e.classUid) && (e.classUid == 3002 ==> Authenticated(cut))
    ensures var body := Filled(cut, Required(e.classUid));
      ValidFor(body, e) && HasBase(body, e) && body["metadata"] == cut["metadata"] && body["time"] == cut["time"]
  {
    RequiredIsNotBase(e.classUid);
    FilledMeans(cut, Required(e.classUid));
    forall name | name in Required(e.classUid) ensures name in Allowed(e.classUid) {
      RequiredIsAllowed(e.classUid, name);
    }
    hide Required, Allowed, Truthy, Filled;
    assert forall name :: name in BASE_KEYS ==> name !in Required(e.classUid);
  }

  lemma ValidMeans(body: Body, e: Entry)
    requires ValidFor(body, e)
    ensures HasBase(body, e)
  {
  }

  lemma WithUnmapped(body: Body, rest: Json, e: Entry)
    requires ValidFor(body, e)
    ensures ValidFor(body["unmapped" := rest], e)
    ensures body["unmapped" := rest]["time"] == body["time"] && body["unmapped" := rest]["metadata"] == body["metadata"]
  {
    assert forall name :: name in Required(e.classUid) ==> name != "unmapped" by { UnmappedIsNotRequired(e.classUid); }
    UnmappedIsAllowed(e.classUid);
    hide Allowed, Required, Truthy;
  }

  lemma UnmappedIsNotRequired(classUid: int)
    ensures forall name :: name in Required(classUid) ==> name != "unmapped"
  {
  }

  lemma UnmappedIsAllowed(classUid: int)
    ensures "unmapped" in Allowed(classUid)
  {
  }
}
