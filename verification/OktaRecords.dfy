/** What an OCSF event tells of an Okta record, attribute by attribute, in terms of the record alone. */
module OktaRecords {
  import opened Domain
  import opened Leftovers

  /** Python's text and time services, used but not modelled: `str` of a value that is not a string,
      case conversion, and reading a timestamp or a number. */
  datatype Texts = Texts(
    render: Json -> string,
    upper: string -> string,
    title: string -> string,
    casefold: string -> string,
    parseTime: string -> Option<int>,
    parseInt: string -> Option<int>)

  type Body = map<string, Json>

  // ----- what a record says -----

  /** The values Python counts as false. */
  ghost const BLANKS: set<Json> := {JNull, JBool(false), JInt(0), JStr(""), JArr([]), JObj(map[])}

  /** The text of a value. */
  ghost function TextOf(t: Texts, j: Json): string {
    match j
    case JStr(s) => s
    case _ => t.render(j)
  }

  /** What the record says at a path: nothing where there is no value, or one of the blank ones. */
  ghost function Word(t: Texts, j: Json, path: Path): Option<string> {
    match At(j, path)
    case None => None
    case Some(v) => if v in BLANKS then None else Some(TextOf(t, v))
  }

  ghost function Or(word: Option<string>, other: string): string {
    match word
    case Some(s) => s
    case None => other
  }

  /** The attribute is there exactly if something is said, and is what is said. */
  ghost predicate Carries(body: Body, name: string, word: Option<string>) {
    match word
    case Some(s) => name in body && body[name] == JStr(s)
    case None => name !in body
  }

  // ----- what every event carries -----

  /** 0 if there is no outcome, 1 for a success, 2 for a failure, 99 for anything else. */
  ghost predicate StatusTold(t: Texts, source: Json, body: Body) {
    var said := Word(t, source, ["outcome", "result"]);
    && "status_id" in body && body["status_id"].JInt?
    && (body["status_id"] == JInt(0) <==> said.None?)
    && (body["status_id"] == JInt(1) <==> said.Some? && t.upper(said.value) == "SUCCESS")
    && (body["status_id"] == JInt(2) <==> said.Some? && t.upper(said.value) == "FAILURE")
    && body["status_id"].n in {0, 1, 2, 99}
    && ("status" in body <==> said.Some?)
    && (said.Some? ==> body["status"] == JStr(t.title(said.value)))
  }

  ghost predicate SeverityTold(t: Texts, source: Json, body: Body) {
    var name := t.upper(Or(Word(t, source, ["severity"]), ""));
    && "severity_id" in body && body["severity_id"].JInt?
    && (body["severity_id"] == JInt(1) <==> name == "INFO" || name == "DEBUG")
    && (body["severity_id"] == JInt(3) <==> name == "WARN")
    && (body["severity_id"] == JInt(4) <==> name == "ERROR")
    && (body["severity_id"] == JInt(6) <==> name == "FATAL")
    && body["severity_id"].n in {0, 1, 3, 4, 6}
  }

  /** A number is taken as it is, a text as the time it reads as; anything else is time 0. */
  ghost predicate TimeTold(t: Texts, source: Json, body: Body) {
    "time" in body && body["time"].JInt? &&
    match At(source, ["published"])
    case Some(JInt(ms)) => body["time"] == JInt(ms)
    case Some(JStr(s)) => body["time"] == JInt(if s != "" && t.parseTime(s).Some? then t.parseTime(s).value else 0)
    case _ => body["time"] == JInt(0)
  }

  ghost predicate MetadataTold(t: Texts, source: Json, ocsfVersion: string, mappingVersion: string, eventType: string, body: Body) {
    var published := At(source, ["published"]);
    "metadata" in body && body["metadata"] == JObj(map[
      "version" := JStr(ocsfVersion),
      "uid" := JStr(Or(Word(t, source, ["uuid"]), "")),
      "original_time" := JStr(if published.None? || published.value == JNull then "" else TextOf(t, published.value)),
      "event_code" := JStr(eventType),
      "product" := JObj(map["name" := JStr("Okta System Log"), "vendor_name" := JStr("Okta")]),
      "labels" := JArr([JStr("okta-ocsf-mapping:" + mappingVersion)])])
  }

  ghost predicate RemarksTold(t: Texts, source: Json, body: Body) {
    && Carries(body, "message", Word(t, source, ["displayMessage"]))
    && Carries(body, "status_detail", Word(t, source, ["outcome", "reason"]))
  }

  // ----- who -----

  /** The actor says it is something other than a user. */
  ghost predicate Foreign(t: Texts, source: Json) {
    var kind := Or(Word(t, source, ["actor", "type"]), "");
    kind != "" && t.casefold(kind) != "user"
  }

  /** What is said of a person: nothing of an actor that is no user, and not the vendor's placeholder. */
  ghost function Known(t: Texts, source: Json, key: string): Option<string> {
    var said := Word(t, source, ["actor", key]);
    if said.Some? && !Foreign(t, source) && t.casefold(said.value) != "unknown" then said else None
  }

  ghost predicate IsPerson(t: Texts, source: Json, person: Body) {
    && person.Keys <= {"uid", "name", "email_addr"}
    && Carries(person, "uid", Known(t, source, "id"))
    && Carries(person, "name", Known(t, source, "displayName"))
    && Carries(person, "email_addr", Known(t, source, "alternateId"))
  }

  /** The same person as the user and as the actor, of the classes that have them; a class that cannot
      do without a user has one of unknown name instead. */
  ghost predicate UserTold(t: Texts, source: Json, classUid: int, body: Body) {
    exists person :: IsPerson(t, source, person)
      && ("actor" in body <==> person != map[] && classUid != 0)
      && ("actor" in body ==> body["actor"] == JObj(map["user" := JObj(person)]))
      && ("user" in body <==> classUid in {3001, 3002, 3003, 3005} || (person != map[] && classUid == 3006))
      && ("user" in body ==> body["user"] == JObj(if person != map[] then person else map["name" := JStr("unknown")]))
  }

  // ----- from where -----

  ghost predicate IsPlace(t: Texts, source: Json, place: Body) {
    && place.Keys <= {"city", "country", "region"}
    && Carries(place, "city", Word(t, source, ["client", "geographicalContext", "city"]))
    && Carries(place, "country", Word(t, source, ["client", "geographicalContext", "country"]))
    && Carries(place, "region", Word(t, source, ["client", "geographicalContext", "state"]))
  }

  ghost predicate IsEndpoint(t: Texts, source: Json, endpoint: Body) {
    && endpoint.Keys <= {"ip", "location"}
    && Carries(endpoint, "ip", Word(t, source, ["client", "ipAddress"]))
    && exists place :: IsPlace(t, source, place)
         && ("location" in endpoint <==> place != map[]) && (place != map[] ==> endpoint["location"] == JObj(place))
  }

  ghost predicate ClientTold(t: Texts, source: Json, classUid: int, body: Body) {
    var agent := Word(t, source, ["client", "userAgent", "rawUserAgent"]);
    var session := Word(t, source, ["authenticationContext", "externalSessionId"]);
    && (exists endpoint :: IsEndpoint(t, source, endpoint)
          && ("src_endpoint" in body <==> endpoint != map[] && classUid != 0)
          && ("src_endpoint" in body ==> body["src_endpoint"] == JObj(endpoint)))
    && ("http_request" in body <==> agent.Some? && classUid != 0)
    && ("http_request" in body ==> body["http_request"] == JObj(map["user_agent" := JStr(agent.value)]))
    && ("session" in body <==> session.Some? && classUid in {3002, 3003})
    && ("session" in body ==> body["session"] == JObj(map["uid" := JStr(session.value)]))
  }

  // ----- to what -----

  /** A dictionary, of one of the types if any are named. */
  ghost predicate Fits(t: Texts, target: Json, types: Option<set<string>>) {
    target.JObj? && (types.Some? ==> Or(Word(t, target, ["type"]), "") in types.value)
  }

  /** The first of the items that fits, or an empty dictionary if none does. */
  ghost predicate FirstIn(t: Texts, items: seq<Json>, types: Option<set<string>>, target: Json) {
    || (target == JObj(map[]) && forall k :: 0 <= k < |items| ==> !Fits(t, items[k], types))
    || exists i :: 0 <= i < |items| && items[i] == target && Fits(t, target, types)
         && forall k :: 0 <= k < i ==> !Fits(t, items[k], types)
  }

  /** The first target that fits. */
  ghost predicate IsFirst(t: Texts, source: Json, types: Option<set<string>>, target: Json) {
    match At(source, ["target"])
    case Some(JArr(items)) => FirstIn(t, items, types, target)
    case _ => target == JObj(map[])
  }

  /** The sign-in's service: the application it names first, or else the org's own. */
  ghost predicate ServiceTold(t: Texts, source: Json, serviceName: string, classUid: int, body: Body) {
    && ("service" in body <==> classUid == 3002)
    && ("service" in body ==>
          exists target :: IsFirst(t, source, Some({"AppInstance", "AppUser"}), target)
            && body["service"] == JObj(map["name" := JStr(Or(Word(t, target, ["displayName"]), serviceName))]))
  }

  ghost predicate StandsAt(word: string, s: string, i: nat) {
    i + |word| <= |s| && s[i..i + |word|] == word
  }

  /** A sign-in is multi-factor if it says a step, or its provider's name holds the word FACTOR. */
  ghost predicate FactorsTold(t: Texts, source: Json, classUid: int, body: Body) {
    var provider := t.upper(Or(Word(t, source, ["authenticationContext", "credentialProvider"]), ""));
    && ("is_mfa" in body <==> classUid == 3002)
    && ("is_mfa" in body ==> body["is_mfa"] == JBool(
          Word(t, source, ["authenticationContext", "authenticationStep"]).Some?
          || exists i :: StandsAt("FACTOR", provider, i)))
  }

  /** By its display name, or else its alternate id, or else as unknown. */
  ghost function Title(t: Texts, target: Json): string {
    Or(Word(t, target, ["displayName"]), Or(Word(t, target, ["alternateId"]), "unknown"))
  }

  ghost predicate EntityTold(t: Texts, source: Json, classUid: int, body: Body) {
    && ("entity" in body <==> classUid == 3004)
    && ("entity" in body ==>
          exists target :: IsFirst(t, source, None, target)
            && body["entity"] == JObj(map["name" := JStr(Title(t, target)),
                                          "uid" := JStr(Or(Word(t, target, ["id"]), "")),
                                          "type" := JStr(Or(Word(t, target, ["type"]), ""))]))
  }

  ghost predicate PrivilegesTold(t: Texts, source: Json, classUid: int, body: Body) {
    && ("privileges" in body <==> classUid == 3005)
    && ("privileges" in body ==>
          exists target :: IsFirst(t, source, Some({"AppInstance", "AppUser"}), target)
            && body["privileges"] == JArr([JStr(Title(t, target))]))
  }

  ghost predicate GroupTold(t: Texts, source: Json, classUid: int, body: Body) {
    && ("group" in body <==> classUid == 3006)
    && ("group" in body ==>
          exists target :: IsFirst(t, source, Some({"UserGroup"}), target)
            && body["group"] == JObj(map["name" := JStr(Or(Word(t, target, ["displayName"]), "unknown")),
                                         "uid" := JStr(Or(Word(t, target, ["id"]), ""))]))
  }

  // ----- all of it -----

  ghost const ATTRIBUTES: set<string> := {
    "class_uid", "category_uid", "activity_id", "type_uid", "time", "severity_id", "status_id", "metadata",
    "message", "status", "status_detail", "user", "actor", "src_endpoint", "http_request", "session",
    "service", "is_mfa", "entity", "privileges", "group"}

  /** Everything an event of the class tells of the record beside what it leaves unmapped. */
  ghost predicate Told(t: Texts, source: Json, serviceName: string, classUid: int, body: Body) {
    && StatusTold(t, source, body) && SeverityTold(t, source, body) && TimeTold(t, source, body)
    && RemarksTold(t, source, body) && UserTold(t, source, classUid, body) && ClientTold(t, source, classUid, body)
    && ServiceTold(t, source, serviceName, classUid, body) && FactorsTold(t, source, classUid, body)
    && EntityTold(t, source, classUid, body) && PrivilegesTold(t, source, classUid, body) && GroupTold(t, source, classUid, body)
    && body.Keys <= ATTRIBUTES
  }
}
