/** One Okta record to one OCSF event. The mapping is total, emits only what the class defines, always
    emits what the class requires, and leaves what it did not read under `unmapped`. */
module OktaMapping {
  import opened Domain
  import opened Leftovers
  import opened OcsfSchema
  import opened OktaBody
  import opened OktaMeaning
  import opened OktaRecords

  // ----- the mapping table -----

  function IntOf(t: Texts, j: Json): Option<int> {
    match j
    case JInt(n) => Some(n)
    case JBool(b) => Some(if b then 1 else 0)
    case JStr(s) => t.parseInt(s)
    case _ => None
  }

  /** One row, validated when the table is loaded; `None` is a refused table. */
  function LoadEntry(t: Texts, row: Json): Option<Entry> {
    if !row.JObj? || "class_uid" !in row.fields || "activity_id" !in row.fields then None
    else
      var classUid, activityId := IntOf(t, row.fields["class_uid"]), IntOf(t, row.fields["activity_id"]);
      if classUid.None? || activityId.None? then None
      else if !IsClass(classUid.value) then None
      else if !HasActivity(classUid.value, activityId.value) then None
      else Some(Entry(classUid.value, activityId.value))
  }

  /** The number a value stands for: itself, a boolean as 0 or 1, or what a text reads as. */
  ghost predicate ReadsAs(t: Texts, j: Json, n: int) {
    j == JInt(n) || (j == JBool(false) && n == 0) || (j == JBool(true) && n == 1) || (j.JStr? && t.parseInt(j.s) == Some(n))
  }

  /** A row is taken exactly as what it says, and only if OCSF defines that. */
  lemma LoadEntryMeans(t: Texts, row: Json, e: Entry)
    ensures LoadEntry(t, row) == Some(e) <==>
      && row.JObj? && "class_uid" in row.fields && "activity_id" in row.fields
      && ReadsAs(t, row.fields["class_uid"], e.classUid) && ReadsAs(t, row.fields["activity_id"], e.activityId)
      && e.classUid in LAST_ACTIVITY && (e.activityId == 99 || 0 <= e.activityId <= LAST_ACTIVITY[e.classUid])
  {
    Classes(e.classUid, e.activityId);
    hide HasActivity;
  }

  datatype Table = Table(events: map<string, Entry>, fallback: Entry)

  predicate LegalTable(table: Table) {
    LegalEntry(table.fallback) && forall name :: name in table.events ==> LegalEntry(table.events[name])
  }

  /** Loads a table, refusing it if any row is not legal. */
  method LoadTable(t: Texts, rows: map<string, Json>, fallback: Json) returns (table: Option<Table>)
    ensures table.Some? <==>
      LoadEntry(t, fallback).Some? && forall name :: name in rows ==> LoadEntry(t, rows[name]).Some?
    ensures table.Some? ==> LegalTable(table.value) && table.value.events.Keys == rows.Keys
    ensures table.Some? ==> LoadEntry(t, fallback) == Some(table.value.fallback)
    ensures table.Some? ==> forall name :: name in rows ==> LoadEntry(t, rows[name]) == Some(table.value.events[name])
  {
    var first := LoadEntry(t, fallback);
    if first.None? {
      return None;
    }
    var events: map<string, Entry> := map[];
    var left := rows.Keys;
    while left != {}
      invariant left <= rows.Keys && events.Keys == rows.Keys - left
      invariant forall name :: name in events ==> LoadEntry(t, rows[name]) == Some(events[name])
      decreases left
    {
      var name :| name in left;
      var loaded := LoadEntry(t, rows[name]);
      if loaded.None? {
        return None;
      }
      events := events[name := loaded.value];
      left := left - {name};
    }
    table := Some(Table(events, first.value));
  }

  // ----- which paths a record is read at -----

  const BASE_PATHS: seq<Path> := [["published"], ["outcome", "result"], ["severity"], ["uuid"]]
  const REMARK_PATHS: seq<Path> := [["displayMessage"], ["outcome", "reason"]]
  const PERSON_PATHS: seq<Path> := [["actor", "id"], ["actor", "displayName"], ["actor", "alternateId"]]
  const CLIENT_PATHS: seq<Path> := [["client", "ipAddress"], ["client", "geographicalContext"],
    ["client", "userAgent", "rawUserAgent"], ["authenticationContext", "externalSessionId"]]
  const MFA_PATHS: seq<Path> := [["authenticationContext", "authenticationStep"], ["authenticationContext", "credentialProvider"]]

  /** A machine's actor is looked at no further than its type. */
  function ActorPaths(t: Texts, source: Json): seq<Path> {
    [["actor", "type"]] + if Machine(t, source) then [] else PERSON_PATHS
  }

  function ExtraPaths(t: Texts, source: Json, classUid: int): seq<Path> {
    REMARK_PATHS + ActorPaths(t, source) + CLIENT_PATHS + if classUid == 3002 then MFA_PATHS else []
  }

  /** Every path the mapping looks at. `target` is not among them: it names more than a class has room
      for, so it is left whole. */
  function PathsRead(t: Texts, source: Json, classUid: int): seq<Path> {
    [["eventType"]] + (BASE_PATHS + ExtraPaths(t, source, classUid))
  }

  predicate NotTarget(paths: seq<Path>) {
    forall i :: 0 <= i < |paths| ==> paths[i] != [] && paths[i][0] != "target"
  }

  lemma TargetIsNotRead(t: Texts, source: Json, classUid: int)
    ensures NotTarget(PathsRead(t, source, classUid))
  {
    hide Machine;
    assert "target"[0] == 't';
    assert NotTarget(BASE_PATHS) && NotTarget(REMARK_PATHS) && NotTarget(PERSON_PATHS) && NotTarget(CLIENT_PATHS) && NotTarget(MFA_PATHS);
  }

  // ----- building it -----

  method Remarks(t: Texts, reader: Reader, outcome: Json) returns (extra: Body)
    requires reader.Valid() && outcome == ValueAt(reader.source, ["outcome", "result"])
    modifies reader
    ensures reader.Valid() && reader.consumed == old(reader.consumed) + Present(reader.source, REMARK_PATHS)
    ensures extra == RemarksOf(t, reader.source)
  {
    hide Truthy, ValueAt, Str, When, Present;
    extra := map[];
    var message := reader.Get(["displayMessage"]);
    PutFirst(Truthy(message), "message", JStr(Str(t, message)));
    if Truthy(message) {
      extra := extra["message" := JStr(Str(t, message))];
    }
    PutWhen(extra, Truthy(outcome), "status", JStr(t.title(Str(t, outcome))));
    if Truthy(outcome) {
      extra := extra["status" := JStr(t.title(Str(t, outcome)))];
    }
    var reason := reader.Get(["outcome", "reason"]);
    PutWhen(extra, Truthy(reason), "status_detail", JStr(Str(t, reason)));
    if Truthy(reason) {
      extra := extra["status_detail" := JStr(Str(t, reason))];
    }
    PresentSum(reader.source, [["displayMessage"]], [["outcome", "reason"]]);
    assert REMARK_PATHS == [["displayMessage"]] + [["outcome", "reason"]];
  }

  method Actor(t: Texts, reader: Reader) returns (user: Body)
    requires reader.Valid()
    modifies reader
    ensures reader.Valid() && reader.consumed == old(reader.consumed) + Present(reader.source, ActorPaths(t, reader.source))
    ensures user == ActorOf(t, reader.source)
  {
    hide At, StrOr, PersonOf;
    user := map[];
    var kindValue := reader.Get(["actor", "type"]);
    var kind := StrOr(t, kindValue, "");
    if kind != "" && t.casefold(kind) != "user" {
      assert [["actor", "type"]] + [] == [["actor", "type"]];
      return;
    }
    user := Person(t, reader);
  }

  method Person(t: Texts, reader: Reader) returns (user: Body)
    requires reader.Valid()
    modifies reader
    ensures reader.Valid() && reader.consumed == old(reader.consumed) + Present(reader.source, PERSON_PATHS)
    ensures user == PersonOf(t, reader.source, |ACTOR_KEYS|)
  {
    hide Truthy, Str, ValueAt, When, Present;
    user := map[];
    PresentNone(reader.source);
    assert PERSON_PATHS[..0] == [];
    for n := 0 to |ACTOR_KEYS|
      invariant reader.Valid() && reader.consumed == old(reader.consumed) + Present(reader.source, PERSON_PATHS[..n])
      invariant user == PersonOf(t, reader.source, n)
    {
      var (from, to) := ACTOR_KEYS[n];
      var value := reader.Get(["actor", from]);
      PutWhen(user, Truthy(value) && t.casefold(Str(t, value)) != "unknown", to, JStr(Str(t, value)));
      if Truthy(value) && t.casefold(Str(t, value)) != "unknown" {
        user := user[to := JStr(Str(t, value))];
      }
      PersonPath(n);
      assert PERSON_PATHS[..n + 1] == PERSON_PATHS[..n] + [PERSON_PATHS[n]];
      PresentSum(reader.source, PERSON_PATHS[..n], [["actor", from]]);
    }
    assert PERSON_PATHS[..|ACTOR_KEYS|] == PERSON_PATHS;
  }

  lemma PersonPath(n: nat)
    requires n < |ACTOR_KEYS|
    ensures n < |PERSON_PATHS| && PERSON_PATHS[n] == ["actor", ACTOR_KEYS[n].0]
  {
  }

  lemma PresentNone(source: Json)
    ensures Present(source, []) == {}
  {
  }

  method SrcEndpoint(t: Texts, reader: Reader) returns (endpoint: Body)
    requires reader.Valid()
    modifies reader
    ensures reader.Valid() && reader.consumed == old(reader.consumed) + Present(reader.source, CLIENT_PATHS[..2])
    ensures endpoint == EndpointOf(t, reader.source)
  {
    hide Truthy, Str, ValueAt, When, LocationOf, Present;
    endpoint := map[];
    var address := reader.Get(["client", "ipAddress"]);
    PutFirst(Truthy(address), "ip", JStr(Str(t, address)));
    if Truthy(address) {
      endpoint := endpoint["ip" := JStr(Str(t, address))];
    }
    var location := reader.Get(["client", "geographicalContext"]);
    NoLocation(t, location);
    PutWhen(endpoint, LocationOf(t, location) != map[], "location", JObj(LocationOf(t, location)));
    if location.JObj? {
      var trimmed := Location(t, location);
      if trimmed != map[] {
        endpoint := endpoint["location" := JObj(trimmed)];
      }
    }
    PresentSum(reader.source, [["client", "ipAddress"]], [["client", "geographicalContext"]]);
    assert CLIENT_PATHS[..2] == [["client", "ipAddress"]] + [["client", "geographicalContext"]];
  }

  method Location(t: Texts, location: Json) returns (trimmed: Body)
    ensures trimmed == LocationOf(t, location)
  {
    hide Truthy, Str, When, Field;
    trimmed := map[];
    var city, country, region := Field(location, "city"), Field(location, "country"), Field(location, "state");
    PutFirst(Truthy(city), "city", JStr(Str(t, city)));
    if Truthy(city) { trimmed := trimmed["city" := JStr(Str(t, city))]; }
    PutWhen(trimmed, Truthy(country), "country", JStr(Str(t, country)));
    if Truthy(country) { trimmed := trimmed["country" := JStr(Str(t, country))]; }
    PutWhen(trimmed, Truthy(region), "region", JStr(Str(t, region)));
    if Truthy(region) { trimmed := trimmed["region" := JStr(Str(t, region))]; }
  }

  lemma NoLocation(t: Texts, location: Json)
    ensures !location.JObj? ==> LocationOf(t, location) == map[]
  {
  }

  class OktaMapper {
    const texts: Texts
    const table: Table
    const serviceName: string
    const ocsfVersion: string
    const mappingVersion: string
    /** How often each event type the table does not know has been seen. */
    var unmappedTypes: map<string, nat>

    constructor (texts: Texts, table: Table, serviceName: string, ocsfVersion: string, mappingVersion: string)
      requires LegalTable(table)
      ensures this.texts == texts && this.table == table && this.serviceName == serviceName && unmappedTypes == map[]
      ensures this.ocsfVersion == ocsfVersion && this.mappingVersion == mappingVersion
    {
      this.texts, this.table, this.serviceName := texts, table, serviceName;
      this.ocsfVersion, this.mappingVersion, unmappedTypes := ocsfVersion, mappingVersion, map[];
    }

    /** The record's own identity, and the rules that mapped it. */
    function Metadata(published: Json, uuid: Json, eventType: string): (r: Json)
      ensures r.JObj? && "uid" in r.fields && r.fields["uid"] == JStr(StrOr(texts, uuid, ""))
      ensures "event_code" in r.fields && r.fields["event_code"] == JStr(eventType)
    {
      var about := map[
        "version" := JStr(ocsfVersion),
        "original_time" := JStr(if published == JNull then "" else Str(texts, published)),
        "product" := JObj(map["name" := JStr("Okta System Log"), "vendor_name" := JStr("Okta")]),
        "labels" := JArr([JStr("okta-ocsf-mapping:" + mappingVersion)])];
      JObj(about["uid" := JStr(StrOr(texts, uuid, ""))]["event_code" := JStr(eventType)])
    }

    /** What every class carries, each value from its place in the record. */
    function BaseFor(source: Json, e: Entry, eventType: string): (r: Body)
      ensures HasBase(r, e) && r.Keys == BASE_KEYS
      ensures r["metadata"].fields["uid"] == JStr(StrOr(texts, ValueAt(source, ["uuid"]), ""))
      ensures r["time"] == JInt(EpochMs(texts, ValueAt(source, ["published"])))
    {
      var published := ValueAt(source, ["published"]);
      BaseOf(e, EpochMs(texts, published), SeverityId(texts, ValueAt(source, ["severity"])),
             StatusId(texts, ValueAt(source, ["outcome", "result"])),
             Metadata(published, ValueAt(source, ["uuid"]), eventType))
    }

    /** The whole body: everything the event could carry, cut down to what its class defines, and
        filled up to what its class requires. */
    function BodyFor(source: Json, e: Entry, eventType: string): Body {
      Filled(CutTo(BaseFor(source, e, eventType) + ExtrasOf(texts, source, serviceName, e.classUid), e.classUid),
             Required(e.classUid))
    }

    method BaseFields(reader: Reader, e: Entry, eventType: string) returns (base: Body, outcome: Json)
      requires reader.Valid()
      modifies reader
      ensures reader.Valid() && reader.consumed == old(reader.consumed) + Present(reader.source, BASE_PATHS)
      ensures base == BaseFor(reader.source, e, eventType) && outcome == ValueAt(reader.source, ["outcome", "result"])
    {
      hide SeverityId, StatusId, EpochMs, StrOr, At, Metadata, BaseOf;
      var published := reader.Get(["published"]);
      outcome := reader.Get(["outcome", "result"]);
      var severity := reader.Get(["severity"]);
      var uuid := reader.Get(["uuid"]);
      base := BaseOf(e, EpochMs(texts, published), SeverityId(texts, severity), StatusId(texts, outcome), Metadata(published, uuid, eventType));
    }

    method Users(reader: Reader) returns (extra: Body)
      requires reader.Valid()
      modifies reader
      ensures reader.Valid() && reader.consumed == old(reader.consumed) + Present(reader.source, ActorPaths(texts, reader.source))
      ensures extra == UsersOf(texts, reader.source)
    {
      hide ActorOf, ActorPaths, Present, When;
      extra := map[];
      var actor := Actor(texts, reader);
      PutFirst(actor != map[], "user", JObj(actor));
      PutWhen(When(actor != map[], "user", JObj(actor)), actor != map[], "actor", JObj(map["user" := JObj(actor)]));
      if actor != map[] {
        extra := extra["user" := JObj(actor)];
        extra := extra["actor" := JObj(map["user" := JObj(actor)])];
      }
    }

    method Client(reader: Reader) returns (extra: Body)
      requires reader.Valid()
      modifies reader
      ensures reader.Valid() && reader.consumed == old(reader.consumed) + Present(reader.source, CLIENT_PATHS)
      ensures extra == ClientOf(texts, reader.source)
    {
      hide Truthy, ValueAt, Str, EndpointOf, When, Present;
      extra := map[];
      var endpoint := SrcEndpoint(texts, reader);
      PutFirst(endpoint != map[], "src_endpoint", JObj(endpoint));
      if endpoint != map[] {
        extra := extra["src_endpoint" := JObj(endpoint)];
      }
      var userAgent := reader.Get(["client", "userAgent", "rawUserAgent"]);
      PutWhen(extra, Truthy(userAgent), "http_request", JObj(map["user_agent" := JStr(Str(texts, userAgent))]));
      if Truthy(userAgent) {
        extra := extra["http_request" := JObj(map["user_agent" := JStr(Str(texts, userAgent))])];
      }
      var session := reader.Get(["authenticationContext", "externalSessionId"]);
      PutWhen(extra, Truthy(session), "session", JObj(map["uid" := JStr(Str(texts, session))]));
      if Truthy(session) {
        extra := extra["session" := JObj(map["uid" := JStr(Str(texts, session))])];
      }
      ClientPresent(reader.source);
    }

    method Authentication(reader: Reader, classUid: int) returns (extra: Body)
      requires reader.Valid()
      modifies reader
      ensures reader.Valid()
      ensures reader.consumed == old(reader.consumed) + Present(reader.source, if classUid == 3002 then MFA_PATHS else [])
      ensures extra == AuthenticationOf(texts, reader.source, serviceName, classUid)
    {
      hide Truthy, At, StrOr, Contains, NameOr, FirstTarget;
      extra := map[];
      if classUid == 3002 {
        var target := FirstTarget(texts, reader.source, Some({"AppInstance", "AppUser"}));
        extra := extra["service" := JObj(map["name" := JStr(NameOr(texts, target, ["displayName"], serviceName))])];
        var step := reader.Get(["authenticationContext", "authenticationStep"]);
        var provider := reader.Get(["authenticationContext", "credentialProvider"]);
        var mfa := Truthy(step) || Contains(texts.upper(StrOr(texts, provider, "")), "FACTOR");
        extra := extra["is_mfa" := JBool(mfa)];
      }
    }

    method FillRequired(body: Body, classUid: int) returns (filled: Body)
      ensures filled == Filled(body, Required(classUid))
    {
      hide Truthy, Placeholder;
      filled := body;
      var names := Required(classUid);
      for n := 0 to |names|
        invariant filled == Filled(body, names[..n])
      {
        assert names[..n + 1][..n] == names[..n] && names[..n + 1][n] == names[n];
        if names[n] in filled && Truthy(filled[names[n]]) {
          continue;
        }
        filled := filled[names[n] := Placeholder(names[n])];
      }
      assert names[..|names|] == names;
    }

    /** Everything the event could carry, in the order the record is read. */
    method Candidate(reader: Reader, e: Entry, eventType: string) returns (candidate: Body)
      requires reader.Valid()
      modifies reader
      ensures reader.Valid()
      ensures reader.consumed == old(reader.consumed) + Present(reader.source, BASE_PATHS + ExtraPaths(texts, reader.source, e.classUid))
      ensures candidate == BaseFor(reader.source, e, eventType) + ExtrasOf(texts, reader.source, serviceName, e.classUid)
    {
      hide RemarksOf, UsersOf, ClientOf, AuthenticationOf, ClassObjects, BaseFor, ActorPaths, ExtraPaths, Present, ValueAt;
      var base, outcome := BaseFields(reader, e, eventType);
      var remarks := Remarks(texts, reader, outcome);
      var users := Users(reader);
      var client := Client(reader);
      var authentication := Authentication(reader, e.classUid);
      var objects := ClassObjects(texts, reader.source, e.classUid);
      candidate := base + remarks + users + client + authentication + objects;
      MergeFive(base, remarks, users, client, authentication, objects);
      AllPresent(texts, reader.source, e.classUid);
    }

    /** The candidate, cut down to what its class defines and filled up to what its class requires. */
    method MakeBody(reader: Reader, e: Entry, eventType: string) returns (body: Body)
      requires reader.Valid()
      modifies reader
      ensures reader.Valid()
      ensures reader.consumed == old(reader.consumed) + Present(reader.source, BASE_PATHS + ExtraPaths(texts, reader.source, e.classUid))
      ensures body == BodyFor(reader.source, e, eventType)
    {
      hide ExtrasOf, BaseFor, ExtraPaths, Present, CutTo, Filled, Required;
      var candidate := Candidate(reader, e, eventType);
      body := FillRequired(CutTo(candidate, e.classUid), e.classUid);
    }

    /** Every body is valid for its class, whatever the record holds. */
    lemma BodyIsValid(source: Json, e: Entry, eventType: string)
      ensures ValidFor(BodyFor(source, e, eventType), e)
      ensures BodyFor(source, e, eventType)["metadata"].fields["uid"] == JStr(StrOr(texts, ValueAt(source, ["uuid"]), ""))
      ensures BodyFor(source, e, eventType)["time"] == JInt(EpochMs(texts, ValueAt(source, ["published"])))
    {
      hide BaseFor, ExtrasOf, Filled, Truthy, At, StrOr, EpochMs, Required, Allowed, ValidFor, NotBase, Authenticated;
      var base, extra := BaseFor(source, e, eventType), ExtrasOf(texts, source, serviceName, e.classUid);
      ExtrasAreNotBase(texts, source, serviceName, e.classUid);
      CutKeepsBase(base, extra, e);
      FilledIsValid(CutTo(base + extra, e.classUid), e);
    }

    /** What the body tells, of the record alone. */
    lemma BodyTells(source: Json, e: Entry, eventType: string)
      requires LegalEntry(e)
      ensures Told(texts, source, serviceName, e.classUid, BodyFor(source, e, eventType))
      ensures MetadataTold(texts, source, ocsfVersion, mappingVersion, eventType, BodyFor(source, e, eventType))
      ensures "unmapped" !in BodyFor(source, e, eventType)
    {
      hide Filled, CutTo, Required, ExtrasOf, StatusId, SeverityId, EpochMs, ValueAt, Metadata, Told, MetadataTold, BASE_KEYS;
      var base, body := BaseFor(source, e, eventType), BodyFor(source, e, eventType);
      BaseSays(source, e, eventType);
      assert body == BodyOver(texts, source, serviceName, e.classUid, base);
      BodyIsTold(texts, source, serviceName, e.classUid, base);
      MetadataMoves(source, eventType, base, body);
      ToldHasNoMore(texts, source, serviceName, e.classUid, body);
    }

    lemma BaseSays(source: Json, e: Entry, eventType: string)
      ensures var base := BaseFor(source, e, eventType);
        && base.Keys == BASE_KEYS && "status_id" in base && "severity_id" in base && "time" in base && "metadata" in base
        && base["status_id"] == JInt(StatusId(texts, ValueAt(source, ["outcome", "result"])))
        && base["severity_id"] == JInt(SeverityId(texts, ValueAt(source, ["severity"])))
        && base["time"] == JInt(EpochMs(texts, ValueAt(source, ["published"])))
        && MetadataTold(texts, source, ocsfVersion, mappingVersion, eventType, base)
    {
      WordIs(texts, source, ["uuid"]);
      hide At, Word, StrOr, StatusId, SeverityId, EpochMs;
    }

    /** Nothing but the metadata themselves decides what they tell. */
    lemma MetadataMoves(source: Json, eventType: string, from: Body, to: Body)
      requires MetadataTold(texts, source, ocsfVersion, mappingVersion, eventType, from) && Look(to, "metadata") == Look(from, "metadata")
      ensures MetadataTold(texts, source, ocsfVersion, mappingVersion, eventType, to)
    {
      hide Word, At;
    }

    /** The body is complete once what was not read is added. */
    lemma Completed(source: Json, e: Entry, eventType: string, rest: Json)
      requires LegalEntry(e)
      ensures var body := BodyFor(source, e, eventType);
        var all := body["unmapped" := rest];
        && ValidFor(all, e) && Told(texts, source, serviceName, e.classUid, all - {"unmapped"})
        && MetadataTold(texts, source, ocsfVersion, mappingVersion, eventType, all)
        && "time" in body && body["time"].JInt? && all["time"] == body["time"]
        && "metadata" in body && body["metadata"].JObj? && "uid" in body["metadata"].fields
        && body["metadata"].fields["uid"] == JStr(Or(Word(texts, source, ["uuid"]), ""))
    {
      hide LegalEntry, BodyFor, StrOr, Word, ValueAt, EpochMs, ValidFor, Told, MetadataTold;
      var body := BodyFor(source, e, eventType);
      BodyIsValid(source, e, eventType);
      BodyTells(source, e, eventType);
      WordIs(texts, source, ["uuid"]);
      WithUnmapped(body, rest, e);
      ValidMeans(body, e);
      assert body["unmapped" := rest] - {"unmapped"} == body;
      MetadataMoves(source, eventType, body, body["unmapped" := rest]);
    }

    /** Normalizes one record. Every path returns an event: of the class the table gives its type,
        valid for that class, with everything that was not read under `unmapped`. A type the table
        does not know is counted, and falls back. */
    method Map(record: Json) returns (ev: Event)
      requires LegalTable(table)
      modifies this
      ensures var source := if record.JObj? then record else JObj(map[]);
        var eventType := Or(Word(texts, source, ["eventType"]), "");
        var e := if eventType in table.events then table.events[eventType] else table.fallback;
        && ev.classUid == e.classUid && ev.body.JObj? && ValidFor(ev.body.fields, e)
        && ev.body.fields["time"] == JInt(ev.timeMs) && ev.uid == Or(Word(texts, source, ["uuid"]), "")
        && Told(texts, source, serviceName, e.classUid, ev.body.fields - {"unmapped"})
        && MetadataTold(texts, source, ocsfVersion, mappingVersion, eventType, ev.body.fields)
        && "unmapped" in ev.body.fields
        && ev.body.fields == BodyFor(source, e, eventType)["unmapped" := ev.body.fields["unmapped"]]
        && Listed(Present(source, PathsRead(texts, source, e.classUid)), source, ev.body.fields["unmapped"])
        && unmappedTypes == (
             if eventType in table.events then old(unmappedTypes)
             else if eventType in old(unmappedTypes) then old(unmappedTypes)[eventType := old(unmappedTypes)[eventType] + 1]
             else old(unmappedTypes)[eventType := 1])
    {
      hide StrOr, At, Word, ValidFor, Told, MetadataTold, Listed, BodyFor, Present, ExtraPaths;
      var source := RecordOf(record);
      var reader := new Reader(source);
      var typeValue := reader.Get(["eventType"]);
      var eventType := StrOr(texts, typeValue, "");
      if eventType !in table.events {
        unmappedTypes := unmappedTypes[eventType := Seen(unmappedTypes, eventType) + 1];
      }
      var e := EntryFor(table, eventType);
      var body := MakeBody(reader, e, eventType);
      assert body == BodyFor(source, e, eventType);
      WordIs(texts, source, ["eventType"]);
      PresentSum(source, [["eventType"]], BASE_PATHS + ExtraPaths(texts, source, e.classUid));
      assert reader.consumed == Present(source, PathsRead(texts, source, e.classUid));
      var rest := Leftover(source, reader.consumed);
      Completed(source, e, eventType, rest);
      ev := Event(e.classUid, body["time"].n, body["metadata"].fields["uid"].s, JObj(body["unmapped" := rest]));
    }
  }

  lemma MergeFive(a: Body, b: Body, c: Body, d: Body, e: Body, f: Body)
    ensures a + b + c + d + e + f == a + (b + c + d + e + f)
  {
    MergeAssociates(a, b, c);
    MergeAssociates(a, b + c, d);
    MergeAssociates(a, b + c + d, e);
    MergeAssociates(a, b + c + d + e, f);
  }

  lemma MergeAssociates(a: Body, b: Body, c: Body)
    ensures a + b + c == a + (b + c)
  {
  }

  lemma ClientPresent(source: Json)
    ensures Present(source, CLIENT_PATHS[..2]) + Present(source, [["client", "userAgent", "rawUserAgent"]])
      + Present(source, [["authenticationContext", "externalSessionId"]]) == Present(source, CLIENT_PATHS)
  {
    hide Present;
    var a, b: seq<Path> := [["client", "userAgent", "rawUserAgent"]], [["authenticationContext", "externalSessionId"]];
    PresentSum(source, CLIENT_PATHS[..2], a);
    PresentSum(source, CLIENT_PATHS[..2] + a, b);
    assert CLIENT_PATHS == CLIENT_PATHS[..2] + a + b;
  }

  lemma AllPresent(t: Texts, source: Json, classUid: int)
    ensures var mfa: seq<Path> := if classUid == 3002 then MFA_PATHS else [];
      Present(source, BASE_PATHS) + Present(source, REMARK_PATHS) + Present(source, ActorPaths(t, source))
      + Present(source, CLIENT_PATHS) + Present(source, mfa)
      == Present(source, BASE_PATHS + ExtraPaths(t, source, classUid))
  {
    hide Present, ActorPaths;
    var mfa: seq<Path> := if classUid == 3002 then MFA_PATHS else [];
    PresentSum(source, REMARK_PATHS, ActorPaths(t, source));
    PresentSum(source, REMARK_PATHS + ActorPaths(t, source), CLIENT_PATHS);
    PresentSum(source, REMARK_PATHS + ActorPaths(t, source) + CLIENT_PATHS, mfa);
    PresentSum(source, BASE_PATHS, ExtraPaths(t, source, classUid));
  }

  /** The table row of an event type: its own, or the fallback. */
  function EntryFor(table: Table, eventType: string): Entry {
    if eventType in table.events then table.events[eventType] else table.fallback
  }

  /** A record that is not a dictionary is mapped as an empty one. */
  function RecordOf(record: Json): (r: Json)
    ensures r.JObj?
  {
    if record.JObj? then record else JObj(map[])
  }

  function Seen(counts: map<string, nat>, eventType: string): nat {
    if eventType in counts then counts[eventType] else 0
  }

  // ----- what it keeps -----

  /** Nothing is silently discarded: under `unmapped` stands, at its own path, every value of the record
      that is not a dictionary and not empty, unless a path the mapping reads leads to it; and nothing
      else stands there. */
  lemma UnreadIsKept(t: Texts, source: Json, classUid: int, unmapped: Json, p: Path, v: Json)
    requires source.JObj? && Listed(Present(source, PathsRead(t, source, classUid)), source, unmapped)
    requires p != []
    requires v.JBool? || v.JInt? || (v.JStr? && v.s != "") || (v.JArr? && v.items != [])
    ensures At(unmapped, p) == Some(v) <==>
      At(source, p) == Some(v) && forall q :: q in PathsRead(t, source, classUid) ==> !(q <= p)
  {
    hide PathsRead;
    var consumed := Present(source, PathsRead(t, source, classUid));
    LeftoverMeans(source, consumed, unmapped, p, v);
    if At(source, p) == Some(v) {
      forall q | q in PathsRead(t, source, classUid) && q <= p ensures q in consumed {
        PrefixPresent(source, q, p);
      }
    }
  }

  lemma {:induction false} PrefixPresent(j: Json, q: Path, p: Path)
    requires q <= p && At(j, p).Some?
    ensures At(j, q).Some?
    decreases |q|
  {
    if q != [] {
      PrefixPresent(j.fields[q[0]], q[1..], p[1..]);
    }
  }

  /** No target is lost, whatever the class had room for. */
  lemma TargetsAreKept(t: Texts, source: Json, classUid: int, unmapped: Json, targets: Json)
    requires source.JObj? && Listed(Present(source, PathsRead(t, source, classUid)), source, unmapped)
    requires At(source, ["target"]) == Some(targets) && targets.JArr? && targets.items != []
    ensures At(unmapped, ["target"]) == Some(targets)
  {
    TargetIsNotRead(t, source, classUid);
    hide PathsRead;
    UnreadIsKept(t, source, classUid, unmapped, ["target"], targets);
    forall q | q in PathsRead(t, source, classUid) ensures !(q <= ["target"]) {
      assert q[0] != "target";
    }
  }

  /** The class and the activity of every record can be told from its type uid alone. */
  lemma ClassIsRecoverable(table: Table, eventType: string, body: Body)
    requires LegalTable(table) && ValidFor(body, EntryFor(table, eventType))
    ensures IsClass(body["class_uid"].n) && HasActivity(body["class_uid"].n, body["activity_id"].n)
    ensures body["type_uid"].n / 100 == body["class_uid"].n && body["type_uid"].n % 100 == body["activity_id"].n
  {
    var e := EntryFor(table, eventType);
    assert LegalEntry(e);
    TypeUidRecovers(e.classUid, e.activityId);
  }
}
