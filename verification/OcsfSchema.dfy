/** OCSF 1.3.0 as the connector uses it: the classes, what each may carry and must carry, and the
    activities each defines. */
module OcsfSchema {
  const BASE_ATTRIBUTES: set<string> := {
    "activity_id", "category_uid", "class_uid", "message", "metadata", "severity_id", "status",
    "status_detail", "status_id", "time", "type_uid", "unmapped"}

  predicate IsClass(classUid: int) {
    classUid == 0 || 3001 <= classUid <= 3006
  }

  function Category(classUid: int): int {
    if 3001 <= classUid <= 3006 then 3 else 0
  }

  /** The activities a class defines: a run from 0, and 99. */
  predicate HasActivity(classUid: int, activityId: int) {
    IsClass(classUid) && (activityId == 99 ||
      0 <= activityId <= (
        if classUid == 0 then 0
        else if classUid == 3001 then 11
        else if classUid == 3002 then 6
        else if classUid == 3003 then 2
        else if classUid == 3004 then 13
        else if classUid == 3005 then 2
        else 6))
  }

  function ClassAttributes(classUid: int): set<string> {
    if classUid == 3001 then {"user", "actor", "src_endpoint", "http_request"}
    else if classUid == 3002 then {"user", "actor", "src_endpoint", "http_request", "service", "session", "is_mfa"}
    else if classUid == 3003 then {"user", "actor", "src_endpoint", "http_request", "session", "privileges", "group"}
    else if classUid == 3004 then {"entity", "actor", "src_endpoint", "http_request"}
    else if classUid == 3005 then {"user", "actor", "src_endpoint", "http_request", "privileges"}
    else if classUid == 3006 then {"group", "user", "actor", "src_endpoint", "http_request", "privileges"}
    else {}
  }

  function Allowed(classUid: int): set<string> {
    BASE_ATTRIBUTES + ClassAttributes(classUid)
  }

  function Required(classUid: int): seq<string> {
    if classUid == 3001 || classUid == 3002 || classUid == 3003 then ["user"]
    else if classUid == 3004 then ["entity"]
    else if classUid == 3005 then ["user", "privileges"]
    else if classUid == 3006 then ["group"]
    else []
  }

  /** The classes, the last activity each defines beside 99, and the category each number begins with. */
  lemma Classes(classUid: int, activityId: int)
    ensures IsClass(classUid) <==> classUid in LAST_ACTIVITY
    ensures HasActivity(classUid, activityId) <==>
      classUid in LAST_ACTIVITY && (activityId == 99 || 0 <= activityId <= LAST_ACTIVITY[classUid])
    ensures IsClass(classUid) ==> Category(classUid) == classUid / 1000
  {
  }

  const LAST_ACTIVITY := map[0 := 0, 3001 := 11, 3002 := 6, 3003 := 2, 3004 := 13, 3005 := 2, 3006 := 6]

  /** The other way round: which classes carry, and which require, an attribute. */
  lemma Carriers(classUid: int)
    requires IsClass(classUid)
    ensures var a := ClassAttributes(classUid);
      && ("actor" in a <==> classUid != 0) && ("src_endpoint" in a <==> classUid != 0) && ("http_request" in a <==> classUid != 0)
      && ("user" in a <==> classUid != 0 && classUid != 3004)
      && ("service" in a <==> classUid == 3002) && ("is_mfa" in a <==> classUid == 3002)
      && ("session" in a <==> classUid in {3002, 3003}) && ("entity" in a <==> classUid == 3004)
      && ("privileges" in a <==> classUid in {3003, 3005, 3006}) && ("group" in a <==> classUid in {3003, 3006})
      && a <= {"actor", "src_endpoint", "http_request", "user", "service", "is_mfa", "session", "entity", "privileges", "group"}
    ensures forall name :: name in Required(classUid) <==>
      match name
      case "user" => classUid in {3001, 3002, 3003, 3005}
      case "entity" => classUid == 3004
      case "privileges" => classUid == 3005
      case "group" => classUid == 3006
      case _ => false
  {
  }

  lemma RequiredIsAllowed(classUid: int, name: string)
    requires name in Required(classUid)
    ensures name in Allowed(classUid)
  {
  }

  function TypeUid(classUid: int, activityId: int): int {
    classUid * 100 + activityId
  }

  /** The type uid of a legal pair says which pair it is. */
  lemma TypeUidRecovers(classUid: int, activityId: int)
    requires HasActivity(classUid, activityId)
    ensures TypeUid(classUid, activityId) / 100 == classUid && TypeUid(classUid, activityId) % 100 == activityId
  {
  }
}
