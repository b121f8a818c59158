/** The profile update of `submit_answers`: the CRM payload becomes eight
    columns of the user's row, overwriting whatever the last analysis wrote. */
module Reconcile {
  import opened Wrappers
  import opened Json

  /** The columns of the users table that an analysis writes. */
  datatype DerivedProfile = DerivedProfile(
    vakType: Json,
    stressResponse: Json,
    attachmentType: Json,
    decisionStyle: Json,
    anxietyLevel: Json,
    buyingPower: Json,
    personalityTags: Json,
    rawProfile: Json)

  /** The derived columns of a row that no analysis has written yet. */
  const NoProfile := DerivedProfile(JNull, JNull, JNull, JNull, JNull, JNull, JNull, JNull)

  datatype User = User(
    id: int,
    username: Option<string>,
    firstName: Option<string>,
    lastName: Option<string>,
    profile: DerivedProfile)

  /** `crm_result.get(key)`: the value, or null when the key is absent. */
  function Column(members: seq<(string, Json)>, key: string): (r: Json)
    ensures Lookup(members, key).None? ==> r == JNull
    ensures Lookup(members, key).Some? ==> r == Lookup(members, key).value
  {
    GetOr(members, key, JNull)
  }

  /** `v` is what `.get(key)` gives: the payload's value, or null when the key is absent. */
  predicate ValueOrNull(members: seq<(string, Json)>, key: string, v: Json)
  {
    match Lookup(members, key)
    case Some(x) => v == x
    case None => v == JNull
  }

  /** The update dict of lines 170-179; None when `crm_result` is not a dict
      (its `.get` raises). */
  function ProfileUpdate(crm: Json): (r: Option<DerivedProfile>)
    ensures r.None? <==> !crm.JObject?
    ensures r.Some? ==> r.value.rawProfile == crm
    ensures r.Some? ==>
      && ValueOrNull(crm.members, "vak_type", r.value.vakType)
      && ValueOrNull(crm.members, "stress_response", r.value.stressResponse)
      && ValueOrNull(crm.members, "attachment_type", r.value.attachmentType)
      && ValueOrNull(crm.members, "decision_style", r.value.decisionStyle)
      && ValueOrNull(crm.members, "anxiety_level", r.value.anxietyLevel)
      && ValueOrNull(crm.members, "buying_power", r.value.buyingPower)
    ensures r.Some? ==>
      && (Lookup(crm.members, "personality_tags").None? ==> r.value.personalityTags == JArray([]))
      && (Lookup(crm.members, "personality_tags").Some? ==>
            r.value.personalityTags == Lookup(crm.members, "personality_tags").value)
  {
    match crm
    case JObject(m) =>
      Some(DerivedProfile(
        Column(m, "vak_type"),
        Column(m, "stress_response"),
        Column(m, "attachment_type"),
        Column(m, "decision_style"),
        Column(m, "anxiety_level"),
        Column(m, "buying_power"),
        GetOr(m, "personality_tags", JArray([])),
        crm))
    case _ => None
  }

  /** `.update(...).eq("id", id)`: overwrites the derived columns of that row;
      a missing row is left missing. */
  function ApplyUpdate(users: map<int, User>, id: int, update: DerivedProfile): (r: map<int, User>)
    ensures r.Keys == users.Keys
    ensures forall k :: k in users && k != id ==> r[k] == users[k]
    ensures id in users ==>
      && r[id].profile == update
      && r[id].id == users[id].id
      && r[id].username == users[id].username
      && r[id].firstName == users[id].firstName
      && r[id].lastName == users[id].lastName
  {
    if id in users then users[id := users[id].(profile := update)] else users
  }

  /** Last write wins: after two analyses the row holds only the second
      payload's values, whatever the first one held. */
  lemma SecondUpdateWins(users: map<int, User>, id: int, crm1: Json, crm2: Json)
    requires ProfileUpdate(crm1).Some? && ProfileUpdate(crm2).Some?
    ensures ApplyUpdate(ApplyUpdate(users, id, ProfileUpdate(crm1).value), id, ProfileUpdate(crm2).value)
         == ApplyUpdate(users, id, ProfileUpdate(crm2).value)
  {
  }

  /** A tags key that is present with value null is stored as null; only an
      absent key becomes the empty list. A scalar column stores null in both
      cases. */
  lemma AbsentAndNullTags(rest: seq<(string, Json)>)
    requires forall i :: 0 <= i < |rest| ==> rest[i].0 != "personality_tags" && rest[i].0 != "vak_type"
    ensures ProfileUpdate(JObject(rest)).value.personalityTags == JArray([])
    ensures ProfileUpdate(JObject(rest + [("personality_tags", JNull)])).value.personalityTags == JNull
    ensures ProfileUpdate(JObject(rest)).value.vakType == JNull
    ensures ProfileUpdate(JObject(rest + [("vak_type", JNull)])).value.vakType == JNull
  {
    LookupSpec(rest, "personality_tags");
    LookupSpec(rest, "vak_type");
    var m := rest + [("personality_tags", JNull)];
    assert Lookup(m, "personality_tags") == Some(JNull);
    var m' := rest + [("vak_type", JNull)];
    assert Lookup(m', "vak_type") == Some(JNull);
  }

  /** A nullable text column as JSON. */
  function TextColumn(o: Option<string>): Json
  {
    match o
    case Some(t) => JString(t)
    case None => JNull
  }

  /** The user's row as `select("*")` returns it: one member per column. */
  function UserRow(u: User): Json
  {
    JObject([
      ("id", JNumber(u.id)),
      ("username", TextColumn(u.username)),
      ("first_name", TextColumn(u.firstName)),
      ("last_name", TextColumn(u.lastName)),
      ("vak_type", u.profile.vakType),
      ("stress_response", u.profile.stressResponse),
      ("attachment_type", u.profile.attachmentType),
      ("decision_style", u.profile.decisionStyle),
      ("anxiety_level", u.profile.anxietyLevel),
      ("buying_power", u.profile.buyingPower),
      ("personality_tags", u.profile.personalityTags),
      ("raw_profile", u.profile.rawProfile)])
  }
}
