/** POST creating a group with its profiles: the name, type and profile
    checks in order, then the group document with trimmed names and
    defaulted avatar and colour. */
module ProfilesRoute {
  import opened Wrappers
  import opened Text
  import opened Json
  import opened Records
  import opened UserGroupModel
  import TransactionChecks

  datatype GroupRejection = GroupNameRequired | GroupTypeRequired | ProfilesRequired | ProfileNameRequired

  datatype GroupReply = GroupCreated(group: Group) | GroupRefused(reason: GroupRejection) | GroupInvalid | GroupCrashed

  /** `!v || typeof v !== "string" || v.trim() === ""` does not reject. */
  predicate NamePresent(v: Option<Json>) {
    !TransactionChecks.BlankString(v)
  }

  function TypeOf(body: Json): Option<GroupType> {
    var t := Field(body, "type");
    if IsString(t) then GroupTypeNamed(t.value.s) else None
  }

  function ProfilesOf(body: Json): seq<Json> {
    var p := Field(body, "profiles");
    if p.Some? && p.value.JArr? then p.value.items else []
  }

  /** `Array.isArray(profiles) && profiles.length > 0`. */
  predicate HasProfiles(body: Json) {
    var p := Field(body, "profiles");
    p.Some? && p.value.JArr? && p.value.items != []
  }

  /** An object whose `_id` is a non-empty string, which the schema's cast
      to String replaces by that `_id`. */
  predicate HasStringId(v: Json) {
    v.JObj? && "_id" in v.fields && v.fields["_id"].JStr? && v.fields["_id"].s != ""
  }

  /** The schema's cast to String accepts `v`: anything falsy (replaced by
      the fallback), a string, a number, a boolean, or an object with a
      string `_id`; an array or any other object is a cast failure. */
  predicate CastsToString(v: Option<Json>) {
    !Truthy(v) || !(v.value.JArr? || v.value.JObj?) || HasStringId(v.value)
  }

  /** `v || fallback`, then the schema's cast to String: an object with a
      string `_id` is stored as that `_id`, a truthy number as its text
      `numberText(n)` (JavaScript's `String(n)`), a truthy boolean as
      "true"; None stands for the cast failure. */
  function StringOr(v: Option<Json>, fallback: string, numberText: real -> string): (r: Option<string>)
    ensures r.Some? <==> CastsToString(v)
    ensures !Truthy(v) ==> r == Some(fallback)
    ensures Truthy(v) && IsString(v) ==> r == Some(v.value.s)
    ensures Truthy(v) && IsNumber(v) ==> r == Some(numberText(v.value.n))
    ensures Truthy(v) && v.value.JBool? ==> r == Some("true")
    ensures Truthy(v) && HasStringId(v.value) ==> r == Some(v.value.fields["_id"].s)
  {
    if !Truthy(v) then Some(fallback)
    else match v.value
      case JStr(s) => Some(s)
      case JNum(n) => Some(numberText(n))
      case JBool(_) => Some("true")
      case JObj(fs) => if HasStringId(v.value) then Some(fs["_id"].s) else None
      case _ => None
  }

  /** The position of the first profile without a name, or the count. */
  function FirstUnnamed(items: seq<Json>): (k: nat)
    ensures k <= |items|
    ensures forall j :: 0 <= j < k ==> !items[j].JNull? && NamePresent(Field(items[j], "name"))
    ensures k < |items| ==> items[k].JNull? || !NamePresent(Field(items[k], "name"))
  {
    if items == [] then 0
    else if items[0].JNull? || !NamePresent(Field(items[0], "name")) then 0
    else 1 + FirstUnnamed(items[1..])
  }

  /** The avatar and the colour can be cast to strings. */
  predicate Castable(item: Json) {
    CastsToString(Field(item, "avatar")) && CastsToString(Field(item, "color"))
  }

  function NameOf(v: Json): string {
    TransactionChecks.Str(Field(v, "name"))
  }

  /** The embedded profile built from an item: the trimmed name, the
      avatar or '', the colour or the default. */
  function ProfileFrom(item: Json, id: string, numberText: real -> string): (p: Profile)
    requires Castable(item)
    ensures p.name == Trim(NameOf(item))
    ensures p.avatar == Some(Trim(StringOr(Field(item, "avatar"), "", numberText).value))
    ensures p.color == StringOr(Field(item, "color"), DefaultColor, numberText)
  {
    var avatar := StringOr(Field(item, "avatar"), "", numberText);
    var color := StringOr(Field(item, "color"), DefaultColor, numberText);
    Profile(Ids(Some(id), None), Trim(NameOf(item)), Some(Trim(avatar.value)), color)
  }

  predicate AllCastable(items: seq<Json>) {
    forall i :: 0 <= i < |items| ==> Castable(items[i])
  }

  function ProfilesFrom(items: seq<Json>, newId: nat -> string, numberText: real -> string): (r: seq<Profile>)
    requires AllCastable(items)
    ensures |r| == |items|
    ensures forall i :: 0 <= i < |r| ==> r[i] == ProfileFrom(items[i], newId(i), numberText)
  {
    seq(|items|, i requires 0 <= i < |items| => ProfileFrom(items[i], newId(i), numberText))
  }

  /** The checks of the handler, before the document is built. */
  predicate Checked(body: Json) {
    && !body.JNull?
    && NamePresent(Field(body, "name"))
    && TypeOf(body).Some?
    && HasProfiles(body)
    && FirstUnnamed(ProfilesOf(body)) == |ProfilesOf(body)|
  }

  /** The group document the handler builds. */
  function Build(body: Json, groupId: string, newId: nat -> string, numberText: real -> string): (g: Group)
    requires Checked(body) && AllCastable(ProfilesOf(body))
    ensures g.name == Trim(TransactionChecks.Str(Field(body, "name")))
    ensures Some(g.kind) == TypeOf(body)
    ensures |g.profiles| == |ProfilesOf(body)|
    ensures forall i :: 0 <= i < |g.profiles| ==> g.profiles[i] == ProfileFrom(ProfilesOf(body)[i], newId(i), numberText)
  {
    Group(Ids(Some(groupId), None), Trim(TransactionChecks.Str(Field(body, "name"))), TypeOf(body).value,
      ProfilesFrom(ProfilesOf(body), newId, numberText))
  }

  /** A profile item the schema accepts: castable, a name of at most 50
      characters once trimmed, a colour matching the rule. */
  predicate ProfileAcceptable(item: Json, numberText: real -> string) {
    Castable(item) && Utf16Length(Trim(NameOf(item))) <= MaxProfileName
    && IsHexColor(StringOr(Field(item, "color"), DefaultColor, numberText).value)
  }

  /** A body the handler stores: it passes the checks and the schema. */
  predicate Acceptable(body: Json, numberText: real -> string) {
    && Checked(body)
    && Utf16Length(Trim(TransactionChecks.Str(Field(body, "name")))) <= MaxGroupName
    && forall i :: 0 <= i < |ProfilesOf(body)| ==> ProfileAcceptable(ProfilesOf(body)[i], numberText)
  }

  /** The schema accepts the built group exactly when the body is
      acceptable. */
  lemma BuildValid(body: Json, groupId: string, newId: nat -> string, numberText: real -> string)
    requires Checked(body) && AllCastable(ProfilesOf(body))
    ensures GroupValid(Build(body, groupId, newId, numberText)) <==> Acceptable(body, numberText)
  {
    var g := Build(body, groupId, newId, numberText);
    var items := ProfilesOf(body);
    TrimIdempotent(TransactionChecks.Str(Field(body, "name")));
    forall i | 0 <= i < |items|
      ensures ProfileValid(g.profiles[i]) <==> ProfileAcceptable(items[i], numberText)
    {
      TrimIdempotent(NameOf(items[i]));
      assert !items[i].JNull? && NamePresent(Field(items[i], "name"));
    }
  }

  function Post(body: Json, groupId: string, newId: nat -> string, numberText: real -> string): (r: GroupReply)
    ensures r == GroupRefused(GroupNameRequired) <==> !body.JNull? && !NamePresent(Field(body, "name"))
    ensures r.GroupCreated? <==> Acceptable(body, numberText)
    ensures r.GroupCreated? ==> r.group == Build(body, groupId, newId, numberText)
    ensures r.GroupCreated? ==> GroupValid(r.group) && PreSave(r.group) == r.group
  {
    if body.JNull? then GroupCrashed
    else if !NamePresent(Field(body, "name")) then GroupRefused(GroupNameRequired)
    else if TypeOf(body).None? then GroupRefused(GroupTypeRequired)
    else if !HasProfiles(body) then GroupRefused(ProfilesRequired)
    else
      var items := ProfilesOf(body);
      var k := FirstUnnamed(items);
      if k < |items| then
        if items[k].JNull? then GroupCrashed else GroupRefused(ProfileNameRequired)
      else if !AllCastable(items) then GroupInvalid
      else
        var g := Build(body, groupId, newId, numberText);
        BuildValid(body, groupId, newId, numberText);
        BuiltIsSaved(body, groupId, newId, numberText);
        if GroupValid(g) then GroupCreated(g) else GroupInvalid
  }

  /** The document the handler builds is what the pre-save hook would
      store. */
  lemma BuiltIsSaved(body: Json, groupId: string, newId: nat -> string, numberText: real -> string)
    requires Checked(body) && AllCastable(ProfilesOf(body))
    ensures PreSave(Build(body, groupId, newId, numberText)) == Build(body, groupId, newId, numberText)
  {
    var g := Build(body, groupId, newId, numberText);
    var items := ProfilesOf(body);
    TrimIdempotent(TransactionChecks.Str(Field(body, "name")));
    forall i | 0 <= i < |g.profiles|
      ensures PreSaveProfile(g.profiles[i]) == g.profiles[i]
    {
      TrimIdempotent(NameOf(items[i]));
      TrimIdempotent(StringOr(Field(items[i], "avatar"), "", numberText).value);
    }
  }

  /** Profiles without a colour get the default one. */
  lemma DefaultColorGiven(body: Json, groupId: string, newId: nat -> string, numberText: real -> string, i: int)
    requires Post(body, groupId, newId, numberText).GroupCreated?
    requires 0 <= i < |ProfilesOf(body)| && !Truthy(Field(ProfilesOf(body)[i], "color"))
    ensures Post(body, groupId, newId, numberText).group.profiles[i].color == Some(DefaultColor)
    ensures Post(body, groupId, newId, numberText).group.profiles[i].avatar.Some?
  {
  }

  /** A number given as a profile's avatar does not block the save: it is
      stored as its text. */
  lemma NumberAvatarStored(body: Json, groupId: string, newId: nat -> string, numberText: real -> string, i: int, n: real)
    requires Post(body, groupId, newId, numberText).GroupCreated?
    requires 0 <= i < |ProfilesOf(body)| && Field(ProfilesOf(body)[i], "avatar") == Some(JNum(n)) && n != 0.0
    ensures Post(body, groupId, newId, numberText).group.profiles[i].avatar == Some(Trim(numberText(n)))
  {
  }

  /** An object with a string `_id` given as a profile's avatar does not
      block the save: it is stored as that `_id`. */
  lemma IdObjectAvatarStored(body: Json, groupId: string, newId: nat -> string, numberText: real -> string, i: int, fs: map<string, Json>)
    requires Post(body, groupId, newId, numberText).GroupCreated?
    requires 0 <= i < |ProfilesOf(body)| && Field(ProfilesOf(body)[i], "avatar") == Some(JObj(fs))
    requires "_id" in fs && fs["_id"].JStr? && fs["_id"].s != ""
    ensures Post(body, groupId, newId, numberText).group.profiles[i].avatar == Some(Trim(fs["_id"].s))
  {
  }

  /** `{"_id": "x"}` casts to "x", while `{"id": "x"}` and `[]` do not
      cast. */
  lemma IdObjectCast(numberText: real -> string)
    ensures StringOr(Some(JObj(map["_id" := JStr("x")])), "", numberText) == Some("x")
    ensures StringOr(Some(JObj(map["id" := JStr("x")])), "", numberText).None?
    ensures StringOr(Some(JArr([])), "", numberText).None?
  {
    assert "id" != "_id";
  }

  /** An empty profile list is refused. */
  lemma EmptyProfilesRefused(body: Json, groupId: string, newId: nat -> string, numberText: real -> string)
    requires !body.JNull? && NamePresent(Field(body, "name")) && TypeOf(body).Some?
    requires Field(body, "profiles") == Some(JArr([]))
    ensures Post(body, groupId, newId, numberText) == GroupRefused(ProfilesRequired)
  {
  }
}
