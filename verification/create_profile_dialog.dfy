/** The create-group dialog: the editable list of profile entries (add,
    remove, edit one field of one entry), and the submit that checks the
    group name and the entries and builds the request sent to the group
    POST. */
module CreateProfileDialog {
  import opened Wrappers
  import opened Text
  import opened Json
  import opened Records
  import opened Categories
  import UserGroupModel
  import ProfilesRoute
  import TransactionChecks

  /** One row of the dialog: a name and a colour. */
  datatype Entry = Entry(name: string, color: string)

  datatype EntryField = NameField | ColorField

  /** The dialog's inputs. */
  datatype Form = Form(groupName: string, groupType: GroupType, entries: seq<Entry>)

  const MaxEntries := 10

  /** The form the dialog opens with and is reset to after a group is
      created. */
  function Initial(): Form {
    Form("", Personal, [Entry("", ProfileColors[0])])
  }

  /** The list holds at least one and at most ten entries. */
  predicate SizeOk(es: seq<Entry>) {
    1 <= |es| <= MaxEntries
  }

  /** Every colour comes from the profile palette. */
  predicate PaletteColors(es: seq<Entry>) {
    forall i :: 0 <= i < |es| ==> es[i].color in ProfileColors
  }

  /** `addProfile`: below ten entries, a new unnamed entry whose colour
      cycles through the palette; otherwise nothing. */
  function AddProfile(es: seq<Entry>): (r: seq<Entry>)
    ensures |es| < MaxEntries ==>
      && |r| == |es| + 1 && r[..|es|] == es
      && r[|es|].name == "" && r[|es|].color == ProfileColors[|es|]
    ensures |es| >= MaxEntries ==> r == es
  {
    if |es| < MaxEntries then es + [Entry("", ProfileColors[|es| % |ProfileColors|])] else es
  }

  /** `profiles.filter((_, i) => i !== index)`. */
  function Without(es: seq<Entry>, index: int): (r: seq<Entry>)
    ensures 0 <= index < |es| ==> |r| == |es| - 1
    ensures 0 <= index < |es| ==> forall k :: 0 <= k < index ==> r[k] == es[k]
    ensures 0 <= index < |es| ==> forall k :: index <= k < |r| ==> r[k] == es[k + 1]
    ensures !(0 <= index < |es|) ==> r == es
  {
    if 0 <= index < |es| then es[..index] + es[index + 1..] else es
  }

  /** `removeProfile`: drops entry `index`, only while more than one entry
      exists. */
  function RemoveProfile(es: seq<Entry>, index: int): (r: seq<Entry>)
    ensures |es| > 1 ==> r == Without(es, index)
    ensures |es| <= 1 ==> r == es
  {
    if |es| > 1 then Without(es, index) else es
  }

  /** `updateProfile`: entry `index` gets `value` in field `f`. */
  function UpdateProfile(es: seq<Entry>, index: int, f: EntryField, value: string): (r: seq<Entry>)
    ensures |r| == |es|
    ensures forall k :: 0 <= k < |es| && k != index ==> r[k] == es[k]
    ensures 0 <= index < |es| && f == NameField ==> r[index] == es[index].(name := value)
    ensures 0 <= index < |es| && f == ColorField ==> r[index] == es[index].(color := value)
  {
    seq(|es|, k requires 0 <= k < |es| =>
      if k != index then es[k]
      else if f == NameField then es[k].(name := value)
      else es[k].(color := value))
  }

  /** The opening form has one entry, with the first palette colour. */
  lemma InitialSizeOk()
    ensures SizeOk(Initial().entries) && PaletteColors(Initial().entries)
  {
  }

  /** Adding, removing and editing keep the list between one and ten
      entries. */
  lemma EditsKeepSize(es: seq<Entry>, index: int, f: EntryField, value: string)
    requires SizeOk(es)
    ensures SizeOk(AddProfile(es))
    ensures SizeOk(RemoveProfile(es, index))
    ensures SizeOk(UpdateProfile(es, index, f, value))
  {
  }

  /** Adding, removing and renaming keep every colour in the palette. */
  lemma EditsKeepPalette(es: seq<Entry>, index: int, value: string)
    requires PaletteColors(es)
    ensures PaletteColors(AddProfile(es))
    ensures PaletteColors(RemoveProfile(es, index))
    ensures PaletteColors(UpdateProfile(es, index, NameField, value))
  {
    var r := RemoveProfile(es, index);
    forall k | 0 <= k < |r|
      ensures r[k].color in ProfileColors
    {
      if |es| > 1 && 0 <= index < |es| && k >= index {
        assert r[k] == es[k + 1];
      }
    }
  }

  /** Entries added one by one to the opening list take the palette in
      order: the entry at position `i` has colour `i`. */
  predicate PaletteInOrder(es: seq<Entry>) {
    |es| <= |ProfileColors| && forall i :: 0 <= i < |es| ==> es[i].color == ProfileColors[i]
  }

  lemma AddKeepsPaletteOrder(es: seq<Entry>)
    requires PaletteInOrder(es)
    ensures PaletteInOrder(AddProfile(es))
  {
    var n := |es|;
    if n < MaxEntries {
      assert |ProfileColors| == MaxEntries;
      assert n % |ProfileColors| == n;
      var r := es + [Entry("", ProfileColors[n])];
      assert AddProfile(es) == r;
      forall i | 0 <= i < |r|
        ensures r[i].color == ProfileColors[i]
      {
        if i < n {
          assert r[i] == es[i];
        }
      }
    }
  }

  /** The entries that have a name, with the name trimmed and the colour
      kept: `profiles.filter(p => p.name.trim())` mapped to trimmed names. */
  function Named(es: seq<Entry>): (r: seq<Entry>)
    ensures |r| <= |es|
    ensures forall k :: 0 <= k < |r| ==> IsTrimmed(r[k].name) && r[k].name != ""
  {
    if es == [] then []
    else
      var rest := Named(es[1..]);
      if IsBlank(es[0].name) then rest else [Entry(Trim(es[0].name), es[0].color)] + rest
  }

  /** Naming distributes over concatenation: the result keeps the named
      entries of each part, in order. */
  lemma {:induction false} NamedAppend(a: seq<Entry>, b: seq<Entry>)
    ensures Named(a + b) == Named(a) + Named(b)
  {
    if a == [] {
      assert a + b == b;
    } else {
      assert (a + b)[1..] == a[1..] + b;
      NamedAppend(a[1..], b);
    }
  }

  /** A single entry is kept, trimmed, exactly when its name is not blank. */
  lemma NamedSingle(e: Entry)
    ensures Named([e]) == if IsBlank(e.name) then [] else [Entry(Trim(e.name), e.color)]
  {
    assert [e][1..] == [];
  }

  /** The request the dialog sends. */
  datatype NewGroup = NewGroup(name: string, kind: GroupType, profiles: seq<Entry>)

  datatype Submission = NeedsGroupName | NeedsProfile | Submitted(request: NewGroup)

  /** `handleSubmit`: a blank group name is refused first, then a list
      without any named entry; otherwise the trimmed name, the type and the
      named entries are sent. */
  function Submit(f: Form): (r: Submission)
    ensures r == NeedsGroupName <==> IsBlank(f.groupName)
    ensures r == NeedsProfile <==> !IsBlank(f.groupName) && Named(f.entries) == []
    ensures r.Submitted? ==> r.request == NewGroup(Trim(f.groupName), f.groupType, Named(f.entries))
  {
    if IsBlank(f.groupName) then NeedsGroupName
    else if Named(f.entries) == [] then NeedsProfile
    else Submitted(NewGroup(Trim(f.groupName), f.groupType, Named(f.entries)))
  }

  /** The opening form cannot be submitted: it has no group name. */
  lemma InitialRefused()
    ensures Submit(Initial()) == NeedsGroupName
  {
    assert Trim("") == "";
  }

  /** An entry of the request body, as JSON. */
  function EntryJson(e: Entry): Json {
    JObj(map["name" := JStr(e.name), "color" := JStr(e.color)])
  }

  /** The request body, as JSON. */
  function RequestJson(g: NewGroup): (j: Json)
    ensures ProfilesRoute.ProfilesOf(j) == seq(|g.profiles|, i requires 0 <= i < |g.profiles| => EntryJson(g.profiles[i]))
  {
    JObj(map[
      "name" := JStr(g.name),
      "type" := JStr(GroupTypeName(g.kind)),
      "profiles" := JArr(seq(|g.profiles|, i requires 0 <= i < |g.profiles| => EntryJson(g.profiles[i])))])
  }

  /** The colour the server stores for an entry: an empty colour string is
      falsy and gets the default. */
  function StoredColor(c: string): string {
    if c == "" then UserGroupModel.DefaultColor else c
  }

  /** What the dialog submits always passes the group POST's checks; the
      server stores it exactly when the group name fits in 100 characters,
      every profile name in 50 and every colour is a hex colour. */
  lemma {:induction false} SubmittedReachesSchema(f: Form, numberText: real -> string)
    requires Submit(f).Submitted?
    ensures ProfilesRoute.Checked(RequestJson(Submit(f).request))
    ensures ProfilesRoute.AllCastable(ProfilesRoute.ProfilesOf(RequestJson(Submit(f).request)))
    ensures ProfilesRoute.Acceptable(RequestJson(Submit(f).request), numberText) <==>
      var g := Submit(f).request;
      && Utf16Length(g.name) <= UserGroupModel.MaxGroupName
      && forall i :: 0 <= i < |g.profiles| ==>
           Utf16Length(g.profiles[i].name) <= UserGroupModel.MaxProfileName
           && UserGroupModel.IsHexColor(StoredColor(g.profiles[i].color))
  {
    var g := Submit(f).request;
    assert g.profiles == Named(f.entries);
    RequestReachesSchema(g, numberText);
  }

  /** A request with a trimmed, non-blank group name and at least one
      entry, every entry named and trimmed, passes the group POST's checks;
      the schema takes it exactly when the lengths fit and the colours are
      hex colours. */
  lemma RequestReachesSchema(g: NewGroup, numberText: real -> string)
    requires IsTrimmed(g.name) && g.name != "" && g.profiles != []
    requires forall k :: 0 <= k < |g.profiles| ==> IsTrimmed(g.profiles[k].name) && g.profiles[k].name != ""
    ensures ProfilesRoute.Checked(RequestJson(g))
    ensures ProfilesRoute.AllCastable(ProfilesRoute.ProfilesOf(RequestJson(g)))
    ensures ProfilesRoute.Acceptable(RequestJson(g), numberText) <==>
      && Utf16Length(g.name) <= UserGroupModel.MaxGroupName
      && forall i :: 0 <= i < |g.profiles| ==>
           Utf16Length(g.profiles[i].name) <= UserGroupModel.MaxProfileName
           && UserGroupModel.IsHexColor(StoredColor(g.profiles[i].color))
  {
    var items := ProfilesRoute.ProfilesOf(RequestJson(g));
    RequestHeader(g);
    EntriesReachSchema(g, numberText);
    var k := ProfilesRoute.FirstUnnamed(items);
    if k < |items| {
      assert false;
    }
  }

  /** Every entry of such a request, as JSON, passes the profile checks. */
  lemma EntriesReachSchema(g: NewGroup, numberText: real -> string)
    requires forall k :: 0 <= k < |g.profiles| ==> IsTrimmed(g.profiles[k].name) && g.profiles[k].name != ""
    ensures |ProfilesRoute.ProfilesOf(RequestJson(g))| == |g.profiles|
    ensures forall i :: 0 <= i < |g.profiles| ==>
      var item := ProfilesRoute.ProfilesOf(RequestJson(g))[i];
      && !item.JNull? && ProfilesRoute.NamePresent(Field(item, "name"))
      && ProfilesRoute.Castable(item)
      && (ProfilesRoute.ProfileAcceptable(item, numberText) <==>
            Utf16Length(g.profiles[i].name) <= UserGroupModel.MaxProfileName
            && UserGroupModel.IsHexColor(StoredColor(g.profiles[i].color)))
  {
    var items := ProfilesRoute.ProfilesOf(RequestJson(g));
    forall i | 0 <= i < |g.profiles|
      ensures !items[i].JNull? && ProfilesRoute.NamePresent(Field(items[i], "name"))
      ensures ProfilesRoute.Castable(items[i])
      ensures ProfilesRoute.ProfileAcceptable(items[i], numberText) <==>
        Utf16Length(g.profiles[i].name) <= UserGroupModel.MaxProfileName
        && UserGroupModel.IsHexColor(StoredColor(g.profiles[i].color))
    {
      assert items[i] == EntryJson(g.profiles[i]);
      EntryReachesSchema(g.profiles[i], numberText);
    }
  }

  /** The request body's group name is present and kept by trimming, its
      type is read back, and it carries one item per entry. */
  lemma RequestHeader(g: NewGroup)
    requires IsTrimmed(g.name) && g.name != "" && g.profiles != []
    ensures !RequestJson(g).JNull? && ProfilesRoute.NamePresent(Field(RequestJson(g), "name"))
    ensures Trim(TransactionChecks.Str(Field(RequestJson(g), "name"))) == g.name
    ensures ProfilesRoute.TypeOf(RequestJson(g)) == Some(g.kind)
    ensures ProfilesRoute.HasProfiles(RequestJson(g))
  {
    var body := RequestJson(g);
    TrimOfTrimmed(g.name);
    assert Field(body, "name") == Some(JStr(g.name));
    assert Field(body, "type") == Some(JStr(GroupTypeName(g.kind)));
    GroupTypeNameRoundTrip(g.kind);
  }

  /** One named, trimmed entry, as JSON, passes the profile checks; the
      schema takes it exactly when its name fits and its colour is a hex
      colour. */
  lemma EntryReachesSchema(e: Entry, numberText: real -> string)
    requires IsTrimmed(e.name) && e.name != ""
    ensures !EntryJson(e).JNull? && ProfilesRoute.NamePresent(Field(EntryJson(e), "name"))
    ensures ProfilesRoute.Castable(EntryJson(e))
    ensures ProfilesRoute.ProfileAcceptable(EntryJson(e), numberText) <==>
      Utf16Length(e.name) <= UserGroupModel.MaxProfileName && UserGroupModel.IsHexColor(StoredColor(e.color))
  {
    var item := EntryJson(e);
    assert Field(item, "name") == Some(JStr(e.name));
    assert Field(item, "color") == Some(JStr(e.color));
    assert Field(item, "avatar") == None;
    TrimOfTrimmed(e.name);
  }

  /** A request whose names fit and whose colours all come from the palette
      is stored by the server. */
  lemma PaletteRequestStored(f: Form, numberText: real -> string)
    requires Submit(f).Submitted? && PaletteColors(f.entries)
    requires Utf16Length(Submit(f).request.name) <= UserGroupModel.MaxGroupName
    requires forall i :: 0 <= i < |Submit(f).request.profiles| ==>
      Utf16Length(Submit(f).request.profiles[i].name) <= UserGroupModel.MaxProfileName
    ensures ProfilesRoute.Acceptable(RequestJson(Submit(f).request), numberText)
  {
    var g := Submit(f).request;
    NamedPalette(f.entries);
    forall i | 0 <= i < |g.profiles|
      ensures UserGroupModel.IsHexColor(StoredColor(g.profiles[i].color))
    {
      PaletteValid(g.profiles[i].color);
    }
    SubmittedReachesSchema(f, numberText);
  }

  /** Naming keeps colours in the palette. */
  lemma {:induction false} NamedPalette(es: seq<Entry>)
    requires PaletteColors(es)
    ensures PaletteColors(Named(es))
  {
    if es != [] {
      NamedPalette(es[1..]);
    }
  }

  /** Every palette colour is a hex colour. */
  lemma PaletteValid(c: string)
    requires c in ProfileColors
    ensures UserGroupModel.IsHexColor(StoredColor(c))
  {
  }
}
