/** The UserGroup document and its embedded profiles: the name limits, the
    hex colour rule with its default, the group types, and the pre-save
    hook that trims every name. */
module UserGroupModel {
  import opened Wrappers
  import opened Text
  import opened Records

  const MaxProfileName := 50
  const MaxGroupName := 100
  const DefaultColor := "#3B82F6"

  predicate IsHexDigit(c: char) {
    '0' <= c <= '9' || 'a' <= c <= 'f' || 'A' <= c <= 'F'
  }

  /** `/^#[0-9A-F]{6}$/i`. */
  predicate IsHexColor(s: string) {
    |s| == 7 && s[0] == '#' && forall i :: 1 <= i < 7 ==> IsHexDigit(s[i])
  }

  /** The default colour satisfies the colour rule. */
  lemma DefaultColorValid()
    ensures IsHexColor(DefaultColor)
  {
  }

  /** The colour stored for a profile: the default when none is given. */
  function ColorOf(p: Profile): string {
    p.color.GetOr(DefaultColor)
  }

  /** The profile schema: a name of 1 to 50 characters once trimmed, and a
      colour matching the rule. */
  predicate ProfileValid(p: Profile) {
    1 <= Utf16Length(Trim(p.name)) <= MaxProfileName && IsHexColor(ColorOf(p))
  }

  /** The group schema: a name of 1 to 100 characters once trimmed, and
      valid profiles. The type is one of the four by construction. */
  predicate GroupValid(g: Group) {
    1 <= Utf16Length(Trim(g.name)) <= MaxGroupName
    && forall i :: 0 <= i < |g.profiles| ==> ProfileValid(g.profiles[i])
  }

  /** The type of a document that gives none. */
  const DefaultGroupType := Personal

  /** `trim: true` on the avatar, the colour default, and the name trim of
      the pre-save hook. */
  function PreSaveProfile(p: Profile): (r: Profile)
    ensures r.ids == p.ids && r.name == Trim(p.name)
    ensures r.color == Some(ColorOf(p))
  {
    Profile(p.ids, Trim(p.name), if p.avatar.Some? then Some(Trim(p.avatar.value)) else None, Some(ColorOf(p)))
  }

  /** The pre-save hook: the group name and every profile name trimmed,
      profile order and count kept. */
  function PreSave(g: Group): (r: Group)
    ensures r.ids == g.ids && r.kind == g.kind && r.name == Trim(g.name)
    ensures |r.profiles| == |g.profiles|
    ensures forall i :: 0 <= i < |r.profiles| ==> r.profiles[i] == PreSaveProfile(g.profiles[i])
  {
    Group(g.ids, Trim(g.name), g.kind, seq(|g.profiles|, i requires 0 <= i < |g.profiles| => PreSaveProfile(g.profiles[i])))
  }

  /** The hook keeps a valid group valid, and its names are then trimmed. */
  lemma PreSaveKeepsValid(g: Group)
    requires GroupValid(g)
    ensures GroupValid(PreSave(g))
    ensures IsTrimmed(PreSave(g).name)
    ensures forall i :: 0 <= i < |g.profiles| ==> IsTrimmed(PreSave(g).profiles[i].name)
  {
    TrimIdempotent(g.name);
    forall i | 0 <= i < |g.profiles|
      ensures ProfileValid(PreSave(g).profiles[i])
    {
      TrimIdempotent(g.profiles[i].name);
    }
  }

  /** Saving a saved group again changes nothing. */
  lemma PreSaveIdempotent(g: Group)
    ensures PreSave(PreSave(g)) == PreSave(g)
  {
    TrimIdempotent(g.name);
    var once := PreSave(g);
    var twice := PreSave(once);
    forall i | 0 <= i < |g.profiles|
      ensures twice.profiles[i] == once.profiles[i]
    {
      TrimIdempotent(g.profiles[i].name);
      if g.profiles[i].avatar.Some? {
        TrimIdempotent(g.profiles[i].avatar.value);
      }
    }
  }
}
