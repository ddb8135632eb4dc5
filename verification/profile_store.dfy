/** The client's profile store: the selected group, the selected profile,
    the view mode and the list of groups, with the four actions that move
    between states and the getters read from a state. */
module ProfileStore {
  import opened Wrappers
  import opened Records

  datatype State = State(
    currentGroup: Option<Group>,
    currentProfile: Option<Profile>,
    viewMode: ViewMode,
    groups: seq<Group>)

  /** The state a fresh store starts in. */
  function Initial(): State {
    State(None, None, ViewMode(Individual, None, ""), [])
  }

  /** The individual view of profile `p` in group `g`: the profile's
      `_id || id` and the group's `_id || id || ''`. */
  function IndividualView(g: Group, p: Profile): (m: ViewMode)
    ensures m.mode == Individual && m.profileId == Key(p.ids) && m.groupId == KeyOrEmpty(g.ids)
  {
    ViewMode(Individual, Key(p.ids), KeyOrEmpty(g.ids))
  }

  /** A selection that hangs together: a group and one of its profiles are
      selected and the view is that profile's individual view. */
  predicate Coherent(s: State) {
    && s.currentGroup.Some? && s.currentProfile.Some?
    && s.currentProfile.value in s.currentGroup.value.profiles
    && s.viewMode == IndividualView(s.currentGroup.value, s.currentProfile.value)
  }

  /** `setCurrentGroup`: store the group and, when it has a profile, select
      its first profile in the individual view. */
  function SetCurrentGroup(s: State, g: Option<Group>): (r: State)
    ensures r.currentGroup == g && r.groups == s.groups
    ensures g.Some? && |g.value.profiles| > 0 ==>
      r.currentProfile == Some(g.value.profiles[0])
      && r.viewMode == IndividualView(g.value, g.value.profiles[0])
    ensures g.None? || |g.value.profiles| == 0 ==>
      r.currentProfile == s.currentProfile && r.viewMode == s.viewMode
  {
    var stored := s.(currentGroup := g);
    if g.Some? && |g.value.profiles| > 0 then
      stored.(currentProfile := Some(g.value.profiles[0]),
              viewMode := IndividualView(g.value, g.value.profiles[0]))
    else stored
  }

  /** `setCurrentProfile`: store the profile and, when a group is selected,
      switch to the profile's individual view in that group. */
  function SetCurrentProfile(s: State, p: Option<Profile>): (r: State)
    ensures r.currentProfile == p && r.currentGroup == s.currentGroup && r.groups == s.groups
    ensures p.Some? && s.currentGroup.Some? ==> r.viewMode == IndividualView(s.currentGroup.value, p.value)
    ensures p.None? || s.currentGroup.None? ==> r.viewMode == s.viewMode
  {
    var stored := s.(currentProfile := p);
    if p.Some? && s.currentGroup.Some? then
      stored.(viewMode := IndividualView(s.currentGroup.value, p.value))
    else stored
  }

  /** JavaScript truthiness of an optional string. */
  predicate Given(v: Option<string>) {
    v.Some? && v.value != ""
  }

  /** `profiles.find(p => (p._id || p.id) === key)`, searching from
      position `from`, as the position found. */
  function FindFrom(ps: seq<Profile>, key: string, from: nat): (r: Option<nat>)
    requires from <= |ps|
    decreases |ps| - from
    ensures r.Some? ==> from <= r.value < |ps| && Key(ps[r.value].ids) == Some(key)
    ensures r.Some? ==> forall j :: from <= j < r.value ==> Key(ps[j].ids) != Some(key)
    ensures r.None? <==> forall j :: from <= j < |ps| ==> Key(ps[j].ids) != Some(key)
  {
    if from == |ps| then None
    else if Key(ps[from].ids) == Some(key) then Some(from)
    else FindFrom(ps, key, from + 1)
  }

  /** The first profile whose key is `key`. */
  function Find(ps: seq<Profile>, key: string): (r: Option<Profile>)
    ensures r.Some? ==> r.value in ps && Key(r.value.ids) == Some(key)
    ensures r.None? <==> forall p :: p in ps ==> Key(p.ids) != Some(key)
  {
    var i := FindFrom(ps, key, 0);
    if i.Some? then Some(ps[i.value]) else None
  }

  /** Whether `setViewMode` looks the mode's profile up in the group. */
  predicate LooksUp(s: State, m: ViewMode) {
    m.mode == Individual && Given(m.profileId) && s.currentGroup.Some?
  }

  /** `setViewMode`: store the mode and, when it is an individual view of a
      profile of the selected group, select that profile too. */
  function SetViewMode(s: State, m: ViewMode): (r: State)
    ensures r.viewMode == m && r.currentGroup == s.currentGroup && r.groups == s.groups
    ensures LooksUp(s, m) && Find(s.currentGroup.value.profiles, m.profileId.value).Some? ==>
      r.currentProfile.Some? && r.currentProfile.value in s.currentGroup.value.profiles
      && Key(r.currentProfile.value.ids) == m.profileId
    ensures !LooksUp(s, m) || Find(s.currentGroup.value.profiles, m.profileId.value).None? ==>
      r.currentProfile == s.currentProfile
  {
    if LooksUp(s, m) then
      var found := Find(s.currentGroup.value.profiles, m.profileId.value);
      if found.Some? then s.(currentProfile := found, viewMode := m)
      else s.(viewMode := m)
    else s.(viewMode := m)
  }

  /** `setGroups`: store the list and, when no group is selected yet,
      select the first group as `setCurrentGroup` would. */
  function SetGroups(s: State, gs: seq<Group>): (r: State)
    ensures r.groups == gs
    ensures s.currentGroup.None? && |gs| > 0 ==>
      r.currentGroup == Some(gs[0])
      && (|gs[0].profiles| > 0 ==>
            r.currentProfile == Some(gs[0].profiles[0])
            && r.viewMode == IndividualView(gs[0], gs[0].profiles[0]))
      && (|gs[0].profiles| == 0 ==> r.currentProfile == s.currentProfile && r.viewMode == s.viewMode)
    ensures s.currentGroup.Some? || |gs| == 0 ==>
      r.currentGroup == s.currentGroup && r.currentProfile == s.currentProfile && r.viewMode == s.viewMode
  {
    var stored := s.(groups := gs);
    if s.currentGroup.None? && |gs| > 0 then SetCurrentGroup(stored, Some(gs[0]))
    else stored
  }

  /** `x?._id || x?.id || null`: an empty key reads as no key. */
  function IdOf(ids: Option<Ids>): (r: Option<string>)
    ensures r.Some? ==> r.value != ""
    ensures ids.Some? && Given(Key(ids.value)) ==> r == Key(ids.value)
  {
    if ids.Some? && Given(Key(ids.value)) then Key(ids.value) else None
  }

  function GetCurrentGroupId(s: State): (r: Option<string>)
    ensures r.Some? ==> r.value != "" && s.currentGroup.Some?
    ensures s.currentGroup.Some? && Given(Key(s.currentGroup.value.ids)) ==> r == Key(s.currentGroup.value.ids)
  {
    IdOf(if s.currentGroup.Some? then Some(s.currentGroup.value.ids) else None)
  }

  function GetCurrentProfileId(s: State): Option<string> {
    IdOf(if s.currentProfile.Some? then Some(s.currentProfile.value.ids) else None)
  }

  function IsGroupView(s: State): bool {
    s.viewMode.mode == GroupMode
  }

  /** The individual view is exactly the view that is not the group view. */
  function IsIndividualView(s: State): (b: bool)
    ensures b <==> !IsGroupView(s)
  {
    s.viewMode.mode == Individual
  }

  /** A fresh store has nothing selected and shows the individual view. */
  lemma InitialIsEmpty()
    ensures GetCurrentGroupId(Initial()) == None && GetCurrentProfileId(Initial()) == None
    ensures IsIndividualView(Initial()) && Initial().groups == []
    ensures !Coherent(Initial())
  {
  }

  /** A profile that is in the list is found, with the same key. */
  lemma FoundWhenPresent(ps: seq<Profile>, p: Profile)
    requires p in ps && Key(p.ids).Some?
    ensures Find(ps, Key(p.ids).value).Some?
  {
    var j :| 0 <= j < |ps| && ps[j] == p;
    assert Key(ps[j].ids) == Some(Key(p.ids).value);
  }

  /** Selecting a group with profiles gives a coherent selection. */
  lemma SetCurrentGroupCoherent(s: State, g: Group)
    requires |g.profiles| > 0
    ensures Coherent(SetCurrentGroup(s, Some(g)))
  {
  }

  /** Selecting a profile of the selected group gives a coherent selection. */
  lemma SetCurrentProfileCoherent(s: State, p: Profile)
    requires s.currentGroup.Some? && p in s.currentGroup.value.profiles
    ensures Coherent(SetCurrentProfile(s, Some(p)))
  {
  }

  /** Switching to the individual view of a profile of the selected group
      gives a coherent selection, whichever profile with that key is
      picked, when the profile has a key. */
  lemma SetViewModeCoherent(s: State, p: Profile)
    requires s.currentGroup.Some? && p in s.currentGroup.value.profiles && Given(Key(p.ids))
    ensures Coherent(SetViewMode(s, IndividualView(s.currentGroup.value, p)))
  {
    var g := s.currentGroup.value;
    FoundWhenPresent(g.profiles, p);
    var r := SetViewMode(s, IndividualView(g, p));
    assert IndividualView(g, r.currentProfile.value) == IndividualView(g, p);
  }

  /** Setting the same group twice is the same as setting it once. */
  lemma SetCurrentGroupIdempotent(s: State, g: Option<Group>)
    ensures SetCurrentGroup(SetCurrentGroup(s, g), g) == SetCurrentGroup(s, g)
  {
  }

  /** Loading the same list twice is the same as loading it once: the
      second load finds a group selected, or the list empty. */
  lemma SetGroupsIdempotent(s: State, gs: seq<Group>)
    ensures SetGroups(SetGroups(s, gs), gs) == SetGroups(s, gs)
  {
  }

  /** Loading groups into a fresh store selects the first profile of the
      first group, when there is one. */
  lemma FirstLoadSelects(gs: seq<Group>)
    requires |gs| > 0 && |gs[0].profiles| > 0
    ensures Coherent(SetGroups(Initial(), gs))
    ensures GetCurrentGroupId(SetGroups(Initial(), gs)) == IdOf(Some(gs[0].ids))
  {
  }

  /** Loading groups never replaces a selected group. */
  lemma ReloadKeepsSelection(s: State, gs: seq<Group>)
    requires s.currentGroup.Some?
    ensures SetGroups(s, gs) == s.(groups := gs)
  {
  }
}
