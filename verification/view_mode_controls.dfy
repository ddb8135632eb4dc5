/** The two controls that drive the profile store's view mode: the profile
    switcher, whose toggle ignores a press when no group is selected and
    whose trigger shows a display text, and the view-mode toggle, which is
    only shown while a group is selected. Both build the same mode. */
module ViewModeControls {
  import opened Wrappers
  import opened Records
  import opened ProfileStore

  /** The other view. */
  function Flip(m: Mode): (r: Mode)
    ensures r != m
  {
    if m == Individual then GroupMode else Individual
  }

  /** `currentProfile?._id || currentProfile?.id`. */
  function ProfileKey(p: Option<Profile>): (r: Option<string>)
    ensures p.Some? ==> r == Key(p.value.ids)
    ensures p.None? ==> r.None?
  {
    if p.Some? then Key(p.value.ids) else None
  }

  /** The mode a press of either toggle asks for: the other view, in the
      selected group, with the selected profile only in the individual
      view. */
  function ToggledMode(s: State): (m: ViewMode)
    requires s.currentGroup.Some?
    ensures m.mode != s.viewMode.mode
    ensures m.groupId == KeyOrEmpty(s.currentGroup.value.ids)
    ensures m.mode == GroupMode ==> m.profileId.None?
    ensures m.mode == Individual ==> m.profileId == ProfileKey(s.currentProfile)
  {
    var next := Flip(s.viewMode.mode);
    ViewMode(next, if next == Individual then ProfileKey(s.currentProfile) else None,
             KeyOrEmpty(s.currentGroup.value.ids))
  }

  /** The switcher's `toggleViewMode`: nothing without a selected group,
      otherwise the store's `setViewMode` with the toggled mode. */
  function Toggle(s: State): (r: State)
    ensures s.currentGroup.None? ==> r == s
    ensures s.currentGroup.Some? ==> r.viewMode == ToggledMode(s)
    ensures r.currentGroup == s.currentGroup && r.groups == s.groups
  {
    if s.currentGroup.None? then s else SetViewMode(s, ToggledMode(s))
  }

  /** The view-mode toggle renders (and so can be pressed) only while a
      group is selected. */
  predicate ToggleShown(s: State) {
    s.currentGroup.Some?
  }

  /** The toggle is shown exactly when pressing it changes the state, so
      the hidden control and the ignored press are the same guard. */
  lemma ShownExactlyWhenEffective(s: State)
    ensures ToggleShown(s) <==> Toggle(s) != s
  {
    if ToggleShown(s) {
      assert Toggle(s).viewMode.mode != s.viewMode.mode;
    }
  }

  /** Toggling to the group view never changes the selected profile. */
  lemma ToGroupKeepsProfile(s: State)
    requires s.currentGroup.Some? && s.viewMode.mode == Individual
    ensures Toggle(s).currentProfile == s.currentProfile
    ensures IsGroupView(Toggle(s))
  {
  }

  /** Pressing the toggle twice from a coherent selection returns to the
      same individual view, with a profile of the same key selected. */
  lemma {:induction false} ToggleTwice(s: State)
    requires Coherent(s)
    ensures Coherent(Toggle(Toggle(s)))
    ensures Toggle(Toggle(s)).viewMode == s.viewMode
    ensures Key(Toggle(Toggle(s)).currentProfile.value.ids) == Key(s.currentProfile.value.ids)
  {
    var g := s.currentGroup.value;
    var p := s.currentProfile.value;
    var once := Toggle(s);
    assert once.viewMode.mode == GroupMode;
    assert once.currentProfile == s.currentProfile;
    assert ToggledMode(once) == IndividualView(g, p);
    if Given(Key(p.ids)) {
      SetViewModeCoherent(once, p);
    }
  }

  /** The switcher's trigger text. */
  function DisplayText(s: State): (t: string)
    ensures s.currentGroup.None? ==> t == "Select Profile"
    ensures s.currentGroup.Some? && IsGroupView(s) ==> t == s.currentGroup.value.name + " (Group View)"
    ensures s.currentGroup.Some? && IsIndividualView(s) ==>
      t == (if s.currentProfile.Some? then s.currentProfile.value.name else s.currentGroup.value.name)
  {
    if s.currentGroup.None? then "Select Profile"
    else if s.viewMode.mode == GroupMode then s.currentGroup.value.name + " (Group View)"
    else if s.currentProfile.Some? then s.currentProfile.value.name
    else s.currentGroup.value.name
  }

  /** A coherent selection is shown by its profile's name; toggling it
      shows the group's name marked as the group view. */
  lemma DisplayOfCoherent(s: State)
    requires Coherent(s)
    ensures DisplayText(s) == s.currentProfile.value.name
    ensures DisplayText(Toggle(s)) == s.currentGroup.value.name + " (Group View)"
  {
  }
}
