/** The client's profile store: the user's profile, preferences and
    statistics. The local updates merge shallowly, so a partial update of a
    nested preference group replaces the whole group. */
module UserSlice {
  import opened Common

  datatype UserProfile = UserProfile(
    id: Id, name: string, email: string,
    avatar: Option<string>, bio: Option<string>, location: Option<string>, website: Option<string>,
    joinDate: int, role: string)

  /** `Partial<UserProfile>`: the keys the update carries. */
  datatype ProfilePatch = ProfilePatch(
    id: Option<Id>, name: Option<string>, email: Option<string>,
    avatar: Option<string>, bio: Option<string>, location: Option<string>, website: Option<string>,
    joinDate: Option<int>, role: Option<string>)

  /** `{ ...profile, ...patch }`. */
  function MergeProfile(p: UserProfile, patch: ProfilePatch): (r: UserProfile)
    ensures patch.id.None? ==> r.id == p.id
    ensures patch.id.Some? ==> r.id == patch.id.value
    ensures patch.name.Some? ==> r.name == patch.name.value
    ensures patch.name.None? ==> r.name == p.name
    ensures patch.email.Some? ==> r.email == patch.email.value
    ensures patch.email.None? ==> r.email == p.email
    ensures patch.avatar.Some? ==> r.avatar == patch.avatar
    ensures patch.avatar.None? ==> r.avatar == p.avatar
    ensures patch.bio.Some? ==> r.bio == patch.bio
    ensures patch.bio.None? ==> r.bio == p.bio
    ensures patch.location.Some? ==> r.location == patch.location
    ensures patch.location.None? ==> r.location == p.location
    ensures patch.website.Some? ==> r.website == patch.website
    ensures patch.website.None? ==> r.website == p.website
    ensures patch.joinDate.Some? ==> r.joinDate == patch.joinDate.value
    ensures patch.joinDate.None? ==> r.joinDate == p.joinDate
    ensures patch.role.Some? ==> r.role == patch.role.value
    ensures patch.role.None? ==> r.role == p.role
    ensures patch == ProfilePatch(None, None, None, None, None, None, None, None, None) ==> r == p
  {
    UserProfile(
      OrElse(patch.id, p.id), OrElse(patch.name, p.name), OrElse(patch.email, p.email),
      Overriding(patch.avatar, p.avatar), Overriding(patch.bio, p.bio),
      Overriding(patch.location, p.location), Overriding(patch.website, p.website),
      OrElse(patch.joinDate, p.joinDate), OrElse(patch.role, p.role))
  }

  /** Merging the same patch twice is merging it once. */
  lemma MergeProfileTwice(p: UserProfile, patch: ProfilePatch)
    ensures MergeProfile(MergeProfile(p, patch), patch) == MergeProfile(p, patch)
  {
  }

  datatype ThemePreference = LightTheme | DarkTheme | AutoTheme

  datatype NotificationPrefs = NotificationPrefs(email: bool, push: bool, sms: bool)

  datatype PrivacyPrefs = PrivacyPrefs(profileVisible: bool, emailVisible: bool, activityVisible: bool)

  datatype Preferences = Preferences(
    theme: ThemePreference, language: string, notifications: NotificationPrefs, privacy: PrivacyPrefs)

  const DefaultPreferences := Preferences(
    LightTheme, "en", NotificationPrefs(true, true, false), PrivacyPrefs(true, false, true))

  /** `Partial<UserPreferences>`: a group, when present, is a whole group. */
  datatype PreferencesPatch = PreferencesPatch(
    theme: Option<ThemePreference>, language: Option<string>,
    notifications: Option<NotificationPrefs>, privacy: Option<PrivacyPrefs>)

  /** `{ ...preferences, ...patch }`: each top-level key the patch carries
      replaces the stored one, a nested group as a whole. */
  function MergePreferences(prefs: Preferences, patch: PreferencesPatch): (r: Preferences)
    ensures patch.notifications.Some? ==> r.notifications == patch.notifications.value
    ensures patch.notifications.None? ==> r.notifications == prefs.notifications
    ensures patch.privacy.Some? ==> r.privacy == patch.privacy.value
    ensures patch.privacy.None? ==> r.privacy == prefs.privacy
    ensures patch.theme.Some? ==> r.theme == patch.theme.value
    ensures patch.theme.None? ==> r.theme == prefs.theme
    ensures patch.language.Some? ==> r.language == patch.language.value
    ensures patch.language.None? ==> r.language == prefs.language
  {
    Preferences(
      OrElse(patch.theme, prefs.theme), OrElse(patch.language, prefs.language),
      OrElse(patch.notifications, prefs.notifications), OrElse(patch.privacy, prefs.privacy))
  }

  /** Merging the same preferences patch twice is merging it once. */
  lemma MergePreferencesTwice(prefs: Preferences, patch: PreferencesPatch)
    ensures MergePreferences(MergePreferences(prefs, patch), patch) == MergePreferences(prefs, patch)
  {
  }

  datatype UserStats = UserStats(coursesCompleted: int, totalPoints: int, streak: int, rank: int)

  datatype UserState = UserState(
    profile: Option<UserProfile>, preferences: Preferences, stats: Option<UserStats>,
    loading: bool, error: Option<string>)

  class Store {
    var profile: Option<UserProfile>
    var preferences: Preferences
    var stats: Option<UserStats>
    var loading: bool
    var error: Option<string>

    function State(): UserState
      reads this
    {
      UserState(profile, preferences, stats, loading, error)
    }

    constructor ()
      ensures State() == UserState(None, DefaultPreferences, None, false, None)
    {
      profile, preferences, stats, loading, error := None, DefaultPreferences, None, false, None;
    }

    method ClearError()
      modifies this
      ensures State() == old(State()).(error := None)
    {
      error := None;
    }

    /** updateProfileLocal: merged into the profile when there is one; with
        no profile nothing happens. */
    method UpdateProfileLocal(patch: ProfilePatch)
      modifies this
      ensures old(profile).None? ==> State() == old(State())
      ensures old(profile).Some? ==> State() == old(State()).(profile := Some(MergeProfile(old(profile).value, patch)))
    {
      if profile.Some? {
        profile := Some(MergeProfile(profile.value, patch));
      }
    }

    method UpdatePreferencesLocal(patch: PreferencesPatch)
      modifies this
      ensures State() == old(State()).(preferences := MergePreferences(old(preferences), patch))
    {
      preferences := MergePreferences(preferences, patch);
    }

    /** resetUser: profile, statistics and error go; preferences and the
        loading flag stay. */
    method ResetUser()
      modifies this
      ensures State() == old(State()).(profile := None, stats := None, error := None)
    {
      profile, stats, error := None, None, None;
    }

    method FetchProfilePending()
      modifies this
      ensures State() == old(State()).(loading := true)
    {
      loading := true;
    }

    method FetchProfileFulfilled(received: UserProfile)
      modifies this
      ensures State() == old(State()).(loading := false, profile := Some(received))
    {
      loading, profile := false, Some(received);
    }

    method FetchProfileRejected(message: string)
      modifies this
      ensures State() == old(State()).(loading := false, error := Some(message))
    {
      loading, error := false, Some(message);
    }

    /** updateUserProfile.fulfilled: the server's profile replaces the local
        one. */
    method UpdateProfileFulfilled(received: UserProfile)
      modifies this
      ensures State() == old(State()).(profile := Some(received))
    {
      profile := Some(received);
    }

    /** updateUserPreferences.fulfilled: the server's preferences replace the
        local ones. */
    method UpdatePreferencesFulfilled(received: Preferences)
      modifies this
      ensures State() == old(State()).(preferences := received)
    {
      preferences := received;
    }

    method FetchStatsFulfilled(received: UserStats)
      modifies this
      ensures State() == old(State()).(stats := Some(received))
    {
      stats := Some(received);
    }

    /** uploadAvatar.fulfilled: the returned URL (absent when the response
        has none) becomes the avatar of the profile, if there is one. */
    method UploadAvatarFulfilled(avatarUrl: Option<string>)
      modifies this
      ensures old(profile).None? ==> State() == old(State())
      ensures old(profile).Some? ==> State() == old(State()).(profile := Some(old(profile).value.(avatar := avatarUrl)))
    {
      if profile.Some? {
        profile := Some(profile.value.(avatar := avatarUrl));
      }
    }

    /** The rejected case of updateUserProfile, updateUserPreferences and
        uploadAvatar: only the error is set. */
    method Rejected(message: string)
      modifies this
      ensures State() == old(State()).(error := Some(message))
    {
      error := Some(message);
    }
  }
}
