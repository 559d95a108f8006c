/**
 * The profile provider: the signed-in user's profile and role, the role predicates the screens
 * consult, profile updates and avatar uploads into the `avatars` bucket.
 */
module ProfileContext {
  import opened Wrappers
  import opened Text
  import opened Seqs
  import opened Records
  import opened Queries
  import opened DataStore

  const ProfileUpdated := "Profile updated successfully"
  const AvatarUpdated := "Avatar updated successfully"
  const UploadError := "Error uploading avatar: "
  const NoPublicUrl := "Error getting public URL for avatar"

  // ---------------------------------------------------------------------------
  // Roles

  /** `data.role || 'job_seeker'`. */
  function RoleOrSeeker(role: Option<Role>): (r: Role)
    ensures role.Some? ==> r == role.value
    ensures role.None? ==> r == JobSeeker
  {
    role.GetOr(JobSeeker)
  }

  predicate IsAdmin(role: Option<Role>) { role == Some(Admin) }
  predicate IsHR(role: Option<Role>) { role == Some(HR) }
  predicate IsJobSeeker(role: Option<Role>) { role == Some(JobSeeker) }

  /** `hasPermission(required)`: false without a role, else whether the role is listed. */
  function HasPermission(role: Option<Role>, required: seq<Role>): (r: bool)
    ensures r <==> role.Some? && role.value in required
    ensures required == [] ==> !r
  {
    match role
    case None => false
    case Some(x) => x in required
  }

  /** At most one of the three role predicates holds, and each is a one-role permission. */
  lemma RolePredicates(role: Option<Role>)
    ensures !(IsAdmin(role) && IsHR(role)) && !(IsAdmin(role) && IsJobSeeker(role)) && !(IsHR(role) && IsJobSeeker(role))
    ensures IsAdmin(role) <==> HasPermission(role, [Admin])
    ensures IsHR(role) <==> HasPermission(role, [HR])
    ensures IsJobSeeker(role) <==> HasPermission(role, [JobSeeker])
  {
  }

  /** Granting more roles never takes a permission away. */
  lemma HasPermissionMonotone(role: Option<Role>, required: seq<Role>, more: seq<Role>)
    requires HasPermission(role, required)
    ensures HasPermission(role, required + more) && HasPermission(role, more + required)
  {
  }

  // ---------------------------------------------------------------------------
  // Queries and the avatar path

  /** `profiles.eq("id", id)`. */
  function ProfilesWithId(profiles: seq<ProfileRow>, id: Id): seq<ProfileRow> {
    Filter(profiles, (p: ProfileRow) => p.id == id)
  }

  /** `profiles.eq("id", id).single()`, or nothing when the query fails. */
  function FetchedProfile(profiles: seq<ProfileRow>, id: Id, failed: bool): (r: Option<ProfileRow>)
    ensures r.Some? ==> r.value in profiles && r.value.id == id
  {
    if failed then None else Single(ProfilesWithId(profiles, id)).ToOption()
  }

  /** In a table with unique keys, an existing key selects exactly its row. */
  lemma {:induction false} ProfilesWithIdSingle(profiles: seq<ProfileRow>, id: Id, k: nat)
    requires UniqueProfileIds(profiles) && k < |profiles| && profiles[k].id == id
    ensures ProfilesWithId(profiles, id) == [profiles[k]]
  {
    var rest := profiles[1..];
    assert UniqueProfileIds(rest) by {
      forall i, j | 0 <= i < j < |rest| ensures rest[i].id != rest[j].id {
        assert rest[i] == profiles[i + 1] && rest[j] == profiles[j + 1];
      }
    }
    if k == 0 {
      forall i | 0 <= i < |rest| ensures rest[i].id != id {
        assert rest[i] == profiles[i + 1];
      }
      FilterEmptyIff(rest, (p: ProfileRow) => p.id == id);
    } else {
      assert profiles[0].id != id;
      ProfilesWithIdSingle(rest, id, k - 1);
    }
  }

  /** A fetch that does not fail finds the signed-in user's profile whenever it exists. */
  lemma FetchFindsExistingProfile(profiles: seq<ProfileRow>, id: Id, k: nat)
    requires UniqueProfileIds(profiles) && k < |profiles| && profiles[k].id == id
    ensures FetchedProfile(profiles, id, false) == Some(profiles[k])
  {
    ProfilesWithIdSingle(profiles, id, k);
  }

  /** `${userId}/${now}.${file.name.split('.').pop()}`. */
  function AvatarPath(userId: Id, now: nat, fileName: string): string {
    userId + "/" + NatToString(now) + "." + AfterLast(fileName, '.')
  }

  /** The path lies in the user's own folder: its first segment is the user's id. */
  lemma AvatarPathFolder(userId: Id, now: nat, fileName: string)
    requires '/' !in userId
    ensures Before(AvatarPath(userId, now, fileName), '/') == userId
  {
    var rest := NatToString(now) + "." + AfterLast(fileName, '.');
    assert AvatarPath(userId, now, fileName) == userId + ['/'] + rest;
    BeforeOfJoin(userId, '/', rest);
  }

  /**
   * The path's extension is the file name's text after its last dot, or the whole file name
   * when it has none.
   */
  lemma AvatarPathExtension(userId: Id, now: nat, fileName: string)
    ensures AfterLast(AvatarPath(userId, now, fileName), '.') == AfterLast(fileName, '.')
    ensures '.' !in fileName ==> AfterLast(AvatarPath(userId, now, fileName), '.') == fileName
  {
    var ext := AfterLast(fileName, '.');
    var stem := userId + "/" + NatToString(now);
    assert AvatarPath(userId, now, fileName) == stem + ['.'] + ext;
    AfterLastOfJoin(stem, '.', ext);
    if '.' !in fileName {
      AfterLastWhole(fileName, '.');
    }
  }

  // ---------------------------------------------------------------------------
  // The provider

  class ProfileProvider {
    var profile: Option<ProfileRow>
    var userRole: Option<Role>
    var loading: bool

    constructor ()
      ensures profile == None && userRole == None && loading
    {
      profile := None;
      userRole := None;
      loading := true;
    }

    /** `fetchProfile(userId)`; `failed` is whether the query errs. A failure keeps the state. */
    method FetchProfile(store: Store, userId: Id, failed: bool)
      modifies this
      ensures !loading
      ensures var p := FetchedProfile(store.profiles, userId, failed);
        && (p.None? ==> profile == old(profile) && userRole == old(userRole))
        && (p.Some? ==> profile == p && userRole == Some(RoleOrSeeker(p.value.role)))
    {
      loading := true;
      var p := FetchedProfile(store.profiles, userId, failed);
      if p.Some? {
        profile := p;
        userRole := Some(RoleOrSeeker(p.value.role));
      }
      loading := false;
    }

    /** The effect on the auth user: fetch the new user's profile, or clear everything. */
    method OnUserChanged(user: Option<Id>, store: Store, failed: bool)
      modifies this
      ensures !loading
      ensures user.None? ==> profile == None && userRole == None
      ensures user.Some? ==> var p := FetchedProfile(store.profiles, user.value, failed);
        && (p.None? ==> profile == old(profile) && userRole == old(userRole))
        && (p.Some? ==> profile == p && userRole == Some(RoleOrSeeker(p.value.role)))
    {
      if user.Some? {
        FetchProfile(store, user.value, failed);
      } else {
        profile := None;
        userRole := None;
        loading := false;
      }
    }

    /**
     * `updateProfile(patch)`. `failure` is the update's error message, if any, and
     * `refetchFailed` whether the profile fetch that follows a successful update errs. Returns
     * the toasts raised.
     */
    method UpdateProfile(user: Option<Id>, store: Store, patch: ProfilePatch, failure: Option<string>, refetchFailed: bool)
      returns (toasts: seq<Toast>)
      requires store.Valid()
      modifies this, store`profiles
      ensures store.Valid()
      ensures (user.None? || failure.Some?) ==>
        && store.profiles == old(store.profiles)
        && profile == old(profile) && userRole == old(userRole) && loading == old(loading)
      ensures user.None? ==> toasts == []
      ensures user.Some? && failure.Some? ==> toasts == [Failure(failure.value)]
      ensures user.Some? && failure.None? ==>
        && store.profiles == PatchProfiles(old(store.profiles), user.value, patch)
        && toasts == [Success(ProfileUpdated)] && !loading
        && var p := FetchedProfile(store.profiles, user.value, refetchFailed);
           (p.None? ==> profile == old(profile) && userRole == old(userRole))
           && (p.Some? ==> profile == p && userRole == Some(RoleOrSeeker(p.value.role)))
    {
      if user.None? {
        return [];
      }
      if failure.Some? {
        return [Failure(failure.value)];
      }
      store.UpdateProfile(user.value, patch);
      FetchProfile(store, user.value, refetchFailed);
      toasts := [Success(ProfileUpdated)];
    }

    /**
     * `uploadAvatar(file)`. `now` stands for `Date.now()`, `uploadFailure` for the storage
     * error, `publicUrl` for what `getPublicUrl` answers and `updateFailure`/`refetchFailed`
     * for the profile update that follows. Returns the URL, if any, and the toasts raised.
     */
    method UploadAvatar(user: Option<Id>, file: Option<File>, store: Store, now: nat,
                        uploadFailure: Option<string>, publicUrl: string,
                        updateFailure: Option<string>, refetchFailed: bool)
      returns (url: Option<string>, toasts: seq<Toast>)
      requires store.Valid()
      modifies this, store`profiles, store`avatars
      ensures store.Valid()
      ensures url.Some? <==> user.Some? && file.Some? && uploadFailure.None? && publicUrl != ""
      ensures url.Some? ==> url.value == publicUrl
      ensures (user.None? || file.None?) ==>
        && toasts == [] && store.avatars == old(store.avatars) && store.profiles == old(store.profiles)
        && profile == old(profile) && userRole == old(userRole) && loading == old(loading)
      ensures user.Some? && file.Some? && uploadFailure.Some? ==>
        && toasts == [Failure(UploadError + uploadFailure.value)]
        && store.avatars == old(store.avatars) && store.profiles == old(store.profiles)
        && profile == old(profile) && userRole == old(userRole) && loading == old(loading)
      ensures user.Some? && file.Some? && uploadFailure.None? ==>
        store.avatars == old(store.avatars)[AvatarPath(user.value, now, file.value.name) := file.value]
      ensures user.Some? && file.Some? && uploadFailure.None? && publicUrl == "" ==>
        && toasts == [Failure(NoPublicUrl)] && store.profiles == old(store.profiles)
        && profile == old(profile) && userRole == old(userRole) && loading == old(loading)
      ensures url.Some? ==>
        && store.profiles == (if updateFailure.Some? then old(store.profiles)
                              else PatchProfiles(old(store.profiles), user.value, ProfilePatch(None, None, None, Some(publicUrl))))
        && toasts == (if updateFailure.Some? then [Failure(updateFailure.value)] else [Success(ProfileUpdated)])
                     + [Success(AvatarUpdated)]
      ensures url.Some? && updateFailure.Some? ==>
        profile == old(profile) && userRole == old(userRole) && loading == old(loading)
      ensures url.Some? && updateFailure.None? ==>
        && !loading
        && var p := FetchedProfile(store.profiles, user.value, refetchFailed);
           (p.None? ==> profile == old(profile) && userRole == old(userRole))
           && (p.Some? ==> profile == p && userRole == Some(RoleOrSeeker(p.value.role)))
    {
      if user.None? || file.None? {
        return None, [];
      }
      var path := AvatarPath(user.value, now, file.value.name);
      if uploadFailure.Some? {
        return None, [Failure(UploadError + uploadFailure.value)];
      }
      store.UploadAvatar(path, file.value);
      if publicUrl == "" {
        return None, [Failure(NoPublicUrl)];
      }
      var updateToasts := UpdateProfile(user, store, ProfilePatch(None, None, None, Some(publicUrl)),
                                        updateFailure, refetchFailed);
      url, toasts := Some(publicUrl), updateToasts + [Success(AvatarUpdated)];
    }
  }
}
