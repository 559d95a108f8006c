/**
 * The profile page: the form schema and its defaults, and the checks a chosen avatar file must
 * pass before it is uploaded.
 */
module ProfilePage {
  import opened Wrappers
  import opened Text
  import opened Records
  import opened DataStore

  /** The form's values; `None` marks an optional key that is absent. */
  datatype ProfileForm = ProfileForm(first_name: string, last_name: string, bio: Option<string>, avatar_url: Option<string>)

  const FirstNameRequired := "First name is required"
  const LastNameRequired := "Last name is required"
  const TooLarge := "File size should not exceed 5MB"
  const NotAnImage := "Please upload an image file"

  /** The largest accepted avatar, in bytes. */
  const MaxAvatarBytes: nat := 5 * 1024 * 1024

  /** `profileSchema`'s messages for `values`, in field order; empty when the values are valid. */
  function SchemaErrors(values: ProfileForm): (r: seq<string>)
    ensures r == [] <==> |values.first_name| >= 1 && |values.last_name| >= 1
    ensures FirstNameRequired in r <==> values.first_name == ""
    ensures LastNameRequired in r <==> values.last_name == ""
    ensures |r| <= 2
  {
    (if |values.first_name| < 1 then [FirstNameRequired] else [])
    + (if |values.last_name| < 1 then [LastNameRequired] else [])
  }

  /** The schema counts characters and does not trim: a name of one space is accepted. */
  lemma SchemaAcceptsBlankNames()
    ensures SchemaErrors(ProfileForm(" ", " ", None, None)) == []
    ensures IsBlank(" ")
  {
  }

  /** The form's values for a profile (`profile?.field || ""`), every key present. */
  function Defaults(profile: Option<ProfileRow>): (r: ProfileForm)
    ensures profile.None? ==> r == ProfileForm("", "", Some(""), Some(""))
    ensures profile.Some? ==>
      && r.first_name == OrEmpty(profile.value.first_name) && r.last_name == OrEmpty(profile.value.last_name)
      && r.bio == Some(OrEmpty(profile.value.bio)) && r.avatar_url == Some(OrEmpty(profile.value.avatar_url))
  {
    match profile
    case None => ProfileForm("", "", Some(""), Some(""))
    case Some(p) => ProfileForm(OrEmpty(p.first_name), OrEmpty(p.last_name), Some(OrEmpty(p.bio)), Some(OrEmpty(p.avatar_url)))
  }

  /** The defaults pass the schema exactly when the profile has a truthy first and last name. */
  lemma DefaultsValidIff(profile: ProfileRow)
    ensures SchemaErrors(Defaults(Some(profile))) == [] <==> Truthy(profile.first_name) && Truthy(profile.last_name)
  {
  }

  /** The update a valid form submits: every present key, the names always. */
  function SubmittedPatch(values: ProfileForm): (r: ProfilePatch)
    ensures r.first_name == Some(values.first_name) && r.last_name == Some(values.last_name)
    ensures r.bio == values.bio && r.avatar_url == values.avatar_url
  {
    ProfilePatch(Some(values.first_name), Some(values.last_name), values.bio, values.avatar_url)
  }

  /** The outcome of the checks on the chosen files. */
  datatype FileCheck = NoFile | Rejected(message: string) | Accepted(file: File)

  /** `file.size / 1024 / 1024 > 5`, in the page's own (exact, for these divisors) arithmetic. */
  predicate Oversized(file: File) {
    (file.size as real) / 1024.0 / 1024.0 > 5.0
  }

  /** The megabyte test is exactly a byte bound: a file of 5 MiB passes, one byte more does not. */
  lemma OversizedIff(file: File)
    ensures Oversized(file) <==> file.size > MaxAvatarBytes
  {
    var x := file.size as real;
    assert x / 1024.0 / 1024.0 == x / 1048576.0;
  }

  /** `handleFileUpload`'s guards, in order: a file is chosen, it is small enough, it is an image. */
  function CheckFiles(files: seq<File>): (r: FileCheck)
    ensures files == [] <==> r == NoFile
    ensures r.Accepted? ==> r.file == files[0]
    ensures files != [] ==>
      && (files[0].size > MaxAvatarBytes ==> r == Rejected(TooLarge))
      && (files[0].size <= MaxAvatarBytes && !("image/" <= files[0].mime) ==> r == Rejected(NotAnImage))
      && (files[0].size <= MaxAvatarBytes && "image/" <= files[0].mime ==> r == Accepted(files[0]))
  {
    if files == [] then NoFile
    else
      var file := files[0];
      OversizedIff(file);
      if Oversized(file) then Rejected(TooLarge)
      else if !("image/" <= file.mime) then Rejected(NotAnImage)
      else Accepted(file)
  }

  /** Only the first file counts: the others never change the outcome. */
  lemma OnlyFirstFileCounts(file: File, rest: seq<File>, other: seq<File>)
    ensures CheckFiles([file] + rest) == CheckFiles([file] + other)
  {
  }

  /** An oversized file is reported as too large whatever its type. */
  lemma SizeCheckedFirst(file: File)
    requires file.size > MaxAvatarBytes
    ensures CheckFiles([file]) == Rejected(TooLarge)
  {
  }

  class ProfilePageState {
    var form: ProfileForm
    var avatarUrl: Option<string>
    var isUploading: bool
    var isLoading: bool

    constructor (profile: Option<ProfileRow>)
      ensures form == Defaults(profile) && avatarUrl == None && !isUploading && !isLoading
    {
      form := Defaults(profile);
      avatarUrl := None;
      isUploading := false;
      isLoading := false;
    }

    /** The effect on the `profile` value: the form is reset to the new profile's values. */
    method OnProfileChanged(profile: Option<ProfileRow>)
      modifies this`form, this`avatarUrl
      ensures profile.None? ==> form == old(form) && avatarUrl == old(avatarUrl)
      ensures profile.Some? ==> form == Defaults(profile) && avatarUrl == profile.value.avatar_url
    {
      if profile.Some? {
        form := Defaults(profile);
        avatarUrl := profile.value.avatar_url;
      }
    }

    /**
     * `handleFileUpload`. `uploaded` is what `uploadAvatar` answers for the accepted file (it
     * comes from the authentication hook, which is not part of this model). Returns the result
     * of the checks and the error toast they raise, if any.
     */
    method HandleFileUpload(files: seq<File>, uploaded: Option<string>) returns (check: FileCheck, toast: Option<Toast>)
      modifies this`form, this`avatarUrl, this`isUploading
      ensures check == CheckFiles(files)
      ensures check.NoFile? || check.Rejected? ==> isUploading == old(isUploading)
      ensures check.Rejected? <==> toast.Some?
      ensures check.Rejected? ==> toast == Some(Failure(check.message))
      ensures check.Accepted? && uploaded.Some? && uploaded.value != "" ==>
        avatarUrl == uploaded && form == old(form).(avatar_url := uploaded)
      ensures !(check.Accepted? && uploaded.Some? && uploaded.value != "") ==>
        avatarUrl == old(avatarUrl) && form == old(form)
      ensures check.Accepted? ==> !isUploading
    {
      check := CheckFiles(files);
      if !check.Accepted? {
        toast := if check.Rejected? then Some(Failure(check.message)) else None;
        return;
      }
      toast := None;
      isUploading := true;
      if uploaded.Some? && uploaded.value != "" {
        avatarUrl := uploaded;
        form := form.(avatar_url := uploaded);
      }
      isUploading := false;
    }

    /**
     * `form.handleSubmit(onSubmit)`: invalid values are reported and nothing is sent; valid
     * values are sent as a profile update while `isLoading` is raised.
     */
    method Submit(values: ProfileForm) returns (errors: seq<string>, sent: Option<ProfilePatch>)
      modifies this`isLoading
      ensures errors == SchemaErrors(values)
      ensures errors == [] <==> sent.Some?
      ensures sent.Some? ==> sent.value == SubmittedPatch(values) && !isLoading
      ensures sent.None? ==> isLoading == old(isLoading)
    {
      errors := SchemaErrors(values);
      if errors != [] {
        return errors, None;
      }
      isLoading := true;
      sent := Some(SubmittedPatch(values));
      isLoading := false;
    }
  }
}
