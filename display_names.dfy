/**
 * The `get-users-with-display-names` edge function: every profile is returned with the email of
 * its account and a display name chosen from the account metadata or the profile's own name.
 */
module DisplayNames {
  import opened Wrappers
  import opened Text
  import opened Records
  import opened Queries
  import opened Names
  import InterviewData

  /** The entries of `raw_user_meta_data` the function reads. */
  datatype UserMeta = UserMeta(name: Option<string>, full_name: Option<string>, display_name: Option<string>)

  /** The columns of `auth.users` the function selects. */
  datatype AuthUser = AuthUser(id: Id, email: Option<string>, meta: Option<UserMeta>)

  /** A profile with the two added keys; the profile's own fields are carried unchanged. */
  datatype EnrichedProfile = EnrichedProfile(profile: ProfileRow, email: Option<string>, display_name: string)

  datatype Body = Plain(text: string) | Profiles(entries: seq<EnrichedProfile>) | Error(error: string)

  datatype Response = Response(status: nat, body: Body)

  const UnknownEmail := "unknown@example.com"
  const UnknownUser := "Unknown User"
  const DefaultUser := "User"

  /** `users.eq("id", id).single()`; `unreachable` holds the ids whose query fails outright. */
  function LookupUser(users: seq<AuthUser>, unreachable: set<Id>, id: Id): (r: Result<AuthUser>)
    ensures r.Ok? ==> r.value in users && r.value.id == id && id !in unreachable
  {
    if id in unreachable then Err("fetch failed")
    else Single(UsersWithId(users, id))
  }

  function UsersWithId(users: seq<AuthUser>, id: Id): (r: seq<AuthUser>)
    ensures forall u :: u in r <==> u in users && u.id == id
  {
    if users == [] then []
    else if users[0].id == id then [users[0]] + UsersWithId(users[1..], id)
    else UsersWithId(users[1..], id)
  }

  /** `first_name ? `${first_name} ${last_name || ''}`.trim() : fallback`. */
  function ProfileName(p: ProfileRow, fallback: string): string {
    if Truthy(p.first_name) then JoinNames(p.first_name, p.last_name) else fallback
  }

  /** `meta?.name || meta?.full_name || meta?.display_name`, read for its truthiness. */
  function MetaName(meta: Option<UserMeta>): string {
    match meta
    case None => ""
    case Some(m) => OptOr(m.name, OptOr(m.full_name, OrEmpty(m.display_name)))
  }

  /** The entry for one profile, given the outcome of its account lookup. */
  function Enrich(p: ProfileRow, lookup: Result<AuthUser>): (r: EnrichedProfile)
    ensures r.profile == p
    ensures lookup.Err? ==> r.email == Some(UnknownEmail)
    ensures lookup.Ok? ==> r.email == lookup.value.email
  {
    match lookup
    case Err(_) => EnrichedProfile(p, Some(UnknownEmail), ProfileName(p, UnknownUser))
    case Ok(u) => EnrichedProfile(p, u.email, Or(MetaName(u.meta), ProfileName(p, DefaultUser)))
  }

  /** `profiles.map(...)`: one entry per profile, in profile order, each keeping its profile. */
  function EnrichAll(profiles: seq<ProfileRow>, users: seq<AuthUser>, unreachable: set<Id>): (r: seq<EnrichedProfile>)
    ensures |r| == |profiles|
    ensures forall k :: 0 <= k < |profiles| ==> r[k].profile == profiles[k]
    ensures forall k :: 0 <= k < |profiles| ==> r[k] == Enrich(profiles[k], LookupUser(users, unreachable, profiles[k].id))
  {
    seq(|profiles|, k requires 0 <= k < |profiles| => Enrich(profiles[k], LookupUser(users, unreachable, profiles[k].id)))
  }

  /** The handler: the preflight answer, the enriched list, or the profiles query's error. */
  function Serve(requestMethod: string, profiles: Result<seq<ProfileRow>>, users: seq<AuthUser>, unreachable: set<Id>): (r: Response)
    ensures requestMethod == "OPTIONS" ==> r == Response(200, Plain("ok"))
    ensures requestMethod != "OPTIONS" && profiles.Err? ==> r == Response(400, Error(profiles.message))
    ensures requestMethod != "OPTIONS" && profiles.Ok? ==>
      r.status == 200 && r.body.Profiles? && |r.body.entries| == |profiles.value|
    ensures requestMethod != "OPTIONS" && profiles.Ok? ==> r.body.entries == EnrichAll(profiles.value, users, unreachable)
  {
    if requestMethod == "OPTIONS" then Response(200, Plain("ok"))
    else match profiles
      case Err(msg) => Response(400, Error(msg))
      case Ok(ps) => Response(200, Profiles(EnrichAll(ps, users, unreachable)))
  }

  /**
   * When the account cannot be read, the entry gets the placeholder email and the profile's
   * name when it has a first name, else "Unknown User".
   */
  lemma FailedLookupEntry(p: ProfileRow, message: string)
    ensures var e := Enrich(p, Err(message));
      && e.profile == p && e.email == Some(UnknownEmail)
      && (Truthy(p.first_name) ==> e.display_name == JoinNames(p.first_name, p.last_name))
      && (!Truthy(p.first_name) ==> e.display_name == UnknownUser)
  {
  }

  /**
   * With the account read, the display name is the first truthy of the metadata's `name`,
   * `full_name` and `display_name`, then the profile's name when it has a first name, then "User".
   */
  lemma DisplayNamePriority(p: ProfileRow, u: AuthUser)
    ensures var e := Enrich(p, Ok(u));
      && e.profile == p && e.email == u.email
      && (u.meta.Some? && Truthy(u.meta.value.name) ==> e.display_name == u.meta.value.name.value)
      && (u.meta.Some? && !Truthy(u.meta.value.name) && Truthy(u.meta.value.full_name) ==>
            e.display_name == u.meta.value.full_name.value)
      && ((u.meta.Some? && !Truthy(u.meta.value.name) && !Truthy(u.meta.value.full_name) &&
           Truthy(u.meta.value.display_name)) ==> e.display_name == u.meta.value.display_name.value)
      && (MetaName(u.meta) == "" && Truthy(p.first_name) ==> e.display_name == JoinNames(p.first_name, p.last_name))
      && (MetaName(u.meta) == "" && !Truthy(p.first_name) ==> e.display_name == DefaultUser)
  {
  }

  /** No metadata name is truthy exactly when all three entries are falsy. */
  lemma MetaNameEmptyIff(meta: Option<UserMeta>)
    ensures MetaName(meta) == "" <==>
      meta.None? || (!Truthy(meta.value.name) && !Truthy(meta.value.full_name) && !Truthy(meta.value.display_name))
  {
  }

  /** The last name alone never shapes the entry: without a first name it is ignored. */
  lemma LastNameAloneIgnored(p: ProfileRow, last: Option<string>, lookup: Result<AuthUser>)
    requires !Truthy(p.first_name)
    ensures Enrich(p.(last_name := last), lookup).display_name == Enrich(p, lookup).display_name
  {
  }

  /**
   * The edge function and the interview screen agree on a job seeker whose first name is
   * visible and who has no account name: both show the joined profile name.
   */
  lemma AgreesWithInterviewScreen(p: ProfileRow, message: string)
    requires Truthy(p.first_name) && !IsBlank(p.first_name.value)
    ensures Enrich(p, Err(message)).display_name == InterviewData.FromProfile(p).name
  {
    JoinNamesEmptyIff(p.first_name, p.last_name);
  }

  /**
   * The two fallbacks differ for a profile with only a last name: the interview screen shows the
   * last name, the edge function "Unknown User".
   */
  lemma DiffersFromInterviewScreen()
    ensures var p := ProfileRow("p1", None, Some("Lee"), Some(JobSeeker), true, None, None, None);
      && Enrich(p, Err("no rows")).display_name == UnknownUser
      && InterviewData.FromProfile(p).name == "Lee"
  {
    var joined := OrEmpty(None) + " " + OrEmpty(Some("Lee"));
    assert joined == " Lee" && joined[1..] == "Lee";
    assert TrimStart(joined) == "Lee";
    assert Trim(joined) == "Lee";
  }

  /** A first name of white space only passes the truthiness test and yields an empty name. */
  lemma BlankFirstNameGivesEmptyName(message: string)
    ensures Enrich(ProfileRow("p1", Some(" "), None, None, false, None, None, None), Err(message)).display_name == ""
  {
    JoinNamesEmptyIff(Some(" "), None);
  }
}
