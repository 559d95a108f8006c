# Interview hub: ownership resolution, name rules and form logic

This project models the decision logic of a hiring application. It has staff screens for scheduling interviews, a job-seeker dashboard, a profile page and a scripted interview chat. The application's data sits in hosted Postgres tables: `interviews`, `candidates`, `profiles`, `jobs` and `exam_bank`, plus an `avatars` storage bucket. In the model these are one in-memory object, `DataStore.Store`, whose fields are sequences of rows. Every query is a function over those sequences, and every write is a method that reassigns one field.

Modules follow the application's files:

| module | models |
|---|---|
| `JobSeekerDashboard` | the dashboard hook's four-step ownership chain and its link repairs |
| `CandidateUtils` | the scheduling form's candidate list |
| `InterviewData` | the staff screens' data hook: candidate merge, name repair, projections, role gate |
| `InterviewForm` | the create-interview dialog |
| `InterviewEdit` | the edit-interview dialog |
| `DisplayNames` | the edge function that adds `email` and `display_name` to every profile |
| `ProfileContext` | the profile provider: role predicates, profile fetch, update and avatar upload |
| `ProfilePage` | the profile page's schema and avatar-file checks |
| `AIChat` | the scripted interview chat |

Shared modules:
- `Wrappers`: `Option` and `Result`.
- `Text`: JavaScript's `trim`, ASCII `toLowerCase`, `includes`, `split(...)[0]` and `.pop()`, and truthiness.
- `Seqs`: `filter` and `slice`.
- `Queries`: the stable `order("date")`, `maybeSingle` and `single`.
- `Records`: the row shapes of the generated database types.
- `Names`: the `first + " " + last`, trimmed, rule that every screen repeats.

Modelling decisions:
- A nullable column is an `Option`. A uuid key is `Id`, the non-empty strings, so a falsy key is `None`. Dates are integer timestamps (`Timestamp`).
- Every backend call that can fail takes an explicit outcome:
  - `Faults` flags for queries;
  - `failure: Option<string>` for writes, carrying the error message;
  - `failedWrites` for the dashboard's repair updates, whose results the source never reads.
  A failing lookup inside the dashboard chain reads as "found nothing", as in the source. `maybeSingle` with several matches is an error, so it also reads as nothing.
- `order("date")` is a stable insertion sort on the table order; the backend's order among equal dates is unspecified.
- Toasts are returned values (`Toast`). A parent's `onSuccess` callback is a returned `refreshed` flag, and `onOpenChange(false)` clears an `open` field.
- `Date.now()` in the avatar path is the parameter `now`.
- The backend's key for a new interview is the parameter `newId`. An interview inserted without a `settings` value is stored with `settings` null (`JNull`).
- The profile page reads `uploadAvatar` through an auth hook whose source is not part of this model. The upload's result is therefore a parameter of `ProfilePage.ProfilePageState.HandleFileUpload`, and `ProfileContext.ProfileProvider.UploadAvatar` models the provider's own upload.
- The file-size test keeps the page's own arithmetic, `size / 1024 / 1024 > 5`, as exact division on reals. `ProfilePage.OversizedIff` proves it equals the byte bound `size > 5·1024·1024`. For these divisors the floating-point quotient is exact.

## Model

| member | source | states |
|---|---|---|
| `JobSeekerDashboard.Dashboard.Load` | src/hooks/useJobSeekerDashboard.tsx:51-257 | Without a user, or when the jobs query fails, nothing is written and the lists keep their values. Otherwise the interviews are the chain's rows as fetched, jobs are the first five, applications are empty, and both tables are as the chain's repairs leave them. Loading ends false in every case. |
| `JobSeekerDashboard.LoadInterviews` | src/hooks/useJobSeekerDashboard.tsx:69-90 | The lookups return exactly the chain's rows and leave both tables repaired as the chain prescribes. A direct hit writes nothing. |
| `JobSeekerDashboard.LoadByCandidate` | src/hooks/useJobSeekerDashboard.tsx:92-139 | From step 2 on, the rows and repairs match the chain from step 2. A candidate with no interviews, or an error, falls through. |
| `JobSeekerDashboard.LoadByEmail` | src/hooks/useJobSeekerDashboard.tsx:141-197 | From step 3 on, the rows and repairs match the chain from step 3. |
| `JobSeekerDashboard.LinkEmailCandidate` | src/hooks/useJobSeekerDashboard.tsx:144-166 | Returns the candidate whose email equals the user's, read through `maybeSingle`, and none when the user has no email. Links that candidate when its `user_id` is empty, before any of its interviews are read. |
| `JobSeekerDashboard.LoadByName` | src/hooks/useJobSeekerDashboard.tsx:199-244 | Returns the fallback rows and links exactly the unlinked ones among them. |
| `JobSeekerDashboard.RelinkInterviews` | src/hooks/useJobSeekerDashboard.tsx:124-130 | Issuing one update per returned row that has no `user_id` leaves the table equal to one link update over exactly those ids, minus the writes that fail. |
| `JobSeekerDashboard.DirectLinkShortCircuits` | src/hooks/useJobSeekerDashboard.tsx:70-90 | When some interview is linked to the user and the query succeeds, the result is exactly those rows in ascending date order, and no write happens to either table. |
| `JobSeekerDashboard.FirstSuccessWins` | src/hooks/useJobSeekerDashboard.tsx:84-244 | Each strategy wins if and only if every earlier one found nothing and it found something, and the result is the winner's rows. Without an email, strategies 3 and 4 find nothing and no candidate is linked. |
| `JobSeekerDashboard.RepairsNeverOverwrite` | src/hooks/useJobSeekerDashboard.tsx:124-130 | Every repair changes only `user_id`, never changes a row that already had one, and sets it only to the user's id. This holds for both tables. |
| `JobSeekerDashboard.LinkOnlyFillsGaps` | src/hooks/useJobSeekerDashboard.tsx:181-188 | The interview repair for any returned rows changes only empty `user_id`s, and only to the user. |
| `JobSeekerDashboard.LinkCandidateFillsGap` | src/hooks/useJobSeekerDashboard.tsx:160-166 | Linking the email candidate changes only that candidate's empty `user_id`. |
| `JobSeekerDashboard.EmailCandidateLinkedFirst` | src/hooks/useJobSeekerDashboard.tsx:156-177 | When steps 1 and 2 found nothing, an unlinked candidate with the user's email is linked whether or not it has interviews. |
| `JobSeekerDashboard.NameMatchesIsLocalPartMatch` | src/hooks/useJobSeekerDashboard.tsx:219-222 | The fallback rule: a present name matches if and only if its lower case contains the email's lowercased local part. The whole-email test is subsumed. |
| `JobSeekerDashboard.LeadingAtMatchesEveryName` | src/hooks/useJobSeekerDashboard.tsx:205-222 | An email that starts with `@` matches every interview with a present name. |
| `JobSeekerDashboard.FallbackWindow100` | src/hooks/useJobSeekerDashboard.tsx:208-222 | The window is a prefix of the date order with at most 100 rows, and exactly 100 when the table has that many. The matches are, in window order, exactly the window's matching rows. |
| `JobSeekerDashboard.AllLookupsFailing` | src/hooks/useJobSeekerDashboard.tsx:76-79 | When every lookup errs, the result is no interviews and no candidate link. |
| `JobSeekerDashboard.RepairsHeal` | src/hooks/useJobSeekerDashboard.tsx:123-131 | After a load that linked at least one row, the next load finds the user's interviews through the direct link. |
| `JobSeekerDashboard.EmailBridgeScenario` | src/hooks/useJobSeekerDashboard.tsx:156-194 | A concrete case: an unlinked candidate with the user's email and one interview. The chain takes the email step and links both rows, and the next load uses the direct link. |
| `JobSeekerDashboard.EmailBridgeIgnoresOwner` | src/hooks/useJobSeekerDashboard.tsx:156-188 | The email step returns and links interviews of a candidate already linked to another user, and leaves that candidate as it is. |
| `JobSeekerDashboard.FoundAreRows` | src/hooks/useJobSeekerDashboard.tsx:70-222 | Every returned row is a row of the interviews table. |
| `JobSeekerDashboard.DirectRowsAreLinked` | src/hooks/useJobSeekerDashboard.tsx:70-74 | The direct lookup's rows are all linked to the user, so nothing among them is repaired. |
| `JobSeekerDashboard.Resolve` | src/hooks/useJobSeekerDashboard.tsx:69-244 | The chain as a function of the tables at load start. The result is "no match" exactly when no rows are found, and a direct hit links no candidate. |
| `JobSeekerDashboard.ResolveByCandidate` | src/hooks/useJobSeekerDashboard.tsx:92-244 | The chain from step 2 never yields the direct strategy. It is "no match" exactly when no rows are found, and a hit at step 2 links no candidate. |
| `JobSeekerDashboard.ResolveByEmail` | src/hooks/useJobSeekerDashboard.tsx:141-244 | The chain from step 3 yields only the email, name or no-match outcomes, and is "no match" exactly when no rows are found. Its candidate link is the email step's link whatever follows, because the link is written before the interviews are read. |
| `JobSeekerDashboard.ResolveByName` | src/hooks/useJobSeekerDashboard.tsx:199-244 | The last step yields the name fallback or no match, "no match" exactly when no rows are found, and carries the email step's link unchanged. |
| `JobSeekerDashboard.RecentInterviews` | src/hooks/useJobSeekerDashboard.tsx:208-212 | `order("date").limit(100)`: a prefix of the ascending date order with at most 100 rows, and exactly 100 when the table has that many. |
| `JobSeekerDashboard.NameMatches` | src/hooks/useJobSeekerDashboard.tsx:219-222 | The fallback's test: a present `candidate_name` whose lower case contains the lowercased local part or the lowercased whole email. Its properties are stated by `JobSeekerDashboard.NameMatchesIsLocalPartMatch` and `JobSeekerDashboard.LeadingAtMatchesEveryName`. |
| `CandidateUtils.FormatCandidate` | src/utils/candidateUtils.tsx:4-19 | The fields are copied. The name is never empty. It is the profile name when either name part is truthy, else the stored name, then the email, then "Unknown Candidate". |
| `CandidateUtils.FormatCandidates` | src/utils/candidateUtils.tsx:4-19 | One entry per candidate, in order. |
| `CandidateUtils.ValidCandidates` | src/utils/candidateUtils.tsx:21-25 | A subsequence of the input holding exactly the entries with a real name. |
| `CandidateUtils.SelectableCandidates` | src/pages/hr/InterviewManagement.tsx:32 | The valid entries, or every entry when none is valid. Its properties are stated by `CandidateUtils.SelectableCandidatesShape`. |
| `CandidateUtils.HasRealNameIff` | src/utils/candidateUtils.tsx:22-24 | A real name is one that is not blank and is not the placeholder. |
| `CandidateUtils.ValidCandidatesIdempotent` | src/utils/candidateUtils.tsx:21-25 | Filtering twice equals filtering once. |
| `CandidateUtils.SelectableCandidatesShape` | src/utils/candidateUtils.tsx:21-25 | Falling back to the whole list never offers an empty list when there are candidates. It offers only real names whenever one exists, and every candidate otherwise. |
| `CandidateUtils.ProfileNamedCandidateIsOffered` | src/utils/candidateUtils.tsx:6-12 | A candidate with a visible profile name is listed under that name and is always offered. |
| `Names.JoinNames` | src/utils/candidateUtils.tsx:6-7 | The shared rule: the first and last name, missing parts as "", joined by one space and trimmed. Its properties are stated by the `Names` lemmas below. |
| `Names.NameOrEmail` | src/components/interviews/InterviewFormDialog.tsx:122-125 | `getFullName`: the joined name, or the email when it is empty. Its cases are stated by `Names.NameOrEmailChoice`. |
| `Names.JoinNamesEmptyIff` | src/utils/candidateUtils.tsx:6-7 | The joined name is empty if and only if both parts are blank. |
| `Names.JoinNamesTrimmed` | src/utils/candidateUtils.tsx:6-7 | The joined name has no white space at either end. |
| `Names.JoinCleanNames` | src/components/interviews/InterviewFormDialog.tsx:122-125 | Two already trimmed names are joined by exactly one space. |
| `Names.NameOrEmailChoice` | src/components/interviews/InterviewFormDialog.tsx:122-125 | `getFullName` gives the joined name when a part is visible, and the email otherwise. |
| `InterviewData.MergeCandidates` | src/hooks/useInterviewData.tsx:61-99 | The two push loops build exactly the merged list `Merged`. |
| `InterviewData.MergedShape` | src/hooks/useInterviewData.tsx:61-99 | The merged list is every candidate row followed by the job seekers that no entry links to. Every loaded seeker is linked by some entry, and the length is at most rows plus seekers. |
| `InterviewData.FromCandidateRows` | src/hooks/useInterviewData.tsx:64-79 | One entry per candidate row, in order. |
| `InterviewData.FromCandidateRow` | src/hooks/useInterviewData.tsx:64-79 | `name` and `email` default to "". The first and last names come from the linked seeker profile only when they are truthy. |
| `InterviewData.FromProfile` | src/hooks/useInterviewData.tsx:84-96 | A seeker entry is keyed and linked by the profile id and has an empty email. |
| `InterviewData.FromProfileName` | src/hooks/useInterviewData.tsx:90-91 | A seeker entry's name is the joined profile name, or "Unnamed", and is never blank. |
| `InterviewData.AppendSeekersShape` | src/hooks/useInterviewData.tsx:82-98 | Appending seekers one by one adds exactly the unlinked ones, in profile order. |
| `InterviewData.AppendSeekersCovers` | src/hooks/useInterviewData.tsx:82-98 | The list only grows, and every seeker ends up linked. |
| `InterviewData.RepairNamesInPlace` | src/hooks/useInterviewData.tsx:102-107 | Repairing entry by entry in place gives `RepairNames`. |
| `InterviewData.RepairName` | src/hooks/useInterviewData.tsx:103-105 | Only the name changes, and a non-blank name is kept. A blank name becomes the email's local part when the email is non-empty, and "Unknown Candidate" otherwise. |
| `InterviewData.RepairNameBlankIff` | src/hooks/useInterviewData.tsx:103-105 | A repaired name stays blank if and only if the email's local part is blank. |
| `InterviewData.RepairNameIdempotent` | src/hooks/useInterviewData.tsx:102-107 | Repairing twice equals repairing once. |
| `InterviewData.RepairNameLeadingAt` | src/hooks/useInterviewData.tsx:103-105 | An email that starts with `@` repairs a blank name to "". |
| `InterviewData.ToInterviewer` | src/hooks/useInterviewData.tsx:120-126 | An interviewer has an empty email, and its name is the joined profile name, or "Unnamed Interviewer". |
| `InterviewData.CandidateNameOf` | src/hooks/useInterviewData.tsx:145-147 | The row's truthy `candidate_name`, else the joined candidate's truthy name, else "Unknown"; never empty. |
| `InterviewData.InterviewerNameOf` | src/hooks/useInterviewData.tsx:148-150 | Absent if and only if there is no joined interviewer. Otherwise it is the interviewer's joined name, or "Unnamed Interviewer" when both name parts are blank, so the same name as the interviewer list gives. |
| `InterviewData.OwnerOf` | src/hooks/useInterviewData.tsx:152 | The row's `user_id`, else the candidate's, else none. Both directions are stated. |
| `InterviewData.SettingsOf` | src/hooks/useInterviewData.tsx:153 | `settings` defaults to `{}` and is always truthy. |
| `InterviewData.ToView` | src/hooks/useInterviewData.tsx:138-156 | The projection keeps id, date, position and status, and fills the other fields by the rules above. |
| `InterviewData.JoinedInterviews` | src/hooks/useInterviewData.tsx:29-38 | The joined rows are a permutation of the interviews in descending date order. Each carries the candidate whose id is its `candidate_id` and the profile whose id is its `interviewer_id`, or none when no row has that id. |
| `InterviewData.InterviewScreenData.FetchData` | src/hooks/useInterviewData.tsx:17-168 | A failing jobs or interviews query leaves every list unchanged. A failing exams query has already replaced only the interviewers. Failing candidate or profile queries only drop their part of the merge. Otherwise interviews, candidates and interviewers are set from the tables, jobs keep only their id, title and company, and exams are set without their descriptions. |
| `InterviewData.JobSummaries` | src/hooks/useInterviewData.tsx:22-24 | `jobs.select("id, title, company")`: every job, in table order, with exactly its id, title and company. |
| `InterviewData.ExamSummaries` | src/hooks/useInterviewData.tsx:131-133 | One entry per exam, in order, keeping the four selected columns and without a description. |
| `InterviewData.InterviewScreenData.OnAccessChanged` | src/hooks/useInterviewData.tsx:170-175 | Only administrators and HR trigger a fetch. Any other role changes nothing. |
| `InterviewForm.Validation` | src/components/interviews/InterviewFormDialog.tsx:66-79 | The form passes if and only if the candidate, date and position are all set. Otherwise the first failing check, in source order, gives the message. |
| `InterviewForm.ResetFormIsRejected` | src/components/interviews/InterviewFormDialog.tsx:103-110 | The reset form fails the first check. |
| `InterviewForm.IdOrNull` | src/components/interviews/InterviewFormDialog.tsx:93 | `""` becomes null and any other value is kept. |
| `InterviewForm.IdOrNullRoundTrip` | src/components/interviews/InterviewEditDialog.tsx:173-177 | Showing an optional id in a select and reading it back gives the same id. |
| `InterviewForm.FindIndex` | src/components/interviews/InterviewFormDialog.tsx:82 | `find` gives the first entry with the id, or none when no entry has it. |
| `InterviewForm.NotificationName` | src/components/interviews/InterviewFormDialog.tsx:82-85 | The confirmation's name for the chosen id. Its cases are stated by `InterviewForm.NotificationNameCases` and `InterviewForm.NotificationNameMissing`. |
| `InterviewForm.NotificationNameCases` | src/components/interviews/InterviewFormDialog.tsx:82-85 | A found candidate is named by its joined name, or by its email when it has no name. |
| `InterviewForm.NotificationNameMissing` | src/components/interviews/InterviewFormDialog.tsx:85 | An id not in the list gives "the candidate". |
| `InterviewForm.InsertedRow` | src/components/interviews/InterviewFormDialog.tsx:88-97 | The insert carries exactly the date, candidate, interviewer (`""` as null), position and status. It sets no `candidate_name` and no `user_id`. |
| `InterviewForm.InsertedRowIsUnlinked` | src/components/interviews/InterviewFormDialog.tsx:90-96 | A new interview is invisible to every user's direct-link lookup. |
| `InterviewForm.InterviewFormDialog.HandleCreate` | src/components/interviews/InterviewFormDialog.tsx:62-120 | A validation failure toasts its message and inserts nothing. A backend error toasts its message or the default and keeps the form. On success exactly one row is appended, the form resets, the confirmation names the candidate, and the list is refreshed. `isSubmitting` ends false in every case. |
| `InterviewEdit.PatchOf` | src/components/interviews/InterviewEditDialog.tsx:82-88 | The update carries the five edited fields of the local copy. |
| `InterviewEdit.PatchTouchesOneRow` | src/components/interviews/InterviewEditDialog.tsx:80-89 | Only the row with the id changes, and only in the five fields. Its `candidate_name`, `user_id` and `settings` are kept. |
| `InterviewEdit.PatchIdempotent` | src/components/interviews/InterviewEditDialog.tsx:80-89 | Submitting the same edit twice equals submitting it once. |
| `InterviewEdit.PatchMissingRow` | src/components/interviews/InterviewEditDialog.tsx:89 | An edit of a deleted interview changes nothing. |
| `InterviewEdit.PatchKeepsLinks` | src/components/interviews/InterviewEditDialog.tsx:80-89 | An edit never changes which interviews lack an owner. |
| `InterviewEdit.InterviewEditDialog.SetInterview` | src/components/interviews/InterviewEditDialog.tsx:70-72 | A new prop replaces the local copy. |
| `InterviewEdit.InterviewEditDialog.ChooseInterviewer` | src/components/interviews/InterviewEditDialog.tsx:173-177 | The empty option stores null and any other option stores its id. |
| `InterviewEdit.InterviewEditDialog.ChooseCandidate` | src/components/interviews/InterviewEditDialog.tsx:144-149 | The selection replaces only the candidate id. |
| `InterviewEdit.InterviewEditDialog.SetFields` | src/components/interviews/InterviewEditDialog.tsx:129-224 | The inputs replace only the position, date and status. |
| `InterviewEdit.InterviewEditDialog.HandleUpdate` | src/components/interviews/InterviewEditDialog.tsx:74-103 | With nothing being edited, nothing happens. An error toasts and leaves the dialog open and the table unchanged. Success patches the one row, closes the dialog and refreshes. `isSubmitting` ends false. |
| `DisplayNames.EnrichAll` | supabase/functions/get-users-with-display-names/index.ts:28-63 | One entry per profile, in profile order, each keeping its profile and enriched by its own lookup. |
| `DisplayNames.LookupUser` | supabase/functions/get-users-with-display-names/index.ts:32-36 | A successful lookup returns the account with the profile's id. |
| `DisplayNames.UsersWithId` | supabase/functions/get-users-with-display-names/index.ts:35 | Exactly the accounts with the id. |
| `DisplayNames.Enrich` | supabase/functions/get-users-with-display-names/index.ts:28-63 | Every entry keeps its profile. A failed account lookup gives the placeholder email; a successful one gives the account's email. The display-name cases are stated by `DisplayNames.FailedLookupEntry` and `DisplayNames.DisplayNamePriority`. |
| `DisplayNames.FailedLookupEntry` | supabase/functions/get-users-with-display-names/index.ts:38-46 | A failed lookup gives "unknown@example.com". The name is the joined name when the first name is truthy, else "Unknown User". |
| `DisplayNames.DisplayNamePriority` | supabase/functions/get-users-with-display-names/index.ts:50-60 | The display name is the metadata `name`, else `full_name`, else `display_name`, else the joined name when the first name is truthy, else "User". The account's email is used. |
| `DisplayNames.MetaNameEmptyIff` | supabase/functions/get-users-with-display-names/index.ts:50-52 | No metadata name applies if and only if all three entries are falsy. |
| `DisplayNames.LastNameAloneIgnored` | supabase/functions/get-users-with-display-names/index.ts:43-45 | Without a truthy first name, the last name never changes the display name. |
| `DisplayNames.AgreesWithInterviewScreen` | supabase/functions/get-users-with-display-names/index.ts:43-45 | With a visible first name, the name matches the staff screens' seeker name. |
| `DisplayNames.DiffersFromInterviewScreen` | supabase/functions/get-users-with-display-names/index.ts:43-45 | A profile with only a last name is "Unknown User" here but is named by its last name on the staff screens. |
| `DisplayNames.BlankFirstNameGivesEmptyName` | supabase/functions/get-users-with-display-names/index.ts:43-45 | A first name of one space passes the truthiness test and gives an empty display name. |
| `DisplayNames.Serve` | supabase/functions/get-users-with-display-names/index.ts:8-79 | A preflight request gets 200 "ok". A profiles error gets 400 with its message. Success gets 200 with one entry per profile, and the entries are exactly `DisplayNames.EnrichAll` of the profiles. |
| `ProfileContext.RoleOrSeeker` | src/contexts/ProfileContext.tsx:45 | A missing role becomes `job_seeker`. |
| `ProfileContext.HasPermission` | src/contexts/ProfileContext.tsx:61-64 | True if and only if there is a role and it is listed. |
| `ProfileContext.RolePredicates` | src/contexts/ProfileContext.tsx:57-59 | At most one role predicate holds, and each is a one-role permission. |
| `ProfileContext.HasPermissionMonotone` | src/contexts/ProfileContext.tsx:61-64 | Listing more roles never removes a permission. |
| `ProfileContext.FetchedProfile` | src/contexts/ProfileContext.tsx:31-35 | A fetched profile is the table's row with the user's id. |
| `ProfileContext.FetchFindsExistingProfile` | src/contexts/ProfileContext.tsx:31-35 | With unique keys, a fetch that succeeds finds the user's row whenever it exists. |
| `ProfileContext.AvatarPath` | src/contexts/ProfileContext.tsx:93-94 | `userId + "/" + now + "." + extension`, where the extension follows the file name's last dot. Its shape is stated by `ProfileContext.AvatarPathFolder` and `ProfileContext.AvatarPathExtension`. |
| `ProfileContext.AvatarPathFolder` | src/contexts/ProfileContext.tsx:93-94 | The path's first segment is the user's id. |
| `ProfileContext.AvatarPathExtension` | src/contexts/ProfileContext.tsx:93-94 | The path's extension is the file name's last-dot suffix, or the whole name when it has no dot. |
| `ProfileContext.ProfileProvider.FetchProfile` | src/contexts/ProfileContext.tsx:26-55 | The state takes the fetched profile and its role (defaulted), or is kept on error. Loading ends false. |
| `ProfileContext.ProfileProvider.OnUserChanged` | src/contexts/ProfileContext.tsx:16-24 | No user clears the profile and role. A user fetches. Loading ends false. |
| `ProfileContext.ProfileProvider.UpdateProfile` | src/contexts/ProfileContext.tsx:66-86 | Without a user nothing happens. An error toasts and writes nothing. Success patches the user's row, refetches and toasts. |
| `ProfileContext.ProfileProvider.UploadAvatar` | src/contexts/ProfileContext.tsx:88-125 | A URL is returned if and only if there is a user and a file, the upload succeeds and the URL is non-empty. Without a user or file nothing changes. An upload error or an empty URL toasts and leaves the profiles table and the provider's state as they were. After a successful upload the file is stored at the avatar path and the profile update is attempted. A failed update keeps the state. A successful one patches `avatar_url`, refetches exactly as `updateProfile` does, and leaves loading false. "Avatar updated successfully" is toasted in both cases. |
| `ProfilePage.SchemaErrors` | src/pages/Profile.tsx:18-23 | The values pass if and only if both names are non-empty. Each missing name gives its own message. |
| `ProfilePage.SchemaAcceptsBlankNames` | src/pages/Profile.tsx:19-20 | The schema counts characters: a name of one space passes. |
| `ProfilePage.Defaults` | src/pages/Profile.tsx:32-40 | Each value is the profile's value, or "". |
| `ProfilePage.DefaultsValidIff` | src/pages/Profile.tsx:18-40 | The defaults pass if and only if the profile has a truthy first and last name. |
| `ProfilePage.SubmittedPatch` | src/pages/Profile.tsx:55-59 | A submit sends both names and the optional keys as present. |
| `ProfilePage.OversizedIff` | src/pages/Profile.tsx:66-72 | The megabyte test equals `size > 5·1024·1024`, so exactly 5 MiB passes. |
| `ProfilePage.CheckFiles` | src/pages/Profile.tsx:61-77 | No file gives nothing. Otherwise the first file is checked for size, then for an `image/` type. |
| `ProfilePage.OnlyFirstFileCounts` | src/pages/Profile.tsx:65 | Files after the first never change the outcome. |
| `ProfilePage.SizeCheckedFirst` | src/pages/Profile.tsx:69-77 | An oversized file gets the size error whatever its type. |
| `ProfilePage.ProfilePageState.OnProfileChanged` | src/pages/Profile.tsx:43-53 | A profile resets the form and the avatar URL. No profile changes nothing. |
| `ProfilePage.ProfilePageState.HandleFileUpload` | src/pages/Profile.tsx:61-89 | A rejected file toasts its error and uploads nothing. The avatar URL and form value change only for a truthy uploaded URL. The upload flag ends false. |
| `ProfilePage.ProfilePageState.Submit` | src/pages/Profile.tsx:55-59 | Only valid values are sent, as their patch. |
| `AIChat.InitialPrompt` | src/components/interviews/AIChat.tsx:43-58 | `getInitialPrompt`: "" without an exam, else the template its category selects. Its content is stated by `AIChat.InitialPromptChoice` and `AIChat.InitialPromptMentionsCategory`. |
| `AIChat.Reply` | src/components/interviews/AIChat.tsx:70-103 | The reply decision table. Its rows are stated by `AIChat.TechnicalReplies` and `AIChat.GeneralReplies`, and its case-insensitivity by `AIChat.ReplyIgnoresCase`. |
| `AIChat.InitialPromptChoice` | src/components/interviews/AIChat.tsx:43-58 | No exam gives "". The technical template applies when the category is "Technical" and the general one otherwise, and each names the title after its opening. |
| `AIChat.InitialPromptMentionsCategory` | src/components/interviews/AIChat.tsx:53 | The general template contains the lowercased category. |
| `AIChat.ConcatOccurs` | src/components/interviews/AIChat.tsx:47-57 | Each part of a template literal occurs in the result right after the parts before it. |
| `AIChat.PromptParts` | src/components/interviews/AIChat.tsx:47-57 | A template has seven parts. |
| `AIChat.DomainQuestion` | src/components/interviews/AIChat.tsx:81-89 | The title picks frontend, then backend, then data, then the generic question. |
| `AIChat.TechnicalReplies` | src/components/interviews/AIChat.tsx:74-92 | The technical decision table, row by row. |
| `AIChat.GeneralReplies` | src/components/interviews/AIChat.tsx:93-103 | The decision table for the other categories, row by row. |
| `AIChat.ReplyIgnoresCase` | src/components/interviews/AIChat.tsx:75-98 | The reply depends on the answer only up to ASCII case. |
| `AIChat.FrontendTitleWins` | src/components/interviews/AIChat.tsx:81-89 | A title with "Frontend" anywhere in it gets the frontend question, whatever other domains it names. |
| `AIChat.FirstAnswerIff` | src/components/interviews/AIChat.tsx:75 | In an alternating conversation, at most one message means the candidate has not answered yet. |
| `AIChat.Opening` | src/components/interviews/AIChat.tsx:33 | A fresh conversation is one assistant message. |
| `AIChat.Chat.SelectExam` | src/components/interviews/AIChat.tsx:29-35 | An exam replaces the conversation with its opening prompt. No exam keeps it. |
| `AIChat.Chat.SendMessage` | src/components/interviews/AIChat.tsx:61-109 | It sends if and only if the trimmed input is non-empty and an exam is selected. A send appends exactly the raw user message and the reply chosen with the history length before the send. It clears the input and ends not loading. The conversation stays alternating. |
| `AIChat.Chat.ResetConversation` | src/components/interviews/AIChat.tsx:111-116 | With an exam, the conversation becomes the opening prompt. Without one, nothing changes. |
| `Queries.InsertByDateSorted` | src/hooks/useJobSeekerDashboard.tsx:74 | Inserting into a date-sorted list keeps it sorted. |
| `Queries.OrderByDate` | src/hooks/useInterviewData.tsx:38 | The ordering is a sorted permutation of its input. |
| `Queries.MaybeSingle` | src/hooks/useJobSeekerDashboard.tsx:100 | `maybeSingle` gives no row for none, the row for one, and an error for more. |
| `DataStore.LinkInterviews` | src/hooks/useJobSeekerDashboard.tsx:126-129 | `update({ user_id })` keeps every row in place. A selected row gets the user's id as its `user_id` and nothing else changes; every other row is unchanged. Further properties are stated by `DataStore.LinkInterviewsIdempotent`, `JobSeekerDashboard.LinkOnlyFillsGaps` and `JobSeekerDashboard.RepairsNeverOverwrite`. |
| `DataStore.LinkInterviewsIdempotent` | src/hooks/useJobSeekerDashboard.tsx:124-130 | Repeating a link update changes nothing. |
| `DataStore.LinkCandidates` | src/hooks/useJobSeekerDashboard.tsx:162-165 | `update({ user_id })` keeps every row in place. A selected candidate gets the user's id as its `user_id` and nothing else changes; every other candidate is unchanged. Further properties are stated by `DataStore.LinkCandidatesIdempotent` and `JobSeekerDashboard.LinkCandidateFillsGap`. |
| `DataStore.LinkCandidatesIdempotent` | src/hooks/useJobSeekerDashboard.tsx:160-166 | Repeating a candidate link update changes nothing. |
| `DataStore.PatchProfiles` | src/contexts/ProfileContext.tsx:70-73 | `update(patch).eq("id", id)` on profiles changes only the row with the id. The four patchable columns leave that row's id, role, approval and résumé untouched. |
| `DataStore.Store.InsertInterview` | src/components/interviews/InterviewFormDialog.tsx:88-97 | An insert appends exactly the row and keeps keys unique. |
| `DataStore.Store.UploadAvatar` | src/contexts/ProfileContext.tsx:97-99 | An upsert stores the file at its path and overwrites any object already there. |

## Left out

- The Supabase client, the auth session, toasts, `console` logging, the edge function's CORS headers, environment variables and JSON bodies are network or library I/O. Queries are functions on the in-memory tables, and their outcomes are parameters.
- ProfileContext.ProfileProvider.UpdateProfile: the patch is limited to first_name, last_name, bio and avatar_url, the keys its callers send. `Partial<Profile>` also admits role, approved and resume_url, which the model cannot send.
- The `catch` branches for thrown network exceptions and their generic messages are left out. Only the errors the backend returns are modelled.
- Concurrency is left out: `Promise.all` in the edge function, loads racing on the same repair, the chat's `setTimeout` delay and scrolling, and React effect scheduling. Every flow runs sequentially to its end. In particular, `ProfileContext.ProfileProvider.UpdateProfile` completes its refetch before returning, whereas the source does not await it. Likewise `AIChat.Chat.SendMessage` runs its delayed reply at once, so the chat's alternation of user and assistant messages is a property of this model only. In the program, pressing "Reset Conversation" during the two-second delay leaves two assistant messages in a row, because the button stays enabled while the reply is pending. Pressing Enter during the delay ignores `isAILoading` and sends a second answer, which gives `…, user, user, assistant, assistant`.
- Date strings and their formatting are left out; they are library behaviour. A date is an integer, and the form's "no date" is `None`.
- `toLowerCase` is ASCII only; Unicode case folding is left out.
- Floating point is replaced by exact division on reals, which agrees with floating point for the divisors 1024 and 1024.
- JSX rendering, styling and the presentational components are left out; they have no decision logic.
- The auth hook that the profile page calls for `updateProfile` and `uploadAvatar` is not part of this model. The page's upload result is a parameter, and `ProfilePage.ProfilePageState.Submit` returns the patch instead of sending it.
- Selecting `jobs` with `limit(5)` is modelled as the first five rows in table order, since the backend guarantees no order there.
- JobSeekerDashboard.Dashboard.Load: keeps the rows as they were fetched, so a repaired row is shown with its old empty `user_id`, as the source does.
- Queries.OrderByDate: ties between equal dates keep table order, a choice the backend does not promise.
- AIChat.PromptParts: states only the number of parts; the content of the templates is stated by `AIChat.InitialPromptChoice` and `AIChat.InitialPromptMentionsCategory`.
