/**
 * The data behind the staff interview screen: jobs, interviews with their candidate and
 * interviewer joined in, a merged candidate list (the `candidates` table plus job-seeker
 * profiles that have no candidate row), the approved staff who can interview, and the exams.
 * Only administrators and HR load it.
 */
module InterviewData {
  import opened Wrappers
  import opened Text
  import opened Seqs
  import opened Records
  import opened Queries
  import opened Names
  import opened DataStore

  /** A member of staff who can be assigned to an interview. */
  datatype Interviewer = Interviewer(id: Id, first_name: string, last_name: string, email: string, name: string)

  /** Which queries of one fetch report an error. */
  datatype Faults = Faults(jobs: bool, interviews: bool, candidates: bool, seekers: bool, interviewers: bool, exams: bool)

  /** What an interview shows when neither it nor its candidate has a name. */
  const UnknownName := "Unknown"

  /** An interviews row with the rows its two foreign keys point at. */
  datatype JoinedInterview = JoinedInterview(row: InterviewRow, candidate: Option<CandidateRow>, interviewer: Option<ProfileRow>)

  // ---------------------------------------------------------------------------
  // The queries

  /** The candidate a foreign key points at. */
  function CandidateById(rows: seq<CandidateRow>, id: Option<string>): (r: Option<CandidateRow>)
    ensures r.Some? ==> r.value in rows && id == Some(r.value.id)
    ensures r.None? ==> forall c :: c in rows ==> id != Some(c.id)
  {
    if rows == [] then None
    else if id == Some(rows[0].id) then Some(rows[0])
    else CandidateById(rows[1..], id)
  }

  /** The profile a key points at: the first with that id (`find(p => p.id === id)`). */
  function ProfileById(rows: seq<ProfileRow>, id: Option<string>): (r: Option<ProfileRow>)
    ensures r.Some? ==> r.value in rows && id == Some(r.value.id)
    ensures r.None? ==> forall p :: p in rows ==> id != Some(p.id)
  {
    if rows == [] then None
    else if id == Some(rows[0].id) then Some(rows[0])
    else ProfileById(rows[1..], id)
  }

  /** `interviews.select("*, candidates:candidate_id(...), profiles:interviewer_id(...)").order("date", desc)`. */
  function JoinedInterviews(interviews: seq<InterviewRow>, candidates: seq<CandidateRow>, profiles: seq<ProfileRow>): (r: seq<JoinedInterview>)
    ensures |r| == |interviews|
    ensures SortedByDate(seq(|r|, k requires 0 <= k < |r| => r[k].row), false)
    ensures multiset(seq(|r|, k requires 0 <= k < |r| => r[k].row)) == multiset(interviews)
    ensures forall k :: 0 <= k < |r| ==>
      r[k].candidate == CandidateById(candidates, r[k].row.candidate_id)
      && r[k].interviewer == ProfileById(profiles, r[k].row.interviewer_id)
  {
    var rows := OrderByDate(interviews, false);
    var r := seq(|rows|, k requires 0 <= k < |rows| =>
      JoinedInterview(rows[k], CandidateById(candidates, rows[k].candidate_id), ProfileById(profiles, rows[k].interviewer_id)));
    assert seq(|r|, k requires 0 <= k < |r| => r[k].row) == rows;
    r
  }

  predicate IsSeeker(p: ProfileRow) { p.role == Some(JobSeeker) }

  /** `profiles.eq("role", "job_seeker")`. */
  function SeekerProfiles(profiles: seq<ProfileRow>): seq<ProfileRow> {
    Filter(profiles, IsSeeker)
  }

  predicate IsApprovedStaff(p: ProfileRow) { (p.role == Some(HR) || p.role == Some(Admin)) && p.approved }

  /** `profiles.or("role.eq.hr,role.eq.admin").eq("approved", true)`. */
  function StaffProfiles(profiles: seq<ProfileRow>): seq<ProfileRow> {
    Filter(profiles, IsApprovedStaff)
  }

  // ---------------------------------------------------------------------------
  // The merged candidate list

  /** `x || null` for a nullable string. */
  function TruthyOrNull(o: Option<string>): (r: Option<string>)
    ensures r.Some? <==> Truthy(o)
    ensures r.Some? ==> r == o
  {
    if Truthy(o) then o else None
  }

  /** The job-seeker profile a candidate row is linked to, when the profiles were loaded. */
  function LinkedSeeker(c: CandidateRow, seekers: Option<seq<ProfileRow>>): (r: Option<ProfileRow>)
    ensures r.Some? ==> c.user_id.Some? && seekers.Some? && r.value in seekers.value && r.value.id == c.user_id.value
    ensures r.None? && c.user_id.Some? && seekers.Some? ==> forall p :: p in seekers.value ==> p.id != c.user_id.value
  {
    if c.user_id.Some? && seekers.Some? then ProfileById(seekers.value, c.user_id) else None
  }

  /** A `candidates` row, with the names of its linked profile when they are non-empty. */
  function FromCandidateRow(c: CandidateRow, seekers: Option<seq<ProfileRow>>): (r: Candidate)
    ensures r.id == c.id && r.user_id == c.user_id
    ensures r.name == OrEmpty(c.name) && r.email == OrEmpty(c.email)
    ensures var p := LinkedSeeker(c, seekers);
      && (r.first_name.Some? <==> p.Some? && Truthy(p.value.first_name))
      && (r.last_name.Some? <==> p.Some? && Truthy(p.value.last_name))
      && (r.first_name.Some? ==> r.first_name == p.value.first_name)
      && (r.last_name.Some? ==> r.last_name == p.value.last_name)
  {
    var p := LinkedSeeker(c, seekers);
    Candidate(c.id, OrEmpty(c.name), OrEmpty(c.email), c.user_id,
              if p.Some? then TruthyOrNull(p.value.first_name) else None,
              if p.Some? then TruthyOrNull(p.value.last_name) else None)
  }

  /** A job seeker without a candidate row, keyed by the profile id. */
  function FromProfile(p: ProfileRow): (r: Candidate)
    ensures r.id == p.id && r.user_id == Some(p.id) && r.email == ""
    ensures r.first_name == Some(OrEmpty(p.first_name)) && r.last_name == Some(OrEmpty(p.last_name))
  {
    Candidate(p.id, Or(JoinNames(p.first_name, p.last_name), Unnamed), "", Some(p.id),
              Some(OrEmpty(p.first_name)), Some(OrEmpty(p.last_name)))
  }

  /** A seeker added from its profile always has a non-blank name: its own, or the placeholder. */
  lemma FromProfileName(p: ProfileRow)
    ensures var r := FromProfile(p);
      && !IsBlank(r.name)
      && (!NoName(p.first_name, p.last_name) ==> r.name == JoinNames(p.first_name, p.last_name))
      && (NoName(p.first_name, p.last_name) ==> r.name == Unnamed)
  {
    var j := JoinNames(p.first_name, p.last_name);
    JoinNamesEmptyIff(p.first_name, p.last_name);
    if j != "" {
      JoinNamesNotBlank(p.first_name, p.last_name);
    } else {
      assert !IsSpace(Unnamed[0]);
    }
  }

  /** `all.find(c => c.user_id === id)` finds an entry. */
  predicate LinkedIn(all: seq<Candidate>, id: Id) {
    exists c :: c in all && c.user_id == Some(id)
  }

  /** The entries of the candidates table, in table order. */
  function FromCandidateRows(rows: seq<CandidateRow>, seekers: Option<seq<ProfileRow>>): (r: seq<Candidate>)
    ensures |r| == |rows|
    ensures forall k :: 0 <= k < |rows| ==> r[k] == FromCandidateRow(rows[k], seekers)
  {
    seq(|rows|, k requires 0 <= k < |rows| => FromCandidateRow(rows[k], seekers))
  }

  /** Appends, in profile order, every seeker no entry so far is linked to. */
  function AppendSeekers(all: seq<Candidate>, ps: seq<ProfileRow>): seq<Candidate>
    decreases |ps|
  {
    if ps == [] then all
    else if LinkedIn(all, ps[0].id) then AppendSeekers(all, ps[1..])
    else AppendSeekers(all + [FromProfile(ps[0])], ps[1..])
  }

  /** The merged list; a query that failed contributes nothing. */
  function Merged(rows: Option<seq<CandidateRow>>, seekers: Option<seq<ProfileRow>>): seq<Candidate> {
    var base := if rows.Some? then FromCandidateRows(rows.value, seekers) else [];
    if seekers.Some? then AppendSeekers(base, seekers.value) else base
  }

  /** The seekers of `ps` no entry of `all` is linked to. */
  function UnlinkedSeekers(all: seq<Candidate>, ps: seq<ProfileRow>): seq<ProfileRow> {
    Filter(ps, (p: ProfileRow) => !LinkedIn(all, p.id))
  }

  function FromProfiles(ps: seq<ProfileRow>): (r: seq<Candidate>)
    ensures |r| == |ps|
    ensures forall k :: 0 <= k < |ps| ==> r[k] == FromProfile(ps[k])
  {
    seq(|ps|, k requires 0 <= k < |ps| => FromProfile(ps[k]))
  }

  lemma FromProfilesCons(p: ProfileRow, rest: seq<ProfileRow>)
    ensures FromProfiles([p] + rest) == [FromProfile(p)] + FromProfiles(rest)
  {
    var l := FromProfiles([p] + rest);
    var r := [FromProfile(p)] + FromProfiles(rest);
    forall k | 0 <= k < |l| ensures l[k] == r[k] {
      if k > 0 {
        assert ([p] + rest)[k] == rest[k - 1];
      }
    }
  }

  /** Appending an entry links exactly the ids it links, in addition. */
  lemma LinkedInAppend(all: seq<Candidate>, c: Candidate, id: Id)
    ensures LinkedIn(all + [c], id) <==> LinkedIn(all, id) || c.user_id == Some(id)
  {
    if LinkedIn(all, id) {
      var d :| d in all && d.user_id == Some(id);
      assert d in all + [c];
    }
    if c.user_id == Some(id) {
      assert c in all + [c];
    }
  }

  /** The unlinked seekers of a profile list, one profile at a time. */
  lemma UnlinkedSeekersCons(all: seq<Candidate>, p: ProfileRow, tail: seq<ProfileRow>)
    ensures UnlinkedSeekers(all, [p] + tail)
      == (if LinkedIn(all, p.id) then [] else [p]) + UnlinkedSeekers(all, tail)
  {
    assert ([p] + tail)[1..] == tail;
  }

  /** A new entry linked to none of `tail` leaves the unlinked seekers among `tail` as they were. */
  lemma UnlinkedSeekersExtend(all: seq<Candidate>, c: Candidate, tail: seq<ProfileRow>)
    requires forall k :: 0 <= k < |tail| ==> c.user_id != Some(tail[k].id)
    ensures UnlinkedSeekers(all + [c], tail) == UnlinkedSeekers(all, tail)
  {
    forall k | 0 <= k < |tail| ensures LinkedIn(all + [c], tail[k].id) == LinkedIn(all, tail[k].id) {
      LinkedInAppend(all, c, tail[k].id);
    }
    FilterSame(tail, (q: ProfileRow) => !LinkedIn(all + [c], q.id), (q: ProfileRow) => !LinkedIn(all, q.id));
  }

  /**
   * With unique profile ids, merging keeps every entry so far and adds exactly the unlinked
   * seekers, once each and in profile order.
   */
  lemma {:induction false} AppendSeekersShape(all: seq<Candidate>, ps: seq<ProfileRow>)
    requires UniqueProfileIds(ps)
    ensures AppendSeekers(all, ps) == all + FromProfiles(UnlinkedSeekers(all, ps))
    decreases |ps|
  {
    if ps == [] {
      assert FromProfiles([]) == [];
    } else {
      var p, tail := ps[0], ps[1..];
      UniqueTail(ps);
      UnlinkedSeekersCons(all, p, tail);
      if LinkedIn(all, p.id) {
        AppendSeekersShape(all, tail);
      } else {
        UnlinkedSeekersExtend(all, FromProfile(p), tail);
        AppendSeekersShape(all + [FromProfile(p)], tail);
        FromProfilesCons(p, UnlinkedSeekers(all, tail));
      }
    }
  }

  /** The tail of a list of profiles with unique ids has unique ids, none of them the head's. */
  lemma UniqueTail(ps: seq<ProfileRow>)
    requires ps != [] && UniqueProfileIds(ps)
    ensures ps == [ps[0]] + ps[1..]
    ensures UniqueProfileIds(ps[1..])
    ensures forall k :: 0 <= k < |ps[1..]| ==> Some(ps[0].id) != Some(ps[1..][k].id)
  {
    var tail := ps[1..];
    forall i, j | 0 <= i < j < |tail| ensures tail[i].id != tail[j].id {
      assert tail[i] == ps[i + 1] && tail[j] == ps[j + 1];
    }
    forall k | 0 <= k < |tail| ensures ps[0].id != tail[k].id {
      assert tail[k] == ps[k + 1];
    }
  }

  /** Every loaded job seeker ends up linked to some entry of the merged list. */
  lemma {:induction false} AppendSeekersCovers(all: seq<Candidate>, ps: seq<ProfileRow>)
    ensures all <= AppendSeekers(all, ps)
    ensures forall p :: p in ps ==> LinkedIn(AppendSeekers(all, ps), p.id)
    decreases |ps|
  {
    if ps != [] {
      var p := ps[0];
      var m := AppendSeekers(all, ps);
      if LinkedIn(all, p.id) {
        AppendSeekersCovers(all, ps[1..]);
        assert m == AppendSeekers(all, ps[1..]);
        var c :| c in all && c.user_id == Some(p.id);
        var i :| 0 <= i < |all| && all[i] == c;
        assert m[i] == c;
      } else {
        var c := FromProfile(p);
        AppendSeekersCovers(all + [c], ps[1..]);
        assert m == AppendSeekers(all + [c], ps[1..]);
        assert m[|all|] == c;
      }
      assert LinkedIn(m, p.id);
      assert forall q :: q in ps ==> q == p || q in ps[1..];
    }
  }

  /**
   * The merged list is the candidates table, then the seekers it does not link to; every seeker
   * is represented, and none of them twice.
   */
  lemma MergedShape(rows: seq<CandidateRow>, seekers: seq<ProfileRow>)
    requires UniqueProfileIds(seekers)
    ensures var m := Merged(Some(rows), Some(seekers));
      var base := FromCandidateRows(rows, Some(seekers));
      && m == base + FromProfiles(UnlinkedSeekers(base, seekers))
      && |m| <= |rows| + |seekers|
      && forall p :: p in seekers ==> LinkedIn(m, p.id)
  {
    var base := FromCandidateRows(rows, Some(seekers));
    AppendSeekersShape(base, seekers);
    AppendSeekersCovers(base, seekers);
  }

  // ---------------------------------------------------------------------------
  // Name repair

  /** An entry whose name is blank is named after its email's local part, else a placeholder. */
  function RepairName(c: Candidate): (r: Candidate)
    ensures r == c.(name := r.name)
    ensures !IsBlank(c.name) ==> r == c
    ensures IsBlank(c.name) ==> r.name == (if c.email != "" then Before(c.email, '@') else UnknownCandidate)
  {
    TrimEmptyIff(c.name);
    if c.name == "" || Trim(c.name) == "" then c.(name := if c.email != "" then Before(c.email, '@') else UnknownCandidate)
    else c
  }

  /** The repair leaves a blank name only when the email's local part is itself blank. */
  lemma RepairNameBlankIff(c: Candidate)
    ensures IsBlank(RepairName(c).name) <==> IsBlank(c.name) && c.email != "" && IsBlank(Before(c.email, '@'))
  {
    TrimEmptyIff(c.name);
    assert !IsBlank(UnknownCandidate) by { assert !IsSpace(UnknownCandidate[0]); }
  }

  /** Repairing twice is repairing once. */
  lemma RepairNameIdempotent(c: Candidate)
    ensures RepairName(RepairName(c)) == RepairName(c)
  {
    RepairNameBlankIff(c);
    TrimEmptyIff(c.name);
  }

  /** An email that starts with `@` gives a candidate without a name an empty name. */
  lemma RepairNameLeadingAt(c: Candidate)
    requires IsBlank(c.name) && c.email != "" && c.email[0] == '@'
    ensures RepairName(c).name == ""
  {
    TrimEmptyIff(c.name);
  }

  function RepairNames(cs: seq<Candidate>): (r: seq<Candidate>)
    ensures |r| == |cs|
    ensures forall k :: 0 <= k < |cs| ==> r[k] == RepairName(cs[k])
  {
    seq(|cs|, k requires 0 <= k < |cs| => RepairName(cs[k]))
  }

  // ---------------------------------------------------------------------------
  // Interviewers and interviews

  /** A staff profile as an interviewer; profiles carry no email. */
  function ToInterviewer(p: ProfileRow): (r: Interviewer)
    ensures r.id == p.id && r.email == ""
    ensures r.first_name == OrEmpty(p.first_name) && r.last_name == OrEmpty(p.last_name)
    ensures r.name != ""
    ensures !NoName(p.first_name, p.last_name) ==> r.name == JoinNames(p.first_name, p.last_name)
    ensures NoName(p.first_name, p.last_name) ==> r.name == UnnamedInterviewer
  {
    JoinNamesEmptyIff(p.first_name, p.last_name);
    Interviewer(p.id, OrEmpty(p.first_name), OrEmpty(p.last_name), "", Or(JoinNames(p.first_name, p.last_name), UnnamedInterviewer))
  }

  function ToInterviewers(ps: seq<ProfileRow>): (r: seq<Interviewer>)
    ensures |r| == |ps|
    ensures forall k :: 0 <= k < |ps| ==> r[k] == ToInterviewer(ps[k])
  {
    seq(|ps|, k requires 0 <= k < |ps| => ToInterviewer(ps[k]))
  }

  /** The interview's own candidate name, else the joined candidate's, else a placeholder. */
  function CandidateNameOf(j: JoinedInterview): (r: string)
    ensures r != ""
    ensures Truthy(j.row.candidate_name) ==> r == j.row.candidate_name.value
    ensures !Truthy(j.row.candidate_name) && j.candidate.Some? && Truthy(j.candidate.value.name) ==> r == j.candidate.value.name.value
    ensures !Truthy(j.row.candidate_name) && (j.candidate.None? || !Truthy(j.candidate.value.name)) ==> r == UnknownName
  {
    OptOr(j.row.candidate_name, if j.candidate.Some? then OptOr(j.candidate.value.name, UnknownName) else UnknownName)
  }

  /** The joined interviewer's display name; absent when there is no interviewer. */
  function InterviewerNameOf(j: JoinedInterview): (r: Option<string>)
    ensures r.Some? <==> j.interviewer.Some?
    ensures r.Some? ==> r.value != ""
    ensures j.interviewer.Some? ==> r == Some(ToInterviewer(j.interviewer.value).name)
    ensures j.interviewer.Some? && !NoName(j.interviewer.value.first_name, j.interviewer.value.last_name) ==>
      r == Some(JoinNames(j.interviewer.value.first_name, j.interviewer.value.last_name))
    ensures j.interviewer.Some? && NoName(j.interviewer.value.first_name, j.interviewer.value.last_name) ==>
      r == Some(UnnamedInterviewer)
  {
    if j.interviewer.Some?
    then
      JoinNamesEmptyIff(j.interviewer.value.first_name, j.interviewer.value.last_name);
      Some(Or(JoinNames(j.interviewer.value.first_name, j.interviewer.value.last_name), UnnamedInterviewer))
    else None
  }

  /** The interview's owner, else the joined candidate's. */
  function OwnerOf(j: JoinedInterview): (r: Option<Id>)
    ensures j.row.user_id.Some? ==> r == j.row.user_id
    ensures j.row.user_id.None? && j.candidate.Some? ==> r == j.candidate.value.user_id
    ensures r.None? <==> j.row.user_id.None? && (j.candidate.None? || j.candidate.value.user_id.None?)
  {
    if j.row.user_id.Some? then j.row.user_id else if j.candidate.Some? then j.candidate.value.user_id else None
  }

  /** `settings || {}`. */
  function SettingsOf(j: JoinedInterview): (r: Json)
    ensures JsonTruthy(r)
    ensures JsonTruthy(j.row.settings) ==> r == j.row.settings
  {
    if JsonTruthy(j.row.settings) then j.row.settings else JObject([])
  }

  /** An interview as the staff screens show it. */
  function ToView(j: JoinedInterview): (r: InterviewView)
    ensures r.id == j.row.id && r.date == j.row.date && r.position == j.row.position && r.status == j.row.status
    ensures r.candidate_id == "" <==> j.candidate.None?
    ensures j.candidate.Some? ==> r.candidate_id == j.candidate.value.id
    ensures r.interviewer_id.Some? <==> j.interviewer.Some?
    ensures j.interviewer.Some? ==> r.interviewer_id == Some(j.interviewer.value.id)
    ensures r.candidate_name == CandidateNameOf(j) && r.interviewer_name == InterviewerNameOf(j)
    ensures r.user_id == OwnerOf(j) && r.settings == SettingsOf(j)
  {
    InterviewView(
      j.row.id,
      j.row.date,
      if j.candidate.Some? then j.candidate.value.id else "",
      CandidateNameOf(j),
      if j.interviewer.Some? then Some(j.interviewer.value.id) else None,
      InterviewerNameOf(j),
      j.row.position,
      j.row.status,
      OwnerOf(j),
      SettingsOf(j))
  }

  function ToViews(js: seq<JoinedInterview>): (r: seq<InterviewView>)
    ensures |r| == |js|
    ensures forall k :: 0 <= k < |js| ==> r[k] == ToView(js[k])
  {
    seq(|js|, k requires 0 <= k < |js| => ToView(js[k]))
  }

  /** A job as the staff screen selects it: `jobs.select("id, title, company")`. */
  datatype JobSummary = JobSummary(id: Id, title: string, company: string)

  /** Every job, in table order, with only the three selected columns. */
  function JobSummaries(jobs: seq<Job>): (r: seq<JobSummary>)
    ensures |r| == |jobs|
    ensures forall k :: 0 <= k < |jobs| ==>
      r[k].id == jobs[k].id && r[k].title == jobs[k].title && r[k].company == jobs[k].company
  {
    seq(|jobs|, k requires 0 <= k < |jobs| => JobSummary(jobs[k].id, jobs[k].title, jobs[k].company))
  }

  /** `exam_bank.select("id, title, difficulty, category")`: every exam, without its description. */
  function ExamSummaries(exams: seq<Exam>): (r: seq<Exam>)
    ensures |r| == |exams|
    ensures forall k :: 0 <= k < |exams| ==>
      r[k].description.None? && r[k] == exams[k].(description := r[k].description)
  {
    seq(|exams|, k requires 0 <= k < |exams| => exams[k].(description := None))
  }

  // ---------------------------------------------------------------------------
  // The hook's state

  /** The merge as the hook runs it: one push per candidate row, then one per missing seeker. */
  method MergeCandidates(rows: Option<seq<CandidateRow>>, seekers: Option<seq<ProfileRow>>) returns (all: seq<Candidate>)
    ensures all == Merged(rows, seekers)
  {
    all := [];
    if rows.Some? {
      var rs := rows.value;
      for i := 0 to |rs|
        invariant all == FromCandidateRows(rs[..i], seekers)
      {
        all := all + [FromCandidateRow(rs[i], seekers)];
        assert all == FromCandidateRows(rs[..i + 1], seekers);
      }
      assert rs[..|rs|] == rs;
    }
    if seekers.Some? {
      var ps := seekers.value;
      ghost var base := all;
      for i := 0 to |ps|
        invariant AppendSeekers(all, ps[i..]) == AppendSeekers(base, ps)
      {
        assert ps[i..] == [ps[i]] + ps[i + 1..];
        ghost var before := all;
        if !LinkedIn(all, ps[i].id) {
          all := all + [FromProfile(ps[i])];
        }
        assert AppendSeekers(before, ps[i..]) == AppendSeekers(all, ps[i + 1..]);
      }
    }
  }

  /** The name repair, entry by entry in place. */
  method RepairNamesInPlace(cs: seq<Candidate>) returns (all: seq<Candidate>)
    ensures all == RepairNames(cs)
  {
    all := cs;
    for i := 0 to |all|
      invariant |all| == |cs|
      invariant forall k :: 0 <= k < i ==> all[k] == RepairName(cs[k])
      invariant forall k :: i <= k < |all| ==> all[k] == cs[k]
    {
      var c := all[i];
      if c.name == "" || Trim(c.name) == "" {
        c := c.(name := if c.email != "" then Before(c.email, '@') else UnknownCandidate);
      }
      all := all[i := c];
    }
  }

  class InterviewScreenData {
    var interviews: seq<InterviewView>
    var jobs: seq<JobSummary>
    var candidates: seq<Candidate>
    var interviewers: seq<Interviewer>
    var exams: seq<Exam>
    var isLoading: bool

    constructor ()
      ensures interviews == [] && jobs == [] && candidates == [] && interviewers == [] && exams == [] && isLoading
    {
      interviews, jobs, candidates, interviewers, exams, isLoading := [], [], [], [], [], true;
    }

    /**
     * One fetch. A failing jobs, interviews or exams query aborts it; the candidate and profile
     * queries only log their errors; the interviewers are replaced before the exams are read.
     */
    method FetchData(store: Store, f: Faults)
      modifies this
      ensures !isLoading
      ensures f.jobs || f.interviews ==>
        interviews == old(interviews) && jobs == old(jobs) && candidates == old(candidates)
        && interviewers == old(interviewers) && exams == old(exams)
      ensures !f.jobs && !f.interviews ==>
        interviewers == (if f.interviewers then [] else ToInterviewers(StaffProfiles(store.profiles)))
      ensures !f.jobs && !f.interviews && f.exams ==>
        interviews == old(interviews) && jobs == old(jobs) && candidates == old(candidates) && exams == old(exams)
      ensures !f.jobs && !f.interviews && !f.exams ==>
        && jobs == JobSummaries(store.jobs)
        && interviews == ToViews(JoinedInterviews(store.interviews, store.candidates, store.profiles))
        && candidates == RepairNames(Merged(if f.candidates then None else Some(store.candidates),
                                            if f.seekers then None else Some(SeekerProfiles(store.profiles))))
        && exams == ExamSummaries(store.exams)
    {
      isLoading := true;
      if f.jobs || f.interviews {
        isLoading := false;
        return;
      }
      var jobsData := JobSummaries(store.jobs);
      var joined := JoinedInterviews(store.interviews, store.candidates, store.profiles);
      var candidateRows := if f.candidates then None else Some(store.candidates);
      var seekers := if f.seekers then None else Some(SeekerProfiles(store.profiles));
      var all := MergeCandidates(candidateRows, seekers);
      var validated := RepairNamesInPlace(all);
      if f.interviewers {
        interviewers := [];
      } else {
        interviewers := ToInterviewers(StaffProfiles(store.profiles));
      }
      if f.exams {
        isLoading := false;
        return;
      }
      var formatted := ToViews(joined);
      jobs, interviews, candidates, exams := jobsData, formatted, validated, ExamSummaries(store.exams);
      isLoading := false;
    }

    /** The effect: only administrators and HR fetch; anyone else leaves the state as it is. */
    method OnAccessChanged(role: Option<Role>, store: Store, f: Faults)
      modifies this
      ensures role != Some(Admin) && role != Some(HR) ==>
        interviews == old(interviews) && jobs == old(jobs) && candidates == old(candidates)
        && interviewers == old(interviewers) && exams == old(exams) && isLoading == old(isLoading)
      ensures role == Some(Admin) || role == Some(HR) ==> !isLoading
    {
      if role == Some(Admin) || role == Some(HR) {
        FetchData(store, f);
      }
    }
  }
}
