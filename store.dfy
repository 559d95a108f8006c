/**
 * The backend tables as one in-memory object, and the row updates the application issues
 * against them (`update(...).eq("id", id)`, `insert`, storage `upload` with upsert).
 */
module DataStore {
  import opened Wrappers
  import opened Records

  /** `update({ user_id: uid })` on every interview whose id is in `ids`. */
  function LinkInterviews(rows: seq<InterviewRow>, ids: set<Id>, uid: Id): (r: seq<InterviewRow>)
    ensures |r| == |rows|
    ensures forall k :: 0 <= k < |rows| && rows[k].id !in ids ==> r[k] == rows[k]
    ensures forall k :: 0 <= k < |rows| && rows[k].id in ids ==>
      r[k].user_id == Some(uid) && r[k] == rows[k].(user_id := r[k].user_id)
  {
    seq(|rows|, k requires 0 <= k < |rows| =>
      if rows[k].id in ids then rows[k].(user_id := Some(uid)) else rows[k])
  }

  /** `update({ user_id: uid })` on every candidate whose id is in `ids`. */
  function LinkCandidates(rows: seq<CandidateRow>, ids: set<Id>, uid: Id): (r: seq<CandidateRow>)
    ensures |r| == |rows|
    ensures forall k :: 0 <= k < |rows| && rows[k].id !in ids ==> r[k] == rows[k]
    ensures forall k :: 0 <= k < |rows| && rows[k].id in ids ==>
      r[k].user_id == Some(uid) && r[k] == rows[k].(user_id := r[k].user_id)
  {
    seq(|rows|, k requires 0 <= k < |rows| =>
      if rows[k].id in ids then rows[k].(user_id := Some(uid)) else rows[k])
  }

  /** Issuing the updates one id after another is the same as issuing them for all ids. */
  lemma LinkInterviewsStep(rows: seq<InterviewRow>, ids: set<Id>, id: Id, uid: Id)
    ensures LinkInterviews(LinkInterviews(rows, ids, uid), {id}, uid) == LinkInterviews(rows, ids + {id}, uid)
  {
  }

  /** An update that matches no id leaves the table as it was. */
  lemma LinkInterviewsNothing(rows: seq<InterviewRow>, uid: Id)
    ensures LinkInterviews(rows, {}, uid) == rows
  {
  }

  /** Repeating a link update changes nothing: the repair is idempotent. */
  lemma LinkInterviewsIdempotent(rows: seq<InterviewRow>, ids: set<Id>, uid: Id)
    ensures LinkInterviews(LinkInterviews(rows, ids, uid), ids, uid) == LinkInterviews(rows, ids, uid)
  {
  }

  lemma LinkCandidatesIdempotent(rows: seq<CandidateRow>, ids: set<Id>, uid: Id)
    ensures LinkCandidates(LinkCandidates(rows, ids, uid), ids, uid) == LinkCandidates(rows, ids, uid)
  {
  }

  /** The fields the interview edit dialog writes. */
  datatype InterviewPatch = InterviewPatch(
    date: Timestamp,
    candidate_id: string,
    interviewer_id: Option<string>,
    position: string,
    status: string)

  /** `update(patch).eq("id", id)` on `interviews`. */
  function PatchInterviews(rows: seq<InterviewRow>, id: Id, p: InterviewPatch): seq<InterviewRow> {
    seq(|rows|, k requires 0 <= k < |rows| =>
      if rows[k].id == id
      then rows[k].(date := p.date, candidate_id := Some(p.candidate_id), interviewer_id := p.interviewer_id,
                    position := p.position, status := p.status)
      else rows[k])
  }

  /** A partial profile: `None` marks a key that is absent from the update object. */
  datatype ProfilePatch = ProfilePatch(
    first_name: Option<string>,
    last_name: Option<string>,
    bio: Option<string>,
    avatar_url: Option<string>)

  function PatchProfile(p: ProfileRow, u: ProfilePatch): ProfileRow {
    p.(first_name := if u.first_name.Some? then u.first_name else p.first_name,
       last_name := if u.last_name.Some? then u.last_name else p.last_name,
       bio := if u.bio.Some? then u.bio else p.bio,
       avatar_url := if u.avatar_url.Some? then u.avatar_url else p.avatar_url)
  }

  /** `update(patch).eq("id", id)` on `profiles`. */
  function PatchProfiles(rows: seq<ProfileRow>, id: Id, u: ProfilePatch): (r: seq<ProfileRow>)
    ensures |r| == |rows|
    ensures forall k :: 0 <= k < |rows| && rows[k].id != id ==> r[k] == rows[k]
    ensures forall k :: 0 <= k < |rows| && rows[k].id == id ==>
      r[k].id == id && r[k].role == rows[k].role && r[k].approved == rows[k].approved
      && r[k].resume_url == rows[k].resume_url
  {
    seq(|rows|, k requires 0 <= k < |rows| => if rows[k].id == id then PatchProfile(rows[k], u) else rows[k])
  }

  class Store {
    var interviews: seq<InterviewRow>
    var candidates: seq<CandidateRow>
    var profiles: seq<ProfileRow>
    var jobs: seq<Job>
    var exams: seq<Exam>
    /** The `avatars` storage bucket: object path to file. */
    var avatars: map<string, File>

    /** Primary keys are unique in every table. */
    ghost predicate Valid()
      reads this
    {
      UniqueInterviewIds(interviews) && UniqueCandidateIds(candidates) && UniqueProfileIds(profiles)
    }

    constructor (interviews: seq<InterviewRow>, candidates: seq<CandidateRow>, profiles: seq<ProfileRow>,
                 jobs: seq<Job>, exams: seq<Exam>)
      requires UniqueInterviewIds(interviews) && UniqueCandidateIds(candidates) && UniqueProfileIds(profiles)
      ensures Valid()
      ensures this.interviews == interviews && this.candidates == candidates
      ensures this.profiles == profiles && this.jobs == jobs && this.exams == exams && this.avatars == map[]
    {
      this.interviews := interviews;
      this.candidates := candidates;
      this.profiles := profiles;
      this.jobs := jobs;
      this.exams := exams;
      this.avatars := map[];
    }

    /** `interviews.update({ user_id: uid }).eq("id", id)`. */
    method SetInterviewUserId(id: Id, uid: Id)
      requires Valid()
      modifies this`interviews
      ensures Valid()
      ensures interviews == LinkInterviews(old(interviews), {id}, uid)
    {
      interviews := LinkInterviews(interviews, {id}, uid);
    }

    /** `candidates.update({ user_id: uid }).eq("id", id)`. */
    method SetCandidateUserId(id: Id, uid: Id)
      requires Valid()
      modifies this`candidates
      ensures Valid()
      ensures candidates == LinkCandidates(old(candidates), {id}, uid)
    {
      candidates := LinkCandidates(candidates, {id}, uid);
    }

    /** `interviews.update(patch).eq("id", id)`. */
    method UpdateInterview(id: Id, p: InterviewPatch)
      requires Valid()
      modifies this`interviews
      ensures Valid()
      ensures interviews == PatchInterviews(old(interviews), id, p)
    {
      interviews := PatchInterviews(interviews, id, p);
    }

    /** `interviews.insert(row)`; the backend generates a key no row has yet. */
    method InsertInterview(row: InterviewRow)
      requires Valid()
      requires forall r :: r in interviews ==> r.id != row.id
      modifies this`interviews
      ensures Valid()
      ensures interviews == old(interviews) + [row]
    {
      interviews := interviews + [row];
    }

    /** `profiles.update(patch).eq("id", id)`. */
    method UpdateProfile(id: Id, u: ProfilePatch)
      requires Valid()
      modifies this`profiles
      ensures Valid()
      ensures profiles == PatchProfiles(old(profiles), id, u)
    {
      profiles := PatchProfiles(profiles, id, u);
    }

    /** `storage.from('avatars').upload(path, file, { upsert: true })`. */
    method UploadAvatar(path: string, file: File)
      modifies this`avatars
      ensures avatars == old(avatars)[path := file]
    {
      avatars := avatars[path := file];
    }
  }
}
