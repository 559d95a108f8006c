/**
 * Row shapes of the backend tables (`interviews`, `candidates`, `profiles`, `jobs`, `exam_bank`)
 * and the client-side records built from them.
 */
module Records {
  import opened Wrappers

  /** A uuid key. Uuid columns never hold the empty string, so a present key is always truthy. */
  type Id = s: string | s != "" witness "0"

  /** The `date` column, as an ordered instant. */
  type Timestamp = int

  /** The `user_role` enumeration. */
  datatype Role = Admin | HR | JobSeeker

  /** A value of a `json` column. */
  datatype Json =
    | JNull
    | JBool(b: bool)
    | JNumber(n: int)
    | JString(s: string)
    | JArray(items: seq<Json>)
    | JObject(fields: seq<(string, Json)>)

  /** JavaScript truthiness of a parsed JSON value. */
  predicate JsonTruthy(j: Json) {
    match j
    case JNull => false
    case JBool(b) => b
    case JNumber(n) => n != 0
    case JString(s) => s != ""
    case JArray(_) => true
    case JObject(_) => true
  }

  /** A row of `interviews`. */
  datatype InterviewRow = InterviewRow(
    id: Id,
    date: Timestamp,
    candidate_id: Option<string>,
    candidate_name: Option<string>,
    interviewer_id: Option<string>,
    position: string,
    status: string,
    user_id: Option<Id>,
    settings: Json)

  /** The columns of `candidates` the hooks select. `user_id` is nullable in practice. */
  datatype CandidateRow = CandidateRow(
    id: Id,
    name: Option<string>,
    email: Option<string>,
    user_id: Option<Id>)

  /** A row of `profiles`; `role` is read defensively, so it may be missing. */
  datatype ProfileRow = ProfileRow(
    id: Id,
    first_name: Option<string>,
    last_name: Option<string>,
    role: Option<Role>,
    approved: bool,
    avatar_url: Option<string>,
    bio: Option<string>,
    resume_url: Option<string>)

  /** The columns of `jobs` the pages show. */
  datatype Job = Job(id: Id, title: string, company: string, location: string)

  /** A row of `exam_bank`. */
  datatype Exam = Exam(id: Id, title: string, difficulty: string, category: string, description: Option<string>)

  /** A file chosen in the browser: name, size in bytes and MIME type. */
  datatype File = File(name: string, size: nat, mime: string)

  /** The merged candidate entry of the scheduling screens. */
  datatype Candidate = Candidate(
    id: Id,
    name: string,
    email: string,
    user_id: Option<Id>,
    first_name: Option<string>,
    last_name: Option<string>)

  /** The projected interview entry of the scheduling screens. */
  datatype InterviewView = InterviewView(
    id: Id,
    date: Timestamp,
    candidate_id: string,
    candidate_name: string,
    interviewer_id: Option<Id>,
    interviewer_name: Option<string>,
    position: string,
    status: string,
    user_id: Option<Id>,
    settings: Json)

  /** A toast notification the screens raise. */
  datatype Toast = Success(message: string) | Failure(message: string)

  /** Primary keys are unique. */
  predicate UniqueInterviewIds(rows: seq<InterviewRow>) {
    forall i, j :: 0 <= i < j < |rows| ==> rows[i].id != rows[j].id
  }

  predicate UniqueCandidateIds(rows: seq<CandidateRow>) {
    forall i, j :: 0 <= i < j < |rows| ==> rows[i].id != rows[j].id
  }

  predicate UniqueProfileIds(rows: seq<ProfileRow>) {
    forall i, j :: 0 <= i < j < |rows| ==> rows[i].id != rows[j].id
  }
}
