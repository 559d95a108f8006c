/**
 * The dialog that schedules a new interview: its form state, the ordered validation of the
 * form, the row it inserts, the name it puts in the confirmation and the reset that follows a
 * successful insert.
 */
module InterviewForm {
  import opened Wrappers
  import opened Text
  import opened Seqs
  import opened Records
  import opened Names
  import opened DataStore
  import JobSeekerDashboard

  /** A candidate or an interviewer as both interview dialogs receive them. */
  datatype Person = Person(id: string, email: string, first_name: Option<string>, last_name: Option<string>)

  /**
   * The form's fields. The date input is empty or holds an instant; the other inputs are
   * strings, where `""` means "not chosen".
   */
  datatype NewInterview = NewInterview(
    date: Option<Timestamp>,
    candidate_id: string,
    interviewer_id: string,
    position: string,
    status: string)

  /** The form as it is first shown and as it is reset after a successful insert. */
  const EmptyForm := NewInterview(None, "", "", "", "Scheduled")

  const SelectCandidate := "Please select a candidate"
  const SetDate := "Please set an interview date"
  const EnterPosition := "Please enter a position title"
  const TheCandidate := "the candidate"
  const ScheduledFor := "Interview scheduled for "
  const CreateFailed := "Failed to create interview"

  /** `value || null` for a select whose empty option means "none". */
  function IdOrNull(value: string): (r: Option<Id>)
    ensures r.None? <==> value == ""
    ensures r.Some? ==> r.value == value
  {
    if value == "" then None else Some(value)
  }

  /** Showing an optional id in a select (`id || ""`) and reading it back gives the id again. */
  lemma IdOrNullRoundTrip(o: Option<Id>)
    ensures IdOrNull(OrEmpty(o)) == o
  {
  }

  /** The checks `handleCreateInterview` runs before inserting, in order; `None` when all pass. */
  function Validation(f: NewInterview): (r: Option<string>)
    ensures r.None? <==> f.candidate_id != "" && f.date.Some? && f.position != ""
    ensures f.candidate_id == "" ==> r == Some(SelectCandidate)
    ensures f.candidate_id != "" && f.date.None? ==> r == Some(SetDate)
    ensures f.candidate_id != "" && f.date.Some? && f.position == "" ==> r == Some(EnterPosition)
  {
    if f.candidate_id == "" then Some(SelectCandidate)
    else if f.date.None? then Some(SetDate)
    else if f.position == "" then Some(EnterPosition)
    else None
  }

  /** A form that was just reset fails the first check, so it cannot be submitted twice. */
  lemma ResetFormIsRejected()
    ensures Validation(EmptyForm) == Some(SelectCandidate)
  {
  }

  /** `people.find(p => p.id === id)`, as the index of the first match. */
  function FindIndex(ps: seq<Person>, id: string): (r: Option<nat>)
    ensures r.Some? ==> r.value < |ps| && ps[r.value].id == id
    ensures r.Some? ==> forall j :: 0 <= j < r.value ==> ps[j].id != id
    ensures r.None? ==> forall j :: 0 <= j < |ps| ==> ps[j].id != id
  {
    if ps == [] then None
    else if ps[0].id == id then Some(0)
    else match FindIndex(ps[1..], id)
      case None => None
      case Some(k) => Some(k + 1)
  }

  /** The name the confirmation uses: the found candidate's name or email, else a placeholder. */
  function NotificationName(candidates: seq<Person>, id: string): string {
    match FindIndex(candidates, id)
    case None => TheCandidate
    case Some(k) => NameOrEmail(candidates[k].first_name, candidates[k].last_name, candidates[k].email)
  }

  /**
   * The confirmation names the first candidate with the chosen id by its joined name, or by its
   * email when it has no name; with no such candidate it says "the candidate".
   */
  lemma NotificationNameCases(candidates: seq<Person>, id: string, k: nat)
    requires k < |candidates| && candidates[k].id == id
    requires forall j :: 0 <= j < k ==> candidates[j].id != id
    ensures var c := candidates[k];
      && (!NoName(c.first_name, c.last_name) ==> NotificationName(candidates, id) == JoinNames(c.first_name, c.last_name))
      && (NoName(c.first_name, c.last_name) ==> NotificationName(candidates, id) == c.email)
  {
    var c := candidates[k];
    NameOrEmailChoice(c.first_name, c.last_name, c.email);
  }

  lemma NotificationNameMissing(candidates: seq<Person>, id: string)
    requires forall j :: 0 <= j < |candidates| ==> candidates[j].id != id
    ensures NotificationName(candidates, id) == TheCandidate
  {
  }

  /**
   * The row the insert creates under the key `id` the backend assigns. Only the date, the
   * candidate, the interviewer, the position and the status are sent; every other column keeps
   * its default, so the row is linked to no account and names no candidate.
   */
  function InsertedRow(f: NewInterview, id: Id): (r: InterviewRow)
    requires Validation(f).None?
    ensures r.id == id && r.date == f.date.value && r.candidate_id == Some(f.candidate_id)
    ensures r.position == f.position && r.status == f.status
    ensures r.interviewer_id == IdOrNull(f.interviewer_id)
    ensures r.candidate_name == None && r.user_id == None && r.settings == JNull
  {
    InterviewRow(id, f.date.value, Some(f.candidate_id), None, IdOrNull(f.interviewer_id),
                 f.position, f.status, None, JNull)
  }

  /** A newly scheduled interview is invisible to every job seeker's direct-link lookup. */
  lemma InsertedRowIsUnlinked(rows: seq<InterviewRow>, f: NewInterview, id: Id, uid: Id)
    requires Validation(f).None?
    ensures JobSeekerDashboard.InterviewsOfUser(rows + [InsertedRow(f, id)], uid)
         == JobSeekerDashboard.InterviewsOfUser(rows, uid)
  {
    FilterAppendRejected(rows, InsertedRow(f, id), (r: InterviewRow) => r.user_id == Some(uid));
  }

  class InterviewFormDialog {
    var newInterview: NewInterview
    var isSubmitting: bool

    constructor ()
      ensures newInterview == EmptyForm && !isSubmitting
    {
      newInterview := EmptyForm;
      isSubmitting := false;
    }

    /** An input's `onChange`: the form takes the edited value. */
    method Edit(f: NewInterview)
      modifies this`newInterview
      ensures newInterview == f
    {
      newInterview := f;
    }

    /**
     * `handleCreateInterview`. `newId` is the key the backend assigns to a new row and
     * `failure` the insert's outcome: `None` when it succeeds, else the error's message. The
     * toast raised is returned together with whether `onSuccess` was called.
     */
    method HandleCreate(candidates: seq<Person>, store: Store, newId: Id, failure: Option<string>)
      returns (toast: Toast, refreshed: bool)
      requires store.Valid()
      requires forall r :: r in store.interviews ==> r.id != newId
      modifies this, store`interviews
      ensures store.Valid() && !isSubmitting
      ensures Validation(old(newInterview)).Some? ==>
        && toast == Failure(Validation(old(newInterview)).value) && !refreshed
        && newInterview == old(newInterview) && store.interviews == old(store.interviews)
      ensures Validation(old(newInterview)).None? && failure.Some? ==>
        && toast == Failure(Or(failure.value, CreateFailed)) && !refreshed
        && newInterview == old(newInterview) && store.interviews == old(store.interviews)
      ensures Validation(old(newInterview)).None? && failure.None? ==>
        && toast == Success(ScheduledFor + NotificationName(candidates, old(newInterview).candidate_id))
        && refreshed && newInterview == EmptyForm
        && store.interviews == old(store.interviews) + [InsertedRow(old(newInterview), newId)]
    {
      isSubmitting := true;
      var invalid := Validation(newInterview);
      if invalid.Some? {
        toast, refreshed := Failure(invalid.value), false;
      } else {
        var name := NotificationName(candidates, newInterview.candidate_id);
        if failure.Some? {
          toast, refreshed := Failure(Or(failure.value, CreateFailed)), false;
        } else {
          store.InsertInterview(InsertedRow(newInterview, newId));
          toast := Success(ScheduledFor + name);
          newInterview := EmptyForm;
          refreshed := true;
        }
      }
      isSubmitting := false;
    }
  }
}
