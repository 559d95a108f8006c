/**
 * The dialog that edits a scheduled interview: a local copy of the interview that the inputs
 * change, and a submit that updates exactly one row, and only its scheduling fields.
 */
module InterviewEdit {
  import opened Wrappers
  import opened Text
  import opened Records
  import opened DataStore
  import opened InterviewForm
  import JobSeekerDashboard

  const Updated := "Interview updated successfully"
  const UpdateFailed := "Failed to update interview"

  /** The fields the submit sends for the interview being edited. */
  function PatchOf(v: InterviewView): (r: InterviewPatch)
    ensures r.date == v.date && r.candidate_id == v.candidate_id && r.interviewer_id == v.interviewer_id
    ensures r.position == v.position && r.status == v.status
  {
    InterviewPatch(v.date, v.candidate_id, v.interviewer_id, v.position, v.status)
  }

  /**
   * The update touches only the row with the given key, writes the five scheduling fields there
   * and keeps its key, name, owner and settings; every other row is unchanged.
   */
  lemma PatchTouchesOneRow(rows: seq<InterviewRow>, id: Id, p: InterviewPatch)
    ensures var r := PatchInterviews(rows, id, p);
      && |r| == |rows|
      && (forall k :: 0 <= k < |rows| && rows[k].id != id ==> r[k] == rows[k])
      && (forall k :: 0 <= k < |rows| && rows[k].id == id ==>
            && r[k].id == id && r[k].date == p.date && r[k].candidate_id == Some(p.candidate_id)
            && r[k].interviewer_id == p.interviewer_id && r[k].position == p.position
            && r[k].status == p.status && r[k].candidate_name == rows[k].candidate_name
            && r[k].user_id == rows[k].user_id && r[k].settings == rows[k].settings)
  {
  }

  /** Submitting the same edit twice leaves the table as submitting it once. */
  lemma PatchIdempotent(rows: seq<InterviewRow>, id: Id, p: InterviewPatch)
    ensures PatchInterviews(PatchInterviews(rows, id, p), id, p) == PatchInterviews(rows, id, p)
  {
  }

  /** Editing an interview whose row no longer exists changes nothing. */
  lemma PatchMissingRow(rows: seq<InterviewRow>, id: Id, p: InterviewPatch)
    requires forall r :: r in rows ==> r.id != id
    ensures PatchInterviews(rows, id, p) == rows
  {
  }

  /** An edit never links or unlinks an interview: the job-seeker repairs see the same gaps. */
  lemma PatchKeepsLinks(rows: seq<InterviewRow>, id: Id, p: InterviewPatch)
    ensures JobSeekerDashboard.Unlinked(PatchInterviews(rows, id, p)) == JobSeekerDashboard.Unlinked(rows)
  {
    var r := PatchInterviews(rows, id, p);
    forall x | x in JobSeekerDashboard.Unlinked(r) ensures x in JobSeekerDashboard.Unlinked(rows) {
      var k :| 0 <= k < |r| && r[k].id == x && r[k].user_id.None?;
      assert rows[k] in rows;
    }
    forall x | x in JobSeekerDashboard.Unlinked(rows) ensures x in JobSeekerDashboard.Unlinked(r) {
      var k :| 0 <= k < |rows| && rows[k].id == x && rows[k].user_id.None?;
      assert r[k] in r;
    }
  }

  class InterviewEditDialog {
    /** The local copy of the interview; the dialog shows nothing while it is `None`. */
    var editInterview: Option<InterviewView>
    var isSubmitting: bool
    /** The parent's `open` flag, which the dialog clears through `onOpenChange(false)`. */
    var open: bool

    constructor (interview: Option<InterviewView>, open: bool)
      ensures editInterview == interview && !isSubmitting && this.open == open
    {
      editInterview := interview;
      isSubmitting := false;
      this.open := open;
    }

    /** The effect on the `interview` prop: the local copy is replaced by the new prop. */
    method SetInterview(interview: Option<InterviewView>)
      modifies this`editInterview
      ensures editInterview == interview
    {
      editInterview := interview;
    }

    /** The candidate select. */
    method ChooseCandidate(value: string)
      requires editInterview.Some?
      modifies this`editInterview
      ensures editInterview == Some(old(editInterview).value.(candidate_id := value))
    {
      editInterview := Some(editInterview.value.(candidate_id := value));
    }

    /** The interviewer select, whose "None" option has the value `""` and stores `null`. */
    method ChooseInterviewer(value: string)
      requires editInterview.Some?
      modifies this`editInterview
      ensures editInterview == Some(old(editInterview).value.(interviewer_id := IdOrNull(value)))
      ensures value == "" ==> editInterview.value.interviewer_id == None
    {
      editInterview := Some(editInterview.value.(interviewer_id := IdOrNull(value)));
    }

    /** The position, date and status inputs. */
    method SetFields(position: string, date: Timestamp, status: string)
      requires editInterview.Some?
      modifies this`editInterview
      ensures editInterview == Some(old(editInterview).value.(position := position, date := date, status := status))
    {
      editInterview := Some(editInterview.value.(position := position, date := date, status := status));
    }

    /**
     * `handleUpdateInterview`. `failure` is the update's outcome: `None` when it succeeds, else
     * the error's message. The toast raised, if any, is returned together with whether
     * `onSuccess` was called.
     */
    method HandleUpdate(store: Store, failure: Option<string>) returns (toast: Option<Toast>, refreshed: bool)
      requires store.Valid()
      modifies this`isSubmitting, this`open, store`interviews
      ensures store.Valid() && !isSubmitting
      ensures old(editInterview).None? ==>
        toast == None && !refreshed && open == old(open) && store.interviews == old(store.interviews)
      ensures old(editInterview).Some? && failure.Some? ==>
        && toast == Some(Failure(Or(failure.value, UpdateFailed))) && !refreshed
        && open == old(open) && store.interviews == old(store.interviews)
      ensures old(editInterview).Some? && failure.None? ==>
        && toast == Some(Success(Updated)) && refreshed && !open
        && store.interviews == PatchInterviews(old(store.interviews), old(editInterview).value.id,
                                               PatchOf(old(editInterview).value))
    {
      isSubmitting := true;
      if editInterview.None? {
        toast, refreshed := None, false;
      } else if failure.Some? {
        toast, refreshed := Some(Failure(Or(failure.value, UpdateFailed))), false;
      } else {
        store.UpdateInterview(editInterview.value.id, PatchOf(editInterview.value));
        toast := Some(Success(Updated));
        open := false;
        refreshed := true;
      }
      isSubmitting := false;
    }
  }
}
