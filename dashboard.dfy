/**
 * The job-seeker dashboard load: which interviews belong to the signed-in user.
 *
 * A short-circuiting chain of four lookups, each tried only when the previous ones found no
 * interview: (1) interviews whose `user_id` is the user's; (2) the candidate whose `user_id` is
 * the user's, and its interviews; (3) the candidate whose email equals the user's, and its
 * interviews; (4) among the 100 earliest interviews, those whose `candidate_name` contains the
 * email's local part (or the whole email), ignoring ASCII case. Along the way the load links
 * rows to the user by setting `user_id`, but only where it was missing. Any failing lookup reads
 * as "found nothing"; only a failing jobs query aborts the load.
 */
module JobSeekerDashboard {
  import opened Wrappers
  import opened Text
  import opened Seqs
  import opened Records
  import opened Queries
  import opened DataStore

  /** The signed-in user as the auth session reports it. */
  datatype User = User(id: Id, email: Option<string>)

  /** A job application; the dashboard never loads any. */
  datatype Application = Application(id: Id, job_id: Id, status: string)

  /**
   * Which backend calls of one load report an error. A write to an id in `failedWrites`
   * is lost; the load never looks at the outcome of its writes.
   */
  datatype Faults = Faults(
    jobs: bool,
    interviewsByUser: bool,
    candidateByUser: bool,
    candidateInterviews: bool,
    candidateByEmail: bool,
    emailCandidateInterviews: bool,
    recentInterviews: bool,
    failedWrites: set<Id>)

  /** The lookup that produced the dashboard's interviews. */
  datatype Strategy = DirectLink | CandidateLink | EmailBridge | NameFallback | NoMatch

  /**
   * The outcome of the chain: the winning lookup, the rows it returned (as fetched, before any
   * repair), and the candidate the email lookup links, if any.
   */
  datatype Resolution = Resolution(strategy: Strategy, found: seq<InterviewRow>, linkCandidate: Option<Id>)

  /** A load in which every backend call succeeds. */
  const NoFaults := Faults(false, false, false, false, false, false, false, {})

  const JobsLimit: nat := 5
  const FallbackWindow: nat := 100

  // ---------------------------------------------------------------------------
  // The queries of the chain

  /** `interviews.eq("user_id", uid)`. */
  function InterviewsOfUser(rows: seq<InterviewRow>, uid: Id): seq<InterviewRow> {
    Filter(rows, (r: InterviewRow) => r.user_id == Some(uid))
  }

  /** `interviews.eq("candidate_id", cid)`. */
  function InterviewsOfCandidate(rows: seq<InterviewRow>, cid: Id): seq<InterviewRow> {
    Filter(rows, (r: InterviewRow) => r.candidate_id == Some(cid))
  }

  /** `candidates.eq("user_id", uid)`. */
  function CandidatesOfUser(rows: seq<CandidateRow>, uid: Id): seq<CandidateRow> {
    Filter(rows, (c: CandidateRow) => c.user_id == Some(uid))
  }

  /** `candidates.eq("email", email)`: exact, case-sensitive equality. */
  function CandidatesWithEmail(rows: seq<CandidateRow>, email: string): seq<CandidateRow> {
    Filter(rows, (c: CandidateRow) => c.email == Some(email))
  }

  /** Strategy 1, ordered by date; an error reads as no rows. */
  function LinkedInterviews(rows: seq<InterviewRow>, uid: Id, failed: bool): seq<InterviewRow> {
    if failed then [] else ByDate(InterviewsOfUser(rows, uid))
  }

  /** The interviews of one candidate, ordered by date; an error reads as no rows. */
  function CandidateInterviews(rows: seq<InterviewRow>, cid: Id, failed: bool): seq<InterviewRow> {
    if failed then [] else ByDate(InterviewsOfCandidate(rows, cid))
  }

  /** A `maybeSingle` candidate lookup: an error, and so also several matches, reads as none. */
  function PickCandidate(matches: seq<CandidateRow>, failed: bool): Option<CandidateRow> {
    if failed then None
    else match MaybeSingle(matches)
      case Ok(c) => c
      case Err(_) => None
  }

  /** The fallback's matching rule for one interview's `candidate_name`. */
  predicate NameMatches(name: Option<string>, email: string) {
    name.Some? &&
    (Contains(Lower(name.value), Lower(Before(email, '@'))) || Contains(Lower(name.value), Lower(email)))
  }

  /** `interviews.order("date").limit(100)`. */
  function RecentInterviews(rows: seq<InterviewRow>): (r: seq<InterviewRow>)
    ensures |r| <= FallbackWindow && r <= ByDate(rows)
    ensures |rows| >= FallbackWindow ==> |r| == FallbackWindow
  {
    Take(ByDate(rows), FallbackWindow)
  }

  /** Strategy 4: the recent interviews whose name matches, in window order. */
  function NameFallbackRows(rows: seq<InterviewRow>, email: string, failed: bool): seq<InterviewRow> {
    if failed then [] else Filter(RecentInterviews(rows), (r: InterviewRow) => NameMatches(r.candidate_name, email))
  }

  // ---------------------------------------------------------------------------
  // The chain

  /** The interviews strategy 2 offers. */
  function ViaUserCandidate(interviews: seq<InterviewRow>, candidates: seq<CandidateRow>, u: User, f: Faults): seq<InterviewRow> {
    var c := PickCandidate(CandidatesOfUser(candidates, u.id), f.candidateByUser);
    if c.Some? then CandidateInterviews(interviews, c.value.id, f.candidateInterviews) else []
  }

  /** The candidate strategy 3 finds, when the user has an email. */
  function EmailCandidate(candidates: seq<CandidateRow>, u: User, f: Faults): Option<CandidateRow> {
    if Truthy(u.email) then PickCandidate(CandidatesWithEmail(candidates, u.email.value), f.candidateByEmail) else None
  }

  /** The interviews strategy 3 offers. */
  function ViaEmailCandidate(interviews: seq<InterviewRow>, candidates: seq<CandidateRow>, u: User, f: Faults): seq<InterviewRow> {
    var c := EmailCandidate(candidates, u, f);
    if c.Some? then CandidateInterviews(interviews, c.value.id, f.emailCandidateInterviews) else []
  }

  /** The interviews strategy 4 offers. */
  function ViaName(interviews: seq<InterviewRow>, u: User, f: Faults): seq<InterviewRow> {
    if Truthy(u.email) then NameFallbackRows(interviews, u.email.value, f.recentInterviews) else []
  }

  /** The whole chain, on the tables as they were when the load started. */
  function Resolve(interviews: seq<InterviewRow>, candidates: seq<CandidateRow>, u: User, f: Faults): (r: Resolution)
    ensures r.strategy == NoMatch <==> r.found == []
    ensures r.strategy == DirectLink ==> r.linkCandidate == None
  {
    var direct := LinkedInterviews(interviews, u.id, f.interviewsByUser);
    if |direct| > 0 then Resolution(DirectLink, direct, None)
    else ResolveByCandidate(interviews, candidates, u, f)
  }

  /** The chain from strategy 2 on. */
  function ResolveByCandidate(interviews: seq<InterviewRow>, candidates: seq<CandidateRow>, u: User, f: Faults): (r: Resolution)
    ensures r.strategy != DirectLink
    ensures r.strategy == NoMatch <==> r.found == []
    ensures r.strategy == CandidateLink ==> r.linkCandidate == None
  {
    var viaUser := ViaUserCandidate(interviews, candidates, u, f);
    if |viaUser| > 0 then Resolution(CandidateLink, viaUser, None)
    else ResolveByEmail(interviews, candidates, u, f)
  }

  /** The email candidate strategy 3 links: the one it finds, when that one has no `user_id`. */
  function EmailLink(candidates: seq<CandidateRow>, u: User, f: Faults): Option<Id> {
    var c := EmailCandidate(candidates, u, f);
    if c.Some? && c.value.user_id.None? then Some(c.value.id) else None
  }

  /** The chain from strategy 3 on; the email candidate is linked whatever follows. */
  function ResolveByEmail(interviews: seq<InterviewRow>, candidates: seq<CandidateRow>, u: User, f: Faults): (r: Resolution)
    ensures r.strategy != DirectLink && r.strategy != CandidateLink
    ensures r.strategy == NoMatch <==> r.found == []
    ensures r.linkCandidate == EmailLink(candidates, u, f)
  {
    var link := EmailLink(candidates, u, f);
    var viaEmail := ViaEmailCandidate(interviews, candidates, u, f);
    if |viaEmail| > 0 then Resolution(EmailBridge, viaEmail, link)
    else ResolveByName(interviews, u, f, link)
  }

  /** The chain's last strategy, carrying the candidate link strategy 3 decided on. */
  function ResolveByName(interviews: seq<InterviewRow>, u: User, f: Faults, link: Option<Id>): (r: Resolution)
    ensures r.strategy == NameFallback || r.strategy == NoMatch
    ensures r.strategy == NoMatch <==> r.found == []
    ensures r.linkCandidate == link
  {
    var named := ViaName(interviews, u, f);
    if |named| > 0 then Resolution(NameFallback, named, link)
    else Resolution(NoMatch, [], link)
  }

  /** The ids of the rows in `rows` that have no `user_id`. */
  function Unlinked(rows: seq<InterviewRow>): set<Id> {
    set r | r in rows && r.user_id.None? :: r.id
  }

  /** The interviews table after the load's repairs. */
  function RepairedInterviews(interviews: seq<InterviewRow>, res: Resolution, uid: Id, failed: set<Id>): seq<InterviewRow> {
    LinkInterviews(interviews, Unlinked(res.found) - failed, uid)
  }

  /** The candidates table after the load's repairs. */
  function RepairedCandidates(candidates: seq<CandidateRow>, res: Resolution, uid: Id, failed: set<Id>): seq<CandidateRow> {
    LinkCandidate(candidates, res.linkCandidate, uid, failed)
  }

  /** The candidates table after linking `link`, unless there is none or its write fails. */
  function LinkCandidate(candidates: seq<CandidateRow>, link: Option<Id>, uid: Id, failed: set<Id>): seq<CandidateRow> {
    if link.Some? && link.value !in failed then LinkCandidates(candidates, {link.value}, uid) else candidates
  }

  // ---------------------------------------------------------------------------
  // The hook's state and the load

  /** Links every row of `rows` that has no `user_id`, one update request per row. */
  method RelinkInterviews(store: Store, rows: seq<InterviewRow>, uid: Id, failed: set<Id>)
    requires store.Valid()
    modifies store`interviews
    ensures store.Valid()
    ensures store.interviews == LinkInterviews(old(store.interviews), Unlinked(rows) - failed, uid)
  {
    for i := 0 to |rows|
      invariant store.Valid()
      invariant store.interviews == LinkInterviews(old(store.interviews), Unlinked(rows[..i]) - failed, uid)
    {
      assert rows[..i + 1] == rows[..i] + [rows[i]];
      if rows[i].user_id.None? {
        assert Unlinked(rows[..i + 1]) == Unlinked(rows[..i]) + {rows[i].id};
        if rows[i].id !in failed {
          LinkInterviewsStep(old(store.interviews), Unlinked(rows[..i]) - failed, rows[i].id, uid);
          store.SetInterviewUserId(rows[i].id, uid);
          assert Unlinked(rows[..i + 1]) - failed == (Unlinked(rows[..i]) - failed) + {rows[i].id};
        } else {
          assert Unlinked(rows[..i + 1]) - failed == Unlinked(rows[..i]) - failed;
        }
      } else {
        assert Unlinked(rows[..i + 1]) == Unlinked(rows[..i]);
      }
    }
    assert rows[..|rows|] == rows;
  }

  class Dashboard {
    var jobs: seq<Job>
    var applications: seq<Application>
    var interviews: seq<InterviewRow>
    var isLoading: bool

    constructor ()
      ensures jobs == [] && applications == [] && interviews == [] && isLoading
    {
      jobs, applications, interviews, isLoading := [], [], [], true;
    }

    /** One run of the load for the current `user`, against `store`, with the given failures. */
    method Load(user: Option<User>, store: Store, f: Faults)
      requires store.Valid()
      modifies this, store`interviews, store`candidates
      ensures store.Valid() && !isLoading
      ensures user.None? || f.jobs ==>
        && store.interviews == old(store.interviews) && store.candidates == old(store.candidates)
        && jobs == old(jobs) && applications == old(applications) && interviews == old(interviews)
      ensures user.Some? && !f.jobs ==>
        var res := Resolve(old(store.interviews), old(store.candidates), user.value, f);
        && interviews == res.found
        && jobs == Take(old(store.jobs), JobsLimit)
        && applications == []
        && store.interviews == RepairedInterviews(old(store.interviews), res, user.value.id, f.failedWrites)
        && store.candidates == RepairedCandidates(old(store.candidates), res, user.value.id, f.failedWrites)
    {
      isLoading := true;
      if user.None? {
        isLoading := false;
        return;
      }
      var u := user.value;
      if f.jobs {
        // The error is thrown, reported, and the load ends without touching the lists.
        isLoading := false;
        return;
      }
      var jobsData := Take(store.jobs, JobsLimit);
      var rows := LoadInterviews(store, u, f);
      interviews, jobs, applications, isLoading := rows, jobsData, [], false;
    }
  }

  /** The interview lookups of the load, with their repairs. */
  method LoadInterviews(store: Store, u: User, f: Faults) returns (rows: seq<InterviewRow>)
    requires store.Valid()
    modifies store`interviews, store`candidates
    ensures store.Valid()
    ensures var res := Resolve(old(store.interviews), old(store.candidates), u, f);
      && rows == res.found
      && store.interviews == RepairedInterviews(old(store.interviews), res, u.id, f.failedWrites)
      && store.candidates == RepairedCandidates(old(store.candidates), res, u.id, f.failedWrites)
  {
    // 1. Interviews linked to the user directly.
    rows := LinkedInterviews(store.interviews, u.id, f.interviewsByUser);
    if |rows| > 0 {
      DirectRowsAreLinked(store.interviews, u.id, f.interviewsByUser);
      LinkInterviewsNothing(store.interviews, u.id);
      return;
    }
    rows := LoadByCandidate(store, u, f);
  }

  /** Strategies 2 to 4 of the load, after the direct lookup found nothing. */
  method LoadByCandidate(store: Store, u: User, f: Faults) returns (rows: seq<InterviewRow>)
    requires store.Valid()
    modifies store`interviews, store`candidates
    ensures store.Valid()
    ensures var res := ResolveByCandidate(old(store.interviews), old(store.candidates), u, f);
      && rows == res.found
      && store.interviews == RepairedInterviews(old(store.interviews), res, u.id, f.failedWrites)
      && store.candidates == RepairedCandidates(old(store.candidates), res, u.id, f.failedWrites)
  {
    // 2. The candidate linked to the user, and its interviews.
    var byUser := PickCandidate(CandidatesOfUser(store.candidates, u.id), f.candidateByUser);
    if byUser.Some? && !f.candidateInterviews {
      rows := CandidateInterviews(store.interviews, byUser.value.id, false);
      if |rows| > 0 {
        RelinkInterviews(store, rows, u.id, f.failedWrites);
        return;
      }
    }
    rows := LoadByEmail(store, u, f);
  }

  /** Strategies 3 and 4 of the load. */
  method LoadByEmail(store: Store, u: User, f: Faults) returns (rows: seq<InterviewRow>)
    requires store.Valid()
    modifies store`interviews, store`candidates
    ensures store.Valid()
    ensures var res := ResolveByEmail(old(store.interviews), old(store.candidates), u, f);
      && rows == res.found
      && store.interviews == RepairedInterviews(old(store.interviews), res, u.id, f.failedWrites)
      && store.candidates == RepairedCandidates(old(store.candidates), res, u.id, f.failedWrites)
  {
    ghost var t0, c0 := store.interviews, store.candidates;
    // 3. The candidate with the user's email: link it, then take its interviews.
    var byEmail := LinkEmailCandidate(store, u, f);
    if byEmail.Some? && !f.emailCandidateInterviews {
      rows := CandidateInterviews(store.interviews, byEmail.value.id, false);
      if |rows| > 0 {
        RelinkInterviews(store, rows, u.id, f.failedWrites);
        return;
      }
    }
    assert ViaEmailCandidate(t0, c0, u, f) == [];

    // 4. Recent interviews whose candidate name mentions the email.
    rows := LoadByName(store, u, f);
  }

  /** Strategy 3's lookup of the candidate with the user's email, and its link. */
  method LinkEmailCandidate(store: Store, u: User, f: Faults) returns (byEmail: Option<CandidateRow>)
    requires store.Valid()
    modifies store`candidates
    ensures store.Valid()
    ensures byEmail == EmailCandidate(old(store.candidates), u, f)
    ensures store.candidates == LinkCandidate(old(store.candidates), EmailLink(old(store.candidates), u, f), u.id, f.failedWrites)
  {
    if !Truthy(u.email) {
      return None;
    }
    byEmail := PickCandidate(CandidatesWithEmail(store.candidates, u.email.value), f.candidateByEmail);
    if byEmail.Some? && byEmail.value.user_id.None? && byEmail.value.id !in f.failedWrites {
      store.SetCandidateUserId(byEmail.value.id, u.id);
    }
  }

  /** Strategy 4 of the load. */
  method LoadByName(store: Store, u: User, f: Faults) returns (rows: seq<InterviewRow>)
    requires store.Valid()
    modifies store`interviews
    ensures store.Valid()
    ensures rows == ResolveByName(old(store.interviews), u, f, None).found
    ensures store.interviews == LinkInterviews(old(store.interviews), Unlinked(rows) - f.failedWrites, u.id)
  {
    ghost var t0 := store.interviews;
    rows := [];
    if Truthy(u.email) && !f.recentInterviews {
      var recent := RecentInterviews(store.interviews);
      if |recent| > 0 {
        rows := NameFallbackRows(store.interviews, u.email.value, false);
        if |rows| > 0 {
          RelinkInterviews(store, rows, u.id, f.failedWrites);
          return;
        }
      }
    }
    rows := [];
    assert Unlinked([]) == {};
    LinkInterviewsNothing(t0, u.id);
  }

  // ---------------------------------------------------------------------------
  // Properties of the chain

  /** Every row of the direct lookup is already linked to the user, so none is repaired. */
  lemma DirectRowsAreLinked(rows: seq<InterviewRow>, uid: Id, failed: bool)
    ensures forall r :: r in LinkedInterviews(rows, uid, failed) ==> r.user_id == Some(uid)
    ensures Unlinked(LinkedInterviews(rows, uid, failed)) == {}
  {
    if !failed {
      ByDateMembers(InterviewsOfUser(rows, uid));
    }
  }

  /** The rows of one candidate's interviews are rows of the table, and that candidate's. */
  lemma CandidateInterviewsAreRows(rows: seq<InterviewRow>, cid: Id, failed: bool)
    ensures forall r :: r in CandidateInterviews(rows, cid, failed) ==> r in rows && r.candidate_id == Some(cid)
  {
    if !failed {
      ByDateMembers(InterviewsOfCandidate(rows, cid));
    }
  }

  /** The fallback's rows are rows of the table whose name matches. */
  lemma NameFallbackRowsAreRows(rows: seq<InterviewRow>, email: string, failed: bool)
    ensures forall r :: r in NameFallbackRows(rows, email, failed) ==> r in rows && NameMatches(r.candidate_name, email)
  {
    ByDateMembers(rows);
  }

  /** Rows returned by any lookup of the chain are rows of the interviews table. */
  lemma FoundAreRows(interviews: seq<InterviewRow>, candidates: seq<CandidateRow>, u: User, f: Faults)
    ensures forall r :: r in Resolve(interviews, candidates, u, f).found ==> r in interviews
  {
    ByDateMembers(InterviewsOfUser(interviews, u.id));
    ViaCandidateAreRows(interviews, PickCandidate(CandidatesOfUser(candidates, u.id), f.candidateByUser), f.candidateInterviews);
    ViaCandidateAreRows(interviews, EmailCandidate(candidates, u, f), f.emailCandidateInterviews);
    if Truthy(u.email) {
      NameFallbackRowsAreRows(interviews, u.email.value, f.recentInterviews);
    }
    FirstSuccessWins(interviews, candidates, u, f);
  }

  /** The interviews of a looked-up candidate are rows of the table. */
  lemma ViaCandidateAreRows(rows: seq<InterviewRow>, c: Option<CandidateRow>, failed: bool)
    ensures c.Some? ==> forall r :: r in CandidateInterviews(rows, c.value.id, failed) ==> r in rows
  {
    if c.Some? {
      CandidateInterviewsAreRows(rows, c.value.id, failed);
    }
  }

  /**
   * When some interview is linked to the user and that lookup succeeds, the dashboard shows
   * exactly those interviews, earliest first, and nothing is written.
   */
  lemma DirectLinkShortCircuits(interviews: seq<InterviewRow>, candidates: seq<CandidateRow>, u: User, f: Faults)
    requires !f.interviewsByUser
    requires exists k :: 0 <= k < |interviews| && interviews[k].user_id == Some(u.id)
    ensures var res := Resolve(interviews, candidates, u, f);
      && res.strategy == DirectLink
      && SortedByDate(res.found, true)
      && multiset(res.found) == multiset(InterviewsOfUser(interviews, u.id))
      && (forall r :: r in res.found <==> r in interviews && r.user_id == Some(u.id))
      && res.linkCandidate == None
      && RepairedInterviews(interviews, res, u.id, f.failedWrites) == interviews
      && RepairedCandidates(candidates, res, u.id, f.failedWrites) == candidates
  {
    var k :| 0 <= k < |interviews| && interviews[k].user_id == Some(u.id);
    var linked := InterviewsOfUser(interviews, u.id);
    assert interviews[k] in linked;
    ByDateMembers(linked);
    DirectRowsAreLinked(interviews, u.id, false);
    var res := Resolve(interviews, candidates, u, f);
    assert LinkInterviews(interviews, {}, u.id) == interviews;
  }

  /**
   * The chain takes the first lookup that yields at least one interview, in the order
   * direct link, candidate by `user_id`, candidate by email, name fallback; a candidate with
   * no interviews falls through. The email lookups only run when the user has an email.
   */
  lemma FirstSuccessWins(interviews: seq<InterviewRow>, candidates: seq<CandidateRow>, u: User, f: Faults)
    ensures var res := Resolve(interviews, candidates, u, f);
      var s1 := LinkedInterviews(interviews, u.id, f.interviewsByUser);
      var s2 := ViaUserCandidate(interviews, candidates, u, f);
      var s3 := ViaEmailCandidate(interviews, candidates, u, f);
      var s4 := ViaName(interviews, u, f);
      && (res.strategy == DirectLink <==> s1 != [])
      && (res.strategy == CandidateLink <==> s1 == [] && s2 != [])
      && (res.strategy == EmailBridge <==> s1 == [] && s2 == [] && s3 != [])
      && (res.strategy == NameFallback <==> s1 == [] && s2 == [] && s3 == [] && s4 != [])
      && (res.strategy == NoMatch <==> s1 == [] && s2 == [] && s3 == [] && s4 == [])
      && res.found == (match res.strategy
        case DirectLink => s1
        case CandidateLink => s2
        case EmailBridge => s3
        case NameFallback => s4
        case NoMatch => [])
      && (!Truthy(u.email) ==> s3 == [] && s4 == [] && res.linkCandidate == None)
  {
  }

  /**
   * Linking the unlinked rows among `found`, all rows of a table with unique ids, changes only
   * rows without a `user_id`, and only that column.
   */
  lemma LinkOnlyFillsGaps(interviews: seq<InterviewRow>, found: seq<InterviewRow>, failed: set<Id>, uid: Id)
    requires UniqueInterviewIds(interviews)
    requires forall r :: r in found ==> r in interviews
    ensures var t := LinkInterviews(interviews, Unlinked(found) - failed, uid);
      && |t| == |interviews|
      && forall k :: 0 <= k < |t| ==>
           t[k] == interviews[k].(user_id := t[k].user_id)
           && (interviews[k].user_id.Some? ==> t[k] == interviews[k])
           && (t[k] != interviews[k] ==> t[k].user_id == Some(uid))
  {
  }

  /** Linking one unlinked candidate of a table with unique ids changes only that row's `user_id`. */
  lemma LinkCandidateFillsGap(candidates: seq<CandidateRow>, c: CandidateRow, uid: Id)
    requires UniqueCandidateIds(candidates)
    requires c in candidates && c.user_id.None?
    ensures var t := LinkCandidates(candidates, {c.id}, uid);
      && |t| == |candidates|
      && forall k :: 0 <= k < |t| ==>
           t[k] == candidates[k].(user_id := t[k].user_id)
           && (candidates[k].user_id.Some? ==> t[k] == candidates[k])
           && (t[k] != candidates[k] ==> t[k].user_id == Some(uid))
  {
  }

  /**
   * The repairs only ever fill a missing `user_id` with the user's id: a row that was linked
   * (to anyone) keeps its link, and no other column of any row changes.
   */
  lemma RepairsNeverOverwrite(interviews: seq<InterviewRow>, candidates: seq<CandidateRow>, u: User, f: Faults)
    requires UniqueInterviewIds(interviews) && UniqueCandidateIds(candidates)
    ensures var res := Resolve(interviews, candidates, u, f);
      var t := RepairedInterviews(interviews, res, u.id, f.failedWrites);
      var c := RepairedCandidates(candidates, res, u.id, f.failedWrites);
      && |t| == |interviews| && |c| == |candidates|
      && (forall k :: 0 <= k < |t| ==>
            t[k] == interviews[k].(user_id := t[k].user_id)
            && (interviews[k].user_id.Some? ==> t[k] == interviews[k])
            && (t[k] != interviews[k] ==> t[k].user_id == Some(u.id)))
      && (forall k :: 0 <= k < |c| ==>
            c[k] == candidates[k].(user_id := c[k].user_id)
            && (candidates[k].user_id.Some? ==> c[k] == candidates[k])
            && (c[k] != candidates[k] ==> c[k].user_id == Some(u.id)))
  {
    var res := Resolve(interviews, candidates, u, f);
    FoundAreRows(interviews, candidates, u, f);
    LinkOnlyFillsGaps(interviews, res.found, f.failedWrites, u.id);
    if res.linkCandidate.Some? && res.linkCandidate.value !in f.failedWrites {
      var e := EmailCandidate(candidates, u, f);
      assert e.Some? && e.value.user_id.None? && res.linkCandidate.value == e.value.id;
      assert e.value in CandidatesWithEmail(candidates, u.email.value);
      LinkCandidateFillsGap(candidates, e.value, u.id);
    }
  }

  /**
   * A candidate found by email with no `user_id` is linked whenever the chain gets that far,
   * whether or not it has interviews.
   */
  lemma EmailCandidateLinkedFirst(interviews: seq<InterviewRow>, candidates: seq<CandidateRow>, u: User, f: Faults)
    requires LinkedInterviews(interviews, u.id, f.interviewsByUser) == []
    requires ViaUserCandidate(interviews, candidates, u, f) == []
    requires Truthy(u.email)
    requires EmailCandidate(candidates, u, f).Some? && EmailCandidate(candidates, u, f).value.user_id.None?
    ensures var c := EmailCandidate(candidates, u, f).value;
      var res := Resolve(interviews, candidates, u, f);
      && res.linkCandidate == Some(c.id)
      && c in candidates && c.email == u.email
      && (c.id !in f.failedWrites ==>
            RepairedCandidates(candidates, res, u.id, f.failedWrites) == LinkCandidates(candidates, {c.id}, u.id))
  {
    var c := EmailCandidate(candidates, u, f).value;
    assert c in CandidatesWithEmail(candidates, u.email.value);
  }

  /** The whole-email disjunct adds nothing: the email contains its own local part. */
  lemma NameMatchesIsLocalPartMatch(name: Option<string>, email: string)
    ensures NameMatches(name, email) <==> name.Some? && Contains(Lower(name.value), Lower(Before(email, '@')))
  {
    if name.Some? && Contains(Lower(name.value), Lower(email)) {
      LowerOfPrefix(Before(email, '@'), email);
      ContainsPrefix(Lower(email), Lower(Before(email, '@')));
      ContainsTransitive(Lower(name.value), Lower(email), Lower(Before(email, '@')));
    }
  }

  /** An email that starts with `@` has an empty local part, which every present name contains. */
  lemma LeadingAtMatchesEveryName(name: Option<string>, email: string)
    requires email != [] && email[0] == '@'
    ensures NameMatches(name, email) <==> name.Some?
  {
    if name.Some? {
      assert Lower(Before(email, '@')) == [];
      ContainsPrefix(Lower(name.value), []);
    }
  }

  /**
   * The fallback looks at no more than the 100 earliest interviews and keeps, in that order,
   * exactly those whose name matches.
   */
  lemma FallbackWindow100(interviews: seq<InterviewRow>, email: string)
    ensures var w := RecentInterviews(interviews);
      && |w| <= 100 && w <= ByDate(interviews)
      && (|interviews| >= 100 ==> |w| == 100)
      && IsSubsequence(NameFallbackRows(interviews, email, false), w)
      && (forall r :: r in NameFallbackRows(interviews, email, false) <==> r in w && NameMatches(r.candidate_name, email))
  {
  }

  /** With every lookup failing, the load shows no interviews and writes nothing. */
  lemma AllLookupsFailing(interviews: seq<InterviewRow>, candidates: seq<CandidateRow>, u: User, f: Faults)
    requires f.interviewsByUser && f.candidateByUser && f.candidateByEmail && f.recentInterviews
    ensures Resolve(interviews, candidates, u, f) == Resolution(NoMatch, [], None)
  {
  }

  /**
   * After a load won by a bridge or the fallback has linked at least one row, the next load
   * (whose direct lookup succeeds) is answered by the direct link.
   */
  lemma RepairsHeal(interviews: seq<InterviewRow>, candidates: seq<CandidateRow>, u: User, f: Faults, next: Faults)
    requires UniqueInterviewIds(interviews)
    requires !next.interviewsByUser
    requires exists r :: r in Resolve(interviews, candidates, u, f).found && r.user_id.None? && r.id !in f.failedWrites
    ensures var res := Resolve(interviews, candidates, u, f);
      var t := RepairedInterviews(interviews, res, u.id, f.failedWrites);
      var c := RepairedCandidates(candidates, res, u.id, f.failedWrites);
      Resolve(t, c, u, next).strategy == DirectLink
  {
    var res := Resolve(interviews, candidates, u, f);
    var t := RepairedInterviews(interviews, res, u.id, f.failedWrites);
    var c := RepairedCandidates(candidates, res, u.id, f.failedWrites);
    var r :| r in res.found && r.user_id.None? && r.id !in f.failedWrites;
    FoundAreRows(interviews, candidates, u, f);
    var k :| 0 <= k < |interviews| && interviews[k] == r;
    assert r.id in Unlinked(res.found) - f.failedWrites;
    assert t[k].user_id == Some(u.id);
    DirectLinkShortCircuits(t, c, u, next);
  }

  /**
   * A worked load: the user's email matches an unlinked candidate with one unlinked interview.
   * The email bridge wins, both rows are linked, and the next load takes the direct link.
   */
  lemma EmailBridgeScenario()
    ensures var i1 := InterviewRow("i1", 10, Some("c1"), Some("Ann Lee"), None, "Developer", "Scheduled", None, JNull);
      var c1 := CandidateRow("c1", Some("Ann Lee"), Some("ann@example.com"), None);
      var u := User("u1", Some("ann@example.com"));
      var res := Resolve([i1], [c1], u, NoFaults);
      var t := RepairedInterviews([i1], res, u.id, {});
      var c := RepairedCandidates([c1], res, u.id, {});
      && res == Resolution(EmailBridge, [i1], Some("c1"))
      && t == [i1.(user_id := Some("u1"))]
      && c == [c1.(user_id := Some("u1"))]
      && Resolve(t, c, u, NoFaults) == Resolution(DirectLink, t, None)
  {
    var i1 := InterviewRow("i1", 10, Some("c1"), Some("Ann Lee"), None, "Developer", "Scheduled", None, JNull);
    var c1 := CandidateRow("c1", Some("Ann Lee"), Some("ann@example.com"), None);
    var u := User("u1", Some("ann@example.com"));
    assert InterviewsOfUser([i1], u.id) == [];
    assert CandidatesOfUser([c1], u.id) == [];
    assert CandidatesWithEmail([c1], "ann@example.com") == [c1];
    assert InterviewsOfCandidate([i1], "c1") == [i1];
    var res := Resolve([i1], [c1], u, NoFaults);
    assert res == Resolution(EmailBridge, [i1], Some("c1"));
    assert Unlinked([i1]) == {"i1"};
    var t := RepairedInterviews([i1], res, u.id, {});
    assert t == [i1.(user_id := Some("u1"))];
    assert InterviewsOfUser(t, u.id) == t;
  }

  /**
   * The email bridge does not check who owns the candidate: a candidate already linked to
   * another account keeps that link, yet its unlinked interviews are linked to this user.
   */
  lemma EmailBridgeIgnoresOwner()
    ensures var i1 := InterviewRow("i1", 10, Some("c1"), None, None, "Developer", "Scheduled", None, JNull);
      var c1 := CandidateRow("c1", None, Some("ann@example.com"), Some("u2"));
      var u := User("u1", Some("ann@example.com"));
      var res := Resolve([i1], [c1], u, NoFaults);
      && res == Resolution(EmailBridge, [i1], None)
      && RepairedInterviews([i1], res, u.id, {}) == [i1.(user_id := Some("u1"))]
      && RepairedCandidates([c1], res, u.id, {}) == [c1]
  {
    var i1 := InterviewRow("i1", 10, Some("c1"), None, None, "Developer", "Scheduled", None, JNull);
    var c1 := CandidateRow("c1", None, Some("ann@example.com"), Some("u2"));
    var u := User("u1", Some("ann@example.com"));
    assert InterviewsOfUser([i1], u.id) == [];
    assert CandidatesOfUser([c1], u.id) == [];
    assert CandidatesWithEmail([c1], "ann@example.com") == [c1];
    assert InterviewsOfCandidate([i1], "c1") == [i1];
    assert Unlinked([i1]) == {"i1"};
  }
}
