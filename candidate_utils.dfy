/**
 * Preparing the merged candidates for the scheduling form: each gets a display name, and the
 * list offered for selection keeps only the candidates with a real name, falling back to the
 * whole list when none has one.
 */
module CandidateUtils {
  import opened Wrappers
  import opened Text
  import opened Seqs
  import opened Records
  import opened Names

  /** A candidate as the scheduling form lists it. */
  datatype FormCandidate = FormCandidate(
    id: Id,
    name: string,
    email: string,
    user_id: Option<Id>,
    first_name: string,
    last_name: string)

  /** The profile name when the candidate has a first or last name, else the stored name. */
  function ProfileOrStoredName(c: Candidate): string {
    if Truthy(c.first_name) || Truthy(c.last_name) then JoinNames(c.first_name, c.last_name) else c.name
  }

  /** One entry of `formatCandidatesForForm`. */
  function FormatCandidate(c: Candidate): (r: FormCandidate)
    ensures r.id == c.id && r.user_id == c.user_id && r.email == c.email
    ensures r.first_name == OrEmpty(c.first_name) && r.last_name == OrEmpty(c.last_name)
    ensures r.name != ""
    ensures ProfileOrStoredName(c) != "" ==> r.name == ProfileOrStoredName(c)
    ensures ProfileOrStoredName(c) == "" && c.email != "" ==> r.name == c.email
    ensures ProfileOrStoredName(c) == "" && c.email == "" ==> r.name == UnknownCandidate
  {
    FormCandidate(c.id, Or(Or(ProfileOrStoredName(c), c.email), UnknownCandidate), c.email, c.user_id,
                  OrEmpty(c.first_name), OrEmpty(c.last_name))
  }

  /** `formatCandidatesForForm`: one entry per candidate, in order. */
  function FormatCandidates(cs: seq<Candidate>): (r: seq<FormCandidate>)
    ensures |r| == |cs|
    ensures forall k :: 0 <= k < |cs| ==> r[k] == FormatCandidate(cs[k])
  {
    seq(|cs|, k requires 0 <= k < |cs| => FormatCandidate(cs[k]))
  }

  /** The test `getValidCandidates` applies to one entry. */
  predicate HasRealName(c: FormCandidate) {
    c.name != "" && c.name != UnknownCandidate && Trim(c.name) != ""
  }

  /** `getValidCandidates`: the entries with a real name, in order. */
  function ValidCandidates(fs: seq<FormCandidate>): (r: seq<FormCandidate>)
    ensures IsSubsequence(r, fs)
    ensures forall c :: c in r <==> c in fs && HasRealName(c)
  {
    Filter(fs, HasRealName)
  }

  /** The list the scheduling form offers: the valid entries, or all of them when none is valid. */
  function SelectableCandidates(fs: seq<FormCandidate>): seq<FormCandidate> {
    var valid := ValidCandidates(fs);
    if |valid| > 0 then valid else fs
  }

  /** A real name is exactly a non-blank name other than the placeholder. */
  lemma HasRealNameIff(c: FormCandidate)
    ensures HasRealName(c) <==> !IsBlank(c.name) && c.name != UnknownCandidate
  {
    TrimEmptyIff(c.name);
  }

  /** Validating twice keeps the same entries. */
  lemma ValidCandidatesIdempotent(fs: seq<FormCandidate>)
    ensures ValidCandidates(ValidCandidates(fs)) == ValidCandidates(fs)
  {
    FilterIdempotent(fs, HasRealName);
  }

  /**
   * The form never offers an empty list when there are candidates; it offers only candidates
   * with a real name unless there is none, and then it offers every candidate.
   */
  lemma SelectableCandidatesShape(fs: seq<FormCandidate>)
    ensures var s := SelectableCandidates(fs);
      && (fs != [] ==> s != [])
      && IsSubsequence(s, fs)
      && ((forall c :: c in s ==> HasRealName(c)) || s == fs)
      && (s == fs || exists c :: c in fs && !HasRealName(c))
      && ((exists c :: c in fs && HasRealName(c)) ==> forall c :: c in s ==> HasRealName(c))
  {
    var valid := ValidCandidates(fs);
    FilterEmptyIff(fs, HasRealName);
    if exists c :: c in fs && HasRealName(c) {
      var c :| c in fs && HasRealName(c);
      assert c in valid;
    }
    if valid != [] && valid != fs {
      FilterOmitsSome(fs, HasRealName);
    }
    IsSubsequenceRefl(fs);
  }

  /**
   * A candidate whose profile name is neither blank nor the placeholder is listed under that
   * name and is always offered.
   */
  lemma ProfileNamedCandidateIsOffered(cs: seq<Candidate>, k: nat)
    requires k < |cs|
    requires Truthy(cs[k].first_name) || Truthy(cs[k].last_name)
    requires !NoName(cs[k].first_name, cs[k].last_name)
    requires JoinNames(cs[k].first_name, cs[k].last_name) != UnknownCandidate
    ensures var f := FormatCandidates(cs)[k];
      && f.name == JoinNames(cs[k].first_name, cs[k].last_name)
      && f in SelectableCandidates(FormatCandidates(cs))
  {
    var fs := FormatCandidates(cs);
    var f := fs[k];
    JoinNamesEmptyIff(cs[k].first_name, cs[k].last_name);
    JoinNamesNotBlank(cs[k].first_name, cs[k].last_name);
    HasRealNameIff(f);
    assert f in fs && HasRealName(f);
    assert f in ValidCandidates(fs);
  }
}
