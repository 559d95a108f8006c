/**
 * The display-name rule every screen repeats: `${first || ''} ${last || ''}`.trim(), followed by
 * a screen-specific fallback when the result is empty.
 */
module Names {
  import opened Wrappers
  import opened Text

  /** Placeholders the screens show when no name is known. */
  const UnknownCandidate := "Unknown Candidate"
  const Unnamed := "Unnamed"
  const UnnamedInterviewer := "Unnamed Interviewer"

  /** A first and a last name joined by one space, trimmed; a missing part counts as empty. */
  function JoinNames(first: Option<string>, last: Option<string>): string {
    Trim(OrEmpty(first) + " " + OrEmpty(last))
  }

  /** Neither part has anything but white space. */
  predicate NoName(first: Option<string>, last: Option<string>) {
    IsBlank(OrEmpty(first)) && IsBlank(OrEmpty(last))
  }

  /** The joined name is empty exactly when neither part has a visible character. */
  lemma JoinNamesEmptyIff(first: Option<string>, last: Option<string>)
    ensures JoinNames(first, last) == "" <==> NoName(first, last)
  {
    TrimJoinEmptyIff(OrEmpty(first), OrEmpty(last));
  }

  /** The joined name has no white space at its ends and is its own trim. */
  lemma JoinNamesTrimmed(first: Option<string>, last: Option<string>)
    ensures var r := JoinNames(first, last);
      && (r == [] || (!IsSpace(r[0]) && !IsSpace(r[|r| - 1])))
      && Trim(r) == r
  {
    var joined := OrEmpty(first) + " " + OrEmpty(last);
    TrimHasNoEdgeSpace(joined);
    TrimIdempotent(joined);
  }

  /** A non-empty joined name is not blank. */
  lemma JoinNamesNotBlank(first: Option<string>, last: Option<string>)
    requires JoinNames(first, last) != ""
    ensures !IsBlank(JoinNames(first, last))
  {
    JoinNamesTrimmed(first, last);
  }

  /** Two names without white space at their ends are joined as they are. */
  lemma {:induction false} JoinCleanNames(first: string, last: string)
    requires first != [] && !IsSpace(first[0]) && !IsSpace(first[|first| - 1])
    requires last != [] && !IsSpace(last[0]) && !IsSpace(last[|last| - 1])
    ensures JoinNames(Some(first), Some(last)) == first + " " + last
  {
    var j := first + " " + last;
    assert j[0] == first[0] && j[|j| - 1] == last[|last| - 1];
    TrimOfTrimmed(j);
  }

  /** The name both interview dialogs show for a candidate: the joined name, else the email. */
  function NameOrEmail(first: Option<string>, last: Option<string>, email: string): string {
    Or(JoinNames(first, last), email)
  }

  /** The dialogs show the candidate's name when it has one, and the email otherwise. */
  lemma NameOrEmailChoice(first: Option<string>, last: Option<string>, email: string)
    ensures !NoName(first, last) ==> NameOrEmail(first, last, email) == JoinNames(first, last)
    ensures NoName(first, last) ==> NameOrEmail(first, last, email) == email
  {
    JoinNamesEmptyIff(first, last);
  }
}
