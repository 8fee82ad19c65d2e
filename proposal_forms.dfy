/** The validators of `ProposalCreateForm` in apps/proposals/forms.py. Each
    takes the value it reads from `cleaned_data` (`None` when absent). */
module ProposalForm {
  import opened Common
  import opened Exceptions
  import opened Text

  /** The longest cover letter accepted. */
  const MaxCoverLetter := 500

  /** `clean_cover_letter`: an absent, empty or all-whitespace letter and one
      over 500 characters are refused (the length is that of the value it
      reads, before its own strip); the stripped letter is kept. */
  function CleanCoverLetter(letter: Option<string>): Result<string, ExcClass>
  {
    if letter.None? || letter.value == [] || Strip(letter.value) == [] then Failure(DjangoValidationError)
    else if |letter.value| > MaxCoverLetter then Failure(DjangoValidationError)
    else Success(Strip(letter.value))
  }

  /** A letter is accepted exactly when it is present, holds a non-whitespace
      character and is at most 500 characters long; what is kept is its
      stripped form, which has no surrounding whitespace and is a stretch of
      the letter, so it also fits in 500 characters. */
  lemma CleanCoverLetterSpec(letter: Option<string>)
    ensures CleanCoverLetter(letter).Success? <==>
      letter.Some? && (exists k :: 0 <= k < |letter.value| && !IsSpace(letter.value[k]))
      && |letter.value| <= MaxCoverLetter
    ensures CleanCoverLetter(letter).Failure? ==> CleanCoverLetter(letter).error == DjangoValidationError
    ensures CleanCoverLetter(letter).Success? ==>
      var t := CleanCoverLetter(letter).value;
      t != [] && Trimmed(t) && |t| <= MaxCoverLetter
  {
    if letter.Some? {
      StripEmptyIff(letter.value);
      StripIsTrimmed(letter.value);
      StripIsInfix(letter.value, LeadingSpaces(letter.value), KeptLength(StripLeft(letter.value)));
    }
  }

  /** Cleaning an accepted letter a second time changes nothing. */
  lemma CleanCoverLetterIdempotent(letter: Option<string>)
    requires CleanCoverLetter(letter).Success?
    ensures CleanCoverLetter(Some(CleanCoverLetter(letter).value)) == CleanCoverLetter(letter)
  {
    CleanCoverLetterSpec(letter);
    StripIdempotent(letter.value);
  }

  /** The value in `cleaned_data` is the one the `CharField` has already
      stripped. For such a letter the limit is inclusive: 500 characters pass
      and the letter is kept as it is, while 501 characters fail. */
  lemma CoverLetterBoundary(letter: string, c: char)
    requires |letter| == MaxCoverLetter && Trimmed(letter) && !IsSpace(c)
    ensures CleanCoverLetter(Some(letter)) == Success(letter)
    ensures Trimmed(letter + [c]) && CleanCoverLetter(Some(letter + [c])).Failure?
  {
    CleanCoverLetterSpec(Some(letter));
    StripTrimmed(letter);
    var l := letter + [c];
    assert l[0] == letter[0] && l[|l| - 1] == c;
    CleanCoverLetterSpec(Some(l));
  }

  /** `clean_desired_visit_date`: an absent date and one before today are
      refused; today itself is allowed. */
  function CleanVisitDate(visit: Option<Date>, today: Date): (r: Result<Date, ExcClass>)
    ensures r.Success? <==> visit.Some? && NotAfter(today, visit.value)
    ensures r.Success? ==> r.value == visit.value
    ensures r.Failure? ==> r.error == DjangoValidationError
  {
    DateTrichotomy(today, if visit.Some? then visit.value else today);
    if visit.None? then Failure(DjangoValidationError)
    else if Before(visit.value, today) then Failure(DjangoValidationError)
    else Success(visit.value)
  }
}
