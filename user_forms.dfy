/** The `clean_*` validators and `clean` of `SignupForm` in apps/users/forms.py.
    Each sees the value the field's own library validation left in
    `cleaned_data`; the role is the raw submitted `role` value. A validator
    either returns its value or raises `ValidationError`. */
module SignupForm {
  import opened Common
  import opened Exceptions
  import opened Text
  import opened UserModel
  import opened Dto
  import SignupService

  /** `clean_email`: an email already in the user table is refused. */
  function CleanEmail(us: seq<User>, email: string): (r: Result<string, ExcClass>)
    ensures r.Success? <==> !EmailTaken(us, email)
    ensures r.Success? ==> r.value == email
    ensures r.Failure? ==> r.error == DjangoValidationError
  {
    if EmailTaken(us, email) then Failure(DjangoValidationError) else Success(email)
  }

  /** `clean_contact`: a contact already in the user table is refused. */
  function CleanContact(us: seq<User>, contact: string): (r: Result<string, ExcClass>)
    ensures r.Success? <==> !ContactTaken(us, contact)
    ensures r.Success? ==> r.value == contact
    ensures r.Failure? ==> r.error == DjangoValidationError
  {
    if ContactTaken(us, contact) then Failure(DjangoValidationError) else Success(contact)
  }

  predicate HasLetter(s: string)
  {
    exists k :: 0 <= k < |s| && IsLetter(s[k])
  }

  predicate HasDigit(s: string)
  {
    exists k :: 0 <= k < |s| && IsDigit(s[k])
  }

  /** `clean_password`: at least 8 characters, then a letter and a digit. */
  function CleanPassword(password: string): Result<string, ExcClass>
  {
    if |password| < 8 then Failure(DjangoValidationError)
    else if !HasLetter(password) || !HasDigit(password) then Failure(DjangoValidationError)
    else Success(password)
  }

  /** A password is accepted exactly when it is 8 characters or longer and has
      an ASCII letter and a digit; it is returned unchanged. */
  lemma CleanPasswordSpec(password: string)
    ensures CleanPassword(password).Success? <==>
      |password| >= 8 && (exists k :: 0 <= k < |password| && IsLetter(password[k]))
                      && (exists k :: 0 <= k < |password| && IsDigit(password[k]))
    ensures CleanPassword(password).Success? ==> CleanPassword(password).value == password
    ensures CleanPassword(password).Failure? ==> CleanPassword(password).error == DjangoValidationError
  {
  }

  /** The examples of the form's tests: `Password123` passes, `Pass1` is too
      short and `onlyletters` has no digit. */
  lemma CleanPasswordExamples()
    ensures CleanPassword("Password123").Success?
    ensures CleanPassword("Pass1").Failure?
    ensures CleanPassword("onlyletters").Failure?
  {
    var p := "Password123";
    assert IsLetter(p[0]) && IsDigit(p[8]);
    var q := "onlyletters";
    assert forall k :: 0 <= k < |q| ==> !IsDigit(q[k]);
  }

  /** `^\d{3}-\d{2}-\d{5}$` on a value `CharField` has already stripped, so the
      `$` before a final newline cannot arise. */
  predicate IsBusinessNumber(s: string)
  {
    && |s| == 12 && s[3] == '-' && s[6] == '-'
    && (forall k :: 0 <= k < 3 ==> IsDigit(s[k]))
    && (forall k :: 4 <= k < 6 ==> IsDigit(s[k]))
    && (forall k :: 7 <= k < 12 ==> IsDigit(s[k]))
  }

  /** Three digit groups joined by hyphens. */
  function FormatBusinessNumber(a: string, b: string, c: string): string
  {
    a + "-" + b + "-" + c
  }

  predicate DigitGroup(s: string, n: nat)
  {
    |s| == n && forall k :: 0 <= k < n ==> IsDigit(s[k])
  }

  /** The pattern accepts exactly the three-, two- and five-digit groups joined
      by hyphens, and the groups can be read back. */
  lemma BusinessNumberFormat(a: string, b: string, c: string)
    ensures IsBusinessNumber(FormatBusinessNumber(a, b, c)) <==>
      DigitGroup(a, 3) && DigitGroup(b, 2) && DigitGroup(c, 5)
    ensures var s := FormatBusinessNumber(a, b, c);
      DigitGroup(a, 3) && DigitGroup(b, 2) && DigitGroup(c, 5) ==>
        s[..3] == a && s[4..6] == b && s[7..] == c
  {
    var s := FormatBusinessNumber(a, b, c);
    if IsBusinessNumber(s) {
      // the two hyphens can only sit at positions 3 and 6
      HyphenPositions(s);
      assert s[|a|] == '-';
      assert s[|a| + |b| + 1] == '-';
    }
    if |a| == 3 && |b| == 2 {
      assert forall k :: 0 <= k < 3 ==> s[k] == a[k];
      assert forall k :: 4 <= k < 6 ==> s[k] == b[k - 4];
      assert forall k :: 7 <= k < |s| ==> s[k] == c[k - 7];
      assert s[..3] == a && s[4..6] == b && s[7..] == c;
    }
  }

  lemma HyphenPositions(s: string)
    requires IsBusinessNumber(s)
    ensures forall k :: 0 <= k < |s| && s[k] == '-' ==> k == 3 || k == 6
  {
  }

  /** Every accepted number is its own three groups, joined by hyphens. */
  lemma BusinessNumberSplits(s: string)
    requires IsBusinessNumber(s)
    ensures s == FormatBusinessNumber(s[..3], s[4..6], s[7..])
  {
  }

  /** `AdvertiserProfile.objects.filter(business_registration_number=...).exists()`. */
  predicate NumberRegistered(profiles: seq<AdvertiserProfile>, number: string)
  {
    exists k :: 0 <= k < |profiles| && profiles[k].businessRegistrationNumber == number
  }

  /** `clean_business_registration_number`. */
  function CleanBusinessRegistrationNumber(role: Role, number: string, profiles: seq<AdvertiserProfile>)
    : Result<string, ExcClass>
  {
    if role != Advertiser then Success(number)
    else if !Present(number) then Failure(DjangoValidationError)
    else if !IsBusinessNumber(number) then Failure(DjangoValidationError)
    else if NumberRegistered(profiles, number) then Failure(DjangoValidationError)
    else Success(number)
  }

  /** Other roles pass through unchecked; an advertiser's number must have the
      shape and must not be registered yet. */
  lemma CleanBusinessRegistrationNumberSpec(role: Role, number: string, profiles: seq<AdvertiserProfile>)
    ensures role != Advertiser ==> CleanBusinessRegistrationNumber(role, number, profiles) == Success(number)
    ensures role == Advertiser ==>
      (CleanBusinessRegistrationNumber(role, number, profiles).Success? <==>
        IsBusinessNumber(number) && !NumberRegistered(profiles, number))
    ensures CleanBusinessRegistrationNumber(role, number, profiles).Success? ==>
      CleanBusinessRegistrationNumber(role, number, profiles).value == number
  {
  }

  /** `today.year - birth.year - ((today.month, today.day) < (birth.month, birth.day))`. */
  function Age(birth: Date, today: Date): int
  {
    var beforeBirthday := today.month < birth.month || (today.month == birth.month && today.day < birth.day);
    today.year - birth.year - (if beforeBirthday then 1 else 0)
  }

  /** One is at least `n` years old exactly when the `n`th birthday, the same
      month and day `n` years on, is not after today. */
  lemma AgeIff(birth: Date, today: Date, n: int)
    ensures Age(birth, today) >= n <==> NotAfter(Date(birth.year + n, birth.month, birth.day), today)
  {
  }

  /** The minimum age of an influencer. */
  const MinimumAge := 14

  /** `clean_birth_date`. */
  function CleanBirthDate(role: Role, birth: Option<Date>, today: Date): Result<Option<Date>, ExcClass>
  {
    if role != Influencer then Success(birth)
    else if birth.None? then Failure(DjangoValidationError)
    else if Age(birth.value, today) < MinimumAge then Failure(DjangoValidationError)
    else Success(birth)
  }

  /** Other roles pass through unchecked; an influencer needs a birth date
      whose fourteenth birthday has come. */
  lemma CleanBirthDateSpec(role: Role, birth: Option<Date>, today: Date)
    ensures role != Influencer ==> CleanBirthDate(role, birth, today) == Success(birth)
    ensures role == Influencer ==>
      (CleanBirthDate(role, birth, today).Success? <==>
        birth.Some? && NotAfter(Date(birth.value.year + MinimumAge, birth.value.month, birth.value.day), today))
  {
    if birth.Some? {
      AgeIff(birth.value, today, MinimumAge);
    }
  }

  /** `clean_sns_link`: required for an influencer. */
  function CleanSnsLink(role: Role, link: string): (r: Result<string, ExcClass>)
    ensures r.Failure? <==> role == Influencer && !Present(link)
    ensures r.Success? ==> r.value == link
  {
    if role == Influencer && !Present(link) then Failure(DjangoValidationError) else Success(link)
  }

  /** `clean_company_name`: required for an advertiser. */
  function CleanCompanyName(role: Role, name: string): (r: Result<string, ExcClass>)
    ensures r.Failure? <==> role == Advertiser && !Present(name)
    ensures r.Success? ==> r.value == name
  {
    if role == Advertiser && !Present(name) then Failure(DjangoValidationError) else Success(name)
  }

  /** `clean_terms_agreed`. */
  function CleanTermsAgreed(agreed: bool): (r: Result<bool, ExcClass>)
    ensures r.Success? <==> agreed
  {
    if !agreed then Failure(DjangoValidationError) else Success(agreed)
  }

  /** `clean`: the two password fields as left in `cleaned_data` (`None` where
      a field failed). A mismatch is reported only when both are present. */
  function CleanPasswords(password: Option<string>, confirm: Option<string>): (r: Option<ExcClass>)
  {
    if password.Some? && Present(password.value) && confirm.Some? && Present(confirm.value)
       && password.value != confirm.value
    then Some(DjangoValidationError)
    else None
  }

  lemma CleanPasswordsSpec(password: Option<string>, confirm: Option<string>)
    ensures CleanPasswords(password, confirm).Some? <==>
      (exists p, c :: password == Some(p) && confirm == Some(c) && p != [] && c != [] && p != c)
    ensures password.None? || confirm.None? ==> CleanPasswords(password, confirm).None?
  {
    if CleanPasswords(password, confirm).Some? {
      assert password == Some(password.value) && confirm == Some(confirm.value);
    }
  }

  /** The submitted form after the fields' own validation: the values that
      reached `cleaned_data`. */
  datatype SignupInput = SignupInput(
    email: string, password: string, passwordConfirm: string, name: string,
    contact: string, role: Role, termsAgreed: bool, companyName: string,
    businessRegistrationNumber: string, birthDate: Option<Date>, snsLink: string)

  /** `form.is_valid()`: the required fields are filled, the role is one of the
      two choices, and no validator raises. */
  predicate IsValid(f: SignupInput, us: seq<User>, profiles: seq<AdvertiserProfile>, today: Date)
  {
    && Present(f.email) && Present(f.password) && Present(f.passwordConfirm)
    && Present(f.name) && Present(f.contact)
    && (f.role == Advertiser || f.role == Influencer)
    && CleanEmail(us, f.email).Success?
    && CleanContact(us, f.contact).Success?
    && CleanPassword(f.password).Success?
    && CleanBusinessRegistrationNumber(f.role, f.businessRegistrationNumber, profiles).Success?
    && CleanBirthDate(f.role, f.birthDate, today).Success?
    && CleanSnsLink(f.role, f.snsLink).Success?
    && CleanCompanyName(f.role, f.companyName).Success?
    && CleanTermsAgreed(f.termsAgreed).Success?
    && CleanPasswords(Some(f.password), Some(f.passwordConfirm)).None?
  }

  /** The record `SignupView.post` builds from the cleaned data. */
  function ToDto(f: SignupInput): SignupDto
  {
    SignupDto(f.email, f.password, f.name, f.contact, f.role,
              Some(f.companyName), Some(f.businessRegistrationNumber), f.birthDate, Some(f.snsLink))
  }

  /** A valid form's record never makes the signup service fail for a missing
      role field or an empty email: the call succeeds unless the normalised
      email is taken. The two passwords agree. */
  lemma ValidFormSignsUp(f: SignupInput, us: seq<User>, profiles: seq<AdvertiserProfile>, today: Date,
                         aps: seq<AdvertiserProfile>, ips: seq<InfluencerProfile>, id: nat)
    requires IsValid(f, us, profiles, today)
    ensures f.password == f.passwordConfirm
    ensures var r := SignupService.Signup(us, aps, ips, ToDto(f), id).result;
      r.Success? || (r == Failure(DuplicateActionException) && EmailTaken(us, NormalizeEmail(f.email)))
  {
    SignupService.SignupDuplicates(us, aps, ips, ToDto(f), id);
    if f.role == Advertiser {
      CleanBusinessRegistrationNumberSpec(f.role, f.businessRegistrationNumber, profiles);
    }
  }
}
