/** `SignupService.execute` of apps/users/services/signup_service.py: duplicate
    checks, then the user, then the profile of the chosen role, all inside one
    transaction. */
module SignupService {
  import opened Common
  import opened Exceptions
  import opened UserModel
  import opened Dto
  import opened Store
  import UserManager

  /** The result of a call and the three user tables afterwards. */
  datatype Outcome = Outcome(
    result: Result<User, ExcClass>,
    users: seq<User>,
    advertiserProfiles: seq<AdvertiserProfile>,
    influencerProfiles: seq<InfluencerProfile>)

  /** `not x` on an optional text field. */
  predicate Given(o: Option<string>)
  {
    o.Some? && Present(o.value)
  }

  function Fields(dto: SignupDto): UserManager.ExtraFields
  {
    UserManager.ExtraFields(dto.name, dto.contact, Some(dto.role), None, None)
  }

  /** The profile tables after step 3 for the new user `u`, or None when the
      role's required fields are missing (the ValueError). */
  function ProfileStep(aps: seq<AdvertiserProfile>, ips: seq<InfluencerProfile>, dto: SignupDto, u: User)
    : Option<(seq<AdvertiserProfile>, seq<InfluencerProfile>)>
  {
    if dto.role == Advertiser then
      if !Given(dto.companyName) || !Given(dto.businessRegistrationNumber) then None
      else Some((aps + [AdvertiserProfile(u.id, dto.companyName.value, dto.businessRegistrationNumber.value)], ips))
    else if dto.role == Influencer then
      if dto.birthDate.None? || !Given(dto.snsLink) then None
      else Some((aps, ips + [InfluencerProfile(u.id, dto.birthDate.value, dto.snsLink.value)]))
    else
      Some((aps, ips))
  }

  /** Steps 2 and 3, once the duplicate checks have passed: create the user,
      then the profile; a ValueError from the profile step rolls the user back. */
  function CreateWithProfile(us: seq<User>, aps: seq<AdvertiserProfile>, ips: seq<InfluencerProfile>,
                             dto: SignupDto, id: nat): Outcome
  {
    match UserManager.NewUser(us, dto.email, dto.password, Fields(dto), id)
    case Failure(e) => Outcome(Failure(e), us, aps, ips)
    case Success(u) =>
      match ProfileStep(aps, ips, dto, u)
      case None => Outcome(Failure(ValueError), us, aps, ips)
      case Some(tables) => Outcome(Success(u), us + [u], tables.0, tables.1)
  }

  /** The service as written: the duplicate check compares the email as given,
      while `create_user` stores it normalised. */
  function SignupAsWritten(us: seq<User>, aps: seq<AdvertiserProfile>, ips: seq<InfluencerProfile>,
                           dto: SignupDto, id: nat): Outcome
  {
    if EmailTaken(us, dto.email) then Outcome(Failure(DuplicateActionException), us, aps, ips)
    else if ContactTaken(us, dto.contact) then Outcome(Failure(DuplicateActionException), us, aps, ips)
    else CreateWithProfile(us, aps, ips, dto, id)
  }

  /** An email that differs from a stored one only in the case of its domain
      passes the duplicate check and then violates the unique column: the call
      ends in IntegrityError, not DuplicateActionException. */
  lemma AsWrittenDomainCaseSlipsThrough()
    ensures var stored := User(1, "a@b", "pw", "A", "1", Influencer, true, false, false);
      var dto := SignupDto("a@B", "pw", "B", "2", Influencer, None, None, Some(Date(2000, 1, 1)), Some("s"));
      && !EmailTaken([stored], dto.email)
      && SignupAsWritten([stored], [], [], dto, 2).result == Failure(IntegrityError)
  {
    var stored := User(1, "a@b", "pw", "A", "1", Influencer, true, false, false);
    var email: string := "a@B";
    assert LastAt(email[..2]) == Some(1);
    assert LastAt(email) == Some(1);
    assert email[..2] + Lower(email[2..]) == "a@b";
    assert NormalizeEmail(email) == "a@b";
    assert [stored][0].email == NormalizeEmail(email);
  }

  /** The service with the duplicate check on the email `create_user` will
      store. */
  function Signup(us: seq<User>, aps: seq<AdvertiserProfile>, ips: seq<InfluencerProfile>,
                  dto: SignupDto, id: nat): Outcome
  {
    if EmailTaken(us, NormalizeEmail(dto.email)) then Outcome(Failure(DuplicateActionException), us, aps, ips)
    else if ContactTaken(us, dto.contact) then Outcome(Failure(DuplicateActionException), us, aps, ips)
    else CreateWithProfile(us, aps, ips, dto, id)
  }

  /** A taken email is reported before a taken contact, both as a duplicate
      action, and the unique columns can no longer be violated. */
  lemma SignupDuplicates(us: seq<User>, aps: seq<AdvertiserProfile>, ips: seq<InfluencerProfile>, dto: SignupDto, id: nat)
    ensures Signup(us, aps, ips, dto, id).result == Failure(DuplicateActionException) <==>
      EmailTaken(us, NormalizeEmail(dto.email)) || ContactTaken(us, dto.contact)
    ensures Signup(us, aps, ips, dto, id).result != Failure(IntegrityError)
    ensures NormalizedEmails(us) && EmailTaken(us, dto.email) ==>
      Signup(us, aps, ips, dto, id).result == Failure(DuplicateActionException)
  {
    if NormalizedEmails(us) && EmailTaken(us, dto.email) {
      var k :| 0 <= k < |us| && us[k].email == dto.email;
      assert us[k].email == NormalizeEmail(dto.email);
    }
  }

  /** Over a table of normalised emails, the service as written and the
      corrected one part only where the code as written ends in IntegrityError:
      there the corrected check reports the duplicate and changes nothing. */
  lemma AsWrittenAgreesWithCorrected(us: seq<User>, aps: seq<AdvertiserProfile>, ips: seq<InfluencerProfile>,
                                     dto: SignupDto, id: nat)
    requires NormalizedEmails(us)
    ensures SignupAsWritten(us, aps, ips, dto, id).result != Failure(IntegrityError) ==>
      SignupAsWritten(us, aps, ips, dto, id) == Signup(us, aps, ips, dto, id)
    ensures SignupAsWritten(us, aps, ips, dto, id).result == Failure(IntegrityError) ==>
      Signup(us, aps, ips, dto, id) == Outcome(Failure(DuplicateActionException), us, aps, ips)
  {
    if EmailTaken(us, dto.email) {
      var k :| 0 <= k < |us| && us[k].email == dto.email;
      assert us[k].email == NormalizeEmail(dto.email);
    }
  }

  /** A failed call leaves the three tables as they were; which role fields are
      missing decides the ValueError. */
  lemma SignupAllOrNothing(us: seq<User>, aps: seq<AdvertiserProfile>, ips: seq<InfluencerProfile>, dto: SignupDto, id: nat)
    ensures var o := Signup(us, aps, ips, dto, id);
      o.result.Failure? ==> o.users == us && o.advertiserProfiles == aps && o.influencerProfiles == ips
    ensures (!EmailTaken(us, NormalizeEmail(dto.email)) && !ContactTaken(us, dto.contact) && dto.email != []) ==>
      (Signup(us, aps, ips, dto, id).result == Failure(ValueError) <==>
        (dto.role == Advertiser && (!Given(dto.companyName) || !Given(dto.businessRegistrationNumber)))
        || (dto.role == Influencer && (dto.birthDate.None? || !Given(dto.snsLink))))
  {
  }

  /** A successful call adds one user with the record's fields and exactly one
      profile of the user's role: none for another role. */
  lemma SignupSuccess(us: seq<User>, aps: seq<AdvertiserProfile>, ips: seq<InfluencerProfile>, dto: SignupDto, id: nat)
    requires Signup(us, aps, ips, dto, id).result.Success?
    ensures var o := Signup(us, aps, ips, dto, id);
      var u := o.result.value;
      && o.users == us + [u]
      && u.id == id && u.email == NormalizeEmail(dto.email) && u.password == dto.password
      && u.name == dto.name && u.contact == dto.contact && u.role == dto.role
      && u.isActive && !u.isStaff && !u.isSuperuser
      && (dto.role == Advertiser ==>
            o.advertiserProfiles == aps + [AdvertiserProfile(id, dto.companyName.value, dto.businessRegistrationNumber.value)]
            && o.influencerProfiles == ips)
      && (dto.role == Influencer ==>
            o.influencerProfiles == ips + [InfluencerProfile(id, dto.birthDate.value, dto.snsLink.value)]
            && o.advertiserProfiles == aps)
      && (dto.role.OtherRole? ==> o.advertiserProfiles == aps && o.influencerProfiles == ips)
  {
    UserManager.NewUserSpec(us, dto.email, dto.password, Fields(dto), id);
  }

  /** Appending the profile of a user newer than every profiled one keeps the
      one-to-one key. */
  lemma AppendAdvertiserProfile(ps: seq<AdvertiserProfile>, p: AdvertiserProfile)
    requires AdvertiserProfilesKeyed(ps) && forall k :: 0 <= k < |ps| ==> ps[k].user < p.user
    ensures AdvertiserProfilesKeyed(ps + [p])
    ensures forall k :: 0 <= k < |ps + [p]| ==> (ps + [p])[k].user < p.user + 1
  {
  }

  lemma AppendInfluencerProfile(ps: seq<InfluencerProfile>, p: InfluencerProfile)
    requires InfluencerProfilesKeyed(ps) && forall k :: 0 <= k < |ps| ==> ps[k].user < p.user
    ensures InfluencerProfilesKeyed(ps + [p])
    ensures forall k :: 0 <= k < |ps + [p]| ==> (ps + [p])[k].user < p.user + 1
  {
  }

  /** The service, with the duplicate check on the normalised email (`Signup`);
      `AsWrittenAgreesWithCorrected` relates it to the code as written. The
      transaction is the restoring of the user table when the profile step
      fails. */
  method Execute(db: Database, dto: SignupDto) returns (r: Result<User, ExcClass>)
    requires db.Valid()
    modifies db`users, db`nextUserId, db`advertiserProfiles, db`influencerProfiles
    ensures db.Valid()
    ensures var o := Signup(old(db.users), old(db.advertiserProfiles), old(db.influencerProfiles), dto, old(db.nextUserId));
      && r == o.result
      && db.users == o.users && db.advertiserProfiles == o.advertiserProfiles
      && db.influencerProfiles == o.influencerProfiles
    ensures db.nextUserId == old(db.nextUserId) + (if r.Success? then 1 else 0)
  {
    if EmailTaken(db.users, NormalizeEmail(dto.email)) {
      return Failure(DuplicateActionException);
    }
    if ContactTaken(db.users, dto.contact) {
      return Failure(DuplicateActionException);
    }
    var savedUsers, savedNext := db.users, db.nextUserId;
    var created := UserManager.CreateUser(db, dto.email, dto.password, Fields(dto));
    if created.Failure? {
      return created;
    }
    var ok := AttachProfile(db, dto, created.value);
    if !ok {
      db.users, db.nextUserId := savedUsers, savedNext;
      return Failure(ValueError);
    }
    r := created;
  }

  /** Step 3 for the user just created: append the role's profile, or report
      that its fields are missing and change nothing. */
  method AttachProfile(db: Database, dto: SignupDto, user: User) returns (ok: bool)
    requires db.Valid() && user.id + 1 == db.nextUserId
    requires forall k :: 0 <= k < |db.advertiserProfiles| ==> db.advertiserProfiles[k].user < user.id
    requires forall k :: 0 <= k < |db.influencerProfiles| ==> db.influencerProfiles[k].user < user.id
    modifies db`advertiserProfiles, db`influencerProfiles
    ensures db.Valid()
    ensures var step := ProfileStep(old(db.advertiserProfiles), old(db.influencerProfiles), dto, user);
      && ok == step.Some?
      && (ok ==> db.advertiserProfiles == step.value.0 && db.influencerProfiles == step.value.1)
      && (!ok ==> db.advertiserProfiles == old(db.advertiserProfiles)
                  && db.influencerProfiles == old(db.influencerProfiles))
  {
    ok := true;
    if dto.role == Advertiser {
      if !Given(dto.companyName) || !Given(dto.businessRegistrationNumber) {
        return false;
      }
      AddAdvertiserProfile(db, AdvertiserProfile(user.id, dto.companyName.value, dto.businessRegistrationNumber.value));
    } else if dto.role == Influencer {
      if dto.birthDate.None? || !Given(dto.snsLink) {
        return false;
      }
      AddInfluencerProfile(db, InfluencerProfile(user.id, dto.birthDate.value, dto.snsLink.value));
    }
  }

  /** `AdvertiserProfile.objects.create` for a user without a profile. */
  method AddAdvertiserProfile(db: Database, p: AdvertiserProfile)
    requires db.Valid() && p.user + 1 == db.nextUserId
    requires forall k :: 0 <= k < |db.advertiserProfiles| ==> db.advertiserProfiles[k].user < p.user
    modifies db`advertiserProfiles
    ensures db.Valid()
    ensures db.advertiserProfiles == old(db.advertiserProfiles) + [p]
  {
    AppendAdvertiserProfile(db.advertiserProfiles, p);
    db.advertiserProfiles := db.advertiserProfiles + [p];
  }

  /** `InfluencerProfile.objects.create` for a user without a profile. */
  method AddInfluencerProfile(db: Database, p: InfluencerProfile)
    requires db.Valid() && p.user + 1 == db.nextUserId
    requires forall k :: 0 <= k < |db.influencerProfiles| ==> db.influencerProfiles[k].user < p.user
    modifies db`influencerProfiles
    ensures db.Valid()
    ensures db.influencerProfiles == old(db.influencerProfiles) + [p]
  {
    AppendInfluencerProfile(db.influencerProfiles, p);
    db.influencerProfiles := db.influencerProfiles + [p];
  }
}
