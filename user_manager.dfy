/** `UserManager` of apps/users/models.py: `create_user` and `create_superuser`,
    with the table's unique email and contact columns enforced on save. */
module UserManager {
  import opened Common
  import opened Exceptions
  import opened UserModel
  import opened Store

  /** The keyword arguments after `email` and `password`; `None` where the caller
      passes nothing, so that the model fields' defaults apply. */
  datatype ExtraFields = ExtraFields(
    name: string, contact: string, role: Option<Role>,
    isStaff: Option<bool>, isSuperuser: Option<bool>)

  function OrElse<T>(o: Option<T>, d: T): T
  {
    if o.Some? then o.value else d
  }

  /** `self.model(email=normalize_email(email), **extra_fields)`: `is_active`
      defaults to true, `is_staff` and `is_superuser` to false, and a missing
      role is the empty text. */
  function Build(email: string, password: string, extra: ExtraFields, id: nat): User
  {
    User(id, NormalizeEmail(email), password, extra.name, extra.contact,
         OrElse(extra.role, OtherRole("")), true,
         OrElse(extra.isStaff, false), OrElse(extra.isSuperuser, false))
  }

  /** What `create_user` returns for a table `us` and the next free id. */
  function NewUser(us: seq<User>, email: string, password: string, extra: ExtraFields, id: nat)
    : Result<User, ExcClass>
  {
    if email == [] then Failure(ValueError)
    else
      var u := Build(email, password, extra, id);
      if EmailTaken(us, u.email) || ContactTaken(us, u.contact) then Failure(IntegrityError)
      else Success(u)
  }

  /** An empty email is a ValueError; a normalised email or a contact already in
      the table violates a unique column; otherwise the call succeeds, and the
      new user carries the normalised email and the given fields, is active,
      and keeps both columns unique. */
  lemma NewUserSpec(us: seq<User>, email: string, password: string, extra: ExtraFields, id: nat)
    ensures NewUser(us, email, password, extra, id) == Failure(ValueError) <==> email == []
    ensures email != [] && (EmailTaken(us, NormalizeEmail(email)) || ContactTaken(us, extra.contact)) ==>
      NewUser(us, email, password, extra, id) == Failure(IntegrityError)
    ensures email != [] && !EmailTaken(us, NormalizeEmail(email)) && !ContactTaken(us, extra.contact) ==>
      NewUser(us, email, password, extra, id).Success?
    ensures NewUser(us, email, password, extra, id).Success? ==>
      var u := NewUser(us, email, password, extra, id).value;
      && u.id == id && u.email == NormalizeEmail(email) && u.password == password
      && u.name == extra.name && u.contact == extra.contact
      && u.isActive
      && (extra.role.Some? ==> u.role == extra.role.value)
      && (extra.isStaff.None? ==> !u.isStaff) && (extra.isSuperuser.None? ==> !u.isSuperuser)
      && (extra.isStaff.Some? ==> u.isStaff == extra.isStaff.value)
      && (extra.isSuperuser.Some? ==> u.isSuperuser == extra.isSuperuser.value)
      && (UniqueEmails(us) ==> UniqueEmails(us + [u]))
      && (UniqueContacts(us) ==> UniqueContacts(us + [u]))
  {
    if NewUser(us, email, password, extra, id).Success? {
      var u := NewUser(us, email, password, extra, id).value;
      AppendKeepsUnique(us, u);
    }
  }

  /** A user whose email and contact are new keeps both columns unique. */
  lemma {:induction false} AppendKeepsUnique(us: seq<User>, u: User)
    requires !EmailTaken(us, u.email) && !ContactTaken(us, u.contact)
    ensures UniqueEmails(us) ==> UniqueEmails(us + [u])
    ensures UniqueContacts(us) ==> UniqueContacts(us + [u])
  {
    var vs := us + [u];
    forall i, j | 0 <= i < j < |vs| && j == |us| ensures vs[i].email != vs[j].email && vs[i].contact != vs[j].contact {
      assert vs[i] == us[i];
    }
  }

  /** The three `setdefault` calls of `create_superuser`. */
  function SuperuserFields(extra: ExtraFields): ExtraFields
  {
    extra.(isStaff := Some(OrElse(extra.isStaff, true)),
           isSuperuser := Some(OrElse(extra.isSuperuser, true)),
           role := Some(OrElse(extra.role, Advertiser)))
  }

  /** What `create_superuser` returns. */
  function NewSuperuser(us: seq<User>, email: string, password: string, extra: ExtraFields, id: nat)
    : Result<User, ExcClass>
  {
    var f := SuperuserFields(extra);
    if f.isStaff != Some(true) then Failure(ValueError)
    else if f.isSuperuser != Some(true) then Failure(ValueError)
    else NewUser(us, email, password, f, id)
  }

  /** Left unset, `is_staff` and `is_superuser` become true and the role becomes
      advertiser; an explicit false for either is a ValueError before anything
      else is looked at. */
  lemma NewSuperuserSpec(us: seq<User>, email: string, password: string, extra: ExtraFields, id: nat)
    ensures (extra.isStaff == Some(false) || extra.isSuperuser == Some(false)) ==>
      NewSuperuser(us, email, password, extra, id) == Failure(ValueError)
    ensures NewSuperuser(us, email, password, extra, id).Success? ==>
      var u := NewSuperuser(us, email, password, extra, id).value;
      && u.isStaff && u.isSuperuser && u.isActive
      && (extra.role.None? ==> u.role == Advertiser)
      && (extra.role.Some? ==> u.role == extra.role.value)
    ensures extra.isStaff != Some(false) && extra.isSuperuser != Some(false) ==>
      NewSuperuser(us, email, password, extra, id) == NewUser(us, email, password, SuperuserFields(extra), id)
  {
  }

  /** `create_user`: validate, normalise, save. */
  method CreateUser(db: Database, email: string, password: string, extra: ExtraFields)
    returns (r: Result<User, ExcClass>)
    requires db.Valid()
    modifies db`users, db`nextUserId
    ensures db.Valid()
    ensures r == NewUser(old(db.users), email, password, extra, old(db.nextUserId))
    ensures r.Success? ==> db.users == old(db.users) + [r.value] && db.nextUserId == old(db.nextUserId) + 1
    ensures r.Failure? ==> db.users == old(db.users) && db.nextUserId == old(db.nextUserId)
  {
    if email == [] {
      return Failure(ValueError);
    }
    var user := Build(email, password, extra, db.nextUserId);
    if EmailTaken(db.users, user.email) || ContactTaken(db.users, user.contact) {
      return Failure(IntegrityError);
    }
    AppendKeepsUnique(db.users, user);
    NormalizeEmailIdempotent(email);
    db.users := db.users + [user];
    db.nextUserId := db.nextUserId + 1;
    r := Success(user);
  }

  /** `create_superuser`: fill in the defaults, check them, then `create_user`. */
  method CreateSuperuser(db: Database, email: string, password: string, extra: ExtraFields)
    returns (r: Result<User, ExcClass>)
    requires db.Valid()
    modifies db`users, db`nextUserId
    ensures db.Valid()
    ensures r == NewSuperuser(old(db.users), email, password, extra, old(db.nextUserId))
    ensures r.Success? ==> db.users == old(db.users) + [r.value] && db.nextUserId == old(db.nextUserId) + 1
    ensures r.Failure? ==> db.users == old(db.users) && db.nextUserId == old(db.nextUserId)
  {
    var fields := extra;
    if fields.isStaff.None? {
      fields := fields.(isStaff := Some(true));
    }
    if fields.isSuperuser.None? {
      fields := fields.(isSuperuser := Some(true));
    }
    if fields.role.None? {
      fields := fields.(role := Some(Advertiser));
    }
    if fields.isStaff != Some(true) {
      return Failure(ValueError);
    }
    if fields.isSuperuser != Some(true) {
      return Failure(ValueError);
    }
    r := CreateUser(db, email, password, fields);
  }
}
