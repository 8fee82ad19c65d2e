/** The User record and the two role profiles of apps/users/models.py, the
    requester of a service call, and the string forms of the records. */
module UserModel {
  import opened Common

  /** `User.role`. The field declares two choices, but neither the database nor
      the services restrict it, so any other value is kept as `OtherRole`.
      `OtherRole("advertiser")` and `OtherRole("influencer")` stand for no
      stored value; the two choices are always the first two constructors. */
  datatype Role = Advertiser | Influencer | OtherRole(name: string)

  datatype User = User(
    id: nat,
    email: string,
    password: string,             // stored as given; hashing is not modelled
    name: string,
    contact: string,
    role: Role,
    isActive: bool,
    isStaff: bool,
    isSuperuser: bool)

  datatype AdvertiserProfile = AdvertiserProfile(
    user: nat, companyName: string, businessRegistrationNumber: string)

  datatype InfluencerProfile = InfluencerProfile(
    user: nat, birthDate: Date, snsLink: string)

  /** `request.user`: the anonymous user or a logged-in one. */
  datatype Actor = Anonymous | Authenticated(id: nat, role: Role)

  /** `request.user.id`, which is `None` for the anonymous user. */
  function ActorId(a: Actor): Option<nat>
  {
    match a
    case Anonymous => None
    case Authenticated(id, _) => Some(id)
  }

  /** The emails of the users are pairwise different (`unique=True`). */
  predicate UniqueEmails(us: seq<User>)
  {
    forall i, j :: 0 <= i < j < |us| ==> us[i].email != us[j].email
  }

  /** The contacts of the users are pairwise different (`unique=True`). */
  predicate UniqueContacts(us: seq<User>)
  {
    forall i, j :: 0 <= i < j < |us| ==> us[i].contact != us[j].contact
  }

  /** Every stored email is in normal form, as `create_user` stores it. */
  predicate NormalizedEmails(us: seq<User>)
  {
    forall k :: 0 <= k < |us| ==> NormalizeEmail(us[k].email) == us[k].email
  }

  /** User ids are assigned in increasing order (auto-increment keys). */
  predicate IdsIncreasing(us: seq<User>)
  {
    forall i, j :: 0 <= i < j < |us| ==> us[i].id < us[j].id
  }

  /** `User.objects.filter(email=...).exists()`. */
  predicate EmailTaken(us: seq<User>, email: string)
  {
    exists k :: 0 <= k < |us| && us[k].email == email
  }

  /** `User.objects.filter(contact=...).exists()`. */
  predicate ContactTaken(us: seq<User>, contact: string)
  {
    exists k :: 0 <= k < |us| && us[k].contact == contact
  }

  /** `User.objects.get(id=...)`. */
  function FindUser(us: seq<User>, id: nat): (r: Option<User>)
    ensures r.Some? ==> r.value in us && r.value.id == id
    ensures r.None? <==> forall k :: 0 <= k < |us| ==> us[k].id != id
  {
    if us == [] then None
    else if us[|us| - 1].id == id then Some(us[|us| - 1])
    else FindUser(us[..|us| - 1], id)
  }

  /** `str(user)`. */
  function UserStr(u: User): string
  {
    u.email
  }

  /** In a store with unique emails, `str(user)` tells users apart. */
  lemma UserStrIdentifies(us: seq<User>, i: nat, j: nat)
    requires UniqueEmails(us) && i < |us| && j < |us|
    ensures UserStr(us[i]) == UserStr(us[j]) <==> i == j
  {
  }

  /** `str(advertiser_profile)`. */
  function AdvertiserProfileStr(p: AdvertiserProfile): string
  {
    p.companyName
  }

  /** `str(influencer_profile)`, the name of the profile's user; a profile
      whose user is missing has none. */
  function InfluencerProfileStr(p: InfluencerProfile, us: seq<User>): (r: Option<string>)
    ensures r.Some? <==> exists k :: 0 <= k < |us| && us[k].id == p.user
    ensures r.Some? ==> exists k :: 0 <= k < |us| && us[k].id == p.user && us[k].name == r.value
  {
    match FindUser(us, p.user)
    case None => None
    case Some(u) => Some(u.name)
  }

  /** ASCII lower-casing of one character. */
  function LowerChar(c: char): char
  {
    if 'A' <= c <= 'Z' then (c as int - 'A' as int + 'a' as int) as char else c
  }

  function Lower(s: string): (r: string)
    ensures |r| == |s|
    ensures forall k :: 0 <= k < |s| ==> r[k] == LowerChar(s[k])
  {
    seq(|s|, k requires 0 <= k < |s| => LowerChar(s[k]))
  }

  /** Position of the last '@' in `s`, the split point of `rsplit('@', 1)`. */
  function LastAt(s: string): (r: Option<nat>)
    ensures r.Some? ==> r.value < |s| && s[r.value] == '@'
    ensures r.Some? ==> forall k :: r.value < k < |s| ==> s[k] != '@'
    ensures r.None? ==> forall k :: 0 <= k < |s| ==> s[k] != '@'
  {
    if s == [] then None
    else if s[|s| - 1] == '@' then Some(|s| - 1)
    else LastAt(s[..|s| - 1])
  }

  /** `BaseUserManager.normalize_email`: the part after the last '@' is
      lower-cased; the local part is kept. */
  function NormalizeEmail(email: string): string
  {
    match LastAt(email)
    case None => email
    case Some(k) => email[..k + 1] + Lower(email[k + 1..])
  }

  /** The local part and the '@' are kept, the domain is lower-cased, and the
      length does not change. */
  lemma NormalizeEmailShape(email: string, k: nat)
    requires LastAt(email) == Some(k)
    ensures |NormalizeEmail(email)| == |email|
    ensures NormalizeEmail(email)[..k + 1] == email[..k + 1]
    ensures NormalizeEmail(email)[k + 1..] == Lower(email[k + 1..])
  {
    var n := NormalizeEmail(email);
    assert n == email[..k + 1] + Lower(email[k + 1..]);
    assert n[..k + 1] == email[..k + 1];
  }

  lemma LowerIdempotent(s: string)
    ensures Lower(Lower(s)) == Lower(s)
  {
  }

  /** Normalising twice gives what normalising once gives. */
  lemma NormalizeEmailIdempotent(email: string)
    ensures NormalizeEmail(NormalizeEmail(email)) == NormalizeEmail(email)
  {
    match LastAt(email)
    case None =>
    case Some(k) =>
      var local, d := email[..k + 1], Lower(email[k + 1..]);
      var n := local + d;
      assert n[k] == '@';
      forall j | k < j < |n| ensures n[j] != '@' {
        assert n[j] == d[j - k - 1] == LowerChar(email[j]);
      }
      LastAtIsLast(n, k);
      assert n[..k + 1] == local && n[k + 1..] == d;
      LowerIdempotent(email[k + 1..]);
  }

  lemma {:induction false} LastAtIsLast(s: string, k: nat)
    requires k < |s| && s[k] == '@'
    requires forall j :: k < j < |s| ==> s[j] != '@'
    ensures LastAt(s) == Some(k)
  {
    if k < |s| - 1 {
      var t := s[..|s| - 1];
      assert t[k] == s[k];
      LastAtIsLast(t, k);
    }
  }
}
