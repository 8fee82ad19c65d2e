/** The role-based access control of apps/users/permissions.py: the
    `require_role` decorator and the two view mixins. */
module Permissions {
  import opened Exceptions
  import opened UserModel

  /** What happens to a request at the access check. */
  datatype Access =
    | CallView                    // the wrapped view runs
    | RedirectToLogin(next: string) // to the login page, returning to `next`
    | Forbidden                   // an HTTP 403 response is returned
    | Raise(e: ExcClass)          // an exception propagates out of the view

  /** `require_role(role)` around a view, for a request to `path`. */
  function RequireRole(role: Role, user: Actor, path: string): Access
  {
    if user.Anonymous? then RedirectToLogin(path)
    else if user.role != role then Forbidden
    else CallView
  }

  /** The view runs only for a logged-in user holding the role; an anonymous
      user is sent to log in and comes back to the same path; any other user
      gets a 403 response. */
  lemma RequireRoleSpec(role: Role, user: Actor, path: string)
    ensures RequireRole(role, user, path) == CallView <==> user.Authenticated? && user.role == role
    ensures RequireRole(role, user, path) == RedirectToLogin(path) <==> user.Anonymous?
    ensures RequireRole(role, user, path) == Forbidden <==> user.Authenticated? && user.role != role
  {
  }

  /** `AdvertiserRequiredMixin.test_func`. */
  predicate AdvertiserTest(user: Actor)
  {
    user.Authenticated? && user.role == Advertiser
  }

  /** `InfluencerRequiredMixin.test_func`. */
  predicate InfluencerTest(user: Actor)
  {
    user.Authenticated? && user.role == Influencer
  }

  /** `LoginRequiredMixin` then `UserPassesTestMixin`, with the refusal being
      `handle_no_permission`: the advertiser mixin's own override, or the
      library default for the influencer mixin, which both send an anonymous
      user to log in and raise PermissionDenied for anyone else. The mixins'
      login redirect carries `request.get_full_path()`, which keeps the query
      string, so `path` here is the full path, while `RequireRole` receives
      `request.path`. */
  function Mixin(test: Actor -> bool, user: Actor, path: string): Access
  {
    if user.Anonymous? then RedirectToLogin(path)
    else if !test(user) then Raise(DjangoPermissionDenied)
    else CallView
  }

  function AdvertiserRequired(user: Actor, path: string): Access
  {
    Mixin(AdvertiserTest, user, path)
  }

  function InfluencerRequired(user: Actor, path: string): Access
  {
    Mixin(InfluencerTest, user, path)
  }

  /** The advertiser mixin lets exactly logged-in advertisers through; an
      anonymous user is redirected to log in and a logged-in non-advertiser is
      refused with Django's PermissionDenied. */
  lemma AdvertiserRequiredSpec(user: Actor, path: string)
    ensures AdvertiserRequired(user, path) == CallView <==> user.Authenticated? && user.role == Advertiser
    ensures user.Anonymous? ==> AdvertiserRequired(user, path) == RedirectToLogin(path)
    ensures user.Authenticated? && user.role != Advertiser ==>
      AdvertiserRequired(user, path) == Raise(DjangoPermissionDenied)
  {
  }

  /** The same for influencers. */
  lemma InfluencerRequiredSpec(user: Actor, path: string)
    ensures InfluencerRequired(user, path) == CallView <==> user.Authenticated? && user.role == Influencer
    ensures user.Anonymous? ==> InfluencerRequired(user, path) == RedirectToLogin(path)
    ensures user.Authenticated? && user.role != Influencer ==>
      InfluencerRequired(user, path) == Raise(DjangoPermissionDenied)
  {
  }

  /** No user gets through both mixins. */
  lemma NoUserPassesBoth(user: Actor, path: string)
    ensures !(AdvertiserRequired(user, path) == CallView && InfluencerRequired(user, path) == CallView)
  {
  }

  /** The decorator and the mixin admit the same users and redirect the same
      anonymous requests; they differ in how a wrong role is refused: a 403
      response against a PermissionDenied that Django turns into one. The
      redirect targets agree for a request without a query string, where
      `request.path` and `request.get_full_path()` are the same text. */
  lemma DecoratorAgreesWithMixins(user: Actor, path: string)
    ensures (RequireRole(Advertiser, user, path) == CallView) == (AdvertiserRequired(user, path) == CallView)
    ensures (RequireRole(Influencer, user, path) == CallView) == (InfluencerRequired(user, path) == CallView)
    ensures RequireRole(Advertiser, user, path) == Forbidden <==>
      AdvertiserRequired(user, path) == Raise(DjangoPermissionDenied)
    ensures RequireRole(Influencer, user, path) == Forbidden <==>
      InfluencerRequired(user, path) == Raise(DjangoPermissionDenied)
  {
  }
}
