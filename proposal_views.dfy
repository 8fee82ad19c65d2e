/** The decision order of the views in apps/proposals/views.py: the role
    check of `ProposalCreateView.dispatch`, the two redirects of its `get`,
    the routing of its `post`, and the empty-list flag of
    `MyProposalsListView`. */
module ProposalViews {
  import opened Common
  import opened Exceptions
  import opened UserModel
  import opened CampaignModel
  import opened ProposalModel
  import opened Dto
  import ProposalForm
  import ProposalCreation
  import ProposalSelector

  /** Pages a view redirects to. */
  datatype Target = Login | MyProposals | CampaignDetail(pk: nat)

  /** What a request to the view ends with. `Form` is the rendered form page
      (a fresh one on GET, the bound one with its errors on POST). */
  datatype Response = Redirect(to: Target) | Form | NotFound | Raised(e: ExcClass)

  /** `dispatch`: a logged-in non-influencer is refused before the
      login requirement and before any handler; `None` lets the request on. */
  function Dispatch(user: Actor): Option<Response>
  {
    if user.Authenticated? && user.role != Influencer then Some(Raised(DjangoPermissionDenied))
    else if user.Anonymous? then Some(Redirect(Login))
    else None
  }

  /** `get`: the campaign must exist; an earlier application sends the user to
      their list even when the campaign is closed; a campaign that does not
      take applications sends them to its page. */
  function Get(cs: seq<Campaign>, ps: seq<Proposal>, user: Actor, pk: nat, today: Date): Response
  {
    match Dispatch(user)
    case Some(r) => r
    case None =>
      match Find(cs, pk)
      case None => NotFound
      case Some(k) =>
        if HasProposal(ps, pk, user.id) then Redirect(MyProposals)
        else if !CanApply(cs[k], today) then Redirect(CampaignDetail(pk))
        else Form
  }

  /** The outcome of a POST and the proposal table after it. */
  datatype PostOutcome = PostOutcome(response: Response, proposals: seq<Proposal>)

  /** `post`, with the two form fields as the form's fields leave them in
      `cleaned_data` (the cover letter already stripped by its `CharField`)
      and `id` the key the store would assign. */
  function Post(cs: seq<Campaign>, ps: seq<Proposal>, user: Actor, pk: nat,
                letter: Option<string>, visit: Option<Date>, id: nat, today: Date, now: nat): PostOutcome
  {
    match Dispatch(user)
    case Some(r) => PostOutcome(r, ps)
    case None =>
      if Find(cs, pk).None? then PostOutcome(NotFound, ps)
      else
        var cleanLetter := ProposalForm.CleanCoverLetter(letter);
        var cleanVisit := ProposalForm.CleanVisitDate(visit, today);
        if cleanLetter.Failure? || cleanVisit.Failure? then PostOutcome(Form, ps)
        else
          var dto := ProposalCreateDto(pk, user.id, cleanLetter.value, cleanVisit.value);
          match ProposalCreation.Apply(cs, ps, user, dto, id, today, now)
          case Success(p) => PostOutcome(Redirect(MyProposals), ps + [p])
          case Failure(e) =>
            if e == InvalidStateException then PostOutcome(Redirect(CampaignDetail(pk)), ps)
            else if e == DuplicateActionException then PostOutcome(Redirect(MyProposals), ps)
            else PostOutcome(Raised(e), ps)
  }

  /** A logged-in non-influencer gets PermissionDenied on both methods,
      whether or not the campaign exists; an anonymous user is sent to log in. */
  lemma DispatchFirst(cs: seq<Campaign>, ps: seq<Proposal>, user: Actor, pk: nat,
                      letter: Option<string>, visit: Option<Date>, id: nat, today: Date, now: nat)
    ensures user.Authenticated? && user.role != Influencer ==>
      Get(cs, ps, user, pk, today) == Raised(DjangoPermissionDenied)
      && Post(cs, ps, user, pk, letter, visit, id, today, now) == PostOutcome(Raised(DjangoPermissionDenied), ps)
    ensures user.Anonymous? ==>
      Get(cs, ps, user, pk, today) == Redirect(Login)
      && Post(cs, ps, user, pk, letter, visit, id, today, now) == PostOutcome(Redirect(Login), ps)
  {
  }

  /** For an influencer and an existing campaign, GET checks the earlier
      application before the campaign's window, and shows the form exactly
      when the creation service would accept an application. */
  lemma GetOrder(cs: seq<Campaign>, ps: seq<Proposal>, user: Actor, pk: nat, today: Date,
                 dto: ProposalCreateDto, id: nat, now: nat)
    requires user.Authenticated? && user.role == Influencer && Find(cs, pk).Some?
    requires dto.campaignId == pk
    ensures HasProposal(ps, pk, user.id) ==> Get(cs, ps, user, pk, today) == Redirect(MyProposals)
    ensures !HasProposal(ps, pk, user.id) && !CanApply(cs[Find(cs, pk).value], today) ==>
      Get(cs, ps, user, pk, today) == Redirect(CampaignDetail(pk))
    ensures Get(cs, ps, user, pk, today) == Form <==>
      ProposalCreation.Apply(cs, ps, user, dto, id, today, now).Success?
  {
  }

  /** For an influencer and an existing campaign: an invalid form is shown
      again and creates nothing; a valid one either creates exactly the
      service's proposal and goes to the list, or goes to the campaign page
      for a closed campaign, or to the list for a repeat application. No
      exception escapes the view. */
  lemma PostRouting(cs: seq<Campaign>, ps: seq<Proposal>, user: Actor, pk: nat,
                    letter: Option<string>, visit: Option<Date>, id: nat, today: Date, now: nat)
    requires user.Authenticated? && user.role == Influencer && Find(cs, pk).Some?
    ensures var o := Post(cs, ps, user, pk, letter, visit, id, today, now);
      (ProposalForm.CleanCoverLetter(letter).Failure? || ProposalForm.CleanVisitDate(visit, today).Failure?) ==>
        o == PostOutcome(Form, ps)
    ensures var o := Post(cs, ps, user, pk, letter, visit, id, today, now);
      !o.response.Raised? && o.response != NotFound
    ensures var o := Post(cs, ps, user, pk, letter, visit, id, today, now);
      ProposalForm.CleanCoverLetter(letter).Success? && ProposalForm.CleanVisitDate(visit, today).Success? ==>
        var dto := ProposalCreateDto(pk, user.id, ProposalForm.CleanCoverLetter(letter).value, visit.value);
        var r := ProposalCreation.Apply(cs, ps, user, dto, id, today, now);
        && o.proposals == ProposalCreation.Applied(cs, ps, user, dto, id, today, now)
        && (r == Failure(InvalidStateException) <==> o.response == Redirect(CampaignDetail(pk)))
        && (r.Success? || r == Failure(DuplicateActionException) <==> o.response == Redirect(MyProposals))
  {
    if ProposalForm.CleanCoverLetter(letter).Success? && ProposalForm.CleanVisitDate(visit, today).Success? {
      var dto := ProposalCreateDto(pk, user.id, ProposalForm.CleanCoverLetter(letter).value, visit.value);
      ProposalCreation.ApplyFailures(cs, ps, user, dto, id, today, now);
    }
  }

  /** Once a POST has created a proposal, the same request again is a
      duplicate that leads to the list, and GET no longer shows the form. */
  lemma {:induction false} PostTwice(cs: seq<Campaign>, ps: seq<Proposal>, user: Actor, pk: nat,
                                     letter: Option<string>, visit: Option<Date>, id: nat, id2: nat,
                                     today: Date, now: nat, later: nat)
    requires user.Authenticated? && user.role == Influencer && Find(cs, pk).Some?
    requires Post(cs, ps, user, pk, letter, visit, id, today, now).proposals != ps
    ensures var after := Post(cs, ps, user, pk, letter, visit, id, today, now).proposals;
      Post(cs, after, user, pk, letter, visit, id2, today, later) == PostOutcome(Redirect(MyProposals), after)
      && Get(cs, after, user, pk, today) == Redirect(MyProposals)
  {
    var dto := ProposalCreateDto(pk, user.id, ProposalForm.CleanCoverLetter(letter).value, visit.value);
    var after := Post(cs, ps, user, pk, letter, visit, id, today, now).proposals;
    assert ProposalCreation.Apply(cs, ps, user, dto, id, today, now).Success?;
    ProposalCreation.ApplyTwice(cs, ps, user, dto, dto, id, id2, today, now, later);
    assert after[|ps|].campaign == pk && after[|ps|].influencer == user.id;
  }

  /** `has_proposals` of `MyProposalsListView`. */
  function HasProposals(ps: seq<Proposal>, influencerId: nat): bool
  {
    |ProposalSelector.InfluencerProposals(ps, influencerId)| > 0
  }

  /** The empty-state flag is off exactly when the influencer has no proposal
      at all. */
  lemma HasProposalsSpec(ps: seq<Proposal>, influencerId: nat)
    ensures HasProposals(ps, influencerId) <==> exists k :: 0 <= k < |ps| && ps[k].influencer == influencerId
  {
    ProposalSelector.InfluencerProposalsSpec(ps, influencerId);
    var r := ProposalSelector.InfluencerProposals(ps, influencerId);
    if HasProposals(ps, influencerId) {
      assert r[0] in r;
      var k :| 0 <= k < |ps| && ps[k] == r[0];
    } else {
      forall k | 0 <= k < |ps| ensures ps[k].influencer != influencerId {
        assert ps[k] in ps;
      }
    }
  }
}
