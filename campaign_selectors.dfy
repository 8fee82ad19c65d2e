/** The public campaign queries of apps/campaigns/selectors/campaign_selectors.py:
    the recruiting list and its newest entry, the detail lookup, and the
    eligibility cascade behind the apply button. */
module CampaignSelectors {
  import opened Common
  import opened Seqs
  import opened Exceptions
  import opened UserModel
  import opened CampaignModel
  import opened ProposalModel
  import opened Dto
  import ProposalCreation

  function RecruitingRow(): Campaign -> bool
  {
    (c: Campaign) => IsRecruiting(c)
  }

  /** `get_recruiting_campaigns`. */
  function RecruitingCampaigns(cs: seq<Campaign>): seq<Campaign>
  {
    SortByKey(Filter(cs, RecruitingRow()), CampaignsNewestFirst())
  }

  /** The list holds every recruiting campaign and nothing else, each row as
      often as in the table, and its timestamps never increase. */
  lemma RecruitingCampaignsSpec(cs: seq<Campaign>)
    ensures forall c :: c in RecruitingCampaigns(cs) <==> c in cs && IsRecruiting(c)
    ensures multiset(RecruitingCampaigns(cs)) == multiset(Filter(cs, RecruitingRow()))
    ensures |RecruitingCampaigns(cs)| == Count(cs, RecruitingRow())
    ensures forall i, j :: 0 <= i < j < |RecruitingCampaigns(cs)| ==>
      RecruitingCampaigns(cs)[i].createdAt >= RecruitingCampaigns(cs)[j].createdAt
  {
    var r := RecruitingCampaigns(cs);
    forall c ensures c in r <==> c in cs && IsRecruiting(c) {
      SortKeepsMembers(Filter(cs, RecruitingRow()), CampaignsNewestFirst(), c);
    }
    CampaignsNewestFirstSorted(r);
  }

  /** `get_latest_recruiting_campaign`: the head of that list. */
  function LatestRecruitingCampaign(cs: seq<Campaign>): (r: Option<Campaign>)
  {
    var list := RecruitingCampaigns(cs);
    if list == [] then None else Some(list[0])
  }

  /** There is a banner campaign exactly when some campaign is recruiting; it is
      a recruiting campaign that no other recruiting campaign is newer than. */
  lemma LatestRecruitingCampaignSpec(cs: seq<Campaign>)
    ensures LatestRecruitingCampaign(cs).None? <==>
      forall k :: 0 <= k < |cs| ==> !IsRecruiting(cs[k])
    ensures LatestRecruitingCampaign(cs).Some? ==>
      var c := LatestRecruitingCampaign(cs).value;
      && c in cs && IsRecruiting(c)
      && forall d :: d in cs && IsRecruiting(d) ==> d.createdAt <= c.createdAt
  {
    RecruitingCampaignsSpec(cs);
    var list := RecruitingCampaigns(cs);
    if list == [] {
      forall k | 0 <= k < |cs| ensures !IsRecruiting(cs[k]) {
        assert cs[k] in cs;
      }
    } else {
      assert list[0] in list;
      forall d | d in cs && IsRecruiting(d) ensures d.createdAt <= list[0].createdAt {
        assert d in list;
        var j :| 0 <= j < |list| && list[j] == d;
      }
    }
  }

  /** `get_campaign_detail`: the campaign, or `Campaign.DoesNotExist`. */
  function CampaignDetail(cs: seq<Campaign>, id: nat): (r: Result<Campaign, ExcClass>)
    ensures r.Success? ==> r.value in cs && r.value.id == id
    ensures r.Failure? <==> forall k :: 0 <= k < |cs| ==> cs[k].id != id
    ensures r.Failure? ==> r.error == DoesNotExist
  {
    match Find(cs, id)
    case None => Failure(DoesNotExist)
    case Some(k) => Success(cs[k])
  }

  /** The `reason` strings of `check_user_can_apply`. */
  datatype Reason = LoginRequired | AdvertiserNotAllowed | RecruitmentEnded | DeadlinePassed | AlreadyApplied

  /** The dictionary `check_user_can_apply` returns. */
  datatype Eligibility = Eligibility(canApply: bool, reason: Option<Reason>, alreadyApplied: bool)

  /** `check_user_can_apply`, with `date.today()` made a parameter. */
  function CheckUserCanApply(c: Campaign, ps: seq<Proposal>, user: Actor, today: Date): Eligibility
  {
    match user
    case Anonymous => Eligibility(false, Some(LoginRequired), false)
    case Authenticated(uid, role) =>
      if role == Advertiser then Eligibility(false, Some(AdvertiserNotAllowed), false)
      else if c.status != Recruiting then Eligibility(false, Some(Reason.RecruitmentEnded), false)
      else if Before(c.endDate, today) then Eligibility(false, Some(DeadlinePassed), false)
      else if HasProposal(ps, c.id, uid) then Eligibility(false, Some(AlreadyApplied), true)
      else Eligibility(true, None, false)
  }

  /** The checks answer in source order. */
  lemma CheckUserCanApplyCascade(c: Campaign, ps: seq<Proposal>, user: Actor, today: Date)
    ensures user.Anonymous? ==>
      CheckUserCanApply(c, ps, user, today) == Eligibility(false, Some(LoginRequired), false)
    ensures user.Authenticated? && user.role == Advertiser ==>
      CheckUserCanApply(c, ps, user, today) == Eligibility(false, Some(AdvertiserNotAllowed), false)
    ensures user.Authenticated? && user.role != Advertiser && c.status != Recruiting ==>
      CheckUserCanApply(c, ps, user, today) == Eligibility(false, Some(Reason.RecruitmentEnded), false)
    ensures (user.Authenticated? && user.role != Advertiser && c.status == Recruiting
             && Before(c.endDate, today)) ==>
      CheckUserCanApply(c, ps, user, today) == Eligibility(false, Some(DeadlinePassed), false)
    ensures (user.Authenticated? && user.role != Advertiser && c.status == Recruiting
             && NotAfter(today, c.endDate) && HasProposal(ps, c.id, user.id)) ==>
      CheckUserCanApply(c, ps, user, today) == Eligibility(false, Some(AlreadyApplied), true)
  {
  }

  /** `can_apply` is true exactly when there is no reason, and `already_applied`
      exactly when the reason is an earlier application; the answer is yes
      exactly when every check passes. */
  lemma CheckUserCanApplyShape(c: Campaign, ps: seq<Proposal>, user: Actor, today: Date)
    ensures CheckUserCanApply(c, ps, user, today).canApply <==> CheckUserCanApply(c, ps, user, today).reason.None?
    ensures CheckUserCanApply(c, ps, user, today).alreadyApplied <==>
      CheckUserCanApply(c, ps, user, today).reason == Some(AlreadyApplied)
    ensures CheckUserCanApply(c, ps, user, today).canApply <==>
      && user.Authenticated? && user.role != Advertiser && IsRecruiting(c)
      && NotAfter(today, c.endDate) && !HasProposal(ps, c.id, user.id)
  {
  }

  /** The start date is not checked: before recruitment opens the button is
      offered although `Campaign.can_apply` is false. */
  lemma StartDateNotChecked(c: Campaign, ps: seq<Proposal>, uid: nat, today: Date)
    requires IsRecruiting(c) && Before(today, c.startDate) && NotAfter(c.startDate, c.endDate)
    requires !HasProposal(ps, c.id, uid)
    ensures CheckUserCanApply(c, ps, Authenticated(uid, Influencer), today).canApply
    ensures !CanApply(c, today)
  {
    DateTrichotomy(c.startDate, c.endDate);
    if Before(c.startDate, c.endDate) {
      DateTransitive(today, c.startDate, c.endDate);
    }
  }

  /** For an influencer the eligibility answer and the application service agree
      once the start date has come. */
  lemma AgreesWithProposalCreation(cs: seq<Campaign>, ps: seq<Proposal>, uid: nat, k: nat,
                                   dto: ProposalCreateDto, id: nat, today: Date, now: nat)
    requires CampaignModel.IdsIncreasing(cs) && k < |cs| && dto.campaignId == cs[k].id
    ensures ProposalCreation.Apply(cs, ps, Authenticated(uid, Influencer), dto, id, today, now).Success? <==>
      CheckUserCanApply(cs[k], ps, Authenticated(uid, Influencer), today).canApply
      && NotAfter(cs[k].startDate, today)
  {
    FindUnique(cs, cs[k].id, k);
  }

  /** A user whose role is neither advertiser nor influencer is offered the
      button, and the application service then refuses them. */
  lemma OtherRoleOfferedButRefused(cs: seq<Campaign>, ps: seq<Proposal>, uid: nat, name: string, k: nat,
                                   dto: ProposalCreateDto, id: nat, today: Date, now: nat)
    requires name != "advertiser" && name != "influencer"
    requires k < |cs| && CanApply(cs[k], today) && !HasProposal(ps, cs[k].id, uid)
    ensures CheckUserCanApply(cs[k], ps, Authenticated(uid, OtherRole(name)), today).canApply
    ensures ProposalCreation.Apply(cs, ps, Authenticated(uid, OtherRole(name)), dto, id, today, now)
         == Failure(PermissionDeniedException)
  {
  }
}
