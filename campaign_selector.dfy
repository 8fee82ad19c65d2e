/** The advertiser-side campaign queries of
    apps/campaigns/selectors/campaign_selector.py: the advertiser's campaigns with
    their applicant counts, the per-status counts of one campaign, and the
    applicant list as display records. */
module CampaignSelector {
  import opened Common
  import opened Seqs
  import opened Exceptions
  import opened UserModel
  import opened CampaignModel
  import opened ProposalModel
  import opened Dto
  import CampaignSelectors

  /** This module's `get_recruiting_campaigns`, a second copy of the query. */
  function RecruitingCampaigns(cs: seq<Campaign>): seq<Campaign>
  {
    SortByKey(Filter(cs, (c: Campaign) => c.status == Recruiting), CampaignsNewestFirst())
  }

  /** This module's `get_campaign_detail`: the campaign, or `Campaign.DoesNotExist`. */
  function CampaignDetail(cs: seq<Campaign>, id: nat): Result<Campaign, ExcClass>
  {
    match Find(cs, id)
    case None => Failure(DoesNotExist)
    case Some(k) => Success(cs[k])
  }

  /** Both copies answer as the public selectors do: the recruiting campaigns
      newest first, and the campaign with the id or `DoesNotExist`. */
  lemma CopiesAgree(cs: seq<Campaign>, id: nat)
    ensures RecruitingCampaigns(cs) == CampaignSelectors.RecruitingCampaigns(cs)
    ensures CampaignDetail(cs, id) == CampaignSelectors.CampaignDetail(cs, id)
    ensures CampaignDetail(cs, id).Failure? <==> forall k :: 0 <= k < |cs| ==> cs[k].id != id
  {
    FilterCongruent(cs, (c: Campaign) => c.status == Recruiting, CampaignSelectors.RecruitingRow());
  }

  /** A campaign with its `proposal_count` annotation. */
  datatype CampaignWithCount = CampaignWithCount(campaign: Campaign, proposalCount: nat)

  function OwnedBy(advertiserId: nat): Campaign -> bool
  {
    (c: Campaign) => c.advertiser == advertiserId
  }

  /** The annotation of one campaign: `Count('proposals')`. */
  function WithCount(ps: seq<Proposal>): Campaign -> CampaignWithCount
  {
    (c: Campaign) => CampaignWithCount(c, Count(ps, OfCampaign(c.id)))
  }

  /** The rows `get_campaigns_by_advertiser` reads: the advertiser's campaigns
      in the default order. */
  function AdvertiserCampaigns(cs: seq<Campaign>, advertiserId: nat): seq<Campaign>
  {
    SortByKey(Filter(cs, OwnedBy(advertiserId)), CampaignsNewestFirst())
  }

  /** Exactly the advertiser's campaigns, each as often as in the table, newest
      first. */
  lemma AdvertiserCampaignsSpec(cs: seq<Campaign>, advertiserId: nat)
    ensures forall c :: c in AdvertiserCampaigns(cs, advertiserId) <==> c in cs && c.advertiser == advertiserId
    ensures multiset(AdvertiserCampaigns(cs, advertiserId)) == multiset(Filter(cs, OwnedBy(advertiserId)))
    ensures |AdvertiserCampaigns(cs, advertiserId)| == Count(cs, OwnedBy(advertiserId))
    ensures forall i, j :: 0 <= i < j < |AdvertiserCampaigns(cs, advertiserId)| ==>
      AdvertiserCampaigns(cs, advertiserId)[i].createdAt >= AdvertiserCampaigns(cs, advertiserId)[j].createdAt
  {
    forall c ensures c in AdvertiserCampaigns(cs, advertiserId) <==> c in cs && c.advertiser == advertiserId {
      SortKeepsMembers(Filter(cs, OwnedBy(advertiserId)), CampaignsNewestFirst(), c);
    }
    CampaignsNewestFirstSorted(AdvertiserCampaigns(cs, advertiserId));
  }

  /** `get_campaigns_by_advertiser`. */
  function CampaignsByAdvertiser(cs: seq<Campaign>, ps: seq<Proposal>, advertiserId: nat): (r: seq<CampaignWithCount>)
  {
    var owned := AdvertiserCampaigns(cs, advertiserId);
    seq(|owned|, i requires 0 <= i < |owned| => WithCount(ps)(owned[i]))
  }

  /** One entry per campaign of the advertiser, in the same order, each
      annotated with the number of proposals to it. */
  lemma CampaignsByAdvertiserSpec(cs: seq<Campaign>, ps: seq<Proposal>, advertiserId: nat)
    ensures var r, owned := CampaignsByAdvertiser(cs, ps, advertiserId), AdvertiserCampaigns(cs, advertiserId);
      && |r| == |owned|
      && forall i :: 0 <= i < |r| ==>
        r[i].campaign == owned[i] && r[i].proposalCount == Count(ps, OfCampaign(owned[i].id))
  {
    var r, owned := CampaignsByAdvertiser(cs, ps, advertiserId), AdvertiserCampaigns(cs, advertiserId);
    forall i | 0 <= i < |r|
      ensures r[i].campaign == owned[i] && r[i].proposalCount == Count(ps, OfCampaign(owned[i].id))
    {
      assert r[i] == WithCount(ps)(owned[i]);
    }
  }

  /** The four annotations of `get_campaign_with_proposals_count`. */
  datatype ProposalCounts = ProposalCounts(total: nat, submitted: nat, selected: nat, rejected: nat)

  function CountsOf(ps: seq<Proposal>, campaignId: nat): ProposalCounts
  {
    ProposalCounts(
      Count(ps, OfCampaign(campaignId)),
      Count(ps, OfCampaignWith(campaignId, Submitted)),
      Count(ps, OfCampaignWith(campaignId, Selected)),
      Count(ps, OfCampaignWith(campaignId, Rejected)))
  }

  function OfCampaignWith(campaignId: nat, s: ProposalStatus): Proposal -> bool
  {
    (p: Proposal) => p.campaign == campaignId && p.status == s
  }

  /** `get_campaign_with_proposals_count`: `filter(id=..., advertiser_id=...).first()`. */
  function CampaignWithProposalsCount(cs: seq<Campaign>, ps: seq<Proposal>, campaignId: nat, advertiserId: nat)
    : Option<(Campaign, ProposalCounts)>
  {
    var hits := Filter(cs, (c: Campaign) => c.id == campaignId && c.advertiser == advertiserId);
    if hits == [] then None else Some((hits[0], CountsOf(ps, hits[0].id)))
  }

  /** Nothing comes back unless the campaign exists and belongs to the
      advertiser; what comes back is that campaign, and its total is the sum of
      the three per-status counts. */
  lemma CampaignWithProposalsCountSpec(cs: seq<Campaign>, ps: seq<Proposal>, campaignId: nat, advertiserId: nat)
    ensures CampaignWithProposalsCount(cs, ps, campaignId, advertiserId).None? <==>
      forall k :: 0 <= k < |cs| ==> cs[k].id != campaignId || cs[k].advertiser != advertiserId
    ensures CampaignWithProposalsCount(cs, ps, campaignId, advertiserId).Some? ==>
      var (c, n) := CampaignWithProposalsCount(cs, ps, campaignId, advertiserId).value;
      && c in cs && c.id == campaignId && c.advertiser == advertiserId
      && n == CountsOf(ps, campaignId)
      && n.total == n.submitted + n.selected + n.rejected
  {
    var hits := Filter(cs, (c: Campaign) => c.id == campaignId && c.advertiser == advertiserId);
    if hits == [] {
      forall k | 0 <= k < |cs| ensures cs[k].id != campaignId || cs[k].advertiser != advertiserId {
        assert cs[k] in cs;
      }
    } else {
      assert hits[0] in hits;
    }
    CountSplit(ps, OfCampaign(campaignId), OfCampaignWith(campaignId, Submitted),
               (p: Proposal) => p.campaign == campaignId && p.status != Submitted);
    CountSplit(ps, (p: Proposal) => p.campaign == campaignId && p.status != Submitted,
               OfCampaignWith(campaignId, Selected), OfCampaignWith(campaignId, Rejected));
  }

  /** The influencer profile of a user, if there is one. */
  function FindInfluencerProfile(profiles: seq<InfluencerProfile>, userId: nat): (r: Option<InfluencerProfile>)
    ensures r.Some? ==> r.value in profiles && r.value.user == userId
    ensures r.None? <==> forall k :: 0 <= k < |profiles| ==> profiles[k].user != userId
  {
    if profiles == [] then None
    else if profiles[|profiles| - 1].user == userId then Some(profiles[|profiles| - 1])
    else FindInfluencerProfile(profiles[..|profiles| - 1], userId)
  }

  /** One display record; following `p.influencer.influencer_profile` fails
      with `DoesNotExist` when the user or the profile is missing. */
  function DetailOf(p: Proposal, us: seq<User>, profiles: seq<InfluencerProfile>): Result<ProposalDetailDto, ExcClass>
  {
    match FindUser(us, p.influencer)
    case None => Failure(DoesNotExist)
    case Some(u) =>
      match FindInfluencerProfile(profiles, u.id)
      case None => Failure(DoesNotExist)
      case Some(prof) =>
        Success(ProposalDetailDto(p.id, u.name, u.email, u.contact, prof.snsLink,
                                  p.coverLetter, p.visitDate, p.status, p.createdAt))
  }

  /** The list comprehension: the records of all rows, or the first failure. */
  function Details(s: seq<Proposal>, us: seq<User>, profiles: seq<InfluencerProfile>): (r: Result<seq<ProposalDetailDto>, ExcClass>)
    ensures r.Success? <==> forall i :: 0 <= i < |s| ==> DetailOf(s[i], us, profiles).Success?
    ensures r.Success? ==> |r.value| == |s|
    ensures r.Success? ==> forall i :: 0 <= i < |s| ==> r.value[i] == DetailOf(s[i], us, profiles).value
    ensures r.Failure? ==> r.error == DoesNotExist
  {
    if s == [] then Success([])
    else
      match DetailOf(s[0], us, profiles)
      case Failure(e) => Failure(e)
      case Success(d) =>
        match Details(s[1..], us, profiles)
        case Failure(e) => Failure(e)
        case Success(rest) =>
          assert forall i :: 1 <= i < |s| ==> s[i] == s[1..][i - 1];
          Success([d] + rest)
  }

  /** The rows `get_proposals_by_campaign` reads: the campaign's proposals in
      the default order. */
  function Applicants(ps: seq<Proposal>, campaignId: nat): seq<Proposal>
  {
    SortByKey(Filter(ps, OfCampaign(campaignId)), ProposalsNewestFirst())
  }

  /** Exactly the campaign's proposals, each as often as in the table, newest
      first. */
  lemma ApplicantsSpec(ps: seq<Proposal>, campaignId: nat)
    ensures forall p :: p in Applicants(ps, campaignId) <==> p in ps && p.campaign == campaignId
    ensures multiset(Applicants(ps, campaignId)) == multiset(Filter(ps, OfCampaign(campaignId)))
    ensures |Applicants(ps, campaignId)| == Count(ps, OfCampaign(campaignId))
    ensures forall i, j :: 0 <= i < j < |Applicants(ps, campaignId)| ==>
      Applicants(ps, campaignId)[i].createdAt >= Applicants(ps, campaignId)[j].createdAt
  {
    forall p ensures p in Applicants(ps, campaignId) <==> p in ps && p.campaign == campaignId {
      SortKeepsMembers(Filter(ps, OfCampaign(campaignId)), ProposalsNewestFirst(), p);
    }
    ProposalsNewestFirstSorted(Applicants(ps, campaignId));
  }

  /** `get_proposals_by_campaign`. */
  function ProposalsByCampaign(ps: seq<Proposal>, us: seq<User>, profiles: seq<InfluencerProfile>, campaignId: nat)
    : Result<seq<ProposalDetailDto>, ExcClass>
  {
    Details(Applicants(ps, campaignId), us, profiles)
  }

  /** A record exists exactly when the applying user and their influencer
      profile do, and it copies the proposal and those two rows. */
  lemma DetailOfSpec(p: Proposal, us: seq<User>, profiles: seq<InfluencerProfile>)
    ensures DetailOf(p, us, profiles).Success? <==>
      FindUser(us, p.influencer).Some? && FindInfluencerProfile(profiles, p.influencer).Some?
    ensures DetailOf(p, us, profiles).Success? ==>
      var d, u, prof := DetailOf(p, us, profiles).value, FindUser(us, p.influencer).value,
                        FindInfluencerProfile(profiles, p.influencer).value;
      && d.proposalId == p.id && d.status == p.status && d.coverLetter == p.coverLetter
      && d.visitDate == p.visitDate && d.createdAt == p.createdAt
      && d.influencerName == u.name && d.influencerEmail == u.email
      && d.influencerContact == u.contact && d.snsLink == prof.snsLink
  {
  }

  /** The list fails only when some applicant has no user or no influencer
      profile. */
  lemma ProposalsByCampaignSucceedsIff(ps: seq<Proposal>, us: seq<User>, profiles: seq<InfluencerProfile>, campaignId: nat)
    ensures ProposalsByCampaign(ps, us, profiles, campaignId).Success? <==>
      forall p :: p in ps && p.campaign == campaignId ==> DetailOf(p, us, profiles).Success?
  {
    var a := Applicants(ps, campaignId);
    ApplicantsSpec(ps, campaignId);
    if forall p :: p in ps && p.campaign == campaignId ==> DetailOf(p, us, profiles).Success? {
      forall i | 0 <= i < |a| ensures DetailOf(a[i], us, profiles).Success? {
        assert a[i] in a;
      }
    } else {
      var p :| p in ps && p.campaign == campaignId && DetailOf(p, us, profiles).Failure?;
      assert p in a;
      var i :| 0 <= i < |a| && a[i] == p;
    }
  }

  /** On success there is one record per applicant, in the same order, with id,
      status, letter, date and timestamp copied from the proposal and name,
      email, contact and link taken from the applying user and profile. */
  lemma ProposalsByCampaignRows(ps: seq<Proposal>, us: seq<User>, profiles: seq<InfluencerProfile>, campaignId: nat)
    requires ProposalsByCampaign(ps, us, profiles, campaignId).Success?
    ensures var r, a := ProposalsByCampaign(ps, us, profiles, campaignId).value, Applicants(ps, campaignId);
      && |r| == |a|
      && forall i :: 0 <= i < |r| ==>
        && FindUser(us, a[i].influencer).Some? && FindInfluencerProfile(profiles, a[i].influencer).Some?
        && r[i].proposalId == a[i].id && r[i].status == a[i].status
        && r[i].coverLetter == a[i].coverLetter && r[i].visitDate == a[i].visitDate
        && r[i].createdAt == a[i].createdAt
        && r[i].influencerName == FindUser(us, a[i].influencer).value.name
        && r[i].influencerEmail == FindUser(us, a[i].influencer).value.email
        && r[i].influencerContact == FindUser(us, a[i].influencer).value.contact
        && r[i].snsLink == FindInfluencerProfile(profiles, a[i].influencer).value.snsLink
  {
    var a := Applicants(ps, campaignId);
    forall i | 0 <= i < |a| {
      DetailOfSpec(a[i], us, profiles);
    }
  }
}
