/** `CampaignCloseService.execute` of apps/campaigns/services/campaign_management.py:
    the recruiting -> recruitment_ended transition. */
module CampaignClose {
  import opened Common
  import opened Exceptions
  import opened UserModel
  import opened CampaignModel
  import opened Dto
  import opened Store

  /** What a call returns: the updated campaign, or the exception raised. */
  function Close(cs: seq<Campaign>, user: Actor, campaignId: nat, now: nat): (r: Result<Campaign, ExcClass>)
  {
    match Find(cs, campaignId)
    case None => Failure(InvalidStateException)
    case Some(k) =>
      if ActorId(user) != Some(cs[k].advertiser) then Failure(PermissionDeniedException)
      else if cs[k].status != Recruiting then Failure(InvalidStateException)
      else Success(cs[k].(status := RecruitmentEnded, updatedAt := now))
  }

  /** The campaign table after a call. */
  function Closed(cs: seq<Campaign>, user: Actor, campaignId: nat, now: nat): (r: seq<Campaign>)
  {
    match Close(cs, user, campaignId, now)
    case Failure(_) => cs
    case Success(c) => cs[Find(cs, campaignId).value := c]
  }

  /** A missing campaign is an invalid state; a campaign of someone else is
      refused before its status is looked at; a wrong status is an invalid
      state. None of these change the table. */
  lemma CloseFailures(cs: seq<Campaign>, user: Actor, campaignId: nat, now: nat)
    ensures Find(cs, campaignId).None? ==> Close(cs, user, campaignId, now) == Failure(InvalidStateException)
    ensures Find(cs, campaignId).Some? && ActorId(user) != Some(cs[Find(cs, campaignId).value].advertiser) ==>
      Close(cs, user, campaignId, now) == Failure(PermissionDeniedException)
    ensures (Find(cs, campaignId).Some? && ActorId(user) == Some(cs[Find(cs, campaignId).value].advertiser)
             && cs[Find(cs, campaignId).value].status != Recruiting) ==>
      Close(cs, user, campaignId, now) == Failure(InvalidStateException)
    ensures Close(cs, user, campaignId, now).Failure? ==> Closed(cs, user, campaignId, now) == cs
  {
  }

  /** Success happens exactly for the owner of a recruiting campaign; only that
      campaign's status (to recruitment_ended) and timestamp change. */
  lemma CloseSuccess(cs: seq<Campaign>, user: Actor, campaignId: nat, now: nat)
    ensures Close(cs, user, campaignId, now).Success? <==>
      exists k :: 0 <= k < |cs| && cs[k].id == campaignId && Find(cs, campaignId) == Some(k)
        && ActorId(user) == Some(cs[k].advertiser) && cs[k].status == Recruiting
    ensures Close(cs, user, campaignId, now).Success? ==>
      var k := Find(cs, campaignId).value;
      var after := Closed(cs, user, campaignId, now);
      && |after| == |cs|
      && after[k] == cs[k].(status := RecruitmentEnded, updatedAt := now)
      && after[k] == Close(cs, user, campaignId, now).value
      && (forall j :: 0 <= j < |cs| && j != k ==> after[j] == cs[j])
  {
  }

  /** Every campaign's status stays put or takes one forward step. */
  lemma CloseIsForward(cs: seq<Campaign>, user: Actor, campaignId: nat, now: nat)
    ensures |Closed(cs, user, campaignId, now)| == |cs|
    ensures forall j :: 0 <= j < |cs| ==>
      var s := Closed(cs, user, campaignId, now)[j].status;
      s == cs[j].status || Advances(cs[j].status, s)
  {
  }

  /** Closing a second time fails with InvalidState. */
  lemma {:induction false} CloseTwice(cs: seq<Campaign>, user: Actor, campaignId: nat, now: nat, later: nat)
    requires Close(cs, user, campaignId, now).Success?
    ensures Close(Closed(cs, user, campaignId, now), user, campaignId, later) == Failure(InvalidStateException)
  {
    var k := Find(cs, campaignId).value;
    FindAfterUpdate(cs, k, Close(cs, user, campaignId, now).value, campaignId);
  }

  /** The service: look the campaign up, check owner and status, save the
      new status. */
  method Execute(db: Database, user: Actor, dto: CampaignCloseDto, now: nat)
    returns (r: Result<Campaign, ExcClass>)
    requires db.Valid()
    modifies db`campaigns
    ensures db.Valid()
    ensures r == Close(old(db.campaigns), user, dto.campaignId, now)
    ensures db.campaigns == Closed(old(db.campaigns), user, dto.campaignId, now)
  {
    var found := Find(db.campaigns, dto.campaignId);
    if found.None? {
      return Failure(InvalidStateException);
    }
    var k := found.value;
    var campaign := db.campaigns[k];
    if ActorId(user) != Some(campaign.advertiser) {
      return Failure(PermissionDeniedException);
    }
    if campaign.status != Recruiting {
      return Failure(InvalidStateException);
    }
    campaign := campaign.(status := RecruitmentEnded, updatedAt := now);
    db.campaigns := db.campaigns[k := campaign];
    r := Success(campaign);
  }
}
