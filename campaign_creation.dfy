/** `CampaignCreationService.execute` of apps/campaigns/services/campaign_creation.py:
    role check, then the two data rules, then the insert. This copy raises
    Django's own PermissionDenied and ValidationError. */
module CampaignCreation {
  import opened Common
  import opened Exceptions
  import opened UserModel
  import opened CampaignModel
  import opened Dto
  import opened Store

  /** The guards in source order; `None` when all pass. */
  function Check(user: Actor, dto: CampaignCreateDto): Option<ExcClass>
    requires user.Authenticated?
  {
    if user.role != Advertiser then Some(DjangoPermissionDenied)
    else if Before(dto.endDate, dto.startDate) then Some(DjangoValidationError)
    else if dto.recruitmentCount < 1 then Some(DjangoValidationError)
    else None
  }

  /** The record `Campaign.objects.create(...)` stores. */
  function NewCampaign(advertiser: nat, dto: CampaignCreateDto, id: nat, now: nat): Campaign
  {
    Campaign(id, advertiser, dto.name, dto.startDate, dto.endDate, dto.recruitmentCount,
             dto.benefits, dto.mission, Recruiting, now, now)
  }

  /** What a call returns, given the id the store will assign. */
  function Create(user: Actor, dto: CampaignCreateDto, id: nat, now: nat): Result<Campaign, ExcClass>
    requires user.Authenticated?
  {
    match Check(user, dto)
    case Some(e) => Failure(e)
    case None => Success(NewCampaign(user.id, dto, id, now))
  }

  /** A non-advertiser is refused before any field of the DTO is looked at. */
  lemma RoleCheckedFirst(user: Actor, dto: CampaignCreateDto, id: nat, now: nat)
    requires user.Authenticated? && user.role != Advertiser
    ensures Create(user, dto, id, now) == Failure(DjangoPermissionDenied)
  {
  }

  /** The call succeeds exactly for an advertiser, an end date on or after the
      start date (equal dates allowed) and at least one recruit; on success the
      record is recruiting, owned by the caller and carries the DTO's fields. */
  lemma CreateSucceedsIff(user: Actor, dto: CampaignCreateDto, id: nat, now: nat)
    requires user.Authenticated?
    ensures Create(user, dto, id, now).Success? <==>
      user.role == Advertiser && NotAfter(dto.startDate, dto.endDate) && dto.recruitmentCount >= 1
    ensures Create(user, dto, id, now).Failure? && user.role == Advertiser ==>
      Create(user, dto, id, now).error == DjangoValidationError
    ensures Create(user, dto, id, now).Success? ==>
      var c := Create(user, dto, id, now).value;
      && c.status == Recruiting && c.advertiser == user.id && c.id == id
      && c.name == dto.name && c.startDate == dto.startDate && c.endDate == dto.endDate
      && c.recruitmentCount == dto.recruitmentCount
      && c.benefits == dto.benefits && c.mission == dto.mission
  {
  }

  /** The service: append one campaign on success, nothing on failure. The
      caller is always a logged-in user (the view sits behind the advertiser
      mixin; the parameter is annotated `User`). */
  method Execute(db: Database, user: Actor, dto: CampaignCreateDto, now: nat)
    returns (r: Result<Campaign, ExcClass>)
    requires db.Valid() && user.Authenticated?
    modifies db`campaigns, db`nextCampaignId
    ensures db.Valid()
    ensures r == Create(user, dto, old(db.nextCampaignId), now)
    ensures db.campaigns == old(db.campaigns) + (if r.Success? then [r.value] else [])
    ensures db.nextCampaignId == old(db.nextCampaignId) + (if r.Success? then 1 else 0)
  {
    if user.role != Advertiser {
      return Failure(DjangoPermissionDenied);
    }
    if Before(dto.endDate, dto.startDate) {
      return Failure(DjangoValidationError);
    }
    if dto.recruitmentCount < 1 {
      return Failure(DjangoValidationError);
    }
    var campaign := NewCampaign(user.id, dto, db.nextCampaignId, now);
    db.campaigns := db.campaigns + [campaign];
    db.nextCampaignId := db.nextCampaignId + 1;
    r := Success(campaign);
  }
}
