/** The second `CampaignCreationService.execute`, in
    apps/campaigns/services/campaign_service.py: it also refuses an anonymous
    caller and raises the service-layer exceptions. */
module CampaignService {
  import opened Common
  import opened Exceptions
  import opened UserModel
  import opened CampaignModel
  import opened Dto
  import opened Store
  import CampaignCreation

  /** The guards in source order; `None` when all pass. */
  function Check(user: Actor, dto: CampaignCreateDto): Option<ExcClass>
  {
    if user.Anonymous? then Some(PermissionDeniedException)
    else if user.role != Advertiser then Some(PermissionDeniedException)
    else if Before(dto.endDate, dto.startDate) then Some(ValidationException)
    else if dto.recruitmentCount <= 0 then Some(ValidationException)
    else None
  }

  function Create(user: Actor, dto: CampaignCreateDto, id: nat, now: nat): Result<Campaign, ExcClass>
  {
    match Check(user, dto)
    case Some(e) => Failure(e)
    case None => Success(CampaignCreation.NewCampaign(user.id, dto, id, now))
  }

  /** Anonymous and non-advertiser callers get PermissionDenied; an advertiser
      is refused with ValidationException exactly when the end date precedes the
      start date or the count is not positive. */
  lemma CheckOutcomes(user: Actor, dto: CampaignCreateDto)
    ensures user.Anonymous? ==> Check(user, dto) == Some(PermissionDeniedException)
    ensures user.Authenticated? && user.role != Advertiser ==>
      Check(user, dto) == Some(PermissionDeniedException)
    ensures user.Authenticated? && user.role == Advertiser ==>
      (Check(user, dto) == Some(ValidationException) <==>
         Before(dto.endDate, dto.startDate) || dto.recruitmentCount <= 0)
    ensures Check(user, dto).None? ==> dto.startDate == dto.endDate || Before(dto.startDate, dto.endDate)
  {
    if Check(user, dto).None? {
      DateTrichotomy(dto.startDate, dto.endDate);
    }
  }

  /** For a logged-in caller both creation services accept the same requests
      and then store the same record; they differ only in the exception class,
      and the other copy's exceptions are not ServiceExceptions. */
  lemma SameAcceptanceAsCampaignCreation(user: Actor, dto: CampaignCreateDto, id: nat, now: nat)
    requires user.Authenticated?
    ensures Create(user, dto, id, now).Success? <==> CampaignCreation.Create(user, dto, id, now).Success?
    ensures Create(user, dto, id, now).Success? ==>
      Create(user, dto, id, now) == CampaignCreation.Create(user, dto, id, now)
    ensures CampaignCreation.Create(user, dto, id, now).Failure? ==>
      !IsSubclass(CampaignCreation.Create(user, dto, id, now).error, ServiceException)
  {
  }

  method Execute(db: Database, user: Actor, dto: CampaignCreateDto, now: nat)
    returns (r: Result<Campaign, ExcClass>)
    requires db.Valid()
    modifies db`campaigns, db`nextCampaignId
    ensures db.Valid()
    ensures r == Create(user, dto, old(db.nextCampaignId), now)
    ensures db.campaigns == old(db.campaigns) + (if r.Success? then [r.value] else [])
    ensures db.nextCampaignId == old(db.nextCampaignId) + (if r.Success? then 1 else 0)
  {
    if user.Anonymous? {
      return Failure(PermissionDeniedException);
    }
    if user.role != Advertiser {
      return Failure(PermissionDeniedException);
    }
    if Before(dto.endDate, dto.startDate) {
      return Failure(ValidationException);
    }
    if dto.recruitmentCount <= 0 {
      return Failure(ValidationException);
    }
    var campaign := CampaignCreation.NewCampaign(user.id, dto, db.nextCampaignId, now);
    db.campaigns := db.campaigns + [campaign];
    db.nextCampaignId := db.nextCampaignId + 1;
    r := Success(campaign);
  }
}
