/** `CampaignCreateForm.clean` of apps/campaigns/forms.py: the cross-field
    date rule, on the two dates as left in `cleaned_data`. */
module CampaignForm {
  import opened Common
  import opened Exceptions
  import opened UserModel
  import opened Dto
  import CampaignService
  import CampaignCreation

  /** An error only when both dates are there and the end precedes the start. */
  function Clean(start: Option<Date>, end: Option<Date>): (r: Option<ExcClass>)
    ensures r.Some? ==> r.value == DjangoValidationError
  {
    if start.Some? && end.Some? && Before(end.value, start.value) then Some(DjangoValidationError) else None
  }

  /** A missing date never triggers the rule; with both present it fires
      exactly when the end date is strictly earlier, so equal dates pass. */
  lemma CleanSpec(start: Option<Date>, end: Option<Date>)
    ensures start.None? || end.None? ==> Clean(start, end).None?
    ensures start.Some? && end.Some? ==>
      (Clean(start, end).None? <==> start.value == end.value || Before(start.value, end.value))
  {
    if start.Some? && end.Some? {
      DateTrichotomy(start.value, end.value);
    }
  }

  /** The form and both creation services apply the same date rule: for an
      advertiser, a request whose dates the form accepts is refused by the
      services only for its recruit count, and one whose dates it rejects is
      refused by both with their validation error. */
  lemma AgreesWithServices(user: Actor, dto: CampaignCreateDto, id: nat, now: nat)
    requires user.Authenticated? && user.role == Advertiser
    ensures Clean(Some(dto.startDate), Some(dto.endDate)).None? && dto.recruitmentCount >= 1 ==>
      CampaignService.Create(user, dto, id, now).Success? && CampaignCreation.Create(user, dto, id, now).Success?
    ensures Clean(Some(dto.startDate), Some(dto.endDate)).Some? ==>
      CampaignService.Create(user, dto, id, now) == Failure(ValidationException)
      && CampaignCreation.Create(user, dto, id, now) == Failure(DjangoValidationError)
  {
  }
}
