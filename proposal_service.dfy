/** `ProposalCreationService.execute` of apps/proposals/services/proposal_service.py:
    an influencer applies to a campaign that is accepting applications. */
module ProposalCreation {
  import opened Common
  import opened Exceptions
  import opened UserModel
  import opened CampaignModel
  import opened ProposalModel
  import opened Dto
  import opened Store

  /** The new row; the influencer is the caller, whatever the record carries. */
  function NewProposal(dto: ProposalCreateDto, influencer: nat, id: nat, now: nat): Proposal
  {
    Proposal(id, dto.campaignId, influencer, dto.coverLetter, dto.visitDate,
             ProposalModel.DefaultStatus, now, now)
  }

  /** What a call returns, given the next free id and the current date and time. */
  function Apply(cs: seq<Campaign>, ps: seq<Proposal>, user: Actor, dto: ProposalCreateDto,
                 id: nat, today: Date, now: nat): Result<Proposal, ExcClass>
  {
    match user
    case Anonymous => Failure(PermissionDeniedException)
    case Authenticated(uid, role) =>
      if role != Influencer then Failure(PermissionDeniedException)
      else match Find(cs, dto.campaignId)
        case None => Failure(InvalidStateException)
        case Some(k) =>
          if !CanApply(cs[k], today) then Failure(InvalidStateException)
          else if HasProposal(ps, dto.campaignId, uid) then Failure(DuplicateActionException)
          else Success(NewProposal(dto, uid, id, now))
  }

  /** The proposal table after a call. */
  function Applied(cs: seq<Campaign>, ps: seq<Proposal>, user: Actor, dto: ProposalCreateDto,
                   id: nat, today: Date, now: nat): seq<Proposal>
  {
    match Apply(cs, ps, user, dto, id, today, now)
    case Failure(_) => ps
    case Success(p) => ps + [p]
  }

  /** The refusals in source order: who the caller is, then the campaign, then
      its window, then an earlier application. */
  lemma ApplyFailures(cs: seq<Campaign>, ps: seq<Proposal>, user: Actor, dto: ProposalCreateDto,
                      id: nat, today: Date, now: nat)
    ensures (user.Anonymous? || user.role != Influencer) ==>
      Apply(cs, ps, user, dto, id, today, now) == Failure(PermissionDeniedException)
    ensures (user.Authenticated? && user.role == Influencer && Find(cs, dto.campaignId).None?) ==>
      Apply(cs, ps, user, dto, id, today, now) == Failure(InvalidStateException)
    ensures (user.Authenticated? && user.role == Influencer && Find(cs, dto.campaignId).Some?
             && !CanApply(cs[Find(cs, dto.campaignId).value], today)) ==>
      Apply(cs, ps, user, dto, id, today, now) == Failure(InvalidStateException)
    ensures (user.Authenticated? && user.role == Influencer && Find(cs, dto.campaignId).Some?
             && CanApply(cs[Find(cs, dto.campaignId).value], today)
             && HasProposal(ps, dto.campaignId, user.id)) ==>
      Apply(cs, ps, user, dto, id, today, now) == Failure(DuplicateActionException)
    ensures Apply(cs, ps, user, dto, id, today, now).Failure? ==>
      Applied(cs, ps, user, dto, id, today, now) == ps
  {
  }

  /** An application succeeds exactly for an influencer, on an open campaign,
      without an earlier application to it; the new row is a submitted proposal
      of the caller, appended at the end. */
  lemma ApplySucceedsIff(cs: seq<Campaign>, ps: seq<Proposal>, user: Actor, dto: ProposalCreateDto,
                         id: nat, today: Date, now: nat)
    ensures Apply(cs, ps, user, dto, id, today, now).Success? <==>
      && user.Authenticated? && user.role == Influencer
      && (exists k :: 0 <= k < |cs| && cs[k].id == dto.campaignId)
      && CanApply(cs[Find(cs, dto.campaignId).value], today)
      && !HasProposal(ps, dto.campaignId, user.id)
    ensures Apply(cs, ps, user, dto, id, today, now).Success? ==>
      var p := Apply(cs, ps, user, dto, id, today, now).value;
      && p.id == id && p.campaign == dto.campaignId && p.influencer == user.id
      && p.status == Submitted && p.coverLetter == dto.coverLetter && p.visitDate == dto.visitDate
      && Applied(cs, ps, user, dto, id, today, now) == ps + [p]
  {
  }

  /** Applying again to the same campaign is a duplicate action, even when the
      record names another influencer. */
  lemma {:induction false} ApplyTwice(cs: seq<Campaign>, ps: seq<Proposal>, user: Actor,
                                      dto: ProposalCreateDto, dto2: ProposalCreateDto,
                                      id: nat, id2: nat, today: Date, now: nat, later: nat)
    requires Apply(cs, ps, user, dto, id, today, now).Success?
    requires dto2.campaignId == dto.campaignId
    ensures Apply(cs, Applied(cs, ps, user, dto, id, today, now), user, dto2, id2, today, later)
         == Failure(DuplicateActionException)
  {
    var ps1 := Applied(cs, ps, user, dto, id, today, now);
    assert ps1[|ps|].campaign == dto.campaignId && ps1[|ps|].influencer == user.id;
  }

  /** An accepted application never creates a second proposal for the same
      (campaign, influencer) pair. */
  lemma ApplyKeepsUniquePairs(cs: seq<Campaign>, ps: seq<Proposal>, user: Actor, dto: ProposalCreateDto,
                              id: nat, today: Date, now: nat)
    requires UniquePairs(ps)
    ensures UniquePairs(Applied(cs, ps, user, dto, id, today, now))
  {
    match Apply(cs, ps, user, dto, id, today, now)
    case Failure(_) =>
    case Success(p) => AppendKeepsUniquePairs(ps, p);
  }

  /** The service. `today` and `now` stand for the clock. */
  method Execute(db: Database, user: Actor, dto: ProposalCreateDto, today: Date, now: nat)
    returns (r: Result<Proposal, ExcClass>)
    requires db.Valid()
    modifies db`proposals, db`nextProposalId
    ensures db.Valid()
    ensures r == Apply(db.campaigns, old(db.proposals), user, dto, old(db.nextProposalId), today, now)
    ensures db.proposals == Applied(db.campaigns, old(db.proposals), user, dto, old(db.nextProposalId), today, now)
    ensures db.nextProposalId == old(db.nextProposalId) + (if r.Success? then 1 else 0)
  {
    if user.Anonymous? {
      return Failure(PermissionDeniedException);
    }
    if user.role != Influencer {
      return Failure(PermissionDeniedException);
    }
    var found := Find(db.campaigns, dto.campaignId);
    if found.None? {
      return Failure(InvalidStateException);
    }
    var campaign := db.campaigns[found.value];
    if !CanApply(campaign, today) {
      return Failure(InvalidStateException);
    }
    if HasProposal(db.proposals, dto.campaignId, user.id) {
      return Failure(DuplicateActionException);
    }
    var proposal := NewProposal(dto, user.id, db.nextProposalId, now);
    AppendKeepsUniquePairs(db.proposals, proposal);
    db.proposals := db.proposals + [proposal];
    db.nextProposalId := db.nextProposalId + 1;
    r := Success(proposal);
  }
}
