/** `InfluencerSelectionService.execute` of
    apps/campaigns/services/influencer_selection.py: guards, the validation
    count, two bulk updates over the proposal table, and the campaign's move to
    selection_complete. */
module InfluencerSelection {
  import opened Common
  import opened Seqs
  import opened Exceptions
  import opened UserModel
  import opened CampaignModel
  import opened ProposalModel
  import opened Dto
  import opened Store

  /** Rows the validation query counts: listed, of this campaign, submitted. */
  function ValidChoice(campaignId: nat, ids: seq<nat>): Proposal -> bool
  {
    (p: Proposal) => p.id in ids && p.campaign == campaignId && p.status == Submitted
  }

  /** Rows the first update touches: listed and of this campaign. */
  function Chosen(campaignId: nat, ids: seq<nat>): Proposal -> bool
  {
    (p: Proposal) => p.id in ids && p.campaign == campaignId
  }

  /** Rows the second update touches: of this campaign, submitted, not listed. */
  function Passed(campaignId: nat, ids: seq<nat>): Proposal -> bool
  {
    (p: Proposal) => p.campaign == campaignId && p.status == Submitted && p.id !in ids
  }

  /** The submitted proposals of a campaign. */
  function SubmittedTo(campaignId: nat): Proposal -> bool
  {
    (p: Proposal) => p.campaign == campaignId && p.status == Submitted
  }

  function SelectRow(p: Proposal, campaignId: nat, ids: seq<nat>, now: nat): Proposal
  {
    if Chosen(campaignId, ids)(p) then p.(status := Selected, updatedAt := now) else p
  }

  function RejectRow(p: Proposal, campaignId: nat, ids: seq<nat>, now: nat): Proposal
  {
    if Passed(campaignId, ids)(p) then p.(status := Rejected, updatedAt := now) else p
  }

  /** The table after `filter(id__in=ids, campaign=c).update(status='selected')`. */
  function MarkSelected(ps: seq<Proposal>, campaignId: nat, ids: seq<nat>, now: nat): (r: seq<Proposal>)
    ensures |r| == |ps|
  {
    seq(|ps|, k requires 0 <= k < |ps| => SelectRow(ps[k], campaignId, ids, now))
  }

  /** The table after `filter(campaign=c, status='submitted').exclude(id__in=ids)
      .update(status='rejected')`. */
  function MarkRejected(ps: seq<Proposal>, campaignId: nat, ids: seq<nat>, now: nat): (r: seq<Proposal>)
    ensures |r| == |ps|
  {
    seq(|ps|, k requires 0 <= k < |ps| => RejectRow(ps[k], campaignId, ids, now))
  }

  /** The guards in source order; on success, the campaign's position. */
  function Check(cs: seq<Campaign>, ps: seq<Proposal>, user: Actor, dto: InfluencerSelectionDto)
    : (r: Result<nat, ExcClass>)
    ensures r.Success? ==> r.value < |cs|
  {
    var ids := dto.selectedProposalIds;
    match Find(cs, dto.campaignId)
    case None => Failure(InvalidStateException)
    case Some(k) =>
      if ActorId(user) != Some(cs[k].advertiser) then Failure(PermissionDeniedException)
      else if cs[k].status != RecruitmentEnded then Failure(InvalidStateException)
      else if |ids| == 0 then Failure(ServiceException)
      else if |ids| > cs[k].recruitmentCount then Failure(ServiceException)
      else if Count(ps, ValidChoice(dto.campaignId, ids)) != |ids| then Failure(ServiceException)
      else Success(k)
  }

  /** Outcome of a call: the returned value and both tables afterwards. */
  datatype Selection = Selection(
    result: Result<InfluencerSelectionResultDto, ExcClass>,
    campaigns: seq<Campaign>,
    proposals: seq<Proposal>)

  function Select(cs: seq<Campaign>, ps: seq<Proposal>, user: Actor, dto: InfluencerSelectionDto, now: nat)
    : Selection
  {
    var cid, ids := dto.campaignId, dto.selectedProposalIds;
    match Check(cs, ps, user, dto)
    case Failure(e) => Selection(Failure(e), cs, ps)
    case Success(k) =>
      var afterSelect := MarkSelected(ps, cid, ids, now);
      var result := InfluencerSelectionResultDto(
        cs[k].id, Count(ps, Chosen(cid, ids)),
        Count(afterSelect, Passed(cid, ids)), SelectionComplete);
      Selection(Success(result),
                cs[k := cs[k].(status := SelectionComplete, updatedAt := now)],
                MarkRejected(afterSelect, cid, ids, now))
  }

  /** The guards fail in their source order, and a failing call leaves both
      tables as they were. */
  lemma SelectFailures(cs: seq<Campaign>, ps: seq<Proposal>, user: Actor, dto: InfluencerSelectionDto, now: nat)
    ensures Find(cs, dto.campaignId).None? ==>
      Select(cs, ps, user, dto, now).result == Failure(InvalidStateException)
    ensures Find(cs, dto.campaignId).Some? && ActorId(user) != Some(cs[Find(cs, dto.campaignId).value].advertiser) ==>
      Select(cs, ps, user, dto, now).result == Failure(PermissionDeniedException)
    ensures (Find(cs, dto.campaignId).Some? && ActorId(user) == Some(cs[Find(cs, dto.campaignId).value].advertiser)
             && cs[Find(cs, dto.campaignId).value].status != RecruitmentEnded) ==>
      Select(cs, ps, user, dto, now).result == Failure(InvalidStateException)
    ensures (Find(cs, dto.campaignId).Some? && ActorId(user) == Some(cs[Find(cs, dto.campaignId).value].advertiser)
             && cs[Find(cs, dto.campaignId).value].status == RecruitmentEnded
             && (|dto.selectedProposalIds| == 0
                 || |dto.selectedProposalIds| > cs[Find(cs, dto.campaignId).value].recruitmentCount)) ==>
      Select(cs, ps, user, dto, now).result == Failure(ServiceException)
    ensures Select(cs, ps, user, dto, now).result.Failure? ==>
      Select(cs, ps, user, dto, now).campaigns == cs && Select(cs, ps, user, dto, now).proposals == ps
  {
  }

  /** Proposal ids are pairwise different. */
  predicate DistinctIds(ps: seq<Proposal>)
  {
    forall i, j :: 0 <= i < j < |ps| ==> ps[i].id != ps[j].id
  }

  /** The ids occurring in a list of proposals. */
  function IdsOf(ps: seq<Proposal>): set<nat>
  {
    set p | p in ps :: p.id
  }

  lemma IdsOfCons(x: Proposal, s: seq<Proposal>)
    ensures IdsOf([x] + s) == {x.id} + IdsOf(s)
  {
    assert forall q :: q in [x] + s <==> q == x || q in s;
  }

  lemma DistinctIdsTail(ps: seq<Proposal>)
    requires DistinctIds(ps) && ps != []
    ensures DistinctIds(ps[1..])
  {
    var t := ps[1..];
    forall i, j | 0 <= i < j < |t| ensures t[i].id != t[j].id {
      assert t[i] == ps[i + 1] && t[j] == ps[j + 1];
    }
  }

  /** With distinct ids, the head's id occurs nowhere among the kept rows of
      the tail. */
  lemma HeadIdNotInRest(ps: seq<Proposal>, p: Proposal -> bool)
    requires DistinctIds(ps) && ps != []
    ensures ps[0].id !in IdsOf(Filter(ps[1..], p))
  {
    var t := ps[1..];
    forall q | q in Filter(t, p) ensures q.id != ps[0].id {
      assert q in t;
      var j :| 0 <= j < |t| && t[j] == q;
      assert ps[j + 1] == q;
    }
  }

  /** With distinct ids, the filtered rows carry as many ids as they are rows. */
  lemma {:induction false} CountIsIdCount(ps: seq<Proposal>, p: Proposal -> bool)
    requires DistinctIds(ps)
    ensures |IdsOf(Filter(ps, p))| == Count(ps, p)
  {
    if ps != [] {
      var t := ps[1..];
      DistinctIdsTail(ps);
      CountIsIdCount(t, p);
      var rest := Filter(t, p);
      assert ps == [ps[0]] + t;
      if p(ps[0]) {
        assert Filter(ps, p) == [ps[0]] + rest;
        IdsOfCons(ps[0], rest);
        HeadIdNotInRest(ps, p);
      } else {
        assert Filter(ps, p) == rest;
      }
    }
  }

  /** The ids the validation query counts are among the listed ones, and there
      are as many of them as the query counts. */
  lemma ValidIdsListed(ps: seq<Proposal>, campaignId: nat, ids: seq<nat>)
    requires DistinctIds(ps)
    ensures IdsOf(Filter(ps, ValidChoice(campaignId, ids))) <= Elements(ids)
    ensures |IdsOf(Filter(ps, ValidChoice(campaignId, ids)))| == Count(ps, ValidChoice(campaignId, ids))
  {
    CountIsIdCount(ps, ValidChoice(campaignId, ids));
  }

  /** A full count means no id is listed twice and each names a valid row. */
  lemma ValidationOnlyIf(ps: seq<Proposal>, campaignId: nat, ids: seq<nat>)
    requires DistinctIds(ps) && Count(ps, ValidChoice(campaignId, ids)) == |ids|
    ensures Distinct(ids)
    ensures forall id :: id in ids ==>
      exists k :: 0 <= k < |ps| && ps[k].id == id && ValidChoice(campaignId, ids)(ps[k])
  {
    var valid := ValidChoice(campaignId, ids);
    var v := IdsOf(Filter(ps, valid));
    ValidIdsListed(ps, campaignId, ids);
    ElementsCard(ids);
    SubsetCard(v, Elements(ids));
    forall id | id in ids
      ensures exists k :: 0 <= k < |ps| && ps[k].id == id && valid(ps[k])
    {
      assert id in Elements(ids);
      var q :| q in Filter(ps, valid) && q.id == id;
      var k :| 0 <= k < |ps| && ps[k] == q;
    }
  }

  /** Distinct ids that each name a valid row give a full count. */
  lemma ValidationIf(ps: seq<Proposal>, campaignId: nat, ids: seq<nat>)
    requires DistinctIds(ps) && Distinct(ids)
    requires forall id :: id in ids ==>
      exists k :: 0 <= k < |ps| && ps[k].id == id && ValidChoice(campaignId, ids)(ps[k])
    ensures Count(ps, ValidChoice(campaignId, ids)) == |ids|
  {
    var valid := ValidChoice(campaignId, ids);
    var v := IdsOf(Filter(ps, valid));
    ValidIdsListed(ps, campaignId, ids);
    ElementsCard(ids);
    forall id | id in Elements(ids) ensures id in v {
      var k :| 0 <= k < |ps| && ps[k].id == id && valid(ps[k]);
      assert ps[k] in Filter(ps, valid);
    }
    assert v == Elements(ids);
  }

  /** The validation count equals the number of listed ids exactly when no id
      is listed twice and every listed id names a submitted proposal of the
      campaign. */
  lemma ValidationIff(ps: seq<Proposal>, campaignId: nat, ids: seq<nat>)
    requires DistinctIds(ps)
    ensures Count(ps, ValidChoice(campaignId, ids)) == |ids| <==>
      Distinct(ids) && forall id :: id in ids ==>
        exists k :: 0 <= k < |ps| && ps[k].id == id && ValidChoice(campaignId, ids)(ps[k])
  {
    if Count(ps, ValidChoice(campaignId, ids)) == |ids| {
      ValidationOnlyIf(ps, campaignId, ids);
    }
    if Distinct(ids) && forall id :: id in ids ==>
        exists k :: 0 <= k < |ps| && ps[k].id == id && ValidChoice(campaignId, ids)(ps[k]) {
      ValidationIf(ps, campaignId, ids);
    }
  }

  /** Once validation has passed, the first update touches exactly the listed
      rows, all of them submitted. */
  lemma ChosenAreValid(ps: seq<Proposal>, campaignId: nat, ids: seq<nat>)
    requires DistinctIds(ps) && Count(ps, ValidChoice(campaignId, ids)) == |ids|
    ensures forall q :: q in ps ==> Chosen(campaignId, ids)(q) == ValidChoice(campaignId, ids)(q)
    ensures Count(ps, Chosen(campaignId, ids)) == |ids|
  {
    ValidationOnlyIf(ps, campaignId, ids);
    forall q | q in ps && Chosen(campaignId, ids)(q) ensures q.status == Submitted {
      var j :| 0 <= j < |ps| && ps[j] == q;
      var k :| 0 <= k < |ps| && ps[k].id == q.id && ValidChoice(campaignId, ids)(ps[k]);
      assert j == k;
    }
    CountCongruent(ps, Chosen(campaignId, ids), ValidChoice(campaignId, ids));
  }

  /** On success `selected_count` is the number of listed ids, and `selected_count
      + rejected_count` is the number of submitted proposals the campaign had. */
  lemma SelectCounts(cs: seq<Campaign>, ps: seq<Proposal>, user: Actor, dto: InfluencerSelectionDto, now: nat)
    requires DistinctIds(ps)
    requires Select(cs, ps, user, dto, now).result.Success?
    ensures Select(cs, ps, user, dto, now).result.value.selectedCount == |dto.selectedProposalIds|
    ensures Select(cs, ps, user, dto, now).result.value.selectedCount
          + Select(cs, ps, user, dto, now).result.value.rejectedCount
         == Count(ps, SubmittedTo(dto.campaignId))
  {
    var cid, ids := dto.campaignId, dto.selectedProposalIds;
    ChosenAreValid(ps, cid, ids);
    var afterSelect := MarkSelected(ps, cid, ids, now);
    CountPointwise(afterSelect, ps, Passed(cid, ids), Passed(cid, ids));
    CountSplit(ps, SubmittedTo(cid), ValidChoice(cid, ids), Passed(cid, ids));
  }

  /** On success: every listed proposal becomes selected, every other submitted
      proposal of the campaign becomes rejected, and the rest is unchanged. */
  lemma SelectEffect(cs: seq<Campaign>, ps: seq<Proposal>, user: Actor, dto: InfluencerSelectionDto, now: nat)
    requires DistinctIds(ps)
    requires Select(cs, ps, user, dto, now).result.Success?
    ensures var after := Select(cs, ps, user, dto, now).proposals;
      && |after| == |ps|
      && (forall k :: 0 <= k < |ps| && ps[k].id in dto.selectedProposalIds && ps[k].campaign == dto.campaignId ==>
            ps[k].status == Submitted && after[k] == ps[k].(status := Selected, updatedAt := now))
      && (forall k :: 0 <= k < |ps| && ps[k].id !in dto.selectedProposalIds
                      && ps[k].campaign == dto.campaignId && ps[k].status == Submitted ==>
            after[k] == ps[k].(status := Rejected, updatedAt := now))
      && (forall k :: 0 <= k < |ps| && (ps[k].campaign != dto.campaignId || ps[k].status != Submitted) ==>
            after[k] == ps[k])
  {
    var cid, ids := dto.campaignId, dto.selectedProposalIds;
    ChosenAreValid(ps, cid, ids);
    var after := Select(cs, ps, user, dto, now).proposals;
    assert after == MarkRejected(MarkSelected(ps, cid, ids, now), cid, ids, now);
    forall k | 0 <= k < |ps| && ps[k].id in ids && ps[k].campaign == cid
      ensures ps[k].status == Submitted && after[k] == ps[k].(status := Selected, updatedAt := now)
    {
      assert ps[k] in ps && Chosen(cid, ids)(ps[k]);
    }
  }

  /** On success every listed id names a proposal that is now selected. */
  lemma SelectCoversIds(cs: seq<Campaign>, ps: seq<Proposal>, user: Actor, dto: InfluencerSelectionDto, now: nat)
    requires DistinctIds(ps)
    requires Select(cs, ps, user, dto, now).result.Success?
    ensures var after := Select(cs, ps, user, dto, now).proposals;
      forall id :: id in dto.selectedProposalIds ==>
        exists k :: 0 <= k < |after| && after[k].id == id && after[k].status == Selected
  {
    var cid, ids := dto.campaignId, dto.selectedProposalIds;
    ValidationOnlyIf(ps, cid, ids);
    var after := Select(cs, ps, user, dto, now).proposals;
    forall id | id in ids
      ensures exists k :: 0 <= k < |after| && after[k].id == id && after[k].status == Selected
    {
      var k :| 0 <= k < |ps| && ps[k].id == id && ValidChoice(cid, ids)(ps[k]);
      assert after[k].id == id && after[k].status == Selected;
    }
  }

  /** On success the campaign, which had ended recruitment, alone moves to
      selection_complete. */
  lemma SelectCampaignEffect(cs: seq<Campaign>, ps: seq<Proposal>, user: Actor, dto: InfluencerSelectionDto, now: nat)
    requires Select(cs, ps, user, dto, now).result.Success?
    ensures var k := Find(cs, dto.campaignId).value;
      var after := Select(cs, ps, user, dto, now).campaigns;
      && Find(cs, dto.campaignId).Some?
      && |after| == |cs|
      && cs[k].status == RecruitmentEnded
      && after[k] == cs[k].(status := SelectionComplete, updatedAt := now)
      && (forall j :: 0 <= j < |cs| && j != k ==> after[j] == cs[j])
  {
  }

  /** Every campaign's status stays put or takes one forward step. */
  lemma SelectIsForward(cs: seq<Campaign>, ps: seq<Proposal>, user: Actor, dto: InfluencerSelectionDto, now: nat)
    ensures |Select(cs, ps, user, dto, now).campaigns| == |cs|
    ensures forall j :: 0 <= j < |cs| ==>
      var s := Select(cs, ps, user, dto, now).campaigns[j].status;
      s == cs[j].status || Advances(cs[j].status, s)
  {
  }

  /** A table whose rows keep their ids and (campaign, influencer) pairs keeps
      the proposal constraints. */
  lemma {:induction false} UpdatesKeepKeys(ps: seq<Proposal>, qs: seq<Proposal>, bound: nat)
    requires |ps| == |qs|
    requires forall k :: 0 <= k < |ps| ==>
      qs[k].id == ps[k].id && qs[k].campaign == ps[k].campaign && qs[k].influencer == ps[k].influencer
    requires ProposalModel.IdsIncreasing(ps) && UniquePairs(ps)
    requires forall k :: 0 <= k < |ps| ==> ps[k].id < bound
    ensures ProposalModel.IdsIncreasing(qs) && UniquePairs(qs)
    ensures forall k :: 0 <= k < |qs| ==> qs[k].id < bound
  {
  }

  /** The first bulk update; returns the number of rows it changed. */
  method UpdateSelected(db: Database, cid: nat, ids: seq<nat>, now: nat) returns (selected: nat)
    modifies db`proposals
    ensures db.proposals == MarkSelected(old(db.proposals), cid, ids, now)
    ensures selected == Count(old(db.proposals), Chosen(cid, ids))
  {
    ghost var ps := db.proposals;
    selected := 0;
    var i := 0;
    while i < |db.proposals|
      invariant |db.proposals| == |ps| && 0 <= i <= |ps|
      invariant forall j :: 0 <= j < i ==> db.proposals[j] == SelectRow(ps[j], cid, ids, now)
      invariant forall j :: i <= j < |ps| ==> db.proposals[j] == ps[j]
      invariant selected == Count(ps[..i], Chosen(cid, ids))
    {
      var p := db.proposals[i];
      if p.id in ids && p.campaign == cid {
        db.proposals := db.proposals[i := p.(status := Selected, updatedAt := now)];
        selected := selected + 1;
      }
      CountSnoc(ps[..i], ps[i], Chosen(cid, ids));
      assert ps[..i + 1] == ps[..i] + [ps[i]];
      i := i + 1;
    }
    assert ps[..i] == ps;
  }

  /** The second bulk update; returns the number of rows it changed. */
  method UpdateRejected(db: Database, cid: nat, ids: seq<nat>, now: nat) returns (rejected: nat)
    modifies db`proposals
    ensures db.proposals == MarkRejected(old(db.proposals), cid, ids, now)
    ensures rejected == Count(old(db.proposals), Passed(cid, ids))
  {
    ghost var ps := db.proposals;
    rejected := 0;
    var i := 0;
    while i < |db.proposals|
      invariant |db.proposals| == |ps| && 0 <= i <= |ps|
      invariant forall j :: 0 <= j < i ==> db.proposals[j] == RejectRow(ps[j], cid, ids, now)
      invariant forall j :: i <= j < |ps| ==> db.proposals[j] == ps[j]
      invariant rejected == Count(ps[..i], Passed(cid, ids))
    {
      var p := db.proposals[i];
      if p.campaign == cid && p.status == Submitted && p.id !in ids {
        db.proposals := db.proposals[i := p.(status := Rejected, updatedAt := now)];
        rejected := rejected + 1;
      }
      CountSnoc(ps[..i], ps[i], Passed(cid, ids));
      assert ps[..i + 1] == ps[..i] + [ps[i]];
      i := i + 1;
    }
    assert ps[..i] == ps;
  }

  /** The service. Both bulk updates are loops over the proposal table. */
  method Execute(db: Database, user: Actor, dto: InfluencerSelectionDto, now: nat)
    returns (r: Result<InfluencerSelectionResultDto, ExcClass>)
    requires db.Valid()
    modifies db`campaigns, db`proposals
    ensures db.Valid()
    ensures r == Select(old(db.campaigns), old(db.proposals), user, dto, now).result
    ensures db.campaigns == Select(old(db.campaigns), old(db.proposals), user, dto, now).campaigns
    ensures db.proposals == Select(old(db.campaigns), old(db.proposals), user, dto, now).proposals
  {
    var cid, ids := dto.campaignId, dto.selectedProposalIds;
    var found := Find(db.campaigns, cid);
    if found.None? {
      return Failure(InvalidStateException);
    }
    var k := found.value;
    var campaign := db.campaigns[k];
    if ActorId(user) != Some(campaign.advertiser) {
      return Failure(PermissionDeniedException);
    }
    if campaign.status != RecruitmentEnded {
      return Failure(InvalidStateException);
    }
    var selectedCount := |ids|;
    if selectedCount == 0 {
      return Failure(ServiceException);
    }
    if selectedCount > campaign.recruitmentCount {
      return Failure(ServiceException);
    }
    if Count(db.proposals, ValidChoice(cid, ids)) != selectedCount {
      return Failure(ServiceException);
    }

    assert Check(db.campaigns, db.proposals, user, dto) == Success(k);
    var result := Commit(db, k, cid, ids, now);
    r := Success(result);
  }

  /** The two bulk updates and the campaign's new status, once every guard
      has passed. */
  method Commit(db: Database, k: nat, cid: nat, ids: seq<nat>, now: nat)
    returns (result: InfluencerSelectionResultDto)
    requires db.Valid() && k < |db.campaigns| && db.campaigns[k].id == cid
    modifies db`campaigns, db`proposals
    ensures db.Valid()
    ensures db.proposals == MarkRejected(MarkSelected(old(db.proposals), cid, ids, now), cid, ids, now)
    ensures db.campaigns == old(db.campaigns)[k := old(db.campaigns)[k].(status := SelectionComplete, updatedAt := now)]
    ensures result == InfluencerSelectionResultDto(
      cid, Count(old(db.proposals), Chosen(cid, ids)),
      Count(MarkSelected(old(db.proposals), cid, ids, now), Passed(cid, ids)), SelectionComplete)
  {
    var selected, rejected := UpdateProposals(db, cid, ids, now);
    var campaign := db.campaigns[k].(status := SelectionComplete, updatedAt := now);
    db.campaigns := db.campaigns[k := campaign];
    result := InfluencerSelectionResultDto(campaign.id, selected, rejected, campaign.status);
  }

  /** Both bulk updates; the proposal table keeps its constraints. */
  method UpdateProposals(db: Database, cid: nat, ids: seq<nat>, now: nat)
    returns (selected: nat, rejected: nat)
    requires db.Valid()
    modifies db`proposals
    ensures db.Valid()
    ensures db.proposals == MarkRejected(MarkSelected(old(db.proposals), cid, ids, now), cid, ids, now)
    ensures selected == Count(old(db.proposals), Chosen(cid, ids))
    ensures rejected == Count(MarkSelected(old(db.proposals), cid, ids, now), Passed(cid, ids))
  {
    ghost var ps := db.proposals;
    selected := UpdateSelected(db, cid, ids, now);
    rejected := UpdateRejected(db, cid, ids, now);
    UpdatesKeepKeys(ps, db.proposals, db.nextProposalId);
  }
}
