/** The Proposal record of apps/proposals/models.py: its status, the status
    predicates and the (campaign, influencer) uniqueness constraint. */
module ProposalModel {
  import opened Common
  import opened Seqs

  /** The three values of `Proposal.STATUS_CHOICES`. */
  datatype ProposalStatus = Submitted | Selected | Rejected

  /** The `default=` of the status field. */
  const DefaultStatus: ProposalStatus := Submitted

  datatype Proposal = Proposal(
    id: nat,
    campaign: nat,                // the campaign's id
    influencer: nat,              // the applying user's id
    coverLetter: string,
    visitDate: Date,              // desired_visit_date
    status: ProposalStatus,
    createdAt: nat,
    updatedAt: nat)

  /** `Meta.ordering = ['-created_at']` as a sort key: larger timestamps first.
      Rows with equal timestamps keep the table's order. */
  function ProposalsNewestFirst(): Proposal -> Key
  {
    (p: Proposal) => Key(-(p.createdAt as int), 0)
  }

  /** A list sorted by that key never goes up in `created_at`. */
  lemma ProposalsNewestFirstSorted(r: seq<Proposal>)
    requires SortedBy(r, ProposalsNewestFirst())
    ensures forall i, j :: 0 <= i < j < |r| ==> r[i].createdAt >= r[j].createdAt
  {
    forall i, j | 0 <= i < j < |r| ensures r[i].createdAt >= r[j].createdAt {
      assert KeyLe(ProposalsNewestFirst()(r[i]), ProposalsNewestFirst()(r[j]));
    }
  }

  /** Proposals of one campaign. */
  function OfCampaign(campaignId: nat): Proposal -> bool
  {
    (p: Proposal) => p.campaign == campaignId
  }

  /** Proposals with one status. */
  function WithStatus(s: ProposalStatus): Proposal -> bool
  {
    (p: Proposal) => p.status == s
  }

  /** `Proposal.is_submitted()`. */
  predicate IsSubmitted(p: Proposal)
  {
    p.status == Submitted
  }

  /** `Proposal.is_selected()`. */
  predicate IsSelected(p: Proposal)
  {
    p.status == Selected
  }

  /** A proposal is never both submitted and selected; a new one is submitted. */
  lemma StatusPredicatesExclusive(p: Proposal)
    ensures !(IsSubmitted(p) && IsSelected(p))
    ensures p.status == DefaultStatus ==> IsSubmitted(p) && !IsSelected(p)
  {
  }

  /** `unique_together = [['campaign', 'influencer']]`. */
  predicate UniquePairs(ps: seq<Proposal>)
  {
    forall i, j :: 0 <= i < j < |ps| ==>
      ps[i].campaign != ps[j].campaign || ps[i].influencer != ps[j].influencer
  }

  /** `Proposal.objects.filter(campaign=..., influencer=...).exists()`. */
  predicate HasProposal(ps: seq<Proposal>, campaign: nat, influencer: nat)
  {
    exists k :: 0 <= k < |ps| && ps[k].campaign == campaign && ps[k].influencer == influencer
  }

  /** Proposal ids are assigned in increasing order (auto-increment keys). */
  predicate IdsIncreasing(ps: seq<Proposal>)
  {
    forall i, j :: 0 <= i < j < |ps| ==> ps[i].id < ps[j].id
  }

  /** Appending a proposal whose pair is new keeps the pairs unique. */
  lemma {:induction false} AppendKeepsUniquePairs(ps: seq<Proposal>, p: Proposal)
    requires UniquePairs(ps) && !HasProposal(ps, p.campaign, p.influencer)
    ensures UniquePairs(ps + [p])
  {
    var qs := ps + [p];
    forall i, j | 0 <= i < j < |qs|
      ensures qs[i].campaign != qs[j].campaign || qs[i].influencer != qs[j].influencer
    {
      if j == |ps| {
        assert qs[i] == ps[i];
      } else {
        assert qs[i] == ps[i] && qs[j] == ps[j];
      }
    }
  }
}
