/** The proposal queries of apps/proposals/selectors/proposal_selector.py: an
    influencer's proposals in status order, their per-status counts, and the
    per-campaign lists. */
module ProposalSelector {
  import opened Common
  import opened Seqs
  import opened ProposalModel

  function OfInfluencer(influencerId: nat): Proposal -> bool
  {
    (p: Proposal) => p.influencer == influencerId
  }

  /** The `Case(When(...))` annotation: submitted 1, selected 2, rejected 3. The
      `default=4` branch is never taken, as no other status exists. */
  function StatusOrder(s: ProposalStatus): (n: int)
    ensures 1 <= n <= 3
  {
    match s
    case Submitted => 1
    case Selected => 2
    case Rejected => 3
  }

  /** `order_by('status_order', '-created_at')`. */
  function StatusThenNewest(): Proposal -> Key
  {
    (p: Proposal) => Key(StatusOrder(p.status), -(p.createdAt as int))
  }

  /** `get_influencer_proposals`. */
  function InfluencerProposals(ps: seq<Proposal>, influencerId: nat): seq<Proposal>
  {
    SortByKey(Filter(ps, OfInfluencer(influencerId)), StatusThenNewest())
  }

  /** The list is a permutation of the influencer's proposals; submitted come
      before selected, selected before rejected, and within one status newer
      before older. */
  lemma InfluencerProposalsSpec(ps: seq<Proposal>, influencerId: nat)
    ensures var r := InfluencerProposals(ps, influencerId);
      && multiset(r) == multiset(Filter(ps, OfInfluencer(influencerId)))
      && |r| == Count(ps, OfInfluencer(influencerId))
      && (forall p :: p in r <==> p in ps && p.influencer == influencerId)
      && (forall i, j :: 0 <= i < j < |r| ==>
            StatusOrder(r[i].status) < StatusOrder(r[j].status)
            || (r[i].status == r[j].status && r[i].createdAt >= r[j].createdAt))
  {
    var r := InfluencerProposals(ps, influencerId);
    forall p ensures p in r <==> p in ps && p.influencer == influencerId {
      SortKeepsMembers(Filter(ps, OfInfluencer(influencerId)), StatusThenNewest(), p);
    }
    forall i, j | 0 <= i < j < |r|
      ensures StatusOrder(r[i].status) < StatusOrder(r[j].status)
              || (r[i].status == r[j].status && r[i].createdAt >= r[j].createdAt)
    {
      assert KeyLe(StatusThenNewest()(r[i]), StatusThenNewest()(r[j]));
    }
  }

  /** The statuses a count can be grouped by. */
  const AllStatuses: set<ProposalStatus> := {Submitted, Selected, Rejected}

  /** `get_proposal_count_by_status`: one entry per status that occurs. */
  function CountByStatus(ps: seq<Proposal>, influencerId: nat): map<ProposalStatus, nat>
  {
    var mine := Filter(ps, OfInfluencer(influencerId));
    map s | s in AllStatuses && Count(mine, WithStatus(s)) > 0 :: Count(mine, WithStatus(s))
  }

  /** A missing key reads as zero. */
  function CountOr0(m: map<ProposalStatus, nat>, s: ProposalStatus): nat
  {
    if s in m then m[s] else 0
  }

  /** One status is a key exactly when one of the influencer's proposals has
      it, and then its value counts those proposals. */
  lemma CountByStatusAt(ps: seq<Proposal>, influencerId: nat, s: ProposalStatus)
    ensures var m := CountByStatus(ps, influencerId);
      && (s in m <==> exists p :: p in ps && p.influencer == influencerId && p.status == s)
      && (s in m ==> m[s] == Count(Filter(ps, OfInfluencer(influencerId)), WithStatus(s)))
  {
    var chosen := Filter(Filter(ps, OfInfluencer(influencerId)), WithStatus(s));
    assert s in AllStatuses by {
      assert s.Submitted? || s.Selected? || s.Rejected?;
    }
    OccursIff(ps, influencerId, s);
  }

  /** Some proposal of the influencer has the status exactly when the filtered
      list is not empty. */
  lemma OccursIff(ps: seq<Proposal>, influencerId: nat, s: ProposalStatus)
    ensures |Filter(Filter(ps, OfInfluencer(influencerId)), WithStatus(s))| > 0
      <==> exists p :: p in ps && p.influencer == influencerId && p.status == s
  {
    var chosen := Filter(Filter(ps, OfInfluencer(influencerId)), WithStatus(s));
    if exists p :: p in ps && p.influencer == influencerId && p.status == s {
      var p :| p in ps && p.influencer == influencerId && p.status == s;
      assert p in chosen;
    }
    if |chosen| > 0 {
      assert chosen[0] in chosen;
    }
  }

  /** The keys are exactly the statuses the influencer's proposals have, and
      each value counts those proposals. */
  lemma CountByStatusKeys(ps: seq<Proposal>, influencerId: nat)
    ensures var m := CountByStatus(ps, influencerId);
      && (forall s :: s in m <==> exists p :: p in ps && p.influencer == influencerId && p.status == s)
      && (forall s :: s in m ==> m[s] == Count(Filter(ps, OfInfluencer(influencerId)), WithStatus(s)))
  {
    forall s {
      CountByStatusAt(ps, influencerId, s);
    }
  }

  /** The values add up to all of the influencer's proposals, and the map is
      empty exactly when there are none. */
  lemma CountByStatusTotal(ps: seq<Proposal>, influencerId: nat)
    ensures var m := CountByStatus(ps, influencerId);
      && CountOr0(m, Submitted) + CountOr0(m, Selected) + CountOr0(m, Rejected)
         == Count(ps, OfInfluencer(influencerId))
      && (m == map[] <==> Count(ps, OfInfluencer(influencerId)) == 0)
  {
    var mine := Filter(ps, OfInfluencer(influencerId));
    var m := CountByStatus(ps, influencerId);
    assert forall s :: s in AllStatuses && Count(mine, WithStatus(s)) > 0 ==> s in m;
    var notSubmitted := (p: Proposal) => p.status != Submitted;
    CountSplit(mine, (p: Proposal) => true, WithStatus(Submitted), notSubmitted);
    CountSplit(mine, notSubmitted, WithStatus(Selected), WithStatus(Rejected));
    assert Count(mine, (p: Proposal) => true) == |mine| by {
      FilterAll(mine);
    }
    if m == map[] {
      assert Submitted !in m && Selected !in m && Rejected !in m;
    }
  }

  /** Keeping every element keeps everything. */
  lemma {:induction false} FilterAll(s: seq<Proposal>)
    ensures Filter(s, (p: Proposal) => true) == s
  {
    if s != [] {
      FilterAll(s[1..]);
      assert s == [s[0]] + s[1..];
    }
  }

  /** `get_proposals_by_campaign`. */
  function ProposalsByCampaign(ps: seq<Proposal>, campaignId: nat): seq<Proposal>
  {
    SortByKey(Filter(ps, OfCampaign(campaignId)), ProposalsNewestFirst())
  }

  /** Exactly the campaign's proposals, each as often as in the table, newest
      first. */
  lemma ProposalsByCampaignSpec(ps: seq<Proposal>, campaignId: nat)
    ensures var r := ProposalsByCampaign(ps, campaignId);
      && multiset(r) == multiset(Filter(ps, OfCampaign(campaignId)))
      && (forall p :: p in r <==> p in ps && p.campaign == campaignId)
      && (forall i, j :: 0 <= i < j < |r| ==> r[i].createdAt >= r[j].createdAt)
  {
    var r := ProposalsByCampaign(ps, campaignId);
    forall p ensures p in r <==> p in ps && p.campaign == campaignId {
      SortKeepsMembers(Filter(ps, OfCampaign(campaignId)), ProposalsNewestFirst(), p);
    }
    ProposalsNewestFirstSorted(r);
  }

  /** `get_proposals_by_influencer`, the older list without the status order. */
  function ProposalsByInfluencer(ps: seq<Proposal>, influencerId: nat): seq<Proposal>
  {
    SortByKey(Filter(ps, OfInfluencer(influencerId)), ProposalsNewestFirst())
  }

  /** The same proposals as the status-ordered list, newest first. */
  lemma ProposalsByInfluencerSpec(ps: seq<Proposal>, influencerId: nat)
    ensures var r := ProposalsByInfluencer(ps, influencerId);
      && multiset(r) == multiset(InfluencerProposals(ps, influencerId))
      && (forall p :: p in r <==> p in ps && p.influencer == influencerId)
      && (forall i, j :: 0 <= i < j < |r| ==> r[i].createdAt >= r[j].createdAt)
  {
    var r := ProposalsByInfluencer(ps, influencerId);
    forall p ensures p in r <==> p in ps && p.influencer == influencerId {
      SortKeepsMembers(Filter(ps, OfInfluencer(influencerId)), ProposalsNewestFirst(), p);
    }
    InfluencerProposalsSpec(ps, influencerId);
    ProposalsNewestFirstSorted(r);
  }

  function SelectedOf(campaignId: nat): Proposal -> bool
  {
    (p: Proposal) => p.campaign == campaignId && p.status == Selected
  }

  /** `get_selected_proposals`; without an explicit order the default one
      applies. */
  function SelectedProposals(ps: seq<Proposal>, campaignId: nat): seq<Proposal>
  {
    SortByKey(Filter(ps, SelectedOf(campaignId)), ProposalsNewestFirst())
  }

  /** Exactly the campaign's selected proposals, each as often as in the table,
      newest first. */
  lemma SelectedProposalsSpec(ps: seq<Proposal>, campaignId: nat)
    ensures var r := SelectedProposals(ps, campaignId);
      && multiset(r) == multiset(Filter(ps, SelectedOf(campaignId)))
      && (forall p :: p in r <==> p in ps && p.campaign == campaignId && IsSelected(p))
      && (forall i, j :: 0 <= i < j < |r| ==> r[i].createdAt >= r[j].createdAt)
  {
    var r := SelectedProposals(ps, campaignId);
    forall p ensures p in r <==> p in ps && p.campaign == campaignId && IsSelected(p) {
      SortKeepsMembers(Filter(ps, SelectedOf(campaignId)), ProposalsNewestFirst(), p);
    }
    ProposalsNewestFirstSorted(r);
  }
}
