/** The Campaign record of apps/campaigns/models.py: its lifecycle status, the
    recruiting predicate and the application window. */
module CampaignModel {
  import opened Common
  import opened Seqs

  /** The three values of `Campaign.STATUS_CHOICES`. */
  datatype CampaignStatus = Recruiting | RecruitmentEnded | SelectionComplete

  /** The `default=` of the status field. */
  const DefaultStatus: CampaignStatus := Recruiting

  datatype Campaign = Campaign(
    id: nat,
    advertiser: nat,              // the owning user's id
    name: string,
    startDate: Date,              // recruitment_start_date
    endDate: Date,                // recruitment_end_date
    recruitmentCount: int,
    benefits: string,
    mission: string,
    status: CampaignStatus,
    createdAt: nat,
    updatedAt: nat)

  /** `Meta.ordering = ['-created_at']` as a sort key: larger timestamps first.
      Rows with equal timestamps keep the table's order. */
  function CampaignsNewestFirst(): Campaign -> Key
  {
    (c: Campaign) => Key(-(c.createdAt as int), 0)
  }

  /** A list sorted by that key never goes up in `created_at`. */
  lemma CampaignsNewestFirstSorted(r: seq<Campaign>)
    requires SortedBy(r, CampaignsNewestFirst())
    ensures forall i, j :: 0 <= i < j < |r| ==> r[i].createdAt >= r[j].createdAt
  {
    forall i, j | 0 <= i < j < |r| ensures r[i].createdAt >= r[j].createdAt {
      assert KeyLe(CampaignsNewestFirst()(r[i]), CampaignsNewestFirst()(r[j]));
    }
  }

  /** `Campaign.is_recruiting()`. */
  predicate IsRecruiting(c: Campaign)
  {
    c.status == Recruiting
  }

  /** `Campaign.can_apply()`, with the current date made a parameter. */
  predicate CanApply(c: Campaign, today: Date)
  {
    c.status == Recruiting && NotAfter(c.startDate, today) && NotAfter(today, c.endDate)
  }

  /** Position of a status on the lifecycle path. */
  function Rank(s: CampaignStatus): (n: nat)
    ensures n <= 2
    ensures s == DefaultStatus <==> n == 0
  {
    match s
    case Recruiting => 0
    case RecruitmentEnded => 1
    case SelectionComplete => 2
  }

  /** The single steps the services take: closing and selecting. */
  predicate Advances(from: CampaignStatus, to: CampaignStatus)
  {
    (from == Recruiting && to == RecruitmentEnded)
    || (from == RecruitmentEnded && to == SelectionComplete)
  }

  /** Every step moves one position forward, so no path returns to an earlier
      status. */
  lemma AdvancesIsForward(from: CampaignStatus, to: CampaignStatus)
    ensures Advances(from, to) <==> Rank(to) == Rank(from) + 1
  {
  }

  /** `can_apply` implies `is_recruiting`. */
  lemma CanApplyImpliesRecruiting(c: Campaign, today: Date)
    ensures CanApply(c, today) ==> IsRecruiting(c)
  {
  }

  /** Both ends of the window are inclusive. */
  lemma CanApplyWindowInclusive(c: Campaign)
    requires IsRecruiting(c) && NotAfter(c.startDate, c.endDate)
    ensures CanApply(c, c.startDate) && CanApply(c, c.endDate)
  {
  }

  /** A window that ends before it starts admits no day at all. */
  lemma {:induction false} CanApplyEmptyWindow(c: Campaign, today: Date)
    requires Before(c.endDate, c.startDate)
    ensures !CanApply(c, today)
  {
    if CanApply(c, today) {
      if Before(c.startDate, today) {
        DateTransitive(c.endDate, c.startDate, today);
      }
      DateTrichotomy(today, c.endDate);
    }
  }

  /** Campaign ids are assigned in increasing order (auto-increment keys). */
  predicate IdsIncreasing(cs: seq<Campaign>)
  {
    forall i, j :: 0 <= i < j < |cs| ==> cs[i].id < cs[j].id
  }

  /** `Campaign.objects.get(id=...)`: the position of the campaign with that id. */
  function Find(cs: seq<Campaign>, id: nat): (r: Option<nat>)
    ensures r.Some? ==> r.value < |cs| && cs[r.value].id == id
    ensures r.None? <==> forall k :: 0 <= k < |cs| ==> cs[k].id != id
  {
    if cs == [] then None
    else if cs[|cs| - 1].id == id then Some(|cs| - 1)
    else Find(cs[..|cs| - 1], id)
  }

  /** With distinct ids the lookup is determined by the id. */
  lemma FindUnique(cs: seq<Campaign>, id: nat, k: nat)
    requires IdsIncreasing(cs) && k < |cs| && cs[k].id == id
    ensures Find(cs, id) == Some(k)
  {
  }

  /** Replacing a record by one with the same id does not move any lookup. */
  lemma {:induction false} FindAfterUpdate(cs: seq<Campaign>, k: nat, c: Campaign, id: nat)
    requires k < |cs| && c.id == cs[k].id
    ensures Find(cs[k := c], id) == Find(cs, id)
  {
    if cs != [] {
      var n := |cs| - 1;
      if k < n {
        assert cs[k := c][..n] == cs[..n][k := c];
        FindAfterUpdate(cs[..n], k, c, id);
      } else {
        assert cs[k := c][..n] == cs[..n];
      }
    }
  }
}
