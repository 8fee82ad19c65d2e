/** The relational store beneath the services: one table per model, held as
    sequences in insertion order, with the auto-increment counters that assign
    ids. Only the services change it. */
module Store {
  import opened UserModel
  import opened CampaignModel
  import opened ProposalModel

  /** No two profiles of one kind belong to the same user (one-to-one keys). */
  predicate AdvertiserProfilesKeyed(ps: seq<AdvertiserProfile>)
  {
    forall i, j :: 0 <= i < j < |ps| ==> ps[i].user != ps[j].user
  }

  predicate InfluencerProfilesKeyed(ps: seq<InfluencerProfile>)
  {
    forall i, j :: 0 <= i < j < |ps| ==> ps[i].user != ps[j].user
  }

  class Database {
    var users: seq<User>
    var advertiserProfiles: seq<AdvertiserProfile>
    var influencerProfiles: seq<InfluencerProfile>
    var campaigns: seq<Campaign>
    var proposals: seq<Proposal>
    var nextUserId: nat
    var nextCampaignId: nat
    var nextProposalId: nat

    /** The database constraints: primary keys, `unique=True` columns,
        one-to-one profile keys and `unique_together` on proposals. */
    ghost predicate Valid()
      reads this
    {
      && UserModel.IdsIncreasing(users)
      && (forall k :: 0 <= k < |users| ==> users[k].id < nextUserId)
      && UniqueEmails(users) && UniqueContacts(users) && NormalizedEmails(users)
      && AdvertiserProfilesKeyed(advertiserProfiles)
      && InfluencerProfilesKeyed(influencerProfiles)
      && (forall k :: 0 <= k < |advertiserProfiles| ==> advertiserProfiles[k].user < nextUserId)
      && (forall k :: 0 <= k < |influencerProfiles| ==> influencerProfiles[k].user < nextUserId)
      && CampaignModel.IdsIncreasing(campaigns)
      && (forall k :: 0 <= k < |campaigns| ==> campaigns[k].id < nextCampaignId)
      && ProposalModel.IdsIncreasing(proposals)
      && (forall k :: 0 <= k < |proposals| ==> proposals[k].id < nextProposalId)
      && UniquePairs(proposals)
    }

    /** An empty database; ids start at 1. */
    constructor ()
      ensures Valid()
      ensures users == [] && advertiserProfiles == [] && influencerProfiles == []
      ensures campaigns == [] && proposals == []
      ensures nextUserId == 1 && nextCampaignId == 1 && nextProposalId == 1
    {
      users, advertiserProfiles, influencerProfiles := [], [], [];
      campaigns, proposals := [], [];
      nextUserId, nextCampaignId, nextProposalId := 1, 1, 1;
    }
  }
}
