/** The frozen data-transfer records that views hand to services and that
    selectors hand back to views. */
module Dto {
  import opened Common
  import opened UserModel
  import opened CampaignModel
  import opened ProposalModel

  datatype CampaignCreateDto = CampaignCreateDto(
    name: string, startDate: Date, endDate: Date, recruitmentCount: int,
    benefits: string, mission: string)

  datatype CampaignCloseDto = CampaignCloseDto(campaignId: nat)

  datatype InfluencerSelectionDto = InfluencerSelectionDto(
    campaignId: nat, selectedProposalIds: seq<nat>)

  datatype InfluencerSelectionResultDto = InfluencerSelectionResultDto(
    campaignId: nat, selectedCount: nat, rejectedCount: nat, campaignStatus: CampaignStatus)

  /** One row of the advertiser's applicant list; `createdAt` is kept as the
      timestamp rather than its formatted text. */
  datatype ProposalDetailDto = ProposalDetailDto(
    proposalId: nat, influencerName: string, influencerEmail: string,
    influencerContact: string, snsLink: string, coverLetter: string,
    visitDate: Date, status: ProposalStatus, createdAt: nat)

  /** `influencer_id` is carried but the creation service ignores it. */
  datatype ProposalCreateDto = ProposalCreateDto(
    campaignId: nat, influencerId: nat, coverLetter: string, visitDate: Date)

  /** Optional fields are `None` when absent; an empty string counts as absent
      where the source tests truthiness. */
  datatype SignupDto = SignupDto(
    email: string, password: string, name: string, contact: string, role: Role,
    companyName: Option<string>, businessRegistrationNumber: Option<string>,
    birthDate: Option<Date>, snsLink: Option<string>)
}
