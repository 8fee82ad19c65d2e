# Campaign marketplace core, modelled in Dafny

This project models the business core of a Django marketplace where
advertisers run experience campaigns and influencers apply to them. The
model covers:

- the user record with its manager (`create_user`, `create_superuser`) and
  the two role profiles;
- the service-layer exception hierarchy;
- the signup service;
- the three campaign services: creation (in two copies), closing
  recruitment and selecting influencers;
- the proposal creation service;
- the campaign and proposal selectors (queries);
- the validators of the signup, proposal and campaign forms;
- the role-based permission decorator and mixins;
- the decision logic of the campaign and proposal views.

The database is one class, `Store.Database`. It keeps each table as a
sequence in insertion order and keeps the auto-increment counters. Its
`Valid()` invariant holds the database constraints:

- increasing primary keys;
- unique emails and contacts, with every stored email normalised;
- one profile per user;
- one proposal per (campaign, influencer) pair.

Each service is a method that changes only the tables it names. The method
preserves `Valid()` and is tied by its `ensures` to a pure function of the
old tables. That function gives the result and the new tables, and the
lemmas prove what the service promises about it:

- the failure order of its guards;
- exactly when it succeeds;
- that a failure changes nothing;
- that statuses only move forward;
- the counts it reports;
- that a repeated call fails.

ORM queries are modelled as operations on sequences:

- `filter` and `count` become `Seqs.Filter` and `Seqs.Count`;
- `order_by` becomes a stable insertion sort by a lexicographic key, so rows
  with equal keys keep table order.

The clock is a parameter: `today` is a date and `now` is a timestamp.
Exceptions are their classes only. Python's `except` clause selection is
modelled through the method resolution order of those classes.

Where the code and its descriptions disagree, the model follows the code.

- `campaign_creation.py` raises Django's own `PermissionDenied` and
  `ValidationError`. It does not raise the service exceptions its docstring
  names.
- `check_user_can_apply` does not check the recruitment start date.
- The proposal service ignores the DTO's `influencer_id` and uses the
  caller's id.

There is one exception, the signup finding below. `SignupService.Execute`
carries the corrected duplicate check, on the normalised email. The code as
written is `SignupService.SignupAsWritten`, and
`SignupService.AsWrittenAgreesWithCorrected` proves where the two differ.

## Model

| member | source | states |
|---|---|---|
| UserModel.FindUser | apps/users/models.py:97-102 | the one-to-one `user` lookup (`User.objects.get(id=...)`, behind `self.user` at line 115), by primary key: a found user has that id; none is found exactly when no user carries it |
| UserModel.NormalizeEmailShape | apps/users/models.py:17 | normalising keeps the local part and the last '@', lower-cases the domain and keeps the length |
| UserModel.NormalizeEmailIdempotent | apps/users/models.py:17 | normalising an email twice gives the same as normalising it once |
| UserModel.UserStrIdentifies | apps/users/models.py:45-67 | with unique emails, `str(user)` (the email) tells two users apart exactly when they are different rows |
| UserModel.InfluencerProfileStr | apps/users/models.py:114-115 | the profile's string is its user's name, and it exists exactly when the user exists |
| UserManager.NewUserSpec | apps/users/models.py:12-21 | an empty email is exactly the ValueError case; a taken normalised email or contact violates the unique columns; otherwise the call succeeds; a created user has the normalised email, the given name, contact, role and explicit staff and superuser flags (false when not given), and `is_active` true |
| UserManager.AppendKeepsUnique | apps/users/models.py:45-47 | adding a user whose email and contact are both new keeps each column unique |
| UserManager.NewSuperuserSpec | apps/users/models.py:23-34 | staff or superuser set explicitly to false is a ValueError; otherwise both flags default to true, and the record is then what `create_user` makes |
| UserManager.CreateUser | apps/users/models.py:12-21 | the method returns `NewUser` of the old table, appends exactly the created user, changes nothing on failure, and keeps the store's invariant |
| UserManager.CreateSuperuser | apps/users/models.py:23-34 | the method returns `NewSuperuser` of the old table; it appends the user and advances the id counter only on success |
| Exceptions.Mro | apps/common/exceptions.py:1-58 | the class comes first and the root `Exception` last, one entry per level of the hierarchy |
| Exceptions.SubclassTransitive | apps/common/exceptions.py:1-58 | `issubclass` is transitive over the declared hierarchy |
| Exceptions.ServiceHierarchy | apps/common/exceptions.py:6-58 | the four specific exceptions are ServiceExceptions, and none of them is a subclass of another |
| Exceptions.LibraryExceptionsAreNotServiceExceptions | apps/common/exceptions.py:6 | Django's and Python's exceptions are Exceptions but not ServiceExceptions |
| Exceptions.HandlingClause | apps/campaigns/views.py:263-281 | the chosen `except` clause matches the class, and no earlier clause does; none is chosen only when no clause matches |
| Exceptions.FirstMatch | apps/campaigns/views.py:216-226 | the first matching clause is the one that handles the exception |
| SignupService.AsWrittenDomainCaseSlipsThrough | apps/users/services/signup_service.py:42-55 | as written, "a@B" passes the duplicate check against a stored "a@b", and the call then ends in IntegrityError |
| SignupService.SignupDuplicates | apps/users/services/signup_service.py:42-46 | with the check on the normalised email: a duplicate is reported exactly when the normalised email or the contact is taken; IntegrityError cannot happen; a stored email given again is always a duplicate |
| SignupService.SignupAllOrNothing | apps/users/services/signup_service.py:25-76 | a failed signup leaves all three tables unchanged; the ValueError happens exactly when the chosen role's required profile fields are missing |
| SignupService.SignupSuccess | apps/users/services/signup_service.py:49-78 | a successful signup appends one user with the given fields and the normalised email, and exactly one profile of that user's role, or none for another role |
| SignupService.AsWrittenAgreesWithCorrected | apps/users/services/signup_service.py:42-55 | over normalised stored emails, the code as written and the corrected check give the same outcome unless the code as written ends in IntegrityError; there the corrected check reports DuplicateAction and changes nothing |
| SignupService.Execute | apps/users/services/signup_service.py:25-78 | the method's result and its three tables are those of `Signup`, which has the corrected duplicate check of the finding below, and the store's invariant is kept; the user counter advances by one exactly on success (restored on the ValueError path) |
| SignupService.AttachProfile | apps/users/services/signup_service.py:58-76 | the profile step appends the role's profile or reports the missing fields, and keeps the profile keys unique |
| CampaignModel.Rank | apps/campaigns/models.py:12-34 | statuses are ranked 0 to 2, and the default status is ranked 0 |
| CampaignModel.AdvancesIsForward | apps/campaigns/models.py:12-16 | each service transition moves exactly one step forward along the lifecycle |
| CampaignModel.CanApplyImpliesRecruiting | apps/campaigns/models.py:48-59 | `can_apply` implies `is_recruiting` |
| CampaignModel.CanApplyWindowInclusive | apps/campaigns/models.py:52-59 | both the start day and the end day of the window accept applications |
| CampaignModel.CanApplyEmptyWindow | apps/campaigns/models.py:52-59 | a window that ends before it starts accepts no day |
| CampaignModel.CampaignsNewestFirstSorted | apps/campaigns/models.py:43 | a list in the default order never goes up in `created_at` |
| CampaignModel.Find | apps/campaigns/services/campaign_management.py:34-39 | `get(id=...)`: the position found holds that id; nothing is found exactly when no row has the id |
| CampaignModel.FindAfterUpdate | apps/campaigns/services/campaign_management.py:54-58 | saving a row under its own id moves no lookup |
| CampaignCreation.RoleCheckedFirst | apps/campaigns/services/campaign_creation.py:30-31 | a non-advertiser gets PermissionDenied whatever the DTO holds |
| CampaignCreation.CreateSucceedsIff | apps/campaigns/services/campaign_creation.py:14-52 | success exactly for an advertiser, an end date not before the start date and at least one recruit; the new record is recruiting, owned by the caller and carries the DTO's fields; an advertiser's failure is a ValidationError |
| CampaignCreation.Execute | apps/campaigns/services/campaign_creation.py:14-52 | the method returns `Create`, appends exactly the new campaign on success, and keeps the invariant |
| CampaignService.CheckOutcomes | apps/campaigns/services/campaign_service.py:30-42 | anonymous and non-advertiser callers get PermissionDenied; an advertiser gets ValidationException exactly for reversed dates or a count that is not positive |
| CampaignService.SameAcceptanceAsCampaignCreation | apps/campaigns/services/campaign_service.py:14-56 | both creation services accept the same logged-in requests and store the same record; the other copy's errors are not ServiceExceptions |
| CampaignService.Execute | apps/campaigns/services/campaign_service.py:14-56 | the method returns `Create`, appends exactly the new campaign on success, and keeps the invariant |
| CampaignClose.CloseFailures | apps/campaigns/services/campaign_management.py:34-51 | a missing campaign is InvalidState, another owner's campaign is PermissionDenied before the status is checked, a wrong status is InvalidState, and a failure changes nothing |
| CampaignClose.CloseSuccess | apps/campaigns/services/campaign_management.py:42-58 | success exactly for the owner of a recruiting campaign; only that row changes, to recruitment_ended with the new timestamp |
| CampaignClose.CloseIsForward | apps/campaigns/models.py:12-16 | closing leaves every status in place or moves it one step forward |
| CampaignClose.CloseTwice | apps/campaigns/services/campaign_management.py:48-51 | closing an already closed campaign fails with InvalidState |
| CampaignClose.Execute | apps/campaigns/services/campaign_management.py:18-58 | the method's result and its new table are those of `Close` and `Closed`, and the invariant holds |
| InfluencerSelection.SelectFailures | apps/campaigns/services/influencer_selection.py:42-74 | the guards fail in source order (missing campaign, owner, status, empty list, too many ids), and a failure changes neither table |
| InfluencerSelection.ValidationIff | apps/campaigns/services/influencer_selection.py:77-86 | the validation count equals the number of ids exactly when no id repeats and each names a submitted proposal of the campaign |
| InfluencerSelection.ChosenAreValid | apps/campaigns/services/influencer_selection.py:77-95 | after validation, the rows the first update touches are exactly the validated ones |
| InfluencerSelection.SelectCounts | apps/campaigns/services/influencer_selection.py:89-119 | `selected_count` is the number of ids, and selected plus rejected is the number of submitted proposals the campaign had |
| InfluencerSelection.SelectEffect | apps/campaigns/services/influencer_selection.py:89-106 | listed proposals become selected, the campaign's other submitted proposals become rejected, and every other row is unchanged |
| InfluencerSelection.SelectCoversIds | apps/campaigns/services/influencer_selection.py:77-95 | every listed id names a proposal that is selected afterwards |
| InfluencerSelection.SelectCampaignEffect | apps/campaigns/services/influencer_selection.py:56-59 | only the selected campaign changes, from recruitment_ended to selection_complete |
| InfluencerSelection.SelectIsForward | apps/campaigns/services/influencer_selection.py:109-111 | selection leaves every campaign status in place or moves it one step forward |
| InfluencerSelection.UpdateSelected | apps/campaigns/services/influencer_selection.py:89-95 | the loop computes the first bulk update and returns the number of rows it changed |
| InfluencerSelection.UpdateRejected | apps/campaigns/services/influencer_selection.py:98-106 | the loop computes the second bulk update and returns the number of rows it changed |
| InfluencerSelection.Execute | apps/campaigns/services/influencer_selection.py:21-119 | the method's result and both new tables are those of `Select`, and the invariant holds |
| ProposalModel.StatusPredicatesExclusive | apps/proposals/models.py:32-57 | no proposal is both submitted and selected, and a new one is submitted |
| ProposalModel.AppendKeepsUniquePairs | apps/proposals/models.py:46 | adding a proposal with a new (campaign, influencer) pair keeps the pairs unique |
| ProposalModel.ProposalsNewestFirstSorted | apps/proposals/models.py:45 | a list in the default order never goes up in `created_at` |
| ProposalCreation.ApplyFailures | apps/proposals/services/proposal_service.py:36-54 | the refusals come in source order (caller, missing campaign, closed window, earlier application), and a refusal changes nothing |
| ProposalCreation.ApplySucceedsIff | apps/proposals/services/proposal_service.py:19-65 | success exactly for an influencer, on an existing campaign that takes applications, with no earlier application; the new row is the caller's submitted proposal, appended |
| ProposalCreation.ApplyTwice | apps/proposals/services/proposal_service.py:53-54 | a second application to the same campaign is a duplicate action |
| ProposalCreation.ApplyKeepsUniquePairs | apps/proposals/models.py:46 | the service never breaks `unique_together` |
| ProposalCreation.Execute | apps/proposals/services/proposal_service.py:19-65 | the method's result and its new table are those of `Apply` and `Applied`, the proposal counter advances by one exactly on success, and the invariant holds |
| CampaignSelectors.RecruitingCampaignsSpec | apps/campaigns/selectors/campaign_selectors.py:27-36 | exactly the recruiting campaigns, each as often as in the table, newest first |
| CampaignSelectors.LatestRecruitingCampaignSpec | apps/campaigns/selectors/campaign_selectors.py:15-24 | there is a result exactly when a campaign is recruiting, and no recruiting campaign is newer than it |
| CampaignSelectors.CampaignDetail | apps/campaigns/selectors/campaign_selectors.py:39-55 | the campaign with the id, or DoesNotExist exactly when no row has the id |
| CampaignSelectors.CheckUserCanApplyCascade | apps/campaigns/selectors/campaign_selectors.py:80-131 | the reasons come in source order: not logged in, advertiser, not recruiting, deadline passed, already applied |
| CampaignSelectors.CheckUserCanApplyShape | apps/campaigns/selectors/campaign_selectors.py:58-131 | `can_apply` holds exactly when there is no reason; `already_applied` is reported only on that branch; the flag holds exactly when every check passes |
| CampaignSelectors.StartDateNotChecked | apps/campaigns/selectors/campaign_selectors.py:104-110 | before the start date the button is offered although `Campaign.can_apply` is false |
| CampaignSelectors.AgreesWithProposalCreation | apps/campaigns/selectors/campaign_selectors.py:58-131 | for an influencer after the start date, the button and the application service agree |
| CampaignSelectors.OtherRoleOfferedButRefused | apps/campaigns/selectors/campaign_selectors.py:88-93 | a user of a third role is offered the button, and the service then refuses them |
| CampaignSelector.CopiesAgree | apps/campaigns/selectors/campaign_selector.py:17-63 | this module's copies of the two queries answer as the public ones do |
| CampaignSelector.AdvertiserCampaignsSpec | apps/campaigns/selectors/campaign_selector.py:29-47 | exactly the advertiser's campaigns, each as often as in the table, newest first |
| CampaignSelector.CampaignsByAdvertiserSpec | apps/campaigns/selectors/campaign_selector.py:29-47 | one entry per campaign in the same order, annotated with its proposal count |
| CampaignSelector.CampaignWithProposalsCountSpec | apps/campaigns/selectors/campaign_selector.py:66-97 | nothing comes back unless the campaign exists and belongs to the advertiser; otherwise the total and the three per-status counts |
| CampaignSelector.DetailOfSpec | apps/campaigns/selectors/campaign_selector.py:119-132 | a display record exists exactly when the applicant's user and influencer profile do, and it copies their fields |
| CampaignSelector.ProposalsByCampaignSucceedsIff | apps/campaigns/selectors/campaign_selector.py:100-132 | the list fails only when some applicant has no user or no profile |
| CampaignSelector.ProposalsByCampaignRows | apps/campaigns/selectors/campaign_selector.py:100-132 | one record per applicant, in order, with the fields of the proposal, its user and its profile |
| ProposalSelector.StatusOrder | apps/proposals/selectors/proposal_selector.py:37-43 | the annotation is between 1 and 3 |
| ProposalSelector.InfluencerProposalsSpec | apps/proposals/selectors/proposal_selector.py:15-44 | a permutation of the influencer's proposals; submitted before selected before rejected; within a status, newer first |
| ProposalSelector.CountByStatusKeys | apps/proposals/selectors/proposal_selector.py:47-61 | the keys are exactly the statuses the influencer's proposals have, and each value counts them |
| ProposalSelector.CountByStatusTotal | apps/proposals/selectors/proposal_selector.py:47-61 | the values add up to the influencer's proposals, and the map is empty exactly when there are none |
| ProposalSelector.ProposalsByInfluencerSpec | apps/proposals/selectors/proposal_selector.py:64-80 | the same proposals as the status-ordered list, newest first |
| ProposalSelector.ProposalsByCampaignSpec | apps/proposals/selectors/proposal_selector.py:83-95 | exactly the campaign's proposals, each as often as in the table, newest first |
| ProposalSelector.SelectedProposalsSpec | apps/proposals/selectors/proposal_selector.py:98-111 | exactly the campaign's selected proposals, each as often as in the table, newest first |
| SignupForm.CleanEmail | apps/users/forms.py:101-106 | accepted exactly when no user has the email, and then returned unchanged |
| SignupForm.CleanContact | apps/users/forms.py:108-113 | accepted exactly when no user has the contact, and then returned unchanged |
| SignupForm.CleanPasswordSpec | apps/users/forms.py:115-125 | accepted exactly when at least 8 long with a letter and a digit; returned unchanged |
| SignupForm.CleanPasswordExamples | apps/users/forms.py:115-125 | "Password123" passes; "Pass1" and "onlyletters" fail |
| SignupForm.BusinessNumberFormat | apps/users/forms.py:140-141 | the pattern accepts exactly 3-2-5 digit groups joined by hyphens, and the groups read back |
| SignupForm.CleanBusinessRegistrationNumberSpec | apps/users/forms.py:127-148 | other roles pass unchecked; an advertiser's number must have the pattern and be unregistered |
| SignupForm.AgeIff | apps/users/forms.py:162-165 | the age is at least n exactly when the n-th birthday is not after today |
| SignupForm.CleanBirthDateSpec | apps/users/forms.py:150-168 | other roles pass; an influencer needs a birth date whose 14th birthday has come |
| SignupForm.CleanSnsLink | apps/users/forms.py:170-178 | refused exactly for an influencer without a link |
| SignupForm.CleanCompanyName | apps/users/forms.py:180-188 | refused exactly for an advertiser without a company name |
| SignupForm.CleanTermsAgreed | apps/users/forms.py:190-195 | accepted exactly when the terms are agreed |
| SignupForm.CleanPasswordsSpec | apps/users/forms.py:197-206 | a mismatch is reported exactly when both passwords are present, non-empty and different |
| SignupForm.ValidFormSignsUp | apps/users/forms.py:101-206 | a valid form's passwords agree, and its record signs up unless the normalised email is taken |
| ProposalForm.CleanCoverLetterSpec | apps/proposals/forms.py:40-50 | accepted exactly when present, not all whitespace and at most 500 long; the kept letter is stripped and fits the limit |
| ProposalForm.CleanCoverLetterIdempotent | apps/proposals/forms.py:40-50 | cleaning an accepted letter again changes nothing |
| ProposalForm.CoverLetterBoundary | apps/proposals/forms.py:44-50 | for a letter as the stripping field leaves it, the limit is inclusive: 500 characters pass and are kept unchanged, and 501 fail |
| ProposalForm.CleanVisitDate | apps/proposals/forms.py:52-62 | accepted exactly when present and not before today, and returned unchanged |
| CampaignForm.CleanSpec | apps/campaigns/forms.py:30-39 | no error for a missing date; with both dates, accepted exactly when the end is not before the start |
| CampaignForm.AgreesWithServices | apps/campaigns/forms.py:30-39 | dates the form accepts are refused by the services only for the count; dates it rejects are refused by both services |
| Permissions.RequireRoleSpec | apps/users/permissions.py:12-36 | the view runs exactly for a logged-in user with the role; anonymous users go to log in at the same path; others get 403 |
| Permissions.AdvertiserRequiredSpec | apps/users/permissions.py:49-64 | exactly logged-in advertisers pass; anonymous users are redirected to log in; others get PermissionDenied |
| Permissions.InfluencerRequiredSpec | apps/users/permissions.py:77-79 | the same for influencers |
| Permissions.NoUserPassesBoth | apps/users/permissions.py:49-79 | no user passes both mixins |
| Permissions.DecoratorAgreesWithMixins | apps/users/permissions.py:12-79 | the decorator and the mixins admit the same users and refuse wrong roles alike |
| CampaignViews.DetailButtonsSpec | apps/campaigns/views.py:183-188 | close is offered exactly while recruiting, select exactly after recruiting with submissions, complete exactly when done; at most one flag is set |
| CampaignViews.DetailViewSpec | apps/campaigns/views.py:156-191 | a missing or foreign campaign redirects to the list. For the advertiser's own campaign, the view raises DoesNotExist exactly when the applicant query fails. Otherwise the page shows the campaign, its counts, exactly the applicant query's records, and the flags its status and submitted count give |
| CampaignViews.ButtonsAgreeWithServices | apps/campaigns/views.py:183-188 | the close button is shown exactly when the close service would accept. The select button is shown exactly when the selection service passes its owner and status guards and the campaign has a submitted proposal |
| CampaignViews.ParseKeepsDigitStrings | apps/campaigns/views.py:241-242 | one id per digit string, and nothing when no value is a digit string |
| CampaignViews.ParseIdTexts | apps/campaigns/views.py:241-242 | ids posted as decimal text read back unchanged and in order |
| CampaignViews.SelectLaterClauses | apps/campaigns/views.py:263-281 | other service exceptions fall to the ServiceException clause; ValueError reaches its own |
| CampaignViews.NothingEscapes | apps/campaigns/views.py:216-281 | the final `Exception` clause catches whatever the earlier ones let through |
| CampaignViews.RoutingSpec | apps/campaigns/views.py:216-281 | PermissionDenied goes to the list and every other exception to the detail page |
| CampaignViews.CloseViewSpec | apps/campaigns/views.py:196-226 | an anonymous user goes to log in; a logged-in user lands on the detail page unless the campaign is someone else's, which leads to the list |
| CampaignViews.SelectViewSpec | apps/campaigns/views.py:231-281 | the same routing for selection, over the service with the parsed ids |
| CampaignViews.FlattenSpec | apps/campaigns/views.py:55-60 | every error text of every field is reported, and nothing else |
| CampaignViews.CreateViewSpec | apps/campaigns/views.py:51-82 | always back to the management page; an invalid form creates nothing and reports its errors; a valid one creates exactly when the service accepts |
| CampaignViews.BadDatesCreateNothing | apps/campaigns/views.py:51-82 | reversed dates never reach the service and are reported |
| ProposalViews.DispatchFirst | apps/proposals/views.py:63-67 | a logged-in non-influencer is refused on both methods before anything else; an anonymous user is sent to log in |
| ProposalViews.GetOrder | apps/proposals/views.py:69-96 | an earlier application redirects before the window is checked; the form is shown exactly when the service would accept |
| ProposalViews.PostRouting | apps/proposals/views.py:98-135 | an invalid form is shown again and creates nothing; a valid one stores exactly the service's table and routes each service outcome; nothing escapes |
| ProposalViews.PostTwice | apps/proposals/views.py:122-135 | after a successful POST the same POST is a duplicate that redirects to the list, and GET no longer shows the form |
| ProposalViews.HasProposalsSpec | apps/proposals/views.py:47 | the flag is set exactly when the influencer has any proposal |
| Text.DecimalRoundTrip | apps/campaigns/views.py:241-242 | `int(str(n)) == n` |
| Text.StripIsInfix | apps/proposals/forms.py:44-50 | the stripped text is the stretch left once the leading and trailing whitespace is removed |
| Text.StripIdempotent | apps/proposals/forms.py:50 | stripping twice is stripping once |
| Text.StripEmptyIff | apps/proposals/forms.py:44-45 | nothing is left exactly when the text is all whitespace |
| Seqs.FilterConcat | apps/proposals/selectors/proposal_selector.py:15-44 | filtering distributes over concatenation |
| Seqs.CountSplit | apps/campaigns/services/influencer_selection.py:89-106 | a count splits over two disjoint predicates that make up the whole |
| Seqs.SortByKey | apps/proposals/selectors/proposal_selector.py:44 | `order_by` yields a sorted permutation of its input |
| Seqs.InsertSorted | apps/proposals/selectors/proposal_selector.py:44 | insertion into a sorted list keeps it sorted |
| Seqs.ElementsCard | apps/campaigns/services/influencer_selection.py:77-86 | a list has as many distinct values as positions exactly when no value repeats |

## Left out

- Transactions and row locks (`transaction.atomic`, `select_for_update`) are
  not modelled. Each service runs alone on the store. A signup rollback is
  the restoring of the user table.
- Query mechanics (`select_related`, `prefetch_related`, query counts) are
  not modelled. Each query is its result list.
- Password hashing is not modelled: `set_password` stores the password as
  given.
- Django's own field validation (EmailField, URLField, CharField stripping
  and `max_length`, required fields, DateField parsing) is not
  modelled. Each validator starts from the value that validation left in
  `cleaned_data`.
- UserModel.NormalizeEmail: models `normalize_email` as lower-casing the
  part after the last '@'. It does not strip surrounding whitespace, which
  Django does first, and Django's Unicode handling is not modelled.
- SignupService.Execute: carries the corrected duplicate check on the
  normalised email, so it reports DuplicateAction where the code as written
  (`SignupService.SignupAsWritten`) ends in IntegrityError.
  `SignupService.AsWrittenAgreesWithCorrected` proves that this is the only
  difference.
- Text.IsSpace: only the six usual ASCII whitespace characters. Python's
  `strip` also removes \x1c-\x1f and Unicode spaces. The values a
  validator sees have already been stripped by their field.
- Exceptions.Parent: IntegrityError and DoesNotExist are placed directly
  under `Exception`. Their real parents, DatabaseError and
  ObjectDoesNotExist, are named by no clause in the core.
- Permissions.Mixin: the login redirect of the mixins carries the full path
  with its query string, and the decorator's carries only the path. The
  model passes each its own `path` text.
- Text.IsDigit: ASCII digits only, so `CampaignViews.ParseOne` drops every
  posted id holding another digit. Python's `isdigit` also accepts two
  further kinds. A decimal digit of another script, such as fullwidth '３'
  or Arabic-Indic '٣', is converted by `int` and the source keeps that id.
  A digit that is not decimal, such as '²', makes `int` raise the ValueError
  that `select_influencers` catches, so the source selects nothing. In both
  cases the model drops the value and goes on with the other ids.
- The clock is not modelled. `date.today()`, `timezone.now()` and
  auto-timestamps are the `today` and `now` parameters.
- Message texts, template rendering, URL reversing and the login URL are
  not modelled. Redirects are kept as their targets. `require_POST` and
  the `login_required` redirect are reduced to their outcome.
- The commented-out `status_counts` of `MyProposalsListView` are not
  modelled.
- `Proposal.__str__` and exception message texts are not modelled.
- ProposalSelector.StatusOrder: the `default=4` of the `Case` annotation is
  not modelled. No status reaches it.
- apps/users/views.py, static/js/main.js, settings, admin, URLs, factories,
  tests, the base service and selector classes, and the DTO modules are
  not part of this model. The DTOs appear only as records.

## Findings

| source | as written | input that shows it | evidently intended | confidence | as-written member | corrected member |
|---|---|---|---|---|---|---|
| apps/users/services/signup_service.py:42-43 | the duplicate-email check compares the email as given, but `create_user` stores it with the domain lower-cased | stored user "a@b"; signup with "a@B" passes the check, and the insert then hits the unique column: IntegrityError instead of DuplicateActionException | check the normalised email, so a duplicate is always reported as DuplicateActionException | not executed | SignupService.AsWrittenDomainCaseSlipsThrough | SignupService.SignupDuplicates |
