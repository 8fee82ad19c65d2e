/** The decisions inside the advertiser views of apps/campaigns/views.py: the
    button flags of the detail page, the parsing of the selected proposal
    ids, and which page each outcome of a service call leads to. Messages are
    kept as their kind; templates are not rendered. */
module CampaignViews {
  import opened Common
  import opened Exceptions
  import opened Text
  import opened UserModel
  import opened CampaignModel
  import opened ProposalModel
  import opened Dto
  import Permissions
  import CampaignForm
  import CampaignCreation
  import CampaignClose
  import InfluencerSelection
  import CampaignSelector

  /** Pages a view redirects to. */
  datatype Target = Login | Manage | AdvertiserList | AdvertiserDetail(pk: nat)

  /** What a view answers: a redirect, a rendered page, or an exception
      that no clause of the view handles. */
  datatype Response<P> = Redirect(to: Target) | Render(page: P) | Raised(e: ExcClass)

  // ---------------------------------------------------------------------
  // AdvertiserCampaignDetailView

  /** The three action flags of the detail page. */
  datatype Buttons = Buttons(canClose: bool, canSelect: bool, isComplete: bool)

  function DetailButtons(c: Campaign, submitted: nat): Buttons
  {
    Buttons(c.status == Recruiting,
            c.status == RecruitmentEnded && submitted > 0,
            c.status == SelectionComplete)
  }

  /** Closing is offered for a recruiting campaign, selection for a campaign
      whose recruitment ended and that has submitted proposals, and the
      completed mark for a finished selection; at most one flag is set. */
  lemma DetailButtonsSpec(c: Campaign, submitted: nat)
    ensures DetailButtons(c, submitted).canClose <==> c.status == Recruiting
    ensures DetailButtons(c, submitted).canSelect <==> c.status == RecruitmentEnded && submitted > 0
    ensures DetailButtons(c, submitted).isComplete <==> c.status == SelectionComplete
    ensures var b := DetailButtons(c, submitted);
      !(b.canClose && b.canSelect) && !(b.canClose && b.isComplete) && !(b.canSelect && b.isComplete)
  {
  }

  datatype DetailPage = DetailPage(
    campaign: Campaign, counts: CampaignSelector.ProposalCounts,
    proposals: seq<ProposalDetailDto>, buttons: Buttons)

  /** `AdvertiserCampaignDetailView.get`, after the advertiser mixin let the
      user through. */
  function DetailView(cs: seq<Campaign>, ps: seq<Proposal>, us: seq<User>,
                      profiles: seq<InfluencerProfile>, user: Actor, pk: nat): Response<DetailPage>
    requires Permissions.AdvertiserTest(user)
  {
    match CampaignSelector.CampaignWithProposalsCount(cs, ps, pk, user.id)
    case None => Redirect(AdvertiserList)
    case Some((c, n)) =>
      match CampaignSelector.ProposalsByCampaign(ps, us, profiles, pk)
      case Failure(e) => Raised(e)
      case Success(rows) => Render(DetailPage(c, n, rows, DetailButtons(c, n.submitted)))
  }

  /** A campaign that is missing or owned by someone else sends the advertiser
      back to their list. For the advertiser's own campaign the view raises
      `DoesNotExist` exactly when the applicant list does (an applicant
      without a user or an influencer profile); otherwise the page shows the
      campaign, its counts, the applicant records and the flags its status
      and its submitted count give. */
  lemma DetailViewSpec(cs: seq<Campaign>, ps: seq<Proposal>, us: seq<User>,
                       profiles: seq<InfluencerProfile>, user: Actor, pk: nat)
    requires Permissions.AdvertiserTest(user)
    ensures DetailView(cs, ps, us, profiles, user, pk) == Redirect(AdvertiserList) <==>
      forall k :: 0 <= k < |cs| ==> cs[k].id != pk || cs[k].advertiser != user.id
    ensures DetailView(cs, ps, us, profiles, user, pk).Raised? <==>
      (exists k :: 0 <= k < |cs| && cs[k].id == pk && cs[k].advertiser == user.id)
      && CampaignSelector.ProposalsByCampaign(ps, us, profiles, pk).Failure?
    ensures DetailView(cs, ps, us, profiles, user, pk).Raised? ==>
      DetailView(cs, ps, us, profiles, user, pk).e == DoesNotExist
    ensures DetailView(cs, ps, us, profiles, user, pk).Render? ==>
      var page := DetailView(cs, ps, us, profiles, user, pk).page;
      && CampaignSelector.ProposalsByCampaign(ps, us, profiles, pk).Success?
      && page.proposals == CampaignSelector.ProposalsByCampaign(ps, us, profiles, pk).value
      && page.campaign in cs && page.campaign.id == pk && page.campaign.advertiser == user.id
      && page.counts == CampaignSelector.CountsOf(ps, pk)
      && page.buttons == DetailButtons(page.campaign, page.counts.submitted)
  {
    CampaignSelector.CampaignWithProposalsCountSpec(cs, ps, pk, user.id);
  }

  /** With distinct campaign ids, the close button is shown exactly when the
      close service would accept the request from this advertiser, and the
      select button exactly when the selection service passes its owner and
      status guards and the campaign has a submitted proposal. */
  lemma ButtonsAgreeWithServices(cs: seq<Campaign>, ps: seq<Proposal>, user: Actor, pk: nat,
                                 ids: seq<nat>, now: nat)
    requires Permissions.AdvertiserTest(user) && CampaignModel.IdsIncreasing(cs)
    requires CampaignSelector.CampaignWithProposalsCount(cs, ps, pk, user.id).Some?
    ensures var (c, n) := CampaignSelector.CampaignWithProposalsCount(cs, ps, pk, user.id).value;
      DetailButtons(c, n.submitted).canClose <==> CampaignClose.Close(cs, user, pk, now).Success?
    ensures var (c, n) := CampaignSelector.CampaignWithProposalsCount(cs, ps, pk, user.id).value;
      var r := InfluencerSelection.Select(cs, ps, user, InfluencerSelectionDto(pk, ids), now).result;
      DetailButtons(c, n.submitted).canSelect <==>
        r != Failure(PermissionDeniedException) && r != Failure(InvalidStateException) && n.submitted > 0
  {
    CampaignSelector.CampaignWithProposalsCountSpec(cs, ps, pk, user.id);
    var (c, n) := CampaignSelector.CampaignWithProposalsCount(cs, ps, pk, user.id).value;
    var k :| 0 <= k < |cs| && cs[k] == c;
    FindUnique(cs, pk, k);
  }

  // ---------------------------------------------------------------------
  // select_influencers: the posted ids

  /** One posted value: its number if it is a digit string, else nothing. */
  function ParseOne(v: string): seq<nat>
  {
    if IsDigits(v) then [DecimalValue(v)] else []
  }

  /** `[int(id) for id in selected_ids if id.isdigit()]`. */
  function ParseSelectedIds(raw: seq<string>): seq<nat>
  {
    if raw == [] then [] else ParseOne(raw[0]) + ParseSelectedIds(raw[1..])
  }

  /** Parsing works value by value: the ids of two lists posted one after the
      other are the ids of the first followed by those of the second. */
  lemma {:induction false} ParseConcat(a: seq<string>, b: seq<string>)
    ensures ParseSelectedIds(a + b) == ParseSelectedIds(a) + ParseSelectedIds(b)
  {
    if a == [] {
      assert a + b == b;
    } else {
      assert (a + b)[0] == a[0];
      assert (a + b)[1..] == a[1..] + b;
      ParseConcat(a[1..], b);
      assert ParseSelectedIds(a + b) == ParseOne(a[0]) + (ParseSelectedIds(a[1..]) + ParseSelectedIds(b));
    }
  }

  /** Every non-digit value is dropped, every digit value kept: the result has
      one id per digit string, in posting order. */
  lemma {:induction false} ParseKeepsDigitStrings(raw: seq<string>)
    ensures |ParseSelectedIds(raw)| == Seqs.Count(raw, (s: string) => IsDigits(s))
    ensures (forall k :: 0 <= k < |raw| ==> !IsDigits(raw[k])) ==> ParseSelectedIds(raw) == []
  {
    if raw != [] {
      ParseKeepsDigitStrings(raw[1..]);
      assert forall k :: 1 <= k < |raw| ==> raw[1..][k - 1] == raw[k];
    }
  }

  /** The decimal texts of ids, as a browser posts them. */
  function IdTexts(ids: seq<nat>): (r: seq<string>)
    ensures |r| == |ids|
  {
    if ids == [] then [] else [DecimalText(ids[0])] + IdTexts(ids[1..])
  }

  /** Ids sent as their decimal text are read back unchanged and in order. */
  lemma {:induction false} ParseIdTexts(ids: seq<nat>)
    ensures ParseSelectedIds(IdTexts(ids)) == ids
  {
    if ids != [] {
      DecimalRoundTrip(ids[0]);
      assert IdTexts(ids)[1..] == IdTexts(ids[1..]);
      ParseIdTexts(ids[1..]);
    }
  }

  // ---------------------------------------------------------------------
  // The `except` clauses of close_recruitment and select_influencers

  const CloseClauses: seq<ExcClass> := [PermissionDeniedException, InvalidStateException, Exception]
  const SelectClauses: seq<ExcClass> :=
    [PermissionDeniedException, InvalidStateException, ServiceException, ValueError, Exception]

  /** The page a handled exception leads to: the first clause, for
      PermissionDenied, goes to the list; every later clause to the detail page. */
  function Route<P>(e: ExcClass, clauses: seq<ExcClass>, pk: nat): Response<P>
  {
    match HandlingClause(e, clauses)
    case None => Raised(e)
    case Some(k) => if k == 0 then Redirect(AdvertiserList) else Redirect(AdvertiserDetail(pk))
  }

  /** In select_influencers PermissionDenied and InvalidState are caught by
      their own clauses, before the ServiceException clause. */
  lemma SelectClauseOrder()
    ensures HandlingClause(PermissionDeniedException, SelectClauses) == Some(0)
    ensures HandlingClause(InvalidStateException, SelectClauses) == Some(1)
  {
    assert Mro(PermissionDeniedException) == [PermissionDeniedException, ServiceException, Exception];
    assert SelectClauses[1..] == [InvalidStateException, ServiceException, ValueError, Exception];
    assert Mro(InvalidStateException) == [InvalidStateException, ServiceException, Exception];
  }

  /** The other service exceptions fall to the ServiceException clause and a
      ValueError to its own. */
  lemma SelectLaterClauses()
    ensures HandlingClause(DuplicateActionException, SelectClauses) == Some(2)
    ensures HandlingClause(ValidationException, SelectClauses) == Some(2)
    ensures HandlingClause(ServiceException, SelectClauses) == Some(2)
    ensures HandlingClause(ValueError, SelectClauses) == Some(3)
  {
    ServiceClause(DuplicateActionException);
    ServiceClause(ValidationException);
    ServiceClause(ServiceException);
    ValueErrorClause();
  }

  /** A ValueError passes the three service clauses. */
  lemma ValueErrorClause()
    ensures HandlingClause(ValueError, SelectClauses) == Some(3)
  {
    assert Mro(ValueError) == [ValueError, Exception];
    FirstMatch(ValueError, SelectClauses, 3);
  }

  /** A ServiceException that is neither PermissionDenied nor InvalidState
      reaches the ServiceException clause. */
  lemma ServiceClause(e: ExcClass)
    requires Mro(e) == [e, ServiceException, Exception] || e == ServiceException
    requires e != PermissionDeniedException && e != InvalidStateException
    ensures HandlingClause(e, SelectClauses) == Some(2)
  {
    assert e == ServiceException ==> Mro(e) == [ServiceException, Exception];
    FirstMatch(e, SelectClauses, 2);
  }

  /** The last clause, Exception, catches whatever the earlier ones let
      through. */
  lemma NothingEscapes(e: ExcClass)
    ensures HandlingClause(e, SelectClauses).Some?
    ensures HandlingClause(e, CloseClauses).Some?
  {
    assert Mro(e)[|Mro(e)| - 1] == Exception;
    assert IsSubclass(e, SelectClauses[4]) && IsSubclass(e, CloseClauses[2]);
  }

  /** Both views send PermissionDenied back to the advertiser's list and
      every other exception to the campaign's detail page; nothing escapes. */
  lemma RoutingSpec<P>(e: ExcClass, pk: nat)
    ensures e == PermissionDeniedException ==>
      Route<P>(e, SelectClauses, pk) == Redirect(AdvertiserList) && Route<P>(e, CloseClauses, pk) == Redirect(AdvertiserList)
    ensures e != PermissionDeniedException ==>
      Route<P>(e, SelectClauses, pk) == Redirect(AdvertiserDetail(pk))
      && Route<P>(e, CloseClauses, pk) == Redirect(AdvertiserDetail(pk))
  {
    NothingEscapes(e);
    assert e != PermissionDeniedException ==> !IsSubclass(e, PermissionDeniedException);
  }

  /** `close_recruitment`, behind `login_required`. */
  function CloseView(cs: seq<Campaign>, user: Actor, pk: nat, now: nat): Response<()>
  {
    if user.Anonymous? then Redirect(Login)
    else match CampaignClose.Close(cs, user, pk, now)
      case Success(_) => Redirect(AdvertiserDetail(pk))
      case Failure(e) => Route(e, CloseClauses, pk)
  }

  /** `select_influencers`, behind `login_required`. */
  function SelectView(cs: seq<Campaign>, ps: seq<Proposal>, user: Actor, pk: nat, raw: seq<string>, now: nat)
    : Response<()>
  {
    if user.Anonymous? then Redirect(Login)
    else match InfluencerSelection.Select(cs, ps, user, InfluencerSelectionDto(pk, ParseSelectedIds(raw)), now).result
      case Success(_) => Redirect(AdvertiserDetail(pk))
      case Failure(e) => Route(e, SelectClauses, pk)
  }

  /** A logged-in user always lands on the campaign's detail page unless the
      campaign belongs to someone else, which leads to the list. */
  lemma CloseViewSpec(cs: seq<Campaign>, user: Actor, pk: nat, now: nat)
    ensures user.Anonymous? ==> CloseView(cs, user, pk, now) == Redirect(Login)
    ensures user.Authenticated? && Find(cs, pk).Some? && cs[Find(cs, pk).value].advertiser != user.id ==>
      CloseView(cs, user, pk, now) == Redirect(AdvertiserList)
    ensures user.Authenticated? && (Find(cs, pk).None? || cs[Find(cs, pk).value].advertiser == user.id) ==>
      CloseView(cs, user, pk, now) == Redirect(AdvertiserDetail(pk))
  {
    CampaignClose.CloseFailures(cs, user, pk, now);
    match CampaignClose.Close(cs, user, pk, now)
    case Success(_) =>
    case Failure(e) => RoutingSpec<()>(e, pk);
  }

  lemma SelectViewSpec(cs: seq<Campaign>, ps: seq<Proposal>, user: Actor, pk: nat, raw: seq<string>, now: nat)
    ensures user.Anonymous? ==> SelectView(cs, ps, user, pk, raw, now) == Redirect(Login)
    ensures user.Authenticated? && Find(cs, pk).Some? && cs[Find(cs, pk).value].advertiser != user.id ==>
      SelectView(cs, ps, user, pk, raw, now) == Redirect(AdvertiserList)
    ensures user.Authenticated? && (Find(cs, pk).None? || cs[Find(cs, pk).value].advertiser == user.id) ==>
      SelectView(cs, ps, user, pk, raw, now) == Redirect(AdvertiserDetail(pk))
  {
    var dto := InfluencerSelectionDto(pk, ParseSelectedIds(raw));
    InfluencerSelection.SelectFailures(cs, ps, user, dto, now);
    match InfluencerSelection.Select(cs, ps, user, dto, now).result
    case Success(_) =>
    case Failure(e) =>
      RoutingSpec<()>(e, pk);
      if e == PermissionDeniedException {
        assert InfluencerSelection.Check(cs, ps, user, dto) == Failure(PermissionDeniedException);
      }
  }

  // ---------------------------------------------------------------------
  // CampaignCreateView.post

  /** A flash message, by kind. */
  datatype Message = FormError(text: string) | CreatedMessage(name: string) | CreateFailed(e: ExcClass)

  datatype CreateResponse = CreateResponse(messages: seq<Message>, to: Target, created: Option<Campaign>)

  /** All error texts of `form.errors`, field by field. */
  function Flatten(errors: seq<seq<string>>): seq<string>
  {
    if errors == [] then [] else errors[0] + Flatten(errors[1..])
  }

  /** Every error text of every field appears among the flattened texts, and
      nothing else does. */
  lemma {:induction false} FlattenSpec(errors: seq<seq<string>>)
    ensures forall i, j :: 0 <= i < |errors| && 0 <= j < |errors[i]| ==> errors[i][j] in Flatten(errors)
    ensures forall m :: m in Flatten(errors) ==> exists i :: 0 <= i < |errors| && m in errors[i]
  {
    if errors != [] {
      FlattenSpec(errors[1..]);
      forall i, j | 0 <= i < |errors| && 0 <= j < |errors[i]| ensures errors[i][j] in Flatten(errors) {
        if i > 0 {
          assert errors[i] == errors[1..][i - 1];
        }
      }
      forall m | m in Flatten(errors) ensures exists i :: 0 <= i < |errors| && m in errors[i] {
        if m !in errors[0] {
          var i :| 0 <= i < |errors[1..]| && m in errors[1..][i];
          assert m in errors[i + 1];
        }
      }
    }
  }

  /** The errors of `CampaignCreateForm`: those of the fields, then the
      form-wide date rule of `clean`. */
  function FormErrors(fieldErrors: seq<seq<string>>, start: Option<Date>, end: Option<Date>, dateText: string)
    : seq<seq<string>>
  {
    fieldErrors + (if CampaignForm.Clean(start, end).Some? then [[dateText]] else [])
  }

  /** The view behind the advertiser mixin. An invalid form (one with errors)
      turns each error into a message and stops; otherwise the creation
      service runs and any exception it raises becomes one error message. */
  function CreateView(user: Actor, errors: seq<seq<string>>, dto: CampaignCreateDto, id: nat, now: nat)
    : CreateResponse
    requires Permissions.AdvertiserTest(user)
  {
    if errors != [] then
      var texts := Flatten(errors);
      CreateResponse(seq(|texts|, i requires 0 <= i < |texts| => FormError(texts[i])), Manage, None)
    else match CampaignCreation.Create(user, dto, id, now)
      case Success(c) => CreateResponse([CreatedMessage(c.name)], Manage, Some(c))
      case Failure(e) => CreateResponse([CreateFailed(e)], Manage, None)
  }

  /** The view always returns to the management page. A form with errors
      creates nothing and shows each error once, in order; a clean form
      creates a campaign exactly when the service accepts the request. */
  lemma CreateViewSpec(user: Actor, errors: seq<seq<string>>, dto: CampaignCreateDto, id: nat, now: nat)
    requires Permissions.AdvertiserTest(user)
    ensures CreateView(user, errors, dto, id, now).to == Manage
    ensures errors != [] ==>
      var r := CreateView(user, errors, dto, id, now);
      && r.created.None?
      && |r.messages| == |Flatten(errors)|
      && (forall i :: 0 <= i < |r.messages| ==> r.messages[i] == FormError(Flatten(errors)[i]))
      && (forall i, j :: 0 <= i < |errors| && 0 <= j < |errors[i]| ==> FormError(errors[i][j]) in r.messages)
    ensures errors == [] ==>
      (CreateView(user, errors, dto, id, now).created.Some? <==> CampaignCreation.Create(user, dto, id, now).Success?)
  {
    if errors != [] {
      FlattenSpec(errors);
      var r := CreateView(user, errors, dto, id, now);
      forall i, j | 0 <= i < |errors| && 0 <= j < |errors[i]| ensures FormError(errors[i][j]) in r.messages {
        var texts := Flatten(errors);
        assert errors[i][j] in texts;
        var t :| 0 <= t < |texts| && texts[t] == errors[i][j];
        assert r.messages[t] == FormError(errors[i][j]);
      }
    }
  }

  /** A form whose end date precedes its start date never reaches the
      service, so no campaign is created. */
  lemma BadDatesCreateNothing(user: Actor, fieldErrors: seq<seq<string>>, start: Date, end: Date,
                              dateText: string, dto: CampaignCreateDto, id: nat, now: nat)
    requires Permissions.AdvertiserTest(user) && Before(end, start)
    ensures CreateView(user, FormErrors(fieldErrors, Some(start), Some(end), dateText), dto, id, now).created.None?
    ensures FormError(dateText) in CreateView(user, FormErrors(fieldErrors, Some(start), Some(end), dateText), dto, id, now).messages
  {
    var errors := FormErrors(fieldErrors, Some(start), Some(end), dateText);
    CreateViewSpec(user, errors, dto, id, now);
    assert errors[|fieldErrors|][0] == dateText;
  }
}
