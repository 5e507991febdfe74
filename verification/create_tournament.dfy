/** The tournament creation page: the fee and guarantee preview computed from the
    player's ranking tier, and the submit handler's guards, request mapping and outcome.
    `parseFloat` is a parameter (`parse`), and the create call is a parameter (`service`). */
module CreateTournament {
  import opened Wrappers
  import opened JsNumber

  /** The player ranking tiers, best first. */
  datatype Tier = Platinum | Gold | Silver | Bronze

  /** Position of a tier in the fee table, best first. */
  function TierRank(t: Tier): nat {
    match t
    case Platinum => 0
    case Gold => 1
    case Silver => 2
    case Bronze => 3
  }

  datatype PlayerProfile = PlayerProfile(ranking: Tier)

  /** The fraction of the target pool charged up front. */
  function FeeFraction(t: Tier): real {
    match t
    case Platinum => 0.05
    case Gold => 0.07
    case Silver => 0.08
    case Bronze => 0.10
  }

  /** The fraction of the target pool the player deposits as guarantee. */
  function GuaranteeFraction(t: Tier): real {
    match t
    case Platinum => 0.20
    case Gold => 0.25
    case Silver => 0.30
    case Bronze => 0.40
  }

  /** A worse tier pays a strictly larger fee and a strictly larger guarantee, and in
      every tier the guarantee exceeds the fee. */
  lemma TierOrdering(a: Tier, b: Tier)
    ensures TierRank(a) < TierRank(b) ==> FeeFraction(a) < FeeFraction(b)
    ensures TierRank(a) < TierRank(b) ==> GuaranteeFraction(a) < GuaranteeFraction(b)
    ensures FeeFraction(a) < GuaranteeFraction(a)
  {
  }

  /** The preview: amounts follow the parsed target (so an infinite target gives infinite
      amounts), percentages are the fractions scaled by 100. */
  datatype Fees = Fees(initialFeeAmount: Number, initialFeePct: real, guaranteeAmount: Number, guaranteePct: real)

  /** `calculateFees`: no preview without a profile, with an empty amount field, or when
      the field does not parse; otherwise the tier's percentages, and amounts that are
      those percentages of the target. */
  function CalculateFees(profile: Option<PlayerProfile>, targetText: string, parse: string -> Number): (r: Option<Fees>)
    ensures r.None? <==> profile.None? || targetText == "" || parse(targetText).NaN?
    ensures r.Some? && profile.value.ranking == Platinum ==> r.value.initialFeePct == 5.0 && r.value.guaranteePct == 20.0
    ensures r.Some? && profile.value.ranking == Gold ==> r.value.initialFeePct == 7.0 && r.value.guaranteePct == 25.0
    ensures r.Some? && profile.value.ranking == Silver ==> r.value.initialFeePct == 8.0 && r.value.guaranteePct == 30.0
    ensures r.Some? && profile.value.ranking == Bronze ==> r.value.initialFeePct == 10.0 && r.value.guaranteePct == 40.0
    ensures r.Some? ==> r.value.initialFeeAmount == Mul(parse(targetText), r.value.initialFeePct / 100.0)
    ensures r.Some? ==> r.value.guaranteeAmount == Mul(parse(targetText), r.value.guaranteePct / 100.0)
  {
    if profile.None? || targetText == "" then None
    else
      var amount := parse(targetText);
      if amount.NaN? then None
      else
        var tier := profile.value.ranking;
        Some(Fees(
          Mul(amount, FeeFraction(tier)),
          FeeFraction(tier) * 100.0,
          Mul(amount, GuaranteeFraction(tier)),
          GuaranteeFraction(tier) * 100.0))
  }

  /** For a positive finite target, the fee and the guarantee are positive, the fee is
      below the guarantee and the guarantee below the target; and the target can be
      recovered from either amount and its percentage. */
  lemma FeesWithinTarget(profile: Option<PlayerProfile>, targetText: string, parse: string -> Number)
    requires CalculateFees(profile, targetText, parse).Some?
    requires parse(targetText).Finite? && parse(targetText).value > 0.0
    ensures var f := CalculateFees(profile, targetText, parse).value;
      && f.initialFeeAmount.Finite? && f.guaranteeAmount.Finite?
      && 0.0 < f.initialFeeAmount.value < f.guaranteeAmount.value < parse(targetText).value
      && f.initialFeeAmount.value * 100.0 / f.initialFeePct == parse(targetText).value
      && f.guaranteeAmount.value * 100.0 / f.guaranteePct == parse(targetText).value
  {
  }

  /** A GOLD player targeting a pool of 100 is shown a fee of 7 and a guarantee of 25. */
  lemma GoldExample(parse: string -> Number)
    requires parse("100") == Finite(100.0)
    ensures CalculateFees(Some(PlayerProfile(Gold)), "100", parse) == Some(Fees(Finite(7.0), 7.0, Finite(25.0), 25.0))
  {
  }

  /** The creation form's fields, as the text the user typed. */
  datatype CreateForm = CreateForm(
    name: string,
    description: string,
    gameType: string,
    targetPoolAmount: string,
    tournamentBuyIn: string,
    externalTournamentUrl: string,
    fundingEndTime: string)

  /** The create request; `None` stands for a field left `undefined`. */
  datatype CreateRequest = CreateRequest(
    name: string,
    description: string,
    gameType: string,
    targetPoolAmount: Number,
    tournamentBuyIn: Option<Number>,
    externalTournamentUrl: Option<string>,
    playerRanking: Tier,
    fundingEndTime: Option<string>)

  const NotLoggedInError := "Devi essere loggato per creare un torneo."
  const NoProfileError := "Devi completare il tuo profilo giocatore prima di creare un torneo."
  const CreateFailedError := "Errore nella creazione del torneo"
  const UnknownError := "Errore sconosciuto"

  /** `s || undefined`: the empty string is falsy. */
  function OrUndefined(s: string): (r: Option<string>)
    ensures r.None? <==> s == ""
    ensures r.Some? ==> r.value == s
  {
    if s == "" then None else Some(s)
  }

  /** Either the handler stops with an error before any call, or it sends a request. */
  datatype Submission = Refused(error: string) | Send(request: CreateRequest)

  /** The guards and request mapping of `handleSubmit`: no user or no profile stops with
      the matching message and builds no request; otherwise the text fields are copied,
      the amounts parsed (the target even when it does not parse: there is no check),
      empty optional fields left out, and the ranking taken from the profile. */
  function PrepareSubmission(user: Option<string>, profile: Option<PlayerProfile>, form: CreateForm, parse: string -> Number): (s: Submission)
    ensures s.Refused? <==> user.None? || profile.None?
    ensures user.None? ==> s == Refused(NotLoggedInError)
    ensures user.Some? && profile.None? ==> s == Refused(NoProfileError)
    ensures s.Send? ==>
      && s.request.name == form.name
      && s.request.description == form.description
      && s.request.gameType == form.gameType
      && s.request.targetPoolAmount == parse(form.targetPoolAmount)
      && (s.request.tournamentBuyIn.None? <==> form.tournamentBuyIn == "")
      && (s.request.tournamentBuyIn.Some? ==> s.request.tournamentBuyIn.value == parse(form.tournamentBuyIn))
      && (s.request.externalTournamentUrl.None? <==> form.externalTournamentUrl == "")
      && (s.request.externalTournamentUrl.Some? ==> s.request.externalTournamentUrl.value == form.externalTournamentUrl)
      && (s.request.fundingEndTime.None? <==> form.fundingEndTime == "")
      && (s.request.fundingEndTime.Some? ==> s.request.fundingEndTime.value == form.fundingEndTime)
      && s.request.playerRanking == profile.value.ranking
  {
    if user.None? then Refused(NotLoggedInError)
    else if profile.None? then Refused(NoProfileError)
    else
      Send(CreateRequest(
        form.name,
        form.description,
        form.gameType,
        parse(form.targetPoolAmount),
        if form.tournamentBuyIn != "" then Some(parse(form.tournamentBuyIn)) else None,
        OrUndefined(form.externalTournamentUrl),
        profile.value.ranking,
        OrUndefined(form.fundingEndTime)))
  }

  /** The handler sends a request whatever the target text is: an unparsable target
      reaches the service as NaN, and the fee preview for it is absent. */
  lemma UnparsableTargetIsSent(user: string, profile: PlayerProfile, form: CreateForm, parse: string -> Number)
    requires parse(form.targetPoolAmount).NaN?
    ensures PrepareSubmission(Some(user), Some(profile), form, parse).Send?
    ensures PrepareSubmission(Some(user), Some(profile), form, parse).request.targetPoolAmount.NaN?
    ensures CalculateFees(Some(profile), form.targetPoolAmount, parse).None?
  {
  }

  /** What `createTournament` reports: `error` may be missing. */
  datatype ServiceResponse = ServiceResponse(success: bool, error: Option<string>)

  /** How the awaited call ends: it returns a response, or throws. */
  datatype CallResult = Returned(response: ServiceResponse) | ThrewError(message: string) | ThrewOther

  /** The page state the handler writes. */
  datatype SubmitState = SubmitState(success: bool, error: Option<string>, isLoading: bool)

  /** Whether the service accepted the request. */
  predicate Accepted(result: CallResult) {
    result.Returned? && result.response.success
  }

  /** The end of the handler once the call has been made. The error was cleared before
      the call. An unsuccessful response is rethrown with its error text, or with the
      default text when that is missing or empty, and the catch block records the
      message. `finally` clears the loading flag. `success` is only ever set, never
      cleared, so an earlier success survives a later failure. */
  function FinishSubmission(before: SubmitState, result: CallResult): (st: SubmitState)
    ensures !st.isLoading
    ensures st.success <==> before.success || Accepted(result)
    ensures st.error.None? <==> Accepted(result)
    ensures result.Returned? && !result.response.success ==>
      st.error == Some(
        if result.response.error.None? || result.response.error.value == "" then CreateFailedError
        else result.response.error.value)
    ensures result.ThrewError? ==> st.error == Some(result.message)
    ensures result.ThrewOther? ==> st.error == Some(UnknownError)
  {
    match result
    case Returned(response) =>
      if response.success then SubmitState(true, None, false)
      else
        var message := if response.error.Some? && response.error.value != "" then response.error.value else CreateFailedError;
        SubmitState(before.success, Some(message), false)
    case ThrewError(message) => SubmitState(before.success, Some(message), false)
    case ThrewOther => SubmitState(before.success, Some(UnknownError), false)
  }

  /** `handleSubmit` end to end. A refused submission only sets the error and never calls
      the service. Otherwise the service is called with the prepared request, and the page
      ends not loading. The page is marked successful afterwards exactly when it already
      was, or when the service accepted this request. */
  function HandleSubmit(
    user: Option<string>, profile: Option<PlayerProfile>, form: CreateForm,
    parse: string -> Number, service: CreateRequest -> CallResult, before: SubmitState): (after: SubmitState)
    ensures user.None? ==> after == before.(error := Some(NotLoggedInError))
    ensures user.Some? && profile.None? ==> after == before.(error := Some(NoProfileError))
    ensures user.Some? && profile.Some? ==> !after.isLoading
    ensures user.Some? && profile.Some? ==>
      (after.success <==> before.success || Accepted(service(PrepareSubmission(user, profile, form, parse).request)))
    ensures before.success ==> after.success
  {
    match PrepareSubmission(user, profile, form, parse)
    case Refused(message) => before.(error := Some(message))
    case Send(request) => FinishSubmission(before, service(request))
  }
}
