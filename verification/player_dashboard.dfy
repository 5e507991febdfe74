/** The player's dashboard of created tournaments: status colours and labels, the
    funding progress bar, the paid-flag labels, and which payment form or action each
    tournament offers for its status. The status arrives as free text; it is parsed at
    this boundary into a closed datatype that keeps unrecognised text. */
module PlayerDashboard {
  import opened JsNumber

  datatype Status =
    | PendingInitialPayment
    | PendingGuarantee
    | FundingOpen
    | FundingComplete
    | FundsTransferredToPlayer
    | InProgress
    | AwaitingResults
    | CompletedWon
    | CompletedLost
    | FundingFailed
    | Cancelled
    | Unrecognized(raw: string)

  /** The text a status is stored as. */
  function StatusName(s: Status): string {
    match s
    case PendingInitialPayment => "pending_initial_payment"
    case PendingGuarantee => "pending_guarantee"
    case FundingOpen => "funding_open"
    case FundingComplete => "funding_complete"
    case FundsTransferredToPlayer => "funds_transferred_to_player"
    case InProgress => "in_progress"
    case AwaitingResults => "awaiting_results"
    case CompletedWon => "completed_won"
    case CompletedLost => "completed_lost"
    case FundingFailed => "funding_failed"
    case Cancelled => "cancelled"
    case Unrecognized(raw) => raw
  }

  /** Reads a stored status; any text that is not one of the eleven names is kept as
      `Unrecognized`. Printing the result gives the text back. */
  function ParseStatus(raw: string): (s: Status)
    ensures StatusName(s) == raw
    ensures s.Unrecognized? ==> s.raw == raw
  {
    match raw
    case "pending_initial_payment" => PendingInitialPayment
    case "pending_guarantee" => PendingGuarantee
    case "funding_open" => FundingOpen
    case "funding_complete" => FundingComplete
    case "funds_transferred_to_player" => FundsTransferredToPlayer
    case "in_progress" => InProgress
    case "awaiting_results" => AwaitingResults
    case "completed_won" => CompletedWon
    case "completed_lost" => CompletedLost
    case "funding_failed" => FundingFailed
    case "cancelled" => Cancelled
    case _ => Unrecognized(raw)
  }

  /** A status value the parser can produce: unrecognised text is never a known name. */
  predicate WellFormed(s: Status) {
    s.Unrecognized? ==> ParseStatus(s.raw).Unrecognized?
  }

  /** Parsing inverts printing on well-formed statuses; so distinct statuses are stored
      as distinct text. */
  lemma ParseStatusName(s: Status)
    requires WellFormed(s)
    ensures ParseStatus(StatusName(s)) == s
  {
  }

  const Green := "#28a745"
  const Yellow := "#ffc107"
  const Cyan := "#17a2b8"
  const Blue := "#007bff"
  const Violet := "#6f42c1"
  const Red := "#dc3545"
  const Gray := "#6c757d"

  /** `getStatusColor`: pending stages yellow, open funding and a win the same green,
      failure, cancellation and any unknown text gray. */
  function StatusColor(status: string): (c: string)
    ensures c == Yellow <==> status == "pending_initial_payment" || status == "pending_guarantee"
    ensures c == Green <==> status == "funding_open" || status == "completed_won"
    ensures c == Cyan <==> status == "funding_complete"
    ensures c == Blue <==> status == "funds_transferred_to_player" || status == "in_progress"
    ensures c == Violet <==> status == "awaiting_results"
    ensures c == Red <==> status == "completed_lost"
    ensures c == Gray <==> status == "funding_failed" || status == "cancelled" || ParseStatus(status).Unrecognized?
  {
    match ParseStatus(status)
    case FundingOpen => Green
    case PendingInitialPayment | PendingGuarantee => Yellow
    case FundingComplete => Cyan
    case FundsTransferredToPlayer | InProgress => Blue
    case AwaitingResults => Violet
    case CompletedWon => Green
    case CompletedLost => Red
    case FundingFailed | Cancelled => Gray
    case Unrecognized(_) => Gray
  }

  /** `status.replace(/_/g, ' ')`: every underscore becomes a space, nothing else moves. */
  function ReplaceUnderscores(s: string): (r: string)
    ensures |r| == |s|
    ensures forall i :: 0 <= i < |s| ==> r[i] == (if s[i] == '_' then ' ' else s[i])
  {
    if s == [] then []
    else [if s[0] == '_' then ' ' else s[0]] + ReplaceUnderscores(s[1..])
  }

  /** The fixed label of a known status. */
  function KnownLabel(s: Status): string
    requires !s.Unrecognized?
  {
    match s
    case PendingInitialPayment => "In attesa di commissione"
    case PendingGuarantee => "In attesa di garanzia"
    case FundingOpen => "Raccolta fondi aperta"
    case FundingComplete => "Raccolta fondi completata"
    case FundsTransferredToPlayer => "Fondi trasferiti"
    case InProgress => "In corso"
    case AwaitingResults => "In attesa di risultati"
    case CompletedWon => "Completato (Vinto)"
    case CompletedLost => "Completato (Perso)"
    case FundingFailed => "Raccolta fondi fallita"
    case Cancelled => "Annullato"
  }

  /** `formatStatus`: the fixed label for a known status, and for unknown text the text
      itself with underscores turned into spaces. */
  function FormatStatus(status: string): (shown: string)
    ensures !ParseStatus(status).Unrecognized? ==> shown == KnownLabel(ParseStatus(status))
    ensures ParseStatus(status).Unrecognized? ==>
      |shown| == |status| && forall i :: 0 <= i < |status| ==> shown[i] != '_'
    ensures ParseStatus(status).Unrecognized? ==>
      forall i :: 0 <= i < |status| ==> shown[i] == (if status[i] == '_' then ' ' else status[i])
  {
    match ParseStatus(status)
    case Unrecognized(raw) => ReplaceUnderscores(raw)
    case known => KnownLabel(known)
  }

  /** The eleven known statuses all have different labels. */
  lemma KnownLabelsDistinct(a: Status, b: Status)
    requires !a.Unrecognized? && !b.Unrecognized? && a != b
    ensures KnownLabel(a) != KnownLabel(b)
  {
  }

  /** A tournament record, reduced to the fields the dashboard computes with. */
  datatype Tournament = Tournament(
    name: string,
    status: string,
    targetPoolAmount: real,
    currentPoolAmount: real,
    initialFeePaid: bool,
    guaranteePaid: bool)

  /** The initial-fee form is offered exactly while the fee is both due by status and
      not yet marked paid. */
  function ShowsInitialFeeForm(t: Tournament): (shown: bool)
    ensures shown <==> t.status == "pending_initial_payment" && !t.initialFeePaid
  {
    ParseStatus(t.status) == PendingInitialPayment && !t.initialFeePaid
  }

  /** The guarantee form is offered exactly while the guarantee is both due by status and
      not yet marked deposited. */
  function ShowsGuaranteeForm(t: Tournament): (shown: bool)
    ensures shown <==> t.status == "pending_guarantee" && !t.guaranteePaid
  {
    ParseStatus(t.status) == PendingGuarantee && !t.guaranteePaid
  }

  /** The report-results button is offered exactly while results are awaited. */
  function ShowsReportButton(t: Tournament): (shown: bool)
    ensures shown <==> t.status == "awaiting_results"
  {
    ParseStatus(t.status) == AwaitingResults
  }

  /** A tournament offers at most one of the two payment forms and the report button. */
  lemma AtMostOneAction(t: Tournament)
    ensures !(ShowsInitialFeeForm(t) && ShowsGuaranteeForm(t))
    ensures !(ShowsInitialFeeForm(t) && ShowsReportButton(t))
    ensures !(ShowsGuaranteeForm(t) && ShowsReportButton(t))
  {
  }

  /** Once a flag is set, its form is gone whatever the status says. */
  lemma PaidFlagHidesForm(t: Tournament)
    ensures t.initialFeePaid ==> !ShowsInitialFeeForm(t)
    ensures t.guaranteePaid ==> !ShowsGuaranteeForm(t)
  {
  }

  /** The width of the funding bar, in percent: `Math.min(100, current / target * 100)`.
      It never exceeds 100; there is no lower clamp; a zero target gives 100 for a
      positive pool, -Infinity for a negative one and NaN for an empty one. */
  function ProgressWidth(current: real, target: real): (w: Number)
    ensures !w.NaN? ==> AtMost(w, 100.0)
    ensures w.NaN? <==> current == 0.0 && target == 0.0
    ensures target > 0.0 ==> w.Finite?
    ensures target > 0.0 && current <= target ==> w == Finite(current / target * 100.0)
    ensures target > 0.0 && current >= target ==> w == Finite(100.0)
    ensures current >= 0.0 && target > 0.0 ==> 0.0 <= w.value <= 100.0
    ensures target == 0.0 && current > 0.0 ==> w == Finite(100.0)
    ensures target == 0.0 && current < 0.0 ==> w.NegInf?
  {
    assert target > 0.0 && current >= target ==> current / target >= 1.0 by {
      if target > 0.0 && current >= target {
        assert current / target * target == current;
      }
    }
    Min(100.0, Mul(Div(current, target), 100.0))
  }

  /** A negative pool against a positive target gives a negative width. */
  lemma NoLowerClamp(current: real, target: real)
    requires current < 0.0 < target
    ensures ProgressWidth(current, target).Finite? && ProgressWidth(current, target).value < 0.0
  {
  }

  /** The initial-fee status text follows the paid flag alone. */
  function FeePaidLabel(paid: bool): (s: string)
    ensures s == "Pagata" <==> paid
    ensures s == "Da Pagare" <==> !paid
  {
    if paid then "Pagata" else "Da Pagare"
  }

  /** The guarantee status text follows the paid flag alone. */
  function GuaranteePaidLabel(paid: bool): (s: string)
    ensures s == "Depositata" <==> paid
    ensures s == "Da Depositare" <==> !paid
  {
    if paid then "Depositata" else "Da Depositare"
  }

  /** Everything the dashboard decides for one tournament. */
  datatype Card = Card(
    statusColor: string,
    statusLabel: string,
    progressWidth: Number,
    feeLabel: string,
    showsInitialFeeForm: bool,
    guaranteeLabel: string,
    showsGuaranteeForm: bool,
    showsReportButton: bool)

  function CardFor(t: Tournament): Card {
    Card(
      StatusColor(t.status),
      FormatStatus(t.status),
      ProgressWidth(t.currentPoolAmount, t.targetPoolAmount),
      FeePaidLabel(t.initialFeePaid),
      ShowsInitialFeeForm(t),
      GuaranteePaidLabel(t.guaranteePaid),
      ShowsGuaranteeForm(t),
      ShowsReportButton(t))
  }

  /** Two tournaments with the same flags get the same paid labels, whatever else
      differs. */
  lemma PaidLabelsFollowFlags(t: Tournament, u: Tournament)
    requires t.initialFeePaid == u.initialFeePaid && t.guaranteePaid == u.guaranteePaid
    ensures CardFor(t).feeLabel == CardFor(u).feeLabel
    ensures CardFor(t).guaranteeLabel == CardFor(u).guaranteeLabel
  {
  }

  datatype Screen = Loading | LoginRequired | NoTournaments | Listing(cards: seq<Card>)

  /** What the dashboard renders: a loading notice first, then a login notice, then an
      empty notice, and otherwise one card per tournament in the order fetched. */
  function DashboardScreen(isLoading: bool, loggedIn: bool, tournaments: seq<Tournament>): (s: Screen)
    ensures s.Loading? <==> isLoading
    ensures s.LoginRequired? <==> !isLoading && !loggedIn
    ensures s.NoTournaments? <==> !isLoading && loggedIn && tournaments == []
    ensures s.Listing? ==> |s.cards| == |tournaments| > 0
    ensures s.Listing? ==> forall i :: 0 <= i < |tournaments| ==> s.cards[i] == CardFor(tournaments[i])
  {
    if isLoading then Loading
    else if !loggedIn then LoginRequired
    else if |tournaments| == 0 then NoTournaments
    else Listing(seq(|tournaments|, i requires 0 <= i < |tournaments| => CardFor(tournaments[i])))
  }

  /** The effect that fetches the player's tournaments, as it acts on the loading flag
      (which starts out true). With no user it returns before touching the flag; with a
      user the fetch ends, successfully or not, with the flag cleared. */
  function LoadingAfterFetch(loadingBefore: bool, loggedIn: bool): (loading: bool)
    ensures loggedIn ==> !loading
    ensures !loggedIn ==> loading == loadingBefore
  {
    if !loggedIn then loadingBefore else false
  }

  /** The screen once the fetch effect has run, as the code is written: a visitor without
      a user sees the login notice only if the flag was already clear. */
  function ScreenAfterFetch(loadingBefore: bool, loggedIn: bool, tournaments: seq<Tournament>): (s: Screen)
    ensures !loggedIn ==> (s.LoginRequired? <==> !loadingBefore)
    ensures !loggedIn ==> (s.Loading? <==> loadingBefore)
    ensures loggedIn ==> !s.Loading? && !s.LoginRequired?
  {
    DashboardScreen(LoadingAfterFetch(loadingBefore, loggedIn), loggedIn, tournaments)
  }

  /** On a first visit without a user, the flag is still at its initial true, so the
      dashboard shows the loading notice and never the login notice. */
  lemma LoggedOutVisitorStaysLoading(tournaments: seq<Tournament>)
    ensures ScreenAfterFetch(true, false, tournaments) == Loading
    ensures !ScreenAfterFetch(true, false, tournaments).LoginRequired?
  {
  }

  /** The evidently intended effect: without a user there is nothing to load, so the
      flag is cleared too. */
  function IntendedLoadingAfterFetch(loadingBefore: bool, loggedIn: bool): (loading: bool)
    ensures !loading
  {
    false
  }

  /** The screen once the intended effect has run: a visitor without a user always gets
      the login notice, whatever the flag was before. */
  function IntendedScreenAfterFetch(loadingBefore: bool, loggedIn: bool, tournaments: seq<Tournament>): (s: Screen)
    ensures s.LoginRequired? <==> !loggedIn
    ensures !s.Loading?
    ensures loggedIn ==> s == ScreenAfterFetch(loadingBefore, loggedIn, tournaments)
  {
    DashboardScreen(IntendedLoadingAfterFetch(loadingBefore, loggedIn), loggedIn, tournaments)
  }
}
