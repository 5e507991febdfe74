/** The investor's portfolio table: colour tables for status and risk, the per-row action
    button, the loading gate around an action, and the portfolio totals with their ROI. */
module InvestmentTable {
  import opened JsNumber
  import opened Palette

  /** One row of the table. Dates are display-only and left out. */
  datatype Investment = Investment(
    tournament: string,
    organizer: string,
    amount: real,
    status: string,
    currentValue: real,
    roi: real,
    riskLevel: string)

  function RiskColor(risk: string): (c: string)
    ensures c == GreenBadge <==> risk == "low"
    ensures c == YellowBadge <==> risk == "medium"
    ensures c == RedBadge <==> risk == "high"
    ensures c == GrayBadge <==> risk != "low" && risk != "medium" && risk != "high"
  {
    match risk
    case "low" => GreenBadge
    case "medium" => YellowBadge
    case "high" => RedBadge
    case _ => GrayBadge
  }

  function StatusColor(status: string): (c: string)
    ensures c == BlueBadge <==> status == "active"
    ensures c == GreenBadge <==> status == "completed"
    ensures c == YellowBadge <==> status == "pending"
    ensures c == RedBadge <==> status == "cancelled"
    ensures c == GrayBadge <==>
      status != "active" && status != "completed" && status != "pending" && status != "cancelled"
  {
    match status
    case "active" => BlueBadge
    case "completed" => GreenBadge
    case "pending" => YellowBadge
    case "cancelled" => RedBadge
    case _ => GrayBadge
  }

  datatype ActionKind = Withdraw | Claim | Cancel

  function ActionName(kind: ActionKind): string {
    match kind
    case Withdraw => "Withdraw"
    case Claim => "Claim"
    case Cancel => "Cancel"
  }

  datatype ActionButton = ActionButton(kind: ActionKind, disabled: bool, text: string)

  /** One action button, as each of the three conditional blocks renders it. */
  function Button(kind: ActionKind, isLoading: bool): ActionButton {
    ActionButton(kind, isLoading, if isLoading then "Processing..." else ActionName(kind))
  }

  /** The buttons of a row's Action cell: three independent conditionals on the status,
      concatenated in source order. Since they test distinct statuses, a row never shows
      more than one; every shown button is disabled exactly while an action is loading. */
  function RowActions(status: string, isLoading: bool): (buttons: seq<ActionButton>)
    ensures |buttons| <= 1
    ensures |buttons| == 1 <==> status == "active" || status == "completed" || status == "pending"
    ensures |buttons| == 1 ==>
              buttons[0].kind == (if status == "active" then Withdraw else if status == "completed" then Claim else Cancel)
    ensures forall i :: 0 <= i < |buttons| ==> buttons[i].disabled == isLoading
    ensures forall i :: 0 <= i < |buttons| ==>
      buttons[i].text == (if isLoading then "Processing..." else ActionName(buttons[i].kind))
  {
    (if status == "active" then [Button(Withdraw, isLoading)] else [])
    + (if status == "completed" then [Button(Claim, isLoading)] else [])
    + (if status == "pending" then [Button(Cancel, isLoading)] else [])
  }

  /** How the simulated call behind an action ends. */
  datatype CallOutcome = Resolved | Rejected

  /** What `handleAction` does: the successive values it gives `isLoading`, and the alert. */
  datatype ActionEffect = ActionEffect(loading: seq<bool>, alert: string)

  /** `handleAction`: raise the loading flag, alert the outcome, and lower the flag again
      in a `finally` block, so that the table ends unlocked whichever way the call ends. */
  function HandleAction(kind: ActionKind, investment: Investment, outcome: CallOutcome): (e: ActionEffect)
    ensures |e.loading| >= 2 && e.loading[0] && !e.loading[|e.loading| - 1]
    ensures outcome.Resolved? ==>
      e.alert == ActionName(kind) + " action for " + investment.tournament + " completed successfully!"
    ensures outcome.Rejected? ==> e.alert == "Error performing " + ActionName(kind) + " action"
  {
    var alert := match outcome
      case Resolved => ActionName(kind) + " action for " + investment.tournament + " completed successfully!"
      case Rejected => "Error performing " + ActionName(kind) + " action";
    ActionEffect([true, false], alert)
  }

  /** `rows.reduce((sum, inv) => sum + field(inv), 0)`: a left fold. */
  function SumOf(rows: seq<Investment>, field: Investment -> real): real {
    if rows == [] then 0.0 else SumOf(rows[..|rows| - 1], field) + field(rows[|rows| - 1])
  }

  function Amount(inv: Investment): real { inv.amount }

  function CurrentValue(inv: Investment): real { inv.currentValue }

  /** The sum is monotone in the summed field, row by row. */
  lemma {:induction false} SumOfMonotone(rows: seq<Investment>, f: Investment -> real, g: Investment -> real)
    requires forall i :: 0 <= i < |rows| ==> f(rows[i]) <= g(rows[i])
    ensures SumOf(rows, f) <= SumOf(rows, g)
  {
    if rows != [] {
      SumOfMonotone(rows[..|rows| - 1], f, g);
    }
  }

  /** The totals the header shows, computed the way the component does, with one pass
      over the rows. */
  method Totals(rows: seq<Investment>) returns (invested: real, current: real)
    ensures invested == SumOf(rows, Amount)
    ensures current == SumOf(rows, CurrentValue)
  {
    invested, current := 0.0, 0.0;
    var i := 0;
    while i < |rows|
      invariant 0 <= i <= |rows|
      invariant invested == SumOf(rows[..i], Amount)
      invariant current == SumOf(rows[..i], CurrentValue)
    {
      assert rows[..i + 1][..i] == rows[..i];
      invested := invested + rows[i].amount;
      current := current + rows[i].currentValue;
      i := i + 1;
    }
    assert rows[..i] == rows;
  }

  /** `((current - invested) / invested) * 100`: finite exactly when something was
      invested, and then its sign is the sign of the gain. */
  function TotalRoi(invested: real, current: real): (r: Number)
    ensures r.Finite? <==> invested != 0.0
    ensures r.Finite? ==> r.value * invested == (current - invested) * 100.0
    ensures r.NaN? <==> invested == 0.0 && current == 0.0
    ensures invested > 0.0 ==>
      && (IsPositive(r) <==> current > invested)
      && (IsNegative(r) <==> current < invested)
      && (r == Finite(0.0) <==> current == invested)
  {
    Mul(Div(current - invested, invested), 100.0)
  }

  /** The text decoration of an ROI figure. */
  datatype RoiDisplay = RoiDisplay(prefix: string, color: string)

  /** A `+` prefix only for a strictly positive ROI; green above zero, red below, gray
      for zero (and for NaN, which compares false both ways). */
  function RoiBadge(roi: Number): (d: RoiDisplay)
    ensures d.prefix == "+" <==> IsPositive(roi)
    ensures d.prefix == "" <==> !IsPositive(roi)
    ensures d.color == GreenText <==> IsPositive(roi)
    ensures d.color == RedText <==> IsNegative(roi)
    ensures d.color == GrayText <==> roi == Finite(0.0) || roi.NaN?
  {
    SignsExclusive(roi);
    RoiDisplay(
      if IsPositive(roi) then "+" else "",
      if IsPositive(roi) then GreenText else if IsNegative(roi) then RedText else GrayText)
  }

  /** The portfolio header's ROI decoration. */
  function PortfolioBadge(rows: seq<Investment>): RoiDisplay {
    RoiBadge(TotalRoi(SumOf(rows, Amount), SumOf(rows, CurrentValue)))
  }

  /** With a positive total invested, the header is green with a `+` exactly when the
      portfolio is worth more than was put in, and red exactly when it is worth less. */
  lemma PortfolioBadgeFollowsGain(rows: seq<Investment>)
    requires SumOf(rows, Amount) > 0.0
    ensures PortfolioBadge(rows).color == GreenText <==> SumOf(rows, CurrentValue) > SumOf(rows, Amount)
    ensures PortfolioBadge(rows).prefix == "+" <==> SumOf(rows, CurrentValue) > SumOf(rows, Amount)
    ensures PortfolioBadge(rows).color == RedText <==> SumOf(rows, CurrentValue) < SumOf(rows, Amount)
  {
  }

  /** If no row has lost value, the portfolio ROI is never shown in red. */
  lemma NoRowLossNoRedHeader(rows: seq<Investment>)
    requires SumOf(rows, Amount) > 0.0
    requires forall i :: 0 <= i < |rows| ==> rows[i].amount <= rows[i].currentValue
    ensures PortfolioBadge(rows).color != RedText
  {
    SumOfMonotone(rows, Amount, CurrentValue);
  }

  /** The rows the component renders. */
  const SampleInvestments: seq<Investment> := [
    Investment("Sunday Million", "PokerPro", 1500.0, "active", 1650.0, 10.0, "medium"),
    Investment("High Roller Championship", "ChampionAce", 5000.0, "active", 5750.0, 15.0, "high"),
    Investment("Daily Grind Series", "TourneyKing", 500.0, "completed", 580.0, 16.0, "low"),
    Investment("Micro Stakes Marathon", "MicroMaster", 250.0, "active", 275.0, 10.0, "low"),
    Investment("Bounty Hunter Special", "BountyHunter", 2000.0, "pending", 2000.0, 0.0, "medium")
  ]

  /** The sample portfolio totals 9250 invested against 10255 current. */
  lemma SampleTotals()
    ensures SumOf(SampleInvestments, Amount) == 9250.0
    ensures SumOf(SampleInvestments, CurrentValue) == 10255.0
  {
    var s := SampleInvestments;
    assert s[..1][..0] == [] && s[..2][..1] == s[..1] && s[..3][..2] == s[..2];
    assert s[..4][..3] == s[..3] && s[..5][..4] == s[..4] && s[..5] == s;
    assert SumOf(s[..1], Amount) == 1500.0 && SumOf(s[..1], CurrentValue) == 1650.0;
    assert SumOf(s[..2], Amount) == 6500.0 && SumOf(s[..2], CurrentValue) == 7400.0;
    assert SumOf(s[..3], Amount) == 7000.0 && SumOf(s[..3], CurrentValue) == 7980.0;
    assert SumOf(s[..4], Amount) == 7250.0 && SumOf(s[..4], CurrentValue) == 8255.0;
  }

  /** The sample portfolio's header reads as a gain: a `+` prefix in green. */
  lemma SampleHeader()
    ensures PortfolioBadge(SampleInvestments) == RoiDisplay("+", GreenText)
  {
    SampleTotals();
    PortfolioBadgeFollowsGain(SampleInvestments);
  }

  /** Each sample row's stored ROI is the ROI of its own amount and current value. */
  lemma SampleRowRois()
    ensures forall i :: 0 <= i < |SampleInvestments| ==>
      TotalRoi(SampleInvestments[i].amount, SampleInvestments[i].currentValue) == Finite(SampleInvestments[i].roi)
  {
  }
}
