/** The public tournament list: colour tables for status and risk, the Invest button,
    and the Expected ROI cell. */
module TournamentTable {
  import opened JsNumber
  import opened Palette
  import InvestmentTable

  /** One row of the list, reduced to the fields the cells compute with. */
  datatype Listing = Listing(name: string, status: string, expectedRoi: real, riskLevel: string)

  function RiskColor(risk: string): (c: string)
    ensures c == GreenBadge <==> risk == "low"
    ensures c == YellowBadge <==> risk == "medium"
    ensures c == RedBadge <==> risk == "high"
    ensures c == GrayBadge <==> risk != "low" && risk != "medium" && risk != "high"
  {
    match risk
    case "low" => GreenBadge
    case "medium" => YellowBadge
    case "high" => RedBadge
    case _ => GrayBadge
  }

  /** The risk badge is coloured the same way in both tables. */
  lemma RiskColorMatchesInvestmentTable(risk: string)
    ensures RiskColor(risk) == InvestmentTable.RiskColor(risk)
  {
  }

  /** Only live and upcoming tournaments get a colour; `completed` shares the gray of
      every unknown status. */
  function StatusColor(status: string): (c: string)
    ensures c == GreenBadge <==> status == "live"
    ensures c == BlueBadge <==> status == "upcoming"
    ensures c == GrayBadge <==> status != "live" && status != "upcoming"
  {
    match status
    case "live" => GreenBadge
    case "upcoming" => BlueBadge
    case "completed" => GrayBadge
    case _ => GrayBadge
  }

  const DisabledButtonClass := "cursor-not-allowed bg-gray-100 text-gray-400 dark:bg-gray-800 dark:text-gray-600"
  const EnabledButtonClass := "bg-blue-500 text-white hover:bg-blue-600 dark:bg-blue-600 dark:hover:bg-blue-700"

  datatype InvestButton = InvestButton(disabled: bool, style: string, text: string)

  /** The Action cell: disabled, greyed and captioned `Completed` exactly for a completed
      tournament, otherwise an active `Invest` button. */
  function InvestButtonFor(status: string): (b: InvestButton)
    ensures b.disabled <==> status == "completed"
    ensures b.text == "Completed" <==> b.disabled
    ensures b.text == "Invest" <==> !b.disabled
    ensures b.style == DisabledButtonClass <==> b.disabled
  {
    var completed := status == "completed";
    InvestButton(
      completed,
      if completed then DisabledButtonClass else EnabledButtonClass,
      if completed then "Completed" else "Invest")
  }

  /** The Expected ROI cell: always green and always prefixed with `+`, whatever the
      sign of the value (a negative value would read `+-x%`). */
  function ExpectedRoiCell(roi: real): (d: InvestmentTable.RoiDisplay)
    ensures d.prefix == "+" && d.color == GreenText
  {
    InvestmentTable.RoiDisplay("+", GreenText)
  }

  /** The Expected ROI cell is decorated like the investment table's ROI exactly when the
      value is strictly positive. */
  lemma ExpectedRoiCellAgreesOnlyWhenPositive(roi: real)
    ensures ExpectedRoiCell(roi) == InvestmentTable.RoiBadge(Finite(roi)) <==> roi > 0.0
  {
  }
}
