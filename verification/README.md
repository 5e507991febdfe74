# Solcraft tournament dashboard — a Dafny model of its decision logic

This project models the pure logic of the Solcraft tournament-investment dashboard.
That logic lives inside a handful of UI components:

- the tournament creation page. It previews a player's initial platform fee and
  guarantee from their ranking tier (PLATINUM, GOLD, SILVER, BRONZE) and a target pool
  amount. Its submit handler refuses to run without a user or a player profile, and
  otherwise maps the form fields to a create request;
- the player's tournament dashboard. A tournament's status and its two paid flags decide
  which payment form (initial fee or guarantee) or "report results" button it offers.
  Fixed tables give each status a colour and an Italian label, and a funding bar shows
  the pool progress;
- the investor's portfolio table: colour tables, one action button per row, a loading
  lock around actions, and portfolio totals with their ROI;
- the public tournament table: colour tables and the Invest button;
- the liquidity and volume charts, whose `numberAbbr` shows a figure with an M, B or T
  suffix.

Each source file is one Dafny module:

| module | file |
|---|---|
| `CreateTournament` | `create_tournament.dfy` |
| `PlayerDashboard` | `player_dashboard.dfy` |
| `InvestmentTable` | `investment_table.dfy` |
| `TournamentTable` | `tournament_table.dfy` |
| `LiquidityChart` | `liquidity_chart.dfy` |
| `VolumeChart` | `volume_chart.dfy` |

Four helper modules support them:

- `Wrappers`: `Option`.
- `JsNumber`: JavaScript numbers as exact reals plus ±Infinity and NaN, with division,
  multiplication, `Math.min` and comparisons.
- `DecimalText`: `toFixed(1)` rounding and the digits of a number.
- `Palette`: the shared Tailwind class strings.

Parameters stand in for what the model cannot see:

- `parseFloat` is a parameter `parse: string -> Number` of the creation page functions.
- The remote create call is a parameter `service: CreateRequest -> CallResult`.
- The outcome of the simulated portfolio action is a `CallOutcome` argument.

Statuses stay free text on the records, as in the source. The dashboard parses them into
a closed `Status` datatype at the boundary, and `ParseStatus` and `StatusName` are proved
inverse.

The model keeps these behaviours of the code, even where a reader might expect otherwise:

- The funding bar is clamped only from above. A negative pool shows a negative width.
  A zero target shows 100, -Infinity or NaN (`ProgressWidth`, `NoLowerClamp`).
- The submit handler itself does not validate the target amount: it passes on whatever
  `parseFloat` yields, NaN included (`UnparsableTargetIsSent`). The browser's checks on
  the input field (`type="number" required min="0.1"`) normally stop such a submit
  first. Those checks are not modelled.
- The fee preview rejects only a missing profile, an empty field or NaN. Zero, negative
  and infinite targets produce a preview.
- An unknown ranking tier is not an error result in the code: the table lookup would
  throw. The tier is therefore a closed datatype.

## Model

| member | source | states |
|---|---|---|
| CreateTournament.CalculateFees | src/pages/tournaments/create.tsx:92-113 | no preview exactly when the profile is missing, the amount field is empty or it parses to NaN; otherwise PLATINUM 5/20, GOLD 7/25, SILVER 8/30, BRONZE 10/40 percent, and both amounts are their percentage of the parsed target |
| CreateTournament.TierOrdering | src/pages/tournaments/create.tsx:99-104 | from PLATINUM to BRONZE both fractions strictly increase, and in every tier the guarantee fraction exceeds the fee fraction |
| CreateTournament.FeesWithinTarget | src/pages/tournaments/create.tsx:106-112 | for a positive finite target: 0 < fee < guarantee < target, and the target is recovered from either amount and its reported percentage |
| CreateTournament.GoldExample | src/pages/tournaments/create.tsx:98-112 | GOLD with a target of 100 gives fee 7 at 7% and guarantee 25 at 25% |
| CreateTournament.OrUndefined | src/pages/tournaments/create.tsx:69-71 | an optional text field becomes undefined exactly when it is empty, and is otherwise copied unchanged |
| CreateTournament.PrepareSubmission | src/pages/tournaments/create.tsx:46-72 | no user or no profile stops with the matching message and builds no request; otherwise names are copied, amounts parsed, an empty buy-in, URL or funding end left undefined, and the ranking copied from the profile |
| CreateTournament.UnparsableTargetIsSent | src/pages/tournaments/create.tsx:63-72 | a target text that parses to NaN still produces a request, carrying NaN, while the fee preview for it is absent |
| CreateTournament.FinishSubmission | src/pages/tournaments/create.tsx:74-88 | loading always ends; success afterwards exactly when it was already set or the service answered success, since success is never cleared; no error exactly when the service answered success; a failure shows the service's error text, or the default when it is missing or empty; a thrown error shows its message, anything else thrown the unknown-error text |
| CreateTournament.HandleSubmit | src/pages/tournaments/create.tsx:46-89 | a refused submission changes only the error text; a sent one ends not loading, and is successful afterwards exactly when it was before or the service accepted the request; an earlier success is never lost |
| JsNumber.Div | src/components/PlayerTournamentDashboard.tsx:94 | a quotient is finite exactly when the divisor is non-zero and then multiplies back to the dividend; a zero divisor gives an infinity of the dividend's sign, or NaN for 0/0 |
| JsNumber.Mul | src/pages/tournaments/create.tsx:108-110 | a finite number scales exactly; NaN is contagious and an infinity times zero is NaN; a positive factor keeps infinities |
| JsNumber.Min | src/components/PlayerTournamentDashboard.tsx:94 | Math.min with a finite bound: NaN exactly for NaN, never above the bound, the argument itself when it is within the bound, the bound otherwise |
| JsNumber.SignsExclusive | src/components/investment/investment-table.tsx:157-158 | no number is both above and below zero; a number is neither exactly when it is zero or NaN |
| PlayerDashboard.ParseStatus | src/components/PlayerTournamentDashboard.tsx:149-163 | reading a stored status and printing it back gives the same text; unknown text is kept verbatim |
| PlayerDashboard.ParseStatusName | src/components/PlayerTournamentDashboard.tsx:166-179 | parsing the stored text of any well-formed status gives that status back |
| PlayerDashboard.StatusColor | src/components/PlayerTournamentDashboard.tsx:149-164 | yellow exactly for the two pending stages, the same green exactly for funding_open and completed_won, cyan, blue, violet and red for their stages, gray exactly for funding_failed, cancelled and unknown text |
| PlayerDashboard.ReplaceUnderscores | src/components/PlayerTournamentDashboard.tsx:179 | same length; every underscore becomes a space and every other character stays in place |
| PlayerDashboard.FormatStatus | src/components/PlayerTournamentDashboard.tsx:166-181 | a known status gets its fixed label; unknown text keeps its length, every underscore becomes a space and every other character stays in place |
| PlayerDashboard.KnownLabelsDistinct | src/components/PlayerTournamentDashboard.tsx:167-178 | the eleven known statuses have pairwise different labels |
| PlayerDashboard.ShowsInitialFeeForm | src/components/PlayerTournamentDashboard.tsx:101 | the initial-fee form is shown exactly when the status is pending_initial_payment and the fee is not marked paid |
| PlayerDashboard.ShowsGuaranteeForm | src/components/PlayerTournamentDashboard.tsx:114 | the guarantee form is shown exactly when the status is pending_guarantee and the guarantee is not marked paid |
| PlayerDashboard.ShowsReportButton | src/components/PlayerTournamentDashboard.tsx:125 | the report-results button is shown exactly when the status is awaiting_results |
| PlayerDashboard.AtMostOneAction | src/components/PlayerTournamentDashboard.tsx:101-125 | no tournament shows two of the initial-fee form, the guarantee form and the report button |
| PlayerDashboard.PaidFlagHidesForm | src/components/PlayerTournamentDashboard.tsx:101-114 | a set paid flag hides its form whatever the status |
| PlayerDashboard.ProgressWidth | src/components/PlayerTournamentDashboard.tsx:94 | never above 100; NaN exactly for 0 of 0; with a positive target, the plain ratio ×100 up to the target and 100 from it, and within [0,100] for a non-negative pool; with a zero target, 100 for a positive pool and -Infinity for a negative one |
| PlayerDashboard.NoLowerClamp | src/components/PlayerTournamentDashboard.tsx:94 | a negative pool against a positive target gives a negative width |
| PlayerDashboard.FeePaidLabel | src/components/PlayerTournamentDashboard.tsx:100 | 'Pagata' exactly when the fee is paid, 'Da Pagare' exactly when it is not |
| PlayerDashboard.GuaranteePaidLabel | src/components/PlayerTournamentDashboard.tsx:113 | 'Depositata' exactly when the guarantee is paid, 'Da Depositare' exactly when it is not |
| PlayerDashboard.PaidLabelsFollowFlags | src/components/PlayerTournamentDashboard.tsx:100-113 | two tournaments with equal flags get equal paid labels, whatever their status or amounts |
| PlayerDashboard.DashboardScreen | src/components/PlayerTournamentDashboard.tsx:40-51 | loading first, then the login notice, then the empty notice; otherwise one card per tournament, in order |
| PlayerDashboard.LoadingAfterFetch | src/components/PlayerTournamentDashboard.tsx:15-33 | with a user the fetch always ends with the loading flag cleared; without one the flag is left as it was |
| PlayerDashboard.ScreenAfterFetch | src/components/PlayerTournamentDashboard.tsx:15-41 | after the fetch effect, a visitor without a user sees the login notice exactly when the flag was already clear, and the loading notice otherwise; a logged-in visitor never sees either |
| PlayerDashboard.LoggedOutVisitorStaysLoading | src/components/PlayerTournamentDashboard.tsx:15-41 | on a first visit without a user, the flag keeps its initial true, so the loading notice shows and the login notice never does |
| PlayerDashboard.IntendedLoadingAfterFetch | src/components/PlayerTournamentDashboard.tsx:17-33 | the corrected effect always leaves the loading flag cleared |
| PlayerDashboard.IntendedScreenAfterFetch | src/components/PlayerTournamentDashboard.tsx:17-41 | with the corrected effect, the login notice shows exactly when there is no user, loading never sticks, and logged-in screens are unchanged |
| InvestmentTable.RiskColor | src/components/investment/investment-table.tsx:91-98 | green exactly for low, yellow for medium, red for high, gray for everything else |
| InvestmentTable.StatusColor | src/components/investment/investment-table.tsx:100-108 | blue exactly for active, green for completed, yellow for pending, red for cancelled, gray for everything else |
| InvestmentTable.RowActions | src/components/investment/investment-table.tsx:210-240 | at most one button per row, present exactly for active, completed and pending (Withdraw, Claim, Cancel); each is disabled exactly while loading and then reads 'Processing...' |
| InvestmentTable.HandleAction | src/components/investment/investment-table.tsx:110-121 | the loading flag is raised first and lowered last whether the call resolves or rejects; the alert names the action, and the tournament on success |
| InvestmentTable.SumOfMonotone | src/components/investment/investment-table.tsx:270-271 | a field that is row by row no larger has no larger sum |
| InvestmentTable.Totals | src/components/investment/investment-table.tsx:269-271 | the one-pass totals equal the sums of amount and of current value over all rows |
| InvestmentTable.TotalRoi | src/components/investment/investment-table.tsx:272 | finite exactly when something is invested, and then times the invested total it is 100 times the gain; NaN for 0 of 0; for a positive investment its sign is the sign of current − invested |
| InvestmentTable.RoiBadge | src/components/investment/investment-table.tsx:155-160 | a '+' prefix and green exactly for a positive ROI, red exactly for a negative one, gray exactly for zero or NaN |
| InvestmentTable.PortfolioBadgeFollowsGain | src/components/investment/investment-table.tsx:291-296 | with a positive total invested, the header is green with '+' exactly when the portfolio gained and red exactly when it lost |
| InvestmentTable.NoRowLossNoRedHeader | src/components/investment/investment-table.tsx:270-296 | when no row lost value, the portfolio ROI is never red |
| InvestmentTable.SampleTotals | src/components/investment/investment-table.tsx:8-69 | the sample rows total 9250 invested and 10255 current |
| InvestmentTable.SampleHeader | src/components/investment/investment-table.tsx:286-297 | the sample portfolio header is '+' in green |
| InvestmentTable.SampleRowRois | src/components/investment/investment-table.tsx:8-69 | every sample row's stored ROI equals the ROI of its own amount and current value |
| TournamentTable.RiskColor | src/components/tournament/tournament-table.tsx:101-108 | green exactly for low, yellow for medium, red for high, gray for everything else |
| TournamentTable.RiskColorMatchesInvestmentTable | src/components/tournament/tournament-table.tsx:101-108 | the two tables colour every risk text identically |
| TournamentTable.StatusColor | src/components/tournament/tournament-table.tsx:110-117 | green exactly for live, blue exactly for upcoming, the same gray for completed and every other text |
| TournamentTable.InvestButtonFor | src/components/tournament/tournament-table.tsx:197-212 | disabled, greyed and reading 'Completed' exactly for a completed tournament, otherwise reading 'Invest' |
| TournamentTable.ExpectedRoiCell | src/components/tournament/tournament-table.tsx:165-172 | the expected ROI is always green with a '+' prefix, whatever its sign |
| TournamentTable.ExpectedRoiCellAgreesOnlyWhenPositive | src/components/tournament/tournament-table.tsx:166-171 | the cell matches the investment table's ROI decoration exactly for a strictly positive value |
| DecimalText.NatToString | src/components/ui/chats/liquidity-chart.tsx:26 | non-empty decimal digits, no leading zero, a single digit exactly below ten |
| DecimalText.NatToStringRoundTrip | src/components/ui/chats/liquidity-chart.tsx:26 | reading the printed digits back gives the number |
| DecimalText.NatToStringInjective | src/components/ui/chats/liquidity-chart.tsx:26 | distinct numbers print differently |
| DecimalText.DigitsRoundTrip | src/components/ui/chats/liquidity-chart.tsx:26 | a digit string without a leading zero is exactly the printed text of its own value |
| DecimalText.DigitsPositive | src/components/ui/chats/liquidity-chart.tsx:26 | a digit string that starts with a non-zero digit denotes a positive number |
| DecimalText.ShortestTenthsTextUnique | src/components/ui/chats/liquidity-chart.tsx:26 | a shortest-form number text with at most one decimal is determined by its value: it is the text printed for that value |
| DecimalText.RoundTenths | src/components/ui/chats/liquidity-chart.tsx:26 | toFixed(1) picks the tenth nearest the value, the larger on a tie |
| DecimalText.TenthsText | src/components/ui/chats/liquidity-chart.tsx:26 | the number text never ends in '.', has a '.d' tail exactly when the tenths digit is non-zero, and is in shortest form (no leading zero, no '.0') |
| DecimalText.TenthsTextRoundTrip | src/components/ui/chats/liquidity-chart.tsx:26 | the shown text reads back as the rounded count of tenths |
| DecimalText.ShortText | src/components/ui/chats/liquidity-chart.tsx:26 | the shown mantissa is in the shortest form the unary '+' yields and reads back within half a tenth of the value |
| LiquidityChart.SuffixFor | src/components/ui/chats/liquidity-chart.tsx:26-28 | no suffix exactly below 1e6; M exactly on [1e6,1e9), B on [1e9,1e12), T from 1e12 with no upper bound, so exactly one range applies from 1e6 up |
| LiquidityChart.NumberAbbr | src/components/ui/chats/liquidity-chart.tsx:25-29 | undefined exactly below 1e6, for NaN or for -Infinity; otherwise the range's suffix, after a mantissa in shortest form that reads back within half a tenth of value ÷ scale |
| LiquidityChart.Abbreviated | src/components/ui/chats/liquidity-chart.tsx:26-28 | the suffix comes last, after the shortest-form text of a number within half a tenth of the mantissa |
| LiquidityChart.MantissaBounds | src/components/ui/chats/liquidity-chart.tsx:26-28 | before rounding the mantissa is in [1,1000) for M and B and at least 1 for T, and times the scale it is the input |
| LiquidityChart.RoundingReachesThousand | src/components/ui/chats/liquidity-chart.tsx:26 | rounding carries 999,960,000 to '1000M' rather than '1B' |
| LiquidityChart.InitialDisplay | src/components/ui/chats/liquidity-chart.tsx:33-35 | the initial value 547792029 shows as '547.8M' |
| VolumeChart.NumberAbbrMatchesLiquidity | src/components/ui/chats/volume-chart.tsx:25-29 | the volume chart's numberAbbr equals the liquidity chart's on every input |
| VolumeChart.NumberAbbrRanges | src/components/ui/chats/volume-chart.tsx:25-29 | undefined exactly below 1e6 or for NaN; otherwise the suffix of the value's range |
| VolumeChart.InitialDisplay | src/components/ui/chats/volume-chart.tsx:33-35 | the initial value 547792029 shows as '547.8M' |

## Left out

- Remote calls, including `tournamentService`, the Supabase queries and the player-profile fetch. They are parameters (`service`) or inputs (the fetched tournament list, the profile).
- Tournament lifecycle transitions. The backend performs them, and no client code enforces them. Only the client-side gating on a given status is modelled.
- `parseFloat`: modelled as a parameter. The coercion of the charts' string state to a number is taken as given. The chart lemmas start from the coerced value.
- IEEE-754 rounding: amounts are exact reals, so `0.07 * 100` is exactly 7. Negative zero is not distinguished from zero.
- `toFixed` and number printing from 1e21 upwards. JavaScript switches to exponent notation there. The model keeps printing plain digits.
- `Intl.NumberFormat` currency text, date formatting, and the `toFixed(2)` amount texts.
- The percentage shown next to each amount on the dashboard (`pct * 100`). It is display-only.
- React state and hooks, the post-success redirect timer, and the disabled state of the create button.
- The browser's checks on the creation form's input fields (`required`, `type="number"`, `min`, `step`). They run before the submit handler and are not part of its code.
- react-table pagination and sorting, and chart rendering.
- The text of the public table's Invest alert.
- The 15–20% winnings-fee remark on the creation page. It is display text with no logic behind it.
- Buttons, wallet selection, theme and the other presentation components. They have no behaviour to state.
- TournamentTable.ExpectedRoiCell: states only the decoration (prefix and colour). The number itself is printed verbatim and is not modelled as text.

## Findings

| source | as written | input that shows it | evidently intended | confidence | as-written member | corrected member |
|---|---|---|---|---|---|---|
| src/components/PlayerTournamentDashboard.tsx:15-41 | the loading flag starts true, and the fetch effect returns before clearing it when there is no user | a first visit with no user: the flag stays true and the dashboard shows "Caricamento tornei..." indefinitely, so the login notice at line 41 never appears | with no user the effect also clears the flag, so the login notice shows | medium, not executed | PlayerDashboard.LoggedOutVisitorStaysLoading | PlayerDashboard.IntendedScreenAfterFetch |
