# AlgoDollar: verified models of the trading core

AlgoDollar trades Indian equities on paper and live. This project models its stateful core and proves
what it keeps over all inputs and all runs.

* **The paper account** (`Rounding`, `Market`, `Costs`, `FillPlan`, `Affordable`, `Sums`, `Text`, `Book`,
  `BookMoney`, `BookRuns`, `BookHoldings`, `BookSquareOff`, `BookWitnesses`, `PaperBroker`): a
  double-entry book in integer paise with a deterministic fill planner. `Book` specifies every
  operation on values; `PaperBroker` is the class that updates its fields and is proved equal to it;
  the other modules prove what every interleaving of place, poll, cancel, modify and square-off keeps.
* **The order protocol** (`Lifecycle`, `OrderStore`, `OrderManager`, `Submission`): declared state
  transitions, crash-safe storage, fills written exactly once, start-up recovery, and the submission
  protocol as a state machine over durable store, running activations, requests in transit and the
  broker's book.
* **The backtester** (`Backtest`), **the resumable campaign** (`Campaign`), **the minute-bar
  aggregator** (`TickBars`), **gap filling and adjustment** (`History`) and **the rate limiter**
  (`RateLimiter`).

Where the code does not do what it is meant to do, the model keeps the code. Each point names the lemma
that says exactly when the code does, for all inputs, and where there is one, an input on which it does
not:

* The affordability jump can skip an optimum whose need is the budget to the paisa; it is then one
  share short (`Affordable.LargestExactlyWhen`, `Affordable.JumpCanSkipOne`).
* A delivery sale smaller than its flat depository charge takes cash below zero
  (`BookRuns.StepSolvency`, `BookRuns.DeliverySaleCanOverdraw`).
* A modification refused for holdings has already written the new quantity
  (`BookHoldings.ModifiedHoldings`, `BookWitnesses.RefusedModifyOversells`).
* Position keys are upper-cased but square-off cancels by the symbol as spelled
  (`BookSquareOff.SquareOffIsFree`, `BookSquareOff.SquareOffIsNeverShort`,
  `BookWitnesses.SpellingBlocksSquareOff`).
* The holdings check precedes a wait, so overlapping sales promise the same shares
  (`BookHoldings.SaleKeepsHoldings`, `BookWitnesses.OverlappingSellsOverpromise`).
* A poll checks that an order is OPEN before it awaits the quote, so an order cancelled meanwhile can
  trade (`BookHoldings.TerminalOrderTradesWhen`, `BookWitnesses.CancelledOrderTrades`).
* Recovery raises on exactly the pairs of local state and broker answer for which no transition is
  declared (`OrderManager.RecoveryVerdict`).
* The market data a backtest strategy is handed starts at the first row of the panel, not of the window,
  and so lags the bar by the warm-up (`Backtest.MarketDataIsCurrentWhen`, `Backtest.BarRowIsUnseenWhen`).
* A fill on a closed order is logged as a trade before its transition raises, and a fill whose process
  dies between the record and the position write never moves the position
  (`OrderManager.IllegalFillsAreLogged`, `OrderManager.CutDelivery`,
  `OrderManager.RedeliveryWritesNothing`).
* A kill switch engaged by hand during a campaign run does not keep that run from beginning and recording
  further sessions; the loop looks at it only when a run starts. (The safety gates before each order, which
  are not part of this model, read it too.) A lost newline destroys a finished day at the next start
  (`Campaign.SwitchIsReadAtTheStart`, `Campaign.HandEngagedSwitchWaits`,
  `Campaign.LostNewlineTearsTheNextRun`, `Campaign.LostNewlineRun`).
* The worst-case earmark takes the limit price, not the trigger, as the planner does after a trigger;
  it still covers every planned fill (`FillPlan.WorstCaseCovers`). The documentation of the
  limiter calls it a token bucket; it is a sliding window.

`dafny verify dfyconfig.toml` checks the whole project.

## Assumptions

* Square root is any function that satisfies its defining square (`FillPlan.Config`); slippage is not
  negative.
* A broker book is read only once the fate of the queried request is decided, so an absence is final.
* Recovery takes place at start-up, when no submission is running.
* Nothing else writes an order between its durable SUBMITTED and the broker call that follows at once:
  monitoring, cancelling and fills come before a submission under the same id or after its call.
* One process at a time owns a campaign; reconciliation is an exact comparison of books.
* The limiter has one caller at a time, clock readings strictly increase, and a sleep does not return
  early.
* A backtest starts with a positive capital (the drawdown divides by it), and a fill message has an id:
  the source derives one where the message carries none.
* Identifiers (client ids, fill ids, broker order ids) do not collide; order ids of the paper account are new.

## Model

| member | source | states |
|---|---|---|
| Costs.CostsPaiseMonotone | backend/app/backtesting/costs.py:167-235 | Charges in paise never shrink when the quantity or the price grows, on either side and for every product. |
| Costs.ScheduleInFigures | backend/app/backtesting/costs.py:167-235 | A purchase and a sale of known value carry the charges of the published schedule, figure by figure. |
| Costs.TotalShape | backend/app/backtesting/costs.py:175-235 | The total is a constant share of the value, plus capped brokerage with its GST, plus the flat depository charge of a delivery sale. |
| Costs.CostPerRupeeFalls | backend/app/backtesting/costs.py:175-235 | On a purchase the charge per rupee of value never grows with the value, because the only non-proportional part is the brokerage cap. |
| Costs.CostPerShareFalls | backend/app/backtesting/costs.py:175-235 | The same per share, at a fixed price: the hypothesis under which the affordability search loses nothing. |
| FillPlan.SnapshotSane | backend/app/broker/paper.py:837-893 | On a whole-paise tick every usable quote yields bid and ask on the grid, positive, bid at most ask, and the ask no lower than the last price. |
| FillPlan.HalfSpreadMeans | backend/app/broker/paper.py:837-874 | Half the spread is the widest of three: half of what the quote shows, half a tick, and a share of the price that depends on the turnover of the day alone. |
| FillPlan.SnapshotOnGrid | backend/app/broker/paper.py:876-893 | The ask is the first grid price not below the mid plus half the spread, the bid the last not above the mid less it, and at least one tick. |
| FillPlan.ImpactMonotone | backend/app/broker/paper.py:899-907 | Square-root impact is non-negative and never shrinks when the order grows. |
| FillPlan.CapInverts | backend/app/broker/paper.py:909-928 | With positive impact, n shares are within the cap exactly when the impact of n stays within the room up to the limit. |
| FillPlan.LimitInversion | backend/app/broker/paper.py:909-928 | The cap inverts the impact law for every coefficient: n shares are allowed if and only if their impacted price keeps the limit. |
| FillPlan.ImpactLaw | backend/app/broker/paper.py:899-907 | Without naming a root: impact is never below the slippage floor, and above it the square of impact over coefficient is the share of the volume. |
| FillPlan.FillPaysItsImpact | backend/app/broker/paper.py:930-1004 | Every fill pays for its own size: a MARKET order the grid price next to the touch moved by the impact of the filled quantity, a LIMIT order the same up to its limit, a stop the same but never better than its trigger; on both sides, by the position on the grid and not by the rounding function. |
| FillPlan.ImpactInFigures | backend/app/broker/paper.py:956-962 | A purchase of 1000 at an ask of 100 in a market of 10000 shares fills at 100.65. |
| FillPlan.PlanVerdict | backend/app/broker/paper.py:930-1004 | The planner refuses exactly when volume is unknown or liquidity is less than a share, and rests exactly when nothing remains or not one share may trade now: an untriggered stop rests. |
| FillPlan.FillIsHonest | backend/app/broker/paper.py:930-1004 | Every planned fill has a positive size within the order, a LIMIT fill lies between touch and limit, and a stop never fills better than its trigger or the touch. |
| FillPlan.FillIsLargest | backend/app/broker/paper.py:930-1004 | The planner fills if and only if a single share may trade (order, liquidity budget, limit after impact, trigger), and then the largest quantity that may. |
| FillPlan.OutflowMonotone | backend/app/broker/paper.py:1204-1229 | Cash needed for a purchase never shrinks when quantity or price grows. |
| FillPlan.WorstCaseCovers | backend/app/broker/paper.py:1204-1229 | The earmark covers the outflow of whatever the planner fills against the same snapshot, for MARKET, LIMIT, SL and SL-M purchases. |
| FillPlan.WorstCaseIsAttained | backend/app/broker/paper.py:1204-1229 | The earmark is no larger than it must be: what a LIMIT order costs whole at its limit, and for the others exactly what they cost when they fill whole on that snapshot. |
| Affordable.AffordableQty | backend/app/broker/paper.py:1231-1255 | The search ends with nothing, or with a positive quantity no larger than asked for whose outflow fits the budget. |
| Affordable.Shrink | backend/app/broker/paper.py:1243-1255 | From any quantity the loop with its data-dependent jump ends within the budget. |
| Affordable.ComputeAffordableQty | backend/app/broker/paper.py:1231-1255 | The loop of the source computes that quantity. |
| Affordable.AffordableIsLargest | backend/app/broker/paper.py:1231-1255 | Every quantity above the result needs at least the whole budget; the result is the largest affordable one if and only if one share more does not need the budget to the paisa. |
| Affordable.Path | backend/app/broker/paper.py:1243-1255 | The quantities the loop tries are positive and within the order. |
| Affordable.ExactSpendIsFound | backend/app/broker/paper.py:1249-1255 | A quantity that needs the budget to the paisa is returned if and only if no quantity tried above it jumps over it: m times its need exceeds the budget times it. |
| Affordable.LargestExactlyWhen | backend/app/broker/paper.py:1231-1255 | In terms of the inputs alone: the search returns the largest affordable quantity if and only if no jump on its path passes over a quantity that needs the budget to the paisa. |
| Affordable.BuysSomethingWhen | backend/app/broker/paper.py:1231-1255 | Anything at all is bought if and only if a single share fits the budget and, if it needs all of it, no quantity tried jumps over it. |
| Affordable.AtMostOneShort | backend/app/broker/paper.py:1241-1255 | No affordable quantity exceeds the result by more than one share. |
| Affordable.JumpCanSkipOne | backend/app/broker/paper.py:1249-1255 | A concrete delivery purchase (5 shares at Re 1, 400 paise) for which 4 fit and the search returns 3. |
| Affordable.FallingNeedIsOptimal | backend/app/broker/paper.py:1249-1255 | When the rounded need per share never grows with the size, the search returns the largest affordable quantity. |
| Affordable.PlacementNeverShrinks | backend/app/broker/paper.py:1155-1171 | At placement the earmark is part of the budget, so the planned quantity is never cut. |
| BookMoney.BasisOutBounds | backend/app/broker/paper.py:1340-1365 | The rounded share of the cost basis taken out by a sale lies between zero and the basis, and closing a position takes all of it. |
| BookMoney.BasisOutIsNearest | backend/app/broker/paper.py:1338-1343 | The basis a sale takes out is the nearest paisa to its proportional share: at most half a paisa from it either way. |
| BookMoney.SaleTakesItsShare | backend/app/broker/paper.py:1338-1350 | A sale takes that share out of the line, all of it when the line closes, and realises its net proceeds less exactly what it took. |
| BookMoney.PutPositionMoney | backend/app/broker/paper.py:1288-1383 | A position and cash update that agrees with its trade keeps cash, ledger, basis and realised result in balance. |
| BookRuns.AppliedKeepsCoherent | backend/app/broker/paper.py:1288-1383 | One fill keeps the book coherent: ledger cash, conservation, basis, holdings and reservations. |
| BookRuns.BookedPurchase | backend/app/broker/paper.py:1288-1329 | A purchase moves its notional and charges out of cash into the basis of its line, and realises nothing. |
| BookRuns.BookedSale | backend/app/broker/paper.py:1334-1365 | A sale takes in notional less charges, takes the nearest paisa to its share of the basis out of the line, and realises the difference. |
| BookRuns.StepKeepsCoherent | backend/app/broker/paper.py:1040-1479 | Every uninterrupted section of place, poll, cancel and modify keeps the book coherent. |
| BookRuns.Run | backend/app/broker/paper.py:711-761 | In every reachable book cash equals the fold of the trade ledger, cash plus open cost basis equals initial cash plus realised profit, a closed position has basis zero, and total reserved cash is the sum over OPEN orders with terminal ones holding none. |
| BookRuns.PolledSolvency | backend/app/broker/paper.py:1257-1286 | Polling at any new price keeps 0 <= reserved <= cash if and only if the sale it may make is covered. |
| BookRuns.SettledSolvency | backend/app/broker/paper.py:1145-1202 | The last section of a placement keeps the book solvent if and only if the sale it may make is covered. |
| BookRuns.StepSolvency | backend/app/broker/paper.py:1145-1202 | From a solvent book one section leads to a solvent book if and only if any sale it makes has costs within notional plus free cash. |
| BookRuns.CoveredRunsStaySolvent | backend/app/broker/paper.py:724-761 | Runs whose sales are all covered keep 0 <= reserved <= cash throughout, whatever prices do while orders rest. |
| BookRuns.PlacedBuyFillsAsPlanned | backend/app/broker/paper.py:1144-1171 | A funded purchase trades exactly the quantity the planner plans at placement, as one ledger entry at the planned price, or nothing when nothing is planned. |
| BookRuns.BuyOutcome | backend/app/broker/paper.py:1144-1202 | A purchase is refused for cash exactly when its worst case exceeds what is free; otherwise it is refused, rests holding its earmark, or is traded once, at the size and price planned, and then holds nothing. |
| BookRuns.SaleOutcome | backend/app/broker/paper.py:1144-1202 | A sale is refused, rests holding its shares, or is traded at the planned price as far as shares are there; with none it is refused for holdings. |
| BookRuns.PollOutcome | backend/app/broker/paper.py:1404-1418 | A poll leaves the whole book alone, or trades once at the planned price what cash or shares allow of the plan. |
| BookRuns.PrecheckMeans | backend/app/broker/paper.py:1060-1120 | Which placements reach the quote, and which check stops the others. |
| BookRuns.NoQuoteOutcome | backend/app/broker/paper.py:1124-1143 | A missing or stale quote, or one without volume, rejects the placement for that reason and moves nothing. |
| BookRuns.ModifiedMeans | backend/app/broker/paper.py:1458-1479 | The quantity, price and held shares after a modification: the quantity is written even when it is then refused for holdings, the price only when nothing is refused. |
| BookRuns.DeliverySaleCanOverdraw | backend/app/broker/paper.py:1334-1345 | One delivery share bought at 1.05 and sold at 0.95, both at one quote, takes cash to -14.98 rupees: the depository charge exceeds the notional. |
| BookHoldings.EnoughShares | backend/app/broker/paper.py:1274-1279 | The shares an OPEN sale holds are really in the position. |
| BookHoldings.SettledKeepsHoldings | backend/app/broker/paper.py:1144-1202 | Settlement of a placement keeps holdings, share reservations and one trade per order in order. |
| BookHoldings.PlacedKeepsHoldings | backend/app/broker/paper.py:1109-1171 | The same from the holdings check on, quote failures included. |
| BookHoldings.ModifiedHoldings | backend/app/broker/paper.py:1458-1479 | A modification keeps the share reservations covered if and only if it is not refused for holdings; the refused one has already written the quantity. |
| BookHoldings.StepKeepsHoldings | backend/app/broker/paper.py:1040-1479 | Every section keeps each holding equal to the signed ledger quantity and non-negative, reserved shares within the holding, and OPEN orders unfilled. |
| BookHoldings.RunsKeepHoldings | backend/app/broker/paper.py:766-777 | The same over every run of calls that do not overlap on the holdings check and of modifications not refused for holdings. |
| BookHoldings.SaleKeepsHoldings | backend/app/broker/paper.py:1109-1171 | Whenever its checks were made, a sale settling on a book keeps the share discipline if and only if what it claims (nothing when refused, its size when resting, its fill when trading) is free then. |
| BookHoldings.StepKeepsHoldingsWhen | backend/app/broker/paper.py:1040-1479 | The exact condition for every section, overlapping or not, to keep holdings, share reservations and one trade per order. |
| BookHoldings.TerminalOrderTrades | backend/app/broker/paper.py:1404-1418 | An order that became terminal while the poll awaited its quote is left alone if and only if the market lets it trade nothing; otherwise it trades once more. |
| BookHoldings.TerminalOrderTradesWhen | backend/app/broker/paper.py:1404-1418 | The same read off the inputs: it is left alone unless one share may trade now (size, liquidity budget, limit after impact, trigger) and there is one to sell, or the money to buy one. |
| BookHoldings.SettledNotRefusedForHoldings | backend/app/broker/paper.py:1180-1202 | Once past the holdings check a sale is not refused for holdings later in its placement. |
| BookSquareOff.Placed | backend/app/broker/paper.py:1040-1171 | A whole placement with nothing in between keeps the book coherent and the holdings in order. |
| BookSquareOff.PlacementOutcome | backend/app/broker/paper.py:1040-1171 | A whole placement is rejected for the first check that fails, else for what is wrong with its quote, moving nothing; else it is settled. |
| BookSquareOff.PolledAll | backend/app/broker/paper.py:1395-1422 | A poll over all orders keeps the book coherent, the holdings in order and the orders listed. |
| BookSquareOff.PolledInTurn | backend/app/broker/paper.py:1395-1422 | In a poll each OPEN order with a quote gets one turn: it trades exactly when it can on the book the orders before it left, and as much as it can then; the other turns leave it alone. |
| BookSquareOff.CancelledFor | backend/app/broker/paper.py:1435-1437 | The cancellations before a square-off touch no position or trade and leave no OPEN order whose symbol is spelled like the position. |
| BookSquareOff.SquareOffIsFree | backend/app/broker/paper.py:1432-1440 | After them the whole holding is free if and only if every order holding its shares spells the symbol as the position does. |
| BookSquareOff.SaleVerdict | backend/app/broker/paper.py:1109-1120 | A sale is refused for holdings if and only if it asks for more than the free quantity. |
| BookSquareOff.SquareOffNeverShort | backend/app/broker/paper.py:1424-1442 | A square-off sale is refused for holdings if and only if some order spells the symbol otherwise. |
| BookSquareOff.SquaredAll | backend/app/broker/paper.py:1424-1442 | A whole square-off keeps the book coherent, the holdings in order and every earlier verdict. |
| BookSquareOff.LaterLinesWait | backend/app/broker/paper.py:1432-1440 | The rounds before a line leave its position as it was, and its orders too, but for those their cancellations reach by spelling. |
| BookSquareOff.SquareOffIsNeverShort | backend/app/broker/paper.py:1424-1442 | In a whole square-off every line that was due and not stopped by a gate has its sale on file, and that sale is refused for holdings if and only if an order holding its shares is spelled otherwise and left standing by the earlier rounds. |
| BookSquareOff.SpelledAlikeIsCleared | backend/app/broker/paper.py:1435-1440 | A line whose orders all spell the symbol as the position does is never refused so. |
| BookWitnesses.SpellingBlocksSquareOff | backend/app/broker/paper.py:1435-1440 | A purchase and two placements under two spellings reach a book, holdings in order, whose square-off is refused for holdings whatever the market says. |
| BookWitnesses.RefusedModifyOversells | backend/app/broker/paper.py:1467-1471 | From that book a refused modification and a poll at the limit price sell all ten shares, while another order still holds five of them. |
| BookWitnesses.OverlappingSellsOverpromise | backend/app/broker/paper.py:1109-1124 | Two sales of all ten shares pass the holdings check before either settles; holdings are in order after the first settles and no longer after the second. |
| BookWitnesses.CancelledOrderTrades | backend/app/broker/paper.py:1404-1418 | A resting sale, cancelled while the poll awaits its quote, trades all the same. |
| PaperBroker.PaperBroker.constructor | backend/app/broker/paper.py:402-465 | A new account holds its initial cash and nothing else. |
| PaperBroker.PaperBroker.LedgerCashPaise | backend/app/broker/paper.py:711-722 | Initial cash less purchases plus sales less costs, trade by trade. |
| PaperBroker.PaperBroker.AssertInvariants | backend/app/broker/paper.py:724-761 | On any amounts whatever the check passes exactly when reserved cash is not negative and within cash, no position is short or has negative basis, and the ledger agrees with cash. |
| PaperBroker.PaperBroker.ReservedQuantity | backend/app/broker/paper.py:766-771 | The shares held by OPEN orders of one position. |
| PaperBroker.PaperBroker.FreeQuantity | backend/app/broker/paper.py:773-777 | The holding less the shares held. |
| PaperBroker.PaperBroker.Release | backend/app/broker/paper.py:1173-1178 | The order gives back all cash and shares it holds; nothing else changes. |
| PaperBroker.PaperBroker.Finalise | backend/app/broker/paper.py:1180-1202 | COMPLETE with nothing held, or OPEN with exactly the remaining shares held. |
| PaperBroker.PaperBroker.Reject | backend/app/broker/paper.py:1027-1038 | The order is on file as rejected with its reason. |
| PaperBroker.PaperBroker.ApplyFill | backend/app/broker/paper.py:1288-1383 | One fill writes cash, reservation, position, trade and order as the specification says. |
| PaperBroker.PaperBroker.AddToPosition | backend/app/broker/paper.py:1314-1329 | A purchase opens the line or adds to it. |
| PaperBroker.PaperBroker.TakeFromPosition | backend/app/broker/paper.py:1338-1350 | A sale takes its share of the basis, all of it when the line is closed. |
| PaperBroker.PaperBroker.ExecuteAgainst | backend/app/broker/paper.py:1257-1286 | One attempt: a reason and an unchanged book, or the planned fill. |
| PaperBroker.PaperBroker.EarlyVerdict | backend/app/broker/paper.py:1060-1120 | The reasons checked before the quote, in order. |
| PaperBroker.PaperBroker.FinishPlacement | backend/app/broker/paper.py:1124-1171 | Quote failure, or settlement of the order. |
| PaperBroker.PaperBroker.Settle | backend/app/broker/paper.py:1144-1171 | Funds check, earmark, attempt and outcome. |
| PaperBroker.PaperBroker.AttemptAndSettle | backend/app/broker/paper.py:1157-1171 | Fill and finalise, rest, or release and reject. |
| PaperBroker.PaperBroker.PlaceOrder | backend/app/broker/paper.py:1040-1171 | A whole placement equals its specification on the old book. |
| PaperBroker.PaperBroker.PollOne | backend/app/broker/paper.py:1404-1418 | One order against a fresh quote. |
| PaperBroker.PaperBroker.PollOpenOrders | backend/app/broker/paper.py:1395-1422 | All orders in order of entry; the count of fills is the growth of the trade ledger. |
| PaperBroker.PaperBroker.CancelOrder | backend/app/broker/paper.py:1448-1456 | Only an OPEN order is cancelled, and it gives back what it held; the closing self-check raises exactly on an insolvent book, and never after a solvent one. |
| PaperBroker.PaperBroker.ModifyOrder | backend/app/broker/paper.py:1458-1479 | The new book and the verdict of every exit, including the refused one that has already written the quantity, and when the closing self-check raises. |
| PaperBroker.PaperBroker.CancelFor | backend/app/broker/paper.py:1435-1437 | OPEN orders with this exact symbol are cancelled in turn, unless a self-check raises, which it never does on a solvent account. |
| PaperBroker.PaperBroker.SquareOffLine | backend/app/broker/paper.py:1432-1440 | Cancel, then sell the position at market; from a solvent account only the self-check after the sale can raise. |
| PaperBroker.PaperBroker.SquareOffIntraday | backend/app/broker/paper.py:1424-1442 | Round after round in order until a self-check raises on an insolvent book; otherwise the sales placed are those of the lines that were due, refused for holdings exactly where orders spelled otherwise were left standing. |
| Lifecycle.StatusNeverOptimistic | backend/app/execution/lifecycle.py:182-235 | The broker vocabulary never yields a pre-submit state, and FILLED only from COMPLETE whose quantity is not a proper part of the order. |
| Lifecycle.StatusMeans | backend/app/execution/lifecycle.py:182-235 | Which broker words read as which state, all of them, and nothing else. |
| Lifecycle.WhereOrdersClose | backend/app/execution/lifecycle.py:115-148 | Where every open state can close: an unsent order only as refused, or cancelled once approved; a sent one under any other name but for two pairs. |
| Lifecycle.MovedKeepsHistory | backend/app/execution/lifecycle.py:319-340 | A declared transition extends a legal history. |
| Lifecycle.HistoryDiscipline | backend/app/execution/lifecycle.py:115-175 | On a legal history UNKNOWN is left only when reconciled and a terminal state is never left. |
| Lifecycle.PastSubmission | backend/app/execution/lifecycle.py:115-148 | A record beyond submission went through SUBMITTED, unless it was cancelled. |
| Lifecycle.ApplyFillTally | backend/app/execution/lifecycle.py:342-364 | An applied fill keeps filled quantity the sum of distinct fills, within the order, and average times filled their value. |
| Lifecycle.FillIsTakenWhen | backend/app/execution/lifecycle.py:342-364 | A fill is taken if and only if it is new, positive and fits; the record then grows by exactly it. |
| Lifecycle.OrderRecord.Transition | backend/app/execution/lifecycle.py:319-340 | Moves exactly on declared transitions; otherwise nothing changes. |
| Lifecycle.OrderRecord.Book | backend/app/execution/lifecycle.py:342-364 | Duplicate and over-fill change nothing; otherwise the record takes the fill. |
| OrderStore.ListOpenMeans | backend/app/execution/file_stores.py:182-186 | Exactly the stored records that are not terminal. |
| OrderStore.StoreMeans | backend/app/execution/file_stores.py:165-197 | The first reservation of an id wins, a save replaces that record and no other, a trade is logged under its order once per fill id. |
| OrderStore.DeltaMeans | backend/app/execution/file_stores.py:202-230 | Quantities add up; a purchase keeps quantity times average plus what it paid, a sale keeps the average, a flat line has none, and other lines stay. |
| OrderStore.Disk.AtomicWrite | backend/app/execution/file_stores.py:44-50 | The only durable instant is the replacement. |
| OrderStore.FileOrderStore.Open | backend/app/execution/file_stores.py:146-163 | An unreadable file raises; otherwise memory is what the file holds, or empty. |
| OrderStore.FileOrderStore.Reserve | backend/app/execution/file_stores.py:165-170 | Granted exactly once per id; the file then holds the new memory. |
| OrderStore.FileOrderStore.Save | backend/app/execution/file_stores.py:176-180 | Overwrites a reserved record, refuses an unknown id. |
| OrderStore.FileOrderStore.RecordTrade | backend/app/execution/file_stores.py:188-197 | Logs a fill id once, and refuses a fill without one. |
| OrderStore.FileOrderStore.ApplyPositionDelta | backend/app/execution/file_stores.py:202-230 | Moves one position; its average follows purchases and is forgotten when flat. |
| OrderStore.FileOrderStore.OpenIds | backend/app/execution/file_stores.py:182-186 | The open ids in order of reservation. |
| OrderStore.ReopenRefines | backend/app/execution/file_stores.py:146-262 | Reopening at any point of any history without failing flushes yields the reference store (lifecycle.py:467-552) after exactly the durable operations; a live instance equals its file. |
| OrderStore.GrantsAreRemembered | backend/app/execution/file_stores.py:146-174 | Whatever flush raises or process dies, every granted id is in the file. |
| OrderStore.NeverGrantedTwice | backend/app/execution/file_stores.py:165-170 | Once a reservation has been granted, no instance on that path grants it again. |
| OrderManager.SearchMeans | backend/app/execution/order_manager.py:830-855 | A query answers with the first order that matches by tag or broker id, and absent exactly when none matches. |
| OrderManager.RecoveryVerdict | backend/app/execution/order_manager.py:861-939 | Recovery of a record stops on exactly the undeclared pairs; otherwise an abandoned intent is closed and any other record ends in the state the broker reports, on a legal path, with the smaller of the reported and the ordered quantity and the reported order id; a record that is abandoned or not found keeps its own. |
| OrderManager.SentVerdict | backend/app/execution/order_manager.py:896-935 | The same of a record known to be sent, whichever answer comes. |
| OrderManager.TerminalAnswersSettle | backend/app/execution/order_manager.py:896-935 | Against terminal answers only (PARTIALLY_FILLED, absent), (PARTIALLY_FILLED, REJECTED) and (CANCEL_PENDING, EXPIRED) stop recovery, and every other record ends terminal. |
| OrderManager.WalkIsLegal | backend/app/execution/order_manager.py:1425-1433 | A pre-submit record reaches SUBMITTED by declared transitions only. |
| OrderManager.PassMeans | backend/app/execution/order_manager.py:869-939 | A pass writes each record at most once; those before the first stop get their verdict, the others keep what they had. |
| OrderManager.PassStaysLegal | backend/app/execution/order_manager.py:861-939 | A pass keeps every stored history legal. |
| OrderManager.RecoveryClosesTheBook | backend/app/execution/order_manager.py:861-939 | Over one readable book of terminal answers the pass finishes if and only if no record meets one of the three pairs, and then no record is left open. |
| OrderManager.FillsAreBookedOnce | backend/app/execution/order_manager.py:1065-1137 | Over any fill messages, duplicated, reordered, refused or cut short between their three writes: each record accounts for its distinct fills within its quantity, each of them is in the trade log, and each position is its start plus the moved fills. |
| OrderManager.EntriesAreDistinct | backend/app/execution/order_manager.py:1098-1112 | No fill id is booked twice on one order, so a position moves at most once for it. |
| OrderManager.CutDelivery | backend/app/execution/order_manager.py:1114-1129 | A fill whose call is cut short is booked if and only if the record write was done, and moves the position if and only if all three writes were, by its signed quantity; the booked record is FILLED if and only if its quantity is now the whole order, else PARTIALLY_FILLED. |
| OrderManager.RedeliveryWritesNothing | backend/app/execution/order_manager.py:1098-1112 | A booked fill delivered again writes nothing, even when its position write was lost. |
| OrderManager.IllegalFillsAreLogged | backend/app/execution/order_manager.py:1114-1127 | A fill that fits is illegal exactly when its order was never sent or is closed; it is then in the trade log while no record and no position holds it. |
| OrderManager.FillIsBookedWhen | backend/app/execution/order_manager.py:1079-1127 | A fill is booked if and only if its order is at the broker and it is new, positive and within what remains; the other verdicts are just as exact. |
| OrderManager.LookUpMeans | backend/app/execution/order_manager.py:335-343 | An order is found under its own id first, then under its broker id among the open ones; nothing found means no open order has that broker id. |
| OrderManager.QueryBroker | backend/app/execution/order_manager.py:830-855 | The loop over the order book computes the answer. |
| OrderManager.Walk | backend/app/execution/order_manager.py:1425-1433 | The loop over the chain of states walks to SUBMITTED. |
| OrderManager.RecoverRecord | backend/app/execution/order_manager.py:870-937 | All branches of one recovery. |
| OrderManager.OrderManager.Recover | backend/app/execution/order_manager.py:861-939 | The loop over open records over the file store; the first undeclared transition raises. |
| OrderManager.OrderManager.GetRecord | backend/app/execution/order_manager.py:335-343 | By client id, else the first open record with the broker id. |
| OrderManager.OrderManager.HandleFill | backend/app/execution/order_manager.py:1065-1155 | Every exit, and exactly the durable writes of each, in order. |
| OrderManager.OrderManager.WriteFill | backend/app/execution/order_manager.py:1114-1129 | Trade, record, position; the record move is checked after the trade is logged. |
| Submission.StepKeepsSafe | backend/app/execution/order_manager.py:496-772 | Every step of every activation, of the broker, of later updates, of death and of start-up recovery keeps the protocol invariant. |
| Submission.RunsAreSafe | backend/app/execution/order_manager.py:496-939 | The invariant holds in every run, with concurrent and retried submissions, lost requests and answers, failing writes and deaths between any two waits. |
| Submission.OneCallPerIntent | backend/app/execution/order_manager.py:540-542 | The broker is called at most once per client id and holds at most one order for it. |
| Submission.DurableBeforeBroker | backend/app/execution/order_manager.py:666-709 | Whatever was called for, is in transit or in the broker book is on file at SUBMITTED or beyond, on a legal path; a record on file as never sent was never called for. |
| Submission.AbsentStaysAbsent | backend/app/execution/order_manager.py:776-806 | An order concluded absent, by a submission or by recovery, never appears at the broker later. |
| Submission.BlockedIsRefused | backend/app/execution/order_manager.py:544-556 | With an UNKNOWN order in the same symbol and strategy a new intent is refused on the spot and nothing is sent for it. |
| Submission.UnblockedIsChecked | backend/app/execution/order_manager.py:544-556 | And only then: with no such order the intent goes on to its checks, durably. |
| Submission.RefusedGates | backend/app/execution/order_manager.py:610-665 | A gate that refuses closes the order for good, durably, and nothing is sent. |
| Submission.BrokerReplies | backend/app/execution/order_manager.py:685-735 | An order id is an acknowledgement on file; an exception or an empty id is an UNKNOWN on file before anybody asks, and nothing is sent again. |
| Submission.QueryConcludes | backend/app/execution/order_manager.py:776-828 | Only a readable order book moves an order out of UNKNOWN: to REJECTED when absent, else to what the broker reports with its quantity and order id; an undeclared move leaves everything as it was. |
| Submission.RetrySendsNothing | backend/app/execution/order_manager.py:734-772 | A retry writes and sends nothing, and asks the broker exactly when the order is UNKNOWN. |
| Submission.OrderGetsThrough | backend/app/execution/order_manager.py:496-735 | Undisturbed, an intent reaches the broker exactly once and is on file as acknowledged under its order id. |
| Submission.ReserveKeeps | backend/app/execution/order_manager.py:540-542 | A granted reservation belongs to nobody else. |
| Submission.CallKeeps | backend/app/execution/order_manager.py:666-685 | The call is the first for its id, and its record is durably SUBMITTED. |
| Submission.ConcludeKeeps | backend/app/execution/order_manager.py:776-828 | Every conclusion of a query keeps the invariant; a flatten order keeps only an absence. |
| Submission.RecoverKeeps | backend/app/execution/order_manager.py:861-939 | Start-up recovery keeps every sent order sent. |
| Backtest.OrderedFits | backend/app/backtesting/engine.py:453-477 | An entry is affordable, positive, priced by the cost model and in whole shares when asked, scaled down or not. |
| Backtest.OrderedWhen | backend/app/backtesting/engine.py:453-477 | An entry has the wanted size, or that of all cash, in tradable shares if that is affordable with its cost; else what 99% of cash less the cost buys; else there is none. |
| Backtest.EntryMeans | backend/app/backtesting/engine.py:431-493 | A signal is taken exactly when its symbol is not held, it is valid, the next bar has a price and the ticket is not empty; the position is at the slipped close of that bar and paid for in full. |
| Backtest.PricesAreThePanels | backend/app/backtesting/engine.py:345-493 | Entering every bar of every run, each trade was sold at the slipped panel close of its exit row, or its slipped entry price where there is none, and bought at the slipped close of its entry row; its charges are those of the cost model at these prices. |
| Backtest.FinalPrices | backend/app/backtesting/engine.py:495-523 | The same of the final result: liquidation sells only what has a close on the final row, at that close, slipped. |
| Backtest.BarIsDated | backend/app/backtesting/engine.py:345-493 | Whatever bar k decides happens at the next bar: each new trade exits there and each new position is entered there. |
| Backtest.BarExits | backend/app/backtesting/engine.py:321-383 | After the exits of a bar exactly the positions are held that have a column and that the strategy did not want to leave, in order. |
| Backtest.MarkMoves | backend/app/backtesting/engine.py:294-302 | A price that moves alone moves the mark by the quantity held of it. |
| Backtest.ExposureMeans | backend/app/backtesting/engine.py:413-421 | The strategy is told of exactly the open positions that have a column, each at quantity times its price at the bar. |
| Backtest.ErrorsAreCounted | backend/app/backtesting/engine.py:386-429 | Feature errors are counted once for every bar traded, and no other. |
| Backtest.VoidWhen | backend/app/backtesting/engine.py:525-541 | A run is void exactly when more than one bar in twenty raised, features first. |
| Backtest.NoLookAhead | backend/app/backtesting/engine.py:288-493 | Two panels with the same rows up to bar k put the simulation in the same state entering bar k and mark the book alike, for arbitrary feature, exit, signal and size functions. |
| Backtest.AgreeOnBar | backend/app/backtesting/engine.py:288-493 | One bar depends on rows up to the next bar only. |
| Backtest.HaltFixesTheResult | backend/app/backtesting/engine.py:307-319 | After a drawdown halt nothing beyond the halt date can change the result, liquidation included. |
| Backtest.MarketDataIsCurrentWhen | backend/app/backtesting/engine.py:404-411 | The market data of bar k is the panel up to the row of the bar if and only if no rows precede the window. |
| Backtest.BarRowIsUnseenWhen | backend/app/backtesting/engine.py:404-422 | Any other row in place of the row of the bar gives every strategy that reads market data only the same signals, if and only if rows precede the window. |
| Backtest.FeaturesSeeTheBar | backend/app/backtesting/engine.py:386-391 | The features do see it: another row goes unnoticed by every strategy if and only if it comes after the bar. |
| Backtest.HaltMeans | backend/app/backtesting/engine.py:302-319 | One equity entry a bar; the simulation is halted exactly when the last entry lies further below the highest so far than allowed and no earlier one did, and the halt names the next bar. |
| Backtest.SlippageHurts | backend/app/backtesting/engine.py:676-705 | Slippage never helps the trader and costs at most half a percent of the price. |
| Backtest.SlippageInFigures | backend/app/backtesting/engine.py:676-730 | Half a promille for large caps, one and a half for others, times the multiplier, half a percent at most; without a cost model 0.15% of the value. |
| Backtest.SoldIsSound | backend/app/backtesting/engine.py:346-383 | A sale keeps cash plus invested cost equal to initial capital plus realised net results. |
| Backtest.EntryIsSound | backend/app/backtesting/engine.py:431-493 | An entry keeps the identity and never leaves cash negative. |
| Backtest.CashIsAccountedFor | backend/app/backtesting/engine.py:288-493 | Entering every bar the identity holds, no symbol is held twice, and every position is a positive quantity at a positive price. |
| Backtest.LiquidationLeaves | backend/app/backtesting/engine.py:495-523 | Liquidation closes exactly the positions that have a price on the final date, in order. |
| Backtest.FinalCapital | backend/app/backtesting/engine.py:495-523 | Final capital plus what is left invested is initial capital plus realised net results; nothing is left exactly when every open position had a price. |
| Backtest.FinalEquity | backend/app/backtesting/engine.py:520-523 | The last entry of the equity, after one a bar, is initial capital plus realised net results less what is left invested. |
| Backtest.Simulation.PortfolioValue | backend/app/backtesting/engine.py:294-302 | Cash plus every position that has a price. |
| Backtest.Simulation.ExitsDue | backend/app/backtesting/engine.py:321-343 | The exits in order of the book. |
| Backtest.Simulation.Sell | backend/app/backtesting/engine.py:353-383 | One sale with slippage and cost. |
| Backtest.Simulation.ExecuteExits | backend/app/backtesting/engine.py:345-383 | All exits at the next bar, at entry price where there is none. |
| Backtest.Simulation.Order | backend/app/backtesting/engine.py:453-477 | Size, scale-down and refusal of an entry. |
| Backtest.Simulation.Enter | backend/app/backtesting/engine.py:431-493 | One signal. |
| Backtest.Simulation.ExecuteEntries | backend/app/backtesting/engine.py:431-493 | All signals in order. |
| Backtest.Simulation.Liquidate | backend/app/backtesting/engine.py:495-522 | All remaining positions with a price. |
| Backtest.Simulation.OneBar | backend/app/backtesting/engine.py:288-493 | Mark, halt check, exits, features, signals, entries. |
| Backtest.Run | backend/app/backtesting/engine.py:236-541 | The bar loop computes the specified result, including the two outcomes that invalidate it. |
| Campaign.PlanMeans | backend/app/engine/campaign.py:243-261 | The plan lists exactly the sessions, in increasing order and each once, and has enough of them. |
| Campaign.OpenMeans | backend/app/engine/campaign.py:367-383 | A record keeps exactly the positions that are not flat. |
| Campaign.StepKeepsSafe | backend/app/engine/campaign.py:503-662 | Every step, append failure and death keeps the ledger a chain. |
| Campaign.RunsAreSafe | backend/app/engine/campaign.py:503-662 | The same over every sequence of starts, deaths and resumptions. |
| Campaign.LedgerFollowsThePlan | backend/app/engine/campaign.py:600-645 | A readable ledger holds the first days of the plan, none twice, each starting from the book the previous day ended with. |
| Campaign.BookAheadIsNotContinued | backend/app/engine/campaign.py:630-637 | A session that connects to another book than the ledger says is never recorded and the ledger stays as it was. |
| Campaign.HaltHolds | backend/app/engine/campaign.py:579-589 | While a breach halt stands no session begins, whatever restarts; at most the halted session is still recorded. |
| Campaign.TornLedgerStops | backend/app/engine/campaign.py:211-221 | A ledger with a torn line admits no further session. |
| Campaign.AppendTearsWhen | backend/app/engine/campaign.py:211-236 | A readable ledger stays readable after an append if and only if nothing was written, or a whole entry onto a line of its own. |
| Campaign.LostNewlineTearsTheNextRun | backend/app/engine/campaign.py:233-236 | From any state, a finished day whose append did not land leaves a readable ledger unless it was cut; after the next start the ledger is readable if and only if nothing had been written, or only the newline was lost and that start was refused. |
| Campaign.LostNewlineRun | backend/app/engine/campaign.py:514-573 | The first run reaches such a day. |
| Campaign.SwitchIsReadAtTheStart | backend/app/engine/campaign.py:545-600 | Between sessions the next one begins if and only if a planned day with bars is left, whatever the switch; from a readable, unfinished ledger a run begins if and only if the switch is not engaged. |
| Campaign.HandEngagedSwitchWaits | backend/app/engine/campaign.py:545-564 | From any state of a run, a switch engaged by hand changes nothing in whether the next session begins, and keeps the next run from starting. |
| Campaign.RunSession | backend/app/engine/campaign.py:600-661 | One session: which of the reasons stops the campaign, what is recorded, and the book and switch it leaves. |
| Campaign.RunSessions | backend/app/engine/campaign.py:600-661 | The loop over the days that are left. |
| Campaign.RunCampaign | backend/app/engine/campaign.py:503-662 | One uninterrupted run is a run of the machine; each recorded day is the planned one and holds the book its session ended with; the recorded days had bars, did not raise and were not halted before the last; each reason to stop says what stopped it, and only the first session can be blocked by reconciliation. |
| TickBars.SessionIsTheLongest | backend/app/broker/tickdata.py:211-222 | The session is the longest run of ticks up to the last that share its date. |
| TickBars.ClockMeans | backend/app/broker/tickdata.py:112-115 | A tick belongs to the whole minute it falls into, and two ticks share a date exactly when no Indian midnight lies between them. |
| TickBars.SharesMean | backend/app/broker/tickdata.py:113 | The volume of a tick is the whole part of a positive volume, none otherwise. |
| TickBars.ExtremesMean | backend/app/broker/tickdata.py:128-129 | High and low bound every price of the minute and are attained. |
| TickBars.BarsCombine | backend/app/broker/tickdata.py:118-131 | A later stretch of ticks in a minute keeps its open, moves its close, widens its range and adds its volume. |
| TickBars.IncrementalIsBatch | backend/app/broker/tickdata.py:102-131 | After any ticks the bars are exactly the per-minute open, high, low, close and volume of the valid ticks of the session. |
| TickBars.LastPriceMeans | backend/app/broker/tickdata.py:165-171 | The last price is that of the last tick of the latest minute, and of the last tick of all when times do not go back. |
| TickBars.VwapIsBetween | backend/app/broker/tickdata.py:173-188 | The volume-weighted price, when there is one, lies between session low and high; there is none exactly when no volume was traded. |
| TickBars.VwapOfOne | backend/app/broker/tickdata.py:173-188 | One bar is weighted at the mean of its high, low and close. |
| TickBars.VwapCombines | backend/app/broker/tickdata.py:173-188 | Bars combine by volume: turnover and volume of two stretches add up, and the price times the volume is the turnover. |
| TickBars.ReadDoors | backend/app/broker/tickdata.py:137-188 | The read doors after any ticks, in terms of the ticks of the symbol in the session. |
| TickBars.TickBarAggregator.EnsureSession | backend/app/broker/tickdata.py:211-222 | A new date empties the bars. |
| TickBars.TickBarAggregator.OnTick | backend/app/broker/tickdata.py:102-131 | One tick folded in; a naive timestamp raises and changes nothing. |
| TickBars.TickBarAggregator.Bars | backend/app/broker/tickdata.py:137-159 | Every bar of the symbol, oldest first. |
| TickBars.TickBarAggregator.LastPrice | backend/app/broker/tickdata.py:165-171 | The close of the latest minute. |
| TickBars.TickBarAggregator.VolumeWeightedPrice | backend/app/broker/tickdata.py:173-188 | The weighted mean over those bars. |
| History.RunLengthMeans | backend/app/data/historical.py:284-287 | The grouped count is the length of the maximal gap around the row. |
| History.FillInventsNothing | backend/app/data/historical.py:281-293 | Observed closes stay; a gap of at most five rows after an observation takes that observation, at most five rows back; any other gap stays missing throughout. |
| History.SecondPassIsIdle | backend/app/data/historical.py:303-312 | The repeated pass changes nothing. |
| History.HandleMissingMeans | backend/app/data/historical.py:266-313 | Every observed value survives, a missing price is the filled close of its row, missing volume is zero, and handling twice is handling once. |
| History.ProductOfAnyOrder | backend/app/data/historical.py:254-262 | The accumulated factor does not depend on the order of the events. |
| History.OneMoreEvent | backend/app/data/historical.py:252-264 | One event more multiplies the prices of earlier rows by its factor and divides their volume; its own date and later rows keep theirs, and a factor that is not positive is no event. |
| History.TurnoverIsKept | backend/app/data/historical.py:259-262 | Adjustment preserves every price of a row times its volume, and what is missing stays missing. |
| History.ApplyAdjustment | backend/app/data/historical.py:231-264 | The loop over events multiplies each price by the product of the factors of later events and divides the volume by it. |
| RateLimiter.SpacedMeans | backend/app/broker/zerodha.py:53-54 | More than a second between a grant and the one rps places back is the same as no one-second window with more than rps grants. |
| RateLimiter.Granted | backend/app/broker/zerodha.py:60-69 | A grant given as the limiter gives it keeps the spacing. |
| RateLimiter.Limiter.constructor | backend/app/broker/zerodha.py:56-58 | A new limiter has granted nothing. |
| RateLimiter.Limiter.Acquire | backend/app/broker/zerodha.py:60-69 | Each call adds one grant that keeps the spacing, and waits exactly until the grant rps places back is one second old. |

## Left out

- Floating-point rounding: `round(x, 4)` and `round(price / tick, 9)` are exact; amounts are reals, paise are integers rounded half to even.
- Average prices, marks, the per-trade cost breakdown and performance figures of the paper account.
- Market hours, holidays, stale-tick and freeze checks of a placement: one verdict given from outside; quotes are outside values, including their failure.
- Persistence of the paper account (JSON, Redis) and its degraded mode: degradation is an outside flag; a book is a value between calls.
- Orders and positions of the paper account are values in maps, so aliasing between the order map and a caller's reference is not captured.
- Symbol upper-casing covers ASCII letters; position keys are triples instead of joined strings.
- Snapshots at ticks finer than a paisa, except where a lemma names the tick.
- Notes, reasons, timestamps and cost entries in order histories, and JSON text of records.
- The Redis order store and its expiry; `InMemoryOrderStore` is represented by the functions that specify the file store.
- `submit_order` and `emergency_flatten_all` are steps of the state machine, not methods: their waits are where other activations, the broker and death intervene. The safety gates are a verdict; `cancel_order`, `monitor_order` and the fill pulled in after a submission are arbitrary later updates of submitted records.
- Concurrent recovery and live submission: `save` overwrites unconditionally, so recovery is start-up only.
- Fills processed concurrently for one order: `handle_fill` is one message at a time with death between its writes.
- Filled quantities that recovery copies from the broker: the fill accounting covers orders whose fills arrive as fill messages.
- Rounding of trade records, metrics and daily returns of the backtester; `should_exit` that raises; strategies with memory.
- Equity metrics, risk limits and the sessions of a campaign: a session is an arbitrary change of the book.
- `_finish_session_trades` of the replay: lot matching is not claimed to conserve costs.
- The mock tick feed, quote sources and infinite tick volumes.
- Cache files and normalisation of downloaded history.
- Risk engine, reconciliation engine, strategies, features, statistics, database, API, WebSocket and user interface.
