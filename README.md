# PokerFaces settlement model

PokerFaces is a single-screen poker session tracker. A session moves
through four screens: setup, playing, entering chips and ended.

- **Setup.** The host enters a conversion percent and an initial buy-in,
  and adds players.
- **Playing.** Players top up their chips with further buy-ins.
- **Entering chips.** Everyone's remaining chips are counted. Finalizing
  checks that the chips counted equal the chips bought (the conservation
  gate).
- **Ended.** The session shows a results table, in which every chip is
  valued at total buy-in over total chips and converted to money. It also
  shows a settlement list, which a greedy two-cursor matcher builds from
  the players' net positions.

This Dafny project models those handlers and the computation behind them.

- `roster.dfy`, module `Roster`: the roster of players. It holds the
  text-field model (`Entry`: blank, parsable or unparsable text), the pure
  roster updates behind adding a player, adding a buy-in and filling in
  chip counts, and the conservation gate.
- `cash.dfy`, module `Cash`: the chip value and the results table.
- `settlement.dfy`, module `Settlement`: the settlement computation.
  - Net positions.
  - The split into payers (most indebted first) and receivers (largest
    credit first), using a stable insertion sort.
  - `Greedy`, the matcher as a recursive function. It is parameterised by
    the threshold under which a position counts as settled.
  - `MatchSettlements`, the matcher as the in-place loop over two arrays,
    proved equal to `Greedy`.
  - What the schedule pays each player.
- `session.dfy`, module `Session`: the class `Game`. Its fields are the
  session's state variables, and each handler is a method that states the
  whole new state. The class keeps a session invariant (`Valid`), which
  says the following.
  - Play starts only with both setup fields filled and at least two
    players.
  - Chip counts, results and settlements exist only once the session has
    ended.
  - An ended session has passed the gate and shows exactly the results and
    settlements of its roster.
- `wrappers.dfy`, module `Wrappers`: `Option`.

Numbers are exact. Chip counts and buy-ins are `nat`, and money is `real`.
Displayed settlements are formatted strings in the application. In this
model they are `Transfer(payer, receiver, amount)` values.

The session settles with the exact threshold (`EXACT_TOLERANCE`, 0) rather
than the one-cent threshold of the application's loop. See "Findings".

## Model

| member | source | states |
|---|---|---|
| Roster.IntOrZero | App.js:21 | `parseInt` with a fallback to 0: text that parses gives its value, and a nonzero result comes only from text that parses to it; blank or unparsable text gives 0 |
| Roster.Lookup | App.js:42 | reading a field keyed by player name: a present key gives its text, and an absent key reads as blank |
| Roster.AddPlayer | App.js:19-27 | with a non-empty name and a non-empty buy-in field, exactly one player is appended after the unchanged roster, with that name, the parsed buy-in (0 when unparsable) and no chip count; otherwise the roster is unchanged |
| Roster.AddBuyin | App.js:41-47 | the roster keeps length, order, names and chips; every player with the given name gains the amount; every other player is unchanged |
| Roster.WithChips | App.js:68-71 | every player keeps name and buy-ins and gets a chip count: the parsed remaining-chips field, 0 when the field is missing, blank or unparsable |
| Roster.Conservation | App.js:73-83 | balanced exactly when total buy-ins equal total chips; otherwise a positive difference, the direction "missing" exactly when buy-ins exceed chips, and buy-ins and chips differ by that difference in that direction |
| Roster.AddPlayerTotal | App.js:19-22 | adding a player raises the total buy-in by exactly the parsed initial buy-in |
| Roster.AddBuyinTotal | App.js:41-47 | a buy-in raises the total buy-in by the amount once per player with that name |
| Roster.AddBuyinChips | App.js:41-47 | a buy-in leaves total chips unchanged |
| Roster.WithChipsBuyins | App.js:68-73 | filling in chip counts leaves the total buy-in unchanged |
| Cash.PercentRate | App.js:95 | the conversion rate: 100 times the rate is the parsed percent, and a nonzero rate comes only from a parsable percent |
| Cash.ChipValue | App.js:92-94 | the chip value is non-negative and is 1 once the gate has passed |
| Cash.ChipValuePrices | App.js:92-94 | the chip value prices all counted chips at exactly the chips bought |
| Cash.Convert | App.js:97-106 | one row per player, in roster order; row k copies player k's name and buy-in, its cash-out chips are player k's chips times the chip value, and its cash-out money is those cash-out chips times the rate |
| Cash.CashResults | App.js:91-106 | the results table: one row per player, in roster order, with name and buy-in copied and cash-out money equal to chips times the session's chip value times the rate |
| Cash.CashResultsSum | App.js:92-99 | the cash-out chips of the results table add up to the chip value times the total chips counted |
| Cash.CashOutConserves | App.js:92-99 | the chips cashed out over the whole table add up to exactly the chips bought |
| Cash.CashOutAfterGate | App.js:73-99 | past the gate, every player cashes out exactly its own chips, and its money is chips times the rate |
| Settlement.Nets | App.js:113-116 | one position per results row, in order, with the row's name and net equal to cash-out money less buy-ins times the rate |
| Settlement.ConvertNets | App.js:97-116 | at chip value 1, the nets sum to (total chips - total buy-ins) times the rate, and each name keeps its number of positions |
| Settlement.ConvertNetAt | App.js:97-116 | at chip value 1, the position of player k is its name with (chips - buy-ins) times the rate |
| Settlement.CashResultsAtGate | App.js:73-106 | past the gate, the results table is the one built at chip value 1 |
| Settlement.NetsAfterGate | App.js:73-116 | past the gate, each player's position is its name with (chips - buy-ins) times the rate, the nets of the session sum to zero, and each name keeps its number of positions |
| Settlement.Negatives | App.js:117 | the filtered payer list holds only negative positions |
| Settlement.Positives | App.js:118 | the filtered receiver list holds only positive positions |
| Settlement.FilterCounts | App.js:117-118 | filtering keeps every position of the right sign exactly as often as it occurs, and no other position |
| Settlement.Insert | App.js:117-118 | inserting into an ordered list gives an ordered list one longer, holding the same positions plus the inserted one |
| Settlement.Sort | App.js:117-118 | sorting gives an ordered permutation of its input |
| Settlement.SortSigns | App.js:117-118 | sorting keeps an all-negative or all-positive list so |
| Settlement.Payers | App.js:117 | the payers are negative and in ascending order of net, most indebted first |
| Settlement.Receivers | App.js:118 | the receivers are positive and in descending order of net, largest credit first |
| Settlement.PartitionExactly | App.js:117-118 | the payers hold every negative position and the receivers every positive position, each as often as it occurs; a zero position is in neither list |
| Settlement.PartitionSum | App.js:117-118 | the split keeps the sum of the nets and drops positions only |
| Settlement.PartitionNames | App.js:117-118 | the split drops only zero positions from the name counts |
| Settlement.InsertKeeps | App.js:117-118 | insertion adds exactly the inserted position to the sum and the name counts |
| Settlement.SortKeeps | App.js:117-118 | sorting keeps the sum of the nets and every name count |
| Settlement.Greedy | App.js:120-132 | the matcher over sorted payers and receivers, at a given advance threshold: no transfers when either list is empty, otherwise at least one and fewer than payers and receivers together, since every step settles one head exactly. GreedyTransfers, GreedyDischarges and MatchSettlements state the rest |
| Settlement.PayStep | App.js:123-131 | one pass of the loop body over the arrays emits the first transfer of `Greedy` on the unsettled suffixes, advances at least one cursor, and leaves the rest of the schedule equal to `Greedy` on the new suffixes |
| Settlement.MatchSettlements | App.js:120-132 | the in-place loop over the payer and receiver arrays emits exactly the transfers of the matcher specification `Greedy` on the arrays' initial contents |
| Settlement.Settle | App.js:112-132 | the transfers for a results table: each moves a positive amount from a name with a row in the table to a name with a row in the table, and there are fewer transfers than rows |
| Settlement.SimplifySettlements | App.js:112-135 | the settlement list is `Settle`: the matcher's transfers over the sorted payers and receivers of the results' net positions, whose properties are the lemmas below |
| Settlement.PayerAfterFacts | App.js:127-130 | after a payment of at most its debt, the payer list keeps its names (less the head once settled) and stays negative; with the exact threshold, its sum rises by exactly the amount |
| Settlement.ReceiverAfterFacts | App.js:128-131 | after a payment of at most its credit, the receiver list keeps its names and stays positive; with the exact threshold, its sum falls by exactly the amount |
| Settlement.GreedyTransfers | App.js:123-125 | every transfer moves a positive amount from a listed payer to a listed receiver, whatever the threshold |
| Settlement.PaidAbsent | App.js:123-128 | a name absent from the payer list pays nothing |
| Settlement.ReceivedAbsent | App.js:123-128 | a name absent from the receiver list receives nothing |
| Settlement.GreedyDischarges | App.js:120-132 | with the exact threshold, nets summing to zero and distinct names, every payer pays exactly its debt and every receiver receives exactly its credit |
| Settlement.CentToleranceLeavesCreditUnpaid | App.js:130-131 | with the one-cent threshold, payers owing 10 and 10 and receivers owed 9.995, 9.995 and 0.01 (summing to zero) leave the last receiver unpaid, while the exact threshold pays it 0.01 |
| Settlement.CentRun | App.js:120-132 | with the one-cent threshold, the matcher run on those payers and receivers pays the receiver owed 0.01 nothing |
| Settlement.CentToleranceLeavesMoreThanCentUnpaid | App.js:130-131 | with the one-cent threshold, payers owing 10, 10 and 10 and receivers owed 9.991 three times and 0.027 (summing to zero) leave the last receiver unpaid, more than a cent short |
| Settlement.WideCentRun | App.js:120-132 | with the one-cent threshold, the matcher run on those lists pays the 0.027 receiver nothing |
| Settlement.ExampleRosterNets | App.js:67-116 | a balanced five-player roster at rate 0.5% produces exactly those net positions |
| Settlement.CentToleranceSessionExample | App.js:67-135 | in that balanced session, the one-cent threshold pays the player owed 0.01 nothing, and the exact threshold pays it 0.01 |
| Settlement.Schedule | App.js:91-135 | the settlement list of a finalized roster of n players has at most n - 1 transfers, at any threshold |
| Settlement.PayersReceiversKeep | App.js:117-118 | the payer and receiver lists together keep the sum of the nets and the name counts of the nonzero positions |
| Settlement.ListedSettled | App.js:120-132 | with the exact threshold, a listed payer pays its debt and receives nothing, and a listed receiver receives its credit and pays nothing |
| Settlement.NonzeroListed | App.js:117-118 | a nonzero position is listed as a payer or as a receiver |
| Settlement.ZeroSettled | App.js:117-132 | a zero position neither pays nor receives |
| Settlement.PositionsSettled | App.js:112-132 | with the exact threshold, positions that sum to zero under distinct names are settled in full: each pays, net of what it receives, minus its net position |
| Settlement.PlayerSettled | App.js:67-135 | with the exact threshold, in a balanced session with distinct names, player k pays, net of what it receives, exactly (buy-ins - chips) times the rate |
| Settlement.ScheduleSettlesEveryone | App.js:67-135 | with the exact threshold, a balanced session with distinct names is settled in full: every player pays, net of what it receives, exactly (buy-ins - chips) times the rate |
| Session.ResultsOf | App.js:91-108 | the results table of a finalized roster: one row per player, in roster order, with name and buy-in copied, cash-out chips equal to chips times the session's chip value, and money equal to cash-out chips times the rate; empty when no chips were counted at all |
| Session.SettlementsOf | App.js:108-134 | the settlement list of a finalized roster, with the exact threshold: fewer transfers than players, each of a positive amount |
| Session.Game.Valid | App.js:29-89 | the session invariant: an ended session holds at most one results row per player and fewer settlements than players |
| Session.Game.constructor | App.js:8-17 | a new session is on the setup screen with every field empty, no players, no error, and satisfies the session invariant |
| Session.Game.SetConversionPercent | App.js:9 | only the conversion percent field changes; the invariant is kept |
| Session.Game.SetInitialBuyin | App.js:10 | only the initial buy-in field changes; the invariant is kept |
| Session.Game.SetCurrentPlayer | App.js:12 | only the player name field changes; the invariant is kept |
| Session.Game.AddPlayer | App.js:19-27 | with both fields filled, the player is appended, its buy-in field is cleared and the name field is emptied; otherwise only the error is set |
| Session.Game.StartGame | App.js:29-35 | the session moves to play exactly when both setup fields are filled and there are at least two players, changing nothing else; otherwise only the error is set |
| Session.Game.HandleBuyinAmountChange | App.js:37-39 | only that player's buy-in field changes |
| Session.Game.AddBuyin | App.js:41-49 | the players with that name gain the parsed amount of their buy-in field (0 when blank, unparsable or missing), the field is cleared, and nothing else changes |
| Session.Game.EndGame | App.js:51-58 | the session moves to chip entry with a blank remaining-chips field for exactly the roster's names, and nothing else changes |
| Session.Game.HandleRemainingChipsChange | App.js:60-65 | only that player's remaining-chips field changes |
| Session.Game.FinalizeGame | App.js:67-89 | on a mismatch only the error changes, carrying direction and difference; on balance the error is cleared, the roster gets its chip counts, the results of that roster and its settlements with the exact threshold are recorded, and the session ends, keeping the invariant |
| Session.Game.CalculateResults | App.js:91-110 | records the results table and the exact-threshold settlement list of the given roster at the session's rate, and changes nothing else |

## Left out

- Rendering: the JSX markup, the UI components and the styling are not
  part of this model.
- Settlement display strings: the `toFixed(2)` text is replaced by
  `Transfer` values carrying the exact amount.
- Floating point: amounts are exact reals, so IEEE rounding is not
  modelled. Sums such as 9.995 + 9.995 + 0.01 are exact here.
- Negative numbers in the integer fields: buy-ins and chip counts are
  `nat`. `parseInt` of text such as "-5" is not modelled.
- Number parsing: how `parseInt` and `parseFloat` read text is not
  modelled. A field is blank, parses to a value, or does not parse.
- State guards: in the application the handlers have no state guards. Each method here requires the game state of the screen
  that shows its control.
- Session.Game.SetConversionPercent: an unparsable percent gives
  `NaN` in the application and rate 0 here. No settlement changes, because
  `NaN` nets, like zero nets, are neither payers nor receivers. The
  results table then shows 0 instead of `NaN`.
- Session.Game.CalculateResults: a roster with no chips at all (a 0/0
  chip value) gives `NaN` rows in the application and an empty results
  table here. Both have no settlements.
- Session.Game.FinalizeGame: the recorded settlement list is the one of
  the exact threshold, not the application's one-cent threshold
  (App.js:130-131). Where a payer's remainder under a cent is dropped, the
  application records fewer transfers and leaves a creditor unpaid. See
  "Findings".
- Session.Game.CalculateResults: settles with the exact threshold, not the
  application's one-cent threshold, for the same reason.
- Session.SettlementsOf: the exact-threshold schedule, for the same reason.
- Session.Game.FinalizeGame: error messages are modelled by their
  content (kind, direction, difference), not by their text.
- Settlement.MatchSettlements: what the arrays hold after the loop is not
  stated, only the transfers it returns.
- Settlement.Sort: stability (equal nets keep their order) is built into
  `Insert` but not stated as a property.

## Findings

| source | as written | input that shows it | evidently intended | confidence | as-written member | corrected member |
|---|---|---|---|---|---|---|
| App.js:130-131 | a cursor moves past a position once its remaining net is under 0.01, and the remainder is dropped; remainders under a cent add up across steps, so a receiver can go entirely unpaid | rate 0.5%; A and B buy 2000 chips and end with 0; C and D buy 1 and end with 2000; E buys 1 and ends with 3. The nets are -10, -10, 9.995, 9.995, 0.01. A pays C 9.995 and B pays D 9.995; each payer's remaining 0.005 is dropped, and E, owed 0.01, is paid nothing. With payers owing 10, 10 and 10 and receivers owed 9.991 three times and 0.027, the last receiver is paid nothing, 0.027 short | every player with a nonzero position is settled in full | not executed | Settlement.CentToleranceSessionExample | Settlement.ScheduleSettlesEveryone |
