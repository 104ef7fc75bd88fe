# Slot game simulator — a verified model

This project models the Monte Carlo slot simulator of
`logic-testing/slot-simulator.py` (class `SlotGameSimulator`). The game is a
5-reel, 3-row video slot with ten fixed paylines. It has an expanding wild on
reels 2–4, a DollarScatter that pays by the number of cells anywhere on the
screen, and a StarScatter that pays by the number of listed reels (1, 3 and
5) showing it. The simulator spins the reels repeatedly. It scores each
screen and keeps running totals: the payout, the sum of squared payouts, the
winning spins and the maximum win. It also keeps a ledger of which
combination contributed how much.

The model is split into one module per part of the simulator:

- `paytable.dfy` (`Paytable`): `_parse_paytable`. An in-order loop over the
  raw paytable builds the line pays, the scatter pays and the regular
  symbols. It is proved equal to folds over the paytable, and the domain of
  each table is characterised key by key.
- `reels.dfy` (`Reels`): covers three things.
  - The screen for given stop positions (`_spin_reels`), with circular
    wrap-around.
  - The ten paylines (`_define_paylines`).
  - The in-place wild expansion (`_apply_expanding_wilds`), a loop proved
    against a functional definition.
- `line_win.dfy` (`LineWin`): `_check_line_win`. The nested loops (the run
  count with wild substitution, then the downward search for a paying
  count) are proved equal to `BestOf`. That is the strictly-best result over
  the symbols in iteration order. Maximality, tie-breaking towards the
  earlier symbol and the "pays nothing" condition are proved about it.
- `spin.dfy` (`Spin`): what one screen pays. This is the specification of
  `_calculate_spin_payout`:
  - the scatter counts on the original screen
  - the paylines on the expanded screen
  - the payout, the win flag and the sequence of ledger credits
  - the proof that the payout is exactly what the credits add up to, and
    that a spin wins exactly when it makes a credit
- `simulator.dfy` (`Simulator`): the class `SlotGameSimulator`. It has its
  fields, the constructor and `_calculate_spin_payout` as methods that
  update the ledger in place. It also has the spin loop of `run_simulation`,
  proved to leave in its fields the sum, the sum of squares, the winning
  count, the maximum and the ledger of the per-spin results.

Randomness is replaced by an input: spin `i` stops the reels at `stops[i]`,
one position per reel, each below its strip's length. Payout arithmetic is
exact (`real`).

## Model

| member | source | states |
|---|---|---|
| Paytable.ParsePaytable | logic-testing/slot-simulator.py:37-55 | The three tables are the in-order folds `LinePays`/`ScatterPays` over the paytable. The regular symbols are the paytable's keys minus the wild and the scatters. Every symbol with a line pay is regular. The scatter table has an entry for exactly the listed scatters (other than the wild) that the paytable contains. |
| Paytable.CountPaysDomain | logic-testing/slot-simulator.py:46 | A count is in a scatter's count table iff some digit-only key (`IsDigits`) of its entry reads as that count (`DecimalValue`), and its value is the payout under such a key (annotation keys are ignored). |
| Paytable.AddLinePaysDomain | logic-testing/slot-simulator.py:49-51 | Adding one symbol's counts keeps every earlier key and value, and adds exactly the (symbol, count) pairs of its digit-only keys with those keys' payouts. |
| Paytable.LinePaysDomain | logic-testing/slot-simulator.py:42-51 | A (symbol, count) pair has a line pay iff the symbol is neither the wild nor a scatter and some digit-only key (`IsDigits`) of that symbol reads as the count (`DecimalValue`); the pay is the value under one such key. |
| Paytable.LinePaysSymbols | logic-testing/slot-simulator.py:48-55 | Every symbol with a line pay is in the regular-symbol set. |
| Paytable.ScatterPaysKeys | logic-testing/slot-simulator.py:45-46 | The scatter table's keys are exactly the paytable's keys that are listed scatters and not the wild. |
| Paytable.ScatterPaysFromEntry | logic-testing/slot-simulator.py:45-46 | Each scatter's count table is the count table of one of its paytable entries. |
| Reels.WrapIsMod | logic-testing/slot-simulator.py:78 | Stepping back whole strip lengths from `start + j` lands on `(start + j) % len(strip)`. |
| Reels.SpinReels | logic-testing/slot-simulator.py:71-82 | The screen has one column per reel and every column has three rows. |
| Reels.SpinReelsCell | logic-testing/slot-simulator.py:74-81 | Row j of reel i is `strip[(stop + j) % len(strip)]`, so every visible symbol comes from that reel's own strip. |
| Reels.WindowIsSliceOfRepeatedStrip | logic-testing/slot-simulator.py:77-80 | A reel's window is the three cells from its stop in the strip written out three times: reading past the end wraps to the start. |
| Reels.Paylines | logic-testing/slot-simulator.py:57-69 | Ten lines of five coordinates each; coordinate k of every line is on reel k and on one of the three rows. |
| Spin.PaylinesFitFiveReels | logic-testing/slot-simulator.py:57-69 | Every payline reads one cell of each of five reels, all on the screen. |
| Reels.LineSymbols | logic-testing/slot-simulator.py:119 | A payline reads one symbol per coordinate, each from the column its coordinate names. |
| Reels.ExpandWilds | logic-testing/slot-simulator.py:84-90 | The loop over the wild reels yields the functional `Expanded` screen. A listed reel showing the wild becomes all wild. Every other column, and every listed column without the wild, is unchanged. |
| Reels.ExpandIdempotent | logic-testing/slot-simulator.py:84-90 | Expanding an already expanded screen changes nothing. |
| LineWin.RunFrom | logic-testing/slot-simulator.py:135-142 | The run covers only matching cells (the target, or the wild for a non-scatter target) and stops at the first non-matching cell or at the last reel. |
| LineWin.PayingCount | logic-testing/slot-simulator.py:145-151 | The downward search finds the largest count between the minimum match and the run that has a line pay, or reports that none has. |
| LineWin.BestOf | logic-testing/slot-simulator.py:130-153 | The line's payout is 0 iff there is no combination. A combination is a regular (non-scatter) symbol's selected count, and the payout is that entry's line pay. |
| LineWin.BestIsMaximal | logic-testing/slot-simulator.py:146-150 | No symbol would earn more on its own than the line's best payout. |
| LineWin.BestIsFirstMaximal | logic-testing/slot-simulator.py:148-150 | Only a strictly higher payout replaces the best: every symbol visited before the chosen one earns strictly less. |
| LineWin.NoWinIff | logic-testing/slot-simulator.py:131-153 | A line has no winning combination iff no symbol would earn a positive payout on it. |
| LineWin.CheckLineWin | logic-testing/slot-simulator.py:130-153 | The nested loops return exactly `BestOf` over the symbols in iteration order. |
| LineWin.CountRun | logic-testing/slot-simulator.py:135-142 | The counting loop returns the run of matching cells from the leftmost reel. |
| Spin.Occurrences | logic-testing/slot-simulator.py:98 | `col.count(sym)` is at most the column's length and is 0 iff the symbol is absent. |
| Spin.DollarCount | logic-testing/slot-simulator.py:98 | The DollarScatter count is at most the number of cells on the screen. |
| Spin.StarCount | logic-testing/slot-simulator.py:106-109 | The StarScatter count is at most the number of listed reels. |
| Spin.DollarCountZero | logic-testing/slot-simulator.py:98 | No DollarScatter is counted iff no column shows one. |
| Spin.StarCountZero | logic-testing/slot-simulator.py:106-109 | No StarScatter is counted iff no listed reel shows one. |
| Spin.ExpansionHidesDollars | logic-testing/slot-simulator.py:96-98 | Counting DollarScatters on the expanded screen would never find more than the original screen shows. |
| Spin.ExpansionCanHideDollars | logic-testing/slot-simulator.py:96-98 | A concrete screen where the original count sees a DollarScatter that expansion covers, so counting on the original screen matters. |
| Spin.ScatterScale | logic-testing/slot-simulator.py:101 | A scaled scatter payout is never negative. |
| Spin.LineScale | logic-testing/slot-simulator.py:123 | A scaled line payout is never negative, and is positive when the raw payout and the bet per line are. |
| Spin.ScatterPayout | logic-testing/slot-simulator.py:99-102 | A scatter's payout is never negative. |
| Spin.ScatterCreditStep | logic-testing/slot-simulator.py:99-103 | A scatter rule makes one ledger update, under key "name x count (Scatter)", when the count has a paytable entry, and none otherwise. |
| Spin.LinePayout | logic-testing/slot-simulator.py:118-126 | The line part of a spin's payout is never negative. |
| Spin.LineCredits | logic-testing/slot-simulator.py:118-126 | The paylines make at most one credit per line, never under a scatter key, always for a regular symbol and never negative. |
| Spin.SpinPayout | logic-testing/slot-simulator.py:92-128 | A spin's payout is never negative. |
| Spin.LinePayoutIsCredited | logic-testing/slot-simulator.py:122-126 | The line payout is exactly the total of the line credits. |
| Spin.LineCreditsIffLinePays | logic-testing/slot-simulator.py:122-126 | The paylines make a credit iff some line has a positive raw payout. |
| Spin.SpinPayoutIsCredited | logic-testing/slot-simulator.py:92-128 | A spin's payout is exactly the total it credits to the contribution ledger, and the spin is a winning spin iff it makes a credit. |
| Spin.SpinPayoutIsTotal | logic-testing/slot-simulator.py:99-126 | A spin's payout is the total of its credits. |
| Spin.ScatterTotal | logic-testing/slot-simulator.py:99-104 | A scatter rule credits exactly its payout, and makes a credit iff the count has an entry. |
| Spin.SpinWinsIffCredited | logic-testing/slot-simulator.py:99-126 | A spin wins iff it makes a credit. |
| Spin.PositivePayoutWins | logic-testing/slot-simulator.py:99-126 | A spin with a positive payout is a winning spin. |
| Spin.CreditAllAppend | logic-testing/slot-simulator.py:103-126 | Crediting two lists of credits in turn is crediting their concatenation. |
| Spin.CreditAllKeys | logic-testing/slot-simulator.py:103-126 | Crediting (one `Credit`, a defaultdict `+=`, per credit) only adds keys: the ledger's keys afterwards are the old keys plus the credited combinations. |
| Simulator.SlotGameSimulator.constructor | logic-testing/slot-simulator.py:8-35 | Each setting is the configured value or its default, and the reel lists are made 0-based. The tables are the parsed paytable and the paylines are the ten fixed lines. All statistics start at 0 with an empty ledger. |
| Simulator.DefaultReelsInRange | logic-testing/slot-simulator.py:22-23 | The default wild reels 2, 3, 4 become indices 1, 2, 3 and the default star reels 1, 3, 5 become 0, 2, 4, all valid reel indices of a five-reel screen. |
| Simulator.FiveReelConfigEvaluable | logic-testing/slot-simulator.py:8-26 | A configuration with the ten fixed paylines, five strips, a positive line count and base bet, and wild and star reels in range can be scored (`Evaluable`). |
| Simulator.EvaluableNeedsFiveReels | logic-testing/slot-simulator.py:57-69 | With the ten fixed paylines only a five-reel configuration can be scored: each line reads reels 0 to 4 and no more cells than it has. |
| Simulator.SlotGameSimulator.CalculateSpinPayout | logic-testing/slot-simulator.py:92-128 | Returns the spin's payout and win flag (`SpinPayout`, `SpinWins`). It leaves the ledger credited with exactly the spin's credits, in order: the DollarScatter rule, then the StarScatter rule, then the expanded-screen paylines (`SpinParts`, with `TotalAppend` adding the parts' totals). |
| Simulator.SlotGameSimulator.ScoreScatter | logic-testing/slot-simulator.py:99-116 | A scatter rule returns its scaled payout and whether the count has an entry, and credits the ledger under its scatter key. |
| Simulator.CountStarScatters | logic-testing/slot-simulator.py:106-109 | The loop counts the listed reels that show a StarScatter. |
| Simulator.SlotGameSimulator.ScoreLines | logic-testing/slot-simulator.py:118-126 | The payline loop returns the line payout and whether some line pays, and credits each paying line's combination. Its loop invariant is kept by `ScoreLineStep`, built from `LineStep`, `AnyLinePaysSnoc` and `CreditAllSnoc`. |
| Simulator.Payouts | logic-testing/slot-simulator.py:174-176 | One payout per spin, none negative. |
| Simulator.PayoutAt | logic-testing/slot-simulator.py:174-176 | Entry s of the payouts is the payout of the screen spin s stops on. |
| Simulator.WinAt | logic-testing/slot-simulator.py:174-176 | Entry s of the win flags is whether the screen spin s stops on wins. |
| Simulator.SlotGameSimulator.SimulateSpin | logic-testing/slot-simulator.py:174-184 | One pass of the loop keeps the fields equal to the statistics of the spins so far. The step is `AccumulateStep`: the payouts, win flags and ledger grow by one spin (`PayoutsStep`, `WinsStep`, `LedgerStep`), and the total, the sum of squares, the strict-maximum update and the winning count follow (`StatisticsSnoc`, `CountTrueSnoc`). |
| Simulator.SlotGameSimulator.RunSimulation | logic-testing/slot-simulator.py:162-184 | After the loop the spin count is `num_spins`. The total, sum of squares, winning count, maximum and ledger are the sum, sum of squares, count, running strict maximum and ledger of the per-spin results. Winning spins never exceed spins, the total and the maximum are never negative, and no spin paid more than the maximum. |
| Simulator.MaxWinCoversEverySpin | logic-testing/slot-simulator.py:166-184 | The maximum win is never negative and no spin's payout exceeds it. |
| Simulator.WinningSpinsBounded | logic-testing/slot-simulator.py:181-182 | The winning count never exceeds the number of spins. |
| Simulator.MaxWinBounds | logic-testing/slot-simulator.py:166-184 | The maximum win (`MaxWin`, the running strict maximum of lines 183-184) is at least 0 and at least every payout, and it is either 0 or one of the payouts. |
| Simulator.SumNonNegative | logic-testing/slot-simulator.py:162-179 | With no negative payout, the total and the sum of squares are never negative. |
| Simulator.SumMerge | logic-testing/slot-simulator.py:178 | The total payout of a run split into two batches is the sum of the batches' totals. |
| Simulator.SumOfSquaresMerge | logic-testing/slot-simulator.py:179 | The sum of squares of a split run is the sum of the batches' sums of squares. |
| Simulator.MaxWinMerge | logic-testing/slot-simulator.py:183-184 | The maximum win of a split run is the larger of the batches' maxima. |
| Simulator.WinCountMerge | logic-testing/slot-simulator.py:181-182 | The winning count of a split run is the sum of the batches' counts. |

## Left out

- Randomness: `random.randrange` in `_spin_reels` is replaced by the `stops` input. Each stop must be below its strip's length, which is the range `randrange` draws from. An empty strip therefore admits no spin.
- Printing, the progress bar and timing in `run_simulation` are left out (I/O and the clock).
- The final statistics (RTP, variance, standard deviation, hit frequency, average win) and the sorted contribution report are left out. They are floating-point arithmetic and printing over the fields whose values `RunSimulation` states.
- The `__main__` block, `BASE_GAME_CONFIG` and reading reel strips from a JSON file are left out (I/O).
- `config_name` is not modelled: it is only printed.
- Floating point: payouts are exact `real` numbers, with no rounding of the divisions and products.
- Ledger keys are the datatype `ComboKey(symbol, count, scatter)` rather than formatted strings. `ComboKey(s, k, false)` stands for "s xk" and `ComboKey(s, k, true)` for "s xk (Scatter)". String formatting is not modelled.
- `str.isdigit` is modelled for ASCII digits only. Unicode digits are not modelled.
- A digit key whose value is not a number could make the simulator fail later, when it compares or divides that value (the wild's entry is never read, lines 43-44, so its values do not matter). The model requires such values to be numbers (`NumericCounts`).
- Raw payouts are natural numbers, and so are `bet_per_line` and `num_lines`. Negative or fractional values of these are not modelled. The non-negativity results (`Spin.SpinPayout`, `Spin.ScatterPayout`, `Spin.LinePayout`, and `RunSimulation`'s non-negative total and maximum) rest on that and on a positive base bet.
- Iterating the set of regular symbols has no defined order. The constructor takes that order as a parameter (`symbolOrder`), which must list each regular symbol exactly once. Ties between equally paying symbols go to the earlier one in this order.
- Evaluation requires a positive display base bet and a positive line count. The line count must not be 0 because the scale factors divide by it. The code accepts a negative base bet, which, with a positive bet, makes the scaled payout of every positive raw win negative; the model does not cover that case. It also requires paylines that read one cell of each reel, which forces exactly five reels for the ten fixed lines, and wild and star reel indices in range. Python's negative indexing of a reel number 0 or below is not modelled.
- The code raises no configuration error of its own. A negative payout, a symbol both wild and payable, or a spin count of 0 goes through unchecked. The model follows the code for a wild symbol that has a paytable entry (it is skipped) and for 0 spins: `RunSimulation` accepts 0 spins, and the division by the spin count that would fail afterwards is part of the left-out final statistics.
- RunSimulation: the spin count is a natural number. The code also accepts a negative count: it records that count as `total_spins` and runs no spin. The winning-spin bound (`totalWinningSpins <= totalSpins`) then fails, since 0 winning spins exceed a negative count. The model does not cover that input.
- The paytable is a sequence of (key, entry) pairs standing for a JSON object, and each entry is a sequence standing for a dictionary. The constructor requires that no key is listed twice (`DistinctKeys`), as a dictionary cannot hold a repeated key. A repeated key in the JSON text, where the last value wins, is not modelled.
- `_calculate_spin_payout` is modelled as `CalculateSpinPayout` calling `ScoreScatter` (twice), `CountStarScatters` and `ScoreLines`. Each of the loop passes of `run_simulation` is `SimulateSpin`. The steps are the source's, in its order.
- `_check_line_win`'s run-count loop is the method `CountRun`, called from `CheckLineWin` where the source inlines it.
