/** The simulator object: its construction from a configuration record, the
    per-spin evaluation that credits the contribution ledger, and the spin
    loop of run_simulation that keeps the running statistics. */
module Simulator {
  import opened Optional
  import opened Paytable
  import opened Reels
  import opened LineWin
  import opened Spin

  // Defaults of the configuration record's optional entries.
  const DEFAULT_BET_PER_LINE: nat := 1
  const DEFAULT_NUM_LINES: nat := 10
  const DEFAULT_BASE_BET: real := 100.0
  const DEFAULT_WILD: Symbol := "Wild"
  const DEFAULT_SCATTERS: seq<Symbol> := ["DollarScatter", "StarScatter"]
  const DEFAULT_WILD_REELS: seq<int> := [2, 3, 4]
  const DEFAULT_STAR_SCATTER_REELS: seq<int> := [1, 3, 5]

  /** The configuration record as given: reel lists are 1-based, and absent
      entries take the defaults above. */
  datatype GameConfig = GameConfig(
    paytable: RawPaytable,
    strips: seq<seq<Symbol>>,
    betPerLine: Option<nat>,
    numLines: Option<nat>,
    baseBet: Option<real>,
    wild: Option<Symbol>,
    scatters: Option<seq<Symbol>>,
    wildReels: Option<seq<int>>,
    starScatterReels: Option<seq<int>>)

  /** `[r - 1 for r in reels]`. */
  function ZeroBased(reels: seq<int>): (indices: seq<int>)
    ensures |indices| == |reels|
    ensures forall k :: 0 <= k < |reels| ==> indices[k] + 1 == reels[k]
  {
    seq(|reels|, k requires 0 <= k < |reels| => reels[k] - 1)
  }

  /** `order` lists every element of `s` exactly once (an iteration order of a set). */
  predicate Enumerates(order: seq<Symbol>, s: set<Symbol>) {
    (forall x :: x in order ==> x in s) && (forall x :: x in s ==> x in order) &&
    (forall i, j :: 0 <= i < j < |order| ==> order[i] != order[j])
  }

  /** The default wild reels (2, 3, 4) and star-scatter reels (1, 3, 5),
      made 0-based, are reels of a five-reel game. */
  lemma DefaultReelsInRange()
    ensures ZeroBased(DEFAULT_WILD_REELS) == [1, 2, 3]
    ensures ZeroBased(DEFAULT_STAR_SCATTER_REELS) == [0, 2, 4]
    ensures ReelIndices(ZeroBased(DEFAULT_WILD_REELS), 5) && ReelIndices(ZeroBased(DEFAULT_STAR_SCATTER_REELS), 5)
  {
  }

  /** A configuration with the fixed paylines on five reels, a positive line
      count and display bet, and reel lists naming existing reels can
      evaluate spins. */
  lemma FiveReelConfigEvaluable(cfg: Config)
    requires cfg.paylines == Paylines() && |cfg.strips| == 5
    requires cfg.numLines > 0 && cfg.baseBet > 0.0
    requires ReelIndices(cfg.wildReels, 5) && ReelIndices(cfg.starReels, 5)
    ensures Evaluable(cfg)
  {
    PaylinesFitFiveReels();
  }

  /** With the fixed paylines, only a five-reel game can evaluate spins: a
      line reads reel 4, and reads no more reels than its five cells. */
  lemma EvaluableNeedsFiveReels(cfg: Config)
    requires Evaluable(cfg) && cfg.paylines == Paylines()
    ensures |cfg.strips| == 5
  {
    var line := cfg.paylines[0];
    assert LineFits(line, |cfg.strips|);
    assert line[4].0 == 4;
  }

  // ---------------------------------------------------------------------
  // The run statistics as functions of the spins' stop positions
  // ---------------------------------------------------------------------

  predicate ValidSpins(cfg: Config, stops: seq<seq<nat>>) {
    forall s :: 0 <= s < |stops| ==> ValidStops(cfg.strips, stops[s])
  }

  function ScreenAt(cfg: Config, stops: seq<seq<nat>>, s: nat): (screen: Screen)
    requires Evaluable(cfg) && ValidSpins(cfg, stops) && s < |stops|
    ensures ScreenOf(cfg, screen)
  {
    SpinReels(cfg.strips, stops[s])
  }

  /** The payout of each spin, in order. */
  function Payouts(cfg: Config, stops: seq<seq<nat>>): (payouts: seq<real>)
    requires Evaluable(cfg) && ValidSpins(cfg, stops)
    ensures |payouts| == |stops|
    ensures forall s :: 0 <= s < |stops| ==> payouts[s] >= 0.0
  {
    if stops == [] then []
    else
      var n := |stops| - 1;
      Payouts(cfg, stops[..n]) + [SpinPayout(cfg, ScreenAt(cfg, stops, n))]
  }

  /** Whether each spin wins, in order. */
  function Wins(cfg: Config, stops: seq<seq<nat>>): (wins: seq<bool>)
    requires Evaluable(cfg) && ValidSpins(cfg, stops)
    ensures |wins| == |stops|
  {
    if stops == [] then []
    else
      var n := |stops| - 1;
      Wins(cfg, stops[..n]) + [SpinWins(cfg, ScreenAt(cfg, stops, n))]
  }

  /** Entry s of the payout sequence is spin s's payout. */
  lemma {:induction false} PayoutAt(cfg: Config, stops: seq<seq<nat>>, s: nat)
    requires Evaluable(cfg) && ValidSpins(cfg, stops) && s < |stops|
    ensures Payouts(cfg, stops)[s] == SpinPayout(cfg, ScreenAt(cfg, stops, s))
    decreases |stops|, 1
  {
    if s < |stops| - 1 {
      EarlierPayoutAt(cfg, stops, s);
    } else {
      LastPayout(cfg, stops);
    }
  }

  /** The induction step of PayoutAt: an entry before the last one. */
  lemma {:induction false} EarlierPayoutAt(cfg: Config, stops: seq<seq<nat>>, s: nat)
    requires Evaluable(cfg) && ValidSpins(cfg, stops) && s < |stops| - 1
    ensures Payouts(cfg, stops)[s] == SpinPayout(cfg, ScreenAt(cfg, stops, s))
    decreases |stops|, 0
  {
    PrefixScreen(cfg, stops, s);
    PrefixPayout(cfg, stops, s);
    PayoutAt(cfg, stops[..|stops| - 1], s);
  }

  /** Entry s of the win sequence is spin s's win flag. */
  lemma {:induction false} WinAt(cfg: Config, stops: seq<seq<nat>>, s: nat)
    requires Evaluable(cfg) && ValidSpins(cfg, stops) && s < |stops|
    ensures Wins(cfg, stops)[s] == SpinWins(cfg, ScreenAt(cfg, stops, s))
    decreases |stops|, 1
  {
    if s < |stops| - 1 {
      EarlierWinAt(cfg, stops, s);
    } else {
      LastWin(cfg, stops);
    }
  }

  /** The induction step of WinAt: an entry before the last one. */
  lemma {:induction false} EarlierWinAt(cfg: Config, stops: seq<seq<nat>>, s: nat)
    requires Evaluable(cfg) && ValidSpins(cfg, stops) && s < |stops| - 1
    ensures Wins(cfg, stops)[s] == SpinWins(cfg, ScreenAt(cfg, stops, s))
    decreases |stops|, 0
  {
    PrefixScreen(cfg, stops, s);
    PrefixWin(cfg, stops, s);
    WinAt(cfg, stops[..|stops| - 1], s);
  }

  /** The last payout entry is the last spin's payout. */
  lemma LastPayout(cfg: Config, stops: seq<seq<nat>>)
    requires Evaluable(cfg) && ValidSpins(cfg, stops) && stops != []
    ensures Payouts(cfg, stops)[|stops| - 1] == SpinPayout(cfg, ScreenAt(cfg, stops, |stops| - 1))
  {
  }

  /** The last win entry is the last spin's win flag. */
  lemma LastWin(cfg: Config, stops: seq<seq<nat>>)
    requires Evaluable(cfg) && ValidSpins(cfg, stops) && stops != []
    ensures Wins(cfg, stops)[|stops| - 1] == SpinWins(cfg, ScreenAt(cfg, stops, |stops| - 1))
  {
  }

  /** Dropping the last spin keeps the earlier spins' screens. */
  lemma PrefixScreen(cfg: Config, stops: seq<seq<nat>>, s: nat)
    requires Evaluable(cfg) && ValidSpins(cfg, stops) && s < |stops| - 1
    ensures ValidSpins(cfg, stops[..|stops| - 1])
    ensures ScreenAt(cfg, stops[..|stops| - 1], s) == ScreenAt(cfg, stops, s)
  {
    assert stops[..|stops| - 1][s] == stops[s];
  }

  /** Dropping the last spin keeps the earlier spins' payouts. */
  lemma PrefixPayout(cfg: Config, stops: seq<seq<nat>>, s: nat)
    requires Evaluable(cfg) && ValidSpins(cfg, stops) && s < |stops| - 1
    requires ValidSpins(cfg, stops[..|stops| - 1])
    ensures Payouts(cfg, stops)[s] == Payouts(cfg, stops[..|stops| - 1])[s]
  {
  }

  /** Dropping the last spin keeps the earlier spins' win flags. */
  lemma PrefixWin(cfg: Config, stops: seq<seq<nat>>, s: nat)
    requires Evaluable(cfg) && ValidSpins(cfg, stops) && s < |stops| - 1
    requires ValidSpins(cfg, stops[..|stops| - 1])
    ensures Wins(cfg, stops)[s] == Wins(cfg, stops[..|stops| - 1])[s]
  {
  }

  /** No spin pays more than the run's maximum win, which is never negative. */
  lemma MaxWinCoversEverySpin(cfg: Config, stops: seq<seq<nat>>)
    requires Evaluable(cfg) && ValidSpins(cfg, stops)
    ensures MaxWin(Payouts(cfg, stops)) >= 0.0
    ensures forall s :: 0 <= s < |stops| ==> SpinPayout(cfg, ScreenAt(cfg, stops, s)) <= MaxWin(Payouts(cfg, stops))
  {
    var payouts := Payouts(cfg, stops);
    MaxWinBounds(payouts);
    forall s | 0 <= s < |stops|
      ensures SpinPayout(cfg, ScreenAt(cfg, stops, s)) <= MaxWin(payouts)
    {
      PayoutAt(cfg, stops, s);
    }
  }

  function Sum(xs: seq<real>): real {
    if xs == [] then 0.0 else Sum(xs[..|xs| - 1]) + xs[|xs| - 1]
  }

  function SumOfSquares(xs: seq<real>): real {
    if xs == [] then 0.0 else SumOfSquares(xs[..|xs| - 1]) + xs[|xs| - 1] * xs[|xs| - 1]
  }

  function CountTrue(bs: seq<bool>): nat {
    if bs == [] then 0 else CountTrue(bs[..|bs| - 1]) + (if bs[|bs| - 1] then 1 else 0)
  }

  /** `max_win`: starts at 0 and is replaced by any strictly larger payout. */
  function MaxWin(xs: seq<real>): real {
    if xs == [] then 0.0
    else
      var m := MaxWin(xs[..|xs| - 1]);
      if xs[|xs| - 1] > m then xs[|xs| - 1] else m
  }

  /** The contribution ledger after crediting every spin in order. */
  function Ledger(cfg: Config, stops: seq<seq<nat>>): map<ComboKey, real>
    requires Evaluable(cfg) && ValidSpins(cfg, stops)
  {
    if stops == [] then map[]
    else
      var n := |stops| - 1;
      CreditAll(Ledger(cfg, stops[..n]), SpinCredits(cfg, ScreenAt(cfg, stops, n)))
  }

  /** Appending a payout updates the total, the sum of squares and the
      maximum exactly as the accumulation loop does. */
  lemma StatisticsSnoc(before: seq<real>, after: seq<real>, p: real,
                       total: real, squares: real, max: real, total': real, squares': real, max': real)
    requires after == before + [p]
    requires total == Sum(before) && squares == SumOfSquares(before) && max == MaxWin(before)
    requires total' == total + p && squares' == squares + p * p && max' == (if p > max then p else max)
    ensures total' == Sum(after) && squares' == SumOfSquares(after) && max' == MaxWin(after)
  {
    assert after[..|before|] == before;
  }

  /** Appending a win flag counts it exactly as the accumulation loop does. */
  lemma CountTrueSnoc(before: seq<bool>, after: seq<bool>, w: bool, winning: nat, winning': nat)
    requires after == before + [w]
    requires winning == CountTrue(before)
    requires winning' == winning + (if w then 1 else 0)
    ensures winning' == CountTrue(after)
  {
    assert after[..|before|] == before;
  }

  /** One more spin appends its payout to the payout sequence. */
  lemma PayoutsStep(cfg: Config, stops: seq<seq<nat>>, i: nat, p: real)
    requires Evaluable(cfg) && ValidSpins(cfg, stops) && i < |stops|
    requires p == SpinPayout(cfg, SpinReels(cfg.strips, stops[i]))
    ensures ValidSpins(cfg, stops[..i]) && ValidSpins(cfg, stops[..i + 1])
    ensures Payouts(cfg, stops[..i + 1]) == Payouts(cfg, stops[..i]) + [p]
  {
    assert stops[..i + 1][..i] == stops[..i];
  }

  /** One more spin appends its win flag to the win sequence. */
  lemma WinsStep(cfg: Config, stops: seq<seq<nat>>, i: nat, w: bool)
    requires Evaluable(cfg) && ValidSpins(cfg, stops) && i < |stops|
    requires w == SpinWins(cfg, SpinReels(cfg.strips, stops[i]))
    ensures ValidSpins(cfg, stops[..i]) && ValidSpins(cfg, stops[..i + 1])
    ensures Wins(cfg, stops[..i + 1]) == Wins(cfg, stops[..i]) + [w]
  {
    assert stops[..i + 1][..i] == stops[..i];
  }

  /** One more spin credits its combinations to the ledger. */
  lemma LedgerStep(cfg: Config, stops: seq<seq<nat>>, i: nat, screen: Screen)
    requires Evaluable(cfg) && ValidSpins(cfg, stops) && i < |stops|
    requires screen == SpinReels(cfg.strips, stops[i])
    ensures ValidSpins(cfg, stops[..i]) && ValidSpins(cfg, stops[..i + 1])
    ensures Ledger(cfg, stops[..i + 1]) == CreditAll(Ledger(cfg, stops[..i]), SpinCredits(cfg, screen))
  {
    assert stops[..i + 1][..i] == stops[..i];
  }

  /** `total`, `squares`, `winning`, `max` and `ledger` are the run
      statistics of the spins stopped at `stops`, in order. */
  ghost predicate Summarizes(cfg: Config, stops: seq<seq<nat>>, total: real, squares: real, winning: nat,
                             max: real, ledger: map<ComboKey, real>)
    requires Evaluable(cfg) && ValidSpins(cfg, stops)
  {
    && total == Sum(Payouts(cfg, stops))
    && squares == SumOfSquares(Payouts(cfg, stops))
    && winning == CountTrue(Wins(cfg, stops))
    && max == MaxWin(Payouts(cfg, stops))
    && ledger == Ledger(cfg, stops)
  }

  /** The statistics of spins `stops[..i]`, extended by spin i's payout,
      win flag and ledger credits, are the statistics of `stops[..i + 1]`. */
  lemma AccumulateStep(cfg: Config, stops: seq<seq<nat>>, i: nat, screen: Screen,
                       total: real, squares: real, winning: nat, max: real, ledger: map<ComboKey, real>,
                       p: real, w: bool,
                       total': real, squares': real, winning': nat, max': real, ledger': map<ComboKey, real>)
    requires Evaluable(cfg) && ValidSpins(cfg, stops) && i < |stops|
    requires screen == SpinReels(cfg.strips, stops[i])
    requires p == SpinPayout(cfg, screen) && w == SpinWins(cfg, screen)
    requires ValidSpins(cfg, stops[..i]) && Summarizes(cfg, stops[..i], total, squares, winning, max, ledger)
    requires total' == total + p && squares' == squares + p * p
    requires winning' == winning + (if w then 1 else 0) && max' == (if p > max then p else max)
    requires ledger' == CreditAll(ledger, SpinCredits(cfg, screen))
    ensures ValidSpins(cfg, stops[..i + 1])
    ensures Summarizes(cfg, stops[..i + 1], total', squares', winning', max', ledger')
  {
    PayoutsStep(cfg, stops, i, p);
    WinsStep(cfg, stops, i, w);
    LedgerStep(cfg, stops, i, screen);
    StatisticsSnoc(Payouts(cfg, stops[..i]), Payouts(cfg, stops[..i + 1]), p, total, squares, max, total', squares', max');
    CountTrueSnoc(Wins(cfg, stops[..i]), Wins(cfg, stops[..i + 1]), w, winning, winning');
  }

  // ---------------------------------------------------------------------
  // Properties of the run statistics
  // ---------------------------------------------------------------------

  /** Winning spins never outnumber spins. */
  lemma {:induction false} WinningSpinsBounded(bs: seq<bool>)
    ensures CountTrue(bs) <= |bs|
  {
    if bs != [] { WinningSpinsBounded(bs[..|bs| - 1]); }
  }

  /** The maximum win is at least 0 and at least every spin's payout, and it
      is either 0 or one of the payouts. */
  lemma {:induction false} MaxWinBounds(xs: seq<real>)
    ensures MaxWin(xs) >= 0.0
    ensures forall s :: 0 <= s < |xs| ==> xs[s] <= MaxWin(xs)
    ensures MaxWin(xs) == 0.0 || MaxWin(xs) in xs
  {
    if xs != [] {
      var n := |xs| - 1;
      MaxWinBounds(xs[..n]);
      assert forall s :: 0 <= s < n ==> xs[..n][s] == xs[s];
    }
  }

  /** The total payout is never negative when no spin pays a negative amount. */
  lemma {:induction false} SumNonNegative(xs: seq<real>)
    requires forall s :: 0 <= s < |xs| ==> xs[s] >= 0.0
    ensures Sum(xs) >= 0.0 && SumOfSquares(xs) >= 0.0
  {
    if xs != [] {
      var n := |xs| - 1;
      assert forall s :: 0 <= s < n ==> xs[..n][s] == xs[s];
      SumNonNegative(xs[..n]);
    }
  }

  /** Splitting the spins into two batches: the total payout of the run is
      the sum of the batches' totals. */
  lemma {:induction false} SumMerge(a: seq<real>, b: seq<real>)
    decreases |b|
    ensures Sum(a + b) == Sum(a) + Sum(b)
  {
    if b == [] {
      assert a + b == a;
    } else {
      SplitLast(a, b);
      SumMerge(a, b[..|b| - 1]);
    }
  }

  /** The sum of squared payouts of a split run is the sum of the batches' sums. */
  lemma {:induction false} SumOfSquaresMerge(a: seq<real>, b: seq<real>)
    decreases |b|
    ensures SumOfSquares(a + b) == SumOfSquares(a) + SumOfSquares(b)
  {
    if b == [] {
      assert a + b == a;
    } else {
      SplitLast(a, b);
      SumOfSquaresMerge(a, b[..|b| - 1]);
    }
  }

  /** The maximum win of a split run is the larger of the batches' maxima. */
  lemma {:induction false} MaxWinMerge(a: seq<real>, b: seq<real>)
    decreases |b|
    ensures MaxWin(a + b) == if MaxWin(b) > MaxWin(a) then MaxWin(b) else MaxWin(a)
  {
    if b == [] {
      assert a + b == a;
      MaxWinBounds(a);
    } else {
      SplitLast(a, b);
      MaxWinMerge(a, b[..|b| - 1]);
    }
  }

  /** The last element of `a + b` is b's last, and the rest is `a` followed by the rest of b. */
  lemma SplitLast<T>(a: seq<T>, b: seq<T>)
    requires b != []
    ensures (a + b)[..|a + b| - 1] == a + b[..|b| - 1]
    ensures (a + b)[|a + b| - 1] == b[|b| - 1]
  {
  }

  /** The winning-spin count of a split run is the sum of the batches' counts. */
  lemma {:induction false} WinCountMerge(a: seq<bool>, b: seq<bool>)
    decreases |b|
    ensures CountTrue(a + b) == CountTrue(a) + CountTrue(b)
  {
    if b == [] {
      assert a + b == a;
    } else {
      SplitLast(a, b);
      WinCountMerge(a, b[..|b| - 1]);
    }
  }

  // ---------------------------------------------------------------------
  // Scoring one spin, step by step
  // ---------------------------------------------------------------------

  /** The star-scatter loop of _calculate_spin_payout: the number of listed
      reels showing a StarScatter anywhere in their window. */
  method CountStarScatters(screen: Screen, reels: seq<int>) returns (count: nat)
    requires ReelIndices(reels, |screen|)
    ensures count == StarCount(screen, reels)
  {
    count := 0;
    for k := 0 to |reels|
      invariant count == StarCount(screen, reels[..k])
    {
      assert reels[..k + 1][..k] == reels[..k];
      if STAR_SCATTER in screen[reels[k]] {
        count := count + 1;
      }
    }
    assert reels[..|reels|] == reels;
  }

  /** After the first lines of the payline loop, `payout`, `winning` and
      `ledger` are the line payout, the line-win flag and the ledger
      credited with those lines. */
  ghost predicate LinesScored(cfg: Config, expanded: Screen, lines: seq<Payline>,
                              payout: real, winning: bool, ledger0: map<ComboKey, real>, ledger: map<ComboKey, real>)
    requires Evaluable(cfg) && ScreenOf(cfg, expanded) && PaylinesFit(lines, |cfg.strips|)
  {
    && payout == LinePayout(cfg, expanded, lines)
    && winning == AnyLinePays(cfg, expanded, lines)
    && ledger == CreditAll(ledger0, LineCredits(cfg, expanded, lines))
  }

  /** Scoring line l with its best combination extends the scored lines by one. */
  lemma ScoreLineStep(cfg: Config, expanded: Screen, lines: seq<Payline>, l: nat, ledger0: map<ComboKey, real>,
                      payout: real, winning: bool, ledger: map<ComboKey, real>, raw: nat, combo: Option<ComboKey>,
                      payout': real, winning': bool, ledger': map<ComboKey, real>)
    requires Evaluable(cfg) && ScreenOf(cfg, expanded) && PaylinesFit(lines, |cfg.strips|) && l < |lines|
    requires PaylinesFit(lines[..l], |cfg.strips|)
    requires LinesScored(cfg, expanded, lines[..l], payout, winning, ledger0, ledger)
    requires LineResult(raw, combo) == LineOutcome(cfg, expanded, lines[l])
    requires raw > 0 ==> combo.Some? && payout' == payout + LineScale(cfg, raw) && winning'
                         && ledger' == Credit(ledger, combo.value, LineScale(cfg, raw))
    requires raw == 0 ==> payout' == payout && winning' == winning && ledger' == ledger
    ensures PaylinesFit(lines[..l + 1], |cfg.strips|)
    ensures LinesScored(cfg, expanded, lines[..l + 1], payout', winning', ledger0, ledger')
  {
    LineStep(cfg, expanded, lines, l);
    if raw > 0 {
      CreditAllSnoc(ledger0, LineCredits(cfg, expanded, lines[..l]), (combo.value, LineScale(cfg, raw)));
    } else {
      assert LineCredits(cfg, expanded, lines[..l]) + [] == LineCredits(cfg, expanded, lines[..l]);
    }
  }

  /** A spin's payout, win flag and credits are those of the DollarScatter
      rule, then the StarScatter rule, then the paylines of the expanded screen. */
  lemma SpinParts(cfg: Config, screen: Screen, expanded: Screen,
                  ledger0: map<ComboKey, real>, ledger1: map<ComboKey, real>,
                  ledger2: map<ComboKey, real>, ledger3: map<ComboKey, real>)
    requires Evaluable(cfg) && ScreenOf(cfg, screen) && expanded == Expanded(screen, cfg.wild, cfg.wildReels)
    requires ledger1 == CreditAll(ledger0, ScatterCredits(cfg, DOLLAR_SCATTER, DollarCount(screen)))
    requires ledger2 == CreditAll(ledger1, ScatterCredits(cfg, STAR_SCATTER, StarCount(screen, cfg.starReels)))
    requires ScreenOf(cfg, expanded) && ledger3 == CreditAll(ledger2, LineCredits(cfg, expanded, cfg.paylines))
    ensures ledger3 == CreditAll(ledger0, SpinCredits(cfg, screen))
    ensures SpinPayout(cfg, screen) ==
              0.0 + ScatterPayout(cfg, DOLLAR_SCATTER, DollarCount(screen))
                  + ScatterPayout(cfg, STAR_SCATTER, StarCount(screen, cfg.starReels))
                  + LinePayout(cfg, expanded, cfg.paylines)
    ensures SpinWins(cfg, screen) ==
              (|| HasScatterPay(cfg, DOLLAR_SCATTER, DollarCount(screen))
               || HasScatterPay(cfg, STAR_SCATTER, StarCount(screen, cfg.starReels))
               || AnyLinePays(cfg, expanded, cfg.paylines))
  {
    var d := ScatterCredits(cfg, DOLLAR_SCATTER, DollarCount(screen));
    var st := ScatterCredits(cfg, STAR_SCATTER, StarCount(screen, cfg.starReels));
    CreditAllAppend(ledger0, d, st);
    CreditAllAppend(ledger0, d + st, LineCredits(cfg, expanded, cfg.paylines));
  }

  // ---------------------------------------------------------------------
  // The simulator
  // ---------------------------------------------------------------------

  class SlotGameSimulator {
    const cfg: Config

    var totalPayout: real
    var sumOfSquaredPayouts: real
    var totalSpins: nat
    var totalWinningSpins: nat
    var maxWin: real
    var payoutContributions: map<ComboKey, real>

    /** Reads the configuration record with its defaults, parses the paytable
        and starts with empty statistics. `symbolOrder` is the order in which
        the set of regular symbols is iterated. */
    constructor (config: GameConfig, symbolOrder: seq<Symbol>)
      requires config.numLines.GetOr(DEFAULT_NUM_LINES) > 0
      requires NumericCounts(config.paytable) && DistinctKeys(config.paytable)
      requires Enumerates(symbolOrder, RegularSymbols(config.paytable, config.wild.GetOr(DEFAULT_WILD),
                                                      config.scatters.GetOr(DEFAULT_SCATTERS)))
      ensures cfg.strips == config.strips
      ensures cfg.betPerLine == config.betPerLine.GetOr(DEFAULT_BET_PER_LINE)
      ensures cfg.numLines == config.numLines.GetOr(DEFAULT_NUM_LINES)
      ensures cfg.baseBet == config.baseBet.GetOr(DEFAULT_BASE_BET)
      ensures cfg.wild == config.wild.GetOr(DEFAULT_WILD)
      ensures cfg.scatters == config.scatters.GetOr(DEFAULT_SCATTERS)
      ensures cfg.wildReels == ZeroBased(config.wildReels.GetOr(DEFAULT_WILD_REELS))
      ensures cfg.starReels == ZeroBased(config.starScatterReels.GetOr(DEFAULT_STAR_SCATTER_REELS))
      ensures cfg.linePays == LinePays(config.paytable, cfg.wild, cfg.scatters)
      ensures cfg.scatterPays == ScatterPays(config.paytable, cfg.wild, cfg.scatters)
      ensures cfg.regularSymbols == RegularSymbols(config.paytable, cfg.wild, cfg.scatters)
      ensures cfg.symbolOrder == symbolOrder && Enumerates(cfg.symbolOrder, cfg.regularSymbols)
      ensures cfg.paylines == Paylines()
      ensures totalPayout == 0.0 && sumOfSquaredPayouts == 0.0 && maxWin == 0.0
      ensures totalSpins == 0 && totalWinningSpins == 0 && payoutContributions == map[]
    {
      var wild := config.wild.GetOr(DEFAULT_WILD);
      var scatters := config.scatters.GetOr(DEFAULT_SCATTERS);
      var linePays, scatterPays, regular := ParsePaytable(config.paytable, wild, scatters);
      cfg := Config(
        config.strips,
        config.betPerLine.GetOr(DEFAULT_BET_PER_LINE),
        config.numLines.GetOr(DEFAULT_NUM_LINES),
        config.baseBet.GetOr(DEFAULT_BASE_BET),
        wild,
        scatters,
        ZeroBased(config.wildReels.GetOr(DEFAULT_WILD_REELS)),
        ZeroBased(config.starScatterReels.GetOr(DEFAULT_STAR_SCATTER_REELS)),
        linePays,
        scatterPays,
        regular,
        symbolOrder,
        Paylines());
      totalPayout, sumOfSquaredPayouts, maxWin := 0.0, 0.0, 0.0;
      totalSpins, totalWinningSpins := 0, 0;
      payoutContributions := map[];
    }

    /** _calculate_spin_payout: scores one screen, crediting the ledger for
        each scatter win and each paying line. */
    method CalculateSpinPayout(original: Screen) returns (payout: real, winning: bool)
      requires Evaluable(cfg) && ScreenOf(cfg, original)
      modifies this`payoutContributions
      ensures payout == SpinPayout(cfg, original)
      ensures winning == SpinWins(cfg, original)
      ensures payoutContributions == CreditAll(old(payoutContributions), SpinCredits(cfg, original))
    {
      ghost var ledger0 := payoutContributions;
      var expanded := ExpandWilds(original, cfg.wild, cfg.wildReels);

      // the grid-count rule, on the original screen
      var dollarCount := DollarCount(original);
      var dollarPayout, dollarWin := ScoreScatter(DOLLAR_SCATTER, dollarCount);
      ghost var ledger1 := payoutContributions;

      // the reel-presence rule, on the original screen
      var starCount := CountStarScatters(original, cfg.starReels);
      var starPayout, starWin := ScoreScatter(STAR_SCATTER, starCount);
      ghost var ledger2 := payoutContributions;

      // the paylines, on the expanded screen
      var linePayout, lineWin := ScoreLines(expanded);

      payout := 0.0 + dollarPayout + starPayout + linePayout;
      winning := dollarWin || starWin || lineWin;
      SpinParts(cfg, original, expanded, ledger0, ledger1, ledger2, payoutContributions);
    }

    /** A scatter rule of _calculate_spin_payout: when the paytable lists
        `count` for scatter `name`, its scaled payout is won and credited. */
    method ScoreScatter(name: Symbol, count: nat) returns (payout: real, winning: bool)
      requires Evaluable(cfg)
      modifies this`payoutContributions
      ensures payout == ScatterPayout(cfg, name, count)
      ensures winning == HasScatterPay(cfg, name, count)
      ensures payoutContributions == CreditAll(old(payoutContributions), ScatterCredits(cfg, name, count))
    {
      ScatterCreditStep(cfg, payoutContributions, name, count);
      payout, winning := 0.0, false;
      if name in cfg.scatterPays && count in cfg.scatterPays[name] {
        var rawPayout := cfg.scatterPays[name][count];
        var scaledPayout := ScatterScale(cfg, rawPayout);
        payout := payout + scaledPayout;
        payoutContributions := Credit(payoutContributions, ComboKey(name, count, true), scaledPayout);
        winning := true;
      }
    }

    /** The payline loop of _calculate_spin_payout on the expanded screen:
        each line's best win is scaled and credited to the ledger. */
    method ScoreLines(expanded: Screen) returns (payout: real, winning: bool)
      requires Evaluable(cfg) && ScreenOf(cfg, expanded)
      modifies this`payoutContributions
      ensures payout == LinePayout(cfg, expanded, cfg.paylines)
      ensures winning == AnyLinePays(cfg, expanded, cfg.paylines)
      ensures payoutContributions == CreditAll(old(payoutContributions), LineCredits(cfg, expanded, cfg.paylines))
    {
      payout, winning := 0.0, false;
      ghost var ledger0 := payoutContributions;
      var lines := cfg.paylines;
      assert lines[..0] == [];
      for l := 0 to |lines|
        invariant PaylinesFit(lines[..l], |cfg.strips|)
        invariant LinesScored(cfg, expanded, lines[..l], payout, winning, ledger0, payoutContributions)
      {
        var lineSymbols := LineSymbols(expanded, lines[l]);
        var rawLinePayout, winningCombo := CheckLineWin(cfg.Rules(), cfg.symbolOrder, lineSymbols);
        ghost var payoutBefore, winningBefore, ledgerBefore := payout, winning, payoutContributions;
        if rawLinePayout > 0 {
          var scaledLinePayout := LineScale(cfg, rawLinePayout);
          payout := payout + scaledLinePayout;
          winning := true;
          payoutContributions := Credit(payoutContributions, winningCombo.value, scaledLinePayout);
        }
        ScoreLineStep(cfg, expanded, lines, l, ledger0, payoutBefore, winningBefore, ledgerBefore,
                      rawLinePayout, winningCombo, payout, winning, payoutContributions);
      }
      assert lines[..|lines|] == lines;
    }

    /** One pass of run_simulation's loop: spins the reels to `stops[i]`,
        scores the screen and adds the result to the statistics. */
    method SimulateSpin(stops: seq<seq<nat>>, i: nat)
      requires Evaluable(cfg) && ValidSpins(cfg, stops) && i < |stops|
      requires ValidSpins(cfg, stops[..i])
      requires Summarizes(cfg, stops[..i], totalPayout, sumOfSquaredPayouts, totalWinningSpins, maxWin,
                          payoutContributions)
      modifies this`totalPayout, this`sumOfSquaredPayouts, this`totalWinningSpins, this`maxWin,
               this`payoutContributions
      ensures ValidSpins(cfg, stops[..i + 1])
      ensures Summarizes(cfg, stops[..i + 1], totalPayout, sumOfSquaredPayouts, totalWinningSpins, maxWin,
                         payoutContributions)
    {
      var originalVisibleSymbols := SpinReels(cfg.strips, stops[i]);
      var spinPayout, isWinningSpin := CalculateSpinPayout(originalVisibleSymbols);

      totalPayout := totalPayout + spinPayout;
      sumOfSquaredPayouts := sumOfSquaredPayouts + spinPayout * spinPayout;
      if isWinningSpin {
        totalWinningSpins := totalWinningSpins + 1;
      }
      if spinPayout > maxWin {
        maxWin := spinPayout;
      }
      AccumulateStep(cfg, stops, i, originalVisibleSymbols,
                     old(totalPayout), old(sumOfSquaredPayouts), old(totalWinningSpins), old(maxWin),
                     old(payoutContributions), spinPayout, isWinningSpin,
                     totalPayout, sumOfSquaredPayouts, totalWinningSpins, maxWin, payoutContributions);
    }

    /** The spin loop of run_simulation, with spin i stopping the reels at
        `stops[i]`: resets the statistics, then accumulates each spin's
        payout, squared payout, win flag, maximum and ledger credits. */
    method RunSimulation(numSpins: nat, stops: seq<seq<nat>>)
      requires Evaluable(cfg) && |stops| == numSpins && ValidSpins(cfg, stops)
      modifies this
      ensures totalSpins == numSpins
      ensures totalPayout == Sum(Payouts(cfg, stops))
      ensures sumOfSquaredPayouts == SumOfSquares(Payouts(cfg, stops))
      ensures totalWinningSpins == CountTrue(Wins(cfg, stops))
      ensures maxWin == MaxWin(Payouts(cfg, stops))
      ensures payoutContributions == Ledger(cfg, stops)
      ensures totalWinningSpins <= totalSpins && totalPayout >= 0.0 && maxWin >= 0.0
      ensures forall s :: 0 <= s < numSpins ==> SpinPayout(cfg, ScreenAt(cfg, stops, s)) <= maxWin
    {
      totalPayout := 0.0;
      sumOfSquaredPayouts := 0.0;
      totalSpins := numSpins;
      totalWinningSpins := 0;
      maxWin := 0.0;
      payoutContributions := map[];
      assert stops[..0] == [];

      for i := 0 to numSpins
        invariant totalSpins == numSpins
        invariant ValidSpins(cfg, stops[..i])
        invariant Summarizes(cfg, stops[..i], totalPayout, sumOfSquaredPayouts, totalWinningSpins, maxWin,
                             payoutContributions)
      {
        SimulateSpin(stops, i);
      }
      assert stops[..numSpins] == stops;
      WinningSpinsBounded(Wins(cfg, stops));
      SumNonNegative(Payouts(cfg, stops));
      MaxWinCoversEverySpin(cfg, stops);
    }
  }
}
