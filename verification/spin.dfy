/** What one screen pays (the specification of
    SlotGameSimulator._calculate_spin_payout): the two scatter rules on the
    original screen, the paylines on the wild-expanded screen, the spin's
    payout, its win flag and the ledger credits it makes. */
module Spin {
  import opened Paytable
  import opened Reels
  import opened LineWin

  const DOLLAR_SCATTER: Symbol := "DollarScatter"
  const STAR_SCATTER: Symbol := "StarScatter"

  /** The simulator's fixed configuration, after the paytable is parsed and
      the 1-based reel lists are made 0-based. */
  datatype Config = Config(
    strips: seq<seq<Symbol>>,
    betPerLine: nat,
    numLines: nat,
    baseBet: real,
    wild: Symbol,
    scatters: seq<Symbol>,
    wildReels: seq<int>,
    starReels: seq<int>,
    linePays: map<(Symbol, nat), nat>,
    scatterPays: map<Symbol, map<nat, nat>>,
    regularSymbols: set<Symbol>,
    symbolOrder: seq<Symbol>,
    paylines: seq<Payline>)
  {
    function TotalBetPerSpin(): nat { betPerLine * numLines }

    function Rules(): LineRules { LineRules(linePays, wild, scatters, |strips|) }
  }

  /** What evaluating a spin needs: a line count and a display bet that can
      be divided by, paylines that read a cell of every reel, and reel lists
      that index existing reels. */
  predicate Evaluable(cfg: Config) {
    && cfg.numLines > 0
    && cfg.baseBet > 0.0
    && PaylinesFit(cfg.paylines, |cfg.strips|)
    && ReelIndices(cfg.wildReels, |cfg.strips|)
    && ReelIndices(cfg.starReels, |cfg.strips|)
  }

  /** A screen of the configured shape. */
  predicate ScreenOf(cfg: Config, screen: Screen) {
    |screen| == |cfg.strips| && IsScreen(screen)
  }

  /** A payline with a cell for each of the `numReels` reels, every cell on the screen. */
  predicate LineFits(line: Payline, numReels: nat) {
    |line| >= numReels && forall k :: 0 <= k < |line| ==> line[k].0 < numReels && line[k].1 < NUM_ROWS
  }

  predicate PaylinesFit(lines: seq<Payline>, numReels: nat) {
    forall l :: 0 <= l < |lines| ==> LineFits(lines[l], numReels)
  }

  lemma PaylinesFitFiveReels()
    ensures PaylinesFit(Paylines(), 5)
  {
  }

  // ---------------------------------------------------------------------
  // Scatter counting (on the original screen)
  // ---------------------------------------------------------------------

  /** `col.count(sym)`. */
  function Occurrences(col: Column, sym: Symbol): (n: nat)
    ensures n <= |col|
    ensures n == 0 <==> sym !in col
  {
    if col == [] then 0
    else Occurrences(col[..|col| - 1], sym) + (if col[|col| - 1] == sym then 1 else 0)
  }

  /** The grid-count rule: DollarScatter cells anywhere on the screen. */
  function DollarCount(screen: Screen): (n: nat)
    requires IsScreen(screen)
    ensures n <= |screen| * NUM_ROWS
  {
    if screen == [] then 0
    else DollarCount(screen[..|screen| - 1]) + Occurrences(screen[|screen| - 1], DOLLAR_SCATTER)
  }

  /** The reel-presence rule: how many of the listed reels show StarScatter
      at least once (a reel listed twice counts twice). */
  function StarCount(screen: Screen, reels: seq<int>): (n: nat)
    requires ReelIndices(reels, |screen|)
    ensures n <= |reels|
  {
    if reels == [] then 0
    else StarCount(screen, reels[..|reels| - 1]) + (if STAR_SCATTER in screen[reels[|reels| - 1]] then 1 else 0)
  }

  /** No DollarScatter is counted exactly when none is on the screen. */
  lemma {:induction false} DollarCountZero(screen: Screen)
    requires IsScreen(screen)
    ensures DollarCount(screen) == 0 <==> forall i :: 0 <= i < |screen| ==> DOLLAR_SCATTER !in screen[i]
  {
    if screen != [] {
      var init := screen[..|screen| - 1];
      DollarCountZero(init);
      assert forall i :: 0 <= i < |init| ==> init[i] == screen[i];
    }
  }

  /** No StarScatter is counted exactly when none of the listed reels shows one. */
  lemma {:induction false} StarCountZero(screen: Screen, reels: seq<int>)
    requires ReelIndices(reels, |screen|)
    ensures StarCount(screen, reels) == 0 <==> forall k :: 0 <= k < |reels| ==> STAR_SCATTER !in screen[reels[k]]
  {
    if reels != [] {
      var init := reels[..|reels| - 1];
      StarCountZero(screen, init);
      assert forall k :: 0 <= k < |init| ==> init[k] == reels[k];
    }
  }

  /** Expanding wilds can only hide DollarScatters: counting them on the
      expanded screen would never find more than the original shows. */
  lemma {:induction false} ExpansionHidesDollars(screen: Screen, wild: Symbol, wildReels: seq<int>)
    requires IsScreen(screen) && wild != DOLLAR_SCATTER
    ensures IsScreen(Expanded(screen, wild, wildReels))
    ensures DollarCount(Expanded(screen, wild, wildReels)) <= DollarCount(screen)
  {
    var e := Expanded(screen, wild, wildReels);
    if screen != [] {
      var n := |screen| - 1;
      var init := screen[..n];
      assert Expanded(init, wild, wildReels) == e[..n];
      ExpansionHidesDollars(init, wild, wildReels);
      if n in wildReels && wild in screen[n] {
        assert DOLLAR_SCATTER !in e[n];
      }
    }
  }

  /** A screen where the original count sees a DollarScatter that the
      expanded screen has covered with wilds. */
  lemma ExpansionCanHideDollars()
    ensures var screen := [["A", "A", "A"], ["Wild", DOLLAR_SCATTER, "A"], ["A", "A", "A"]];
            DollarCount(screen) == 1 && DollarCount(Expanded(screen, "Wild", [1])) == 0
  {
    var screen: Screen := [["A", "A", "A"], ["Wild", DOLLAR_SCATTER, "A"], ["A", "A", "A"]];
    var e := Expanded(screen, "Wild", [1]);
    assert e[1] == ["Wild", "Wild", "Wild"];
    DollarCountZero(e);
    assert Occurrences(screen[1], DOLLAR_SCATTER) == 1 by {
      assert screen[1][..2][..1] == ["Wild"];
      assert screen[1][..2] == ["Wild", DOLLAR_SCATTER];
      assert screen[1][..2][..1][..0] == [];
    }
    assert DollarCount(screen[..1]) == 0 by {
      DollarCountZero(screen[..1]);
    }
    assert screen[..2][..1] == screen[..1];
    assert screen[..3] == screen;
    assert screen[..2] == screen[..3][..2];
  }

  // ---------------------------------------------------------------------
  // Payouts and ledger credits
  // ---------------------------------------------------------------------

  /** A scatter win: `raw / base_bet_for_paytable_display * total_bet_per_spin`. */
  function ScatterScale(cfg: Config, raw: nat): (amount: real)
    requires cfg.baseBet > 0.0
    ensures amount >= 0.0
  {
    raw as real / cfg.baseBet * cfg.TotalBetPerSpin() as real
  }

  /** A line win: `raw / (base_bet_for_paytable_display / num_lines) * bet_per_line`. */
  function LineScale(cfg: Config, raw: nat): (amount: real)
    requires cfg.baseBet > 0.0 && cfg.numLines > 0
    ensures amount >= 0.0
    ensures raw > 0 && cfg.betPerLine > 0 ==> amount > 0.0
  {
    raw as real / (cfg.baseBet / cfg.numLines as real) * cfg.betPerLine as real
  }

  /** The paytable has an entry for this scatter and count (possibly paying 0). */
  predicate HasScatterPay(cfg: Config, name: Symbol, count: nat) {
    name in cfg.scatterPays && count in cfg.scatterPays[name]
  }

  function ScatterPayout(cfg: Config, name: Symbol, count: nat): (amount: real)
    requires cfg.baseBet > 0.0
    ensures amount >= 0.0
  {
    if HasScatterPay(cfg, name, count) then ScatterScale(cfg, cfg.scatterPays[name][count]) else 0.0
  }

  /** The ledger credit of a scatter win: "{name} x{count} (Scatter)". */
  function ScatterCredits(cfg: Config, name: Symbol, count: nat): seq<(ComboKey, real)>
    requires cfg.baseBet > 0.0
  {
    if HasScatterPay(cfg, name, count) then [(ComboKey(name, count, true), ScatterScale(cfg, cfg.scatterPays[name][count]))]
    else []
  }

  /** Crediting a scatter's credits is one ledger update when the count has an entry, none otherwise. */
  lemma ScatterCreditStep(cfg: Config, ledger: map<ComboKey, real>, name: Symbol, count: nat)
    requires cfg.baseBet > 0.0
    ensures CreditAll(ledger, ScatterCredits(cfg, name, count)) ==
              if HasScatterPay(cfg, name, count)
              then Credit(ledger, ComboKey(name, count, true), ScatterScale(cfg, cfg.scatterPays[name][count]))
              else ledger
    ensures Total(ScatterCredits(cfg, name, count)) == ScatterPayout(cfg, name, count)
  {
  }

  /** The best combination on one payline of the expanded screen. */
  function LineOutcome(cfg: Config, expanded: Screen, line: Payline): LineResult
    requires ScreenOf(cfg, expanded) && LineFits(line, |cfg.strips|)
  {
    BestOf(cfg.Rules(), LineSymbols(expanded, line), cfg.symbolOrder)
  }

  /** The line part of the spin payout: each paying line's scaled payout. */
  function LinePayout(cfg: Config, expanded: Screen, lines: seq<Payline>): (amount: real)
    requires Evaluable(cfg) && ScreenOf(cfg, expanded) && PaylinesFit(lines, |cfg.strips|)
    ensures amount >= 0.0
  {
    if lines == [] then 0.0
    else
      var n := |lines| - 1;
      var result := LineOutcome(cfg, expanded, lines[n]);
      LinePayout(cfg, expanded, lines[..n]) + (if result.payout > 0 then LineScale(cfg, result.payout) else 0.0)
  }

  /** The ledger credits of the paylines: at most one per line, never a scatter key. */
  function LineCredits(cfg: Config, expanded: Screen, lines: seq<Payline>): (credits: seq<(ComboKey, real)>)
    requires Evaluable(cfg) && ScreenOf(cfg, expanded) && PaylinesFit(lines, |cfg.strips|)
    ensures |credits| <= |lines|
    ensures forall c :: c in credits ==> !c.0.scatter && c.0.symbol in cfg.symbolOrder && c.1 >= 0.0
  {
    if lines == [] then []
    else
      var n := |lines| - 1;
      var result := LineOutcome(cfg, expanded, lines[n]);
      LineCredits(cfg, expanded, lines[..n]) +
        (if result.payout > 0 then [(result.combo.value, LineScale(cfg, result.payout))] else [])
  }

  /** The line's best combination has a positive raw payout. */
  predicate LinePaysOut(cfg: Config, expanded: Screen, line: Payline)
    requires ScreenOf(cfg, expanded) && LineFits(line, |cfg.strips|)
  {
    LineOutcome(cfg, expanded, line).payout > 0
  }

  /** Some line of the expanded screen has a positive raw payout. */
  predicate AnyLinePays(cfg: Config, expanded: Screen, lines: seq<Payline>)
    requires ScreenOf(cfg, expanded) && PaylinesFit(lines, |cfg.strips|)
  {
    exists l :: 0 <= l < |lines| && LinePaysOut(cfg, expanded, lines[l])
  }

  function ExpandedScreen(cfg: Config, screen: Screen): (expanded: Screen)
    requires Evaluable(cfg) && ScreenOf(cfg, screen)
    ensures ScreenOf(cfg, expanded)
  {
    Expanded(screen, cfg.wild, cfg.wildReels)
  }

  /** The spin payout: both scatter wins (counted on the original screen) plus
      every paying line (read from the expanded screen). */
  function SpinPayout(cfg: Config, screen: Screen): (amount: real)
    requires Evaluable(cfg) && ScreenOf(cfg, screen)
    ensures amount >= 0.0
  {
    ScatterPayout(cfg, DOLLAR_SCATTER, DollarCount(screen))
      + ScatterPayout(cfg, STAR_SCATTER, StarCount(screen, cfg.starReels))
      + LinePayout(cfg, ExpandedScreen(cfg, screen), cfg.paylines)
  }

  /** The ledger credits one spin makes, in the order it makes them. */
  function SpinCredits(cfg: Config, screen: Screen): seq<(ComboKey, real)>
    requires Evaluable(cfg) && ScreenOf(cfg, screen)
  {
    ScatterCredits(cfg, DOLLAR_SCATTER, DollarCount(screen))
      + ScatterCredits(cfg, STAR_SCATTER, StarCount(screen, cfg.starReels))
      + LineCredits(cfg, ExpandedScreen(cfg, screen), cfg.paylines)
  }

  /** A spin wins when a scatter count has a paytable entry, even one paying
      0, or some line's raw payout is positive. */
  predicate SpinWins(cfg: Config, screen: Screen)
    requires Evaluable(cfg) && ScreenOf(cfg, screen)
  {
    || HasScatterPay(cfg, DOLLAR_SCATTER, DollarCount(screen))
    || HasScatterPay(cfg, STAR_SCATTER, StarCount(screen, cfg.starReels))
    || AnyLinePays(cfg, ExpandedScreen(cfg, screen), cfg.paylines)
  }

  /** The sum of the amounts of a list of credits. */
  function Total(credits: seq<(ComboKey, real)>): real {
    if credits == [] then 0.0 else Total(credits[..|credits| - 1]) + credits[|credits| - 1].1
  }

  lemma {:induction false} TotalAppend(a: seq<(ComboKey, real)>, b: seq<(ComboKey, real)>)
    ensures Total(a + b) == Total(a) + Total(b)
  {
    if b == [] {
      assert a + b == a;
    } else {
      var n := |b| - 1;
      assert (a + b)[..|a + b| - 1] == a + b[..n];
      assert (a + b)[|a + b| - 1] == b[n];
      TotalAppend(a, b[..n]);
    }
  }

  /** The line payout is what the line credits add up to. */
  lemma {:induction false} LinePayoutIsCredited(cfg: Config, expanded: Screen, lines: seq<Payline>)
    requires Evaluable(cfg) && ScreenOf(cfg, expanded) && PaylinesFit(lines, |cfg.strips|)
    ensures LinePayout(cfg, expanded, lines) == Total(LineCredits(cfg, expanded, lines))
  {
    if lines != [] {
      var n := |lines| - 1;
      LinePayoutIsCredited(cfg, expanded, lines[..n]);
      var result := LineOutcome(cfg, expanded, lines[n]);
      var tail: seq<(ComboKey, real)> := if result.payout > 0 then [(result.combo.value, LineScale(cfg, result.payout))] else [];
      TotalAppend(LineCredits(cfg, expanded, lines[..n]), tail);
    }
  }

  /** The paylines make a credit exactly when some line has a positive raw payout. */
  lemma {:induction false} LineCreditsIffLinePays(cfg: Config, expanded: Screen, lines: seq<Payline>)
    requires Evaluable(cfg) && ScreenOf(cfg, expanded) && PaylinesFit(lines, |cfg.strips|)
    ensures LineCredits(cfg, expanded, lines) != [] <==> AnyLinePays(cfg, expanded, lines)
  {
    if lines != [] {
      var n := |lines| - 1;
      var init := lines[..n];
      LineCreditsIffLinePays(cfg, expanded, init);
      AnyLinePaysSnoc(cfg, expanded, lines);
    }
  }

  /** One more payline: its outcome is added to the line payout, the line
      credits and the line win flag. */
  lemma LineStep(cfg: Config, expanded: Screen, lines: seq<Payline>, l: nat)
    requires Evaluable(cfg) && ScreenOf(cfg, expanded) && PaylinesFit(lines, |cfg.strips|) && l < |lines|
    ensures PaylinesFit(lines[..l], |cfg.strips|) && PaylinesFit(lines[..l + 1], |cfg.strips|)
    ensures var r := LineOutcome(cfg, expanded, lines[l]);
            && LinePayout(cfg, expanded, lines[..l + 1]) ==
                 LinePayout(cfg, expanded, lines[..l]) + (if r.payout > 0 then LineScale(cfg, r.payout) else 0.0)
            && LineCredits(cfg, expanded, lines[..l + 1]) ==
                 LineCredits(cfg, expanded, lines[..l]) + (if r.payout > 0 then [(r.combo.value, LineScale(cfg, r.payout))] else [])
            && (AnyLinePays(cfg, expanded, lines[..l + 1]) <==> AnyLinePays(cfg, expanded, lines[..l]) || r.payout > 0)
  {
    assert lines[..l + 1][..l] == lines[..l];
    AnyLinePaysSnoc(cfg, expanded, lines[..l + 1]);
  }

  lemma AnyLinePaysSnoc(cfg: Config, expanded: Screen, lines: seq<Payline>)
    requires ScreenOf(cfg, expanded) && PaylinesFit(lines, |cfg.strips|) && lines != []
    ensures AnyLinePays(cfg, expanded, lines) <==>
              AnyLinePays(cfg, expanded, lines[..|lines| - 1]) || LinePaysOut(cfg, expanded, lines[|lines| - 1])
  {
    if AnyLinePays(cfg, expanded, lines) {
      PayingLineIsEarlierOrLast(cfg, expanded, lines);
    }
    if AnyLinePays(cfg, expanded, lines[..|lines| - 1]) {
      EarlierPayingLine(cfg, expanded, lines);
    }
  }

  lemma PayingLineIsEarlierOrLast(cfg: Config, expanded: Screen, lines: seq<Payline>)
    requires ScreenOf(cfg, expanded) && PaylinesFit(lines, |cfg.strips|) && lines != []
    requires AnyLinePays(cfg, expanded, lines)
    ensures AnyLinePays(cfg, expanded, lines[..|lines| - 1]) || LinePaysOut(cfg, expanded, lines[|lines| - 1])
  {
    var n := |lines| - 1;
    var l :| 0 <= l < |lines| && LinePaysOut(cfg, expanded, lines[l]);
    if l < n {
      assert lines[..n][l] == lines[l];
      assert LinePaysOut(cfg, expanded, lines[..n][l]);
    } else {
      assert l == n;
    }
  }

  lemma EarlierPayingLine(cfg: Config, expanded: Screen, lines: seq<Payline>)
    requires ScreenOf(cfg, expanded) && PaylinesFit(lines, |cfg.strips|) && lines != []
    requires AnyLinePays(cfg, expanded, lines[..|lines| - 1])
    ensures AnyLinePays(cfg, expanded, lines)
  {
    var init := lines[..|lines| - 1];
    var l :| 0 <= l < |init| && LinePaysOut(cfg, expanded, init[l]);
    assert init[l] == lines[l];
  }

  /** The spin payout equals the total of the credits the spin makes to the
      ledger, and the spin counts as winning exactly when it makes a credit. */
  lemma SpinPayoutIsCredited(cfg: Config, screen: Screen)
    requires Evaluable(cfg) && ScreenOf(cfg, screen)
    ensures SpinPayout(cfg, screen) == Total(SpinCredits(cfg, screen))
    ensures SpinWins(cfg, screen) <==> SpinCredits(cfg, screen) != []
  {
    SpinPayoutIsTotal(cfg, screen);
    SpinWinsIffCredited(cfg, screen);
  }

  lemma SpinPayoutIsTotal(cfg: Config, screen: Screen)
    requires Evaluable(cfg) && ScreenOf(cfg, screen)
    ensures SpinPayout(cfg, screen) == Total(SpinCredits(cfg, screen))
  {
    var expanded := ExpandedScreen(cfg, screen);
    var d := ScatterCredits(cfg, DOLLAR_SCATTER, DollarCount(screen));
    var s := ScatterCredits(cfg, STAR_SCATTER, StarCount(screen, cfg.starReels));
    var lc := LineCredits(cfg, expanded, cfg.paylines);
    LinePayoutIsCredited(cfg, expanded, cfg.paylines);
    TotalAppend(d, s);
    TotalAppend(d + s, lc);
    ScatterTotal(cfg, DOLLAR_SCATTER, DollarCount(screen));
    ScatterTotal(cfg, STAR_SCATTER, StarCount(screen, cfg.starReels));
  }

  lemma ScatterTotal(cfg: Config, name: Symbol, count: nat)
    requires cfg.baseBet > 0.0
    ensures Total(ScatterCredits(cfg, name, count)) == ScatterPayout(cfg, name, count)
    ensures ScatterCredits(cfg, name, count) != [] <==> HasScatterPay(cfg, name, count)
  {
    if HasScatterPay(cfg, name, count) {
      assert ScatterCredits(cfg, name, count)[..0] == [];
    }
  }

  lemma SpinWinsIffCredited(cfg: Config, screen: Screen)
    requires Evaluable(cfg) && ScreenOf(cfg, screen)
    ensures SpinWins(cfg, screen) <==> SpinCredits(cfg, screen) != []
  {
    var expanded := ExpandedScreen(cfg, screen);
    LineCreditsIffLinePays(cfg, expanded, cfg.paylines);
    ScatterTotal(cfg, DOLLAR_SCATTER, DollarCount(screen));
    ScatterTotal(cfg, STAR_SCATTER, StarCount(screen, cfg.starReels));
  }

  /** A spin with a positive payout is a winning spin. */
  lemma PositivePayoutWins(cfg: Config, screen: Screen)
    requires Evaluable(cfg) && ScreenOf(cfg, screen)
    ensures SpinPayout(cfg, screen) > 0.0 ==> SpinWins(cfg, screen)
  {
    SpinPayoutIsCredited(cfg, screen);
  }

  // ---------------------------------------------------------------------
  // The contribution ledger
  // ---------------------------------------------------------------------

  /** `payout_contributions[key] += amount` on a defaultdict(float). */
  function Credit(ledger: map<ComboKey, real>, key: ComboKey, amount: real): map<ComboKey, real> {
    ledger[key := (if key in ledger then ledger[key] else 0.0) + amount]
  }

  /** The ledger after making the given credits in order. */
  function CreditAll(ledger: map<ComboKey, real>, credits: seq<(ComboKey, real)>): map<ComboKey, real> {
    if credits == [] then ledger
    else
      var last := credits[|credits| - 1];
      Credit(CreditAll(ledger, credits[..|credits| - 1]), last.0, last.1)
  }

  /** One more credit is one more ledger update. */
  lemma CreditAllSnoc(ledger: map<ComboKey, real>, credits: seq<(ComboKey, real)>, c: (ComboKey, real))
    ensures CreditAll(ledger, credits + [c]) == Credit(CreditAll(ledger, credits), c.0, c.1)
  {
    assert (credits + [c])[..|credits|] == credits;
  }

  lemma {:induction false} CreditAllAppend(ledger: map<ComboKey, real>, a: seq<(ComboKey, real)>, b: seq<(ComboKey, real)>)
    ensures CreditAll(ledger, a + b) == CreditAll(CreditAll(ledger, a), b)
  {
    if b == [] {
      assert a + b == a;
    } else {
      var n := |b| - 1;
      assert (a + b)[..|a + b| - 1] == a + b[..n];
      assert (a + b)[|a + b| - 1] == b[n];
      CreditAllAppend(ledger, a, b[..n]);
    }
  }

  /** Making credits only adds keys: every key in the ledger before is there after. */
  lemma {:induction false} CreditAllKeys(ledger: map<ComboKey, real>, credits: seq<(ComboKey, real)>)
    ensures CreditAll(ledger, credits).Keys == ledger.Keys + (set c | c in credits :: c.0)
  {
    if credits != [] {
      var n := |credits| - 1;
      CreditAllKeys(ledger, credits[..n]);
      assert credits == credits[..n] + [credits[n]];
    }
  }
}
