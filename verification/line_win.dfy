/** Scoring one payline (SlotGameSimulator._check_line_win): for each regular
    symbol, the left-to-right run with wild substitution, the downward search
    for the longest paying count, and the strictly best symbol on the line. */
module LineWin {
  import opened Optional
  import opened Paytable

  /** The only symbol that pays from two in a row; every other needs three. */
  const SEVEN: Symbol := "Seven"

  /** A ledger key: "S xk" for a line win, "S xk (Scatter)" for a scatter win. */
  datatype ComboKey = ComboKey(symbol: Symbol, count: nat, scatter: bool)

  /** What line evaluation reads from the configuration. */
  datatype LineRules = LineRules(linePays: map<(Symbol, nat), nat>, wild: Symbol, scatters: seq<Symbol>, numReels: nat)

  /** The payout found on a line and the combination that produced it. */
  datatype LineResult = LineResult(payout: nat, combo: Option<ComboKey>)

  function MinMatch(target: Symbol): (m: nat)
    ensures m == 2 || m == 3
    ensures m == 2 <==> target == SEVEN
  {
    if target == SEVEN then 2 else 3
  }

  /** A cell counts towards `target` if it is the target, or the wild when the
      target is not a scatter. */
  predicate Matches(rules: LineRules, cell: Symbol, target: Symbol) {
    cell == target || (cell == rules.wild && target !in rules.scatters)
  }

  /** The length of the run of matching cells starting at cell `from`. */
  function RunFrom(rules: LineRules, line: seq<Symbol>, target: Symbol, from: nat): (r: nat)
    requires rules.numReels <= |line| && from <= rules.numReels
    decreases rules.numReels - from
    ensures from + r <= rules.numReels
    ensures forall i :: from <= i < from + r ==> Matches(rules, line[i], target)
    ensures from + r < rules.numReels ==> !Matches(rules, line[from + r], target)
  {
    if from < rules.numReels && Matches(rules, line[from], target) then 1 + RunFrom(rules, line, target, from + 1)
    else 0
  }

  /** `consecutive_count`: the run from the leftmost reel. */
  function Run(rules: LineRules, line: seq<Symbol>, target: Symbol): nat
    requires rules.numReels <= |line|
  {
    RunFrom(rules, line, target, 0)
  }

  /** The downward search from `count` to the minimum match: the first
      (largest) count that has a line pay. */
  function PayingCount(rules: LineRules, target: Symbol, count: nat): (k: Option<nat>)
    decreases count
    ensures k.Some? ==> MinMatch(target) <= k.value <= count && (target, k.value) in rules.linePays
    ensures k.Some? ==> forall c :: k.value < c <= count ==> (target, c) !in rules.linePays
    ensures k.None? ==> forall c :: MinMatch(target) <= c <= count ==> (target, c) !in rules.linePays
  {
    if count < MinMatch(target) then None
    else if (target, count) in rules.linePays then Some(count)
    else PayingCount(rules, target, count - 1)
  }

  /** The count a symbol would be paid for on this line, if any. */
  function SelectedCount(rules: LineRules, line: seq<Symbol>, target: Symbol): Option<nat>
    requires rules.numReels <= |line|
  {
    PayingCount(rules, target, Run(rules, line, target))
  }

  /** The raw payout a symbol would earn on this line on its own. */
  function SelectedPay(rules: LineRules, line: seq<Symbol>, target: Symbol): nat
    requires rules.numReels <= |line|
  {
    match SelectedCount(rules, line, target)
    case Some(k) => rules.linePays[(target, k)]
    case None => 0
  }

  /** The best result over the symbols `targets`, visited in order, where a
      symbol replaces the current best only with a strictly higher payout. */
  function BestOf(rules: LineRules, line: seq<Symbol>, targets: seq<Symbol>): (r: LineResult)
    requires rules.numReels <= |line|
    ensures r.payout == 0 <==> r.combo.None?
    ensures r.combo.Some? ==>
              var c := r.combo.value;
              && c.symbol in targets && !c.scatter
              && SelectedCount(rules, line, c.symbol) == Some(c.count)
              && r.payout == rules.linePays[(c.symbol, c.count)]
  {
    if targets == [] then LineResult(0, None)
    else
      var best := BestOf(rules, line, targets[..|targets| - 1]);
      var t := targets[|targets| - 1];
      match SelectedCount(rules, line, t)
      case None => best
      case Some(k) =>
        if rules.linePays[(t, k)] > best.payout then LineResult(rules.linePays[(t, k)], Some(ComboKey(t, k, false)))
        else best
  }

  /** No symbol would earn more on its own than the best result. */
  lemma {:induction false} BestIsMaximal(rules: LineRules, line: seq<Symbol>, targets: seq<Symbol>, t: Symbol)
    requires rules.numReels <= |line| && t in targets
    ensures SelectedPay(rules, line, t) <= BestOf(rules, line, targets).payout
  {
    var n := |targets| - 1;
    var init := targets[..n];
    BestNeverDecreases(rules, line, targets);
    if t != targets[n] {
      assert t in init;
      BestIsMaximal(rules, line, init, t);
    }
  }

  lemma BestNeverDecreases(rules: LineRules, line: seq<Symbol>, targets: seq<Symbol>)
    requires rules.numReels <= |line| && targets != []
    ensures BestOf(rules, line, targets[..|targets| - 1]).payout <= BestOf(rules, line, targets).payout
    ensures SelectedPay(rules, line, targets[|targets| - 1]) <= BestOf(rules, line, targets).payout
  {
  }

  /** Ties go to the earlier symbol: every symbol before the chosen one earns strictly less. */
  lemma {:induction false} BestIsFirstMaximal(rules: LineRules, line: seq<Symbol>, targets: seq<Symbol>)
    requires rules.numReels <= |line|
    ensures var r := BestOf(rules, line, targets);
            r.combo.Some? ==>
              exists k :: 0 <= k < |targets| && targets[k] == r.combo.value.symbol &&
                forall j :: 0 <= j < k ==> SelectedPay(rules, line, targets[j]) < r.payout
  {
    if targets != [] {
      var n := |targets| - 1;
      var init := targets[..n];
      var r := BestOf(rules, line, targets);
      var prev := BestOf(rules, line, init);
      BestIsFirstMaximal(rules, line, init);
      if r == prev {
        if r.combo.Some? {
          var k :| 0 <= k < |init| && init[k] == r.combo.value.symbol &&
                   forall j :: 0 <= j < k ==> SelectedPay(rules, line, init[j]) < r.payout;
          assert targets[k] == init[k];
          assert forall j :: 0 <= j < k ==> targets[j] == init[j];
        }
      } else {
        forall j | 0 <= j < n ensures SelectedPay(rules, line, targets[j]) < r.payout {
          assert targets[j] == init[j];
          BestIsMaximal(rules, line, init, init[j]);
        }
      }
    }
  }

  /** A line pays nothing exactly when no symbol on its own would earn a positive payout. */
  lemma NoWinIff(rules: LineRules, line: seq<Symbol>, targets: seq<Symbol>)
    requires rules.numReels <= |line|
    ensures BestOf(rules, line, targets).combo.None? <==> forall t :: t in targets ==> SelectedPay(rules, line, t) == 0
  {
    var r := BestOf(rules, line, targets);
    forall t | t in targets ensures SelectedPay(rules, line, t) <= r.payout {
      BestIsMaximal(rules, line, targets, t);
    }
  }

  /** SlotGameSimulator._check_line_win over the symbols in `order`. */
  method CheckLineWin(rules: LineRules, order: seq<Symbol>, line: seq<Symbol>) returns (payout: nat, combo: Option<ComboKey>)
    requires rules.numReels <= |line|
    ensures LineResult(payout, combo) == BestOf(rules, line, order)
  {
    payout, combo := 0, None;
    for n := 0 to |order|
      invariant LineResult(payout, combo) == BestOf(rules, line, order[..n])
    {
      assert order[..n + 1][..n] == order[..n];
      var target := order[n];
      var count := CountRun(rules, line, target);
      var m := MinMatch(target);
      var c := count;
      while c >= m
        invariant c <= count
        invariant PayingCount(rules, target, c) == SelectedCount(rules, line, target)
        decreases c
      {
        if (target, c) in rules.linePays {
          var raw := rules.linePays[(target, c)];
          if raw > payout {
            payout := raw;
            combo := Some(ComboKey(target, c, false));
          }
          break;
        }
        c := c - 1;
      }
    }
    assert order[..|order|] == order;
  }

  /** The `consecutive_count` loop: matching cells from the leftmost reel until the first miss. */
  method CountRun(rules: LineRules, line: seq<Symbol>, target: Symbol) returns (count: nat)
    requires rules.numReels <= |line|
    ensures count == Run(rules, line, target)
  {
    count := 0;
    while count < rules.numReels
      invariant count <= rules.numReels
      invariant forall k :: 0 <= k < count ==> Matches(rules, line[k], target)
    {
      if !Matches(rules, line[count], target) {
        break;
      }
      count := count + 1;
    }
  }
}
