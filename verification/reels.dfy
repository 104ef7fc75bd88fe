/** The visible screen: reading three rows from each circular strip, the ten
    fixed paylines, and the expanding-wild screen derived for line evaluation. */
module Reels {
  import opened Paytable

  /** Rows shown per reel (fixed for the 5x3 game). */
  const NUM_ROWS: nat := 3

  type Column = seq<Symbol>
  /** Column i of a screen is what reel i shows, top row first. */
  type Screen = seq<Column>
  /** A payline lists (reel index, row index) pairs, left to right. */
  type Payline = seq<(nat, nat)>

  predicate ValidStops(strips: seq<seq<Symbol>>, stops: seq<nat>) {
    |stops| == |strips| && forall i :: 0 <= i < |strips| ==> stops[i] < |strips[i]|
  }

  /** Every column has exactly NUM_ROWS cells. */
  predicate IsScreen(screen: Screen) {
    forall i :: 0 <= i < |screen| ==> |screen[i]| == NUM_ROWS
  }

  /** Cell `k` of a circular strip of `n` cells, counting on past the end:
      `k % n`, reached by stepping back one strip length at a time. */
  function Wrap(k: nat, n: nat): (pos: nat)
    requires n > 0
    ensures pos < n
  {
    if k < n then k else Wrap(k - n, n)
  }

  /** Wrap is the remainder of k divided by n. */
  lemma WrapIsMod(k: nat, n: nat)
    requires n > 0
    ensures Wrap(k, n) == k % n
  {
    var q := WrapSteps(k, n);
    ModUnique(k, n, q, Wrap(k, n));
  }

  /** Wrap steps back a whole number q of strip lengths. */
  lemma {:induction false} WrapSteps(k: nat, n: nat) returns (q: nat)
    requires n > 0
    ensures k == q * n + Wrap(k, n)
  {
    if k < n {
      q := 0;
    } else {
      var q' := WrapSteps(k - n, n);
      q := q' + 1;
      assert q * n == q' * n + n;
    }
  }

  /** Division with remainder is unique: x == q * n + r with 0 <= r < n fixes r. */
  lemma ModUnique(x: nat, n: nat, q: nat, r: nat)
    requires 0 < n && 0 <= r < n && x == q * n + r
    ensures x % n == r
  {
    var d := x / n;
    assert x == d * n + x % n;
    if d < q {
      assert d * n <= (q - 1) * n by { MulMonotone(d, q - 1, n); }
    } else if d > q {
      assert (q + 1) * n <= d * n by { MulMonotone(q + 1, d, n); }
    }
  }

  lemma MulMonotone(a: int, b: int, n: nat)
    requires a <= b
    ensures a * n <= b * n
  {
  }

  /** The visible screen for the given stop positions: reel i shows the
      NUM_ROWS symbols of its strip from its stop onwards, wrapping at the end. */
  function SpinReels(strips: seq<seq<Symbol>>, stops: seq<nat>): (screen: Screen)
    requires ValidStops(strips, stops)
    ensures |screen| == |strips| && IsScreen(screen)
  {
    seq(|strips|, i requires 0 <= i < |strips| =>
      seq(NUM_ROWS, j requires 0 <= j < NUM_ROWS => strips[i][Wrap(stops[i] + j, |strips[i]|)]))
  }

  /** Reel i shows cell (stop + row) % len(strip) of its strip in each row,
      so every visible symbol is on its own reel's strip. */
  lemma SpinReelsCell(strips: seq<seq<Symbol>>, stops: seq<nat>, i: nat, j: nat)
    requires ValidStops(strips, stops) && i < |strips| && j < NUM_ROWS
    ensures SpinReels(strips, stops)[i][j] == strips[i][(stops[i] + j) % |strips[i]|]
    ensures SpinReels(strips, stops)[i][j] in strips[i]
  {
    WrapIsMod(stops[i] + j, |strips[i]|);
  }

  /** The window of a reel is a slice of its strip written out three times:
      reading past the end continues at the start of the strip. */
  lemma WindowIsSliceOfRepeatedStrip(strips: seq<seq<Symbol>>, stops: seq<nat>, i: nat)
    requires ValidStops(strips, stops) && i < |strips|
    ensures var strip := strips[i];
            SpinReels(strips, stops)[i] == (strip + strip + strip)[stops[i] .. stops[i] + NUM_ROWS]
  {
    var strip, s := strips[i], stops[i];
    var n := |strip|;
    var tripled := strip + strip + strip;
    var col := SpinReels(strips, stops)[i];
    forall j | 0 <= j < NUM_ROWS ensures col[j] == tripled[s + j] {
      var x := s + j;
      if x < n {
        assert Wrap(x, n) == x;
      } else if x < 2 * n {
        assert Wrap(x, n) == Wrap(x - n, n) == x - n;
      } else {
        assert Wrap(x, n) == Wrap(x - n, n) == Wrap(x - 2 * n, n) == x - 2 * n;
      }
    }
  }

  /** The ten fixed paylines; coordinate k of every line lies on reel k. */
  function Paylines(): (lines: seq<Payline>)
    ensures |lines| == 10
    ensures forall l, k :: 0 <= l < |lines| && 0 <= k < |lines[l]| ==> lines[l][k].0 == k && lines[l][k].1 < NUM_ROWS
    ensures forall l :: 0 <= l < |lines| ==> |lines[l]| == 5
  {
    [ [(0, 1), (1, 1), (2, 1), (3, 1), (4, 1)],
      [(0, 0), (1, 0), (2, 0), (3, 0), (4, 0)],
      [(0, 2), (1, 2), (2, 2), (3, 2), (4, 2)],
      [(0, 0), (1, 1), (2, 2), (3, 1), (4, 0)],
      [(0, 2), (1, 1), (2, 0), (3, 1), (4, 2)],
      [(0, 0), (1, 0), (2, 1), (3, 2), (4, 2)],
      [(0, 2), (1, 2), (2, 1), (3, 0), (4, 0)],
      [(0, 1), (1, 2), (2, 2), (3, 2), (4, 1)],
      [(0, 1), (1, 0), (2, 0), (3, 0), (4, 1)],
      [(0, 0), (1, 1), (2, 1), (3, 1), (4, 0)] ]
  }

  /** The symbols a payline reads from a screen, left to right. */
  function LineSymbols(screen: Screen, line: Payline): (symbols: seq<Symbol>)
    requires IsScreen(screen)
    requires forall k :: 0 <= k < |line| ==> line[k].0 < |screen| && line[k].1 < NUM_ROWS
    ensures |symbols| == |line|
    ensures forall k :: 0 <= k < |line| ==> symbols[k] in screen[line[k].0]
  {
    seq(|line|, k requires 0 <= k < |line| => screen[line[k].0][line[k].1])
  }

  // ---------------------------------------------------------------------
  // Expanding wilds
  // ---------------------------------------------------------------------

  /** A column holding the wild becomes all wild; any other stays as it is. */
  function ExpandedColumn(col: Column, wild: Symbol): Column {
    if wild in col then seq(|col|, _ => wild) else col
  }

  /** The screen used for line evaluation: every reel listed in `wildReels`
      whose column shows the wild is filled with the wild. */
  function Expanded(screen: Screen, wild: Symbol, wildReels: seq<int>): Screen {
    seq(|screen|, i requires 0 <= i < |screen| =>
      if i in wildReels then ExpandedColumn(screen[i], wild) else screen[i])
  }

  predicate ReelIndices(reels: seq<int>, numReels: nat) {
    forall k :: 0 <= k < |reels| ==> 0 <= reels[k] < numReels
  }

  /** SlotGameSimulator._apply_expanding_wilds: copies the screen and, reel by
      listed reel, overwrites every row of a column that shows the wild. */
  method ExpandWilds(screen: Screen, wild: Symbol, wildReels: seq<int>) returns (expanded: Screen)
    requires IsScreen(screen) && ReelIndices(wildReels, |screen|)
    ensures expanded == Expanded(screen, wild, wildReels)
    ensures |expanded| == |screen| && IsScreen(expanded)
    ensures forall i :: 0 <= i < |screen| && i !in wildReels ==> expanded[i] == screen[i]
    ensures forall i :: 0 <= i < |screen| && wild !in screen[i] ==> expanded[i] == screen[i]
    ensures forall i, j :: 0 <= i < |screen| && i in wildReels && wild in screen[i] && 0 <= j < NUM_ROWS ==>
              expanded[i][j] == wild
  {
    expanded := screen;
    for k := 0 to |wildReels|
      invariant |expanded| == |screen|
      invariant forall i :: 0 <= i < |screen| ==>
                  expanded[i] == if i in wildReels[..k] then ExpandedColumn(screen[i], wild) else screen[i]
    {
      var r := wildReels[k];
      assert wildReels[..k + 1] == wildReels[..k] + [r];
      if wild in expanded[r] {
        assert wild in screen[r];
        for row := 0 to NUM_ROWS
          invariant |expanded| == |screen|
          invariant |expanded[r]| == NUM_ROWS
          invariant forall j :: 0 <= j < row ==> expanded[r][j] == wild
          invariant forall j :: row <= j < NUM_ROWS ==> expanded[r][j] == ColumnSoFar(screen, r, wild, wildReels[..k])[j]
          invariant forall i :: 0 <= i < |screen| && i != r ==>
                      expanded[i] == if i in wildReels[..k] then ExpandedColumn(screen[i], wild) else screen[i]
        {
          expanded := expanded[r := expanded[r][row := wild]];
        }
        assert expanded[r] == ExpandedColumn(screen[r], wild);
      }
    }
    assert wildReels[..|wildReels|] == wildReels;
  }

  /** Column r as the expansion loop finds it after handling the reels in `seen`. */
  function ColumnSoFar(screen: Screen, r: nat, wild: Symbol, seen: seq<int>): Column
    requires r < |screen|
  {
    if r in seen then ExpandedColumn(screen[r], wild) else screen[r]
  }

  /** Expanding an already expanded screen changes nothing. */
  lemma ExpandIdempotent(screen: Screen, wild: Symbol, wildReels: seq<int>)
    ensures Expanded(Expanded(screen, wild, wildReels), wild, wildReels) == Expanded(screen, wild, wildReels)
  {
    var once := Expanded(screen, wild, wildReels);
    forall i | 0 <= i < |screen| && i in wildReels
      ensures ExpandedColumn(once[i], wild) == once[i]
    {
      if wild in screen[i] {
        assert once[i][0] == wild;
      }
    }
  }
}
