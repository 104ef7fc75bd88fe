/** Paytable parsing: splitting the raw symbol -> {count -> payout} table into
    the line pays, the scatter pays and the set of regular (line) symbols. */
module Paytable {

  type Symbol = string

  /** A value under one key of a symbol's paytable entry: a payout, or an
      annotation such as the "note" attached to StarScatter. */
  datatype RawValue = Number(amount: nat) | Note(text: string)

  /** One symbol's entry, in the order its keys appear. */
  type SymbolData = seq<(string, RawValue)>

  /** The whole paytable, in the order its symbols appear. */
  type RawPaytable = seq<(Symbol, SymbolData)>

  predicate IsDigit(c: char) { '0' <= c <= '9' }

  /** `str.isdigit()`: non-empty and every character a decimal digit. */
  predicate IsDigits(key: string) {
    |key| > 0 && forall i :: 0 <= i < |key| ==> IsDigit(key[i])
  }

  /** `int(key)` for a string of decimal digits. */
  function DecimalValue(key: string): nat
    requires forall i :: 0 <= i < |key| ==> IsDigit(key[i])
  {
    if key == [] then 0
    else
      assert IsDigit(key[|key| - 1]);
      DecimalValue(key[..|key| - 1]) * 10 + (key[|key| - 1] as int - '0' as int)
  }

  /** Every count key of an entry holds a number (the payout arithmetic and
      comparisons of the simulator need one). */
  predicate DigitKeysNumeric(data: SymbolData) {
    forall j :: 0 <= j < |data| && IsDigits(data[j].0) ==> data[j].1.Number?
  }

  predicate NumericCounts(pt: RawPaytable) {
    forall i :: 0 <= i < |pt| ==> DigitKeysNumeric(pt[i].1)
  }

  /** The paytable and each of its entries are dictionaries: no key is
      listed twice. */
  predicate DistinctKeys(pt: RawPaytable) {
    && (forall i, j :: 0 <= i < j < |pt| ==> pt[i].0 != pt[j].0)
    && (forall i :: 0 <= i < |pt| ==> DistinctCountKeys(pt[i].1))
  }

  predicate DistinctCountKeys(data: SymbolData) {
    forall j, k :: 0 <= j < k < |data| ==> data[j].0 != data[k].0
  }

  /** Key j of `data` is a count key whose value is `count`. */
  predicate CountEntry(data: SymbolData, j: int, count: nat)
    requires 0 <= j < |data|
  {
    IsDigits(data[j].0) && DecimalValue(data[j].0) == count
  }

  /** A symbol that takes part in line evaluation. */
  predicate IsRegular(sym: Symbol, wild: Symbol, scatters: seq<Symbol>) {
    sym != wild && sym !in scatters
  }

  /** A symbol whose entry becomes a scatter count table: a listed scatter
      that is not the wild (the wild test comes first). */
  predicate IsScatter(sym: Symbol, wild: Symbol, scatters: seq<Symbol>) {
    sym != wild && sym in scatters
  }

  function KeySet(pt: RawPaytable): set<Symbol> {
    set i | 0 <= i < |pt| :: pt[i].0
  }

  function ScatterSet(scatters: seq<Symbol>): set<Symbol> {
    set s | s in scatters
  }

  // ---------------------------------------------------------------------
  // Specification: the tables as folds over the paytable, in its order
  // ---------------------------------------------------------------------

  /** `{int(k): v for k, v in data.items() if k.isdigit()}`: count keys in
      order, a later key with the same value replacing an earlier one. */
  function CountPays(data: SymbolData): map<nat, nat>
    requires DigitKeysNumeric(data)
  {
    if data == [] then map[]
    else
      var m := CountPays(data[..|data| - 1]);
      var (k, v) := data[|data| - 1];
      if IsDigits(k) then m[DecimalValue(k) := v.amount] else m
  }

  /** The line pays of one regular symbol added, in order, to `acc`. */
  function AddLinePays(sym: Symbol, data: SymbolData, acc: map<(Symbol, nat), nat>): map<(Symbol, nat), nat>
    requires DigitKeysNumeric(data)
  {
    if data == [] then acc
    else
      var m := AddLinePays(sym, data[..|data| - 1], acc);
      var (k, v) := data[|data| - 1];
      if IsDigits(k) then m[(sym, DecimalValue(k)) := v.amount] else m
  }

  function LinePays(pt: RawPaytable, wild: Symbol, scatters: seq<Symbol>): map<(Symbol, nat), nat>
    requires NumericCounts(pt)
  {
    if pt == [] then map[]
    else
      var m := LinePays(pt[..|pt| - 1], wild, scatters);
      var (sym, data) := pt[|pt| - 1];
      if IsRegular(sym, wild, scatters) then AddLinePays(sym, data, m) else m
  }

  function ScatterPays(pt: RawPaytable, wild: Symbol, scatters: seq<Symbol>): map<Symbol, map<nat, nat>>
    requires NumericCounts(pt)
  {
    if pt == [] then map[]
    else
      var m := ScatterPays(pt[..|pt| - 1], wild, scatters);
      var (sym, data) := pt[|pt| - 1];
      if IsScatter(sym, wild, scatters) then m[sym := CountPays(data)] else m
  }

  /** The paytable's keys minus the wild and the scatters. */
  function RegularSymbols(pt: RawPaytable, wild: Symbol, scatters: seq<Symbol>): set<Symbol> {
    KeySet(pt) - {wild} - ScatterSet(scatters)
  }

  // ---------------------------------------------------------------------
  // The parser (SlotGameSimulator._parse_paytable)
  // ---------------------------------------------------------------------

  method ParsePaytable(pt: RawPaytable, wild: Symbol, scatters: seq<Symbol>)
      returns (linePays: map<(Symbol, nat), nat>, scatterPays: map<Symbol, map<nat, nat>>, regular: set<Symbol>)
    requires NumericCounts(pt)
    ensures linePays == LinePays(pt, wild, scatters)
    ensures scatterPays == ScatterPays(pt, wild, scatters)
    ensures regular == RegularSymbols(pt, wild, scatters)
    ensures forall key :: key in linePays ==> key.0 in regular
    ensures scatterPays.Keys == (KeySet(pt) - {wild}) * ScatterSet(scatters)
  {
    linePays, scatterPays, regular := map[], map[], {};
    for i := 0 to |pt|
      invariant linePays == LinePays(pt[..i], wild, scatters)
      invariant scatterPays == ScatterPays(pt[..i], wild, scatters)
      invariant regular == RegularSymbols(pt[..i], wild, scatters)
    {
      assert pt[..i + 1][..i] == pt[..i];
      KeySetSnoc(pt, i);
      var (symbol, data) := pt[i];
      if symbol != wild {
        if symbol in scatters {
          scatterPays := scatterPays[symbol := CountPays(data)];
        } else {
          regular := regular + {symbol};
          ghost var before := linePays;
          for j := 0 to |data|
            invariant linePays == AddLinePays(symbol, data[..j], before)
          {
            assert data[..j + 1][..j] == data[..j];
            var (countKey, payout) := data[j];
            if IsDigits(countKey) {
              linePays := linePays[(symbol, DecimalValue(countKey)) := payout.amount];
            }
          }
          assert data[..|data|] == data;
        }
      }
    }
    assert pt[..|pt|] == pt;
    // the second pass over the keys adds nothing the first did not
    for i := 0 to |pt|
      invariant regular == RegularSymbols(pt, wild, scatters)
    {
      if IsRegular(pt[i].0, wild, scatters) {
        assert pt[i].0 in KeySet(pt);
        regular := regular + {pt[i].0};
      }
    }
    LinePaysSymbols(pt, wild, scatters);
    ScatterPaysKeys(pt, wild, scatters);
  }

  lemma KeySetSnoc(pt: RawPaytable, i: nat)
    requires i < |pt|
    ensures KeySet(pt[..i + 1]) == KeySet(pt[..i]) + {pt[i].0}
  {
    var a, b := KeySet(pt[..i + 1]), KeySet(pt[..i]) + {pt[i].0};
    forall s | s in a ensures s in b {
      var k :| 0 <= k < i + 1 && pt[..i + 1][k].0 == s;
      if k < i { assert pt[..i][k].0 == s; }
    }
    forall s | s in b ensures s in a {
      if s == pt[i].0 { assert pt[..i + 1][i].0 == s; }
      else {
        var k :| 0 <= k < i && pt[..i][k].0 == s;
        assert pt[..i + 1][k].0 == s;
      }
    }
  }

  // ---------------------------------------------------------------------
  // Properties of the parsed tables
  // ---------------------------------------------------------------------

  /** The keys of a symbol's count table are exactly the values of its
      count keys: annotation keys such as "note" contribute nothing. */
  lemma {:induction false} CountPaysDomain(data: SymbolData, count: nat)
    requires DigitKeysNumeric(data)
    ensures count in CountPays(data) <==> exists j :: 0 <= j < |data| && CountEntry(data, j, count)
    ensures count in CountPays(data) ==>
              exists j :: 0 <= j < |data| && CountEntry(data, j, count) && CountPays(data)[count] == data[j].1.amount
  {
    if data != [] {
      var init := data[..|data| - 1];
      assert forall j :: 0 <= j < |init| ==> init[j] == data[j];
      CountPaysDomain(init, count);
      var n := |data| - 1;
      if CountEntry(data, n, count) {
      } else if count in CountPays(init) {
        var j :| 0 <= j < |init| && CountEntry(init, j, count) && CountPays(init)[count] == init[j].1.amount;
        assert CountEntry(data, j, count);
      } else {
        forall j | 0 <= j < |data| ensures !CountEntry(data, j, count) {
          if j < n { assert !CountEntry(init, j, count); }
        }
      }
    }
  }

  lemma {:induction false} AddLinePaysDomain(sym: Symbol, data: SymbolData, acc: map<(Symbol, nat), nat>, key: (Symbol, nat))
    requires DigitKeysNumeric(data)
    ensures key in AddLinePays(sym, data, acc) <==>
              key in acc || (key.0 == sym && exists j :: 0 <= j < |data| && CountEntry(data, j, key.1))
    ensures key in AddLinePays(sym, data, acc) ==>
              (key in acc && AddLinePays(sym, data, acc)[key] == acc[key]) ||
              (key.0 == sym && exists j :: 0 <= j < |data| && CountEntry(data, j, key.1) && AddLinePays(sym, data, acc)[key] == data[j].1.amount)
  {
    if data != [] {
      var init := data[..|data| - 1];
      assert forall j :: 0 <= j < |init| ==> init[j] == data[j];
      AddLinePaysDomain(sym, init, acc, key);
      var n := |data| - 1;
      if key.0 == sym && CountEntry(data, n, key.1) {
      } else if key in AddLinePays(sym, init, acc) {
        if !(key in acc && AddLinePays(sym, init, acc)[key] == acc[key]) {
          var j :| 0 <= j < |init| && CountEntry(init, j, key.1) && AddLinePays(sym, init, acc)[key] == init[j].1.amount;
          assert CountEntry(data, j, key.1);
        }
      } else {
        forall j | 0 <= j < |data| && key.0 == sym ensures !CountEntry(data, j, key.1) {
          if j < n { assert !CountEntry(init, j, key.1); }
        }
      }
    }
  }

  /** Entry (i, j) of the paytable is a count key of symbol `key.0` with count `key.1`. */
  predicate LineEntry(pt: RawPaytable, i: int, j: int, key: (Symbol, nat))
  {
    0 <= i < |pt| && pt[i].0 == key.0 && 0 <= j < |pt[i].1| && CountEntry(pt[i].1, j, key.1)
  }

  /** A (symbol, count) pair has a line pay exactly when the symbol is
      neither the wild nor a scatter and some count key of that symbol
      reads as that count; its payout is the value under one such key. */
  lemma {:induction false} LinePaysDomain(pt: RawPaytable, wild: Symbol, scatters: seq<Symbol>, key: (Symbol, nat))
    requires NumericCounts(pt)
    ensures key in LinePays(pt, wild, scatters) <==>
              IsRegular(key.0, wild, scatters) && exists i, j :: LineEntry(pt, i, j, key)
    ensures key in LinePays(pt, wild, scatters) ==>
              exists i, j :: LineEntry(pt, i, j, key) && LinePays(pt, wild, scatters)[key] == pt[i].1[j].1.amount
  {
    if pt != [] {
      var init := pt[..|pt| - 1];
      assert forall i :: 0 <= i < |init| ==> init[i] == pt[i];
      LinePaysDomain(init, wild, scatters, key);
      var n := |pt| - 1;
      var (sym, data) := pt[n];
      var before := LinePays(init, wild, scatters);
      if IsRegular(sym, wild, scatters) {
        AddLinePaysDomain(sym, data, before, key);
      }
      if key in LinePays(pt, wild, scatters) {
        if IsRegular(sym, wild, scatters) && !(key in before && AddLinePays(sym, data, before)[key] == before[key]) {
          var j :| 0 <= j < |data| && CountEntry(data, j, key.1) && AddLinePays(sym, data, before)[key] == data[j].1.amount;
          assert LineEntry(pt, n, j, key);
        } else {
          var i, j :| LineEntry(init, i, j, key) && before[key] == init[i].1[j].1.amount;
          assert LineEntry(pt, i, j, key);
        }
      } else {
        forall i, j | LineEntry(pt, i, j, key) && IsRegular(key.0, wild, scatters) ensures false {
          if i < n { assert LineEntry(init, i, j, key); }
        }
      }
    }
  }

  /** Every symbol with a line pay is a regular symbol: never the wild and never a scatter. */
  lemma LinePaysSymbols(pt: RawPaytable, wild: Symbol, scatters: seq<Symbol>)
    requires NumericCounts(pt)
    ensures forall key :: key in LinePays(pt, wild, scatters) ==> key.0 in RegularSymbols(pt, wild, scatters)
  {
    forall key | key in LinePays(pt, wild, scatters) ensures key.0 in RegularSymbols(pt, wild, scatters) {
      LinePaysDomain(pt, wild, scatters, key);
      var i, j :| LineEntry(pt, i, j, key);
      assert pt[i].0 in KeySet(pt);
    }
  }

  /** The scatter table has an entry for exactly the scatter symbols (other than the wild) the paytable lists. */
  lemma {:induction false} ScatterPaysKeys(pt: RawPaytable, wild: Symbol, scatters: seq<Symbol>)
    requires NumericCounts(pt)
    ensures ScatterPays(pt, wild, scatters).Keys == (KeySet(pt) - {wild}) * ScatterSet(scatters)
  {
    if pt != [] {
      var n := |pt| - 1;
      ScatterPaysKeys(pt[..n], wild, scatters);
      assert pt[..n + 1] == pt;
      KeySetSnoc(pt, n);
    }
  }

  /** Each scatter symbol's table is the count table of one of its paytable entries. */
  lemma {:induction false} ScatterPaysFromEntry(pt: RawPaytable, wild: Symbol, scatters: seq<Symbol>, sym: Symbol)
    requires NumericCounts(pt)
    requires sym in ScatterPays(pt, wild, scatters)
    ensures exists i :: 0 <= i < |pt| && pt[i].0 == sym && ScatterPays(pt, wild, scatters)[sym] == CountPays(pt[i].1)
  {
    var n := |pt| - 1;
    if pt[n].0 == sym && IsScatter(sym, wild, scatters) {
    } else {
      ScatterPaysFromEntry(pt[..n], wild, scatters, sym);
      var i :| 0 <= i < n && pt[..n][i].0 == sym && ScatterPays(pt[..n], wild, scatters)[sym] == CountPays(pt[..n][i].1);
    }
  }
}
