/** Signal combinators (src/strategy/combined.ts): each allocates HOLD columns,
    one cell per closing of the asset, and fills them bar by bar from its inputs.
    A cell an input lacks (`undefined` in the source) matches no action. */
module Combined {
  import opened Wrappers
  import opened Types

  /** One side's column of every input strategy, in input order. */
  function Columns(strategies: seq<Strategy>, side: PosSide): (cols: seq<seq<Action>>)
    ensures |cols| == |strategies|
    ensures forall k :: 0 <= k < |cols| ==> cols[k] == Column(strategies[k], side)
  {
    seq(|strategies|, k requires 0 <= k < |strategies| => Column(strategies[k], side))
  }

  /** `every(c => c[i] === a)`. */
  predicate Every(cols: seq<seq<Action>>, i: int, a: Action) {
    forall k :: 0 <= k < |cols| ==> Cell(cols[k], i) == Some(a)
  }

  /** `some(c => c[i] === a)`. */
  predicate Any(cols: seq<seq<Action>>, i: int, a: Action) {
    exists k :: 0 <= k < |cols| && Cell(cols[k], i) == Some(a)
  }

  /** The AND of one bar: BUY if all inputs buy, else SELL if all sell, else HOLD. */
  function AndCell(cols: seq<seq<Action>>, i: int): (a: Action)
    ensures a == Buy <==> Every(cols, i, Buy)
    ensures cols != [] ==> (a == Sell <==> Every(cols, i, Sell))
    ensures a == Hold <==> !Every(cols, i, Buy) && !Every(cols, i, Sell)
  {
    assert cols != [] && Every(cols, i, Sell) ==> Cell(cols[0], i) == Some(Sell);
    if Every(cols, i, Buy) then Buy else if Every(cols, i, Sell) then Sell else Hold
  }

  /** The OR of one bar: BUY if some input buys, else SELL if some sells, else HOLD. */
  function OrCell(cols: seq<seq<Action>>, i: int): (a: Action)
    ensures a == Buy <==> Any(cols, i, Buy)
    ensures a == Sell <==> !Any(cols, i, Buy) && Any(cols, i, Sell)
    ensures cols == [] ==> a == Hold
  {
    if Any(cols, i, Buy) then Buy else if Any(cols, i, Sell) then Sell else Hold
  }

  /** Entry/exit of one bar: BUY from the entry column, else SELL from the exit column. */
  function EntryExitCell(entry: seq<Action>, exit: seq<Action>, i: int): (a: Action)
    ensures a == Buy <==> Cell(entry, i) == Some(Buy)
    ensures a == Sell <==> Cell(entry, i) != Some(Buy) && Cell(exit, i) == Some(Sell)
  {
    if Cell(entry, i) == Some(Buy) then Buy else if Cell(exit, i) == Some(Sell) then Sell else Hold
  }

  /** The AND of the inputs over `bars` bars, column by column. */
  function AndOf(bars: nat, strategies: seq<Strategy>): (r: Strategy)
    ensures r.length == bars == |r.longStrategy| == |r.shortStrategy|
  {
    Strategy(seq(bars, i => AndCell(Columns(strategies, Long), i)),
             seq(bars, i => AndCell(Columns(strategies, Short), i)), bars)
  }

  /** The OR of the inputs over `bars` bars, column by column. */
  function OrOf(bars: nat, strategies: seq<Strategy>): (r: Strategy)
    ensures r.length == bars == |r.longStrategy| == |r.shortStrategy|
  {
    Strategy(seq(bars, i => OrCell(Columns(strategies, Long), i)),
             seq(bars, i => OrCell(Columns(strategies, Short), i)), bars)
  }

  method AndStrategy(closings: seq<real>, strategies: seq<Strategy>) returns (r: Strategy)
    ensures r == AndOf(|closings|, strategies)
    ensures r.length == |closings| == |r.longStrategy| == |r.shortStrategy|
    ensures forall i :: 0 <= i < |closings| ==> r.longStrategy[i] == AndCell(Columns(strategies, Long), i)
    ensures forall i :: 0 <= i < |closings| ==> r.shortStrategy[i] == AndCell(Columns(strategies, Short), i)
  {
    var length := |closings|;
    var longs := new Action[length](_ => Hold);
    var shorts := new Action[length](_ => Hold);
    var longCols, shortCols := Columns(strategies, Long), Columns(strategies, Short);
    for i := 0 to length
      invariant forall j :: 0 <= j < i ==> longs[j] == AndCell(longCols, j) && shorts[j] == AndCell(shortCols, j)
    {
      var longBuy := Every(longCols, i, Buy);
      var longSell := Every(longCols, i, Sell);
      var shortBuy := Every(shortCols, i, Buy);
      var shortSell := Every(shortCols, i, Sell);
      if longBuy {
        longs[i] := Buy;
      } else if longSell {
        longs[i] := Sell;
      } else {
        longs[i] := Hold;
      }
      assert longs[i] == AndCell(longCols, i);
      if shortBuy {
        shorts[i] := Buy;
      } else if shortSell {
        shorts[i] := Sell;
      } else {
        shorts[i] := Hold;
      }
      assert shorts[i] == AndCell(shortCols, i);
    }
    r := Strategy(longs[..], shorts[..], length);
  }

  method OrStrategy(closings: seq<real>, strategies: seq<Strategy>) returns (r: Strategy)
    ensures r == OrOf(|closings|, strategies)
    ensures r.length == |closings| == |r.longStrategy| == |r.shortStrategy|
    ensures forall i :: 0 <= i < |closings| ==> r.longStrategy[i] == OrCell(Columns(strategies, Long), i)
    ensures forall i :: 0 <= i < |closings| ==> r.shortStrategy[i] == OrCell(Columns(strategies, Short), i)
  {
    var length := |closings|;
    var longs := new Action[length](_ => Hold);
    var shorts := new Action[length](_ => Hold);
    var longCols, shortCols := Columns(strategies, Long), Columns(strategies, Short);
    for i := 0 to length
      invariant forall j :: 0 <= j < i ==> longs[j] == OrCell(longCols, j) && shorts[j] == OrCell(shortCols, j)
    {
      var longBuy := Any(longCols, i, Buy);
      var longSell := Any(longCols, i, Sell);
      var shortBuy := Any(shortCols, i, Buy);
      var shortSell := Any(shortCols, i, Sell);
      if longBuy {
        longs[i] := Buy;
      } else if longSell {
        longs[i] := Sell;
      } else {
        longs[i] := Hold;
      }
      if shortBuy {
        shorts[i] := Buy;
      } else if shortSell {
        shorts[i] := Sell;
      } else {
        shorts[i] := Hold;
      }
    }
    r := Strategy(longs[..], shorts[..], length);
  }

  method AndEntryExitStrategy(closings: seq<real>, strategyEntry: Strategy, strategyExit: Strategy)
    returns (r: Strategy)
    ensures r.length == |closings| == |r.longStrategy| == |r.shortStrategy|
    ensures forall i :: 0 <= i < |closings| ==>
              r.longStrategy[i] == EntryExitCell(strategyEntry.longStrategy, strategyExit.longStrategy, i)
    ensures forall i :: 0 <= i < |closings| ==>
              r.shortStrategy[i] == EntryExitCell(strategyEntry.shortStrategy, strategyExit.shortStrategy, i)
  {
    var length := |closings|;
    var longs := new Action[length](_ => Hold);
    var shorts := new Action[length](_ => Hold);
    for i := 0 to length
      invariant forall j :: 0 <= j < i ==>
                  longs[j] == EntryExitCell(strategyEntry.longStrategy, strategyExit.longStrategy, j)
                  && shorts[j] == EntryExitCell(strategyEntry.shortStrategy, strategyExit.shortStrategy, j)
    {
      var longBuy := Cell(strategyEntry.longStrategy, i) == Some(Buy);
      var longSell := Cell(strategyExit.longStrategy, i) == Some(Sell);
      var shortBuy := Cell(strategyEntry.shortStrategy, i) == Some(Buy);
      var shortSell := Cell(strategyExit.shortStrategy, i) == Some(Sell);
      if longBuy {
        longs[i] := Buy;
      } else if longSell {
        longs[i] := Sell;
      } else {
        longs[i] := Hold;
      }
      if shortBuy {
        shorts[i] := Buy;
      } else if shortSell {
        shorts[i] := Sell;
      } else {
        shorts[i] := Hold;
      }
    }
    r := Strategy(longs[..], shorts[..], length);
  }

  // ----- properties of the combinators -----

  /** Without inputs `every` holds vacuously and `some` never: AND buys on every
      bar and OR holds on every bar. */
  lemma NoInputs(i: int)
    ensures AndCell([], i) == Buy
    ensures OrCell([], i) == Hold
  {
  }

  /** Combining a single input, by AND or by OR, gives that input back (a
      missing cell reads as HOLD). */
  lemma SingleInput(col: seq<Action>, i: int)
    ensures AndCell([col], i) == Cell(col, i).GetOr(Hold)
    ensures OrCell([col], i) == Cell(col, i).GetOr(Hold)
  {
    assert [col][0] == col;
    assert Every([col], i, Buy) <==> Cell(col, i) == Some(Buy);
    assert Every([col], i, Sell) <==> Cell(col, i) == Some(Sell);
  }

  /** On a non-empty input list, whatever AND decides OR decides too. */
  lemma AndImpliesOr(cols: seq<seq<Action>>, i: int)
    requires cols != []
    ensures AndCell(cols, i) != Hold ==> OrCell(cols, i) == AndCell(cols, i)
  {
    if Every(cols, i, Sell) {
      assert Cell(cols[0], i) == Some(Sell);
      forall k | 0 <= k < |cols|
        ensures Cell(cols[k], i) != Some(Buy)
      {
      }
    } else if Every(cols, i, Buy) {
      assert Cell(cols[0], i) == Some(Buy);
    }
  }

  /** In OR one buying input wins over any number of selling ones. */
  lemma OrBuyWins(cols: seq<seq<Action>>, i: int, k: nat)
    requires k < |cols| && Cell(cols[k], i) == Some(Buy)
    ensures OrCell(cols, i) == Buy
  {
  }

  /** In AND a single dissenting input turns the cell to HOLD. */
  lemma AndDissentHolds(cols: seq<seq<Action>>, i: int, k: nat, l: nat)
    requires k < |cols| && l < |cols|
    requires Cell(cols[k], i) != Some(Buy) && Cell(cols[l], i) != Some(Sell)
    ensures AndCell(cols, i) == Hold
  {
  }

  /** AND and OR of two inputs, spelled out. */
  lemma TwoInputs(c1: seq<Action>, c2: seq<Action>, i: int)
    ensures AndCell([c1, c2], i) == if Cell(c1, i) == Some(Buy) && Cell(c2, i) == Some(Buy) then Buy
                                    else if Cell(c1, i) == Some(Sell) && Cell(c2, i) == Some(Sell) then Sell
                                    else Hold
    ensures OrCell([c1, c2], i) == if Cell(c1, i) == Some(Buy) || Cell(c2, i) == Some(Buy) then Buy
                                   else if Cell(c1, i) == Some(Sell) || Cell(c2, i) == Some(Sell) then Sell
                                   else Hold
  {
    var cols := [c1, c2];
    assert cols[0] == c1 && cols[1] == c2;
    assert Every(cols, i, Buy) <==> Cell(c1, i) == Some(Buy) && Cell(c2, i) == Some(Buy);
    assert Every(cols, i, Sell) <==> Cell(c1, i) == Some(Sell) && Cell(c2, i) == Some(Sell);
    assert Any(cols, i, Buy) <==> Cell(c1, i) == Some(Buy) || Cell(c2, i) == Some(Buy);
    assert Any(cols, i, Sell) <==> Cell(c1, i) == Some(Sell) || Cell(c2, i) == Some(Sell);
  }

  /** A bar of the AND or of the OR of two strategies, read from their columns. */
  lemma CombineTwo(bars: nat, s1: Strategy, s2: Strategy, i: nat)
    requires i < bars
    ensures AndOf(bars, [s1, s2]).longStrategy[i] == AndCell([s1.longStrategy, s2.longStrategy], i)
    ensures AndOf(bars, [s1, s2]).shortStrategy[i] == AndCell([s1.shortStrategy, s2.shortStrategy], i)
    ensures OrOf(bars, [s1, s2]).longStrategy[i] == OrCell([s1.longStrategy, s2.longStrategy], i)
    ensures OrOf(bars, [s1, s2]).shortStrategy[i] == OrCell([s1.shortStrategy, s2.shortStrategy], i)
  {
    assert Columns([s1, s2], Long) == [s1.longStrategy, s2.longStrategy];
    assert Columns([s1, s2], Short) == [s1.shortStrategy, s2.shortStrategy];
  }

  /** Using one strategy for both entry and exit gives it back. */
  lemma EntryExitSame(col: seq<Action>, i: int)
    ensures EntryExitCell(col, col, i) == Cell(col, i).GetOr(Hold)
    ensures EntryExitCell(col, col, i) == AndCell([col], i)
  {
    SingleInput(col, i);
  }
}
