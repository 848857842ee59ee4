/** `combineWithRoi` (src/strategy/combineWithRoi.ts): combine input strategies by
    AND or OR, then run the ROI / DCA wrapper over the combination. */
module CombineWithRoi {
  import opened Wrappers
  import opened Types
  import opened Combined
  import opened Basic

  datatype CombineOp = AndOp | OrOp

  /** The optional settings; an absent field takes its default. */
  datatype CombineWithRoiOptions = CombineWithRoiOptions(
    op: Option<CombineOp>,
    targetRoi: Option<real>,
    dcaThreshold: Option<real>)

  datatype Settings = Settings(op: CombineOp, targetRoi: real, dcaThreshold: real)

  /** Defaults: OR, a 5% target and a -25% averaging threshold. */
  function Resolve(opts: CombineWithRoiOptions): (s: Settings)
    ensures s.op == opts.op.GetOr(OrOp)
    ensures s.targetRoi == opts.targetRoi.GetOr(5.0)
    ensures s.dcaThreshold == opts.dcaThreshold.GetOr(-25.0)
    ensures opts == CombineWithRoiOptions(None, None, None) ==> s == Settings(OrOp, 5.0, -25.0)
  {
    Settings(opts.op.GetOr(OrOp), opts.targetRoi.GetOr(5.0), opts.dcaThreshold.GetOr(-25.0))
  }

  /** The combination the wrapper runs over. */
  function BaseOf(bars: nat, strategies: seq<Strategy>, op: CombineOp): (r: Strategy)
    ensures r.length == bars == |r.longStrategy| == |r.shortStrategy|
  {
    if op == AndOp then AndOf(bars, strategies) else OrOf(bars, strategies)
  }

  /** The strategy `combineWithRoi` returns. */
  function CombinedWithRoi(closings: seq<real>, strategies: seq<Strategy>, opts: CombineWithRoiOptions)
    : (r: Strategy)
    ensures r.length == |closings| == |r.longStrategy| == |r.shortStrategy|
  {
    var s := Resolve(opts);
    var base := BaseOf(|closings|, strategies, s.op);
    var st := RoiRun(closings, base, s.targetRoi, s.dcaThreshold, |closings|);
    Strategy(st.long, st.short, base.length)
  }

  method CombineWithRoiStrategy(closings: seq<real>, strategies: seq<Strategy>, opts: CombineWithRoiOptions)
    returns (r: Strategy)
    ensures r == CombinedWithRoi(closings, strategies, opts)
  {
    var s := Resolve(opts);
    var base;
    if s.op == AndOp {
      base := AndStrategy(closings, strategies);
    } else {
      base := OrStrategy(closings, strategies);
    }
    r := RoiStrategy(closings, base, s.targetRoi, s.dcaThreshold);
  }

  /** The wrapper leaves bar 0 as the combination decided it. */
  lemma FirstBarIsCombination(closings: seq<real>, strategies: seq<Strategy>, opts: CombineWithRoiOptions)
    requires |closings| > 0
    ensures var base := BaseOf(|closings|, strategies, Resolve(opts).op);
            var r := CombinedWithRoi(closings, strategies, opts);
            r.longStrategy[0] == base.longStrategy[0] && r.shortStrategy[0] == base.shortStrategy[0]
  {
    var s := Resolve(opts);
    RoiRunShape(closings, BaseOf(|closings|, strategies, s.op), s.targetRoi, s.dcaThreshold, |closings|);
  }

  const LongAtOne := Strategy([Hold, Buy, Hold], [Hold, Hold, Hold], 3)
  const ShortAtZero := Strategy([Hold, Hold, Hold], [Buy, Hold, Hold], 3)

  /** The OR of the first test scenario's inputs. */
  lemma OrScenarioBase()
    ensures OrOf(3, [LongAtOne, ShortAtZero]) == Strategy([Hold, Buy, Hold], [Buy, Hold, Hold], 3)
  {
    var r := OrOf(3, [LongAtOne, ShortAtZero]);
    forall i | 0 <= i < 3
      ensures r.longStrategy[i] == [Hold, Buy, Hold][i] && r.shortStrategy[i] == [Buy, Hold, Hold][i]
    {
      CombineTwo(3, LongAtOne, ShortAtZero, i);
      TwoInputs(LongAtOne.longStrategy, ShortAtZero.longStrategy, i);
      TwoInputs(LongAtOne.shortStrategy, ShortAtZero.shortStrategy, i);
    }
  }

  /** The AND of the second test scenario's inputs. */
  lemma AndScenarioBase()
    ensures AndOf(3, [LongAtOne, LongAtOne]) == Strategy([Hold, Buy, Hold], [Hold, Hold, Hold], 3)
  {
    var r := AndOf(3, [LongAtOne, LongAtOne]);
    forall i | 0 <= i < 3
      ensures r.longStrategy[i] == [Hold, Buy, Hold][i] && r.shortStrategy[i] == Hold
    {
      CombineTwo(3, LongAtOne, LongAtOne, i);
      TwoInputs(LongAtOne.longStrategy, LongAtOne.longStrategy, i);
      TwoInputs(LongAtOne.shortStrategy, LongAtOne.shortStrategy, i);
    }
  }

  /** A long entry at bar 1 at 100 followed by 106 takes the profit at bar 2. */
  lemma RoiOverLongEntry(shortColumn: seq<Action>)
    requires |shortColumn| == 3
    ensures var st := RoiRun([100.0, 100.0, 106.0], Strategy([Hold, Buy, Hold], shortColumn, 3), 5.0, -25.0, 3);
            st.long[1] == Buy && st.long[2] == Sell
  {
    var base := Strategy([Hold, Buy, Hold], shortColumn, 3);
    var xs := [100.0, 100.0, 106.0];
    var s1 := RoiRun(xs, base, 5.0, -25.0, 2);
    assert RoiRun(xs, base, 5.0, -25.0, 1) == RoiInit(base);
    assert s1 == RoiStep(RoiInit(base), base, 100.0, 1, 5.0, -25.0);
    assert s1.inTrade && s1.tradeDirection == 1 && s1.entryPrice == Some(100.0) && s1.long[1] == Buy;
    RoiLongTakesProfit(s1, base, 106.0, 2, 5.0, -25.0);
  }

  /** Test scenario: a long entry at bar 1 OR a short entry at bar 0, over
      closes 100, 100, 106: the wrapper takes the 6% profit at bar 2. */
  lemma OrScenario()
    ensures CombinedWithRoi([100.0, 100.0, 106.0], [LongAtOne, ShortAtZero],
                            CombineWithRoiOptions(Some(OrOp), Some(5.0), Some(-25.0))).longStrategy[2] == Sell
  {
    OrScenarioBase();
    RoiOverLongEntry([Buy, Hold, Hold]);
  }

  /** Test scenario: two long entries at bar 1 combined by AND: BUY at bar 1,
      SELL at bar 2, three bars long. */
  lemma AndScenario()
    ensures var r := CombinedWithRoi([100.0, 100.0, 106.0], [LongAtOne, LongAtOne],
                                     CombineWithRoiOptions(Some(AndOp), Some(5.0), Some(-25.0)));
            r.length == 3 && r.longStrategy[1] == Buy && r.longStrategy[2] == Sell
  {
    AndScenarioBase();
    RoiOverLongEntry([Hold, Hold, Hold]);
  }
}
