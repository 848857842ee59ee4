/** `macdMomentumDcaStrategy` (src/strategy/macdMomentumDca.ts): the MACD cross
    strategy, optionally without short entries, under the ROI / DCA wrapper.
    The MACD result the source computes with the fast, slow and signal lengths is
    a parameter here. */
module MacdMomentumDca {
  import opened Wrappers
  import opened Types
  import opened Basic

  /** The optional settings; an absent field takes its default. */
  datatype MacdMomentumDcaOptions = MacdMomentumDcaOptions(
    fast: Option<int>,
    slow: Option<int>,
    signal: Option<int>,
    takeProfitRoiPct: Option<real>,
    dcaThresholdRoiPct: Option<real>,
    allowShort: Option<bool>)

  datatype Settings = Settings(
    fast: int, slow: int, signal: int, takeProfitRoiPct: real, dcaThresholdRoiPct: real, allowShort: bool)

  /** Defaults: MACD 12 / 26 / 9, a 5% take-profit, a -25% averaging threshold,
      shorts allowed. */
  function Resolve(opts: MacdMomentumDcaOptions): (s: Settings)
    ensures s.fast == opts.fast.GetOr(12) && s.slow == opts.slow.GetOr(26) && s.signal == opts.signal.GetOr(9)
    ensures s.takeProfitRoiPct == opts.takeProfitRoiPct.GetOr(5.0)
    ensures s.dcaThresholdRoiPct == opts.dcaThresholdRoiPct.GetOr(-25.0)
    ensures s.allowShort == opts.allowShort.GetOr(true)
  {
    Settings(opts.fast.GetOr(12), opts.slow.GetOr(26), opts.signal.GetOr(9),
             opts.takeProfitRoiPct.GetOr(5.0), opts.dcaThresholdRoiPct.GetOr(-25.0), opts.allowShort.GetOr(true))
  }

  /** `map(() => HOLD)`. */
  function AllHold(col: seq<Action>): (r: seq<Action>)
    ensures |r| == |col| && forall i :: 0 <= i < |r| ==> r[i] == Hold
  {
    seq(|col|, i => Hold)
  }

  /** `map(x => x === BUY ? HOLD : x)`. */
  function DropBuys(col: seq<Action>): (r: seq<Action>)
    ensures |r| == |col|
    ensures forall i :: 0 <= i < |r| ==> r[i] != Buy && (col[i] != Buy ==> r[i] == col[i])
  {
    seq(|col|, i requires 0 <= i < |col| => if col[i] == Buy then Hold else col[i])
  }

  /** The strategy the wrapper runs over: the MACD strategy, with its short
      column neutralised when shorts are not allowed. */
  function BaseFor(macd: MacdResult, allowShort: bool): (r: Strategy)
    ensures r.length == |macd.macdLine| == |r.longStrategy| == |r.shortStrategy|
  {
    var base := MacdOf(macd);
    if allowShort then base else Strategy(base.longStrategy, AllHold(base.shortStrategy), base.length)
  }

  /** The strategy `macdMomentumDcaStrategy` returns. */
  function MomentumOf(closings: seq<real>, macd: MacdResult, s: Settings): (r: Strategy)
    requires |macd.macdLine| >= |closings|
  {
    var base := BaseFor(macd, s.allowShort);
    var st := RoiRun(closings, base, s.takeProfitRoiPct, s.dcaThresholdRoiPct, |closings|);
    if s.allowShort then Strategy(st.long, st.short, base.length)
    else Strategy(st.long, DropBuys(st.short), base.length)
  }

  method MacdMomentumDcaStrategy(closings: seq<real>, custom: MacdResult, options: MacdMomentumDcaOptions)
    returns (r: Strategy)
    requires |custom.macdLine| >= |closings|
    ensures r == MomentumOf(closings, custom, Resolve(options))
  {
    var s := Resolve(options);
    var base := MacdStrategy(custom);
    if !s.allowShort {
      base := Strategy(base.longStrategy, AllHold(base.shortStrategy), base.length);
    }
    var withRoi := RoiStrategy(closings, base, s.takeProfitRoiPct, s.dcaThresholdRoiPct);
    if !s.allowShort {
      withRoi := Strategy(withRoi.longStrategy, DropBuys(withRoi.shortStrategy), withRoi.length);
    }
    r := withRoi;
  }

  /** The long column is the wrapper's long column, and the length is that of
      the MACD line. */
  lemma MomentumShape(closings: seq<real>, macd: MacdResult, s: Settings)
    requires |macd.macdLine| >= |closings|
    ensures var r := MomentumOf(closings, macd, s);
            && r.length == |macd.macdLine| == |r.longStrategy| == |r.shortStrategy|
            && r.longStrategy
               == RoiRun(closings, BaseFor(macd, s.allowShort), s.takeProfitRoiPct, s.dcaThresholdRoiPct,
                         |closings|).long
  {
  }

  /** Without shorts the result holds no short BUY, the wrapper never opens a
      short trade, and every short cell the final map keeps is one the wrapper
      wrote or the neutralised HOLD. */
  lemma {:induction false} NoShortsWithoutAllowShort(closings: seq<real>, macd: MacdResult, s: Settings, n: nat)
    requires |macd.macdLine| >= |closings| && !s.allowShort && n <= |closings|
    ensures forall i :: 0 <= i < |BaseFor(macd, false).shortStrategy| ==> BaseFor(macd, false).shortStrategy[i] == Hold
    ensures RoiRun(closings, BaseFor(macd, false), s.takeProfitRoiPct, s.dcaThresholdRoiPct, n).tradeDirection >= 0
    ensures var r := MomentumOf(closings, macd, s);
            forall i :: 0 <= i < |r.shortStrategy| ==> r.shortStrategy[i] != Buy
  {
    RoiNoShortEntry(closings, BaseFor(macd, false), s.takeProfitRoiPct, s.dcaThresholdRoiPct, n);
  }

  /** With shorts allowed the result is the wrapper over the MACD strategy itself. */
  lemma AllowShortIsPlainWrapper(closings: seq<real>, macd: MacdResult, s: Settings)
    requires |macd.macdLine| >= |closings| && s.allowShort
    ensures var st := RoiRun(closings, MacdOf(macd), s.takeProfitRoiPct, s.dcaThresholdRoiPct, |closings|);
            MomentumOf(closings, macd, s) == Strategy(st.long, st.short, |macd.macdLine|)
  {
  }
}
