/** The H1 decision policy: a rolling 168-hour mean and a sticky drawdown halt.
    Each class keeps the program's own fields; a ghost history records what the
    caller has fed it, and every answer is specified on that history. */
module H1Policy {
  import opened Exact

  datatype Intent = Hold | EnterLong | ExitToCash
  datatype Risk = Clear | DrawdownHalt | ExposureBlock

  datatype Decision = Decision(closedAt: int, closedHours: nat, mean: Option<real>, intent: Intent,
                               risk: Risk, entriesHalted: bool, target: Option<real>)

  datatype PolicyFault = InvalidMark | InvalidBar | MissingHour
  datatype Answer<+T> = Answered(value: T) | Rejected(fault: PolicyFault)

  const WINDOW: nat := 168
  const ENTRY_TARGET: real := 0.25

  /** The last `n` values, or all of them while there are fewer. */
  function LastValues(s: seq<real>, n: nat): seq<real>
  {
    if |s| <= n then s else s[|s| - n..]
  }

  /** Enqueue one value and drop the head when the window is over-full. */
  lemma {:induction false} LastValuesAppend(s: seq<real>, x: real, n: nat)
    requires n > 0
    ensures LastValues(s + [x], n) ==
            var queue := LastValues(s, n) + [x]; if |queue| > n then queue[1..] else queue
  {
    if |s| >= n {
      assert LastValues(s, n) == s[|s| - n..];
      assert (s[|s| - n..] + [x])[1..] == (s + [x])[|s| + 1 - n..];
    }
  }

  /** The mean of the last 168 closes, once there are that many. */
  function Mean(closes: seq<real>): Option<real>
  {
    if |closes| < WINDOW then None else Some(Sum(closes[|closes| - WINDOW..]) / 168.0)
  }

  function SignalIntent(mean: Option<real>, close: real, isLong: bool): Intent
  {
    match mean
    case None => Hold
    case Some(m) =>
      if isLong then (if close <= m then ExitToCash else Hold)
      else if close > m then EnterLong else Hold
  }

  /** The highest equity seen, never below zero. */
  function Peak(equities: seq<real>): real
  {
    if equities == [] then 0.0
    else Max(Peak(equities[..|equities| - 1]), equities[|equities| - 1])
  }

  /** Some mark so far stood at or below four fifths of the peak at that time. */
  predicate Halted(equities: seq<real>)
  {
    equities != [] &&
    (Halted(equities[..|equities| - 1]) || equities[|equities| - 1] <= Peak(equities) * 0.80)
  }

  lemma {:induction false} PeakIsHighest(equities: seq<real>)
    ensures Peak(equities) >= 0.0
    ensures forall k :: 0 <= k < |equities| ==> equities[k] <= Peak(equities)
    ensures Peak(equities) == 0.0 || Peak(equities) in equities
  {
    if equities != [] {
      var front := equities[..|equities| - 1];
      PeakIsHighest(front);
      assert forall k :: 0 <= k < |front| ==> front[k] == equities[k];
      if Peak(front) >= equities[|equities| - 1] && Peak(front) != 0.0 {
        var k :| 0 <= k < |front| && front[k] == Peak(front);
        assert equities[k] == Peak(equities);
      }
    }
  }

  /** The halt is exactly "some mark fell a fifth below an earlier-or-equal mark", and it is sticky. */
  lemma {:induction false} HaltedMeansDrawdown(equities: seq<real>)
    requires forall k :: 0 <= k < |equities| ==> equities[k] > 0.0
    ensures Halted(equities) <==>
            exists i, j :: 0 <= i <= j < |equities| && equities[j] <= equities[i] * 0.80
  {
    if equities != [] {
      var n := |equities| - 1;
      var front := equities[..n];
      assert forall k :: 0 <= k < |front| ==> front[k] == equities[k];
      HaltedMeansDrawdown(front);
      PeakIsHighest(equities);
      if equities[n] <= Peak(equities) * 0.80 {
        var i :| 0 <= i < |equities| && equities[i] == Peak(equities);
        assert equities[n] <= equities[i] * 0.80;
      }
      if i, j :| 0 <= i <= j < |equities| && equities[j] <= equities[i] * 0.80 {
        if j < n {
          assert front[j] <= front[i] * 0.80;
        } else {
          assert equities[i] <= Peak(equities);
        }
      }
      if i, j :| 0 <= i <= j < |front| && front[j] <= front[i] * 0.80 {
        assert equities[j] <= equities[i] * 0.80;
      }
    }
  }

  /** What the gate answers for the latest mark of `equities`. */
  function Gate(equities: seq<real>, isLong: bool, exposure: real, proposed: real, intent: Intent): (Risk, Intent)
  {
    if Halted(equities) then (DrawdownHalt, if isLong then ExitToCash else Hold)
    else if intent == EnterLong && (isLong || exposure != 0.0 || proposed == 0.0 || proposed > ENTRY_TARGET)
    then (ExposureBlock, Hold)
    else (Clear, intent)
  }

  /** The decision for a closed hour, from all closes and all marks up to and including it. */
  function Decide(closedAt: int, closes: seq<real>, equities: seq<real>, isLong: bool, exposure: real): Decision
    requires closes != []
  {
    var mean := Mean(closes);
    var wanted := SignalIntent(mean, closes[|closes| - 1], isLong);
    var (risk, intent) := Gate(equities, isLong, exposure, if wanted == EnterLong then ENTRY_TARGET else 0.0, wanted);
    Decision(closedAt, |closes|, mean, intent, risk, Halted(equities),
             match intent case EnterLong => Some(ENTRY_TARGET) case ExitToCash => Some(0.0) case Hold => None)
  }

  class Signal {
    var closes: seq<real>
    var sum: real
    var lastClose: Option<int>
    var closedHours: nat
    ghost var history: seq<real>

    ghost predicate Valid()
      reads this
    {
      && closes == LastValues(history, WINDOW)
      && sum == Sum(closes)
      && closedHours == |history|
    }

    constructor ()
      ensures Valid() && history == [] && lastClose == None
    {
      closes, sum, lastClose, closedHours, history := [], 0.0, None, 0, [];
    }

    method OnClosedHour(closedAt: int, close: real, isLong: bool) returns (r: Answer<(Option<real>, Intent)>)
      requires Valid()
      modifies this
      ensures Valid()
      ensures r.Rejected? <==> close <= 0.0 || (old(lastClose).Some? && closedAt != old(lastClose).value + 1)
      ensures r.Rejected? ==> unchanged(this)
      ensures r.Answered? ==>
        && history == old(history) + [close]
        && lastClose == Some(closedAt)
        && r.value == (Mean(history), SignalIntent(Mean(history), close, isLong))
    {
      hide Sum, LastValues, Mean;
      if close <= 0.0 {
        return Rejected(InvalidBar);
      }
      if lastClose.Some? && closedAt != lastClose.value + 1 {
        return Rejected(MissingHour);
      }
      lastClose := Some(closedAt);
      Enqueue(close);
      history := history + [close];
      closedHours := closedHours + 1;
      MeanOfQueue(history);
      if |closes| < WINDOW {
        return Answered((None, Hold));
      }
      var mean := sum / 168.0;
      var intent := if isLong then (if close <= mean then ExitToCash else Hold)
                    else if close > mean then EnterLong else Hold;
      return Answered((Some(mean), intent));
    }

    /** Queue and sum take one close, and drop the oldest when there is one too many. */
    method Enqueue(close: real)
      requires closes == LastValues(history, WINDOW) && sum == Sum(closes)
      modifies this`closes, this`sum
      ensures closes == LastValues(history + [close], WINDOW) && sum == Sum(closes)
    {
      hide Sum, LastValues;
      LastValuesAppend(history, close, WINDOW);
      SumAppend(closes, close);
      closes := closes + [close];
      sum := sum + close;
      if |closes| > WINDOW {
        SumTail(closes);
        sum := sum - closes[0];
        closes := closes[1..];
      }
    }
  }

  /** The mean of a history is the sum of its full queue over 168. */
  lemma MeanOfQueue(history: seq<real>)
    ensures var queue := LastValues(history, WINDOW);
      Mean(history) == if |queue| < WINDOW then None else Some(Sum(queue) / 168.0)
  {
    hide Sum;
    if |history| == WINDOW {
      assert history[|history| - WINDOW..] == history;
    }
  }

  class RiskGate {
    var peakEquity: real
    var entriesHalted: bool
    ghost var equities: seq<real>

    ghost predicate Valid()
      reads this
    {
      peakEquity == Peak(equities) && entriesHalted == Halted(equities)
    }

    constructor ()
      ensures Valid() && equities == []
    {
      peakEquity, entriesHalted, equities := 0.0, false, [];
    }

    method Evaluate(equity: real, isLong: bool, exposure: real, proposed: real, intent: Intent)
      returns (r: Answer<(Risk, Intent)>)
      requires Valid()
      modifies this
      ensures Valid()
      ensures r.Rejected? <==> equity <= 0.0 || exposure < 0.0 || proposed < 0.0
      ensures r.Rejected? ==> unchanged(this)
      ensures r.Answered? ==>
        && equities == old(equities) + [equity]
        && r.value == Gate(equities, isLong, exposure, proposed, intent)
    {
      if equity <= 0.0 || exposure < 0.0 || proposed < 0.0 {
        return Rejected(InvalidMark);
      }
      equities := equities + [equity];
      assert equities[..|equities| - 1] == old(equities);
      if equity > peakEquity {
        peakEquity := equity;
      }
      if equity <= peakEquity * 0.80 {
        entriesHalted := true;
      }
      if entriesHalted {
        return Answered((DrawdownHalt, if isLong then ExitToCash else Hold));
      }
      if intent == EnterLong && (isLong || exposure != 0.0 || proposed == 0.0 || proposed > ENTRY_TARGET) {
        return Answered((ExposureBlock, Hold));
      }
      return Answered((Clear, intent));
    }
  }

  class Policy {
    const signal: Signal
    const risk: RiskGate

    ghost predicate Valid()
      reads this, signal, risk
    {
      signal.Valid() && risk.Valid()
    }

    constructor ()
      ensures Valid() && fresh(signal) && fresh(risk)
      ensures signal.history == [] && signal.lastClose == None && risk.equities == []
    {
      signal := new Signal();
      risk := new RiskGate();
    }

    method OnClosedHour(closedAt: int, close: real, isLong: bool, equity: real, exposure: real)
      returns (r: Answer<Decision>)
      requires Valid()
      modifies signal, risk
      ensures Valid()
      ensures r.Rejected? <==>
        || equity <= 0.0 || exposure < 0.0 || close <= 0.0
        || (old(signal.lastClose).Some? && closedAt != old(signal.lastClose).value + 1)
      ensures r.Rejected? ==> unchanged(signal) && unchanged(risk)
      ensures r.Answered? ==>
        && signal.history == old(signal.history) + [close]
        && signal.lastClose == Some(closedAt)
        && risk.equities == old(risk.equities) + [equity]
        && r.value == Decide(closedAt, signal.history, risk.equities, isLong, exposure)
    {
      if equity <= 0.0 || exposure < 0.0 {
        return Rejected(InvalidMark);
      }
      hide Decide;
      var signalled := signal.OnClosedHour(closedAt, close, isLong);
      if signalled.Rejected? {
        return Rejected(signalled.fault);
      }
      var (mean, wanted) := signalled.value;
      var gated := risk.Evaluate(equity, isLong, exposure, if wanted == EnterLong then ENTRY_TARGET else 0.0, wanted);
      var (verdict, intent) := gated.value;
      var target := match intent case EnterLong => Some(ENTRY_TARGET) case ExitToCash => Some(0.0) case Hold => None;
      return Answered(Decision(closedAt, signal.closedHours, mean, intent, verdict, risk.entriesHalted, target));
    }
  }
}
