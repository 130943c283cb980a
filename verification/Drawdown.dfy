/** Running-peak statistics over a series of equities: the streaming loop every
    metrics routine uses, and what it means without the loop. */
module Drawdown {
  import opened Exact

  /** The fold the loops perform: the peak so far (not below the opening cash) and the worst fall from it. */
  function PeakFrom(initial: real, equities: seq<real>): real
  {
    if equities == [] then initial
    else Max(PeakFrom(initial, equities[..|equities| - 1]), equities[|equities| - 1])
  }

  function WorstFall(initial: real, equities: seq<real>): real
    requires initial > 0.0
  {
    if equities == [] then 0.0
    else
      var peak := PeakFrom(initial, equities);
      PeakAtLeast(initial, equities);
      Max(WorstFall(initial, equities[..|equities| - 1]), (peak - equities[|equities| - 1]) / peak)
  }

  lemma {:induction false} PeakAtLeast(initial: real, equities: seq<real>)
    ensures PeakFrom(initial, equities) >= initial
  {
    if equities != [] {
      PeakAtLeast(initial, equities[..|equities| - 1]);
    }
  }

  /** The equity at position `i`, where position 0 is the opening cash. */
  function At(initial: real, equities: seq<real>, i: nat): real
    requires i <= |equities|
  {
    if i == 0 then initial else equities[i - 1]
  }

  lemma {:induction false} PeakIsMaximum(initial: real, equities: seq<real>)
    ensures forall i: nat :: i <= |equities| ==> At(initial, equities, i) <= PeakFrom(initial, equities)
    ensures exists i: nat :: i <= |equities| && At(initial, equities, i) == PeakFrom(initial, equities)
  {
    if equities == [] {
      assert At(initial, equities, 0) == PeakFrom(initial, equities);
    } else {
      var n := |equities| - 1;
      var front := equities[..n];
      PeakIsMaximum(initial, front);
      assert forall i: nat :: i <= n ==> At(initial, front, i) == At(initial, equities, i);
      var k: nat :| k <= n && At(initial, front, k) == PeakFrom(initial, front);
      assert At(initial, equities, if PeakFrom(initial, front) >= equities[n] then k else n + 1) == PeakFrom(initial, equities);
    }
  }

  /** The fall from an earlier point to a later one, as a fraction of the earlier. */
  function Fall(initial: real, equities: seq<real>, i: nat, j: nat): real
    requires i <= j <= |equities| && At(initial, equities, i) > 0.0
  {
    (At(initial, equities, i) - At(initial, equities, j)) / At(initial, equities, i)
  }

  lemma FallFromHigher(low: real, high: real, value: real)
    requires 0.0 < low <= high && value >= 0.0
    ensures (low - value) / low <= (high - value) / high
  {
    DivMul(value, high);
    QuotientAtLeast(value, high, 0.0);
    var q := value / high;
    KeptPart(low, high, q);
    KeptPart(high, high, q);
    QuotientAtMost(low - value, low, 1.0 - q);
    QuotientAtLeast(high - value, high, 1.0 - q);
  }

  lemma KeptPart(low: real, high: real, q: real)
    requires 0.0 < low <= high && q >= 0.0
    ensures low - q * high <= (1.0 - q) * low
    ensures low == high ==> low - q * high == (1.0 - q) * low
  {
    MulMono(low, high, q);
    assert (1.0 - q) * low == low - q * low;
  }

  /** The streaming figure is exactly the largest fall from any point, opening
      cash included, to any later one: an upper bound that is attained. */
  lemma {:induction false} WorstFallIsMaximum(initial: real, equities: seq<real>)
    requires initial > 0.0 && forall k :: 0 <= k < |equities| ==> equities[k] > 0.0
    ensures forall i: nat, j: nat :: i <= j <= |equities| ==> Fall(initial, equities, i, j) <= WorstFall(initial, equities)
    ensures exists i: nat, j: nat :: i <= j <= |equities| && Fall(initial, equities, i, j) == WorstFall(initial, equities)
  {
    if equities == [] {
      assert Fall(initial, equities, 0, 0) == WorstFall(initial, equities);
    } else {
      var n := |equities| - 1;
      var front := equities[..n];
      var value := equities[n];
      WorstFallIsMaximum(initial, front);
      PeakIsMaximum(initial, equities);
      PeakAtLeast(initial, equities);
      var peak := PeakFrom(initial, equities);
      assert forall i: nat :: i <= n ==> At(initial, front, i) == At(initial, equities, i);
      forall i: nat, j: nat | i <= j <= |equities|
        ensures Fall(initial, equities, i, j) <= WorstFall(initial, equities)
      {
        if j == |equities| {
          FallFromHigher(At(initial, equities, i), peak, value);
        } else {
          assert Fall(initial, front, i, j) == Fall(initial, equities, i, j);
        }
      }
      var k: nat :| k <= |equities| && At(initial, equities, k) == peak;
      var i: nat, j: nat :| i <= j <= |front| && Fall(initial, front, i, j) == WorstFall(initial, front);
      assert Fall(initial, equities, i, j) == Fall(initial, front, i, j);
      if WorstFall(initial, front) >= (peak - value) / peak {
        assert Fall(initial, equities, i, j) == WorstFall(initial, equities);
      } else {
        assert Fall(initial, equities, k, |equities|) == WorstFall(initial, equities);
      }
    }
  }

  /** Hours below the running peak; the last equity shares its predecessor's clock and is not an hour. */
  function UnderwaterHours(initial: real, equities: seq<real>, hours: nat): nat
  {
    if equities == [] then 0
    else
      var front := equities[..|equities| - 1];
      UnderwaterHours(initial, front, hours) +
      (if equities[|equities| - 1] < PeakFrom(initial, front) && |equities| <= hours then 1 else 0)
  }

  /** The run of underwater hours that is still open after the last equity. */
  function OpenRun(initial: real, equities: seq<real>, hours: nat): nat
  {
    if equities == [] then 0
    else
      var front := equities[..|equities| - 1];
      if equities[|equities| - 1] >= PeakFrom(initial, front) then 0
      else OpenRun(initial, front, hours) + (if |equities| <= hours then 1 else 0)
  }

  function LongestRun(initial: real, equities: seq<real>, hours: nat): nat
  {
    if equities == [] then 0
    else
      var before, here := LongestRun(initial, equities[..|equities| - 1], hours), OpenRun(initial, equities, hours);
      if here > before then here else before
  }

  /** The longest run never exceeds the total, and bounds every run. */
  lemma {:induction false} RunsWithinTotal(initial: real, equities: seq<real>, hours: nat)
    ensures OpenRun(initial, equities, hours) <= LongestRun(initial, equities, hours) <= UnderwaterHours(initial, equities, hours)
    ensures forall k :: 0 <= k <= |equities| ==> OpenRun(initial, equities[..k], hours) <= LongestRun(initial, equities, hours)
    ensures OpenRun(initial, equities, hours) <= UnderwaterHours(initial, equities, hours)
    ensures UnderwaterHours(initial, equities, hours) <= hours
  {
    if equities == [] {
    } else {
      var front := equities[..|equities| - 1];
      RunsWithinTotal(initial, front, hours);
      assert equities[..|equities|] == equities;
      assert forall k :: 0 <= k <= |front| ==> front[..k] == equities[..k];
      UnderwaterBound(initial, equities, hours);
    }
  }

  lemma {:induction false} UnderwaterBound(initial: real, equities: seq<real>, hours: nat)
    ensures UnderwaterHours(initial, equities, hours) <= hours
    ensures UnderwaterHours(initial, equities, hours) <= |equities|
  {
    if equities != [] {
      UnderwaterBound(initial, equities[..|equities| - 1], hours);
    }
  }

  lemma {:induction false} WorstFallNonnegative(initial: real, equities: seq<real>)
    requires initial > 0.0
    ensures WorstFall(initial, equities) >= 0.0
  {
    if equities != [] {
      WorstFallNonnegative(initial, equities[..|equities| - 1]);
    }
  }

  // ----- what the underwater figures count

  /** An equity below the opening cash or below an earlier equity. */
  ghost predicate Under(initial: real, equities: seq<real>, k: nat)
  {
    k < |equities| && (equities[k] < initial || exists j: nat :: j < k && equities[k] < equities[j])
  }

  lemma UnderIsBelowPeak(initial: real, equities: seq<real>, k: nat)
    requires k < |equities|
    ensures Under(initial, equities, k) <==> equities[k] < PeakFrom(initial, equities[..k])
  {
    var front := equities[..k];
    PeakIsMaximum(initial, front);
    hide PeakFrom;
    if equities[k] < PeakFrom(initial, front) {
      var i: nat :| i <= k && At(initial, front, i) == PeakFrom(initial, front);
      if i > 0 {
        assert equities[k] < equities[i - 1];
      }
    }
    if Under(initial, equities, k) {
      if equities[k] >= initial {
        var j: nat :| j < k && equities[k] < equities[j];
        assert At(initial, front, j + 1) <= PeakFrom(initial, front);
      } else {
        assert At(initial, front, 0) <= PeakFrom(initial, front);
      }
    }
  }

  lemma UnderStays(initial: real, equities: seq<real>, n: nat, k: nat)
    requires k < n <= |equities|
    ensures Under(initial, equities[..n], k) <==> Under(initial, equities, k)
  {
    var front := equities[..n];
    if exists j: nat :: j < k && equities[k] < equities[j] {
      var j: nat :| j < k && equities[k] < equities[j];
      assert front[k] < front[j];
    }
  }

  /** The first hours at which an equity stands below an earlier one. */
  ghost function HoursUnder(initial: real, equities: seq<real>, hours: nat): set<nat>
  {
    set k: nat | k < |equities| && k < hours && Under(initial, equities, k)
  }

  lemma BelowGrows(initial: real, equities: seq<real>, hours: nat)
    requires equities != []
    ensures var n := |equities| - 1;
      && n !in HoursUnder(initial, equities[..n], hours)
      && HoursUnder(initial, equities, hours) == HoursUnder(initial, equities[..n], hours) + if n < hours && Under(initial, equities, n) then {n} else {}
  {
    var n := |equities| - 1;
    forall k: nat | k < n
      ensures Under(initial, equities[..n], k) <==> Under(initial, equities, k)
    {
      UnderStays(initial, equities, n, k);
    }
    hide Under;
  }

  /** The underwater hours are as many as the hours at which an equity stands below an earlier one. */
  lemma {:induction false} UnderwaterCounts(initial: real, equities: seq<real>, hours: nat)
    ensures UnderwaterHours(initial, equities, hours) == |set k: nat | k < |equities| && k < hours && Under(initial, equities, k)|
  {
    hide Under;
    assert HoursUnder(initial, equities, hours) == set k: nat | k < |equities| && k < hours && Under(initial, equities, k);
    if equities == [] {
      assert HoursUnder(initial, equities, hours) == {};
    } else {
      var n := |equities| - 1;
      UnderwaterCounts(initial, equities[..n], hours);
      assert |HoursUnder(initial, equities[..n], hours)| == UnderwaterHours(initial, equities[..n], hours);
      UnderIsBelowPeak(initial, equities, n);
      BelowGrows(initial, equities, hours);
    }
  }

  /** Hours `a` up to but not including `b`, all underwater. */
  ghost predicate Block(initial: real, equities: seq<real>, hours: nat, a: nat, b: nat)
  {
    a <= b <= |equities| && b <= hours && forall k: nat :: a <= k < b ==> Under(initial, equities, k)
  }

  lemma BlockStays(initial: real, equities: seq<real>, n: nat, hours: nat, a: nat, b: nat)
    requires b <= n <= |equities|
    ensures Block(initial, equities[..n], hours, a, b) <==> Block(initial, equities, hours, a, b)
  {
    forall k: nat | k < b
      ensures Under(initial, equities[..n], k) <==> Under(initial, equities, k)
    {
      UnderStays(initial, equities, n, k);
    }
  }

  /** The open run is the longest block that ends here. */
  lemma {:induction false} OpenRunIsBlock(initial: real, equities: seq<real>, hours: nat)
    requires |equities| <= hours
    ensures var m := OpenRun(initial, equities, hours); m <= |equities| && Block(initial, equities, hours, |equities| - m, |equities|)
    ensures forall a: nat :: Block(initial, equities, hours, a, |equities|) ==> |equities| - a <= OpenRun(initial, equities, hours)
  {
    if equities != [] {
      var n := |equities| - 1;
      OpenRunIsBlock(initial, equities[..n], hours);
      UnderIsBelowPeak(initial, equities, n);
      hide PeakFrom, Under;
      var m := OpenRun(initial, equities[..n], hours);
      BlockStays(initial, equities, n, hours, n - m, n);
      forall a: nat | Block(initial, equities, hours, a, |equities|)
        ensures |equities| - a <= OpenRun(initial, equities, hours)
      {
        if a <= n {
          assert Under(initial, equities, n);
          BlockStays(initial, equities, n, hours, a, n);
        }
      }
    }
  }

  /** The longest run is the length of a block of hours underwater, and no block is longer. */
  lemma {:induction false} LongestIsLongest(initial: real, equities: seq<real>, hours: nat)
    ensures exists a: nat, b: nat :: Block(initial, equities, hours, a, b) && b - a == LongestRun(initial, equities, hours)
    ensures forall a: nat, b: nat :: Block(initial, equities, hours, a, b) ==> b - a <= LongestRun(initial, equities, hours)
  {
    if equities == [] {
      assert Block(initial, equities, hours, 0, 0);
    } else {
      var n := |equities| - 1;
      var front := equities[..n];
      LongestIsLongest(initial, front, hours);
      var a: nat, b: nat :| Block(initial, front, hours, a, b) && b - a == LongestRun(initial, front, hours);
      BlockStays(initial, equities, n, hours, a, b);
      if |equities| <= hours {
        OpenRunIsBlock(initial, equities, hours);
        var m := OpenRun(initial, equities, hours);
        assert Block(initial, equities, hours, |equities| - m, |equities|);
      } else {
        RunsWithinTotal(initial, front, hours);
      }
      hide Block, Under, PeakFrom;
      forall c: nat, d: nat | Block(initial, equities, hours, c, d)
        ensures d - c <= LongestRun(initial, equities, hours)
      {
        BlockBounds(initial, equities, hours, c, d);
        if d <= n {
          BlockStays(initial, equities, n, hours, c, d);
        }
      }
    }
  }

  lemma BlockBounds(initial: real, equities: seq<real>, hours: nat, a: nat, b: nat)
    requires Block(initial, equities, hours, a, b)
    ensures a <= b <= |equities| && b <= hours
  {}
}
