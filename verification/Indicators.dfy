/** The two windowed indicators of the package evaluator: the lagged channel,
    computed by a monotonic deque, and the Wilder relative strength index. */
module Indicators {
  import opened Exact

  // ----- the channel

  /** `a` stands at least as far out as `b` on the chosen side. */
  predicate Beyond(upper: bool, a: real, b: real) { if upper then a >= b else a <= b }

  /** The naive definition: the outermost of a nonempty window. */
  function Extreme(s: seq<real>, upper: bool): real
    requires s != []
  {
    if |s| == 1 then s[0]
    else
      var rest := Extreme(s[1..], upper);
      if Beyond(upper, s[0], rest) then s[0] else rest
  }

  /** An outermost element of the window is the extreme. */
  lemma {:induction false} ExtremeIs(s: seq<real>, upper: bool, k: nat)
    requires k < |s| && forall j :: 0 <= j < |s| ==> Beyond(upper, s[k], s[j])
    ensures Extreme(s, upper) == s[k]
  {
    if |s| > 1 {
      ExtremeBounds(s[1..], upper);
      if k > 0 {
        ExtremeIs(s[1..], upper, k - 1);
      } else {
        assert forall j :: 0 <= j < |s[1..]| ==> s[1..][j] == s[j + 1];
      }
    }
  }

  /** The naive extreme is one of the window and bounds all of it. */
  lemma {:induction false} ExtremeBounds(s: seq<real>, upper: bool)
    requires s != []
    ensures forall j :: 0 <= j < |s| ==> Beyond(upper, Extreme(s, upper), s[j])
    ensures Extreme(s, upper) in s
  {
    if |s| > 1 {
      ExtremeBounds(s[1..], upper);
      assert forall j :: 1 <= j < |s| ==> s[j] == s[1..][j - 1];
    }
  }

  /** No value until the window has filled; then the extreme of the preceding `window` bars. */
  function PriorExtreme(values: seq<real>, window: nat, upper: bool, i: nat): Option<real>
    requires window > 0 && i <= |values|
  {
    if i < window then None else Some(Extreme(values[i - window..i], upper))
  }

  datatype Entry = Entry(index: nat, value: real)

  /** The deque before bar `i`: increasing indices in the window, values that
      strictly recede, and every window bar dominated by a later-or-equal entry. */
  ghost predicate Monotone(queue: seq<Entry>, values: seq<real>, window: nat, upper: bool, i: nat)
  {
    && (forall k :: 0 <= k < |queue| ==> queue[k].index < i <= |values| && queue[k].value == values[queue[k].index])
    && (forall k :: 0 <= k < |queue| ==> queue[k].index + window >= i)
    && (forall j, k :: 0 <= j < k < |queue| ==>
          queue[j].index < queue[k].index && !Beyond(upper, queue[k].value, queue[j].value))
    && (forall b: nat :: b < i <= |values| && b + window >= i ==> Dominated(queue, values, upper, b))
  }

  ghost predicate Dominated(queue: seq<Entry>, values: seq<real>, upper: bool, b: nat)
    requires b < |values|
  {
    exists k :: 0 <= k < |queue| && queue[k].index >= b && Beyond(upper, queue[k].value, values[b])
  }

  lemma NotFilled(values: seq<real>, window: nat, upper: bool, i: nat)
    requires i < window && i <= |values|
    ensures PriorExtreme(values, window, upper, i) == None
  {}

  lemma HeadIsExtreme(queue: seq<Entry>, values: seq<real>, window: nat, upper: bool, i: nat)
    requires 0 < window <= i <= |values| && Monotone(queue, values, window, upper, i)
    ensures queue != [] && Some(queue[0].value) == PriorExtreme(values, window, upper, i)
  {
    var s := values[i - window..i];
    assert Dominated(queue, values, upper, i - 1);
    var at := queue[0].index - (i - window);
    forall j | 0 <= j < |s|
      ensures Beyond(upper, s[at], s[j])
    {
      assert Dominated(queue, values, upper, i - window + j);
      var k :| 0 <= k < |queue| && queue[k].index >= i - window + j && Beyond(upper, queue[k].value, values[i - window + j]);
      assert k == 0 || !Beyond(upper, queue[k].value, queue[0].value);
    }
    ExtremeIs(s, upper, at);
  }

  /** Entries leave at the head once they fall out of the next window. */
  lemma HeadDropped(queue: seq<Entry>, values: seq<real>, upper: bool, b: nat)
    requires queue != [] && b < |values| && Dominated(queue, values, upper, b) && queue[0].index < b
    ensures Dominated(queue[1..], values, upper, b)
  {
    var k :| 0 <= k < |queue| && queue[k].index >= b && Beyond(upper, queue[k].value, values[b]);
    assert queue[1..][k - 1] == queue[k];
  }

  /** The state while bar `i` is being admitted: what is left of the queue still
      dominates, except where bar `i` itself does. */
  ghost predicate Admitting(queue: seq<Entry>, values: seq<real>, window: nat, upper: bool, i: nat)
    requires i < |values|
  {
    && (forall k :: 0 <= k < |queue| ==> queue[k].index < i && queue[k].value == values[queue[k].index])
    && (forall k :: 0 <= k < |queue| ==> queue[k].index + window > i)
    && (forall j, k :: 0 <= j < k < |queue| ==>
          queue[j].index < queue[k].index && !Beyond(upper, queue[k].value, queue[j].value))
    && (forall b: nat :: b < i && b + window > i ==>
          Dominated(queue, values, upper, b) || Beyond(upper, values[i], values[b]))
  }

  lemma BeyondTransitive(upper: bool, a: real, b: real, c: real)
    requires Beyond(upper, a, b) && Beyond(upper, b, c)
    ensures Beyond(upper, a, c)
  {}

  lemma TailCovered(queue: seq<Entry>, values: seq<real>, upper: bool, i: nat, b: nat)
    requires i < |values| && b < i && queue != [] && Beyond(upper, values[i], queue[|queue| - 1].value)
    requires Dominated(queue, values, upper, b) || Beyond(upper, values[i], values[b])
    ensures Dominated(queue[..|queue| - 1], values, upper, b) || Beyond(upper, values[i], values[b])
  {
    var rest := queue[..|queue| - 1];
    if Dominated(queue, values, upper, b) {
      var k :| 0 <= k < |queue| && queue[k].index >= b && Beyond(upper, queue[k].value, values[b]);
      if k < |rest| {
        assert rest[k] == queue[k];
      } else {
        BeyondTransitive(upper, values[i], queue[k].value, values[b]);
      }
    }
  }

  lemma TailDropped(queue: seq<Entry>, values: seq<real>, window: nat, upper: bool, i: nat)
    requires i < |values| && queue != [] && Admitting(queue, values, window, upper, i)
    requires Beyond(upper, values[i], queue[|queue| - 1].value)
    ensures Admitting(queue[..|queue| - 1], values, window, upper, i)
  {
    hide Dominated, Beyond;
    forall b: nat | b < i && b + window > i
      ensures Dominated(queue[..|queue| - 1], values, upper, b) || Beyond(upper, values[i], values[b])
    {
      TailCovered(queue, values, upper, i, b);
    }
  }

  lemma NewDominates(queue: seq<Entry>, values: seq<real>, upper: bool, i: nat, b: nat)
    requires i < |values| && b <= i
    requires b == i || Dominated(queue, values, upper, b) || Beyond(upper, values[i], values[b])
    ensures Dominated(queue + [Entry(i, values[i])], values, upper, b)
  {
    var after := queue + [Entry(i, values[i])];
    if b == i || Beyond(upper, values[i], values[b]) {
      assert after[|queue|] == Entry(i, values[i]);
    } else {
      var k :| 0 <= k < |queue| && queue[k].index >= b && Beyond(upper, queue[k].value, values[b]);
      assert after[k] == queue[k];
    }
  }

  lemma NewRecedes(queue: seq<Entry>, values: seq<real>, window: nat, upper: bool, i: nat, j: nat)
    requires i < |values| && Admitting(queue, values, window, upper, i) && j < |queue|
    requires !Beyond(upper, values[i], queue[|queue| - 1].value)
    ensures !Beyond(upper, values[i], queue[j].value)
  {
    assert j == |queue| - 1 || !Beyond(upper, queue[|queue| - 1].value, queue[j].value);
  }

  lemma Admitted(queue: seq<Entry>, values: seq<real>, window: nat, upper: bool, i: nat)
    requires window > 0 && i < |values| && Admitting(queue, values, window, upper, i)
    requires queue == [] || !Beyond(upper, values[i], queue[|queue| - 1].value)
    ensures Monotone(queue + [Entry(i, values[i])], values, window, upper, i + 1)
  {
    hide Dominated, Beyond;
    forall b: nat | b < i + 1 && b + window >= i + 1
      ensures Dominated(queue + [Entry(i, values[i])], values, upper, b)
    {
      NewDominates(queue, values, upper, i, b);
    }
    forall j: nat | j < |queue|
      ensures !Beyond(upper, values[i], queue[j].value)
    {
      NewRecedes(queue, values, window, upper, i, j);
    }
  }

  /** The queue while its head is being trimmed to the next window. */
  ghost predicate Trimming(queue: seq<Entry>, values: seq<real>, window: nat, upper: bool, i: nat)
    requires i <= |values|
  {
    && (forall k :: 0 <= k < |queue| ==>
          queue[k].index < i && queue[k].value == values[queue[k].index] && queue[k].index + window >= i)
    && (forall j, k :: 0 <= j < k < |queue| ==>
          queue[j].index < queue[k].index && !Beyond(upper, queue[k].value, queue[j].value))
    && (forall b: nat :: b < i && b + window > i ==> Dominated(queue, values, upper, b))
  }

  lemma HeadTrimmed(queue: seq<Entry>, values: seq<real>, window: nat, upper: bool, i: nat)
    requires i <= |values| && queue != [] && Trimming(queue, values, window, upper, i) && queue[0].index + window <= i
    ensures Trimming(queue[1..], values, window, upper, i)
  {
    hide Dominated, Beyond;
    forall b: nat | b < i && b + window > i
      ensures Dominated(queue[1..], values, upper, b)
    {
      HeadDropped(queue, values, upper, b);
    }
  }

  lemma TrimmedAdmits(queue: seq<Entry>, values: seq<real>, window: nat, upper: bool, i: nat)
    requires i < |values| && Trimming(queue, values, window, upper, i)
    requires queue == [] || queue[0].index + window > i
    ensures Admitting(queue, values, window, upper, i)
  {
    hide Dominated, Beyond;
    assert forall k :: 0 < k < |queue| ==> queue[0].index < queue[k].index;
  }

  lemma NothingQueued(values: seq<real>, window: nat, upper: bool)
    ensures Monotone([], values, window, upper, 0) && PopLog([], [], 0)
  {}

  /** The window before bar `i` is trimmed to the window that bar `i` will close. */
  lemma MonotoneTrims(queue: seq<Entry>, values: seq<real>, window: nat, upper: bool, i: nat)
    requires i <= |values| && Monotone(queue, values, window, upper, i)
    ensures Trimming(queue, values, window, upper, i)
  {
    hide Dominated, Beyond;
  }

  /** The bars popped so far, in order: each an earlier bar, none twice, none still in the queue. */
  ghost predicate PopLog(popped: seq<nat>, queue: seq<Entry>, bound: nat)
  {
    && (forall k :: 0 <= k < |popped| ==> popped[k] < bound)
    && (forall j, k :: 0 <= j < k < |popped| ==> popped[j] != popped[k])
    && (forall j, k :: 0 <= j < |popped| && 0 <= k < |queue| ==> popped[j] != queue[k].index)
    && (forall j, k :: 0 <= j < k < |queue| ==> queue[j].index < queue[k].index)
    && (forall k :: 0 <= k < |queue| ==> queue[k].index < bound)
  }

  lemma PopHead(popped: seq<nat>, queue: seq<Entry>, bound: nat)
    requires queue != [] && PopLog(popped, queue, bound)
    ensures PopLog(popped + [queue[0].index], queue[1..], bound)
  {}

  lemma PopTail(popped: seq<nat>, queue: seq<Entry>, bound: nat)
    requires queue != [] && PopLog(popped, queue, bound)
    ensures PopLog(popped + [queue[|queue| - 1].index], queue[..|queue| - 1], bound)
  {}

  lemma PushLast(popped: seq<nat>, queue: seq<Entry>, bound: nat, value: real)
    requires PopLog(popped, queue, bound)
    ensures PopLog(popped, queue + [Entry(bound, value)], bound + 1)
  {}

  /** One pass with a deque yields the naive window extreme at every bar.  The
      logs say which bars were pushed and popped: every bar is pushed once, in
      order, and no bar is popped twice. */
  method PriorExtremes(values: seq<real>, window: nat, upper: bool)
    returns (result: seq<Option<real>>, ghost pushed: seq<nat>, ghost popped: seq<nat>)
    requires window > 0
    ensures |result| == |values|
    ensures forall i :: 0 <= i < |values| ==> result[i] == PriorExtreme(values, window, upper, i)
    ensures |pushed| == |values| && forall k :: 0 <= k < |pushed| ==> pushed[k] == k
    ensures forall k :: 0 <= k < |popped| ==> popped[k] < |values|
    ensures forall j, k :: 0 <= j < k < |popped| ==> popped[j] != popped[k]
  {
    hide Monotone, Trimming, Admitting, PopLog, PriorExtreme;
    var queue: seq<Entry> := [];
    result, pushed, popped := [], [], [];
    NothingQueued(values, window, upper);
    for index := 0 to |values|
      invariant |result| == index
      invariant forall i :: 0 <= i < index ==> result[i] == PriorExtreme(values, window, upper, i)
      invariant Monotone(queue, values, window, upper, index)
      invariant |pushed| == index && forall k :: 0 <= k < |pushed| ==> pushed[k] == k
      invariant PopLog(popped, queue, index)
    {
      if index >= window {
        HeadIsExtreme(queue, values, window, upper, index);
      }
      result := result + [if index >= window then Some(queue[0].value) else None];
      if index < window {
        NotFilled(values, window, upper, index);
      }
      MonotoneTrims(queue, values, window, upper, index);
      while queue != [] && queue[0].index + window <= index
        invariant Trimming(queue, values, window, upper, index)
        invariant PopLog(popped, queue, index)
        decreases |queue|
      {
        HeadTrimmed(queue, values, window, upper, index);
        PopHead(popped, queue, index);
        popped := popped + [queue[0].index];
        queue := queue[1..];
      }
      TrimmedAdmits(queue, values, window, upper, index);
      var value := values[index];
      while queue != [] && (if upper then queue[|queue| - 1].value <= value else queue[|queue| - 1].value >= value)
        invariant Admitting(queue, values, window, upper, index)
        invariant PopLog(popped, queue, index)
        decreases |queue|
      {
        TailDropped(queue, values, window, upper, index);
        PopTail(popped, queue, index);
        popped := popped + [queue[|queue| - 1].index];
        queue := queue[..|queue| - 1];
      }
      Admitted(queue, values, window, upper, index);
      PushLast(popped, queue, index, value);
      queue := queue + [Entry(index, value)];
      pushed := pushed + [index];
    }
    PopsOnce(popped, queue, |values|);
  }

  lemma PopsOnce(popped: seq<nat>, queue: seq<Entry>, bound: nat)
    requires PopLog(popped, queue, bound)
    ensures forall k :: 0 <= k < |popped| ==> popped[k] < bound
    ensures forall j, k :: 0 <= j < k < |popped| ==> popped[j] != popped[k]
  {}

  /** The channel at a bar depends only on the bars of its window. */
  lemma PriorExtremeLocal(v: seq<real>, w: seq<real>, window: nat, upper: bool, i: nat, j: nat)
    requires 0 < window <= i <= |v| && window <= j <= |w| && v[i - window..i] == w[j - window..j]
    ensures PriorExtreme(v, window, upper, i) == PriorExtreme(w, window, upper, j)
  {}

  // ----- Wilder smoothing

  /** The rise (or, negated, the fall) into bar `i`. */
  function Move(closes: seq<real>, falling: bool, i: nat): real
    requires 0 < i < |closes|
  {
    var change := closes[i] - closes[i - 1];
    Max(if falling then -change else change, 0.0)
  }

  function TotalMoves(closes: seq<real>, falling: bool, i: nat): real
    requires i < |closes|
  {
    if i == 0 then 0.0 else TotalMoves(closes, falling, i - 1) + Move(closes, falling, i)
  }

  const K: real := 1.0 / 14.0

  /** The smoothed move as the loop maintains it: a running mean that hands over to exponential smoothing at bar 14. */
  function Smoothed(closes: seq<real>, falling: bool, i: nat): real
    requires i < |closes|
  {
    if i == 0 then 0.0
    else if i < 14 then TotalMoves(closes, falling, i) / i as real
    else Move(closes, falling, i) * K + Smoothed(closes, falling, i - 1) * (1.0 - K)
  }

  /** Rounding to ten decimals, half to even, makes a nonnegative loss zero exactly up to half a unit. */
  function Strength(gain: real, loss: real): real
    requires gain >= 0.0 && loss >= 0.0
  {
    if loss <= 0.00000000005 then 100.0
    else
      QuotientAtLeast(gain, loss, 0.0);
      100.0 - 100.0 / (1.0 + gain / loss)
  }

  function Rsi(closes: seq<real>, i: nat): real
    requires i < |closes|
  {
    SmoothedNonnegative(closes, false, i);
    SmoothedNonnegative(closes, true, i);
    Strength(Smoothed(closes, false, i), Smoothed(closes, true, i))
  }

  lemma {:induction false} TotalNonnegative(closes: seq<real>, falling: bool, i: nat)
    requires i < |closes|
    ensures TotalMoves(closes, falling, i) >= 0.0
  {
    if i > 0 {
      TotalNonnegative(closes, falling, i - 1);
    }
  }

  lemma {:induction false} SmoothedNonnegative(closes: seq<real>, falling: bool, i: nat)
    requires i < |closes|
    ensures Smoothed(closes, falling, i) >= 0.0
  {
    if 0 < i < 14 {
      TotalNonnegative(closes, falling, i);
      QuotientAtLeast(TotalMoves(closes, falling, i), i as real, 0.0);
    } else if i >= 14 {
      SmoothedNonnegative(closes, falling, i - 1);
    }
  }

  /** Every value of the index lies between 0 and 100. */
  lemma RsiInRange(closes: seq<real>, i: nat)
    requires i < |closes|
    ensures 0.0 <= Rsi(closes, i) <= 100.0
  {
    SmoothedNonnegative(closes, false, i);
    SmoothedNonnegative(closes, true, i);
    var gain, loss := Smoothed(closes, false, i), Smoothed(closes, true, i);
    if loss > 0.00000000005 {
      QuotientAtLeast(gain, loss, 0.0);
      QuotientAtMost(100.0, 1.0 + gain / loss, 100.0);
      QuotientAtLeast(100.0, 1.0 + gain / loss, 0.0);
    }
  }

  /** The index is the share of the gain in all movement: with a loss above the
      rounding bound the distance to 100 is the share of the loss, without one it is 100. */
  lemma StrengthIsShare(closes: seq<real>, i: nat)
    requires i < |closes|
    ensures var gain, loss, rsi := Smoothed(closes, false, i), Smoothed(closes, true, i), Rsi(closes, i);
      && (loss > 0.00000000005 ==> (100.0 - rsi) * (gain + loss) == 100.0 * loss)
      && (loss <= 0.00000000005 ==> rsi == 100.0)
  {
    hide Smoothed;
    SmoothedNonnegative(closes, false, i);
    SmoothedNonnegative(closes, true, i);
    var gain, loss := Smoothed(closes, false, i), Smoothed(closes, true, i);
    if loss > 0.00000000005 {
      ShareOf(gain, loss);
    }
  }

  lemma ShareOf(gain: real, loss: real)
    requires gain >= 0.0 && loss > 0.0
    ensures 1.0 + gain / loss > 0.0 && (100.0 / (1.0 + gain / loss)) * (gain + loss) == 100.0 * loss
  {
    QuotientAtLeast(gain, loss, 0.0);
    var q := gain / loss;
    DivMul(gain, loss);
    DivMul(100.0, 1.0 + q);
    var part := 100.0 / (1.0 + q);
    assert gain + loss == (1.0 + q) * loss;
    calc {
      part * (gain + loss);
      part * ((1.0 + q) * loss);
      (part * (1.0 + q)) * loss;
      100.0 * loss;
    }
  }

  /** The plain mean of the first fourteen moves. */
  function SeedMean(closes: seq<real>, falling: bool): real
    requires |closes| > 14
  {
    TotalMoves(closes, falling, 14) / 14.0
  }

  /** At bar 14 the smoothed move is the plain mean of the first fourteen. */
  lemma {:induction false} SeedIsMean(closes: seq<real>, falling: bool, i: nat)
    requires i == 14 < |closes|
    ensures Smoothed(closes, falling, i) == SeedMean(closes, falling)
  {
    assert Smoothed(closes, falling, i - 1) == TotalMoves(closes, falling, i - 1) / 13.0;
    assert TotalMoves(closes, falling, i) == TotalMoves(closes, falling, i - 1) + Move(closes, falling, i);
    hide Move;
  }

  function Decay(k: nat): real { if k == 0 then 1.0 else Decay(k - 1) * (1.0 - K) }

  /** The exponentially weighted moves from bar 15 to bar `i`, newest weighted 1/14. */
  function WeightedMoves(closes: seq<real>, falling: bool, i: nat, k: nat): real
    requires 14 <= i < |closes| && k <= i - 14
  {
    if k == 0 then 0.0
    else WeightedMoves(closes, falling, i, k - 1) + K * Part(Decay(k - 1), Move(closes, falling, i - (k - 1)))
  }

  /** A decayed part of a move. */
  function Part(decay: real, move: real): real { decay * move }

  /** One more bar of decay leaves thirteen fourteenths of the part. */
  lemma PartDecays(decay: real, move: real)
    ensures Part(decay * (1.0 - K), move) == (1.0 - K) * Part(decay, move)
  {
    calc {
      Part(decay * (1.0 - K), move);
      (decay * (1.0 - K)) * move;
      (1.0 - K) * (decay * move);
    }
  }

  lemma {:induction false} WeightedShift(closes: seq<real>, falling: bool, i: nat, k: nat)
    requires 14 <= i && i + 1 < |closes| && k <= i - 14
    ensures WeightedMoves(closes, falling, i + 1, k + 1)
         == K * Move(closes, falling, i + 1) + (1.0 - K) * WeightedMoves(closes, falling, i, k)
  {
    hide Move, Part;
    if k == 0 {
      assert WeightedMoves(closes, falling, i + 1, 0) == 0.0;
      WholePart(Move(closes, falling, i + 1));
    } else {
      WeightedShift(closes, falling, i, k - 1);
      PartDecays(Decay(k - 1), Move(closes, falling, i - (k - 1)));
    }
  }

  lemma WholePart(move: real)
    ensures Part(Decay(0), move) == move
  {}

  /** The closed form: weights (1/14)(13/14)^k on the latest moves, and what is left on the seed mean. */
  lemma {:induction false} SmoothedClosedForm(closes: seq<real>, falling: bool, i: nat)
    requires 14 <= i < |closes|
    ensures Smoothed(closes, falling, i)
         == WeightedMoves(closes, falling, i, i - 14) + Part(Decay(i - 14), SeedMean(closes, falling))
  {
    hide SeedMean, Move, TotalMoves, Part, WeightedMoves;
    if i == 14 {
      SeedIsMean(closes, falling, i);
      NoWeight(closes, falling, i);
      WholePart(SeedMean(closes, falling));
    } else {
      SmoothedClosedForm(closes, falling, i - 1);
      WeightedShift(closes, falling, i - 1, i - 15);
      PartDecays(Decay(i - 15), SeedMean(closes, falling));
    }
  }

  lemma NoWeight(closes: seq<real>, falling: bool, i: nat)
    requires 14 <= i < |closes|
    ensures WeightedMoves(closes, falling, i, 0) == 0.0
  {}

  function TotalWeight(k: nat): real { if k == 0 then 0.0 else TotalWeight(k - 1) + K * Decay(k - 1) }

  /** The weights are nonnegative and, with the seed's share, add up to one: a convex combination. */
  lemma {:induction false} WeightsAreConvex(k: nat)
    ensures TotalWeight(k) + Decay(k) == 1.0 && Decay(k) > 0.0
  {
    if k > 0 {
      WeightsAreConvex(k - 1);
    }
  }

  ghost predicate MovesWithin(closes: seq<real>, falling: bool, i: nat, lo: real, hi: real)
    requires i < |closes|
  {
    forall k :: 0 < k <= i ==> lo <= Move(closes, falling, k) <= hi
  }

  lemma {:induction false} TotalWithin(closes: seq<real>, falling: bool, i: nat, lo: real, hi: real)
    requires i < |closes| && MovesWithin(closes, falling, i, lo, hi)
    ensures lo * i as real <= TotalMoves(closes, falling, i) <= hi * i as real
  {
    hide Move;
    if i > 0 {
      TotalWithin(closes, falling, i - 1, lo, hi);
      assert lo <= Move(closes, falling, i) <= hi;
      var total := TotalMoves(closes, falling, i);
      assert total == TotalMoves(closes, falling, i - 1) + Move(closes, falling, i);
      hide TotalMoves, MovesWithin;
      OneMore(lo, i);
      OneMore(hi, i);
    }
  }

  lemma OneMore(x: real, i: nat)
    requires i > 0
    ensures x * i as real == x * (i - 1) as real + x
  {
    var n := (i - 1) as real;
    assert x * (n + 1.0) == x * n + x;
  }

  lemma BlendWithin(a: real, b: real, lo: real, hi: real)
    requires lo <= a <= hi && lo <= b <= hi
    ensures lo <= a * K + b * (1.0 - K) <= hi
  {}

  /** The smoothed move never leaves the range of the moves it averages. */
  lemma {:induction false} SmoothedWithin(closes: seq<real>, falling: bool, i: nat, lo: real, hi: real)
    requires 0 < i < |closes| && MovesWithin(closes, falling, i, lo, hi)
    ensures lo <= Smoothed(closes, falling, i) <= hi
  {
    hide Move;
    if i < 14 {
      TotalWithin(closes, falling, i, lo, hi);
      QuotientAtLeast(TotalMoves(closes, falling, i), i as real, lo);
      QuotientAtMost(TotalMoves(closes, falling, i), i as real, hi);
    } else {
      SmoothedWithin(closes, falling, i - 1, lo, hi);
      BlendWithin(Move(closes, falling, i), Smoothed(closes, falling, i - 1), lo, hi);
    }
  }

  /** The loop over closes computes the index at every bar. */
  method Rsi14(closes: seq<real>) returns (values: seq<real>)
    ensures |values| == |closes|
    ensures forall i :: 0 <= i < |closes| ==> values[i] == Rsi(closes, i)
  {
    var gain, loss, totalGain, totalLoss := 0.0, 0.0, 0.0, 0.0;
    values := [];
    for index := 0 to |closes|
      invariant |values| == index
      invariant forall i :: 0 <= i < index ==> values[i] == Rsi(closes, i)
      invariant index > 0 ==> gain == Smoothed(closes, false, index - 1) && loss == Smoothed(closes, true, index - 1)
      invariant 0 < index <= 14 ==> totalGain == TotalMoves(closes, false, index - 1) && totalLoss == TotalMoves(closes, true, index - 1)
      invariant index == 0 ==> gain == loss == totalGain == totalLoss == 0.0
    {
      if index > 0 {
        var change := closes[index] - closes[index - 1];
        var up, down := Max(change, 0.0), Max(-change, 0.0);
        assert up == Move(closes, false, index) && down == Move(closes, true, index);
        if index < 14 {
          totalGain := totalGain + up;
          totalLoss := totalLoss + down;
          gain, loss := totalGain / index as real, totalLoss / index as real;
        } else {
          gain := up * K + gain * (1.0 - K);
          loss := down * K + loss * (1.0 - K);
        }
      }
      SmoothedNonnegative(closes, false, index);
      SmoothedNonnegative(closes, true, index);
      values := values + [Strength(gain, loss)];
    }
  }

  /** The index at a bar depends only on the closes up to it. */
  lemma {:induction false} MovesPrefix(v: seq<real>, w: seq<real>, falling: bool, i: nat)
    requires i < |v| && i < |w| && v[..i + 1] == w[..i + 1]
    ensures TotalMoves(v, falling, i) == TotalMoves(w, falling, i)
    ensures Smoothed(v, falling, i) == Smoothed(w, falling, i)
  {
    if i > 0 {
      assert v[..i + 1][..i] == v[..i] && w[..i + 1][..i] == w[..i];
      MovesPrefix(v, w, falling, i - 1);
      assert v[i] == v[..i + 1][i] && v[i - 1] == v[..i + 1][i - 1];
      assert w[i] == w[..i + 1][i] && w[i - 1] == w[..i + 1][i - 1];
    }
  }

  lemma RsiPrefix(v: seq<real>, w: seq<real>, i: nat)
    requires i < |v| && i < |w| && v[..i + 1] == w[..i + 1]
    ensures Rsi(v, i) == Rsi(w, i)
  {
    MovesPrefix(v, w, false, i);
    MovesPrefix(v, w, true, i);
  }
}
