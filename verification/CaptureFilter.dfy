/** The pure reading of a capture: which edges count, and what message the
    accepted edges amount to. Nothing here mentions buffers, modes or interrupts. */
module CaptureFilter {
  import opened Config

  /** Greedy glitch filter: keep the first edge, then every edge at least
      IR_MIN_PULSE_US after the last one kept. */
  function Accepted(edges: seq<int>): (a: seq<int>)
    ensures |a| <= |edges|
    ensures edges != [] ==> a != [] && a[0] == edges[0]
  {
    if |edges| <= 1 then
      edges
    else
      var kept := Accepted(edges[..|edges| - 1]);
      var e := edges[|edges| - 1];
      if e - kept[|kept| - 1] < IR_MIN_PULSE_US then kept else kept + [e]
  }

  /** Differences of consecutive times. */
  function Intervals(times: seq<int>): (d: seq<int>)
    ensures |d| == if times == [] then 0 else |times| - 1
    ensures forall i {:trigger d[i]} :: 0 <= i < |d| ==> d[i] == times[i + 1] - times[i]
  {
    if times == [] then []
    else seq(|times| - 1, i requires 0 <= i < |times| - 1 => times[i + 1] - times[i])
  }

  /** Number of intervals long enough to separate two frames. */
  function FrameGaps(d: seq<int>): nat {
    if d == [] then 0
    else FrameGaps(d[..|d| - 1]) + if d[|d| - 1] >= IR_FRAME_GAP_US then 1 else 0
  }

  function Sum(d: seq<int>): int {
    if d == [] then 0 else Sum(d[..|d| - 1]) + d[|d| - 1]
  }

  /** One interval as it is stored in a uint16 cell. */
  function Clamp(d: int): uint16 {
    if d > 0xFFFF then 0xFFFF else if d < 0 then 0 else d
  }

  function ClampAll(d: seq<int>): (c: seq<uint16>)
    ensures |c| == |d|
    ensures forall i :: 0 <= i < |d| ==> c[i] == Clamp(d[i])
  {
    seq(|d|, i requires 0 <= i < |d| => Clamp(d[i]))
  }

  /** What a train of accepted intervals must be reported as. */
  function Report(d: seq<int>): IrMessage {
    IrMessage(IR_CARRIER_HZ,
              Min(0xFFFF, 1 + FrameGaps(d)),
              |d| > IR_MAX_PULSES,
              ClampAll(d[..Min(|d|, IR_MAX_PULSES)]))
  }

  /** What one transmission with these edges must be reported as. */
  function MessageOf(edges: seq<int>): IrMessage {
    Report(Intervals(Accepted(edges)))
  }

  /** The intervals that separate two frames. */
  function LongGaps(d: seq<int>): set<int> {
    set k | 0 <= k < |d| && d[k] >= 12000
  }

  lemma {:induction false} FrameGapsCounted(d: seq<int>)
    ensures FrameGaps(d) == |LongGaps(d)|
    decreases |d|
  {
    if d == [] {
      assert LongGaps(d) == {};
    } else {
      var n := |d| - 1;
      FrameGapsCounted(d[..n]);
      assert LongGaps(d) == LongGaps(d[..n]) + if d[n] >= 12000 then {n} else {};
    }
  }

  /** A report in full: one frame and one more for every interval of 12000 us or
      more, up to what 16 bits count; the first 800 intervals, each as 16 bits
      hold it; and whether there were more. */
  lemma {:induction false} ReportMeans(d: seq<int>)
    ensures var m := Report(d);
            && m.carrierFreq == 38000
            && m.frameCount == (if |LongGaps(d)| < 65534 then 1 + |LongGaps(d)| else 65535)
            && |m.pulses| == (if |d| < 800 then |d| else 800) && (m.truncated <==> |d| > 800)
            && forall i :: 0 <= i < |m.pulses| && 0 <= d[i] <= 65535 ==> m.pulses[i] == d[i]
  {
    FrameGapsCounted(d);
    hide FrameGaps, LongGaps;
  }

  /** One more interval: count a frame boundary, then store it or flag it. */
  lemma {:induction false} ReportSnoc(d: seq<int>, x: nat)
    ensures var m, m' := Report(d), Report(d + [x]);
            && m'.carrierFreq == m.carrierFreq
            && m'.frameCount == (if x >= IR_FRAME_GAP_US && m.frameCount < 0xFFFF then m.frameCount + 1 else m.frameCount)
            && (|m.pulses| < IR_MAX_PULSES ==> m'.pulses == m.pulses + [Clamp(x)] && m'.truncated == m.truncated)
            && (|m.pulses| >= IR_MAX_PULSES ==> m'.pulses == m.pulses && m'.truncated)
  {
    assert (d + [x])[..|d|] == d;
    if |d| < IR_MAX_PULSES {
      assert d[..Min(|d|, IR_MAX_PULSES)] == d;
      assert (d + [x])[..Min(|d| + 1, IR_MAX_PULSES)] == d + [x];
    } else {
      assert (d + [x])[..IR_MAX_PULSES] == d[..IR_MAX_PULSES];
    }
  }

  lemma {:induction false} IntervalsSnoc(a: seq<int>, now: int)
    requires a != []
    ensures Intervals(a + [now]) == Intervals(a) + [now - a[|a| - 1]]
  {
  }

  /** One more edge: a glitch changes nothing, any other edge is kept. */
  lemma {:induction false} AcceptedSnoc(edges: seq<int>, now: int)
    requires edges != []
    ensures var a := Accepted(edges);
            Accepted(edges + [now]) == if now - a[|a| - 1] < IR_MIN_PULSE_US then a else a + [now]
  {
    assert (edges + [now])[..|edges + [now]| - 1] == edges;
  }

  /** The accepted edges are a subsequence of the edges, and `at` says which. */
  ghost predicate Embeds(a: seq<int>, edges: seq<int>, at: seq<nat>) {
    && |at| == |a|
    && (forall i :: 0 <= i < |a| ==> at[i] < |edges| && edges[at[i]] == a[i])
    && (forall i, j :: 0 <= i < j < |a| ==> at[i] < at[j])
  }

  /** No edge between the k-th one kept and the next one kept (or the end) was
      far enough from the k-th to be kept itself. */
  ghost predicate OnlyGlitchesAfter(a: seq<int>, edges: seq<int>, at: seq<nat>, k: nat)
    requires k < |a| == |at|
  {
    forall j :: at[k] < j < |edges| && (k + 1 < |at| ==> j < at[k + 1]) ==> edges[j] - a[k] < 60
  }

  /** Declarative reading of "greedy": the first edge is kept, the edge kept
      after edge k is the first one at least IR_MIN_PULSE_US later, and
      everything after the last one kept is a glitch. */
  ghost predicate IsGreedy(a: seq<int>, edges: seq<int>, at: seq<nat>) {
    && Embeds(a, edges, at)
    && (edges == [] <==> a == [])
    && (a != [] ==> at[0] == 0)
    && (forall k :: 0 <= k < |a| ==> OnlyGlitchesAfter(a, edges, at, k))
    && (forall k :: 1 <= k < |a| ==> a[k] - a[k - 1] >= IR_MIN_PULSE_US)
  }

  /** Accepted meets the declarative reading. */
  lemma {:induction false} AcceptedIsGreedy(edges: seq<int>) returns (at: seq<nat>)
    ensures IsGreedy(Accepted(edges), edges, at)
  {
    if |edges| <= 1 {
      at := if edges == [] then [] else [0];
    } else {
      var front, e := edges[..|edges| - 1], edges[|edges| - 1];
      assert edges == front + [e];
      AcceptedSnoc(front, e);
      hide Accepted;
      at := AcceptedIsGreedy(front);
      at := GreedyStep(Accepted(front), front, at, e);
    }
  }

  /** One more edge: kept or not, the result is still greedy. */
  lemma {:induction false} GreedyStep(kept: seq<int>, front: seq<int>, at: seq<nat>, e: int) returns (at': seq<nat>)
    requires front != [] && IsGreedy(kept, front, at)
    ensures IsGreedy(if e - kept[|kept| - 1] < IR_MIN_PULSE_US then kept else kept + [e], front + [e], at')
  {
    var edges := front + [e];
    var last := |kept| - 1;
    if e - kept[last] < IR_MIN_PULSE_US {
      at' := at;
      forall k | 0 <= k < |kept| ensures OnlyGlitchesAfter(kept, edges, at, k) {
        assert OnlyGlitchesAfter(kept, front, at, k);
      }
    } else {
      at' := at + [|front|];
      var a := kept + [e];
      forall k | 0 <= k < |a| ensures OnlyGlitchesAfter(a, edges, at', k) {
        if k <= last { assert OnlyGlitchesAfter(kept, front, at, k); }
      }
    }
  }

  /** Two greedy readings cannot part company at position k. */
  lemma {:induction false} GreedyNext(a: seq<int>, b: seq<int>, edges: seq<int>, at: seq<nat>, bt: seq<nat>, k: nat)
    requires IsGreedy(a, edges, at) && IsGreedy(b, edges, bt)
    requires 0 < k < |a| && k <= |b| && at[k - 1] == bt[k - 1]
    ensures k < |b| && bt[k] <= at[k]
  {
    assert OnlyGlitchesAfter(b, edges, bt, k - 1);
    assert a[k] == edges[at[k]] && a[k - 1] == b[k - 1] == edges[at[k - 1]];
  }

  /** Only one sequence meets the declarative reading, so it specifies the filter. */
  lemma {:induction false} GreedyIsUnique(a: seq<int>, b: seq<int>, edges: seq<int>, at: seq<nat>, bt: seq<nat>)
    requires IsGreedy(a, edges, at) && IsGreedy(b, edges, bt)
    ensures a == b
  {
    var k := 0;
    while k < |a| && k < |b|
      invariant k <= |a| && k <= |b|
      invariant forall i :: 0 <= i < k ==> at[i] == bt[i] && a[i] == b[i]
    {
      if k > 0 {
        GreedyNext(a, b, edges, at, bt, k);
        GreedyNext(b, a, edges, bt, at, k);
      }
      k := k + 1;
    }
    if 0 < k < |a| { GreedyNext(a, b, edges, at, bt, k); }
    if 0 < k < |b| { GreedyNext(b, a, edges, bt, at, k); }
  }

  /** All accepted intervals, including those past the end of the buffer, add
      up to the time between the first and the last accepted edge. */
  lemma {:induction false} IntervalsSum(times: seq<int>)
    requires times != []
    ensures Sum(Intervals(times)) == times[|times| - 1] - times[0]
  {
    if |times| <= 1 {
    } else {
      var front := times[..|times| - 1];
      IntervalsSum(front);
      assert times == front + [times[|times| - 1]];
      IntervalsSnoc(front, times[|times| - 1]);
      assert Intervals(times)[..|Intervals(times)| - 1] == Intervals(front);
    }
  }

  /** Edges that are never closer than the glitch limit are all kept. */
  lemma {:induction false} CleanEdgesAllAccepted(edges: seq<int>)
    requires forall i :: 0 <= i < |edges| - 1 ==> edges[i + 1] - edges[i] >= IR_MIN_PULSE_US
    ensures Accepted(edges) == edges
  {
    if |edges| <= 1 {
    } else {
      var front := edges[..|edges| - 1];
      CleanEdgesAllAccepted(front);
      assert edges[|edges| - 2 + 1] - edges[|edges| - 2] >= IR_MIN_PULSE_US;
      assert edges == front + [edges[|edges| - 1]];
    }
  }
}
