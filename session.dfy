/**
 * The per-bar session calculator `sethlement` of Blevels.js: a New York Open
 * (NYO) anchor, the Initial Balance (IB) range captured one hour later, an
 * anchored volume-weighted average price (VWAP), and the label list emitted on
 * the last bar of the stream.
 */
module Session {
  import opened Wrappers
  import opened JsText
  import opened Levels

  /**
   * One bar as the host hands it to `map`: `hour` and `minute` are the local
   * clock reading of `timestamp` (milliseconds), `index` is the bar's position
   * in the stream and `isLast` marks the final bar.
   */
  datatype Bar = Bar(
    hour: int, minute: int, timestamp: int,
    open: real, high: real, low: real, close: real, volume: real,
    index: int, isLast: bool)

  /** The host parameters the calculator reads: `NYOHour`, `NYOMinute`, `LabelOffset`. */
  datatype Props = Props(nyoHour: int, nyoMinute: int, labelOffset: int)

  /** What a label marks; the text, key and style of each label are not modelled. */
  datatype LabelKind = NYO | IBH | IBL | NYVWAP | Static(name: string)

  /** A text label anchored at bar position `x` and price `y`. */
  datatype Item = Item(kind: LabelKind, x: int, y: real)

  /** The record `map` returns: the label items and the plotted VWAP value. */
  datatype MapResult = MapResult(items: seq<Item>, vwapLine: Option<real>)

  /** The horizontal distance, in bars, of the NYO, IB and VWAP labels. */
  const SessionLabelOffset: int := 10

  /** Milliseconds per minute, the divisor of the lookback's "minutes ago". */
  const MillisPerMinute: int := 60000

  /** How many minutes back the IB lookback reaches. */
  const LookbackMinutes: int := 60

  // ---------------------------------------------------------------------------
  // Session clock
  // ---------------------------------------------------------------------------

  /**
   * JavaScript's `a % b` for `b > 0`: `a - b * trunc(a / b)`, so the
   * remainder differs from `a` by a multiple of `b` and takes the sign of `a`.
   */
  function JsRemainder(a: int, b: int): (r: int)
    requires b > 0
    ensures (a - r) % b == 0
    ensures a >= 0 ==> 0 <= r < b
    ensures a < 0 ==> -b < r <= 0
  {
    if a >= 0 then
      RemainderMultiple(a, b);
      a % b
    else
      RemainderMultiple(-a, b);
      -((-a) % b)
  }

  /** Removing or adding back the remainder of `n` leaves a multiple of `b`. */
  lemma RemainderMultiple(n: int, b: int)
    requires n >= 0 && b > 0
    ensures (n - n % b) % b == 0 && (-n + n % b) % b == 0
  {
    var q := n / b;
    assert n == b * q + n % b;
    assert n - n % b == b * q;
    assert -n + n % b == b * -q;
    MultipleMod(b, q);
    MultipleMod(b, -q);
  }

  /** A multiple of `b` leaves no remainder. */
  lemma MultipleMod(b: int, m: int)
    requires b > 0
    ensures (b * m) % b == 0
  {
    var x := b * m;
    var d := x / b;
    assert x == b * d + x % b;
    assert b * (m - d) == x % b;
    ProductBelow(b, m - d);
  }

  /**
   * Only zero times a positive `b` lies in `[0, b)`; kept apart so that the
   * solver meets this nonlinear fact without other context.
   */
  lemma ProductBelow(b: int, k: int)
    requires b > 0 && 0 <= b * k < b
    ensures k == 0
  {
  }

  /** The cash-open bar: its clock reads exactly `NYOHour:NYOMinute`. */
  predicate IsNyoBar(props: Props, d: Bar) {
    d.hour == props.nyoHour && d.minute == props.nyoMinute
  }

  /** The hour of the IB capture: one hour after the open, modulo 24. */
  function IbHour(props: Props): int {
    JsRemainder(props.nyoHour + 1, 24)
  }

  /** The IB-capture bar: its clock reads exactly `(NYOHour + 1) % 24 : NYOMinute`. */
  predicate IsIbBar(props: Props, d: Bar) {
    d.hour == IbHour(props) && d.minute == props.nyoMinute
  }

  /** The open reset and the IB capture never fire on the same bar, whatever the parameters. */
  lemma NyoAndIbExclusive(props: Props, d: Bar)
    ensures !(IsNyoBar(props, d) && IsIbBar(props, d))
  {
    var h := props.nyoHour;
    if h + 1 >= 0 {
      assert IbHour(props) == (h + 1) % 24;
      if h + 1 < 24 {
        assert (h + 1) % 24 == h + 1;
      }
    }
  }

  // ---------------------------------------------------------------------------
  // IB lookback
  // ---------------------------------------------------------------------------

  /** A bar at most 60 minutes older than time `t` (later bars count as well). */
  predicate WithinLookback(t: int, bar: Bar) {
    (t - bar.timestamp) as real / MillisPerMinute as real <= LookbackMinutes as real
  }

  /** Within the lookback exactly when at most 3,600,000 ms older than `t`. */
  lemma WithinLookbackMillis(t: int, bar: Bar)
    ensures WithinLookback(t, bar) <==> t - bar.timestamp <= 3600000
  {
    var delta := (t - bar.timestamp) as real;
    assert delta / 60000.0 <= 60.0 <==> delta <= 3600000.0;
  }

  /**
   * How many bars immediately before index `i` the IB scan collects: it walks
   * back from `i - 1` and stops at index 0, at a missing bar, or at the first
   * bar more than 60 minutes older than `t`.
   */
  function IbRunLength(t: int, history: seq<Bar>, i: int): (n: nat)
    ensures n <= if i > 0 then i else 0
    ensures forall m :: i - n <= m < i ==> 0 <= m < |history| && WithinLookback(t, history[m])
    ensures n < i ==> i - 1 - n >= |history| || !WithinLookback(t, history[i - 1 - n])
    decreases i
  {
    if i <= 0 || i - 1 >= |history| || !WithinLookback(t, history[i - 1]) then 0
    else 1 + IbRunLength(t, history, i - 1)
  }

  /** The bars the IB scan collects, newest first. */
  function IbWindow(t: int, history: seq<Bar>, i: int): (r: seq<Bar>) {
    var n := IbRunLength(t, history, i);
    seq(n, k requires 0 <= k < n => history[i - 1 - k])
  }

  /**
   * The IB collection loop of `map`: `j` runs from 1 to `i`, `history.get(i - j)`
   * is pushed while it exists and lies within the lookback.
   */
  method CollectIbBars(t: int, i: int, history: seq<Bar>) returns (bars: seq<Bar>)
    ensures bars == IbWindow(t, history, i)
  {
    bars := [];
    var j := 1;
    while j <= i
      invariant 1 <= j <= if i >= 1 then i + 1 else 1
      invariant |bars| == j - 1 <= IbRunLength(t, history, i)
      invariant forall k :: 0 <= k < |bars| ==> bars[k] == history[i - 1 - k]
    {
      if i - j >= |history| {
        break;
      }
      var bar := history[i - j];
      if WithinLookback(t, bar) {
        bars := bars + [bar];
      } else {
        break;
      }
      j := j + 1;
    }
    assert |bars| == IbRunLength(t, history, i);
  }

  /** `Math.max` over the highs: an upper bound that is attained. */
  function MaxHigh(bars: seq<Bar>): (r: real)
    requires |bars| > 0
    ensures forall k :: 0 <= k < |bars| ==> bars[k].high <= r
    ensures exists k :: 0 <= k < |bars| && bars[k].high == r
  {
    if |bars| == 1 then bars[0].high
    else
      var rest := MaxHigh(bars[1..]);
      if bars[0].high >= rest then bars[0].high else rest
  }

  /** `Math.min` over the lows: a lower bound that is attained. */
  function MinLow(bars: seq<Bar>): (r: real)
    requires |bars| > 0
    ensures forall k :: 0 <= k < |bars| ==> r <= bars[k].low
    ensures exists k :: 0 <= k < |bars| && bars[k].low == r
  {
    if |bars| == 1 then bars[0].low
    else
      var rest := MinLow(bars[1..]);
      if bars[0].low <= rest then bars[0].low else rest
  }

  /** A bar whose low does not exceed its high. */
  predicate WellFormed(b: Bar) {
    b.low <= b.high
  }

  /** Over well-formed bars the IB low never exceeds the IB high. */
  lemma IbRangeOrdered(bars: seq<Bar>)
    requires |bars| > 0
    requires forall k :: 0 <= k < |bars| ==> WellFormed(bars[k])
    ensures MinLow(bars) <= MaxHigh(bars)
  {
    assert MinLow(bars) <= bars[0].low <= bars[0].high <= MaxHigh(bars);
  }

  // ---------------------------------------------------------------------------
  // Anchored VWAP
  // ---------------------------------------------------------------------------

  /** `(high + low + close) / 3`. */
  function TypicalPrice(d: Bar): real {
    (d.high + d.low + d.close) / 3.0
  }

  /** Total volume of a run of bars. */
  function SumVolume(bars: seq<Bar>): real {
    if |bars| == 0 then 0.0 else SumVolume(bars[..|bars| - 1]) + bars[|bars| - 1].volume
  }

  /** Total of volume times typical price over a run of bars. */
  function SumWeighted(bars: seq<Bar>): real {
    if |bars| == 0 then 0.0
    else SumWeighted(bars[..|bars| - 1]) + bars[|bars| - 1].volume * TypicalPrice(bars[|bars| - 1])
  }

  /**
   * The VWAP of the running sums: absent exactly when no positive volume has
   * been accumulated, otherwise the ratio of the price-weighted sum to the volume.
   */
  function Vwap(volumeSum: real, volumePriceSum: real): (r: Option<real>)
    ensures r.None? <==> volumeSum <= 0.0
    ensures r.Some? ==> r.value * volumeSum == volumePriceSum
  {
    if volumeSum > 0.0 then Some(volumePriceSum / volumeSum) else None
  }

  /** The running sums are additive over consecutive runs of bars. */
  lemma {:induction false} SumsAppend(a: seq<Bar>, b: seq<Bar>)
    ensures SumVolume(a + b) == SumVolume(a) + SumVolume(b)
    ensures SumWeighted(a + b) == SumWeighted(a) + SumWeighted(b)
  {
    if |b| > 0 {
      var b' := b[..|b| - 1];
      SumsAppend(a, b');
      assert (a + b)[..|a + b| - 1] == a + b';
    } else {
      assert a + b == a;
    }
  }

  /** Over bars that all have zero volume the sums stay zero and there is no VWAP. */
  lemma {:induction false} ZeroVolumeNoVwap(bars: seq<Bar>)
    requires forall k :: 0 <= k < |bars| ==> bars[k].volume == 0.0
    ensures SumVolume(bars) == 0.0 && SumWeighted(bars) == 0.0
    ensures Vwap(SumVolume(bars), SumWeighted(bars)) == None
  {
    if |bars| > 0 {
      ZeroVolumeNoVwap(bars[..|bars| - 1]);
    }
  }

  /** With non-negative volumes, the weighted sum lies between `lo` and `hi` times the volume. */
  lemma {:induction false} SumWeightedBounds(bars: seq<Bar>, lo: real, hi: real)
    requires forall k :: 0 <= k < |bars| ==> bars[k].volume >= 0.0
    requires forall k :: 0 <= k < |bars| ==> lo <= TypicalPrice(bars[k]) <= hi
    ensures lo * SumVolume(bars) <= SumWeighted(bars) <= hi * SumVolume(bars)
  {
    if |bars| > 0 {
      var last := bars[|bars| - 1];
      SumWeightedBounds(bars[..|bars| - 1], lo, hi);
      MulMonotone(last.volume, lo, TypicalPrice(last));
      MulMonotone(last.volume, TypicalPrice(last), hi);
    }
  }

  /** Multiplying by a non-negative factor keeps order (a nonlinear step kept apart). */
  lemma MulMonotone(v: real, a: real, b: real)
    requires v >= 0.0 && a <= b
    ensures v * a <= v * b
  {
  }

  /** A quotient by a positive divisor keeps the bounds of its dividend. */
  lemma QuotientBounds(w: real, s: real, lo: real, hi: real)
    requires s > 0.0 && lo * s <= w <= hi * s
    ensures lo <= w / s <= hi
  {
  }

  /**
   * The VWAP is a weighted mean: over bars with non-negative volume and a
   * positive total, it lies within the range of their typical prices.
   */
  lemma VwapWithinTypicalRange(bars: seq<Bar>, lo: real, hi: real)
    requires forall k :: 0 <= k < |bars| ==> bars[k].volume >= 0.0
    requires forall k :: 0 <= k < |bars| ==> lo <= TypicalPrice(bars[k]) <= hi
    requires SumVolume(bars) > 0.0
    ensures Vwap(SumVolume(bars), SumWeighted(bars)).Some?
    ensures lo <= Vwap(SumVolume(bars), SumWeighted(bars)).value <= hi
  {
    SumWeightedBounds(bars, lo, hi);
    QuotientBounds(SumWeighted(bars), SumVolume(bars), lo, hi);
  }

  // ---------------------------------------------------------------------------
  // Labels of the last bar
  // ---------------------------------------------------------------------------

  /** JavaScript truthiness of a nullable price: present and not zero. */
  predicate Truthy(p: Option<real>) {
    p.Some? && p.value != 0.0
  }

  /** One label per static level at position `x`, in level order. */
  function LevelItems(levels: seq<Level>, x: int): (r: seq<Item>)
    ensures |r| == |levels|
  {
    if |levels| == 0 then []
    else LevelItems(levels[..|levels| - 1], x) + [Item(Static(levels[|levels| - 1].name), x, levels[|levels| - 1].price)]
  }

  /** The k-th static label is the k-th level's, at position `x`. */
  lemma {:induction false} LevelItemsAt(levels: seq<Level>, x: int, k: nat)
    requires k < |levels|
    ensures LevelItems(levels, x)[k] == Item(Static(levels[k].name), x, levels[k].price)
  {
    if k < |levels| - 1 {
      LevelItemsAt(levels[..|levels| - 1], x, k);
    }
  }

  /** Extending the level prefix by one level appends that level's label. */
  lemma LevelItemsStep(levels: seq<Level>, n: nat, x: int)
    requires n < |levels|
    ensures LevelItems(levels[..n + 1], x) == LevelItems(levels[..n], x) + [Item(Static(levels[n].name), x, levels[n].price)]
  {
    assert levels[..n + 1][..n] == levels[..n];
  }

  /** The label for the NYO price, if it is set. */
  function NyoItems(nyoPrice: Option<real>, x: int): seq<Item> {
    if nyoPrice.Some? then [Item(NYO, x, nyoPrice.value)] else []
  }

  /** The IBH and IBL labels, if both prices are truthy. */
  function IbItems(ibHigh: Option<real>, ibLow: Option<real>, x: int): seq<Item> {
    if Truthy(ibHigh) && Truthy(ibLow) then [Item(IBH, x, ibHigh.value), Item(IBL, x, ibLow.value)] else []
  }

  /** The VWAP label, if the VWAP is present. */
  function VwapItems(vwap: Option<real>, x: int): seq<Item> {
    if vwap.Some? then [Item(NYVWAP, x, vwap.value)] else []
  }

  /** The labels of the last bar: NYO, then IBH and IBL, then VWAP, then the static levels. */
  function Labels(nyoPrice: Option<real>, ibHigh: Option<real>, ibLow: Option<real>, vwap: Option<real>,
                  levels: seq<Level>, index: int, labelOffset: int): seq<Item>
  {
    var x := index + SessionLabelOffset;
    NyoItems(nyoPrice, x) + IbItems(ibHigh, ibLow, x) + VwapItems(vwap, x) + LevelItems(levels, index + labelOffset)
  }

  /** The label list holds one label per present session price plus one per level. */
  lemma LabelsLength(nyoPrice: Option<real>, ibHigh: Option<real>, ibLow: Option<real>, vwap: Option<real>,
                     levels: seq<Level>, index: int, labelOffset: int)
    ensures |Labels(nyoPrice, ibHigh, ibLow, vwap, levels, index, labelOffset)| ==
              (if nyoPrice.Some? then 1 else 0) + (if Truthy(ibHigh) && Truthy(ibLow) then 2 else 0)
              + (if vwap.Some? then 1 else 0) + |levels|
  {
  }

  /**
   * The session labels come first, in the order NYO, IBH, IBL, VWAP, each at
   * ten bars right of the current bar and at its own price.
   */
  lemma LabelsSessionOrder(nyoPrice: Option<real>, ibHigh: Option<real>, ibLow: Option<real>, vwap: Option<real>,
                           levels: seq<Level>, index: int, labelOffset: int)
    ensures var r := Labels(nyoPrice, ibHigh, ibLow, vwap, levels, index, labelOffset);
            var n := if nyoPrice.Some? then 1 else 0;
            var b := if Truthy(ibHigh) && Truthy(ibLow) then 2 else 0;
            && (nyoPrice.Some? ==> r[0] == Item(NYO, index + 10, nyoPrice.value))
            && (b == 2 ==> r[n] == Item(IBH, index + 10, ibHigh.value) && r[n + 1] == Item(IBL, index + 10, ibLow.value))
            && (vwap.Some? ==> r[n + b] == Item(NYVWAP, index + 10, vwap.value))
  {
  }

  /** The static levels close the list, one label each, in level order. */
  lemma LabelsLevelsLast(nyoPrice: Option<real>, ibHigh: Option<real>, ibLow: Option<real>, vwap: Option<real>,
                         levels: seq<Level>, index: int, labelOffset: int, k: nat)
    requires k < |levels|
    ensures var r := Labels(nyoPrice, ibHigh, ibLow, vwap, levels, index, labelOffset);
            |r| >= |levels| && r[|r| - |levels| + k] == Item(Static(levels[k].name), index + labelOffset, levels[k].price)
  {
    var x := index + SessionLabelOffset;
    var head := NyoItems(nyoPrice, x) + IbItems(ibHigh, ibLow, x) + VwapItems(vwap, x);
    var tail := LevelItems(levels, index + labelOffset);
    assert Labels(nyoPrice, ibHigh, ibLow, vwap, levels, index, labelOffset) == head + tail;
    LevelItemsAt(levels, index + labelOffset, k);
    assert (head + tail)[|head| + k] == tail[k];
  }

  /** Regrouping a concatenation, the one step of `EmitLabels`'s loop the solver would otherwise search for. */
  lemma AppendAssociative<T>(a: seq<T>, b: seq<T>, c: seq<T>)
    ensures (a + b) + c == a + (b + c)
  {
  }

  /** The NYO, IB and VWAP pushes of `map`'s last-bar branch, at position `x`. */
  method EmitSessionLabels(nyoPrice: Option<real>, ibHigh: Option<real>, ibLow: Option<real>, vwap: Option<real>,
                           x: int) returns (items: seq<Item>)
    ensures items == NyoItems(nyoPrice, x) + IbItems(ibHigh, ibLow, x) + VwapItems(vwap, x)
  {
    items := [];
    if nyoPrice.Some? {
      items := items + [Item(NYO, x, nyoPrice.value)];
    }
    if Truthy(ibHigh) && Truthy(ibLow) {
      items := items + [Item(IBH, x, ibHigh.value)];
      items := items + [Item(IBL, x, ibLow.value)];
    }
    if vwap.Some? {
      items := items + [Item(NYVWAP, x, vwap.value)];
    }
  }

  /** The label-building pushes of `map`'s last-bar branch: session labels, then one per level. */
  method EmitLabels(nyoPrice: Option<real>, ibHigh: Option<real>, ibLow: Option<real>, vwap: Option<real>,
                    levels: seq<Level>, index: int, labelOffset: int) returns (items: seq<Item>)
    ensures items == Labels(nyoPrice, ibHigh, ibLow, vwap, levels, index, labelOffset)
  {
    items := EmitSessionLabels(nyoPrice, ibHigh, ibLow, vwap, index + SessionLabelOffset);
    ghost var head := items;
    for n := 0 to |levels|
      invariant items == head + LevelItems(levels[..n], index + labelOffset)
    {
      var level := levels[n];
      var item := Item(Static(level.name), index + labelOffset, level.price);
      LevelItemsStep(levels, n, index + labelOffset);
      AppendAssociative(head, LevelItems(levels[..n], index + labelOffset), [item]);
      items := items + [item];
    }
    assert levels[..|levels|] == levels;
  }

  // ---------------------------------------------------------------------------
  // The calculator
  // ---------------------------------------------------------------------------

  /** The `sethlement` calculator: one instance per indicator attachment. */
  class Sethlement {
    const props: Props
    var nyoPrice: Option<real>
    var nyoTimestamp: Option<int>
    var nyoIndex: Option<int>
    var ibHigh: Option<real>
    var ibLow: Option<real>
    var volumeSum: real
    var volumePriceSum: real
    /** The parsed level table; only `init` assigns it. */
    const levels: seq<Level>
    /** The bars accumulated into the VWAP sums since the last open reset (or since the first bar). */
    ghost var anchored: seq<Bar>

    ghost predicate Valid()
      reads this
    {
      && (ibHigh.Some? <==> ibLow.Some?)
      && volumeSum == SumVolume(anchored)
      && volumePriceSum == SumWeighted(anchored)
    }

    /** Both IB prices set implies the low does not exceed the high. */
    ghost predicate IbOrdered()
      reads this
    {
      ibHigh.Some? && ibLow.Some? ==> ibLow.value <= ibHigh.value
    }

    /**
     * `init`: no NYO price, no IB, the level table parsed from the embedded
     * text. The VWAP sums, which `map` reads as `(sum || 0)`, start at 0.
     */
    constructor Init(props: Props)
      ensures Valid() && IbOrdered() && this.props == props
      ensures nyoPrice == None && nyoTimestamp == None && nyoIndex == None
      ensures ibHigh == None && ibLow == None
      ensures volumeSum == 0.0 && volumePriceSum == 0.0 && anchored == []
      ensures levels == ParseLevels(Split(DefaultLevelText(), '\n'))
    {
      var table := ParseLevelText(DefaultLevelText());
      this.props := props;
      nyoPrice := None;
      nyoTimestamp := None;
      nyoIndex := None;
      ibHigh := None;
      ibLow := None;
      volumeSum := 0.0;
      volumePriceSum := 0.0;
      anchored := [];
      levels := table;
    }

    /**
     * `map(d, i, history)`: process one bar. On the open bar the anchor is
     * recorded and IB and VWAP are reset; on the IB bar the IB range is taken
     * from the preceding hour of bars; the bar is added to the VWAP sums; on the
     * last bar the label list is built.
     */
    method Map(d: Bar, i: int, history: seq<Bar>) returns (r: MapResult)
      requires Valid()
      modifies this
      ensures Valid()
      ensures IsNyoBar(props, d) ==>
                nyoPrice == Some(d.open) && nyoIndex == Some(d.index) && nyoTimestamp == Some(d.timestamp)
      ensures !IsNyoBar(props, d) ==>
                nyoPrice == old(nyoPrice) && nyoIndex == old(nyoIndex) && nyoTimestamp == old(nyoTimestamp)
      ensures IsNyoBar(props, d) ==> ibHigh == None && ibLow == None
      ensures IsIbBar(props, d) && IbRunLength(d.timestamp, history, i) > 0 ==>
                ibHigh == Some(MaxHigh(IbWindow(d.timestamp, history, i)))
                && ibLow == Some(MinLow(IbWindow(d.timestamp, history, i)))
      ensures !IsNyoBar(props, d) && !(IsIbBar(props, d) && IbRunLength(d.timestamp, history, i) > 0) ==>
                ibHigh == old(ibHigh) && ibLow == old(ibLow)
      ensures old(IbOrdered()) && (forall k :: 0 <= k < |history| ==> WellFormed(history[k])) ==> IbOrdered()
      ensures volumeSum == (if IsNyoBar(props, d) then 0.0 else old(volumeSum)) + d.volume
      ensures volumePriceSum == (if IsNyoBar(props, d) then 0.0 else old(volumePriceSum)) + d.volume * TypicalPrice(d)
      ensures anchored == if IsNyoBar(props, d) then [d] else old(anchored) + [d]
      ensures r.vwapLine == Vwap(volumeSum, volumePriceSum)
      ensures r.items == if d.isLast then Labels(nyoPrice, ibHigh, ibLow, r.vwapLine, levels, d.index, props.labelOffset)
                         else []
    {
      NyoAndIbExclusive(props, d);
      if IsNyoBar(props, d) {
        ResetAtOpen(d);
      }
      if IsIbBar(props, d) {
        CaptureIb(d.timestamp, i, history);
      }
      var vwap := Accumulate(d);
      var items := [];
      if d.isLast {
        items := EmitLabels(nyoPrice, ibHigh, ibLow, vwap, levels, d.index, props.labelOffset);
      }
      r := MapResult(items, vwap);
    }

    /** The open bar: anchor at its open price, clear the IB, restart the VWAP sums. */
    method ResetAtOpen(d: Bar)
      modifies this`nyoPrice, this`nyoTimestamp, this`nyoIndex, this`ibHigh, this`ibLow
      modifies this`volumeSum, this`volumePriceSum, this`anchored
      ensures Valid() && IbOrdered()
      ensures nyoPrice == Some(d.open) && nyoTimestamp == Some(d.timestamp) && nyoIndex == Some(d.index)
      ensures ibHigh == None && ibLow == None
      ensures volumeSum == 0.0 && volumePriceSum == 0.0 && anchored == []
    {
      nyoPrice := Some(d.open);
      nyoTimestamp := Some(d.timestamp);
      nyoIndex := Some(d.index);
      ibHigh := None;
      ibLow := None;
      volumeSum := 0.0;
      volumePriceSum := 0.0;
      anchored := [];
    }

    /**
     * The IB bar at time `t`: the IB range becomes the highest high and lowest
     * low of the bars of the preceding hour, and is left alone when there are none.
     */
    method CaptureIb(t: int, i: int, history: seq<Bar>)
      requires Valid()
      modifies this`ibHigh, this`ibLow
      ensures Valid()
      ensures IbRunLength(t, history, i) > 0 ==>
                ibHigh == Some(MaxHigh(IbWindow(t, history, i))) && ibLow == Some(MinLow(IbWindow(t, history, i)))
      ensures IbRunLength(t, history, i) == 0 ==> ibHigh == old(ibHigh) && ibLow == old(ibLow)
      ensures old(IbOrdered()) && (forall k :: 0 <= k < |history| ==> WellFormed(history[k])) ==> IbOrdered()
    {
      var bars := CollectIbBars(t, i, history);
      if |bars| > 0 {
        ibHigh := Some(MaxHigh(bars));
        ibLow := Some(MinLow(bars));
        if forall k :: 0 <= k < |history| ==> WellFormed(history[k]) {
          IbRangeOrdered(bars);
        }
      }
    }

    /** Adds bar `d` to the VWAP sums and returns the VWAP they now give. */
    method Accumulate(d: Bar) returns (vwap: Option<real>)
      requires Valid()
      modifies this`volumeSum, this`volumePriceSum, this`anchored
      ensures Valid()
      ensures volumeSum == old(volumeSum) + d.volume
      ensures volumePriceSum == old(volumePriceSum) + d.volume * TypicalPrice(d)
      ensures anchored == old(anchored) + [d]
      ensures vwap == Vwap(volumeSum, volumePriceSum)
    {
      SumsAppend(anchored, [d]);
      var vol := d.volume;
      var typical := TypicalPrice(d);
      volumeSum := volumeSum + vol;
      volumePriceSum := volumePriceSum + vol * typical;
      anchored := anchored + [d];
      vwap := Vwap(volumeSum, volumePriceSum);
    }
  }
}
