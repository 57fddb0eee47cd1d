/**
 * The chart component: `formatLabel`, which turns snake_case field names into
 * titles, and the `chartType` dispatch of `renderPlot`, which turns a
 * `graphData` payload into a list of trace descriptors and a layout for the
 * plotting library.
 */
module GraphRenderer {
  import opened Wrappers
  import opened Text
  import opened Models

  // ---------------------------------------------------------------------------
  // formatLabel
  // ---------------------------------------------------------------------------

  /** `toUpperCase` on one character (ASCII letters only). */
  function ToUpper(c: char): char {
    if 'a' <= c <= 'z' then (c as int - 32) as char else c
  }

  /** `toLowerCase` on one character (ASCII letters only). */
  function ToLower(c: char): char {
    if 'A' <= c <= 'Z' then (c as int + 32) as char else c
  }

  function LowerAll(w: string): string {
    seq(|w|, i requires 0 <= i < |w| => ToLower(w[i]))
  }

  /** `label.replace(/_/g, ' ')`. */
  function UnderscoresToSpaces(s: string): (r: string)
    ensures |r| == |s|
    ensures forall i :: 0 <= i < |s| ==> r[i] == if s[i] == '_' then ' ' else s[i]
  {
    if s == [] then [] else [if s[0] == '_' then ' ' else s[0]] + UnderscoresToSpaces(s[1..])
  }

  /**
   * `s.split(' ')`: the maximal space-free pieces of `s`, in order; two
   * adjacent spaces, or a space at either end, give an empty piece. There is
   * always at least one piece.
   */
  function Split(s: string): (ws: seq<string>)
    ensures |ws| >= 1
    ensures forall k :: 0 <= k < |ws| ==> ' ' !in ws[k]
  {
    if s == [] then [[]]
    else
      var rest := Split(s[1..]);
      if s[0] == ' ' then [[]] + rest else [[s[0]] + rest[0]] + rest[1..]
  }

  /** `ws.join(' ')`. */
  function Join(ws: seq<string>): string {
    if |ws| == 0 then []
    else if |ws| == 1 then ws[0]
    else ws[0] + " " + Join(ws[1..])
  }

  /** Joining the pieces of a split puts the string back together. */
  lemma {:induction false} SplitJoinRoundTrip(s: string)
    ensures Join(Split(s)) == s
  {
    if s != [] {
      var rest := Split(s[1..]);
      SplitJoinRoundTrip(s[1..]);
      if s[0] == ' ' {
        assert Split(s)[1..] == rest;
      } else if |rest| > 1 {
        assert Split(s)[1..] == rest[1..];
      }
    }
  }

  /** The `map` step: first character upper case, the rest lower case; empty words stay empty. */
  function Capitalize(word: string): string {
    if word == [] then [] else [ToUpper(word[0])] + LowerAll(word[1..])
  }

  function CapitalizeAll(ws: seq<string>): seq<string> {
    seq(|ws|, k requires 0 <= k < |ws| => Capitalize(ws[k]))
  }

  /** `formatLabel(label)`: underscores become spaces, then every space-separated word is capitalized. */
  function FormatLabel(raw: string): (r: string)
    ensures raw == [] ==> r == []
  {
    if raw == [] then [] else Join(CapitalizeAll(Split(UnderscoresToSpaces(raw))))
  }

  /**
   * A single left-to-right pass that title-cases `t` directly: a non-space
   * character is upper-cased when it starts a word (`atStart`) and
   * lower-cased otherwise. It is the reference FormatLabel is proved against.
   */
  function TitleCaseScan(t: string, atStart: bool): string {
    if t == [] then []
    else if t[0] == ' ' then " " + TitleCaseScan(t[1..], true)
    else [if atStart then ToUpper(t[0]) else ToLower(t[0])] + TitleCaseScan(t[1..], false)
  }

  /** The words after the first, as `join` renders them: each preceded by a space. */
  function JoinedTail(ws: seq<string>): string {
    if ws == [] then [] else " " + Join(CapitalizeAll(ws))
  }

  lemma JoinCapitalizedCons(ws: seq<string>)
    requires |ws| >= 1
    ensures Join(CapitalizeAll(ws)) == Capitalize(ws[0]) + JoinedTail(ws[1..])
  {
    if |ws| > 1 {
      assert CapitalizeAll(ws)[1..] == CapitalizeAll(ws[1..]);
    }
  }

  /** The scan, started inside or at the start of the first word, equals the split/map/join pipeline. */
  lemma {:induction false} ScanMatchesPipeline(t: string, atStart: bool)
    ensures var ws := Split(t);
      TitleCaseScan(t, atStart)
        == (if atStart then Capitalize(ws[0]) else LowerAll(ws[0])) + JoinedTail(ws[1..])
  {
    if t != [] {
      var rest := Split(t[1..]);
      if t[0] == ' ' {
        ScanMatchesPipeline(t[1..], true);
        JoinCapitalizedCons(rest);
        assert Split(t)[1..] == rest;
      } else {
        ScanMatchesPipeline(t[1..], false);
        var w := [t[0]] + rest[0];
        assert Split(t)[0] == w && Split(t)[1..] == rest[1..];
        assert w[1..] == rest[0];
        assert LowerAll(w) == [ToLower(t[0])] + LowerAll(rest[0]);
      }
    }
  }

  /** The scan, character by character. */
  lemma {:induction false} ScanAt(t: string, atStart: bool, i: nat)
    requires i < |t|
    ensures |TitleCaseScan(t, atStart)| == |t|
    ensures TitleCaseScan(t, atStart)[i]
      == if t[i] == ' ' then ' '
         else if (if i == 0 then atStart else t[i - 1] == ' ') then ToUpper(t[i])
         else ToLower(t[i])
  {
    if i > 0 {
      ScanAt(t[1..], t[0] == ' ', i - 1);
    } else if |t| > 1 {
      ScanAt(t[1..], t[0] == ' ', 0);
    }
  }

  /** FormatLabel is the title-casing scan of the label with underscores read as spaces. */
  lemma FormatLabelIsScan(raw: string)
    ensures FormatLabel(raw) == TitleCaseScan(UnderscoresToSpaces(raw), true)
  {
    if raw != [] {
      var t := UnderscoresToSpaces(raw);
      ScanMatchesPipeline(t, true);
      JoinCapitalizedCons(Split(t));
    }
  }

  /** A space or an underscore: where formatLabel puts a space and ends a word. */
  predicate IsSeparator(c: char) {
    c == ' ' || c == '_'
  }

  /**
   * What formatLabel makes of one character: a separator becomes a space; a
   * word's first character is upper-cased and every other one lower-cased.
   */
  function FormatChar(c: char, atStart: bool): char {
    if IsSeparator(c) then ' ' else if atStart then ToUpper(c) else ToLower(c)
  }

  /**
   * FormatLabel, character by character: the output has the input's length,
   * and position i is the input's character formatted as a word start
   * exactly when it is the first one or follows a separator.
   */
  lemma FormatLabelAt(raw: string, i: nat)
    requires i < |raw|
    ensures |FormatLabel(raw)| == |raw|
    ensures FormatLabel(raw)[i] == FormatChar(raw[i], i == 0 || IsSeparator(raw[i - 1]))
  {
    FormatLabelIsScan(raw);
    ScanAt(UnderscoresToSpaces(raw), true, i);
  }

  /** FormatLabel keeps the length of its input and never outputs an underscore. */
  lemma FormatLabelShape(raw: string)
    ensures |FormatLabel(raw)| == |raw|
    ensures '_' !in FormatLabel(raw)
  {
    if raw != [] {
      FormatLabelAt(raw, 0);
      forall i | 0 <= i < |raw| ensures FormatLabel(raw)[i] != '_' {
        FormatLabelAt(raw, i);
      }
    }
  }

  /** Every word of the output starts with a non-lower-case and continues with non-upper-case characters. */
  lemma FormatLabelWordCase(raw: string, i: nat)
    requires i < |raw|
    ensures var r := FormatLabel(raw);
      |r| == |raw| &&
      (r[i] != ' ' && (i == 0 || r[i - 1] == ' ') ==> !('a' <= r[i] <= 'z')) &&
      (r[i] != ' ' && i > 0 && r[i - 1] != ' ' ==> !('A' <= r[i] <= 'Z'))
  {
    FormatLabelAt(raw, i);
    if i > 0 {
      FormatLabelAt(raw, i - 1);
    }
  }

  /** Formatting a formatted character the same way changes nothing, and separators stay separators. */
  lemma FormatCharFacts(c: char, atStart: bool)
    ensures FormatChar(FormatChar(c, atStart), atStart) == FormatChar(c, atStart)
    ensures IsSeparator(FormatChar(c, atStart)) <==> IsSeparator(c)
  {
  }

  /** Formatting an already formatted label changes nothing. */
  lemma FormatLabelIdempotent(raw: string)
    ensures FormatLabel(FormatLabel(raw)) == FormatLabel(raw)
  {
    var r := FormatLabel(raw);
    var rr := FormatLabel(r);
    FormatLabelShape(raw);
    FormatLabelShape(r);
    forall i | 0 <= i < |r| ensures rr[i] == r[i] {
      FormatLabelIdempotentAt(raw, i);
    }
  }

  lemma FormatLabelIdempotentAt(raw: string, i: nat)
    requires i < |raw|
    ensures |FormatLabel(FormatLabel(raw))| == |FormatLabel(raw)| == |raw|
    ensures FormatLabel(FormatLabel(raw))[i] == FormatLabel(raw)[i]
  {
    var r := FormatLabel(raw);
    FormatLabelAt(raw, i);
    FormatLabelAt(r, i);
    var start := i == 0 || IsSeparator(raw[i - 1]);
    if i > 0 {
      FormatLabelAt(raw, i - 1);
      FormatCharFacts(raw[i - 1], i == 1 || IsSeparator(raw[i - 2]));
    }
    assert start == (i == 0 || IsSeparator(r[i - 1]));
    FormatCharFacts(raw[i], start);
  }

  // ---------------------------------------------------------------------------
  // renderPlot: the chartType dispatch
  // ---------------------------------------------------------------------------

  datatype TraceType = PieTrace | BarTrace | ScatterTrace

  /** The `mode` of a trace; `NoMode` when the trace sets none. */
  datatype Mode = NoMode | Markers | LinesMarkers

  /** The `fill` of a trace; `NoFill` when the trace sets none, `FillNone` for `'none'`. */
  datatype Fill = NoFill | FillNone | FillToNextY

  /**
   * A colour as the component chooses it: the primary orange (translucent or
   * solid), entry `index` of the six-colour series palette, or step `index`
   * of the `count`-step orange gradient (ratio index / max(count - 1, 1)).
   */
  datatype Colour = Primary | PrimarySolid | Palette(index: nat) | GradientStep(index: nat, count: nat)

  /** `marker.color` (or `marker.colors`): one colour for all points, or one per point. */
  datatype Colouring = Single(colour: Colour) | PerPoint(colours: seq<Colour>)

  /** `marker.size`: the library default, a fixed size, or a size per point. */
  datatype MarkerSize = DefaultSize | FixedSize(px: nat) | SizePerPoint(sizes: seq<Datum>)

  /** One trace handed to the plotting library, without its fixed styling constants. */
  datatype Trace = Trace(
    traceType: TraceType,
    mode: Mode,
    x: seq<Datum>,
    y: seq<Datum>,
    sliceLabels: seq<string>,
    values: seq<Datum>,
    text: Option<seq<string>>,
    name: Option<string>,
    lineColour: Option<Colour>,
    marker: Colouring,
    size: MarkerSize,
    fill: Fill,
    hoverTemplate: string)

  datatype AxisTitles = AxisTitles(x: string, y: string)

  /** The parts of the layout the dispatch decides. */
  datatype Layout = Layout(title: string, showLegend: bool, axes: Option<AxisTitles>)

  datatype Plot = Plot(data: seq<Trace>, layout: Layout)

  const PaletteSize: nat := 6

  const PieHover := "<b>%{label}</b><br>Value: %{value}<br>Percentage: %{percent}<extra></extra>"

  function AxisHover(fx: string, fy: string): string {
    "<b>%{text}</b><br>" + fx + ": %{x}<br>" + fy + ": %{y}<extra></extra>"
  }

  /** The per-point gradient of `n` points, in index order. */
  function Gradient(n: nat): seq<Colour> {
    seq(n, i requires 0 <= i < n => GradientStep(i, n))
  }

  function OrEmpty<T>(o: Option<seq<T>>): seq<T> {
    o.GetOr([])
  }

  /** `series.length > 0` for a present `series` array. */
  predicate HasSeries(g: GraphData) {
    g.series.Some? && |g.series.value| > 0
  }

  function FormattedX(g: GraphData): string {
    FormatLabel(g.xLabel.GetOr([]))
  }

  function FormattedY(g: GraphData): string {
    FormatLabel(g.yLabel.GetOr([]))
  }

  /** `series.name || 'Series ' + (idx + 1)`: an absent or empty name gets the default. */
  function SeriesName(se: Series, idx: nat): string {
    if se.name.Some? && se.name.value != [] then se.name.value else "Series " + NatToString(idx + 1)
  }

  function PieTraceOf(g: GraphData): Trace {
    var labels := OrEmpty(g.labels);
    Trace(PieTrace, NoMode, [], [], labels, OrEmpty(g.values), None, None, None,
          PerPoint(Gradient(|labels|)), DefaultSize, NoFill, PieHover)
  }

  function BubbleTraceOf(g: GraphData): Trace {
    Trace(ScatterTrace, Markers, OrEmpty(g.x), OrEmpty(g.y), [], [], g.labels, None, None,
          Single(Primary), SizePerPoint(OrEmpty(g.sizes)), NoFill, AxisHover(FormattedX(g), FormattedY(g)))
  }

  function BarTraceOf(g: GraphData): Trace {
    var ys := OrEmpty(g.y);
    Trace(BarTrace, NoMode, OrEmpty(g.x), ys, [], [], Some(OrEmpty(g.labels)), None, None,
          if |ys| > 0 then PerPoint(Gradient(|ys|)) else Single(Primary),
          DefaultSize, NoFill, AxisHover(FormattedX(g), FormattedY(g)))
  }

  function SeriesTrace(se: Series, idx: nat, fx: string, fy: string): Trace {
    var colour := Palette(idx % PaletteSize);
    Trace(ScatterTrace, LinesMarkers, OrEmpty(se.x), OrEmpty(se.y), [], [], se.labels,
          Some(SeriesName(se, idx)), Some(colour), Single(colour), FixedSize(7), FillNone, AxisHover(fx, fy))
  }

  /** The traces of a `series` array: the `forEach` of the line branch. */
  function SeriesTraces(ss: seq<Series>, fx: string, fy: string): seq<Trace> {
    seq(|ss|, i requires 0 <= i < |ss| => SeriesTrace(ss[i], i, fx, fy))
  }

  function LineTraceOf(g: GraphData): Trace {
    Trace(ScatterTrace, LinesMarkers, OrEmpty(g.x), OrEmpty(g.y), [], [], Some(OrEmpty(g.labels)), None,
          Some(PrimarySolid), Single(PrimarySolid), FixedSize(8), FillToNextY, AxisHover(FormattedX(g), FormattedY(g)))
  }

  function ScatterTraceOf(g: GraphData): Trace {
    Trace(ScatterTrace, Markers, OrEmpty(g.x), OrEmpty(g.y), [], [], g.labels, None, None,
          Single(Primary), FixedSize(10), NoFill, AxisHover(FormattedX(g), FormattedY(g)))
  }

  /** What `renderPlot` draws for a payload: the specification RenderPlot is proved against. */
  function Render(g: GraphData): Plot {
    var fx := FormattedX(g);
    var fy := FormattedY(g);
    if g.chartType == Pie then
      Plot([PieTraceOf(g)], Layout(if fy == [] then "Distribution" else fy, true, None))
    else
      var layout := Layout(fy + " vs " + fx, false, Some(AxisTitles(fx, fy)));
      if g.chartType == Bubble then Plot([BubbleTraceOf(g)], layout)
      else if g.chartType == Bar then Plot([BarTraceOf(g)], layout)
      else if g.chartType == Line || g.chartType == MultiLine then
        if HasSeries(g) then Plot(SeriesTraces(g.series.value, fx, fy), layout.(showLegend := true))
        else Plot([LineTraceOf(g)], layout)
      else Plot([ScatterTraceOf(g)], layout)
  }

  /**
   * `renderPlot`: nothing is drawn without a payload; otherwise the traces
   * are accumulated into `data` (one `push` per series in the line branch)
   * and the legend switched on afterwards, which yields exactly Render.
   */
  method RenderPlot(graphData: Option<GraphData>) returns (plot: Option<Plot>)
    ensures graphData.None? ==> plot.None?
    ensures graphData.Some? ==> plot == Some(Render(graphData.value))
  {
    if graphData.None? {
      return None;
    }
    var g := graphData.value;
    var data: seq<Trace> := [];
    var fx := FormatLabel(g.xLabel.GetOr([]));
    var fy := FormatLabel(g.yLabel.GetOr([]));
    var layout: Layout;
    if g.chartType == Pie {
      layout := Layout(if fy == [] then "Distribution" else fy, true, None);
      data := data + [PieTraceOf(g)];
    } else if g.chartType == Bubble {
      layout := Layout(fy + " vs " + fx, false, Some(AxisTitles(fx, fy)));
      data := data + [BubbleTraceOf(g)];
    } else {
      layout := Layout(fy + " vs " + fx, false, Some(AxisTitles(fx, fy)));
      var hasSeries := g.series.Some? && |g.series.value| > 0;
      if g.chartType == Bar {
        data := data + [BarTraceOf(g)];
      } else if g.chartType == Line || g.chartType == MultiLine {
        if hasSeries {
          layout := layout.(showLegend := true);
          var ss := g.series.value;
          var idx := 0;
          while idx < |ss|
            invariant 0 <= idx <= |ss|
            invariant data == SeriesTraces(ss, fx, fy)[..idx]
          {
            data := data + [SeriesTrace(ss[idx], idx, fx, fy)];
            idx := idx + 1;
          }
          assert SeriesTraces(ss, fx, fy)[..idx] == SeriesTraces(ss, fx, fy);
        } else {
          data := data + [LineTraceOf(g)];
        }
      } else {
        data := data + [ScatterTraceOf(g)];
      }
    }
    assert Plot(data, layout) == Render(g);
    plot := Some(Plot(data, layout));
  }

  // ---------------------------------------------------------------------------
  // Properties of the dispatch
  // ---------------------------------------------------------------------------

  /** A pie chart is one pie trace with a gradient colour per label, a legend, and a "Distribution" fallback title. */
  lemma PieDispatch(g: GraphData)
    requires g.chartType == Pie
    ensures var p := Render(g);
      |p.data| == 1 && p.data[0].traceType == PieTrace && p.layout.showLegend && p.layout.axes.None? &&
      p.layout.title == (if FormattedY(g) == [] then "Distribution" else FormattedY(g)) &&
      p.data[0].sliceLabels == OrEmpty(g.labels) && p.data[0].values == OrEmpty(g.values) &&
      p.data[0].marker.PerPoint? && |p.data[0].marker.colours| == |OrEmpty(g.labels)| &&
      forall i :: 0 <= i < |p.data[0].marker.colours| ==> p.data[0].marker.colours[i].index == i
  {
  }

  /** A bubble chart is one marker-only scatter trace sized point by point from `sizes`. */
  lemma BubbleDispatch(g: GraphData)
    requires g.chartType == Bubble
    ensures var p := Render(g);
      |p.data| == 1 && p.data[0].traceType == ScatterTrace && p.data[0].mode == Markers &&
      p.data[0].size == SizePerPoint(OrEmpty(g.sizes)) && p.data[0].x == OrEmpty(g.x) && p.data[0].y == OrEmpty(g.y)
  {
  }

  /** A bar chart is one bar trace with one gradient colour per y value, or the flat primary colour when y is empty. */
  lemma BarDispatch(g: GraphData)
    requires g.chartType == Bar
    ensures var p := Render(g);
      |p.data| == 1 && p.data[0].traceType == BarTrace &&
      (|OrEmpty(g.y)| > 0 ==> p.data[0].marker.PerPoint? && |p.data[0].marker.colours| == |OrEmpty(g.y)| &&
                                forall i :: 0 <= i < |p.data[0].marker.colours| ==> p.data[0].marker.colours[i].index == i) &&
      (OrEmpty(g.y) == [] ==> p.data[0].marker == Single(Primary))
  {
  }

  /**
   * A line or multi-line chart with series draws one lines+markers trace per
   * series, in order, coloured by cycling the palette, with default names
   * "Series 1", "Series 2", ... and a legend.
   */
  lemma SeriesDispatch(g: GraphData)
    requires g.chartType == Line || g.chartType == MultiLine
    requires HasSeries(g)
    ensures var p := Render(g); var ss := g.series.value;
      |p.data| == |ss| && p.layout.showLegend &&
      forall i :: 0 <= i < |ss| ==>
        p.data[i].traceType == ScatterTrace && p.data[i].mode == LinesMarkers && p.data[i].fill == FillNone &&
        p.data[i].x == OrEmpty(ss[i].x) && p.data[i].y == OrEmpty(ss[i].y) &&
        p.data[i].lineColour == Some(Palette(i % PaletteSize)) &&
        p.data[i].name == Some(if ss[i].name.Some? && ss[i].name.value != [] then ss[i].name.value
                               else "Series " + NatToString(i + 1))
  {
  }

  /** Two series fewer than six positions apart get different palette colours. */
  lemma {:induction false} SeriesColoursDistinct(g: GraphData, i: nat, j: nat)
    requires g.chartType == Line || g.chartType == MultiLine
    requires HasSeries(g)
    requires i < j < |g.series.value| && j - i < PaletteSize
    ensures Render(g).data[i].lineColour != Render(g).data[j].lineColour
  {
    SeriesDispatch(g);
    var q := i / PaletteSize;
    assert i == PaletteSize * q + i % PaletteSize;
    assert j == PaletteSize * (j / PaletteSize) + j % PaletteSize;
  }

  /** A line or multi-line chart without series is a single filled lines+markers trace. */
  lemma SingleLineDispatch(g: GraphData)
    requires g.chartType == Line || g.chartType == MultiLine
    requires !HasSeries(g)
    ensures var p := Render(g);
      |p.data| == 1 && p.data[0].traceType == ScatterTrace && p.data[0].mode == LinesMarkers &&
      p.data[0].fill == FillToNextY && !p.layout.showLegend
  {
  }

  /** Any other tag (scatter or one not declared) falls back to a single marker-only scatter trace. */
  lemma ScatterFallbackDispatch(g: GraphData)
    requires g.chartType !in {Pie, Bubble, Bar, Line, MultiLine}
    ensures var p := Render(g);
      |p.data| == 1 && p.data[0].traceType == ScatterTrace && p.data[0].mode == Markers && !p.layout.showLegend
  {
  }

  /**
   * Every chart but the pie is titled "<y label> vs <x label>" with the
   * formatted labels on the axes, and shows a legend only for series.
   */
  lemma AxisChartLayout(g: GraphData)
    requires g.chartType != Pie
    ensures var p := Render(g);
      p.layout.title == FormattedY(g) + " vs " + FormattedX(g) &&
      p.layout.axes == Some(AxisTitles(FormattedX(g), FormattedY(g))) &&
      (p.layout.showLegend <==> (g.chartType == Line || g.chartType == MultiLine) && HasSeries(g))
  {
  }
}
