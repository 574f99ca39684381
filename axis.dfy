/**
  The chart axis: an estimate of the margin its tick labels need, and its
  rendering as an SVG group holding one tick group (a line and a label)
  per tick value of the scale.
 */
module Axes {
  import opened Wrappers
  import opened Svg
  import opened Collaborators

  /** The edge of the plot area an axis is drawn along. */
  datatype Orient = Left | Bottom
  {
    /** The string the source uses for this orientation; the two are distinct. */
    function Name(): (r: string)
      ensures Left? <==> r == "left"
      ensures Bottom? <==> r == "bottom"
    {
      match this
      case Left => "left"
      case Bottom => "bottom"
    }
  }

  /** Raised by `max` over the labels of a scale that has no ticks. */
  datatype MarginError = EmptyTicks

  /** The largest of `xs`, or None when there is none (where `max` raises). */
  function Max(xs: seq<nat>): (r: Option<nat>)
    ensures r.None? <==> xs == []
    ensures r.Some? ==> r.value in xs
    ensures r.Some? ==> forall j :: 0 <= j < |xs| ==> xs[j] <= r.value
  {
    if xs == [] then None
    else
      match Max(xs[1..])
      case None => Some(xs[0])
      case Some(m) => Some(if m < xs[0] then xs[0] else m)
  }

  /** The length of the text of every tick value, in tick order. */
  function LabelLengths<V>(values: seq<V>, ops: ValueOps<V>): seq<nat>
  {
    seq(|values|, i requires 0 <= i < |values| => |ops.textOf(values[i])|)
  }

  /** `m` is the character count of the longest label among `values`. */
  predicate IsLongest<V>(values: seq<V>, ops: ValueOps<V>, m: nat)
  {
    && (exists k :: 0 <= k < |values| && |ops.textOf(values[k])| == m)
    && (forall j :: 0 <= j < |values| ==> |ops.textOf(values[j])| <= m)
  }

  /** `max` over the label lengths gives exactly the length of a longest label. */
  lemma MaxOfLengths<V>(values: seq<V>, ops: ValueOps<V>, m: nat)
    ensures Max(LabelLengths(values, ops)) == Some(m) <==> IsLongest(values, ops, m)
  {
    var lengths := LabelLengths(values, ops);
    if Max(lengths) == Some(m) {
      var k :| 0 <= k < |lengths| && lengths[k] == m;
      assert |ops.textOf(values[k])| == m;
      assert forall j :: 0 <= j < |values| ==> |ops.textOf(values[j])| == lengths[j] <= m;
    }
    if IsLongest(values, ops, m) {
      var k :| 0 <= k < |values| && |ops.textOf(values[k])| == m;
      assert lengths[k] == m;
      var top := Max(lengths).value;
      assert top in lengths;
      var t :| 0 <= t < |lengths| && lengths[t] == top;
      assert |ops.textOf(values[t])| == top;
    }
  }

  /** range_min and range_max handed to the scale: inverted for a left axis. */
  function Range(orient: Orient, width: real, height: real): (real, real)
  {
    match orient
    case Left => (height, 0.0)
    case Bottom => (0.0, width)
  }

  /**
    The tick line at projected coordinate `p`: a horizontal line across the
    plot for a left axis, a vertical one down through the labels for a
    bottom axis; the zero tick is drawn in the zero colour.
   */
  function TickLine(orient: Orient, theme: Theme, width: real, height: real, p: real, zero: bool): Node
  {
    var stroke := Str(if zero then theme.zeroColor else theme.tickColor);
    var strokeWidth := Num(theme.tickWidth);
    match orient
    case Left =>
      Element("line", [("x1", Num(-theme.tickSize)), ("y1", Num(p)), ("x2", Num(width)), ("y2", Num(p)),
                       ("stroke", stroke), ("stroke-width", strokeWidth)])
    case Bottom =>
      Element("line", [("x1", Num(p)), ("y1", Num(0.0)), ("x2", Num(p)), ("y2", Num(height + theme.tickSize)),
                       ("stroke", stroke), ("stroke-width", strokeWidth)])
  }

  /**
    The tick label at projected coordinate `p`: right-aligned to the left of
    a left axis, centred below a bottom axis.
   */
  function TickLabel(orient: Orient, theme: Theme, height: real, p: real, text: string): Node
  {
    var fill := ("fill", Str(theme.labelColor));
    var font := ("font-family", Str(theme.tickFontFamily));
    var attrs := match orient
      case Left =>
        [("x", Num(-(theme.tickSize * 2.0))), ("y", Num(p)), ("dy", Str("0.32em")), fill,
         ("text-anchor", Str("end")), font]
      case Bottom =>
        [("x", Num(p)), ("y", Num(height + theme.tickSize * 2.0)), ("dy", Str("1em")), fill,
         ("text-anchor", Str("middle")), font];
    Node("text", attrs, [], Some(text))
  }

  /** The attributes of a tick line, looked up one by one. */
  lemma TickLineAttrs(orient: Orient, theme: Theme, width: real, height: real, p: real, zero: bool)
    ensures var line := TickLine(orient, theme, width, height, p, zero);
            && line.tag == "line" && line.children == [] && line.text == None
            && Get(line, "x1") == Some(Num(if orient == Left then -theme.tickSize else p))
            && Get(line, "y1") == Some(Num(if orient == Left then p else 0.0))
            && Get(line, "x2") == Some(Num(if orient == Left then width else p))
            && Get(line, "y2") == Some(Num(if orient == Left then p else height + theme.tickSize))
            && Get(line, "stroke") == Some(Str(if zero then theme.zeroColor else theme.tickColor))
            && Get(line, "stroke-width") == Some(Num(theme.tickWidth))
  {
    var attrs := TickLine(orient, theme, width, height, p, zero).attrs;
    LookupAt(attrs, 0, "x1");
    LookupAt(attrs, 1, "y1");
    LookupAt(attrs, 2, "x2");
    LookupAt(attrs, 3, "y2");
    LookupAt(attrs, 4, "stroke");
    LookupAt(attrs, 5, "stroke-width");
  }

  /** The attributes of a tick label, looked up one by one. */
  lemma TickLabelAttrs(orient: Orient, theme: Theme, height: real, p: real, text: string)
    ensures var t := TickLabel(orient, theme, height, p, text);
            && t.tag == "text" && t.children == [] && t.text == Some(text)
            && Get(t, "x") == Some(Num(if orient == Left then -(theme.tickSize * 2.0) else p))
            && Get(t, "y") == Some(Num(if orient == Left then p else height + theme.tickSize * 2.0))
            && Get(t, "dy") == Some(Str(if orient == Left then "0.32em" else "1em"))
            && Get(t, "fill") == Some(Str(theme.labelColor))
            && Get(t, "text-anchor") == Some(Str(if orient == Left then "end" else "middle"))
            && Get(t, "font-family") == Some(Str(theme.tickFontFamily))
  {
    var attrs := TickLabel(orient, theme, height, p, text).attrs;
    LookupAt(attrs, 0, "x");
    LookupAt(attrs, 1, "y");
    LookupAt(attrs, 2, "dy");
    LookupAt(attrs, 3, "fill");
    LookupAt(attrs, 4, "text-anchor");
    LookupAt(attrs, 5, "font-family");
  }

  /** Building a tick line the way the renderer does gives `TickLine`. */
  lemma BuiltLine(orient: Orient, theme: Theme, width: real, height: real, p: real, zero: bool,
                  x1: real, y1: real, x2: real, y2: real)
    requires orient == Left ==> x1 == -theme.tickSize && y1 == p && x2 == width && y2 == p
    requires orient == Bottom ==> x1 == p && y1 == 0.0 && x2 == p && y2 == height + theme.tickSize
    ensures var stroke := if zero then theme.zeroColor else theme.tickColor;
            Set(Element("line", [("x1", Num(x1)), ("y1", Num(y1)), ("x2", Num(x2)), ("y2", Num(y2)),
                                 ("stroke", Str(stroke))]),
                "stroke-width", Num(theme.tickWidth))
            == TickLine(orient, theme, width, height, p, zero)
  {
    var stroke := if zero then theme.zeroColor else theme.tickColor;
    SetAttrNew([("x1", Num(x1)), ("y1", Num(y1)), ("x2", Num(x2)), ("y2", Num(y2)), ("stroke", Str(stroke))],
               "stroke-width", Num(theme.tickWidth));
  }

  /** Building a tick label the way the renderer does gives `TickLabel`. */
  lemma BuiltLabel(orient: Orient, theme: Theme, height: real, p: real, text: string,
                   x: real, y: real, dy: string, anchor: string)
    requires orient == Left ==> x == -(theme.tickSize * 2.0) && y == p && dy == "0.32em" && anchor == "end"
    requires orient == Bottom ==> x == p && y == height + theme.tickSize * 2.0 && dy == "1em" && anchor == "middle"
    ensures var start := Element("text", [("x", Num(x)), ("y", Num(y)), ("dy", Str(dy)), ("fill", Str(theme.labelColor))]);
            Set(Set(start, "text-anchor", Str(anchor)), "font-family", Str(theme.tickFontFamily)).(text := Some(text))
            == TickLabel(orient, theme, height, p, text)
  {
    var attrs := [("x", Num(x)), ("y", Num(y)), ("dy", Str(dy)), ("fill", Str(theme.labelColor))];
    SetAttrNew(attrs, "text-anchor", Str(anchor));
    SetAttrNew(attrs + [("text-anchor", Str(anchor))], "font-family", Str(theme.tickFontFamily));
  }

  /** Multiplying by a non-negative factor keeps the order of two counts. */
  lemma MulMonotone(a: nat, b: nat, w: real, bw: real)
    requires a <= b && 0.0 <= w && bw == b as real * w
    ensures a as real * w <= bw
  {
  }

  /** A prefix one longer is the shorter prefix followed by the next element. */
  lemma PrefixStep<T>(s: seq<T>, i: nat)
    requires i < |s|
    ensures s[..i + 1] == s[..i] + [s[i]]
  {
  }

  class Axis<V> {
    /** The tick count requested from the scale. */
    const ticks: int
    /** Called as (value, index, count) to give the text of each label. */
    const tickFormatter: Option<(V, int, int) -> string>

    constructor (ticks: int := 5, tickFormatter: Option<(V, int, int) -> string> := None)
      ensures this.ticks == ticks && this.tickFormatter == tickFormatter
    {
      this.ticks := ticks;
      this.tickFormatter := tickFormatter;
    }

    /**
      The margin the labels need: for a left axis the widest label's
      character count times the character width (an error when the scale
      has no ticks), for a bottom axis the character height.
     */
    function EstimateLabelMargin(scale: Scale<V>, orient: Orient, theme: Theme, ops: ValueOps<V>)
      : (r: Result<real, MarginError>)
      ensures orient == Bottom ==> r == Ok(theme.tickFontCharHeight)
      ensures orient == Left ==> (r.Ok? <==> scale.ticks(ticks) != [])
      ensures orient == Left && r.Ok? ==>
                exists m :: IsLongest(scale.ticks(ticks), ops, m) && r.value == m as real * theme.tickFontCharWidth
    {
      match orient
      case Left =>
        var values := scale.ticks(ticks);
        var lengths := LabelLengths(values, ops);
        (match Max(lengths)
         case None => Err(EmptyTicks)
         case Some(m) =>
           MaxOfLengths(values, ops, m);
           Ok(m as real * theme.tickFontCharWidth))
      case Bottom => Ok(theme.tickFontCharHeight)
    }

    /** The text of the label of `value`, the `index`-th of `count` ticks: the formatter's, or the value's own. */
    function LabelText(value: V, index: int, count: int, ops: ValueOps<V>): string
    {
      match tickFormatter
      case Some(f) => f(value, index, count)
      case None => ops.textOf(value)
    }

    /** The tick group of the `i`-th of `values`. */
    function TickGroup(width: real, height: real, scale: Scale<V>, orient: Orient, theme: Theme,
                       ops: ValueOps<V>, values: seq<V>, i: nat): Node
      requires i < |values|
    {
      var (lo, hi) := Range(orient, width, height);
      var p := scale.project(values[i], lo, hi);
      Node("g", [("class", Str("tick"))],
           [TickLine(orient, theme, width, height, p, ops.equalsZero(values[i])),
            TickLabel(orient, theme, height, p, LabelText(values[i], i, |values|, ops))],
           None)
    }

    /** One tick group per tick value, in tick order. */
    function TickGroups(width: real, height: real, scale: Scale<V>, orient: Orient, theme: Theme,
                        ops: ValueOps<V>, values: seq<V>): seq<Node>
    {
      seq(|values|, i requires 0 <= i < |values| => TickGroup(width, height, scale, orient, theme, ops, values, i))
    }

    /** The whole axis: the tick groups of the scale's ticks inside one group. */
    function Rendered(width: real, height: real, scale: Scale<V>, orient: Orient, theme: Theme, ops: ValueOps<V>): Node
    {
      Node("g", [("class", Str("axis " + orient.Name()))],
           TickGroups(width, height, scale, orient, theme, ops, scale.ticks(ticks)), None)
    }

    /**
      The axis is a `g` of class "axis <orient>" with exactly one child per
      tick value; no ticks give an empty group.
     */
    lemma GroupShape(width: real, height: real, scale: Scale<V>, orient: Orient, theme: Theme, ops: ValueOps<V>)
      ensures var g := Rendered(width, height, scale, orient, theme, ops);
              && g.tag == "g"
              && Get(g, "class") == Some(Str("axis " + orient.Name()))
              && |g.children| == |scale.ticks(ticks)|
              && (g.children == [] <==> scale.ticks(ticks) == [])
    {
    }

    /** Every tick group is a `g` of class "tick" holding a line followed by a text. */
    lemma TickShape(width: real, height: real, scale: Scale<V>, orient: Orient, theme: Theme, ops: ValueOps<V>, i: nat)
      requires i < |scale.ticks(ticks)|
      ensures var t := Rendered(width, height, scale, orient, theme, ops).children[i];
              && t.tag == "g"
              && Get(t, "class") == Some(Str("tick"))
              && |t.children| == 2
              && t.children[0].tag == "line"
              && t.children[1].tag == "text"
    {
    }

    /**
      The line of the tick of a zero value is stroked in the zero colour,
      every other one in the tick colour, always with the tick width.
     */
    lemma StrokeRule(width: real, height: real, scale: Scale<V>, orient: Orient, theme: Theme, ops: ValueOps<V>, i: nat)
      requires i < |scale.ticks(ticks)|
      ensures var value := scale.ticks(ticks)[i];
              var line := Rendered(width, height, scale, orient, theme, ops).children[i].children[0];
              && (ops.equalsZero(value) ==> Get(line, "stroke") == Some(Str(theme.zeroColor)))
              && (!ops.equalsZero(value) ==> Get(line, "stroke") == Some(Str(theme.tickColor)))
              && Get(line, "stroke-width") == Some(Num(theme.tickWidth))
    {
      var values := scale.ticks(ticks);
      var (lo, hi) := Range(orient, width, height);
      var p := scale.project(values[i], lo, hi);
      TickLineAttrs(orient, theme, width, height, p, ops.equalsZero(values[i]));
    }

    /**
      On a left axis the value is projected onto [height, 0]; its line runs
      horizontally from -tickSize to the plot width at that height, and its
      label ends at -2 * tickSize, vertically centred.
     */
    lemma LeftLayout(width: real, height: real, scale: Scale<V>, theme: Theme, ops: ValueOps<V>, i: nat)
      requires i < |scale.ticks(ticks)|
      ensures var p := scale.project(scale.ticks(ticks)[i], height, 0.0);
              var t := Rendered(width, height, scale, Left, theme, ops).children[i];
              var line, text := t.children[0], t.children[1];
              && Get(line, "x1") == Some(Num(-theme.tickSize))
              && Get(line, "x2") == Some(Num(width))
              && Get(line, "y1") == Some(Num(p))
              && Get(line, "y2") == Some(Num(p))
              && Get(text, "x") == Some(Num(-(2.0 * theme.tickSize)))
              && Get(text, "y") == Some(Num(p))
              && Get(text, "dy") == Some(Str("0.32em"))
              && Get(text, "text-anchor") == Some(Str("end"))
    {
      var values := scale.ticks(ticks);
      var (lo, hi) := Range(Left, width, height);
      var p := scale.project(values[i], lo, hi);
      TickLineAttrs(Left, theme, width, height, p, ops.equalsZero(values[i]));
      TickLabelAttrs(Left, theme, height, p, LabelText(values[i], i, |values|, ops));
    }

    /**
      On a bottom axis the value is projected onto [0, width]; its line runs
      vertically from 0 to height + tickSize at that position, and its label
      is centred on it at height + 2 * tickSize.
     */
    lemma BottomLayout(width: real, height: real, scale: Scale<V>, theme: Theme, ops: ValueOps<V>, i: nat)
      requires i < |scale.ticks(ticks)|
      ensures var p := scale.project(scale.ticks(ticks)[i], 0.0, width);
              var t := Rendered(width, height, scale, Bottom, theme, ops).children[i];
              var line, text := t.children[0], t.children[1];
              && Get(line, "x1") == Some(Num(p))
              && Get(line, "x2") == Some(Num(p))
              && Get(line, "y1") == Some(Num(0.0))
              && Get(line, "y2") == Some(Num(height + theme.tickSize))
              && Get(text, "x") == Some(Num(p))
              && Get(text, "y") == Some(Num(height + 2.0 * theme.tickSize))
              && Get(text, "dy") == Some(Str("1em"))
              && Get(text, "text-anchor") == Some(Str("middle"))
    {
      var values := scale.ticks(ticks);
      var (lo, hi) := Range(Bottom, width, height);
      var p := scale.project(values[i], lo, hi);
      TickLineAttrs(Bottom, theme, width, height, p, ops.equalsZero(values[i]));
      TickLabelAttrs(Bottom, theme, height, p, LabelText(values[i], i, |values|, ops));
    }

    /** Labels take the label colour and the tick font, whatever the orientation. */
    lemma LabelStyle(width: real, height: real, scale: Scale<V>, orient: Orient, theme: Theme, ops: ValueOps<V>, i: nat)
      requires i < |scale.ticks(ticks)|
      ensures var text := Rendered(width, height, scale, orient, theme, ops).children[i].children[1];
              && Get(text, "fill") == Some(Str(theme.labelColor))
              && Get(text, "font-family") == Some(Str(theme.tickFontFamily))
    {
      var values := scale.ticks(ticks);
      var (lo, hi) := Range(orient, width, height);
      var p := scale.project(values[i], lo, hi);
      TickLabelAttrs(orient, theme, height, p, LabelText(values[i], i, |values|, ops));
    }

    /**
      The label shows the formatter's result for (value, index, tick count)
      when there is a formatter, and the value's own text otherwise.
     */
    lemma LabelContent(width: real, height: real, scale: Scale<V>, orient: Orient, theme: Theme, ops: ValueOps<V>, i: nat)
      requires i < |scale.ticks(ticks)|
      ensures var values := scale.ticks(ticks);
              var text := Rendered(width, height, scale, orient, theme, ops).children[i].children[1];
              && (tickFormatter.Some? ==> text.text == Some(tickFormatter.value(values[i], i, |values|)))
              && (tickFormatter.None? ==> text.text == Some(ops.textOf(values[i])))
    {
    }

    /**
      Two axes that ask for the same number of ticks draw the same tree up
      to the text of the labels, whatever their formatters: lines, label
      positions, anchors and colours all come from the unformatted value.
     */
    lemma FormatterOnlyChangesText(other: Axis<V>, width: real, height: real, scale: Scale<V>, orient: Orient,
                                   theme: Theme, ops: ValueOps<V>)
      requires other.ticks == ticks
      ensures var g, h := Rendered(width, height, scale, orient, theme, ops), other.Rendered(width, height, scale, orient, theme, ops);
              && g.tag == h.tag && g.attrs == h.attrs && |g.children| == |h.children|
              && forall i :: 0 <= i < |g.children| ==>
                   && g.children[i].attrs == h.children[i].attrs
                   && g.children[i].children[0] == h.children[i].children[0]
                   && g.children[i].children[1].(text := None) == h.children[i].children[1].(text := None)
    {
    }

    /**
      Without a formatter, the left margin estimate leaves room for every
      label the axis then draws, at the theme's character width.
     */
    lemma MarginCoversLabels(width: real, height: real, scale: Scale<V>, theme: Theme, ops: ValueOps<V>)
      requires tickFormatter.None?
      requires theme.tickFontCharWidth >= 0.0
      requires EstimateLabelMargin(scale, Left, theme, ops).Ok?
      ensures var g := Rendered(width, height, scale, Left, theme, ops);
              forall i :: 0 <= i < |g.children| ==>
                g.children[i].children[1].text.Some? &&
                |g.children[i].children[1].text.value| as real * theme.tickFontCharWidth
                  <= EstimateLabelMargin(scale, Left, theme, ops).value
    {
      var g := Rendered(width, height, scale, Left, theme, ops);
      forall i | 0 <= i < |g.children|
        ensures g.children[i].children[1].text.Some?
        ensures |g.children[i].children[1].text.value| as real * theme.tickFontCharWidth
                  <= EstimateLabelMargin(scale, Left, theme, ops).value
      {
        LabelFits(width, height, scale, theme, ops, i);
      }
    }

    /** One label of a left axis without a formatter fits in the estimated margin. */
    lemma LabelFits(width: real, height: real, scale: Scale<V>, theme: Theme, ops: ValueOps<V>, i: nat)
      requires tickFormatter.None?
      requires theme.tickFontCharWidth >= 0.0
      requires EstimateLabelMargin(scale, Left, theme, ops).Ok?
      requires i < |scale.ticks(ticks)|
      ensures var text := Rendered(width, height, scale, Left, theme, ops).children[i].children[1].text;
              && text.Some?
              && |text.value| as real * theme.tickFontCharWidth <= EstimateLabelMargin(scale, Left, theme, ops).value
    {
      LabelContent(width, height, scale, Left, theme, ops, i);
      OwnTextFits(scale, theme, ops, i);
    }

    /** The own text of any tick value of a left axis is at most the estimated margin wide. */
    lemma OwnTextFits(scale: Scale<V>, theme: Theme, ops: ValueOps<V>, i: nat)
      requires theme.tickFontCharWidth >= 0.0
      requires EstimateLabelMargin(scale, Left, theme, ops).Ok?
      requires i < |scale.ticks(ticks)|
      ensures |ops.textOf(scale.ticks(ticks)[i])| as real * theme.tickFontCharWidth
                <= EstimateLabelMargin(scale, Left, theme, ops).value
    {
      var values := scale.ticks(ticks);
      var margin := EstimateLabelMargin(scale, Left, theme, ops).value;
      var m :| IsLongest(values, ops, m) && margin == m as real * theme.tickFontCharWidth;
      assert |ops.textOf(values[i])| <= m;
      MulMonotone(|ops.textOf(values[i])|, m, theme.tickFontCharWidth, margin);
    }

    /**
      With a formatter the estimate can fall short: it measures the value's
      own text, while the label shows the formatter's. One tick whose own
      text is empty and whose formatted text has two characters gets a zero
      margin and a label two characters wide.
     */
    lemma FormattedLabelMayOverflow(width: real, height: real, scale: Scale<V>, theme: Theme, ops: ValueOps<V>)
      requires tickFormatter.Some?
      requires |scale.ticks(ticks)| == 1
      requires ops.textOf(scale.ticks(ticks)[0]) == ""
      requires |tickFormatter.value(scale.ticks(ticks)[0], 0, 1)| == 2
      requires theme.tickFontCharWidth == 1.0
      ensures EstimateLabelMargin(scale, Left, theme, ops) == Ok(0.0)
      ensures var text := Rendered(width, height, scale, Left, theme, ops).children[0].children[1].text;
              text.Some? && |text.value| as real * theme.tickFontCharWidth == 2.0
    {
      LabelContent(width, height, scale, Left, theme, ops, 0);
      assert LabelLengths(scale.ticks(ticks), ops) == [0];
    }

    /** Renders the axis, building the tick groups one by one. */
    method ToSvg(width: real, height: real, scale: Scale<V>, orient: Orient, theme: Theme, ops: ValueOps<V>)
      returns (group: Node)
      ensures group == Rendered(width, height, scale, orient, theme, ops)
      ensures group.tag == "g" && |group.children| == |scale.ticks(ticks)|
    {
      group := Element("g", []);
      SetAttrNew([], "class", Str("axis " + orient.Name()));
      group := Set(group, "class", Str("axis " + orient.Name()));

      // Each orientation sets only the variables it needs here; the rest
      // are set per tick inside the loop.
      var labelX: real := *;
      var labelY: real := *;
      var x1: real := *;
      var y1: real := *;
      var x2: real := *;
      var y2: real := *;
      var rangeMin, rangeMax;
      match orient {
        case Left =>
          labelX := -(theme.tickSize * 2.0);
          x1 := -theme.tickSize;
          x2 := width;
          rangeMin, rangeMax := height, 0.0;
        case Bottom =>
          labelY := height + theme.tickSize * 2.0;
          y1 := 0.0;
          y2 := height + theme.tickSize;
          rangeMin, rangeMax := 0.0, width;
      }

      var tickValues := scale.ticks(ticks);
      var tickCount := |tickValues|;
      ghost var expected := TickGroups(width, height, scale, orient, theme, ops, tickValues);

      for i := 0 to tickCount
        invariant (rangeMin, rangeMax) == Range(orient, width, height)
        invariant orient == Left ==> labelX == -(theme.tickSize * 2.0) && x1 == -theme.tickSize && x2 == width
        invariant orient == Bottom ==> labelY == height + theme.tickSize * 2.0 && y1 == 0.0 && y2 == height + theme.tickSize
        invariant group.tag == "g" && group.attrs == [("class", Str("axis " + orient.Name()))] && group.text == None
        invariant group.children == expected[..i]
      {
        var value := tickValues[i];
        var tickGroup := Element("g", []);
        SetAttrNew([], "class", Str("tick"));
        tickGroup := Set(tickGroup, "class", Str("tick"));

        var projected := scale.project(value, rangeMin, rangeMax);
        var tickColor := if ops.equalsZero(value) then theme.zeroColor else theme.tickColor;
        match orient {
          case Left =>
            y1 := projected;
            y2 := projected;
          case Bottom =>
            x1 := projected;
            x2 := projected;
        }
        var tick := Element("line", [("x1", Num(x1)), ("y1", Num(y1)), ("x2", Num(x2)), ("y2", Num(y2)),
                                     ("stroke", Str(tickColor))]);
        tick := Set(tick, "stroke-width", Num(theme.tickWidth));
        BuiltLine(orient, theme, width, height, projected, ops.equalsZero(value), x1, y1, x2, y2);
        tickGroup := Append(tickGroup, tick);

        var x, y, dy, textAnchor;
        match orient {
          case Left =>
            x, y, dy, textAnchor := labelX, projected, "0.32em", "end";
          case Bottom =>
            x, y, dy, textAnchor := projected, labelY, "1em", "middle";
        }
        var labelNode := Element("text", [("x", Num(x)), ("y", Num(y)), ("dy", Str(dy)), ("fill", Str(theme.labelColor))]);
        labelNode := Set(labelNode, "text-anchor", Str(textAnchor));
        labelNode := Set(labelNode, "font-family", Str(theme.tickFontFamily));
        var text := ops.textOf(value);
        if tickFormatter.Some? {
          text := tickFormatter.value(value, i, tickCount);
        }
        labelNode := labelNode.(text := Some(text));
        BuiltLabel(orient, theme, height, projected, text, x, y, dy, textAnchor);
        assert text == LabelText(value, i, tickCount, ops);
        tickGroup := Append(tickGroup, labelNode);

        assert tickGroup == expected[i];
        PrefixStep(expected, i);
        group := Append(group, tickGroup);
      }
      assert expected[..tickCount] == expected;
    }
  }
}
