# leather axis, modelled in Dafny

This project models the axis of the leather charting library (`leather/axis.py`).
An `Axis` is configured with a requested tick count (5 by default) and an
optional tick formatter. It does two things with a scale:

- `estimate_label_margin` estimates the space its tick labels need. For a left
  axis that is the character count of the longest tick label times the
  theme's character width. For a bottom axis it is the theme's character height.
- `to_svg` renders the axis as an SVG group `g` of class `axis <orient>`. The
  group holds one `g` of class `tick` per tick value, in tick order. Each tick
  group holds a `line` and then a `text`. Their coordinates come from the
  scale's projection of the tick value and from the theme constants. The line
  of a zero tick is stroked in the zero colour. The formatter only changes the
  label text.

Files:

- `wrappers.dfy`: `Option` and `Result`.
- `svg.dfy`: the part of an ElementTree element the axis builds. It has a tag,
  an ordered attribute list, its children and an optional text. It also gives
  `Element`, `Set`, `Get` and `Append`, with the dictionary laws of `Set`.
- `collaborators.dfy`: the theme constants (`Theme`) and the scale (`Scale`).
  The scale is seen only through `ticks(n)` and `project(value, rangeMin, rangeMax)`.
  `ValueOps` holds the two things the axis does with a tick value itself:
  `value == 0` and `six.text_type(value)`. All of these are parameters; no
  scale or theme is implemented.
- `axis.dfy`: the `Axis` class. `EstimateLabelMargin` is a function and
  `ToSvg` is a method with the source's loop. `Rendered` is the declarative
  description of the rendered tree that `ToSvg` is proved to build. The lemmas
  about `Rendered` state the layout rules.

The code raises `ValueError` when `max` is given no ticks on a left axis. The
model returns `Err(EmptyTicks)` in that case and does not forbid it with a
precondition. A bottom axis never asks the scale for ticks, so it cannot fail.

## Model

| member | source | states |
|---|---|---|
| Axes.Axis.constructor | leather/axis.py:24-26 | the axis keeps the requested tick count (default 5) and the optional formatter (default none) |
| Axes.Axis.EstimateLabelMargin | leather/axis.py:28-36 | bottom gives the font character height whatever the labels; left fails exactly when the scale yields no ticks and otherwise gives the character width times the length of a label no shorter than any other |
| Axes.LabelLengths | leather/axis.py:33 | the length of each tick's own text, in tick order: the sequence `max` reduces |
| Axes.MaxOfLengths | leather/axis.py:33 | `max` over the label lengths is `m` exactly when `m` is the length of some tick's own text and no tick's text is longer; `EstimateLabelMargin` rests on it |
| Axes.Orient.Name | leather/axis.py:43 | the orientation's string, "left" or "bottom", joined to "axis " in the group's class |
| Axes.Max | leather/axis.py:33 | `max` over the label lengths: none exactly for an empty sequence, otherwise an element that bounds every element |
| Axes.Axis.Rendered | leather/axis.py:38-122 | the reference tree that `ToSvg` is proved to build and that every layout lemma is about: a `g` of class "axis <orient>" holding `TickGroups` of the scale's ticks |
| Axes.Axis.TickGroups | leather/axis.py:61-120 | one tick group per tick value, the `i`-th built from the `i`-th value |
| Axes.Axis.TickGroup | leather/axis.py:61-120 | the tick group of one value: a `g` of class "tick" holding `TickLine` and `TickLabel` at the value's projection |
| Axes.Range | leather/axis.py:45-56 | range_min and range_max passed to `project`: (height, 0) for left (lines 49-50), (0, width) for bottom (lines 55-56) |
| Axes.TickLine | leather/axis.py:75-90 | the tick line element with its six attributes, per orientation |
| Axes.TickLabel | leather/axis.py:95-113 | the tick label element with its six attributes and its text, per orientation |
| Axes.Axis.LabelText | leather/axis.py:115-118 | the text of a label: the formatter's result for (value, index, count), or the value's own text |
| Axes.Axis.FormattedLabelMayOverflow | leather/axis.py:32-34 | with a formatter the estimate can fall short: one tick whose own text is empty and whose formatted text has two characters gives a margin of 0 and a label 2 characters wide |
| Svg.Element | leather/axis.py:42 | `ET.Element(tag, **attrs)` (also lines 63, 83, 106): a childless element with no text |
| Svg.SetAttr | leather/axis.py:112-113 | `element.set` on the attribute list (also lines 43, 64, 90); its laws are `SetAttrLookup`, `SetAttrOther`, `SetAttrNew` and `SetAttrPresent` |
| Svg.Set | leather/axis.py:64 | `element.set(key, value)` on an element (also lines 43, 90, 112-113) |
| Svg.Append | leather/axis.py:65 | `parent.append(child)` (also lines 92, 120): the child goes after the existing children |
| Axes.Axis.ToSvg | leather/axis.py:38-122 | the loop builds exactly the tree `Rendered` describes: a `g` with one child per tick value |
| Axes.Axis.GroupShape | leather/axis.py:42-65 | the group is a `g` of class "axis " + orientation with one child per tick value; it is empty exactly when there are no ticks |
| Axes.Axis.TickShape | leather/axis.py:61-120 | every tick group is a `g` of class "tick" with exactly two children, a `line` and then a `text` |
| Axes.Axis.StrokeRule | leather/axis.py:70-90 | the line stroke is the zero colour for a value equal to zero and the tick colour otherwise; the stroke width is always the tick width |
| Axes.Axis.LeftLayout | leather/axis.py:45-99 | left axis: project onto (height, 0); the line is horizontal from -tick_size to width at the projected y; the label sits at x = -2*tick_size and the projected y, with dy 0.32em and anchor end |
| Axes.Axis.BottomLayout | leather/axis.py:51-104 | bottom axis: project onto (0, width); the line is vertical at the projected x from 0 to height + tick_size; the label sits at the projected x and y = height + 2*tick_size, with dy 1em and anchor middle |
| Axes.Axis.LabelStyle | leather/axis.py:106-113 | every label, in both orientations, has the label colour as fill and the tick font family |
| Axes.Axis.LabelContent | leather/axis.py:115-118 | the label text is the formatter's result for (value, index, number of ticks) when a formatter is set, and the value's own text otherwise; the count is the length of the tick sequence taken at lines 58-59 |
| Axes.Axis.FormatterOnlyChangesText | leather/axis.py:68-118 | two axes with the same tick count draw the same tree except for the label texts, whatever their formatters: the lines and label attributes come from the unformatted value |
| Axes.Axis.MarginCoversLabels | leather/axis.py:32-34 | without a formatter and with a non-negative character width, every label drawn on a left axis fits within the estimated margin |
| Axes.Axis.LabelFits | leather/axis.py:115-118 | one unformatted label of a left axis is at most the estimated margin wide |
| Axes.Axis.OwnTextFits | leather/axis.py:32-34 | with a non-negative character width, the own text of every tick value of a left axis is at most the estimated margin wide |
| Axes.TickLineAttrs | leather/axis.py:75-90 | the six line attributes x1, y1, x2, y2, stroke and stroke-width, looked up by name, for each orientation |
| Axes.TickLabelAttrs | leather/axis.py:95-113 | the six label attributes x, y, dy, fill, text-anchor and font-family, looked up by name, for each orientation |
| Axes.BuiltLine | leather/axis.py:83-90 | building an element from x1, y1, x2, y2 and stroke, then setting its stroke-width, gives the specified tick line |
| Axes.BuiltLabel | leather/axis.py:106-118 | building the text element, setting its anchor and font and then its text gives the specified tick label |
| Svg.SetAttrLookup | leather/axis.py:112-113 | after `set(key, value)`, `get(key)` gives that value |
| Svg.SetAttrOther | leather/axis.py:112-113 | `set` on one key leaves every other key's value unchanged |
| Svg.SetAttrNew | leather/axis.py:90 | setting a key not yet present appends it after the existing attributes |
| Svg.SetAttrPresent | leather/axis.py:112-113 | a law of ElementTree's `set`: setting a key already present replaces its value in place, at its first position, and leaves every other entry as it was (no `set` in the axis hits this case) |

## Left out

- The scale implementations (linear, ordinal, temporal, annual, monthly) are not part of this model. Neither are the chart, legend, shapes, `Renderable` and the theme module. A scale is a pair of functions and the theme is a record, both given by the caller.
- The package re-export files `leather/__init__.py` and `leather/scales/__init__.py` contain no logic.
- Serialising the tree is not modelled. That includes `six.text_type` applied to coordinates and to the tick width. Numeric attributes keep their numeric value (`Num`), and the text of a tick value is an abstract function (`ValueOps.textOf`).
- Tick values are of an abstract type. Python's `value == 0` is the abstract predicate `ValueOps.equalsZero`.
- Lengths of label text count the elements of a character sequence. This stands for Python's `len` on a string, which counts code points.
- Axes.Axis.LabelContent: the formatter is modelled as returning a string. Python passes whatever the formatter returns through `six.text_type`, so the model does not cover a formatter that returns another kind of value.
- Axes.Axis.MarginCoversLabels: holds only for an axis without a tick formatter. The estimate measures the value's own text (leather/axis.py:33) and never applies the formatter, so a formatted label can be wider than the margin; `FormattedLabelMayOverflow` states a concrete case.
- Orientation strings other than `left` and `bottom` are excluded by the `Orient` datatype. In Python, `estimate_label_margin` returns `None` for them, and `to_svg` fails on the unbound range variables as soon as there is a tick.
- Aliasing during the build is not modelled. Python appends each tick group to the axis group before it fills that group, so the result is the same tree. The model appends the finished tick group.
- Attribute order is Python 3's insertion order: keyword arguments in the order written, then each `set` of a new key appended. Under Python 2, which the `six` import also targets, keyword order is arbitrary and ElementTree sorts attributes on output. `BuiltLine`, `BuiltLabel` and `SetAttrNew` depend on that order. The lemmas that look attributes up by name, and every layout lemma, do not.
- Coordinates are `real`. Floating-point rounding of the projected values is not modelled.
