/**
  What the axis reads from the rest of the library: the theme constants,
  the scale, and how tick values compare with zero and turn into text.
  None of these is implemented here; the axis sees them only through the
  operations below.
 */
module Collaborators {

  /** The theme constants the axis uses. */
  datatype Theme = Theme(
    tickSize: real,
    tickWidth: real,
    tickColor: string,
    zeroColor: string,
    labelColor: string,
    tickFontFamily: string,
    tickFontCharWidth: real,
    tickFontCharHeight: real)

  /**
    A scale as the axis uses it: `ticks(n)` gives the tick values for a
    requested count, `project(value, rangeMin, rangeMax)` a coordinate.
   */
  datatype Scale<!V> = Scale(ticks: int -> seq<V>, project: (V, real, real) -> real)

  /**
    The two things the axis does with a tick value itself: compare it with
    zero (`value == 0`) and turn it into a label (`six.text_type(value)`).
   */
  datatype ValueOps<-V> = ValueOps(equalsZero: V -> bool, textOf: V -> string)
}
