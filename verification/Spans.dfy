/** Where an expression matches in a text. */
module Spans {
  /** Positions `start` up to `end`. */
  datatype Span = Span(start: nat, end: nat)
}
