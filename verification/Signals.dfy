module Signals {
  /** Trading direction of a signal; a strategy may send any string. */
  datatype Action = Buy | Sell | Hold | OtherAction(name: string)
}
