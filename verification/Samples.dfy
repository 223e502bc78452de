/** The values that the indicators are fed with (frontend/crypto/ta/). */
module Samples {

  datatype Sample = Sample(ts: int, value: real)

  /** Timestamps do not descend. */
  ghost predicate InOrder(history: seq<Sample>) {
    forall i, j :: 0 <= i < j < |history| ==> history[i].ts <= history[j].ts
  }
}
