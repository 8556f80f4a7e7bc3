/** Row timestamps of a table in time order. */
module Timelines {

  ghost predicate Rising(ts: seq<int>) { forall i, j :: 0 <= i < j < |ts| ==> ts[i] < ts[j] }
}
