/** Definitions shared by the models. */
module Basics {

  datatype Option<T> = None | Some(value: T)

  type Positive = x: nat | x >= 1 witness 1

  function Min(a: nat, b: nat): nat {
    if a < b then a else b
  }

  // What has come in is what has gone out and then the queue; it stays so when
  // some join the end and some go from the front.
  lemma StillPrefix<T>(ins: seq<T>, outs: seq<T>, q: seq<T>, enters: seq<T>, leaves: seq<T>, q': seq<T>)
    requires ins == outs + q && q + enters == leaves + q'
    ensures ins + enters == outs + leaves + q'
  {
    assert outs + q + enters == outs + (q + enters);
    assert outs + (leaves + q') == outs + leaves + q';
  }
}
