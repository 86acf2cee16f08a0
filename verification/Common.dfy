/** Small datatypes shared by the models. */
module Common {

  datatype Option<+T> = None | Some(value: T)

  /** A storage or handler call: a value, or the reason it was refused. */
  datatype Result<+T, +E> = Ok(value: T) | Err(error: E)

  /** Instants and durations, in nanoseconds on one global clock. */
  type Time = int

  /** A number above all of `used`. */
  lemma {:induction false} NumberAbove(used: set<int>) returns (x: int)
    ensures forall y :: y in used ==> y < x
    decreases |used|
  {
    if y :| y in used {
      var z := NumberAbove(used - {y});
      x := if y < z then z else y + 1;
      assert forall u :: u in used ==> u == y || u in used - {y};
    } else {
      x := 0;
    }
  }

  /** There is always a number not yet drawn. */
  lemma FreshNumber(used: set<int>) returns (x: int)
    ensures x !in used
  {
    x := NumberAbove(used);
  }
}
