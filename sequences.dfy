/** Facts about sequences shared by the startup gate and the schema model. */
module Sequences {

  /** No value occurs twice in `s`. */
  predicate NoDuplicates(s: seq<string>)
  {
    forall i, j :: 0 <= i < j < |s| ==> s[i] != s[j]
  }
}
