// A schedule of system calls that fail of their own accord.
module Faults {

  // No call fails.
  predicate Calm(faults: seq<bool>) { forall f | f in faults :: !f }

  // Whether the next call fails, and the schedule after it.
  method NextCall(faults: seq<bool>) returns (failed: bool, rest: seq<bool>)
    ensures failed <==> faults != [] && faults[0]
    ensures failed ==> !Calm(faults)
    ensures Calm(faults) ==> Calm(rest)
    ensures rest == if faults == [] then [] else faults[1..]
  {
    if faults == [] { return false, []; }
    assert faults[0] in faults && forall f | f in faults[1..] :: f in faults;
    return faults[0], faults[1..];
  }
}
