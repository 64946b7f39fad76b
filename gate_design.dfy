// `dispose_point` of Gate_Design.py: a sample sequence is cut back to a
// whole number of ten-sample groups.

module GateDesign {

  /** The longest prefix of s whose length is a multiple of 10: fewer than ten
      elements go, none when |s| is already a multiple of 10. */
  function DisposePoint<T>(s: seq<T>): (r: seq<T>)
    ensures |r| <= |s| && r == s[..|r|]
    ensures |r| % 10 == 0
    ensures |s| - |r| < 10
    ensures |s| % 10 == 0 ==> r == s
    ensures forall k :: |r| < k <= |s| ==> k % 10 != 0
  {
    if |s| % 10 == 0 then s else s[..|s| - |s| % 10]
  }
}
