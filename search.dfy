/** The first-match search every store operation uses to locate a record
    (`Array.prototype.findIndex`, and `find` read through it). */
module Search {

  /** The position of the first element satisfying `p`, or -1 when there is
      none. */
  function FirstIndex<T>(s: seq<T>, p: T -> bool): (r: int)
    ensures -1 <= r < |s|
    ensures r == -1 <==> forall j :: 0 <= j < |s| ==> !p(s[j])
    ensures r >= 0 ==> p(s[r]) && forall j :: 0 <= j < r ==> !p(s[j])
  {
    if |s| == 0 then -1
    else if p(s[0]) then 0
    else
      var k := FirstIndex(s[1..], p);
      if k == -1 then -1 else k + 1
  }

  /** Scans from the front and stops at the first match. */
  method FindIndex<T>(s: seq<T>, p: T -> bool) returns (i: int)
    ensures i == FirstIndex(s, p)
  {
    i := 0;
    while i < |s| && !p(s[i])
      invariant 0 <= i <= |s|
      invariant forall j :: 0 <= j < i ==> !p(s[j])
    {
      i := i + 1;
    }
    if i == |s| {
      i := -1;
    }
  }

  /** The search only depends on which positions match. */
  lemma FirstIndexSameMatches<T>(s: seq<T>, t: seq<T>, p: T -> bool)
    requires |s| == |t|
    requires forall j :: 0 <= j < |s| ==> p(s[j]) == p(t[j])
    ensures FirstIndex(s, p) == FirstIndex(t, p)
  {
  }

  /** Appending an element only matters when nothing matched before. */
  lemma FirstIndexAppend<T>(s: seq<T>, x: T, p: T -> bool)
    ensures FirstIndex(s + [x], p) ==
      if FirstIndex(s, p) >= 0 then FirstIndex(s, p) else if p(x) then |s| else -1
  {
    var t := s + [x];
    var a, b := FirstIndex(s, p), FirstIndex(t, p);
    assert forall j :: 0 <= j < |s| ==> t[j] == s[j];
    if a >= 0 {
      assert p(t[a]);
      assert b <= a;
    } else {
      assert t[|s|] == x;
    }
  }
}
