/** Looking for the first element of a list that satisfies a condition, as the servers' loops do. */
module Search {

  // The index of the first such element, or the length of the list.
  function First<T>(s: seq<T>, wanted: T -> bool): (i: nat)
    ensures i <= |s| && (i < |s| ==> wanted(s[i]))
    ensures forall j :: 0 <= j < i ==> !wanted(s[j])
  {
    if s == [] || wanted(s[0]) then 0 else 1 + First(s[1..], wanted)
  }

  // There is only one such index.
  lemma FirstIs<T>(s: seq<T>, wanted: T -> bool, i: nat)
    requires i <= |s| && (i < |s| ==> wanted(s[i])) && forall j :: 0 <= j < i ==> !wanted(s[j])
    ensures First(s, wanted) == i
  {
    var f := First(s, wanted);
    assert !(f < i) && !(i < f);
  }
}
