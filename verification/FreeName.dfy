/** The search for an unused name (findUnconnectedName in wlms/client.go). */
module FreeName {
  import opened GoText

  const TRIES := 1000

  // fmt.Sprintf("%s%d", base, k)
  function Numbered(base: Text, k: nat): Text {
    base + Digits(k)
  }

  // The least index from k on whose name is unused; TRIES + 1 when the search gives up.
  function FirstFree(used: set<Text>, base: Text, k: nat): (r: nat)
    requires 1 <= k <= TRIES + 1
    ensures k <= r <= TRIES + 1
    ensures r <= TRIES ==> Numbered(base, r) !in used
    ensures forall j :: k <= j < r ==> Numbered(base, j) in used
    decreases TRIES + 1 - k
  {
    if k > TRIES || Numbered(base, k) !in used then k else FirstFree(used, base, k + 1)
  }

  lemma NumberedInjective(base: Text, j: nat, k: nat)
    requires Numbered(base, j) == Numbered(base, k)
    ensures j == k
  {
    assert Numbered(base, j)[|base|..] == Digits(j);
    assert Numbered(base, k)[|base|..] == Digits(k);
    DigitsInjective(j, k);
  }

  // The names base1 .. base<n>.
  function NamesUpTo(base: Text, n: nat): (names: set<Text>)
    ensures forall t :: t in names <==> exists j :: 1 <= j <= n && t == Numbered(base, j)
  {
    if n == 0 then {} else NamesUpTo(base, n - 1) + {Numbered(base, n)}
  }

  lemma {:induction false} CountNames(base: Text, n: nat)
    ensures |NamesUpTo(base, n)| == n
  {
    if n > 0 {
      CountNames(base, n - 1);
      if Numbered(base, n) in NamesUpTo(base, n - 1) {
        var j :| 1 <= j <= n - 1 && Numbered(base, n) == Numbered(base, j);
        NumberedInjective(base, j, n);
      }
    }
  }

  lemma SubsetSize<T>(a: set<T>, b: set<T>)
    requires a <= b
    ensures |a| <= |b|
  {
    assert b == a + (b - a);
  }

  // The search gives up exactly when all its candidate names are used, which takes a thousand of
  // them: with fewer names in use it always succeeds.
  lemma GivesUpOnlyWhenFull(used: set<Text>, base: Text)
    ensures FirstFree(used, base, 1) == TRIES + 1 <==> NamesUpTo(base, TRIES) <= used
    ensures |used| < TRIES ==> FirstFree(used, base, 1) <= TRIES
  {
    var r := FirstFree(used, base, 1);
    if r == TRIES + 1 {
      forall t | t in NamesUpTo(base, TRIES) ensures t in used {
        var j :| 1 <= j <= TRIES && t == Numbered(base, j);
      }
      CountNames(base, TRIES);
      SubsetSize(NamesUpTo(base, TRIES), used);
    } else {
      assert Numbered(base, r) in NamesUpTo(base, TRIES);
    }
  }
}
