/** Finding and taking out the first match in a list: the loops "oldest first" matching is written with. */
module Search {

  /** The position of the first element from i on that p accepts, or n when none before n is. */
  function FirstBelow<T>(s: seq<T>, p: T -> bool, i: nat, n: nat): (k: nat)
    requires i <= n <= |s|
    ensures i <= k <= n
    ensures k < n ==> p(s[k])
    ensures forall j :: i <= j < k ==> !p(s[j])
    decreases n - i
  {
    if i == n || p(s[i]) then i else FirstBelow(s, p, i + 1, n)
  }

  function First<T>(s: seq<T>, p: T -> bool): (k: nat)
    ensures k <= |s|
    ensures k < |s| ==> p(s[k])
    ensures forall j :: 0 <= j < k ==> !p(s[j])
  {
    FirstBelow(s, p, 0, |s|)
  }

  /** A loop that stopped at k without a match before it found the first match. */
  lemma FirstIs<T>(s: seq<T>, p: T -> bool, n: nat, k: nat)
    requires k <= n <= |s| && (k < n ==> p(s[k]))
    requires forall j :: 0 <= j < k ==> !p(s[j])
    ensures FirstBelow(s, p, 0, n) == k
  {
  }

  function Without<T>(s: seq<T>, i: nat): seq<T>
    requires i < |s|
  {
    s[..i] + s[i + 1..]
  }

  /** How many elements p accepts. */
  function Count<T>(s: seq<T>, p: T -> bool): nat {
    if s == [] then 0 else Count(s[..|s| - 1], p) + (if p(s[|s| - 1]) then 1 else 0)
  }

  lemma {:induction false} CountAppend<T>(s: seq<T>, t: seq<T>, p: T -> bool)
    ensures Count(s + t, p) == Count(s, p) + Count(t, p)
  {
    if t == [] {
      assert s + t == s;
    } else {
      assert (s + t)[..|s + t| - 1] == s + t[..|t| - 1];
      CountAppend(s, t[..|t| - 1], p);
    }
  }

  lemma CountOne<T>(x: T, p: T -> bool)
    ensures Count([x], p) == if p(x) then 1 else 0
  {
    assert [x][..0] == [];
  }

  lemma CountSnoc<T>(s: seq<T>, x: T, p: T -> bool)
    ensures Count(s + [x], p) == Count(s, p) + (if p(x) then 1 else 0)
  {
    CountAppend(s, [x], p);
    CountOne(x, p);
  }

  lemma CountMiddle<T>(a: seq<T>, x: T, b: seq<T>, p: T -> bool)
    ensures Count(a + [x] + b, p) == Count(a, p) + Count(b, p) + (if p(x) then 1 else 0)
  {
    CountAppend(a + [x], b, p);
    CountAppend(a, [x], p);
    CountOne(x, p);
  }

  lemma SplitAt<T>(s: seq<T>, i: nat)
    requires i < |s|
    ensures s[..i] + [s[i]] + s[i + 1..] == s
  {
  }

  lemma SplitUpdate<T>(s: seq<T>, i: nat, x: T)
    requires i < |s|
    ensures s[i := x] == s[..i] + [x] + s[i + 1..]
  {
  }

  lemma CountWithout<T>(s: seq<T>, i: nat, p: T -> bool)
    requires i < |s|
    ensures Count(s, p) == Count(Without(s, i), p) + (if p(s[i]) then 1 else 0)
  {
    CountMiddle(s[..i], s[i], s[i + 1..], p);
    CountAppend(s[..i], s[i + 1..], p);
    SplitAt(s, i);
  }

  lemma CountUpdate<T>(s: seq<T>, i: nat, x: T, p: T -> bool)
    requires i < |s|
    ensures Count(s[i := x], p) == Count(s, p) - (if p(s[i]) then 1 else 0) + (if p(x) then 1 else 0)
  {
    var a, b := s[..i], s[i + 1..];
    CountMiddle(a, s[i], b, p);
    CountMiddle(a, x, b, p);
    SplitAt(s, i);
    SplitUpdate(s, i, x);
  }

  /** What the elements weigh together. */
  function Total<T>(s: seq<T>, f: T -> int): int {
    if s == [] then 0 else Total(s[..|s| - 1], f) + f(s[|s| - 1])
  }

  lemma TotalSnoc<T>(s: seq<T>, x: T, f: T -> int)
    ensures Total(s + [x], f) == Total(s, f) + f(x)
  {
    assert (s + [x])[..|s|] == s;
  }

  lemma {:induction false} TotalAppend<T>(s: seq<T>, t: seq<T>, f: T -> int)
    ensures Total(s + t, f) == Total(s, f) + Total(t, f)
  {
    if t == [] {
      assert s + t == s;
    } else {
      assert (s + t)[..|s + t| - 1] == s + t[..|t| - 1];
      TotalAppend(s, t[..|t| - 1], f);
    }
  }

  lemma TotalWithout<T>(s: seq<T>, i: nat, f: T -> int)
    requires i < |s|
    ensures Total(s, f) == Total(Without(s, i), f) + f(s[i])
  {
    TotalAppend(s[..i] + [s[i]], s[i + 1..], f);
    TotalSnoc(s[..i], s[i], f);
    TotalAppend(s[..i], s[i + 1..], f);
    SplitAt(s, i);
  }

  lemma {:induction false} TotalNonNegative<T(!new)>(s: seq<T>, f: T -> int)
    requires forall x :: 0 <= f(x)
    ensures 0 <= Total(s, f)
  {
    if s != [] {
      TotalNonNegative(s[..|s| - 1], f);
    }
  }
}
