/** A JavaScript `Set` keeps its elements in insertion order; where the
    components read that order back (`Array.from`, `join`, `slice(0, 3)`) it
    is modelled as a sequence without duplicates. */
module OrderedSet {

  /** The elements, forgetting the order. */
  function Elems<T>(s: seq<T>): set<T> {
    set y | y in s
  }

  predicate NoDup<T(==)>(s: seq<T>) {
    forall i, j :: 0 <= i < j < |s| ==> s[i] != s[j]
  }

  /** `set.add(x)`: appends `x` unless it is already there. */
  function Add<T(==)>(s: seq<T>, x: T): (r: seq<T>)
    ensures NoDup(s) ==> NoDup(r)
    ensures Elems(r) == Elems(s) + {x}
    ensures x in s ==> r == s
    ensures x !in s ==> r == s + [x]
  {
    if x in s then s else s + [x]
  }

  /** `set.delete(x)`: removes `x` and keeps the others in order. */
  function Remove<T(==)>(s: seq<T>, x: T): (r: seq<T>)
    ensures |r| <= |s|
    ensures NoDup(s) ==> NoDup(r)
    ensures Elems(r) == Elems(s) - {x}
    ensures x in s && NoDup(s) ==> |r| == |s| - 1
    ensures x !in s ==> r == s
  {
    if s == [] then []
    else if s[0] == x then
      assert NoDup(s) ==> x !in s[1..];
      Remove(s[1..], x)
    else
      var t := Remove(s[1..], x);
      assert s[0] in t ==> s[0] in Elems(t);
      assert s[0] !in s[1..] ==> s[0] !in Elems(s[1..]);
      assert s == [s[0]] + s[1..];
      assert Elems([s[0]] + t) == {s[0]} + Elems(t);
      assert Elems(s) == {s[0]} + Elems(s[1..]);
      [s[0]] + t
  }

  /** In a set, the element at position `i` is removed from exactly that
      position: the elements before and after it keep their order. */
  lemma {:induction false} RemoveAt<T>(s: seq<T>, i: nat)
    requires NoDup(s) && i < |s|
    ensures Remove(s, s[i]) == s[..i] + s[i + 1..]
  {
    var before, after := s[..i], s[i + 1..];
    assert s[i] !in before by {
      forall k | 0 <= k < |before| ensures before[k] != s[i] {
        assert before[k] == s[k];
      }
    }
    assert s[i] !in after by {
      forall k | 0 <= k < |after| ensures after[k] != s[i] {
        assert after[k] == s[i + 1 + k];
      }
    }
    RemoveOnly(s, i);
  }

  /** Removing an element that occurs only at `i` takes out position `i`. */
  lemma {:induction false} RemoveOnly<T>(s: seq<T>, i: nat)
    requires i < |s| && s[i] !in s[..i] && s[i] !in s[i + 1..]
    ensures Remove(s, s[i]) == s[..i] + s[i + 1..]
    decreases |s|
  {
    var x, tail := s[i], s[1..];
    if i == 0 {
      assert s[1..] == s[i + 1..];
    } else {
      assert s[0] == s[..i][0];
      assert tail[i - 1] == x;
      assert tail[..i - 1] == s[1..i];
      assert s[..i] == [s[0]] + s[1..i];
      assert tail[i..] == s[i + 1..];
      RemoveOnly(tail, i - 1);
      assert s[..i] + s[i + 1..] == [s[0]] + (tail[..i - 1] + tail[i..]);
    }
  }

  /** Removing from a concatenation removes from each part, in order. */
  lemma {:induction false} RemoveAppend<T>(a: seq<T>, b: seq<T>, x: T)
    ensures Remove(a + b, x) == Remove(a, x) + Remove(b, x)
    decreases |a|
  {
    if a == [] {
      assert a + b == b;
    } else {
      assert (a + b)[0] == a[0];
      assert (a + b)[1..] == a[1..] + b;
      RemoveAppend(a[1..], b, x);
    }
  }

  /** `new Set(xs)`: the distinct elements of `xs`, first occurrence first. */
  function FromSeq<T(==)>(xs: seq<T>): (r: seq<T>)
    ensures NoDup(r)
    ensures Elems(r) == Elems(xs)
    ensures NoDup(xs) ==> r == xs
    ensures |xs| > 0 ==> |r| > 0 && r[0] == xs[0]
    decreases |xs|
  {
    if xs == [] then []
    else
      var r := Add(FromSeq(xs[..|xs| - 1]), xs[|xs| - 1]);
      assert xs == xs[..|xs| - 1] + [xs[|xs| - 1]];
      r
  }

  /** Building the set one element at a time: `new Set([...xs, x])` is
      `new Set(xs)` followed by `add(x)`, so each element stands where it
      first occurs. */
  lemma FromSeqSnoc<T>(xs: seq<T>, x: T)
    ensures FromSeq(xs + [x]) == Add(FromSeq(xs), x)
  {
    assert (xs + [x])[..|xs + [x]| - 1] == xs;
  }

  /** Toggling membership twice gives back the same set of elements. */
  lemma ToggleTwice<T>(s: seq<T>, x: T)
    requires NoDup(s)
    ensures var t := if x in s then Remove(s, x) else Add(s, x);
            var u := if x in t then Remove(t, x) else Add(t, x);
            Elems(u) == Elems(s)
  {
  }
}
