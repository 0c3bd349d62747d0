/** Small helpers shared by every part of the model. */
module Basics {

  datatype Option<+T> = None | Some(value: T)

  datatype Result<+T> = Ok(value: T) | Err

  /** No element occurs twice. */
  ghost predicate NoDup<T>(s: seq<T>) {
    forall i, j :: 0 <= i < j < |s| ==> s[i] != s[j]
  }

  lemma AppendNoDup<T>(s: seq<T>, x: T)
    requires NoDup(s) && x !in s
    ensures NoDup(s + [x])
    ensures forall y :: y in s + [x] <==> y in s || y == x
  {
  }

  /** utilities.RemoveFrom: the list without the first occurrence of `x`. */
  function RemoveFrom<T(==)>(x: T, s: seq<T>): seq<T> {
    if s == [] then [] else if s[0] == x then s[1..] else [s[0]] + RemoveFrom(x, s[1..])
  }

  /** utilities.RemoveAt: the list without the element at position `i`. */
  function RemoveAt<T>(i: nat, s: seq<T>): seq<T>
    requires i < |s|
  {
    s[..i] + s[i + 1..]
  }

  /** utilities.AddUniquely: the list with `x` appended unless it is there already. */
  function AddUniquely<T(==)>(x: T, s: seq<T>): seq<T> {
    if x in s then s else s + [x]
  }

  /** The elements of `s` that are not in `dead`, in order. */
  function Without<T(==)>(s: seq<T>, dead: set<T>): seq<T> {
    if s == [] then []
    else if s[0] in dead then Without(s[1..], dead)
    else [s[0]] + Without(s[1..], dead)
  }

  lemma {:induction false} WithoutMembers<T>(s: seq<T>, dead: set<T>)
    ensures forall x :: x in Without(s, dead) <==> x in s && x !in dead
  {
    if s != [] {
      WithoutMembers(s[1..], dead);
      assert forall x :: x in s <==> x == s[0] || x in s[1..];
    }
  }

  lemma {:induction false} WithoutNoDup<T>(s: seq<T>, dead: set<T>)
    requires NoDup(s)
    ensures NoDup(Without(s, dead))
  {
    if s != [] {
      WithoutNoDup(s[1..], dead);
      WithoutMembers(s[1..], dead);
    }
  }

  lemma {:induction false} WithoutTwice<T>(s: seq<T>, a: set<T>, b: set<T>)
    ensures Without(Without(s, a), b) == Without(s, a + b)
  {
    if s != [] {
      WithoutTwice(s[1..], a, b);
      if s[0] !in a {
        assert Without(s, a)[1..] == Without(s[1..], a);
      }
    }
  }

  lemma {:induction false} WithoutNothing<T>(s: seq<T>, dead: set<T>)
    requires forall x :: x in s ==> x !in dead
    ensures Without(s, dead) == s
  {
    if s != [] {
      assert forall x :: x in s[1..] ==> x in s;
      WithoutNothing(s[1..], dead);
    }
  }

  lemma {:induction false} WithoutSame<T>(s: seq<T>, a: set<T>, b: set<T>)
    requires forall x :: x in s ==> (x in a <==> x in b)
    ensures Without(s, a) == Without(s, b)
  {
    if s != [] {
      assert s[0] in s && forall x :: x in s[1..] ==> x in s;
      WithoutSame(s[1..], a, b);
    }
  }

  /** On a list without repetition, removing one occurrence removes the element. */
  lemma {:induction false} RemoveFromIsWithout<T>(x: T, s: seq<T>)
    requires NoDup(s)
    ensures RemoveFrom(x, s) == Without(s, {x})
  {
    if s != [] {
      if s[0] == x {
        assert forall y :: y in s[1..] ==> y != x;
        WithoutNothing(s[1..], {x});
      } else {
        RemoveFromIsWithout(x, s[1..]);
      }
    }
  }

  /** The facts about RemoveFrom that callers need, on a list without repetition. */
  lemma RemoveFromFacts<T>(x: T, s: seq<T>)
    requires NoDup(s)
    ensures NoDup(RemoveFrom(x, s))
    ensures forall y :: y in RemoveFrom(x, s) <==> y in s && y != x
  {
    RemoveFromIsWithout(x, s);
    WithoutMembers(s, {x});
    WithoutNoDup(s, {x});
  }

  /** Removing the only occurrence by position is the same as removing it by value. */
  lemma {:induction false} RemoveAtIsRemoveFrom<T>(i: nat, s: seq<T>)
    requires i < |s| && NoDup(s)
    ensures RemoveAt(i, s) == RemoveFrom(s[i], s)
  {
    if i > 0 {
      RemoveAtIsRemoveFrom(i - 1, s[1..]);
      assert s[i] != s[0];
      assert s[1..][i - 1] == s[i];
      assert RemoveAt(i, s) == [s[0]] + RemoveAt(i - 1, s[1..]);
    } else {
      assert RemoveAt(0, s) == s[1..];
    }
  }
}
