/**
 * The selection lists the screens keep in component state: an id or a
 * yyyy-MM-dd string is toggled in and out with
 * `prev.includes(x) ? prev.filter((d) => d !== x) : [...prev, x]`.
 */
module Lists {
  import opened Wrappers

  /** No element occurs twice. */
  predicate NoDup<T(==)>(s: seq<T>) {
    forall i, j :: 0 <= i < j < |s| ==> s[i] != s[j]
  }

  /** `s.filter((d) => d !== x)`. */
  function Remove<T(==)>(s: seq<T>, x: T): (r: seq<T>)
    ensures x !in r
    ensures forall i :: 0 <= i < |r| ==> r[i] in s
    ensures forall i :: 0 <= i < |s| && s[i] != x ==> s[i] in r
    ensures |r| <= |s|
    ensures NoDup(s) ==> NoDup(r)
  {
    if s == [] then []
    else if s[0] == x then Remove(s[1..], x)
    else [s[0]] + Remove(s[1..], x)
  }

  /** Removing an absent element changes nothing. */
  lemma {:induction false} RemoveAbsent<T>(s: seq<T>, x: T)
    requires x !in s
    ensures Remove(s, x) == s
  {
    if s != [] {
      RemoveAbsent(s[1..], x);
      assert s == [s[0]] + s[1..];
    }
  }

  /** `filter` distributes over concatenation. */
  lemma {:induction false} RemoveAppend<T>(a: seq<T>, b: seq<T>, x: T)
    ensures Remove(a + b, x) == Remove(a, x) + Remove(b, x)
  {
    if a == [] {
      assert a + b == b;
    } else {
      var ab := a + b;
      assert ab[0] == a[0] && ab[1..] == a[1..] + b;
      RemoveAppend(a[1..], b, x);
      if a[0] == x {
        calc {
          Remove(ab, x);
          Remove(ab[1..], x);
          Remove(a[1..], x) + Remove(b, x);
        }
      } else {
        calc {
          Remove(ab, x);
          [a[0]] + Remove(ab[1..], x);
          [a[0]] + (Remove(a[1..], x) + Remove(b, x));
          ([a[0]] + Remove(a[1..], x)) + Remove(b, x);
        }
      }
    }
  }

  /** Removing x deletes every copy of x and keeps every other element. */
  lemma {:induction false} RemoveMultiset<T>(s: seq<T>, x: T)
    ensures multiset(Remove(s, x)) == multiset(s)[x := 0]
  {
    if s != [] {
      RemoveMultiset(s[1..], x);
      assert s == [s[0]] + s[1..];
    }
  }

  /** The toggle every selection screen performs. */
  function Toggle<T(==)>(s: seq<T>, x: T): (r: seq<T>)
    ensures x in r <==> x !in s
    ensures forall i :: 0 <= i < |r| && r[i] != x ==> r[i] in s
    ensures forall i :: 0 <= i < |s| && s[i] != x ==> s[i] in r
    ensures NoDup(s) ==> NoDup(r)
    ensures x !in s ==> r == s + [x]
  {
    if x in s then Remove(s, x) else s + [x]
  }

  /** Toggling an element that was not selected, twice, gives back the very same list. */
  lemma ToggleTwiceAbsent<T>(s: seq<T>, x: T)
    requires x !in s
    ensures Toggle(Toggle(s, x), x) == s
  {
    RemoveAppend(s, [x], x);
    RemoveAbsent(s, x);
    assert Remove([x], x) == [];
  }

  /**
   * Toggling any element twice, on a list without duplicates, gives back the
   * same elements (a selected element comes back at the end of the list).
   */
  lemma ToggleTwiceSameElements<T>(s: seq<T>, x: T)
    requires NoDup(s)
    ensures multiset(Toggle(Toggle(s, x), x)) == multiset(s)
  {
    if x in s {
      RemoveMultiset(s, x);
      var r := Remove(s, x);
      assert Toggle(Toggle(s, x), x) == r + [x];
      NoDupCountOne(s, x);
    } else {
      ToggleTwiceAbsent(s, x);
    }
  }

  lemma {:induction false} NoDupCountOne<T>(s: seq<T>, x: T)
    requires NoDup(s) && x in s
    ensures multiset(s)[x] == 1
  {
    assert s == [s[0]] + s[1..];
    if s[0] == x {
      assert x !in s[1..];
    } else {
      NoDupCountOne(s[1..], x);
    }
  }

  /** On a list without duplicates a toggle adds or removes exactly one element. */
  lemma ToggleLength<T>(s: seq<T>, x: T)
    requires NoDup(s)
    ensures |Toggle(s, x)| == if x in s then |s| - 1 else |s| + 1
  {
    if x in s {
      RemoveMultiset(s, x);
      NoDupCountOne(s, x);
      assert |multiset(s)| == |multiset(Remove(s, x))| + 1;
    }
  }

  /** The position of the first x in s: what a lookup by a key column finds. */
  function IndexOf<T(==)>(s: seq<T>, x: T): (r: Option<nat>)
    ensures r.None? <==> x !in s
    ensures r.Some? ==> r.value < |s| && s[r.value] == x && x !in s[..r.value]
  {
    if |s| == 0 then None
    else if s[0] == x then Some(0)
    else match IndexOf(s[1..], x)
      case None => None
      case Some(k) =>
        assert s[..k + 1] == [s[0]] + s[1..][..k];
        Some(k + 1)
  }

  /** In a list without duplicates the lookup finds the one position holding x. */
  lemma IndexOfNoDup<T>(s: seq<T>, i: nat)
    requires NoDup(s) && i < |s|
    ensures IndexOf(s, s[i]) == Some(i)
  {
  }
}
