/**
 * List operations shared by the filter bar and the admin form: removing every
 * occurrence of a value (`xs.filter(item => item !== v)`) and the
 * include-or-exclude toggle built on it.
 */
module Lists {

  /** `s` without any occurrence of `v`, the rest in their original order. */
  function RemoveAll<T(==, !new)>(s: seq<T>, v: T): (r: seq<T>)
    ensures forall x :: x in r <==> x in s && x != v
    ensures |r| <= |s|
    ensures v !in s ==> r == s
  {
    if |s| == 0 then []
    else if s[0] == v then RemoveAll(s[1..], v)
    else [s[0]] + RemoveAll(s[1..], v)
  }

  /** Removing distributes over concatenation, so the kept elements keep their order. */
  lemma {:induction false} RemoveAllAppend<T(!new)>(a: seq<T>, b: seq<T>, v: T)
    ensures RemoveAll(a + b, v) == RemoveAll(a, v) + RemoveAll(b, v)
  {
    if |a| == 0 {
      assert a + b == b;
    } else {
      assert (a + b)[1..] == a[1..] + b;
      RemoveAllAppend(a[1..], b, v);
    }
  }

  /** Removing a value from a list drops exactly as many elements as it occurs. */
  lemma {:induction false} RemoveAllCount<T(!new)>(s: seq<T>, v: T)
    ensures |RemoveAll(s, v)| == |s| - multiset(s)[v]
    ensures multiset(RemoveAll(s, v))[v] == 0
  {
    if |s| > 0 {
      assert s == [s[0]] + s[1..];
      RemoveAllCount(s[1..], v);
    }
  }

  /**
   * The toggle of a multi-select: a present value is removed everywhere, an
   * absent one is appended at the end.
   */
  function Toggle<T(==, !new)>(s: seq<T>, v: T): (r: seq<T>)
    ensures v in r <==> v !in s
    ensures forall x :: x != v ==> (x in r <==> x in s)
    ensures v !in s ==> r == s + [v]
    ensures v in s ==> r == RemoveAll(s, v) && |r| < |s|
  {
    if v in s then
      RemoveAllCount(s, v);
      RemoveAll(s, v)
    else s + [v]
  }

  /** Toggling an absent value on and off again restores the list exactly. */
  lemma ToggleTwiceAbsent<T(!new)>(s: seq<T>, v: T)
    requires v !in s
    ensures Toggle(Toggle(s, v), v) == s
  {
    RemoveAllAppend(s, [v], v);
    assert RemoveAll([v], v) == [];
  }

  /** Toggling a present value off and on again moves it, once, to the end. */
  lemma ToggleTwicePresent<T(!new)>(s: seq<T>, v: T)
    requires v in s
    ensures Toggle(Toggle(s, v), v) == RemoveAll(s, v) + [v]
  {
  }

  /** `s.filter(keep)` */
  function Filter<T(!new)>(s: seq<T>, keep: T -> bool): (r: seq<T>)
    ensures |r| <= |s|
    ensures forall x :: x in r <==> x in s && keep(x)
  {
    if |s| == 0 then []
    else (if keep(s[0]) then [s[0]] else []) + Filter(s[1..], keep)
  }

  /** Filtering distributes over concatenation, so the kept elements keep their order. */
  lemma {:induction false} FilterAppend<T(!new)>(a: seq<T>, b: seq<T>, keep: T -> bool)
    ensures Filter(a + b, keep) == Filter(a, keep) + Filter(b, keep)
  {
    if |a| == 0 {
      assert a + b == b;
    } else {
      assert (a + b)[1..] == a[1..] + b;
      FilterAppend(a[1..], b, keep);
    }
  }

  /** A test every element passes keeps the whole list. */
  lemma {:induction false} FilterKeepsAll<T(!new)>(s: seq<T>, keep: T -> bool)
    requires forall i :: 0 <= i < |s| ==> keep(s[i])
    ensures Filter(s, keep) == s
  {
    if |s| > 0 {
      FilterKeepsAll(s[1..], keep);
    }
  }

  /** A weaker test keeps at least as many elements. */
  lemma {:induction false} FilterMonotone<T(!new)>(s: seq<T>, strict: T -> bool, loose: T -> bool)
    requires forall x :: strict(x) ==> loose(x)
    ensures |Filter(s, strict)| <= |Filter(s, loose)|
  {
    if |s| > 0 {
      FilterMonotone(s[1..], strict, loose);
    }
  }
}
