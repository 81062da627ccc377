/**
 * The item list shared by both carts (`Cart.items`) and its one removal rule:
 * `removeItem(name)` drops every line that starts with `name` and keeps the
 * rest in order. `Without` is that filter as a value, `FilterOut` computes it
 * with a loop, and `Subseq` is the order-preserving "sublist of" relation the
 * carts' invariants are stated with.
 */
module CartItems {
  import opened Text

  /**
   * The lines of `items` that do not start with `name`, in their original order.
   * Its contract characterises it independently of its definition: each line
   * survives with all its copies exactly when it does not start with `name`.
   */
  function Without(items: seq<string>, name: string): (r: seq<string>)
    ensures |r| <= |items|
    ensures forall x :: x in r <==> x in items && !StartsWith(x, name)
    decreases |items|
  {
    if items == [] then []
    else
      var front, last := items[..|items| - 1], items[|items| - 1];
      assert items == front + [last];
      Without(front, name) + (if StartsWith(last, name) then [] else [last])
  }

  /** Each line survives with all its copies exactly when it does not start with `name`. */
  lemma {:induction false} WithoutCounts(items: seq<string>, name: string)
    ensures forall x :: multiset(Without(items, name))[x] == if StartsWith(x, name) then 0 else multiset(items)[x]
    decreases |items|
  {
    if items != [] {
      var front, last := items[..|items| - 1], items[|items| - 1];
      assert items == front + [last];
      WithoutCounts(front, name);
    }
  }

  /** The loop `items.removeIf(item -> item.startsWith(name))` performs. */
  method FilterOut(items: seq<string>, name: string) returns (kept: seq<string>)
    ensures kept == Without(items, name)
  {
    kept := [];
    var i := 0;
    while i < |items|
      invariant 0 <= i <= |items|
      invariant kept == Without(items[..i], name)
    {
      assert items[..i + 1][..i] == items[..i];
      if !StartsWith(items[i], name) {
        kept := kept + [items[i]];
      }
      i := i + 1;
    }
    assert items[..i] == items;
  }

  /** `a` is `b` with some elements left out, the others kept in order. */
  ghost predicate Subseq<T>(a: seq<T>, b: seq<T>)
    decreases |b|
  {
    if b == [] then a == []
    else
      || (a != [] && a[|a| - 1] == b[|b| - 1] && Subseq(a[..|a| - 1], b[..|b| - 1]))
      || Subseq(a, b[..|b| - 1])
  }

  lemma {:induction false} SubseqReflexive<T>(a: seq<T>)
    ensures Subseq(a, a)
    decreases |a|
  {
    if a != [] {
      SubseqReflexive(a[..|a| - 1]);
    }
  }

  /** Appending the same element to both sides keeps the relation. */
  lemma SubseqAppend<T>(a: seq<T>, b: seq<T>, x: T)
    requires Subseq(a, b)
    ensures Subseq(a + [x], b + [x])
  {
  }

  lemma {:induction false} SubseqTransitive<T>(a: seq<T>, b: seq<T>, c: seq<T>)
    requires Subseq(a, b) && Subseq(b, c)
    ensures Subseq(a, c)
    decreases |c|
  {
    if c != [] {
      var c' := c[..|c| - 1];
      if Subseq(b, c') {
        SubseqTransitive(a, b, c');
      } else {
        var b' := b[..|b| - 1];
        if a != [] && a[|a| - 1] == b[|b| - 1] && Subseq(a[..|a| - 1], b') {
          SubseqTransitive(a[..|a| - 1], b', c');
        } else {
          SubseqTransitive(a, b', c');
        }
      }
    }
  }

  /** A sublist holds no element more often than the list it comes from. */
  lemma {:induction false} SubseqMultiset<T>(a: seq<T>, b: seq<T>)
    ensures Subseq(a, b) ==> multiset(a) <= multiset(b)
    decreases |b|
  {
    if b != [] && Subseq(a, b) {
      var b' := b[..|b| - 1];
      assert b == b' + [b[|b| - 1]];
      if a != [] && a[|a| - 1] == b[|b| - 1] && Subseq(a[..|a| - 1], b') {
        SubseqMultiset(a[..|a| - 1], b');
        assert a == a[..|a| - 1] + [a[|a| - 1]];
      } else {
        SubseqMultiset(a, b');
      }
    }
  }

  /** Removal keeps the surviving lines in their original relative order. */
  lemma {:induction false} WithoutIsSubseq(items: seq<string>, name: string)
    ensures Subseq(Without(items, name), items)
    decreases |items|
  {
    if items != [] {
      var front, last := items[..|items| - 1], items[|items| - 1];
      var r := Without(items, name);
      WithoutIsSubseq(front, name);
      if StartsWith(last, name) {
        assert r == Without(front, name);
      } else {
        assert r == Without(front, name) + [last];
        assert r[..|r| - 1] == Without(front, name);
      }
    }
  }

  /**
   * The filter is the only order-preserving sublist that drops exactly the
   * lines starting with `name` and keeps every copy of every other line.
   */
  lemma {:induction false} WithoutUnique(r: seq<string>, items: seq<string>, name: string)
    requires Subseq(r, items)
    requires forall x :: multiset(r)[x] == if StartsWith(x, name) then 0 else multiset(items)[x]
    ensures r == Without(items, name)
    decreases |items|, 1
  {
    if items != [] {
      if StartsWith(items[|items| - 1], name) {
        WithoutUniqueDropped(r, items, name);
      } else {
        WithoutUniqueKept(r, items, name);
      }
    }
  }

  /** WithoutUnique when the last line starts with `name`: r cannot end with it. */
  lemma {:induction false} WithoutUniqueDropped(r: seq<string>, items: seq<string>, name: string)
    requires items != [] && StartsWith(items[|items| - 1], name)
    requires Subseq(r, items)
    requires forall x :: multiset(r)[x] == if StartsWith(x, name) then 0 else multiset(items)[x]
    ensures r == Without(items, name)
    decreases |items|, 0
  {
    var front, last := items[..|items| - 1], items[|items| - 1];
    assert items == front + [last];
    assert multiset(items) == multiset(front) + multiset{last};
    // `last` has no copy in r, so r cannot end with it.
    assert r != [] ==> r[|r| - 1] in multiset(r) && r[|r| - 1] != last;
    assert Subseq(r, front);
    forall x
      ensures multiset(r)[x] == if StartsWith(x, name) then 0 else multiset(front)[x]
    {
    }
    WithoutUnique(r, front, name);
  }

  /** WithoutUnique when the last line survives: r holds one more copy of it than the rest, so ends with it. */
  lemma {:induction false} WithoutUniqueKept(r: seq<string>, items: seq<string>, name: string)
    requires items != [] && !StartsWith(items[|items| - 1], name)
    requires Subseq(r, items)
    requires forall x :: multiset(r)[x] == if StartsWith(x, name) then 0 else multiset(items)[x]
    ensures r == Without(items, name)
    decreases |items|, 0
  {
    var front, last := items[..|items| - 1], items[|items| - 1];
    assert items == front + [last];
    assert multiset(items) == multiset(front) + multiset{last};
    assert multiset(r)[last] == multiset(front)[last] + 1;
    SubseqMultiset(r, front);
    assert !Subseq(r, front);
    var r' := r[..|r| - 1];
    assert r == r' + [last];
    assert multiset(r) == multiset(r') + multiset{last};
    forall x
      ensures multiset(r')[x] == if StartsWith(x, name) then 0 else multiset(front)[x]
    {
    }
    WithoutUnique(r', front, name);
  }

  /**
   * Both directions: a list is the result of removing `name` from `items`
   * exactly when it is an order-preserving sublist of `items` holding no line
   * that starts with `name` and every copy of every other line.
   */
  lemma WithoutCharacterised(r: seq<string>, items: seq<string>, name: string)
    ensures r == Without(items, name) <==>
            && Subseq(r, items)
            && forall x :: multiset(r)[x] == if StartsWith(x, name) then 0 else multiset(items)[x]
  {
    WithoutIsSubseq(items, name);
    WithoutCounts(items, name);
    if Subseq(r, items) && forall x :: multiset(r)[x] == if StartsWith(x, name) then 0 else multiset(items)[x] {
      WithoutUnique(r, items, name);
    }
  }

  /** Removing the same name twice leaves the list as removing it once did. */
  lemma {:induction false} WithoutIdempotent(items: seq<string>, name: string)
    ensures Without(Without(items, name), name) == Without(items, name)
    decreases |items|
  {
    if items != [] {
      var front, last := items[..|items| - 1], items[|items| - 1];
      var once := Without(front, name);
      WithoutIdempotent(front, name);
      if StartsWith(last, name) {
        assert Without(items, name) == once;
      } else {
        var twice := once + [last];
        assert Without(items, name) == twice;
        assert twice[..|twice| - 1] == once && twice[|twice| - 1] == last;
        assert Without(twice, name) == Without(once, name) + [last];
      }
    }
  }
}
