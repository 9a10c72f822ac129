// Small pieces shared by the models: optional values and error results, and
// the std::remove_if / erase idioms the C++ sources use on vectors.

module Support {

  datatype Option<T> = None | Some(value: T)

  /** A value, or the text of an error the C++ code throws or returns. */
  datatype Result<T> = Ok(value: T) | Err(msg: string)

  /** Every element of `s` occurs in it exactly once. */
  ghost predicate Distinct<T>(s: seq<T>)
  {
    forall x | x in s :: multiset(s)[x] == 1
  }

  /** The elements of `s` other than `x`, in their original order. */
  function Without<T(==)>(s: seq<T>, x: T): (r: seq<T>)
    ensures x !in r
    ensures |r| == |s| - multiset(s)[x]
    ensures multiset(r) == multiset(s)[x := 0]
    ensures forall y | y in r :: y in s
  {
    if s == [] then []
    else
      assert s == [s[0]] + s[1..];
      if s[0] == x then Without(s[1..], x) else [s[0]] + Without(s[1..], x)
  }

  /**
   * `c.erase(std::remove_if(c.begin(), c.end(), pred))` with `pred` matching
   * exactly the elements equal to `x`, as libstdc++ executes it: remove_if
   * moves the kept elements to the front and leaves the rest of the range as
   * it was, and the single-iterator erase then drops one element, the one at
   * the returned position.  The erase at end() that follows when nothing
   * matches is undefined behaviour, hence the precondition.
   */
  function RemoveIfEraseOne<T(==)>(c: seq<T>, x: T): (r: seq<T>)
    requires x in c
    ensures forall y | y in r :: y in c
  {
    var kept := Without(c, x);
    kept + c[|kept| + 1..]
  }

  /** A single occurrence is removed outright; the others keep their order. */
  lemma RemoveIfEraseOnce<T>(c: seq<T>, x: T)
    requires multiset(c)[x] == 1
    ensures x in c
    ensures RemoveIfEraseOne(c, x) == Without(c, x)
    ensures |RemoveIfEraseOne(c, x)| == |c| - 1
  {
    assert x in multiset(c);
  }

  /** With duplicates, libstdc++ leaves stale copies behind the kept elements. */
  lemma RemoveIfEraseDuplicate(x: int, y: int)
    requires x != y
    ensures RemoveIfEraseOne([x, y, x], x) == [y, x]
  {
    assert Without([x, y, x], x) == [y] by {
      assert [x, y, x][1..] == [y, x];
      assert [y, x][1..] == [x];
      assert [x][1..] == [];
    }
  }

  /**
   * The erase_if helper of Task.cpp: the guarded form of the idiom above,
   * which reports whether anything was removed.
   */
  function EraseIf<T(==)>(c: seq<T>, x: T): (r: (seq<T>, bool))
    ensures r.1 <==> x in c
    ensures !r.1 ==> r.0 == c
    ensures forall y | y in r.0 :: y in c
  {
    if x in c then (RemoveIfEraseOne(c, x), true) else (c, false)
  }

  lemma EraseIfDistinct<T>(c: seq<T>, x: T)
    requires Distinct(c)
    ensures EraseIf(c, x).0 == Without(c, x)
    ensures Distinct(EraseIf(c, x).0)
    ensures x in c ==> |EraseIf(c, x).0| == |c| - 1
  {
    if x in c {
      RemoveIfEraseOnce(c, x);
    } else {
      WithoutAbsent(c, x);
    }
    DistinctWithout(c, x);
  }

  lemma {:induction false} WithoutAbsent<T>(c: seq<T>, x: T)
    requires x !in c
    ensures Without(c, x) == c
  {
    if c != [] {
      assert x !in c[1..];
      WithoutAbsent(c[1..], x);
      assert c == [c[0]] + c[1..];
    }
  }

  lemma DistinctWithout<T>(c: seq<T>, x: T)
    requires Distinct(c)
    ensures Distinct(Without(c, x))
  {
    var r := Without(c, x);
    forall y | y in r ensures multiset(r)[y] == 1 {
      assert y != x;
      assert multiset(r)[y] == multiset(c)[y];
      assert y in multiset(c);
    }
  }

  /** Two positions of a duplicate-free sequence hold different elements. */
  lemma DistinctIndices<T>(s: seq<T>, i: int, j: int)
    requires Distinct(s) && 0 <= i < j < |s|
    ensures s[i] != s[j]
  {
    var x := s[i];
    assert x in s;
    assert s == s[..j] + s[j..];
    assert multiset(s) == multiset(s[..j]) + multiset(s[j..]);
    assert x in s[..j];
    assert multiset(s[j..])[x] == 0;
    assert s[j] in multiset(s[j..]);
  }

  lemma DistinctAppend<T>(s: seq<T>, x: T)
    requires Distinct(s) && x !in s
    ensures Distinct(s + [x])
  {
    var t := s + [x];
    assert multiset(t) == multiset(s) + multiset{x};
    forall y | y in t ensures multiset(t)[y] == 1 {
      if y == x {
        assert multiset(s)[x] == 0;
      } else {
        assert y in s;
      }
    }
  }

  lemma DistinctPermutation<T>(s: seq<T>, t: seq<T>)
    requires Distinct(s) && multiset(s) == multiset(t)
    ensures Distinct(t)
  {
    forall x | x in t ensures multiset(t)[x] == 1 {
      assert x in multiset(t);
      assert x in s;
    }
  }

  function Min(a: int, b: int): int
  {
    if a <= b then a else b
  }
}
