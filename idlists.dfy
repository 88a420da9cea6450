/** The id lists a Task and a Helper keep of each other (`appliedHelpers`, `appliedTasks`):
    membership, duplicate freedom and removal of every occurrence of an id. */
module IdLists {
  import opened Common

  /** No identifier occurs twice in `s`. */
  predicate NoDup(s: seq<Id>)
  {
    forall i, j :: 0 <= i < j < |s| ==> s[i] != s[j]
  }

  /** `s` with every occurrence of `x` removed and the other ids kept in order:
      the `filter(id => String(id) !== String(x))` both models apply. */
  function Without(s: seq<Id>, x: Id): (r: seq<Id>)
    ensures forall y :: y in r <==> y in s && y != x
    ensures |r| <= |s|
  {
    if s == [] then []
    else if s[0] == x then Without(s[1..], x)
    else [s[0]] + Without(s[1..], x)
  }

  /** Removing an id that is absent changes nothing. */
  lemma {:induction false} WithoutAbsent(s: seq<Id>, x: Id)
    requires x !in s
    ensures Without(s, x) == s
  {
    if s != [] {
      WithoutAbsent(s[1..], x);
    }
  }

  /** Removal is idempotent: a second removal of the same id is a no-op. */
  lemma {:induction false} WithoutIdempotent(s: seq<Id>, x: Id)
    ensures Without(Without(s, x), x) == Without(s, x)
  {
    WithoutAbsent(Without(s, x), x);
  }

  /** Removal distributes over concatenation, so the surviving ids keep their relative order. */
  lemma {:induction false} WithoutConcat(a: seq<Id>, b: seq<Id>, x: Id)
    ensures Without(a + b, x) == Without(a, x) + Without(b, x)
  {
    if a == [] {
      assert a + b == b;
    } else {
      assert (a + b)[0] == a[0];
      assert (a + b)[1..] == a[1..] + b;
      WithoutConcat(a[1..], b, x);
    }
  }

  /** Removal takes out every occurrence of `x` and leaves every other id's count as it was. */
  lemma {:induction false} WithoutCounts(s: seq<Id>, x: Id)
    ensures multiset(Without(s, x)) == multiset(s)[x := 0]
  {
    if s == [] {
    } else {
      assert s == [s[0]] + s[1..];
      WithoutCounts(s[1..], x);
    }
  }

  /** Appending an id and then removing it restores a list that did not hold it. */
  lemma {:induction false} AppendThenWithout(s: seq<Id>, x: Id)
    requires x !in s
    ensures Without(s + [x], x) == s
  {
    WithoutConcat(s, [x], x);
    WithoutAbsent(s, x);
    assert Without([x], x) == [];
  }

  /** Appending an absent id keeps a duplicate-free list duplicate-free. */
  lemma AppendKeepsNoDup(s: seq<Id>, x: Id)
    requires NoDup(s) && x !in s
    ensures NoDup(s + [x])
  {
    forall i, j | 0 <= i < j < |s + [x]|
      ensures (s + [x])[i] != (s + [x])[j]
    {
      if j == |s| {
        assert (s + [x])[i] == s[i];
      }
    }
  }

  /** Removal keeps a duplicate-free list duplicate-free. */
  lemma {:induction false} WithoutKeepsNoDup(s: seq<Id>, x: Id)
    requires NoDup(s)
    ensures NoDup(Without(s, x))
  {
    if s != [] {
      assert NoDup(s[1..]) by {
        forall i, j | 0 <= i < j < |s[1..]| ensures s[1..][i] != s[1..][j] {
          assert s[1..][i] == s[i + 1] && s[1..][j] == s[j + 1];
        }
      }
      WithoutKeepsNoDup(s[1..], x);
      if s[0] != x {
        var t := Without(s[1..], x);
        assert s[0] !in s[1..];
        assert s[0] !in t;
        forall i, j | 0 <= i < j < |[s[0]] + t|
          ensures ([s[0]] + t)[i] != ([s[0]] + t)[j]
        {
          if i == 0 {
            assert ([s[0]] + t)[j] == t[j - 1];
          } else {
            assert ([s[0]] + t)[i] == t[i - 1] && ([s[0]] + t)[j] == t[j - 1];
          }
        }
      }
    }
  }
}
