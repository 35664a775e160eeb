/** Sequences without repetition, and erasing the first occurrence of an element. */
module Lists {
  ghost predicate NoDup<T>(s: seq<T>) {
    forall i, j :: 0 <= i < j < |s| ==> s[i] != s[j]
  }

  lemma Regroup<T>(a: seq<T>, b: seq<T>, c: seq<T>)
    ensures a + (b + c) == a + b + c
  {}

  lemma NoDupConcat<T>(a: seq<T>, b: seq<T>)
    requires NoDup(a) && NoDup(b) && forall x :: x in a ==> x !in b
    ensures NoDup(a + b)
  {
    forall i, j | 0 <= i < j < |a + b| ensures (a + b)[i] != (a + b)[j] {
      if i < |a| <= j {
        assert a[i] in a && b[j - |a|] in b;
      }
    }
  }

  /** Two exact batches are the same events in some order. */
  lemma SameElements<T>(a: seq<T>, b: seq<T>)
    requires NoDup(a) && NoDup(b) && forall x :: x in a <==> x in b
    ensures multiset(a) == multiset(b)
  {
    forall x ensures multiset(a)[x] == multiset(b)[x] {
      CountOnce(a, x);
      CountOnce(b, x);
    }
  }

  lemma {:induction false} CountOnce<T>(s: seq<T>, x: T)
    requires NoDup(s)
    ensures multiset(s)[x] == if x in s then 1 else 0
  {
    if s == [] {
    } else {
      assert s == [s[0]] + s[1..];
      CountOnce(s[1..], x);
    }
  }

  lemma {:induction false} DistinctBound<T>(s: seq<T>, bound: set<T>)
    requires NoDup(s) && forall x :: x in s ==> x in bound
    ensures |s| <= |bound|
  {
    if s == [] {
    } else {
      forall x | x in s[1..] ensures x in bound - {s[0]} {
        assert x in s;
      }
      DistinctBound(s[1..], bound - {s[0]});
    }
  }

  function IndexOf<T(==)>(s: seq<T>, x: T): (i: nat)
    ensures i <= |s| && (i < |s| ==> s[i] == x) && forall j :: 0 <= j < i ==> s[j] != x
  {
    if s == [] || s[0] == x then 0 else 1 + IndexOf(s[1..], x)
  }

  function Without<T(==)>(s: seq<T>, x: T): seq<T> {
    var i := IndexOf(s, x);
    if i < |s| then s[..i] + s[i + 1..] else s
  }

  /** In a list without repetition the first occurrence is the only one. */
  lemma WithoutKeeps<T>(s: seq<T>, x: T)
    requires NoDup(s)
    ensures NoDup(Without(s, x)) && forall y :: y in Without(s, x) <==> y in s && y != x
  {
    var i := IndexOf(s, x);
    if i < |s| {
      var t := Without(s, x);
      forall y ensures y in t <==> y in s && y != x {
        if y in s && y != x {
          var j :| 0 <= j < |s| && s[j] == y;
          assert t[if j < i then j else j - 1] == y;
        }
        if y in t {
          var j :| 0 <= j < |t| && t[j] == y;
          assert s[if j < i then j else j + 1] == y;
        }
      }
    }
  }
}
