/** Sequence vocabulary: reversal, filtering, and the stable newest-first sort of snapshots. */
module Sorting {
  import opened Jobs

  ghost predicate Distinct<T>(s: seq<T>) {
    forall i, j :: 0 <= i < j < |s| ==> s[i] != s[j]
  }

  function Reverse<T>(s: seq<T>): (r: seq<T>)
    ensures |r| == |s|
    ensures forall i :: 0 <= i < |s| ==> r[i] == s[|s| - 1 - i]
  {
    if s == [] then [] else Reverse(s[1..]) + [s[0]]
  }

  /** Every occurrence of x removed. */
  function Without<T(==, !new)>(s: seq<T>, x: T): (r: seq<T>)
    ensures forall y :: y in r <==> y in s && y != x
  {
    if s == [] then [] else (if s[0] == x then [] else [s[0]]) + Without(s[1..], x)
  }

  /** The snapshots created at instant t, in order. */
  function CreatedAt(s: seq<JobSnapshot>, t: Time): seq<JobSnapshot> {
    if s == [] then [] else (if s[0].createdAt == t then [s[0]] else []) + CreatedAt(s[1..], t)
  }

  function Insert(x: JobSnapshot, s: seq<JobSnapshot>): seq<JobSnapshot> {
    if s == [] || s[0].createdAt <= x.createdAt then [x] + s else [s[0]] + Insert(x, s[1..])
  }

  /** Stable sort, newest first: what sort.SliceStable computes with CreatedAt.After. */
  function NewestFirst(s: seq<JobSnapshot>): seq<JobSnapshot> {
    if s == [] then [] else Insert(s[0], NewestFirst(s[1..]))
  }

  ghost predicate Descending(s: seq<JobSnapshot>) {
    forall i, j :: 0 <= i < j < |s| ==> s[i].createdAt >= s[j].createdAt
  }

  lemma {:induction false} InsertPermutes(x: JobSnapshot, s: seq<JobSnapshot>)
    ensures multiset(Insert(x, s)) == multiset(s) + multiset{x}
  {
    if s != [] && s[0].createdAt > x.createdAt {
      InsertPermutes(x, s[1..]);
      assert s == [s[0]] + s[1..];
      assert multiset(Insert(x, s)) == multiset{s[0]} + multiset(Insert(x, s[1..]));
    }
  }

  lemma {:induction false} InsertSorts(x: JobSnapshot, s: seq<JobSnapshot>)
    requires Descending(s)
    ensures Descending(Insert(x, s))
    ensures multiset(Insert(x, s)) == multiset(s) + multiset{x}
  {
    InsertPermutes(x, s);
    if s != [] && s[0].createdAt > x.createdAt {
      var t := Insert(x, s[1..]);
      InsertSorts(x, s[1..]);
      forall y | y in t ensures y.createdAt <= s[0].createdAt {
        assert y in multiset(t);
        assert y == x || y in s[1..];
      }
      DescendingFrom(s[0], t);
    }
  }

  lemma DescendingFrom(x: JobSnapshot, t: seq<JobSnapshot>)
    requires Descending(t) && forall y :: y in t ==> y.createdAt <= x.createdAt
    ensures Descending([x] + t)
  {
  }

  lemma {:induction false} InsertIsStable(x: JobSnapshot, s: seq<JobSnapshot>, t: Time)
    requires Descending(s)
    ensures CreatedAt(Insert(x, s), t) == (if x.createdAt == t then [x] else []) + CreatedAt(s, t)
  {
    if s == [] || s[0].createdAt <= x.createdAt {
      CreatedAtCons(x, s, t);
    } else {
      InsertIsStable(x, s[1..], t);
      CreatedAtCons(s[0], Insert(x, s[1..]), t);
      if s[0].createdAt == t {
        assert [] + CreatedAt(s[1..], t) == CreatedAt(s[1..], t);
      } else {
        assert [] + CreatedAt(Insert(x, s[1..]), t) == CreatedAt(Insert(x, s[1..]), t);
        assert [] + CreatedAt(s[1..], t) == CreatedAt(s, t);
      }
    }
  }

  lemma CreatedAtCons(x: JobSnapshot, s: seq<JobSnapshot>, t: Time)
    ensures CreatedAt([x] + s, t) == (if x.createdAt == t then [x] else []) + CreatedAt(s, t)
  {
    assert ([x] + s)[1..] == s;
  }

  /** The sort is a permutation, newest first, and keeps equal instants in their given order. */
  lemma {:induction false} NewestFirstSorts(s: seq<JobSnapshot>)
    ensures Descending(NewestFirst(s))
    ensures multiset(NewestFirst(s)) == multiset(s) && |NewestFirst(s)| == |s|
    ensures forall t :: CreatedAt(NewestFirst(s), t) == CreatedAt(s, t)
  {
    if s != [] {
      NewestFirstSorts(s[1..]);
      InsertSorts(s[0], NewestFirst(s[1..]));
      assert s == [s[0]] + s[1..];
      assert |multiset(NewestFirst(s))| == |multiset(s)|;
      forall t ensures CreatedAt(NewestFirst(s), t) == CreatedAt(s, t) {
        InsertIsStable(s[0], NewestFirst(s[1..]), t);
      }
    }
  }

  lemma NewestFirstMembers(s: seq<JobSnapshot>)
    ensures Descending(NewestFirst(s)) && |NewestFirst(s)| == |s|
    ensures forall x :: x in NewestFirst(s) <==> x in s
  {
    NewestFirstSorts(s);
    assert forall x :: x in s <==> x in multiset(s);
    assert forall x :: x in NewestFirst(s) <==> x in multiset(NewestFirst(s));
  }

  lemma {:induction false} CreatedAtAppend(a: seq<JobSnapshot>, b: seq<JobSnapshot>, t: Time)
    ensures CreatedAt(a + b, t) == CreatedAt(a, t) + CreatedAt(b, t)
  {
    if a == [] {
      assert a + b == b;
    } else {
      assert (a + b)[1..] == a[1..] + b;
      CreatedAtAppend(a[1..], b, t);
    }
  }

  lemma {:induction false} ReverseAppend<T>(a: seq<T>, b: seq<T>)
    ensures Reverse(a + b) == Reverse(b) + Reverse(a)
  {
  }

  lemma {:induction false} CreatedAtReverse(s: seq<JobSnapshot>, t: Time)
    ensures CreatedAt(Reverse(s), t) == Reverse(CreatedAt(s, t))
  {
    if s != [] {
      CreatedAtAppend(Reverse(s[1..]), [s[0]], t);
      CreatedAtReverse(s[1..], t);
      var head := if s[0].createdAt == t then [s[0]] else [];
      assert CreatedAt([s[0]], t) == head;
      assert Reverse(head) == head;
      ReverseAppend(head, CreatedAt(s[1..], t));
    }
  }

  lemma {:induction false} CreatedAtMembers(s: seq<JobSnapshot>, t: Time)
    ensures forall x :: x in CreatedAt(s, t) <==> x in s && x.createdAt == t
  {
    if s != [] {
      CreatedAtMembers(s[1..], t);
    }
  }

  lemma {:induction false} ReverseMultiset<T>(s: seq<T>)
    ensures multiset(Reverse(s)) == multiset(s)
  {
    if s != [] {
      ReverseMultiset(s[1..]);
      assert s == [s[0]] + s[1..];
    }
  }

  lemma {:induction false} WithoutReverse<T(!new)>(s: seq<T>, x: T)
    ensures Without(Reverse(s), x) == Reverse(Without(s, x))
  {
    if s != [] {
      WithoutAppend(Reverse(s[1..]), [s[0]], x);
      WithoutReverse(s[1..], x);
      var head := if s[0] == x then [] else [s[0]];
      assert Without([s[0]], x) == head;
      assert Reverse(head) == head;
      ReverseAppend(head, Without(s[1..], x));
    }
  }

  lemma {:induction false} WithoutAppend<T(!new)>(a: seq<T>, b: seq<T>, x: T)
    ensures Without(a + b, x) == Without(a, x) + Without(b, x)
  {
    if a == [] {
      assert a + b == b;
    } else {
      assert (a + b)[1..] == a[1..] + b;
      WithoutAppend(a[1..], b, x);
    }
  }

  lemma {:induction false} WithoutAbsent<T(!new)>(s: seq<T>, x: T)
    requires x !in s
    ensures Without(s, x) == s
  {
    if s != [] {
      WithoutAbsent(s[1..], x);
    }
  }

  /** Cutting a duplicate-free sequence at one position removes every occurrence. */
  lemma {:induction false} WithoutIsCut<T(!new)>(s: seq<T>, i: nat)
    requires i < |s| && Distinct(s)
    ensures Without(s, s[i]) == s[..i] + s[i + 1..]
  {
    assert s == s[..i] + [s[i]] + s[i + 1..];
    WithoutAppend(s[..i] + [s[i]], s[i + 1..], s[i]);
    WithoutAppend(s[..i], [s[i]], s[i]);
    WithoutAbsent(s[..i], s[i]);
    WithoutAbsent(s[i + 1..], s[i]);
    assert Without([s[i]], s[i]) == [];
  }

  lemma {:induction false} WithoutDistinct<T(!new)>(s: seq<T>, x: T)
    requires Distinct(s)
    ensures Distinct(Without(s, x))
  {
    if s != [] {
      WithoutDistinct(s[1..], x);
      assert s[0] !in s[1..];
    }
  }

  lemma TailMultiset<T>(s: seq<T>)
    requires s != []
    ensures multiset(s[1..]) == multiset(s) - multiset{s[0]}
  {
    assert s == [s[0]] + s[1..];
  }

  lemma SameFirst(a: seq<JobSnapshot>, b: seq<JobSnapshot>)
    requires Descending(a) && Descending(b) && multiset(a) == multiset(b) && a != [] && b != []
    requires forall i, j :: 0 <= i < j < |a| ==> a[i].createdAt != a[j].createdAt
    ensures a[0] == b[0]
  {
    assert a[0] in multiset(b) && b[0] in multiset(a);
    var k :| 0 <= k < |b| && b[k] == a[0];
    var m :| 0 <= m < |a| && a[m] == b[0];
  }

  /** Two newest-first orderings of the same snapshots agree when no two share an instant. */
  lemma {:induction false} DescendingUnique(a: seq<JobSnapshot>, b: seq<JobSnapshot>)
    requires Descending(a) && Descending(b) && multiset(a) == multiset(b)
    requires forall i, j :: 0 <= i < j < |a| ==> a[i].createdAt != a[j].createdAt
    ensures a == b
  {
    assert |multiset(a)| == |a| && |multiset(b)| == |b|;
    if a != [] {
      SameFirst(a, b);
      TailMultiset(a);
      TailMultiset(b);
      DescendingUnique(a[1..], b[1..]);
      assert a == [a[0]] + a[1..] && b == [b[0]] + b[1..];
    }
  }

  /** Dropping the same element from two permutations leaves permutations. */
  lemma {:induction false} PermutationRest<T>(a: seq<T>, b: seq<T>) returns (k: nat)
    requires a != [] && multiset(a) == multiset(b)
    ensures k < |b| && b[k] == a[0]
    ensures multiset(a[1..]) == multiset(b[..k] + b[k + 1..])
  {
    assert a[0] in multiset(b);
    k :| 0 <= k < |b| && b[k] == a[0];
    assert b == b[..k] + [b[k]] + b[k + 1..];
    TailMultiset(a);
    assert multiset(b[..k] + b[k + 1..]) == multiset(b) - multiset{b[k]};
  }
}
