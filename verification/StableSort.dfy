/**
  A stable sort with respect to a total preorder. Rust's `slice::sort_by` is a library
  routine; the model keeps what its callers rely on: the result is the ordered
  permutation of the input in which equivalent elements keep their order.
  */
module StableSort {

  ghost predicate TotalPreorder<T(!new)>(leq: (T, T) -> bool) {
    && (forall x, y :: leq(x, y) || leq(y, x))
    && (forall x, y, z :: leq(x, y) && leq(y, z) ==> leq(x, z))
  }

  ghost predicate Ordered<T>(leq: (T, T) -> bool, s: seq<T>) {
    forall i, j :: 0 <= i < j < |s| ==> leq(s[i], s[j])
  }

  ghost predicate NoDuplicates<T>(s: seq<T>) {
    forall i, j :: 0 <= i < j < |s| ==> s[i] != s[j]
  }

  lemma {:induction false} DistinctCounts<T>(s: seq<T>)
    requires NoDuplicates(s)
    ensures forall x :: multiset(s)[x] <= 1
  {
    if s != [] {
      var rest := s[1..];
      assert s == [s[0]] + rest;
      assert forall i :: 0 <= i < |rest| ==> rest[i] == s[i + 1];
      DistinctCounts(rest);
      assert s[0] !in rest;
    }
  }

  lemma CountsDistinct<T>(s: seq<T>)
    requires forall x :: multiset(s)[x] <= 1
    ensures NoDuplicates(s)
  {
    forall i, j | 0 <= i < j < |s| ensures s[i] != s[j] {
      assert s == s[..i] + [s[i]] + s[i + 1..j] + [s[j]] + s[j + 1..];
      assert multiset(s)[s[i]] <= 1;
    }
  }

  function Insert<T>(leq: (T, T) -> bool, x: T, s: seq<T>): seq<T> {
    if s == [] then [x]
    else if leq(x, s[0]) then [x] + s
    else [s[0]] + Insert(leq, x, s[1..])
  }

  function Sort<T>(leq: (T, T) -> bool, s: seq<T>): seq<T> {
    if s == [] then [] else Insert(leq, s[0], Sort(leq, s[1..]))
  }

  function Filter<T(!new)>(keep: T -> bool, s: seq<T>): (r: seq<T>)
    ensures forall x :: x in r <==> x in s && keep(x)
  {
    if s == [] then []
    else if keep(s[0]) then [s[0]] + Filter(keep, s[1..])
    else Filter(keep, s[1..])
  }

  /** The positions a filter keeps, in order, and what it reads there. */
  ghost predicate KeptAt<T>(keep: T -> bool, s: seq<T>, kept: seq<T>, positions: seq<int>) {
    && |positions| == |kept|
    && (forall k, l :: 0 <= k < l < |positions| ==> positions[k] < positions[l])
    && (forall k :: 0 <= k < |positions| ==> 0 <= positions[k] < |s| && keep(s[positions[k]]) && kept[k] == s[positions[k]])
    && (forall i :: 0 <= i < |s| && keep(s[i]) ==> i in positions)
  }

  lemma KeptSnoc<T>(keep: T -> bool, s: seq<T>, kept: seq<T>, positions: seq<int>, x: T)
    requires KeptAt(keep, s, kept, positions)
    ensures keep(x) ==> KeptAt(keep, s + [x], kept + [x], positions + [|s|])
    ensures !keep(x) ==> KeptAt(keep, s + [x], kept, positions)
  {
    var s', positions' := s + [x], if keep(x) then positions + [|s|] else positions;
    forall i | 0 <= i < |s'| && keep(s'[i]) ensures i in positions' {
      if i < |s| {
        assert s'[i] == s[i] && i in positions;
      } else {
        assert positions'[|positions|] == i;
      }
    }
  }

  lemma {:induction false} FilterSnoc<T(!new)>(keep: T -> bool, s: seq<T>, x: T)
    ensures Filter(keep, s + [x]) == Filter(keep, s) + if keep(x) then [x] else []
  {
    if s == [] {
      assert s + [x] == [x];
    } else {
      assert (s + [x])[1..] == s[1..] + [x];
      FilterSnoc(keep, s[1..], x);
    }
  }

  ghost predicate FilterReads<T(!new)>(keep: T -> bool, s: seq<T>, positions: seq<int>) {
    KeptAt(keep, s, Filter(keep, s), positions)
  }

  lemma KeptStep<T(!new)>(keep: T -> bool, s: seq<T>, n: nat, positions: seq<int>)
    requires n < |s| && FilterReads(keep, s[..n], positions)
    ensures FilterReads(keep, s[..n + 1], if keep(s[n]) then positions + [n] else positions)
  {
    hide Filter, KeptAt;
    assert s[..n + 1] == s[..n] + [s[n]];
    FilterSnoc(keep, s[..n], s[n]);
    KeptSnoc(keep, s[..n], Filter(keep, s[..n]), positions, s[n]);
    assert Filter(keep, s[..n]) + [] == Filter(keep, s[..n]);
  }

  lemma EmptyReads<T(!new)>(keep: T -> bool)
    ensures FilterReads(keep, [], [])
  {
  }

  lemma {:induction false} PrefixPositions<T(!new)>(keep: T -> bool, s: seq<T>, n: nat) returns (positions: seq<int>)
    requires n <= |s|
    ensures FilterReads(keep, s[..n], positions)
  {
    hide FilterReads;
    if n == 0 {
      positions := [];
      assert s[..n] == [];
      EmptyReads(keep);
    } else {
      var before := PrefixPositions(keep, s, n - 1);
      KeptStep(keep, s, n - 1, before);
      positions := if keep(s[n - 1]) then before + [n - 1] else before;
    }
  }

  /** Filtering reads off the kept positions in order. */
  lemma FilterPositions<T(!new)>(keep: T -> bool, s: seq<T>) returns (positions: seq<int>)
    ensures FilterReads(keep, s, positions)
  {
    hide FilterReads;
    positions := PrefixPositions(keep, s, |s|);
    assert s[..|s|] == s;
  }

  function Positions<T>(keep: T -> bool, s: seq<T>): set<int> {
    set i | 0 <= i < |s| && keep(s[i])
  }

  lemma PositionsSnoc<T>(keep: T -> bool, s: seq<T>, x: T)
    ensures Positions(keep, s + [x]) == Positions(keep, s) + if keep(x) then {|s|} else {}
    ensures |s| !in Positions(keep, s)
  {
    forall i ensures i in Positions(keep, s + [x]) <==> i in Positions(keep, s) || (keep(x) && i == |s|) {
      if 0 <= i < |s| {
        assert (s + [x])[i] == s[i];
      }
    }
  }

  /** The length of a filtered sequence is the number of positions kept. */
  lemma {:induction false} FilterSize<T(!new)>(keep: T -> bool, s: seq<T>)
    ensures |Filter(keep, s)| == |Positions(keep, s)|
  {
    if s == [] {
      assert Positions(keep, s) == {};
    } else {
      hide Filter, Positions;
      var n := |s| - 1;
      FilterSize(keep, s[..n]);
      assert s == s[..n] + [s[n]];
      FilterSnoc(keep, s[..n], s[n]);
      PositionsSnoc(keep, s[..n], s[n]);
    }
  }

  lemma {:induction false} FilterFilter<T(!new)>(keep: T -> bool, also: T -> bool, s: seq<T>)
    requires forall x :: also(x) ==> keep(x)
    ensures Filter(also, Filter(keep, s)) == Filter(also, s)
  {
    if s != [] {
      FilterFilter(keep, also, s[1..]);
      if keep(s[0]) {
        assert ([s[0]] + Filter(keep, s[1..]))[1..] == Filter(keep, s[1..]);
      }
    }
  }

  lemma {:induction false} InsertMultiset<T>(leq: (T, T) -> bool, x: T, s: seq<T>)
    ensures multiset(Insert(leq, x, s)) == multiset{x} + multiset(s)
  {
    if s != [] {
      assert s == [s[0]] + s[1..];
      if !leq(x, s[0]) {
        InsertMultiset(leq, x, s[1..]);
      }
    }
  }

  lemma {:induction false} SortMultiset<T>(leq: (T, T) -> bool, s: seq<T>)
    ensures multiset(Sort(leq, s)) == multiset(s)
    ensures |Sort(leq, s)| == |s|
  {
    if s != [] {
      SortMultiset(leq, s[1..]);
      InsertMultiset(leq, s[0], Sort(leq, s[1..]));
      assert s == [s[0]] + s[1..];
    }
    assert |multiset(Sort(leq, s))| == |multiset(s)|;
  }

  lemma MultisetSubsetSameSize<T>(a: multiset<T>, b: multiset<T>)
    requires a <= b && |a| == |b|
    ensures a == b
  {
    assert b == a + (b - a);
    assert |b - a| == 0;
  }

  lemma InMultiset<T>(s: seq<T>, t: seq<T>)
    requires multiset(s) == multiset(t)
    ensures forall x :: x in s <==> x in t
  {
    forall x ensures x in s <==> x in t {
      assert x in s <==> x in multiset(s);
      assert x in t <==> x in multiset(t);
    }
  }

  lemma {:induction false} InsertOrdered<T(!new)>(leq: (T, T) -> bool, x: T, s: seq<T>)
    requires TotalPreorder(leq) && Ordered(leq, s)
    ensures Ordered(leq, Insert(leq, x, s))
  {
    if s != [] {
      if leq(x, s[0]) {
        forall j | 0 < j < |s| + 1 ensures leq(x, ([x] + s)[j]) {
          assert leq(x, s[0]);
        }
      } else {
        var rest := Insert(leq, x, s[1..]);
        InsertOrdered(leq, x, s[1..]);
        InsertMultiset(leq, x, s[1..]);
        forall j | 0 <= j < |rest| ensures leq(s[0], rest[j]) {
          assert rest[j] in multiset(rest);
          if rest[j] != x {
            assert rest[j] in s[1..];
          }
        }
      }
    }
  }

  /** Sorting yields an ordered permutation. */
  lemma {:induction false} SortOrdered<T(!new)>(leq: (T, T) -> bool, s: seq<T>)
    requires TotalPreorder(leq)
    ensures Ordered(leq, Sort(leq, s))
  {
    if s != [] {
      SortOrdered(leq, s[1..]);
      InsertOrdered(leq, s[0], Sort(leq, s[1..]));
    }
  }

  /** An already ordered sequence is left alone: ties are never exchanged. */
  lemma {:induction false} SortOfOrdered<T(!new)>(leq: (T, T) -> bool, s: seq<T>)
    requires TotalPreorder(leq) && Ordered(leq, s)
    ensures Sort(leq, s) == s
  {
    if s != [] {
      SortOfOrdered(leq, s[1..]);
    }
  }

  lemma {:induction false} FilterInsert<T(!new)>(leq: (T, T) -> bool, keep: T -> bool, x: T, s: seq<T>)
    requires TotalPreorder(leq) && Ordered(leq, s)
    ensures Filter(keep, Insert(leq, x, s)) ==
            if keep(x) then Insert(leq, x, Filter(keep, s)) else Filter(keep, s)
  {
    if s == [] {
    } else if leq(x, s[0]) {
      assert ([x] + s)[1..] == s;
      if keep(x) {
        InsertBelowAll(leq, x, Filter(keep, s));
      }
    } else {
      var r := [s[0]] + Insert(leq, x, s[1..]);
      assert r[1..] == Insert(leq, x, s[1..]);
      FilterInsert(leq, keep, x, s[1..]);
      if keep(s[0]) {
        assert ([s[0]] + Filter(keep, s[1..]))[1..] == Filter(keep, s[1..]);
      }
    }
  }

  lemma InsertBelowAll<T>(leq: (T, T) -> bool, x: T, s: seq<T>)
    requires forall y :: y in s ==> leq(x, y)
    ensures Insert(leq, x, s) == [x] + s
  {
  }

  /** Stability, stated for every class of elements: sorting commutes with filtering. */
  lemma {:induction false} FilterSort<T(!new)>(leq: (T, T) -> bool, keep: T -> bool, s: seq<T>)
    requires TotalPreorder(leq)
    ensures Filter(keep, Sort(leq, s)) == Sort(leq, Filter(keep, s))
  {
    if s != [] {
      FilterSort(leq, keep, s[1..]);
      SortOrdered(leq, s[1..]);
      FilterInsert(leq, keep, s[0], Sort(leq, s[1..]));
      if keep(s[0]) {
        assert ([s[0]] + Filter(keep, s[1..]))[1..] == Filter(keep, s[1..]);
      }
    }
  }
}
