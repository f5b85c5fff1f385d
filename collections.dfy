/** Generic helpers used by the listing model: optional values and results,
    filtering, ordering by a key (most recent first) and distinct counts. */
module Collections {

  datatype Option<T> = None | Some(value: T)

  datatype Result<T, E> = Ok(value: T) | Err(error: E)

  /** The elements of `s` that satisfy `keep`, in their original order
      (a queryset `.filter(...)`): each kept element occurs as often as in
      `s`, every other element not at all. */
  function Filter<T(!new)>(s: seq<T>, keep: T -> bool): (r: seq<T>)
    ensures |r| <= |s|
    ensures forall x :: x in r <==> x in s && keep(x)
    ensures forall x :: multiset(r)[x] == if keep(x) then multiset(s)[x] else 0
  {
    if s == [] then []
    else
      assert s == [s[0]] + s[1..];
      if keep(s[0]) then [s[0]] + Filter(s[1..], keep)
      else Filter(s[1..], keep)
  }

  /** Filtering keeps the order of the input: filtering a concatenation is
      concatenating the filtered parts. */
  lemma {:induction false} FilterAppend<T(!new)>(a: seq<T>, b: seq<T>, keep: T -> bool)
    ensures Filter(a + b, keep) == Filter(a, keep) + Filter(b, keep)
  {
    if a == [] {
      assert a + b == b;
    } else {
      var ab := a + b;
      assert ab[0] == a[0] && ab[1..] == a[1..] + b;
      FilterAppend(a[1..], b, keep);
      if keep(a[0]) {
        calc {
          Filter(ab, keep);
          [a[0]] + Filter(a[1..] + b, keep);
          [a[0]] + (Filter(a[1..], keep) + Filter(b, keep));
          ([a[0]] + Filter(a[1..], keep)) + Filter(b, keep);
        }
      }
    }
  }

  /** `s` is ordered so that `key` never increases from left to right. */
  ghost predicate NonIncreasing<T>(s: seq<T>, key: T -> int) {
    forall i, j :: 0 <= i < j < |s| ==> key(s[i]) >= key(s[j])
  }

  /** Inserts `x` in front of the first element whose key is not larger. */
  function InsertDesc<T>(x: T, s: seq<T>, key: T -> int): seq<T> {
    if s == [] then [x]
    else if key(x) >= key(s[0]) then [x] + s
    else [s[0]] + InsertDesc(x, s[1..], key)
  }

  /** Insertion sort by `key`, largest first (an `order_by('-key')`). */
  function SortDesc<T>(s: seq<T>, key: T -> int): seq<T> {
    if s == [] then [] else InsertDesc(s[0], SortDesc(s[1..], key), key)
  }

  /** Putting an element in front of a sorted sequence keeps it sorted when
      its key is at least every key of the sequence. */
  lemma PrependSorted<T>(y: T, r: seq<T>, key: T -> int)
    requires NonIncreasing(r, key)
    requires forall j :: 0 <= j < |r| ==> key(y) >= key(r[j])
    ensures NonIncreasing([y] + r, key)
  {
  }

  lemma {:induction false} InsertDescCorrect<T>(x: T, s: seq<T>, key: T -> int)
    requires NonIncreasing(s, key)
    ensures multiset(InsertDesc(x, s, key)) == multiset(s) + multiset{x}
    ensures NonIncreasing(InsertDesc(x, s, key), key)
  {
    if s == [] {
    } else if key(x) >= key(s[0]) {
      PrependSorted(x, s, key);
    } else {
      var t := s[1..];
      assert s == [s[0]] + t;
      assert NonIncreasing(t, key) by {
        forall i, j | 0 <= i < j < |t| ensures key(t[i]) >= key(t[j]) {
          assert t[i] == s[i + 1] && t[j] == s[j + 1];
        }
      }
      InsertDescCorrect(x, t, key);
      var rest := InsertDesc(x, t, key);
      forall j | 0 <= j < |rest| ensures key(s[0]) >= key(rest[j]) {
        assert rest[j] in multiset(rest);
        if rest[j] != x {
          assert rest[j] in multiset(t);
          var k :| 0 <= k < |t| && t[k] == rest[j];
          assert s[k + 1] == rest[j];
        }
      }
      PrependSorted(s[0], rest, key);
    }
  }

  /** Sorting keeps every element exactly as often as it occurs and orders
      the result by `key`, largest first. */
  lemma {:induction false} SortDescCorrect<T>(s: seq<T>, key: T -> int)
    ensures multiset(SortDesc(s, key)) == multiset(s)
    ensures NonIncreasing(SortDesc(s, key), key)
  {
    if s != [] {
      SortDescCorrect(s[1..], key);
      InsertDescCorrect(s[0], SortDesc(s[1..], key), key);
      assert s == [s[0]] + s[1..];
    }
  }

  /** The sorted sequence holds the same elements and has the same length. */
  lemma SortDescMembers<T>(s: seq<T>, key: T -> int)
    ensures |SortDesc(s, key)| == |s|
    ensures forall x :: x in SortDesc(s, key) <==> x in s
  {
    SortDescCorrect(s, key);
    assert |SortDesc(s, key)| == |multiset(SortDesc(s, key))|;
    forall x ensures x in SortDesc(s, key) <==> x in s {
      assert x in SortDesc(s, key) <==> x in multiset(SortDesc(s, key));
      assert x in s <==> x in multiset(s);
    }
  }

  /** No two rows of `s` share an `id` (a primary key). */
  ghost predicate UniqueBy<T>(s: seq<T>, id: T -> nat) {
    forall i, j :: 0 <= i < j < |s| ==> id(s[i]) != id(s[j])
  }

  /** Appending a row whose id no stored row has keeps the ids unique. */
  lemma UniqueByAppend<T>(s: seq<T>, x: T, id: T -> nat)
    requires UniqueBy(s, id)
    requires forall y :: y in s ==> id(y) != id(x)
    ensures UniqueBy(s + [x], id)
  {
  }

  /** The distinct ids of the rows of `s` that belong to group `g`
      (a `Count(..., distinct=True)` annotation groups by the parent row). */
  function DistinctIdsIn<T(==)>(s: seq<T>, id: T -> nat, group: T -> nat, g: nat): set<nat> {
    set x | x in s && group(x) == g :: id(x)
  }

  /** The number of rows of `s` that belong to group `g`. */
  function CountIn<T>(s: seq<T>, group: T -> nat, g: nat): nat {
    if s == [] then 0
    else (if group(s[0]) == g then 1 else 0) + CountIn(s[1..], group, g)
  }

  /** With unique ids, counting distinct ids in a group counts its rows. */
  lemma {:induction false} DistinctIdsCount<T>(s: seq<T>, id: T -> nat, group: T -> nat, g: nat)
    requires UniqueBy(s, id)
    ensures |DistinctIdsIn(s, id, group, g)| == CountIn(s, group, g)
  {
    if s == [] {
      assert DistinctIdsIn(s, id, group, g) == {};
    } else {
      var t := s[1..];
      assert s == [s[0]] + t;
      assert UniqueBy(t, id) by {
        forall i, j | 0 <= i < j < |t| ensures id(t[i]) != id(t[j]) {
          assert t[i] == s[i + 1] && t[j] == s[j + 1];
        }
      }
      DistinctIdsCount(t, id, group, g);
      var rest := DistinctIdsIn(t, id, group, g);
      forall x | x in t ensures id(x) != id(s[0]) {
        var k :| 0 <= k < |t| && t[k] == x;
        assert s[k + 1] == x;
      }
      if group(s[0]) == g {
        assert DistinctIdsIn(s, id, group, g) == rest + {id(s[0])};
      } else {
        assert DistinctIdsIn(s, id, group, g) == rest;
      }
    }
  }
}
