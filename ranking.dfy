/**
 * `Parser.find_max_length`: the candidates stably sorted by `len(str(x))`,
 * longest first (`sorted(..., key=itemgetter(1), reverse=True)` keeps equal
 * keys in input order), and the first of them as the completion.
 */
module Ranking {
  import opened PyValues

  /** The elements of `s` whose size is `len`, in order. */
  function Keep<V>(size: V -> nat, s: seq<V>, len: nat): seq<V>
  {
    if s == [] then [] else (if size(s[0]) == len then [s[0]] else []) + Keep(size, s[1..], len)
  }

  predicate NonIncreasing<V>(size: V -> nat, s: seq<V>)
  {
    forall j, k :: 0 <= j < k < |s| ==> size(s[j]) >= size(s[k])
  }

  lemma {:induction false} KeepAppend<V>(size: V -> nat, a: seq<V>, b: seq<V>, len: nat)
    ensures Keep(size, a + b, len) == Keep(size, a, len) + Keep(size, b, len)
  {
    if a != [] {
      var head := if size(a[0]) == len then [a[0]] else [];
      KeepAppend(size, a[1..], b, len);
      assert (a + b)[1..] == a[1..] + b;
      assert (a + b)[0] == a[0];
      calc {
        Keep(size, a + b, len);
        head + Keep(size, a[1..] + b, len);
        head + (Keep(size, a[1..], len) + Keep(size, b, len));
        (head + Keep(size, a[1..], len)) + Keep(size, b, len);
        Keep(size, a, len) + Keep(size, b, len);
      }
    } else {
      assert a + b == b;
    }
  }

  lemma {:induction false} KeepNone<V>(size: V -> nat, s: seq<V>, len: nat)
    requires forall k :: 0 <= k < |s| ==> size(s[k]) != len
    ensures Keep(size, s, len) == []
  {
    if s != [] {
      KeepNone(size, s[1..], len);
    }
  }

  /** The first element of size `len` heads the elements of that size. */
  lemma {:induction false} KeepFirst<V>(size: V -> nat, s: seq<V>, len: nat, i: nat)
    requires i < |s| && size(s[i]) == len
    requires forall j :: 0 <= j < i ==> size(s[j]) != len
    ensures Keep(size, s, len) != [] && Keep(size, s, len)[0] == s[i]
  {
    if i > 0 {
      KeepFirst(size, s[1..], len, i - 1);
    }
  }

  /** Places `x` after every element at least as long: a later input stays behind equal ones. */
  function Insert<V>(size: V -> nat, x: V, r: seq<V>): seq<V>
  {
    if r == [] then [x]
    else if size(r[0]) >= size(x) then [r[0]] + Insert(size, x, r[1..])
    else [x] + r
  }

  lemma {:induction false} InsertMultiset<V>(size: V -> nat, x: V, r: seq<V>)
    ensures multiset(Insert(size, x, r)) == multiset(r) + multiset{x}
  {
    if r != [] && size(r[0]) >= size(x) {
      InsertMultiset(size, x, r[1..]);
      assert r == [r[0]] + r[1..];
    }
  }

  lemma {:induction false} InsertBounded<V>(size: V -> nat, x: V, r: seq<V>, bound: nat)
    requires size(x) <= bound && forall k :: 0 <= k < |r| ==> size(r[k]) <= bound
    ensures forall k :: 0 <= k < |Insert(size, x, r)| ==> size(Insert(size, x, r)[k]) <= bound
  {
    if r != [] && size(r[0]) >= size(x) {
      InsertBounded(size, x, r[1..], bound);
    }
  }

  lemma {:induction false} InsertSorted<V>(size: V -> nat, x: V, r: seq<V>)
    requires NonIncreasing(size, r)
    ensures NonIncreasing(size, Insert(size, x, r))
  {
    if r != [] && size(r[0]) >= size(x) {
      InsertSorted(size, x, r[1..]);
      InsertBounded(size, x, r[1..], size(r[0]));
    }
  }

  lemma {:induction false} InsertKeep<V>(size: V -> nat, x: V, r: seq<V>, len: nat)
    requires NonIncreasing(size, r)
    ensures Keep(size, Insert(size, x, r), len) == Keep(size, r, len) + Keep(size, [x], len)
  {
    if r == [] {
      assert Insert(size, x, r) == [x];
    } else if size(r[0]) >= size(x) {
      var rest := Insert(size, x, r[1..]);
      assert Insert(size, x, r) == [r[0]] + rest;
      InsertKeep(size, x, r[1..], len);
      KeepAppend(size, [r[0]], rest, len);
      KeepAppend(size, [r[0]], r[1..], len);
      assert r == [r[0]] + r[1..];
    } else {
      assert Insert(size, x, r) == [x] + r;
      KeepAppend(size, [x], r, len);
      if len == size(x) {
        KeepNone(size, r, len);
      } else {
        assert Keep(size, [x], len) == [] by {
          assert [x][1..] == [];
        }
      }
    }
  }

  /** `sorted(data, key=size, reverse=True)`: a stable sort, longest first. */
  function StableSort<V>(size: V -> nat, data: seq<V>): (r: seq<V>)
    ensures |r| == |data|
    ensures NonIncreasing(size, r)
    ensures multiset(r) == multiset(data)
    ensures forall len :: Keep(size, r, len) == Keep(size, data, len)
  {
    if data == [] then
      []
    else
      var init, last := data[..|data| - 1], data[|data| - 1];
      var sortedInit := StableSort(size, init);
      var r := Insert(size, last, sortedInit);
      assert data == init + [last];
      InsertMultiset(size, last, sortedInit);
      InsertSorted(size, last, sortedInit);
      assert |r| == |multiset(r)|;
      forall len ensures Keep(size, r, len) == Keep(size, data, len) {
        InsertKeep(size, last, sortedInit, len);
        KeepAppend(size, init, [last], len);
      }
      r
  }

  /** Reference scan: the index of the first element of maximal size. */
  function FirstLongest<V>(size: V -> nat, data: seq<V>): (i: nat)
    requires data != []
    ensures i < |data|
    ensures forall j :: 0 <= j < |data| ==> size(data[j]) <= size(data[i])
    ensures forall j :: 0 <= j < i ==> size(data[j]) < size(data[i])
  {
    if |data| == 1 then
      0
    else
      var i := FirstLongest(size, data[..|data| - 1]);
      assert forall j :: 0 <= j < |data| - 1 ==> data[..|data| - 1][j] == data[j];
      if size(data[|data| - 1]) > size(data[i]) then |data| - 1 else i
  }

  /** The dictionary `find_max_length` returns. */
  datatype Ranked<V> = Ranked(completion: V, suggestions: seq<V>)

  /**
   * `suggestions` is `data` stably sorted longest first, and `completion`
   * its head, which is the first element of `data` of maximal size.
   */
  ghost predicate IsRanking<V>(size: V -> nat, data: seq<V>, completion: V, suggestions: seq<V>)
  {
    && data != []
    && |suggestions| == |data|
    && NonIncreasing(size, suggestions)
    && multiset(suggestions) == multiset(data)
    && (forall len :: Keep(size, suggestions, len) == Keep(size, data, len))
    && completion == suggestions[0]
    && completion == data[FirstLongest(size, data)]
  }

  /** `find_max_length(data_list)`; an empty list raises IndexError at `sorted_indices[0]`. */
  function FindMaxLength<V>(size: V -> nat, data: seq<V>): (r: Result<Ranked<V>>)
    ensures r.Failure? <==> data == []
    ensures r.Failure? ==> r.error == IndexError("list index out of range")
    ensures r.Success? ==> IsRanking(size, data, r.value.completion, r.value.suggestions)
  {
    if data == [] then
      Failure(IndexError("list index out of range"))
    else
      var sorted := StableSort(size, data);
      HeadIsFirstLongest(size, data, sorted);
      Success(Ranked(sorted[0], sorted))
  }

  lemma HeadIsFirstLongest<V>(size: V -> nat, data: seq<V>, sorted: seq<V>)
    requires data != [] && sorted == StableSort(size, data)
    ensures sorted[0] == data[FirstLongest(size, data)]
  {
    var i := FirstLongest(size, data);
    var len := size(data[i]);
    assert data[i] in multiset(sorted);
    var m :| 0 <= m < |sorted| && sorted[m] == data[i];
    assert sorted[0] in multiset(data);
    var h :| 0 <= h < |data| && data[h] == sorted[0];
    assert size(sorted[0]) == len;
    KeepFirst(size, sorted, len, 0);
    KeepFirst(size, data, len, i);
  }
}
