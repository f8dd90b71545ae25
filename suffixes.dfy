/**
 * `Parser.get_combinations(n)`: the closing suffixes the recovery search tries,
 * every string over `}` and `]` of length 1 .. n-1, in the order
 * `itertools.product("}]", repeat=i)` yields them for i = 1, 2, ...
 */
module Suffixes {

  predicate IsMark(c: char) { c == '}' || c == ']' }

  predicate OverMarks(w: string) { forall k :: 0 <= k < |w| ==> IsMark(w[k]) }

  /** `}` is the first symbol of the alphabet "}]", `]` the second. */
  function Mark(d: nat): char
    requires d < 2
  {
    if d == 0 then '}' else ']'
  }

  function Digit(c: char): nat
    requires IsMark(c)
  {
    if c == '}' then 0 else 1
  }

  function Pow2(n: nat): (r: nat)
    ensures r >= 1
  {
    if n == 0 then 1 else 2 * Pow2(n - 1)
  }

  /** One more round of `itertools.product`: each word extended by `}` then by `]`. */
  function Extend(ws: seq<string>): (r: seq<string>)
    ensures |r| == 2 * |ws|
  {
    if ws == [] then [] else [ws[0] + "}", ws[0] + "]"] + Extend(ws[1..])
  }

  /** `product("}]", repeat=i)`, the rightmost position advancing fastest. */
  function Product(i: nat): seq<string>
  {
    if i == 0 then [""] else Extend(Product(i - 1))
  }

  /** What `get_combinations(n)` returns. */
  function Combinations(n: int): seq<string>
    decreases if n < 0 then 0 else n
  {
    if n <= 1 then [] else Combinations(n - 1) + Product(n - 1)
  }

  /** The i-digit base-2 numeral of k, `}` standing for 0 and `]` for 1. */
  function Word(k: nat, i: nat): (w: string)
    ensures |w| == i && OverMarks(w)
  {
    if i == 0 then "" else Word(k / 2, i - 1) + [Mark(k % 2)]
  }

  /** The number a word over the marks spells in base 2. */
  function Index(w: string): nat
    requires OverMarks(w)
  {
    if w == "" then 0 else 2 * Index(w[..|w| - 1]) + Digit(w[|w| - 1])
  }

  lemma {:induction false} ExtendAt(ws: seq<string>, k: nat)
    requires k < 2 * |ws|
    ensures Extend(ws)[k] == ws[k / 2] + [Mark(k % 2)]
  {
    if k >= 2 {
      ExtendAt(ws[1..], k - 2);
      assert Extend(ws)[k] == Extend(ws[1..])[k - 2];
    }
  }

  /** Entry k of the length-i block is the i-digit numeral of k. */
  lemma {:induction false} ProductAt(i: nat, k: nat)
    requires k < Pow2(i)
    ensures |Product(i)| == Pow2(i) && Product(i)[k] == Word(k, i)
  {
    if i > 0 {
      ProductAt(i - 1, k / 2);
      ExtendAt(Product(i - 1), k);
    }
  }

  lemma ProductLength(i: nat)
    ensures |Product(i)| == Pow2(i)
  {
    ProductAt(i, 0);
  }

  lemma {:induction false} IndexOfWord(k: nat, i: nat)
    requires k < Pow2(i)
    ensures Index(Word(k, i)) == k
  {
    if i > 0 {
      IndexOfWord(k / 2, i - 1);
      var w := Word(k, i);
      assert w[..|w| - 1] == Word(k / 2, i - 1);
    }
  }

  lemma {:induction false} WordOfIndex(w: string)
    requires OverMarks(w)
    ensures Index(w) < Pow2(|w|) && Word(Index(w), |w|) == w
  {
    if w != "" {
      var v := w[..|w| - 1];
      WordOfIndex(v);
      assert Index(w) / 2 == Index(v) && Index(w) % 2 == Digit(w[|w| - 1]);
    }
  }

  /** Every word of the length-i block has length i and uses only the marks. */
  lemma ProductWords(i: nat, k: nat)
    requires k < |Product(i)|
    ensures |Product(i)[k]| == i && OverMarks(Product(i)[k])
  {
    ProductLength(i);
    ProductAt(i, k);
  }

  /** The length-i block lists each word of length i over the marks exactly once. */
  lemma ProductDistinct(i: nat, j: nat, k: nat)
    requires j < k < |Product(i)|
    ensures Product(i)[j] != Product(i)[k]
  {
    ProductLength(i);
    ProductAt(i, j);
    ProductAt(i, k);
    IndexOfWord(j, i);
    IndexOfWord(k, i);
  }

  /** There are 2^n - 2 suffixes for n >= 1, and none for n <= 1. */
  lemma {:induction false} CombinationsCount(n: int)
    ensures |Combinations(n)| == if n <= 1 then 0 else Pow2(n) - 2
    decreases if n < 0 then 0 else n
  {
    if n > 1 {
      CombinationsCount(n - 1);
      ProductLength(n - 1);
    }
  }

  /** Lengths ascend along the list, and every entry is a word over the marks of length 1 .. n-1. */
  lemma {:induction false} CombinationsShape(n: int)
    ensures forall k :: 0 <= k < |Combinations(n)| ==>
      1 <= |Combinations(n)[k]| < n && OverMarks(Combinations(n)[k])
    ensures forall j, k :: 0 <= j <= k < |Combinations(n)| ==>
      |Combinations(n)[j]| <= |Combinations(n)[k]|
    decreases if n < 0 then 0 else n
  {
    if n > 1 {
      CombinationsShape(n - 1);
      var c, p := Combinations(n - 1), Product(n - 1);
      assert Combinations(n) == c + p;
      forall k | 0 <= k < |p| ensures |p[k]| == n - 1 && OverMarks(p[k]) {
        ProductWords(n - 1, k);
      }
    }
  }

  /** No suffix is tried twice. */
  lemma {:induction false} CombinationsDistinct(n: int)
    ensures forall j, k :: 0 <= j < k < |Combinations(n)| ==> Combinations(n)[j] != Combinations(n)[k]
    decreases if n < 0 then 0 else n
  {
    if n > 1 {
      CombinationsDistinct(n - 1);
      CombinationsShape(n - 1);
      var c, p := Combinations(n - 1), Product(n - 1);
      assert Combinations(n) == c + p;
      forall j, k | 0 <= j < k < |c + p| ensures (c + p)[j] != (c + p)[k] {
        if j >= |c| {
          ProductDistinct(n - 1, j - |c|, k - |c|);
        } else if k >= |c| {
          ProductWords(n - 1, k - |c|);
        }
      }
    }
  }

  /** The block of length-`len` words starts at index 2^len - 2 and holds `product("}]", repeat=len)`. */
  lemma {:induction false} CombinationsBlock(n: int, len: nat, k: nat)
    requires 1 <= len < n && k < |Product(len)|
    ensures Pow2(len) - 2 + k < |Combinations(n)|
    ensures Combinations(n)[Pow2(len) - 2 + k] == Product(len)[k]
    decreases n
  {
    var c, p := Combinations(n - 1), Product(n - 1);
    var pos := Pow2(len) - 2 + k;
    if len < n - 1 {
      CombinationsBlock(n - 1, len, k);
      assert pos < |Combinations(n)| && Combinations(n)[pos] == c[pos] by {
        assert Combinations(n) == c + p;
      }
    } else {
      assert |c| == Pow2(len) - 2 by {
        CombinationsCount(n - 1);
      }
      assert pos < |Combinations(n)| && Combinations(n)[pos] == p[k] by {
        assert Combinations(n) == c + p;
      }
    }
  }

  /**
   * Each word over the marks of length L in 1 .. n-1 is tried, at position
   * 2^L - 2 + (the number it spells): after all shorter words, and within its
   * length in `itertools.product` order.
   */
  lemma CombinationsPosition(n: int, w: string)
    requires OverMarks(w) && 1 <= |w| < n
    ensures Pow2(|w|) - 2 + Index(w) < |Combinations(n)|
    ensures Combinations(n)[Pow2(|w|) - 2 + Index(w)] == w
  {
    var len, i := |w|, Index(w);
    assert i < |Product(len)| && Product(len)[i] == w by {
      WordOfIndex(w);
      ProductAt(len, i);
    }
    CombinationsBlock(n, len, i);
    var pos := Pow2(len) - 2 + i;
    assert Combinations(n)[pos] == Product(len)[i];
  }

  /** A string is among the suffixes exactly when it is a word over the marks of length 1 .. n-1. */
  lemma CombinationsMembers(n: int, w: string)
    ensures w in Combinations(n) <==> OverMarks(w) && 1 <= |w| < n
  {
    CombinationsShape(n);
    if OverMarks(w) && 1 <= |w| < n {
      CombinationsPosition(n, w);
    }
  }

  /** `get_combinations(3)` written out. */
  lemma CombinationsOfThree()
    ensures Combinations(3) == ["}", "]", "}}", "}]", "]}", "]]"]
  {
    var e: seq<string> := [""];
    assert e[0] + "}" == "}" && e[0] + "]" == "]" && e[1..] == [];
    assert Product(1) == ["}", "]"] by {
      assert Product(1) == Extend(e);
    }
    var one: seq<string> := ["}", "]"];
    var two: seq<string> := ["]"];
    assert one[1..] == two && two[1..] == [];
    assert two[0] + "}" == "]}" && two[0] + "]" == "]]";
    assert one[0] + "}" == "}}" && one[0] + "]" == "}]";
    assert Extend(one) == ["}}", "}]", "]}", "]]"] by {
      assert Extend(two) == ["]}", "]]"];
    }
  }

  /** `get_combinations(n)`: two nested loops, the inner one over `itertools.product("}]", repeat=i)`. */
  method GetCombinations(n: int) returns (combinations: seq<string>)
    ensures combinations == Combinations(n)
  {
    combinations := [];
    var i := 1;
    while i < n
      invariant 1 <= i <= (if n < 1 then 1 else n)
      invariant combinations == Combinations(i)
    {
      var count := Pow2(i);
      ProductLength(i);
      var j := 0;
      while j < count
        invariant 0 <= j <= count
        invariant combinations == Combinations(i) + Product(i)[..j]
      {
        ProductAt(i, j);
        assert Product(i)[..j + 1] == Product(i)[..j] + [Product(i)[j]];
        combinations := combinations + [Word(j, i)];
        j := j + 1;
      }
      assert Product(i)[..j] == Product(i);
      assert Combinations(i + 1) == Combinations(i) + Product(i);
      i := i + 1;
    }
    if n <= 1 {
      assert Combinations(n) == [] && Combinations(1) == [];
    } else {
      assert i == n;
    }
  }
}
