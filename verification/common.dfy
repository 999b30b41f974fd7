/** Shared vocabulary: an optional value, order-preserving selection from a
    sequence (JavaScript's Array.prototype.filter), and the ASCII string
    operations the search boxes use (toLowerCase and includes). */
module Common {

  datatype Option<+T> = None | Some(value: T)

  /** `xs` can be obtained from `ys` by deleting elements, keeping the order
      of the remaining ones. */
  ghost predicate IsSubsequence<T>(xs: seq<T>, ys: seq<T>)
    decreases |ys|
  {
    xs == [] ||
    (ys != [] &&
     ((xs[0] == ys[0] && IsSubsequence(xs[1..], ys[1..])) || IsSubsequence(xs, ys[1..])))
  }

  lemma {:induction false} SubsequenceRefl<T>(xs: seq<T>)
    ensures IsSubsequence(xs, xs)
    decreases |xs|
  {
    if xs != [] {
      SubsequenceRefl(xs[1..]);
    }
  }

  lemma {:induction false} SubsequenceTrans<T>(a: seq<T>, b: seq<T>, c: seq<T>)
    requires IsSubsequence(a, b) && IsSubsequence(b, c)
    ensures IsSubsequence(a, c)
    decreases |c|
  {
    if a != [] {
      assert b != [] && c != [];
      if b[0] == c[0] && IsSubsequence(b[1..], c[1..]) {
        if a[0] == b[0] && IsSubsequence(a[1..], b[1..]) {
          SubsequenceTrans(a[1..], b[1..], c[1..]);
        } else {
          SubsequenceTrans(a, b[1..], c[1..]);
        }
      } else {
        SubsequenceTrans(a, b, c[1..]);
      }
    }
  }

  /** The number of elements of `xs` satisfying `f`, counted one by one. */
  function CountWhere<T>(xs: seq<T>, f: T -> bool): nat
  {
    if xs == [] then 0 else (if f(xs[0]) then 1 else 0) + CountWhere(xs[1..], f)
  }

  /** The elements of `xs` satisfying `f`, in their original order. The
      ensures clauses determine the result uniquely: it is a subsequence of
      `xs`, holds only elements satisfying `f`, and holds every such element
      as often as `xs` does. */
  function Filter<T>(xs: seq<T>, f: T -> bool): (r: seq<T>)
    ensures |r| <= |xs|
    ensures IsSubsequence(r, xs)
    ensures forall x :: x in r ==> x in xs && f(x)
    ensures forall x :: x in xs && f(x) ==> multiset(r)[x] == multiset(xs)[x]
    ensures forall x :: x in xs && f(x) ==> x in r
  {
    if xs == [] then []
    else
      assert xs == [xs[0]] + xs[1..];
      var rest := Filter(xs[1..], f);
      if f(xs[0]) then
        assert ([xs[0]] + rest)[1..] == rest;
        [xs[0]] + rest
      else
        rest
  }

  /** Filtering keeps exactly as many elements as a one-by-one count finds. */
  lemma {:induction false} FilterCount<T>(xs: seq<T>, f: T -> bool)
    ensures |Filter(xs, f)| == CountWhere(xs, f)
  {
    if xs != [] {
      FilterCount(xs[1..], f);
    }
  }

  lemma {:induction false} FilterAll<T>(xs: seq<T>, f: T -> bool)
    requires forall x :: x in xs ==> f(x)
    ensures Filter(xs, f) == xs
  {
    if xs != [] {
      FilterAll(xs[1..], f);
    }
  }

  lemma {:induction false} FilterAppend<T>(xs: seq<T>, y: T, f: T -> bool)
    ensures Filter(xs + [y], f) == Filter(xs, f) + (if f(y) then [y] else [])
  {
    if xs == [] {
      assert [] + [y] == [y];
      assert [y][1..] == [];
    } else {
      assert (xs + [y])[0] == xs[0];
      assert (xs + [y])[1..] == xs[1..] + [y];
      FilterAppend(xs[1..], y, f);
    }
  }

  /** `xs[i]` is the first element of `xs` satisfying `f`. */
  ghost predicate IsFirst<T>(xs: seq<T>, f: T -> bool, i: int)
  {
    0 <= i < |xs| && f(xs[i]) && forall j :: 0 <= j < i ==> !f(xs[j])
  }

  /** The index Array.prototype.find and String.prototype.indexOf stop at. */
  function FirstIndex<T>(xs: seq<T>, f: T -> bool): (r: Option<nat>)
    ensures r.None? <==> forall x :: x in xs ==> !f(x)
    ensures r.Some? ==> IsFirst(xs, f, r.value)
  {
    if xs == [] then None
    else if f(xs[0]) then Some(0)
    else
      match FirstIndex(xs[1..], f)
      case None =>
        assert forall x :: x in xs ==> x == xs[0] || x in xs[1..];
        None
      case Some(k) =>
        assert xs[1..][k] == xs[k + 1];
        Some(k + 1)
  }

  /** Two selections that no element satisfies together select at most as
      many elements as there are. */
  lemma {:induction false} CountDisjoint2<T>(xs: seq<T>, f: T -> bool, g: T -> bool)
    requires forall x :: x in xs ==> !(f(x) && g(x))
    ensures |Filter(xs, f)| + |Filter(xs, g)| <= |xs|
  {
    if xs != [] {
      CountDisjoint2(xs[1..], f, g);
    }
  }

  /** Neither of `f`, `g` and `h` holds. */
  function NoneOf<T>(f: T -> bool, g: T -> bool, h: T -> bool): T -> bool
  {
    x => !f(x) && !g(x) && !h(x)
  }

  /** Three selections that no element satisfies two of at once, together
      with the elements none of them selects, count every element once. */
  lemma {:induction false} CountPartition3<T>(xs: seq<T>, f: T -> bool, g: T -> bool, h: T -> bool)
    requires forall x :: x in xs ==> !(f(x) && g(x)) && !(f(x) && h(x)) && !(g(x) && h(x))
    ensures |Filter(xs, f)| + |Filter(xs, g)| + |Filter(xs, h)| + |Filter(xs, NoneOf(f, g, h))| == |xs|
  {
    if xs != [] {
      CountPartition3(xs[1..], f, g, h);
    }
  }

  /** Array.prototype.reduce((sum, x) => sum + f(x), 0): a left fold, so the
      last element is added last. */
  function SumOf<T>(xs: seq<T>, f: T -> int): int
  {
    if xs == [] then 0 else SumOf(xs[..|xs| - 1], f) + f(xs[|xs| - 1])
  }

  lemma {:induction false} SumOfCons<T>(x: T, xs: seq<T>, f: T -> int)
    ensures SumOf([x] + xs, f) == f(x) + SumOf(xs, f)
    decreases |xs|
  {
    if xs != [] {
      assert ([x] + xs)[..|[x] + xs| - 1] == [x] + xs[..|xs| - 1];
      SumOfCons(x, xs[..|xs| - 1], f);
    }
  }

  /** The left fold read from the front: the first value plus the sum of the
      rest; over values that are never negative, the sum is not negative. */
  lemma SumOfFront<T>(xs: seq<T>, f: T -> int)
    ensures xs != [] ==> SumOf(xs, f) == f(xs[0]) + SumOf(xs[1..], f)
    ensures (forall x :: x in xs ==> f(x) >= 0) ==> SumOf(xs, f) >= 0
  {
    if xs != [] {
      assert xs == [xs[0]] + xs[1..];
      SumOfCons(xs[0], xs[1..], f);
    }
    if forall x :: x in xs ==> f(x) >= 0 {
      SumOfSubsequence([], xs, f);
    }
  }

  /** Over values that are never negative, dropping elements never raises
      the sum. */
  lemma {:induction false} SumOfSubsequence<T>(xs: seq<T>, ys: seq<T>, f: T -> int)
    requires IsSubsequence(xs, ys)
    requires forall y :: y in ys ==> f(y) >= 0
    ensures SumOf(xs, f) <= SumOf(ys, f)
    decreases |ys|
  {
    if ys == [] {
    } else {
      assert ys == [ys[0]] + ys[1..];
      SumOfCons(ys[0], ys[1..], f);
      if xs != [] && xs[0] == ys[0] && IsSubsequence(xs[1..], ys[1..]) {
        assert xs == [xs[0]] + xs[1..];
        SumOfCons(xs[0], xs[1..], f);
        SumOfSubsequence(xs[1..], ys[1..], f);
      } else {
        assert ys[0] in ys;
        SumOfSubsequence(xs, ys[1..], f);
      }
    }
  }

  /** JavaScript's toLowerCase restricted to ASCII: 'A'..'Z' map to 'a'..'z',
      every other character is kept. */
  function LowerChar(c: char): char
  {
    if 'A' <= c <= 'Z' then (c as int + 32) as char else c
  }

  function Lower(s: string): (r: string)
    ensures |r| == |s|
    ensures forall i :: 0 <= i < |s| ==> r[i] == LowerChar(s[i])
  {
    seq(|s|, i requires 0 <= i < |s| => LowerChar(s[i]))
  }

  lemma LowerIdempotent(s: string)
    ensures Lower(Lower(s)) == Lower(s)
  {
  }

  /** JavaScript's String.prototype.includes: `needle` occurs in `hay` at
      some offset. The empty needle occurs in every string. */
  predicate Contains(hay: string, needle: string)
    decreases |hay|
  {
    needle <= hay || (hay != [] && Contains(hay[1..], needle))
  }

  lemma ContainsEmpty(hay: string)
    ensures Contains(hay, "")
  {
  }

  /** `needle` occurs in `hay` starting at offset `k`. */
  ghost predicate OccursAt(hay: string, needle: string, k: int)
  {
    0 <= k <= |hay| - |needle| && hay[k..k + |needle|] == needle
  }

  /** `Contains` means exactly: some window of `hay` equals `needle`. */
  lemma {:induction false} ContainsAt(hay: string, needle: string)
    ensures Contains(hay, needle) <==> exists k :: OccursAt(hay, needle, k)
    decreases |hay|
  {
    if needle <= hay {
      assert OccursAt(hay, needle, 0);
    } else if hay != [] {
      ContainsAt(hay[1..], needle);
      if exists k :: OccursAt(hay, needle, k) {
        var k :| OccursAt(hay, needle, k);
        assert k != 0;
        assert OccursAt(hay[1..], needle, k - 1);
      }
      if exists k :: OccursAt(hay[1..], needle, k) {
        var k :| OccursAt(hay[1..], needle, k);
        assert OccursAt(hay, needle, k + 1);
      }
    } else {
      assert needle != [];
      assert forall k :: !OccursAt(hay, needle, k);
    }
  }
}
