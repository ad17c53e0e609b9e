/** Vocabulary shared by both training scripts: the exceptions the modelled
    code raises, index sequences without duplicates, the in-place shuffle
    behind `np.random.shuffle` and `random_split`, and the ratio split of a
    sequence into a train prefix and a test suffix. */
module Common {

  /** The two Python exceptions the modelled code can raise. */
  datatype Error =
    | ValueError         // `min()` over an empty sequence of class groups
    | ZeroDivisionError  // an average over zero batches or zero samples

  datatype Result<T> = Ok(value: T) | Err(error: Error)

  /** Whether a step ran to its end or raised. */
  datatype Outcome = Pass | Fail(error: Error)

  /** Every element occurs at most once. */
  ghost predicate NoDuplicates<T>(s: seq<T>) {
    forall x :: x in s ==> multiset(s)[x] == 1
  }

  lemma NoDuplicatesCons<T>(h: T, t: seq<T>)
    ensures NoDuplicates([h] + t) <==> h !in t && NoDuplicates(t)
  {
    var s := [h] + t;
    assert multiset(s) == multiset{h} + multiset(t);
    if h in t {
      assert multiset(s)[h] >= 2;
    }
    if NoDuplicates(s) {
      forall x ensures multiset(t)[x] <= 1 {
        assert multiset(t)[x] <= multiset(s)[x];
      }
    }
  }

  /** "No duplicates" read position by position: two different positions hold
      different elements. */
  lemma {:induction false} NoDuplicatesIffDistinct<T>(s: seq<T>)
    ensures NoDuplicates(s) <==> forall i, j :: 0 <= i < j < |s| ==> s[i] != s[j]
  {
    if s == [] {
    } else {
      var t := s[1..];
      assert s == [s[0]] + t;
      NoDuplicatesCons(s[0], t);
      NoDuplicatesIffDistinct(t);
      if NoDuplicates(s) {
        forall i, j | 0 <= i < j < |s| ensures s[i] != s[j] {
          if i == 0 {
            assert s[j] == t[j - 1];
            assert s[j] in t;
          } else {
            assert s[i] == t[i - 1] && s[j] == t[j - 1];
          }
        }
      }
      if forall i, j :: 0 <= i < j < |s| ==> s[i] != s[j] {
        forall i, j | 0 <= i < j < |t| ensures t[i] != t[j] {
          assert t[i] == s[i + 1] && t[j] == s[j + 1];
        }
        assert s[0] !in t by {
          forall j | 0 <= j < |t| ensures t[j] != s[0] {
            assert t[j] == s[j + 1];
          }
        }
      }
    }
  }

  lemma NoDuplicatesConcat<T>(a: seq<T>, b: seq<T>)
    ensures NoDuplicates(a + b) <==>
      NoDuplicates(a) && NoDuplicates(b) && forall x :: x in a ==> x !in b
  {
    assert multiset(a + b) == multiset(a) + multiset(b);
    if NoDuplicates(a + b) {
      forall x | x in a ensures x !in b {
        assert multiset(a + b)[x] == multiset(a)[x] + multiset(b)[x];
      }
      forall x ensures multiset(a)[x] <= 1 && multiset(b)[x] <= 1 {
        assert multiset(a + b)[x] == multiset(a)[x] + multiset(b)[x];
      }
    }
  }

  lemma SubMultisetNoDuplicates<T>(a: seq<T>, b: seq<T>)
    requires multiset(a) <= multiset(b) && NoDuplicates(b)
    ensures NoDuplicates(a)
  {
    forall x ensures multiset(a)[x] <= 1 {
      assert multiset(a)[x] <= multiset(b)[x];
    }
  }

  /** `np.random.shuffle`, in place: numpy's Fisher-Yates loop, in which step
      `i` (from the last position down to 1) swaps position `i` with a
      position `j` in [0, i]. The random source is injected as `draw`, whose
      value at step `i` is reduced into that range. */
  method ShuffleInPlace<T>(a: array<T>, draw: nat -> nat)
    modifies a
    ensures multiset(a[..]) == old(multiset(a[..]))
  {
    var i := a.Length;
    while i > 1
      invariant 0 <= i <= a.Length
      invariant multiset(a[..]) == old(multiset(a[..]))
    {
      i := i - 1;
      var j := draw(i) % (i + 1);
      a[i], a[j] := a[j], a[i];
    }
  }

  /** `int(ratio * n)` and `n - int(ratio * n)` for a ratio `num / den` in
      [0, 1], computed exactly: the train size is the floor of the product. */
  function SplitSizes(n: nat, num: nat, den: nat): (sizes: (nat, nat))
    requires 0 < den && num <= den
    ensures sizes.0 + sizes.1 == n
    ensures sizes.0 * den <= n * num < (sizes.0 + 1) * den
  {
    var trainSize := n * num / den;
    FloorDiv(n * num, den);
    assert trainSize <= n by {
      MulMonotone(n, num, den);
      if trainSize > n {
        MulMonotone(den, n + 1, trainSize);
      }
    }
    (trainSize, n - trainSize)
  }

  lemma FloorDiv(x: nat, d: nat)
    requires 0 < d
    ensures (x / d) * d <= x < (x / d + 1) * d
  {
    assert x == (x / d) * d + x % d;
  }

  lemma MulMonotone(n: nat, a: nat, b: nat)
    requires a <= b
    ensures n * a <= n * b && a * n <= b * n
  {}

  /** `s[:n]` and `s[n:]`: a train prefix of length `n` and the test suffix. */
  function SplitAt<T>(s: seq<T>, n: nat): (parts: (seq<T>, seq<T>))
    requires n <= |s|
    ensures parts.0 + parts.1 == s
    ensures |parts.0| == n
  {
    (s[..n], s[n..])
  }

  /** Cutting a sequence without duplicates gives two parts that have no
      duplicates and share no element. */
  lemma SplitAtDisjoint<T>(s: seq<T>, n: nat)
    requires n <= |s| && NoDuplicates(s)
    ensures NoDuplicates(SplitAt(s, n).0) && NoDuplicates(SplitAt(s, n).1)
    ensures forall x :: x in SplitAt(s, n).0 ==> x !in SplitAt(s, n).1
  {
    var parts := SplitAt(s, n);
    NoDuplicatesConcat(parts.0, parts.1);
  }

  /** The sum of a sequence of losses, added up from the front. */
  function SumReals(s: seq<real>): real
  {
    if s == [] then 0.0 else SumReals(s[..|s| - 1]) + s[|s| - 1]
  }

  /** 0, 1, ..., n - 1. */
  function Range(n: nat): (r: seq<nat>)
    ensures |r| == n && forall i :: 0 <= i < n ==> r[i] == i
  {
    seq(n, i => i)
  }
}
