/** The class-balanced train/test split of `original_dataset/test_orig.py`:
    group the dataset's indices by label, take the size of the smallest group,
    draw that many indices from every group without replacement, shuffle the
    pooled indices and cut them into a train prefix and a test suffix. Labels
    are natural numbers; `targets[i]` is the label of dataset item `i`. */
module BalancedSplit {
  import opened Common

  // ---------------------------------------------------------------------
  // Grouping indices by label (the `defaultdict(list)` loop)
  // ---------------------------------------------------------------------

  /** The indices `i` with `targets[i] == c`, in the order the grouping loop
      appends them. */
  function IndicesOf(targets: seq<nat>, c: nat): seq<nat>
  {
    if targets == [] then []
    else
      var n := |targets| - 1;
      IndicesOf(targets[..n], c) + (if targets[n] == c then [n] else [])
  }

  /** The labels in order of first occurrence: the key order of the
      dictionary, and so the order in which `.values()` visits the groups. */
  function Classes(targets: seq<nat>): seq<nat>
  {
    if targets == [] then []
    else
      var n := |targets| - 1;
      var earlier := Classes(targets[..n]);
      if targets[n] in earlier then earlier else earlier + [targets[n]]
  }

  /** The dictionary `class_indices` once every index has been appended. */
  function Groups(targets: seq<nat>): map<nat, seq<nat>>
  {
    map c | c in Classes(targets) :: IndicesOf(targets, c)
  }

  /** The grouping loop: `class_indices[target].append(idx)` for every
      `(idx, target)`, creating a group on a label's first occurrence. The
      dictionary is returned as a map and the order of its keys. */
  method GroupByLabel(targets: seq<nat>) returns (groups: map<nat, seq<nat>>, classes: seq<nat>)
    ensures classes == Classes(targets)
    ensures groups == Groups(targets)
  {
    groups, classes := map[], [];
    for idx := 0 to |targets|
      invariant classes == Classes(targets[..idx])
      invariant forall c :: c in groups <==> c in classes
      invariant forall c :: c in groups ==> groups[c] == IndicesOf(targets[..idx], c)
    {
      var target := targets[idx];
      assert targets[..idx + 1] == targets[..idx] + [target];
      GroupStep(targets[..idx], target);
      if target !in groups {
        groups := groups[target := []];
        classes := classes + [target];
      }
      groups := groups[target := groups[target] + [idx]];
    }
    assert targets[..|targets|] == targets;
  }

  /** One step of the grouping loop, on the specification side: appending
      label `x` at index `|t|` extends only the group of `x`, and adds `x` as
      a new key when it has not been seen. */
  lemma GroupStep(t: seq<nat>, x: nat)
    ensures forall c :: IndicesOf(t + [x], c) == IndicesOf(t, c) + (if x == c then [|t|] else [])
    ensures Classes(t + [x]) == if x in Classes(t) then Classes(t) else Classes(t) + [x]
    ensures x !in Classes(t) ==> IndicesOf(t, x) == []
  {
    assert (t + [x])[..|t|] == t;
    ClassesMembers(t);
    IndicesOfMembers(t, x);
  }

  lemma {:induction false} IndicesOfMembers(targets: seq<nat>, c: nat)
    ensures forall i: nat :: i in IndicesOf(targets, c) <==> i < |targets| && targets[i] == c
  {
    if targets != [] {
      var n := |targets| - 1;
      IndicesOfMembers(targets[..n], c);
    }
  }

  /** Each group lists its indices in strictly increasing order. */
  lemma {:induction false} IndicesOfIncreasing(targets: seq<nat>, c: nat)
    ensures forall p, q :: 0 <= p < q < |IndicesOf(targets, c)| ==>
      IndicesOf(targets, c)[p] < IndicesOf(targets, c)[q]
  {
    if targets != [] {
      var n := |targets| - 1;
      var earlier := IndicesOf(targets[..n], c);
      IndicesOfIncreasing(targets[..n], c);
      IndicesOfMembers(targets[..n], c);
      assert forall p :: 0 <= p < |earlier| ==> earlier[p] in earlier;
    }
  }

  /** A group has as many indices as its label has occurrences. */
  lemma {:induction false} IndicesOfLength(targets: seq<nat>, c: nat)
    ensures |IndicesOf(targets, c)| == multiset(targets)[c]
  {
    if targets != [] {
      var n := |targets| - 1;
      IndicesOfLength(targets[..n], c);
      assert targets == targets[..n] + [targets[n]];
    }
  }

  lemma IndicesOfNoDuplicates(targets: seq<nat>, c: nat)
    ensures NoDuplicates(IndicesOf(targets, c))
  {
    IndicesOfIncreasing(targets, c);
    NoDuplicatesIffDistinct(IndicesOf(targets, c));
  }

  /** The dictionary has a key exactly for the labels that occur, and lists
      each of them once. */
  lemma {:induction false} ClassesMembers(targets: seq<nat>)
    ensures forall c :: c in Classes(targets) <==> c in targets
    ensures NoDuplicates(Classes(targets))
  {
    if targets != [] {
      var n := |targets| - 1;
      ClassesMembers(targets[..n]);
      assert targets == targets[..n] + [targets[n]];
      var earlier := Classes(targets[..n]);
      if targets[n] !in earlier {
        NoDuplicatesConcat(earlier, [targets[n]]);
      }
    }
  }

  /** After grouping, every index lies in exactly one group, the group of its
      own label, and no group is empty. */
  lemma GroupsPartition(targets: seq<nat>)
    ensures forall i :: 0 <= i < |targets| ==>
      targets[i] in Groups(targets) && i in Groups(targets)[targets[i]]
    ensures forall c, i :: c in Groups(targets) && i in Groups(targets)[c] ==>
      0 <= i < |targets| && targets[i] == c
    ensures forall c :: c in Groups(targets) ==> |Groups(targets)[c]| > 0
  {
    ClassesMembers(targets);
    forall c | c in Groups(targets)
      ensures |Groups(targets)[c]| > 0
      ensures forall i :: i in Groups(targets)[c] <==> 0 <= i < |targets| && targets[i] == c
    {
      IndicesOfMembers(targets, c);
      IndicesOfLength(targets, c);
    }
    forall i | 0 <= i < |targets|
      ensures targets[i] in Groups(targets)
    {
      assert targets[i] in targets;
    }
  }

  // ---------------------------------------------------------------------
  // The smallest class
  // ---------------------------------------------------------------------

  /** `min(len(indices) for indices in class_indices.values())`: raises
      `ValueError` when there are no groups at all. */
  function MinGroupSize(groups: map<nat, seq<nat>>, classes: seq<nat>): (r: Result<nat>)
    requires forall c :: c in classes ==> c in groups
    ensures r.Err? <==> classes == []
    ensures r.Err? ==> r.error == ValueError
    ensures r.Ok? ==> forall c :: c in classes ==> r.value <= |groups[c]|
    ensures r.Ok? ==> exists c :: c in classes && |groups[c]| == r.value
  {
    if classes == [] then Err(ValueError)
    else
      var here := |groups[classes[0]]|;
      match MinGroupSize(groups, classes[1..])
      case Err(_) => Ok(here)
      case Ok(rest) => Ok(if here <= rest then here else rest)
  }

  /** `min_class_count` of a dataset with labels `targets`: the number of
      occurrences of its rarest label. */
  function MinClassCount(targets: seq<nat>): (r: Result<nat>)
    ensures r.Err? ==> r.error == ValueError
    ensures r.Ok? ==> forall c :: c in targets ==> r.value <= multiset(targets)[c]
    ensures r.Ok? ==> exists c :: c in targets && multiset(targets)[c] == r.value
  {
    GroupSizes(targets);
    MinGroupSize(Groups(targets), Classes(targets))
  }

  /** The keys of the dictionary are the labels, and each group is as long
      as its label is frequent. */
  lemma GroupSizes(targets: seq<nat>)
    ensures forall c :: c in Classes(targets) <==> c in targets
    ensures forall c :: c in Classes(targets) ==> c in Groups(targets)
    ensures forall c :: c in Groups(targets) ==> |Groups(targets)[c]| == multiset(targets)[c]
  {
    ClassesMembers(targets);
    forall c | c in Groups(targets) ensures |Groups(targets)[c]| == multiset(targets)[c] {
      IndicesOfLength(targets, c);
    }
  }

  /** The smallest class of a non-empty dataset has at least one and at most
      all of its items; only the empty dataset makes `min()` raise. */
  lemma MinClassCountBounds(targets: seq<nat>)
    ensures MinClassCount(targets).Err? <==> targets == []
    ensures MinClassCount(targets).Ok? ==>
      1 <= MinClassCount(targets).value <= |targets|
  {
    ClassesMembers(targets);
    if targets != [] {
      assert targets[0] in Classes(targets);
      var m := MinClassCount(targets).value;
      var c :| c in targets && multiset(targets)[c] == m;
      assert 1 <= multiset(targets)[c] <= |multiset(targets)|;
    }
  }

  // ---------------------------------------------------------------------
  // Labels of an index sequence, and how often a class occurs among them
  // ---------------------------------------------------------------------

  ghost predicate InRange(idxs: seq<nat>, n: nat) {
    forall x :: x in idxs ==> x < n
  }

  lemma InRangeConcat(a: seq<nat>, b: seq<nat>, n: nat)
    ensures InRange(a + b, n) <==> InRange(a, n) && InRange(b, n)
  {
    if InRange(a + b, n) {
      forall x | x in a ensures x < n { assert x in a + b; }
      forall x | x in b ensures x < n { assert x in a + b; }
    }
  }

  /** `[dataset[i][1] for i in idxs]`: the labels of the selected items. */
  function Labels(targets: seq<nat>, idxs: seq<nat>): (labels: seq<nat>)
    requires InRange(idxs, |targets|)
    ensures |labels| == |idxs|
    ensures forall k :: 0 <= k < |idxs| ==> idxs[k] < |targets| && labels[k] == targets[idxs[k]]
    ensures forall l :: l in labels ==> l in targets
  {
    var labels := seq(|idxs|, k requires 0 <= k < |idxs| => assert idxs[k] in idxs; targets[idxs[k]]);
    assert forall k :: 0 <= k < |idxs| ==> idxs[k] in idxs;
    assert forall l :: l in labels ==> l in targets by {
      forall l | l in labels ensures l in targets {
        var k :| 0 <= k < |labels| && labels[k] == l;
        assert idxs[k] in idxs;
      }
    }
    labels
  }

  /** How many of the selected items have label `c`. */
  function ClassCount(targets: seq<nat>, idxs: seq<nat>, c: nat): nat
    requires InRange(idxs, |targets|)
  {
    multiset(Labels(targets, idxs))[c]
  }

  lemma ClassCountConcat(targets: seq<nat>, a: seq<nat>, b: seq<nat>, c: nat)
    requires InRange(a, |targets|) && InRange(b, |targets|)
    ensures InRange(a + b, |targets|)
    ensures ClassCount(targets, a + b, c) == ClassCount(targets, a, c) + ClassCount(targets, b, c)
  {
    assert Labels(targets, a + b) == Labels(targets, a) + Labels(targets, b);
  }

  /** Reordering the selected items does not change any class's count. */
  lemma {:induction false} ClassCountPermutation(targets: seq<nat>, s: seq<nat>, t: seq<nat>, c: nat)
    requires InRange(s, |targets|) && multiset(s) == multiset(t)
    ensures InRange(t, |targets|)
    ensures ClassCount(targets, s, c) == ClassCount(targets, t, c)
  {
    InRangePermutation(s, t, |targets|);
    if s != [] {
      var x := s[0];
      assert x in multiset(t);
      var i :| 0 <= i < |t| && t[i] == x;
      var rest := RemoveAt(targets, t, i, c);
      var tail := DropFirst(s, |targets|);
      ClassCountPermutation(targets, tail, rest, c);
      ClassCountConcat(targets, [x], tail, c);
    }
  }

  lemma InRangePermutation(s: seq<nat>, t: seq<nat>, n: nat)
    requires InRange(s, n) && multiset(s) == multiset(t)
    ensures InRange(t, n)
  {
    forall y | y in t ensures y < n {
      assert y in multiset(t);
      assert y in multiset(s);
      assert y in s;
    }
  }

  /** Splitting off the first index of a non-empty selection. */
  lemma DropFirst(s: seq<nat>, n: nat) returns (tail: seq<nat>)
    requires InRange(s, n) && s != []
    ensures tail == s[1..] && s == [s[0]] + tail
    ensures multiset(tail) == multiset(s) - multiset{s[0]}
    ensures InRange(tail, n) && InRange([s[0]], n)
  {
    tail := s[1..];
    assert s == [s[0]] + tail;
    InRangeConcat([s[0]], tail, n);
  }

  /** Taking out position `i`: what is left loses one copy of `t[i]`, and
      `t[i]`'s label count moves out with it. */
  lemma RemoveAt(targets: seq<nat>, t: seq<nat>, i: nat, c: nat) returns (rest: seq<nat>)
    requires InRange(t, |targets|) && i < |t|
    ensures rest == t[..i] + t[i + 1..]
    ensures multiset(rest) == multiset(t) - multiset{t[i]}
    ensures InRange(rest, |targets|) && InRange([t[i]], |targets|)
    ensures ClassCount(targets, t, c) == ClassCount(targets, rest, c) + ClassCount(targets, [t[i]], c)
  {
    rest := t[..i] + t[i + 1..];
    assert t == t[..i] + [t[i]] + t[i + 1..];
    InRangeConcat(t[..i] + [t[i]], t[i + 1..], |targets|);
    InRangeConcat(t[..i], [t[i]], |targets|);
    InRangeConcat(t[..i], t[i + 1..], |targets|);
    ClassCountConcat(targets, t[..i], [t[i]], c);
    ClassCountConcat(targets, t[..i] + [t[i]], t[i + 1..], c);
    ClassCountConcat(targets, t[..i], t[i + 1..], c);
  }

  /** Items all of one label `d` count `|s|` for `d` and nothing for the
      other classes. */
  lemma ClassCountUniform(targets: seq<nat>, s: seq<nat>, d: nat, c: nat)
    requires InRange(s, |targets|)
    requires forall x :: x in s ==> targets[x] == d
    ensures ClassCount(targets, s, c) == if c == d then |s| else 0
  {
    assert Labels(targets, s) == seq(|s|, _ => d);
    UniformCount(|s|, d, c);
  }

  lemma {:induction false} UniformCount(n: nat, d: nat, c: nat)
    ensures multiset(seq(n, _ => d))[c] == if c == d then n else 0
  {
    if n > 0 {
      UniformCount(n - 1, d, c);
      assert seq(n, _ => d) == seq(n - 1, _ => d) + [d];
    }
  }

  // ---------------------------------------------------------------------
  // Balanced sampling
  // ---------------------------------------------------------------------

  /** `np.random.choice(population, size, replace=False)`: numpy shuffles a
      copy of the population and keeps its first `size` elements. */
  method DrawWithoutReplacement(population: seq<nat>, size: nat, draw: nat -> nat)
    returns (picked: seq<nat>)
    requires size <= |population|
    ensures |picked| == size
    ensures multiset(picked) <= multiset(population)
  {
    var a := new nat[|population|](i requires 0 <= i < |population| => population[i]);
    assert a[..] == population;
    ShuffleInPlace(a, draw);
    picked := a[..size];
    assert a[..] == picked + a[size..];
  }

  /** The loop that extends `balanced_indices` with `min_class_count` indices
      drawn from every group, visiting the groups in key order. The draws of
      group number `k` use the random source `draw(k)`. */
  method SampleBalanced(targets: seq<nat>, groups: map<nat, seq<nat>>, classes: seq<nat>,
                        m: nat, draw: nat -> nat -> nat)
    returns (balanced: seq<nat>)
    requires groups == Groups(targets) && classes == Classes(targets)
    requires forall c :: c in classes ==> m <= |groups[c]|
    ensures |balanced| == |classes| * m
    ensures NoDuplicates(balanced)
    ensures InRange(balanced, |targets|)
    ensures forall c :: ClassCount(targets, balanced, c) == if c in targets then m else 0
  {
    ClassesMembers(targets);
    balanced := [];
    for k := 0 to |classes|
      invariant |balanced| == k * m
      invariant SampledSoFar(targets, classes, k, m, balanced)
    {
      var c := classes[k];
      var picked := DrawWithoutReplacement(groups[c], m, draw(k));
      SampleStep(targets, k, m, balanced, picked);
      MulSucc(k, m);
      balanced := balanced + picked;
    }
    assert classes[..|classes|] == classes;
  }

  lemma MulSucc(k: nat, m: nat)
    ensures (k + 1) * m == k * m + m
  {}

  /** The loop invariant of the sampling loop once the first `k` groups have
      been drawn from. */
  ghost predicate SampledSoFar(targets: seq<nat>, classes: seq<nat>, k: nat, m: nat, balanced: seq<nat>)
    requires k <= |classes|
  {
    NoDuplicates(balanced) &&
    InRange(balanced, |targets|) &&
    (forall x :: x in balanced ==> targets[x] in classes[..k]) &&
    forall c :: ClassCount(targets, balanced, c) == if c in classes[..k] then m else 0
  }

  /** What `replace=False` gives: indices drawn from the group of `c` are
      distinct, valid, and all have label `c`. */
  lemma DrawnFromGroup(targets: seq<nat>, c: nat, picked: seq<nat>)
    requires c in Groups(targets)
    requires multiset(picked) <= multiset(Groups(targets)[c])
    ensures NoDuplicates(picked)
    ensures forall x :: x in picked ==> x < |targets| && targets[x] == c
  {
    var group := Groups(targets)[c];
    IndicesOfMembers(targets, c);
    forall x | x in picked ensures x < |targets| && targets[x] == c {
      assert x in multiset(picked);
      assert x in group;
    }
    IndicesOfNoDuplicates(targets, c);
    SubMultisetNoDuplicates(picked, group);
  }

  /** Drawing `m` indices from group number `k` keeps the invariant. */
  lemma SampleStep(targets: seq<nat>, k: nat, m: nat, balanced: seq<nat>, picked: seq<nat>)
    requires k < |Classes(targets)|
    requires SampledSoFar(targets, Classes(targets), k, m, balanced)
    requires |picked| == m
    requires multiset(picked) <= multiset(Groups(targets)[Classes(targets)[k]])
    ensures SampledSoFar(targets, Classes(targets), k + 1, m, balanced + picked)
  {
    var classes := Classes(targets);
    var c := classes[k];
    DrawnFromGroup(targets, c, picked);
    NextClassIsNew(targets, k);
    SampledExtend(targets, classes, k, m, balanced, picked);
  }

  /** The invariant after `k + 1` groups, from the facts about the indices
      drawn from group number `k`. */
  lemma SampledExtend(targets: seq<nat>, classes: seq<nat>, k: nat, m: nat, balanced: seq<nat>, picked: seq<nat>)
    requires k < |classes| && classes[k] !in classes[..k]
    requires SampledSoFar(targets, classes, k, m, balanced)
    requires |picked| == m && NoDuplicates(picked)
    requires forall x :: x in picked ==> x < |targets| && targets[x] == classes[k]
    ensures SampledSoFar(targets, classes, k + 1, m, balanced + picked)
  {
    var c := classes[k];
    assert classes[..k + 1] == classes[..k] + [c];
    SampleStepLabels(targets, classes[..k], c, balanced, picked);
    SampleStepCounts(targets, classes[..k], c, m, balanced, picked);
  }

  lemma SampleStepLabels(targets: seq<nat>, done: seq<nat>, c: nat, balanced: seq<nat>, picked: seq<nat>)
    requires c !in done
    requires NoDuplicates(balanced) && NoDuplicates(picked)
    requires InRange(balanced, |targets|)
    requires forall x :: x in balanced ==> targets[x] in done
    requires forall x :: x in picked ==> x < |targets| && targets[x] == c
    ensures NoDuplicates(balanced + picked)
    ensures InRange(balanced + picked, |targets|)
    ensures forall x :: x in balanced + picked ==> targets[x] in done + [c]
  {
    NoDuplicatesConcat(balanced, picked);
    InRangeConcat(balanced, picked, |targets|);
  }

  /** The `k`-th class in key order is not among the first `k`. */
  lemma NextClassIsNew(targets: seq<nat>, k: nat)
    requires k < |Classes(targets)|
    ensures Classes(targets)[k] in Groups(targets)
    ensures Classes(targets)[k] !in Classes(targets)[..k]
  {
    var classes := Classes(targets);
    ClassesMembers(targets);
    NoDuplicatesIffDistinct(classes);
    assert classes[k] in classes;
    forall j | 0 <= j < k ensures classes[j] != classes[k] {}
  }

  lemma SampleStepCounts(targets: seq<nat>, done: seq<nat>, c: nat, m: nat, balanced: seq<nat>, picked: seq<nat>)
    requires c !in done && |picked| == m
    requires InRange(balanced, |targets|)
    requires forall x :: x in picked ==> x < |targets| && targets[x] == c
    requires forall d :: ClassCount(targets, balanced, d) == if d in done then m else 0
    ensures forall d :: ClassCount(targets, balanced + picked, d) == if d in done + [c] then m else 0
  {
    forall d ensures ClassCount(targets, balanced + picked, d) == if d in done + [c] then m else 0 {
      ClassCountConcat(targets, balanced, picked, d);
      ClassCountUniform(targets, picked, c, d);
    }
  }

  // ---------------------------------------------------------------------
  // The whole balanced split
  // ---------------------------------------------------------------------

  datatype Split = Split(train: seq<nat>, test: seq<nat>)

  /** What a balanced split of a non-empty dataset promises, for a split
      ratio `num / den`: with `m` the size of the smallest class, the pooled
      indices are `m` per class, distinct and valid; the train part has the
      floor of the ratio times the pool size; the parts are disjoint; and
      every class's train and test counts add up to `m`. */
  ghost predicate IsBalancedSplit(targets: seq<nat>, s: Split, num: nat, den: nat)
    requires 0 < den && num <= den
  {
    MinClassCount(targets).Ok? &&
    var m := MinClassCount(targets).value;
    var pool := |Classes(targets)| * m;
    |s.train| + |s.test| == pool &&
    |s.train| == SplitSizes(pool, num, den).0 &&
    NoDuplicates(s.train + s.test) &&
    (forall x :: x in s.train ==> x !in s.test) &&
    InRange(s.train, |targets|) && InRange(s.test, |targets|) &&
    forall c ::
      ClassCount(targets, s.train, c) + ClassCount(targets, s.test, c) ==
      if c in targets then m else 0
  }

  /** Lines 37-56 of the script: group, find `min_class_count`, sample,
      shuffle in place and cut at `int(ratio * len(balanced_indices))`. The
      two random sources are injected: `sampleDraw(k)` for the draws from the
      `k`-th group and `shuffleDraw` for the shuffle. */
  method BalanceAndSplit(targets: seq<nat>, num: nat, den: nat,
                         sampleDraw: nat -> nat -> nat, shuffleDraw: nat -> nat)
    returns (r: Result<Split>)
    requires 0 < den && num <= den
    ensures r.Err? <==> targets == []
    ensures r.Err? ==> r.error == ValueError
    ensures r.Ok? ==> IsBalancedSplit(targets, r.value, num, den)
  {
    var groups, classes := GroupByLabel(targets);
    var minClassCount := MinGroupSize(groups, classes);
    MinClassCountBounds(targets);
    if minClassCount.Err? {
      return Err(minClassCount.error);
    }
    var m := minClassCount.value;
    var balanced := SampleBalanced(targets, groups, classes, m, sampleDraw);
    var a := new nat[|balanced|](i requires 0 <= i < |balanced| => balanced[i]);
    assert a[..] == balanced;
    ShuffleInPlace(a, shuffleDraw);
    var shuffled := a[..];
    var sizes := SplitSizes(|shuffled|, num, den);
    var parts := SplitAt(shuffled, sizes.0);
    SubMultisetNoDuplicates(shuffled, balanced);
    SplitAtDisjoint(shuffled, sizes.0);
    ClassCountPermutation(targets, balanced, shuffled, 0);
    InRangeConcat(parts.0, parts.1, |targets|);
    forall c ensures ClassCount(targets, parts.0, c) + ClassCount(targets, parts.1, c) ==
                     if c in targets then m else 0 {
      ClassCountPermutation(targets, balanced, shuffled, c);
      ClassCountConcat(targets, parts.0, parts.1, c);
    }
    r := Ok(Split(parts.0, parts.1));
  }

  // ---------------------------------------------------------------------
  // The distribution check (`np.bincount` of each side's labels)
  // ---------------------------------------------------------------------

  /** `np.bincount(labels)`: bin `c` counts the occurrences of `c`, and there
      are exactly `max(labels) + 1` bins (none for an empty list). */
  function Bincount(labels: seq<nat>): (bins: seq<nat>)
    ensures forall c :: 0 <= c < |bins| ==> bins[c] == multiset(labels)[c]
    ensures forall x :: x in labels ==> x < |bins|
    ensures bins == [] || bins[|bins| - 1] > 0
  {
    if labels == [] then []
    else
      var n := |labels| - 1;
      var earlier := Bincount(labels[..n]);
      var bins := AddToBin(earlier, labels[n]);
      BincountStep(labels, n, earlier, bins);
      bins
  }

  /** One more occurrence of `x`: the bins grow to hold `x` if needed. */
  function AddToBin(bins: seq<nat>, x: nat): (r: seq<nat>)
    ensures |r| == if x < |bins| then |bins| else x + 1
    ensures forall c :: 0 <= c < |r| ==> r[c] == BinAt(bins, c) + if c == x then 1 else 0
  {
    var grown := if x < |bins| then bins else bins + seq(x + 1 - |bins|, _ => 0);
    grown[x := grown[x] + 1]
  }

  lemma BincountStep(labels: seq<nat>, n: nat, earlier: seq<nat>, bins: seq<nat>)
    requires n + 1 == |labels|
    requires forall c :: 0 <= c < |earlier| ==> earlier[c] == multiset(labels[..n])[c]
    requires forall y :: y in labels[..n] ==> y < |earlier|
    requires earlier == [] || earlier[|earlier| - 1] > 0
    requires bins == AddToBin(earlier, labels[n])
    ensures forall c :: 0 <= c < |bins| ==> bins[c] == multiset(labels)[c]
    ensures forall y :: y in labels ==> y < |bins|
    ensures bins == [] || bins[|bins| - 1] > 0
  {
    assert labels == labels[..n] + [labels[n]];
    assert multiset(labels) == multiset(labels[..n]) + multiset{labels[n]};
    forall c | 0 <= c < |bins| ensures bins[c] == multiset(labels)[c] {
      if c >= |earlier| {
        assert c !in labels[..n];
      }
    }
  }

  /** Bin `c`, reading a missing bin as zero. */
  function BinAt(bins: seq<nat>, c: nat): nat {
    if c < |bins| then bins[c] else 0
  }

  /** The printed distributions of a balanced split add up, class by class,
      to `min_class_count`. */
  lemma DistributionsAddUp(targets: seq<nat>, s: Split, num: nat, den: nat, c: nat)
    requires 0 < den && num <= den && IsBalancedSplit(targets, s, num, den)
    ensures InRange(s.train, |targets|) && InRange(s.test, |targets|)
    ensures BinAt(Bincount(Labels(targets, s.train)), c) + BinAt(Bincount(Labels(targets, s.test)), c) ==
            if c in targets then MinClassCount(targets).value else 0
  {
    assert InRange(s.train, |targets|) && InRange(s.test, |targets|);
    var trainBins := Bincount(Labels(targets, s.train));
    var testBins := Bincount(Labels(targets, s.test));
    assert BinAt(trainBins, c) == ClassCount(targets, s.train, c) by {
      if c >= |trainBins| { assert c !in Labels(targets, s.train); }
    }
    assert BinAt(testBins, c) == ClassCount(targets, s.test, c) by {
      if c >= |testBins| { assert c !in Labels(targets, s.test); }
    }
  }

  /** Only the pool is balanced: in any dataset of two items with different
      labels, the split that puts index 0 in train and index 1 in test
      satisfies everything a balanced split promises for the ratio 4/5, yet
      the first class lies wholly in train and the second wholly in test. */
  lemma SidesNotBalanced(targets: seq<nat>)
    requires |targets| == 2 && targets[0] != targets[1]
    ensures IsBalancedSplit(targets, Split([0], [1]), 4, 5)
    ensures InRange([0], |targets|) && InRange([1], |targets|)
    ensures ClassCount(targets, [0], targets[0]) == 1 && ClassCount(targets, [0], targets[1]) == 0
    ensures ClassCount(targets, [1], targets[0]) == 0 && ClassCount(targets, [1], targets[1]) == 1
  {
    TwoClassesKeys(targets);
    TwoClassesMin(targets);
    TwoClassesCounts(targets);
    assert SplitSizes(2, 4, 5).0 == 1;
    assert [0] + [1] == [0, 1];
    NoDuplicatesIffDistinct([0, 1]);
  }

  lemma TwoClassesMin(targets: seq<nat>)
    requires |targets| == 2 && targets[0] != targets[1]
    ensures MinClassCount(targets) == Ok(1)
  {
    TwoClassesFirstCount(targets);
    MinClassCountBounds(targets);
    assert targets[0] in targets;
  }

  lemma TwoClassesFirstCount(targets: seq<nat>)
    requires |targets| == 2 && targets[0] != targets[1]
    ensures multiset(targets)[targets[0]] == 1
  {
    assert targets == [targets[0]] + [targets[1]];
    assert multiset(targets) == multiset{targets[0]} + multiset{targets[1]};
  }

  lemma TwoClassesKeys(targets: seq<nat>)
    requires |targets| == 2 && targets[0] != targets[1]
    ensures Classes(targets) == [targets[0], targets[1]]
  {
    assert Classes(targets[..1]) == [targets[0]] by {
      assert targets[..1][..0] == [];
    }
  }

  lemma TwoClassesCounts(targets: seq<nat>)
    requires |targets| == 2 && targets[0] != targets[1]
    ensures InRange([0], |targets|) && InRange([1], |targets|)
    ensures forall c :: ClassCount(targets, [0], c) == if c == targets[0] then 1 else 0
    ensures forall c :: ClassCount(targets, [1], c) == if c == targets[1] then 1 else 0
    ensures forall c :: c in targets <==> c == targets[0] || c == targets[1]
  {
    assert Labels(targets, [0]) == [targets[0]];
    assert Labels(targets, [1]) == [targets[1]];
  }
}
