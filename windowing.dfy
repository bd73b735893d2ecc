/**
 * The last data step of main.cpp: the per-canton label histories, visited
 * in increasing canton id as `std::map` iterates them, are cut into
 * (current label, canton, next label) samples, the next label clamped into
 * `[0, numClasses)`. The float normalisations the source applies to the
 * first two cells are not part of this model: the cubes hold the numerators.
 */
module Windowing {

  predicate IsMin(k: int, keys: set<int>)
  {
    k in keys && forall o :: o in keys ==> k <= o
  }

  /** A set of integers is empty or has a member. */
  lemma EmptyOrWitness(keys: set<int>)
    ensures keys == {} || exists k :: k in keys
  {
    if forall k: int :: k !in keys {
      assert keys == {};
    }
  }

  lemma {:induction false} MinExists(keys: set<int>)
    requires keys != {}
    ensures exists k :: IsMin(k, keys)
    decreases |keys|
  {
    EmptyOrWitness(keys);
    var x :| x in keys;
    var rest := keys - {x};
    if rest == {} {
      assert forall o :: o in keys ==> o in rest || o == x;
      assert IsMin(x, keys);
    } else {
      MinExists(rest);
      var m :| IsMin(m, rest);
      var k := if x <= m then x else m;
      forall o | o in keys
        ensures k <= o
      {
        if o != x {
          assert o in rest;
        }
      }
      assert IsMin(k, keys);
    }
  }

  /** The smallest element of a non-empty set. */
  function MinKey(keys: set<int>): (k: int)
    requires keys != {}
    ensures IsMin(k, keys)
  {
    MinExists(keys);
    var k :| IsMin(k, keys);
    k
  }

  predicate Increasing(ks: seq<int>)
  {
    forall i, j :: 0 <= i < j < |ks| ==> ks[i] < ks[j]
  }

  /** The keys in the order `std::map` visits them: increasing, each once. */
  function SortedKeys(keys: set<int>): (ks: seq<int>)
    ensures |ks| == |keys| && Increasing(ks)
    ensures forall i :: 0 <= i < |ks| ==> ks[i] in keys
    ensures forall k :: k in keys ==> k in ks
    decreases |keys|
  {
    if keys == {} then []
    else
      var m := MinKey(keys);
      var rest := SortedKeys(keys - {m});
      assert forall i :: 0 <= i < |rest| ==> m < rest[i];
      [m] + rest
  }

  /** The total length of the histories of the cantons `keys`. */
  function LengthSum(h: map<int, seq<int>>, keys: set<int>): nat
    requires keys <= h.Keys
    decreases |keys|
  {
    if keys == {} then 0
    else
      var m := MinKey(keys);
      |h[m]| + LengthSum(h, keys - {m})
  }

  /** The sum does not depend on which canton is taken out first. */
  lemma {:induction false} LengthSumRemove(h: map<int, seq<int>>, keys: set<int>, x: int)
    requires keys <= h.Keys && x in keys
    ensures LengthSum(h, keys) == |h[x]| + LengthSum(h, keys - {x})
    decreases |keys|
  {
    var m := MinKey(keys);
    if m != x {
      LengthSumRemove(h, keys - {m}, x);
      assert IsMin(m, keys - {x});
      MinUnique(m, MinKey(keys - {x}), keys - {x});
      assert keys - {m} - {x} == keys - {x} - {m};
    }
  }

  lemma MinUnique(a: int, b: int, keys: set<int>)
    requires IsMin(a, keys) && IsMin(b, keys)
    ensures a == b
  {
  }

  lemma {:induction false} LengthSumAgree(h1: map<int, seq<int>>, h2: map<int, seq<int>>, keys: set<int>)
    requires keys <= h1.Keys && keys <= h2.Keys
    requires forall k :: k in keys ==> |h1[k]| == |h2[k]|
    ensures LengthSum(h1, keys) == LengthSum(h2, keys)
    decreases |keys|
  {
    if keys != {} {
      LengthSumAgree(h1, h2, keys - {MinKey(keys)});
    }
  }

  /** Replacing the history of canton `c` by `v` changes the total by the difference in length. */
  lemma LengthSumUpdate(h: map<int, seq<int>>, c: int, v: seq<int>)
    ensures LengthSum(h[c := v], h[c := v].Keys) + (if c in h then |h[c]| else 0) == LengthSum(h, h.Keys) + |v|
  {
    var h' := h[c := v];
    LengthSumRemove(h', h'.Keys, c);
    assert h'.Keys - {c} == h.Keys - {c};
    LengthSumAgree(h', h, h.Keys - {c});
    if c in h {
      LengthSumRemove(h, h.Keys, c);
    } else {
      assert h.Keys - {c} == h.Keys;
    }
  }

  /** The samples a history of `|h|` labels gives: one per consecutive pair. */
  function SampleCount(h: seq<int>): (n: nat)
    ensures n + 1 == |h| || (|h| <= 1 && n == 0)
  {
    if |h| > 1 then |h| - 1 else 0
  }

  /** The source's safety clamp: first down to `numClasses - 1`, then up to 0. */
  function Clamp(next: int, numClasses: int): (r: int)
    ensures 0 <= r
    ensures 1 <= numClasses ==> r < numClasses
    ensures 0 <= next < numClasses ==> r == next
    ensures next >= numClasses ==> r == if numClasses >= 1 then numClasses - 1 else 0
    ensures next < 0 && 0 < numClasses ==> r == 0
  {
    var capped := if next >= numClasses then numClasses - 1 else next;
    if capped < 0 then 0 else capped
  }

  /** One training sample: `inputCube(0, c)`, `inputCube(1, c)` before normalisation, and `targetCube(0, c)`. */
  datatype Sample = Sample(current: int, canton: int, target: int)

  /** Sample `i` of the history `h` of canton `c`. */
  function PairAt(c: int, h: seq<int>, i: nat, numClasses: int): Sample
    requires i + 1 < |h|
  {
    Sample(h[i], c, Clamp(h[i + 1], numClasses))
  }

  /** The first `i` samples of the history `h` of canton `c`. */
  function PairsUpTo(c: int, h: seq<int>, i: nat, numClasses: int): (ps: seq<Sample>)
    requires i <= SampleCount(h)
    ensures |ps| == i
  {
    if i == 0 then [] else PairsUpTo(c, h, i - 1, numClasses) + [PairAt(c, h, i - 1, numClasses)]
  }

  /** All samples of the history `h` of canton `c`. */
  function Pairs(c: int, h: seq<int>, numClasses: int): seq<Sample>
  {
    PairsUpTo(c, h, SampleCount(h), numClasses)
  }

  /** The samples of the histories of the cantons `ks`, in that order. */
  function Windows(histories: map<int, seq<int>>, ks: seq<int>, numClasses: int): seq<Sample>
    requires forall i :: 0 <= i < |ks| ==> ks[i] in histories
  {
    if ks == [] then []
    else
      var c := ks[|ks| - 1];
      Windows(histories, ks[..|ks| - 1], numClasses) + Pairs(c, histories[c], numClasses)
  }

  /** `totalLstmSamples` over the cantons `ks`. */
  function SamplesOver(histories: map<int, seq<int>>, ks: seq<int>): nat
    requires forall i :: 0 <= i < |ks| ==> ks[i] in histories
  {
    if ks == [] then 0
    else SamplesOver(histories, ks[..|ks| - 1]) + SampleCount(histories[ks[|ks| - 1]])
  }

  /** Sample `i` of a history is its labels `i` and `i + 1`, tagged with the canton. */
  lemma {:induction false} PairsAt(c: int, h: seq<int>, i: nat, k: nat, numClasses: int)
    requires k < i <= SampleCount(h)
    ensures PairsUpTo(c, h, i, numClasses)[k] == Sample(h[k], c, Clamp(h[k + 1], numClasses))
  {
    if k < i - 1 {
      PairsAt(c, h, i - 1, k, numClasses);
    }
  }

  /** The windows hold exactly `totalLstmSamples` samples, so `c_idx` ends at the size of the cubes. */
  lemma {:induction false} WindowsCount(histories: map<int, seq<int>>, ks: seq<int>, numClasses: int)
    requires forall i :: 0 <= i < |ks| ==> ks[i] in histories
    ensures |Windows(histories, ks, numClasses)| == SamplesOver(histories, ks)
  {
    if ks != [] {
      WindowsCount(histories, ks[..|ks| - 1], numClasses);
    }
  }

  /** Every target lies in `[0, numClasses)` once there is at least one class. */
  lemma {:induction false} TargetsInRange(histories: map<int, seq<int>>, ks: seq<int>, numClasses: int)
    requires forall i :: 0 <= i < |ks| ==> ks[i] in histories
    requires numClasses >= 1
    ensures forall s :: 0 <= s < |Windows(histories, ks, numClasses)| ==>
      0 <= Windows(histories, ks, numClasses)[s].target < numClasses
  {
    if ks != [] {
      var c := ks[|ks| - 1];
      TargetsInRange(histories, ks[..|ks| - 1], numClasses);
      forall k | 0 <= k < SampleCount(histories[c])
        ensures 0 <= Pairs(c, histories[c], numClasses)[k].target < numClasses
      {
        PairsAt(c, histories[c], SampleCount(histories[c]), k, numClasses);
      }
    }
  }

  /**
   * When every label is already a class id, the clamp changes nothing: the
   * samples of a canton are its consecutive label pairs.
   */
  lemma PairsUnclamped(c: int, h: seq<int>, numClasses: int, k: nat)
    requires forall i :: 0 <= i < |h| ==> 0 <= h[i] < numClasses
    requires k + 1 < |h|
    ensures Pairs(c, h, numClasses)[k] == Sample(h[k], c, h[k + 1])
  {
    PairsAt(c, h, SampleCount(h), k, numClasses);
  }

  lemma WindowsSnoc(histories: map<int, seq<int>>, ks: seq<int>, j: nat, numClasses: int)
    requires forall i :: 0 <= i < |ks| ==> ks[i] in histories
    requires j < |ks|
    ensures Windows(histories, ks[..j + 1], numClasses) ==
      Windows(histories, ks[..j], numClasses) + Pairs(ks[j], histories[ks[j]], numClasses)
    ensures SamplesOver(histories, ks[..j + 1]) == SamplesOver(histories, ks[..j]) + SampleCount(histories[ks[j]])
  {
    assert ks[..j + 1][..j] == ks[..j];
  }

  /** The first `upto` columns of the cubes hold the samples `w`. */
  predicate CubesHold(inputCube: array2<int>, targetCube: array<int>, w: seq<Sample>, upto: nat)
    reads inputCube, targetCube
  {
    upto <= |w| && inputCube.Length0 == 2 && upto <= inputCube.Length1 && upto <= targetCube.Length &&
    forall s :: 0 <= s < upto ==>
      inputCube[0, s] == w[s].current && inputCube[1, s] == w[s].canton && targetCube[s] == w[s].target
  }

  /** The counting loop: `totalLstmSamples`. */
  method CountSamples(histories: map<int, seq<int>>, ks: seq<int>) returns (total: nat)
    requires forall i :: 0 <= i < |ks| ==> ks[i] in histories
    ensures total == SamplesOver(histories, ks)
  {
    total := 0;
    var j := 0;
    while j < |ks|
      invariant 0 <= j <= |ks|
      invariant total == SamplesOver(histories, ks[..j])
    {
      var history := histories[ks[j]];
      WindowsSnoc(histories, ks, j, 0);
      if |history| > 1 {
        total := total + (|history| - 1);
      }
      j := j + 1;
    }
    assert ks[..j] == ks;
  }

  /** The inner loop for one canton: its samples go to columns `start` onward. */
  method WriteHistory(inputCube: array2<int>, targetCube: array<int>, start: nat, cantonId: int, history: seq<int>,
                      numClasses: int, ghost w: seq<Sample>)
    returns (next: nat)
    requires inputCube.Length0 == 2 && start + SampleCount(history) <= inputCube.Length1
    requires start + SampleCount(history) <= targetCube.Length
    requires CubesHold(inputCube, targetCube, w, start) && |w| == start
    modifies inputCube, targetCube
    ensures next == start + SampleCount(history)
    ensures CubesHold(inputCube, targetCube, w + Pairs(cantonId, history, numClasses), next)
  {
    next := start;
    if |history| < 2 {
      assert Pairs(cantonId, history, numClasses) == [];
      assert w + [] == w;
      return;
    }
    var i := 0;
    while i < |history| - 1
      invariant 0 <= i <= |history| - 1 && next == start + i
      invariant CubesHold(inputCube, targetCube, w + PairsUpTo(cantonId, history, i, numClasses), next)
    {
      inputCube[0, next] := history[i];
      inputCube[1, next] := cantonId;
      targetCube[next] := Clamp(history[i + 1], numClasses);
      assert w + PairsUpTo(cantonId, history, i + 1, numClasses) ==
        (w + PairsUpTo(cantonId, history, i, numClasses)) + [PairAt(cantonId, history, i, numClasses)];
      next := next + 1;
      i := i + 1;
    }
  }

  /**
   * The windowing: count the samples, size the cubes, then fill one column
   * per sample, canton by canton in increasing id. `c_idx` ends at the
   * number of samples.
   */
  method Window(histories: map<int, seq<int>>, numClasses: int)
    returns (inputCube: array2<int>, targetCube: array<int>, cIdx: nat)
    ensures fresh(inputCube) && fresh(targetCube)
    ensures var w := Windows(histories, SortedKeys(histories.Keys), numClasses);
      inputCube.Length1 == |w| == SamplesOver(histories, SortedKeys(histories.Keys)) &&
      targetCube.Length == |w| && cIdx == |w| && CubesHold(inputCube, targetCube, w, cIdx)
  {
    var ks := SortedKeys(histories.Keys);
    var totalLstmSamples := CountSamples(histories, ks);
    WindowsCount(histories, ks, numClasses);
    inputCube := new int[2, totalLstmSamples];
    targetCube := new int[totalLstmSamples];
    cIdx := FillCubes(inputCube, targetCube, histories, ks, numClasses);
  }

  /** The filling loop over the cantons `ks`, in order. */
  method FillCubes(inputCube: array2<int>, targetCube: array<int>, histories: map<int, seq<int>>, ks: seq<int>,
                   numClasses: int)
    returns (cIdx: nat)
    requires forall i :: 0 <= i < |ks| ==> ks[i] in histories
    requires inputCube.Length0 == 2 && inputCube.Length1 == targetCube.Length == SamplesOver(histories, ks)
    modifies inputCube, targetCube
    ensures cIdx == SamplesOver(histories, ks)
    ensures CubesHold(inputCube, targetCube, Windows(histories, ks, numClasses), cIdx)
  {
    cIdx := 0;
    var j := 0;
    while j < |ks|
      invariant 0 <= j <= |ks|
      invariant cIdx == SamplesOver(histories, ks[..j]) <= targetCube.Length
      invariant CubesHold(inputCube, targetCube, Windows(histories, ks[..j], numClasses), cIdx)
    {
      WindowsSnoc(histories, ks, j, numClasses);
      PrefixSamplesBound(histories, ks, j + 1);
      WindowsCount(histories, ks[..j], numClasses);
      cIdx := WriteHistory(inputCube, targetCube, cIdx, ks[j], histories[ks[j]], numClasses,
                           Windows(histories, ks[..j], numClasses));
      j := j + 1;
    }
    assert ks[..j] == ks;
  }

  /** The samples of a prefix of the cantons are no more than those of all of them. */
  lemma {:induction false} PrefixSamplesBound(histories: map<int, seq<int>>, ks: seq<int>, j: nat)
    requires forall i :: 0 <= i < |ks| ==> ks[i] in histories
    requires j <= |ks|
    ensures SamplesOver(histories, ks[..j]) <= SamplesOver(histories, ks)
    decreases |ks| - j
  {
    if j < |ks| {
      PrefixSamplesBound(histories, ks, j + 1);
      WindowsSnoc(histories, ks, j, 0);
    } else {
      assert ks[..j] == ks;
    }
  }
}
