/** The coefficient list of the drawing machine: one record per value of the
    discrete Fourier transform of a sampled coordinate, sorted by amplitude,
    largest first, ties kept in frequency order. The transform itself is given
    as data: the k-th value by its modulus and its argument. */
module Fourier {

  /** One value X_k of the transform: its modulus |X_k| and its argument arg(X_k). */
  datatype TransformValue = TransformValue(magnitude: real, angle: real)

  /** One epicycle: the term amp * e^{i (phase + 2 pi freq t)} of the inverse transform. */
  datatype Coefficient = Coefficient(freq: nat, amp: real, phase: real)

  /** The record built for the k-th of the n transform values. */
  function RecordOf(fourier: seq<TransformValue>, k: nat): (r: Coefficient)
    requires k < |fourier|
    ensures r.freq == k && r.phase == fourier[k].angle
    ensures r.amp * |fourier| as real == fourier[k].magnitude
  {
    Coefficient(k, fourier[k].magnitude / |fourier| as real, fourier[k].angle)
  }

  /** The list as the construction loop leaves it, before sorting. */
  function Records(fourier: seq<TransformValue>): (r: seq<Coefficient>)
    ensures |r| == |fourier|
    ensures FrequencyAscending(r)
  {
    seq(|fourier|, k requires 0 <= k < |fourier| => RecordOf(fourier, k))
  }

  predicate FrequencyAscending(s: seq<Coefficient>)
  {
    forall i, j :: 0 <= i < j < |s| ==> s[i].freq < s[j].freq
  }

  predicate AmpNonIncreasing(s: seq<Coefficient>)
  {
    forall i, j :: 0 <= i < j < |s| ==> s[i].amp >= s[j].amp
  }

  /** Records of equal amplitude appear in ascending frequency. */
  predicate TiesInFrequencyOrder(s: seq<Coefficient>)
  {
    forall i, j :: 0 <= i < j < |s| && s[i].amp == s[j].amp ==> s[i].freq < s[j].freq
  }

  /** c comes strictly before d in the sorted list. */
  predicate Precedes(c: Coefficient, d: Coefficient)
  {
    c.amp > d.amp || (c.amp == d.amp && c.freq < d.freq)
  }

  predicate Ranked(s: seq<Coefficient>)
  {
    forall i, j :: 0 <= i < j < |s| ==> Precedes(s[i], s[j])
  }

  /** What compute_dft promises of its result r for the transform values fourier. */
  predicate IsDftOutput(fourier: seq<TransformValue>, r: seq<Coefficient>)
  {
    && |r| == |fourier|
    && multiset(r) == multiset(Records(fourier))
    && AmpNonIncreasing(r)
    && TiesInFrequencyOrder(r)
  }

  /** Exchanges two neighbouring records. */
  method SwapDown(a: array<Coefficient>, j: nat)
    requires 0 < j < a.Length
    modifies a
    ensures a[j - 1] == old(a[j]) && a[j] == old(a[j - 1])
    ensures forall k :: 0 <= k < a.Length && k != j - 1 && k != j ==> a[k] == old(a[k])
    ensures multiset(a[..]) == multiset(old(a[..]))
  {
    a[j - 1], a[j] := a[j], a[j - 1];
  }

  /** One pass of the stable insertion: the record at i moves left past every
      record of strictly smaller amplitude, so it stops behind its ties. */
  method Insert(a: array<Coefficient>, i: nat)
    requires i < a.Length
    requires Ranked(a[..i])
    requires forall p :: 0 <= p < i ==> a[p].freq < a[i].freq
    modifies a
    ensures Ranked(a[..i + 1])
    ensures forall p :: 0 <= p <= i ==> a[p].freq <= old(a[i]).freq
    ensures forall q :: i < q < a.Length ==> a[q] == old(a[q])
    ensures multiset(a[..]) == multiset(old(a[..]))
  {
    var j := i;
    while j > 0 && a[j - 1].amp < a[j].amp
      invariant 0 <= j <= i
      invariant forall p, q :: 0 <= p < q <= i && p != j && q != j ==> Precedes(a[p], a[q])
      invariant forall q :: j < q <= i ==> Precedes(a[j], a[q])
      invariant forall p :: 0 <= p <= i && p != j ==> a[p].freq < a[j].freq
      invariant a[j] == old(a[i])
      invariant forall q :: i < q < a.Length ==> a[q] == old(a[q])
      invariant multiset(a[..]) == multiset(old(a[..]))
    {
      SwapDown(a, j);
      j := j - 1;
    }
    assert j > 0 ==> Precedes(a[j - 1], a[j]);
    forall p | 0 <= p < j
      ensures Precedes(a[p], a[j])
    {
      if p < j - 1 {
        assert Precedes(a[p], a[j - 1]);
      }
    }
  }

  /** list.sort(key=amp, reverse=True), in place. The sort is stable; the
      records enter in ascending frequency, so stability is the statement that
      ties stay in ascending frequency. */
  method SortByAmplitude(a: array<Coefficient>)
    requires FrequencyAscending(a[..])
    modifies a
    ensures AmpNonIncreasing(a[..])
    ensures TiesInFrequencyOrder(a[..])
    ensures multiset(a[..]) == multiset(old(a[..]))
  {
    ghost var unsorted := a[..];
    var i := 0;
    while i < a.Length
      invariant 0 <= i <= a.Length
      invariant Ranked(a[..i])
      invariant forall p, q :: 0 <= p < i <= q < a.Length ==> a[p].freq < a[q].freq
      invariant forall q :: i <= q < a.Length ==> a[q] == unsorted[q]
      invariant multiset(a[..]) == multiset(unsorted)
    {
      Insert(a, i);
      assert forall q :: i < q < a.Length ==> unsorted[i].freq < a[q].freq;
      i := i + 1;
    }
    assert a[..a.Length] == a[..];
  }

  /** compute_dft: one record per transform value, then the stable sort by
      amplitude, largest first. */
  method ComputeDft(fourier: seq<TransformValue>) returns (coefficients: seq<Coefficient>)
    ensures |coefficients| == |fourier|
    ensures multiset(coefficients) == multiset(Records(fourier))
    ensures AmpNonIncreasing(coefficients)
    ensures TiesInFrequencyOrder(coefficients)
  {
    var n := |fourier|;
    var list := new Coefficient[n];
    for k := 0 to n
      invariant forall i :: 0 <= i < k ==> list[i] == RecordOf(fourier, i)
    {
      var amp := fourier[k].magnitude / n as real;
      var phase := fourier[k].angle;
      list[k] := Coefficient(k, amp, phase);
    }
    assert list[..] == Records(fourier);
    SortByAmplitude(list);
    coefficients := list[..];
  }

  /** Sorting only reorders: every record of the output is the record built
      for its own frequency, the frequencies are exactly 0..n-1, and each
      appears once. */
  lemma DftOutputDescribesTransform(fourier: seq<TransformValue>, r: seq<Coefficient>)
    requires IsDftOutput(fourier, r)
    ensures forall i :: 0 <= i < |r| ==> r[i].freq < |fourier| && r[i] == RecordOf(fourier, r[i].freq)
    ensures forall k :: 0 <= k < |fourier| ==> RecordOf(fourier, k) in r
    ensures forall i, j :: 0 <= i < j < |r| ==> r[i].freq != r[j].freq
  {
    var records := Records(fourier);
    forall i | 0 <= i < |r|
      ensures r[i].freq < |fourier| && r[i] == RecordOf(fourier, r[i].freq)
    {
      assert r[i] in multiset(r);
      assert r[i] in records;
    }
    forall k | 0 <= k < |fourier|
      ensures RecordOf(fourier, k) in r
    {
      assert records[k] in multiset(records);
    }
    forall i, j | 0 <= i < j < |r|
      ensures r[i].freq != r[j].freq
    {
      assert r[i] != r[j];
    }
  }

  /** np.abs returns non-negative moduli, so every amplitude is non-negative. */
  lemma AmplitudesNonNegative(fourier: seq<TransformValue>, r: seq<Coefficient>)
    requires IsDftOutput(fourier, r)
    requires forall k :: 0 <= k < |fourier| ==> fourier[k].magnitude >= 0.0
    ensures forall i :: 0 <= i < |r| ==> r[i].amp >= 0.0
  {
    DftOutputDescribesTransform(fourier, r);
    forall i | 0 <= i < |r|
      ensures r[i].amp >= 0.0
    {
      var k := r[i].freq;
      assert fourier[k].magnitude >= 0.0;
      assert (|fourier| as real) > 0.0;
    }
  }

  /** Two nonempty lists ranked the same way with the same elements start alike. */
  lemma RankedHeadsEqual(s1: seq<Coefficient>, s2: seq<Coefficient>)
    requires Ranked(s1) && Ranked(s2)
    requires multiset(s1) == multiset(s2)
    requires |s1| > 0 && |s2| > 0
    ensures s1[0] == s2[0]
  {
    var a, b := s1[0], s2[0];
    assert a in multiset(s2);
    var j :| 0 <= j < |s2| && s2[j] == a;
    assert b in multiset(s1);
    var i :| 0 <= i < |s1| && s1[i] == b;
    assert j > 0 ==> Precedes(b, a);
    assert i > 0 ==> Precedes(a, b);
  }

  /** Two lists ranked the same way with the same elements are equal. */
  lemma {:induction false} RankedPermutationsEqual(s1: seq<Coefficient>, s2: seq<Coefficient>)
    requires Ranked(s1) && Ranked(s2)
    requires multiset(s1) == multiset(s2)
    ensures s1 == s2
    decreases |s1|
  {
    assert |s1| == |multiset(s1)| == |multiset(s2)| == |s2|;
    if |s1| > 0 {
      RankedHeadsEqual(s1, s2);
      var a := s1[0];
      assert s1 == [a] + s1[1..];
      assert s2 == [a] + s2[1..];
      assert multiset(s1[1..]) == multiset(s1) - multiset{a};
      assert multiset(s2[1..]) == multiset(s2) - multiset{a};
      RankedPermutationsEqual(s1[1..], s2[1..]);
    }
  }

  /** The sorted list is determined by the transform values alone, so truncating
      it to its first M records is reproducible. */
  lemma DftOutputUnique(fourier: seq<TransformValue>, r1: seq<Coefficient>, r2: seq<Coefficient>)
    requires IsDftOutput(fourier, r1) && IsDftOutput(fourier, r2)
    ensures r1 == r2
  {
    RankedPermutationsEqual(r1, r2);
  }

  /** The transform of the signal [0, 1, 0, -1] in exact arithmetic is
      [0, -2i, 0, 2i]; halfPi stands for pi/2. */
  function FourPointTransform(halfPi: real): seq<TransformValue>
  {
    [TransformValue(0.0, 0.0), TransformValue(2.0, -halfPi),
     TransformValue(0.0, 0.0), TransformValue(2.0, halfPi)]
  }

  lemma FourPointRecords(halfPi: real)
    ensures Records(FourPointTransform(halfPi))
      == [Coefficient(0, 0.0, 0.0), Coefficient(1, 0.5, -halfPi),
          Coefficient(2, 0.0, 0.0), Coefficient(3, 0.5, halfPi)]
  {
    var fourier := FourPointTransform(halfPi);
    assert 2.0 / 4 as real == 0.5;
    assert RecordOf(fourier, 1) == Coefficient(1, 0.5, -halfPi);
    assert RecordOf(fourier, 3) == Coefficient(3, 0.5, halfPi);
  }

  /** The sorted list for the signal [0, 1, 0, -1]. */
  function FourPointSorted(halfPi: real): seq<Coefficient>
  {
    [Coefficient(1, 0.5, -halfPi), Coefficient(3, 0.5, halfPi),
     Coefficient(0, 0.0, 0.0), Coefficient(2, 0.0, 0.0)]
  }

  lemma FourPointSortedIsPermutation(halfPi: real)
    ensures multiset(FourPointSorted(halfPi)) == multiset(Records(FourPointTransform(halfPi)))
  {
    FourPointRecords(halfPi);
    var e := FourPointSorted(halfPi);
    assert Records(FourPointTransform(halfPi)) == [e[2], e[0], e[3], e[1]];
  }

  /** For the signal [0, 1, 0, -1] the two records of amplitude 0.5 come
      first, and each pair of ties keeps ascending frequency. */
  lemma FourPointSignal(halfPi: real, r: seq<Coefficient>)
    requires IsDftOutput(FourPointTransform(halfPi), r)
    ensures r == [Coefficient(1, 0.5, -halfPi), Coefficient(3, 0.5, halfPi),
                  Coefficient(0, 0.0, 0.0), Coefficient(2, 0.0, 0.0)]
  {
    FourPointSortedIsPermutation(halfPi);
    var e := FourPointSorted(halfPi);
    assert AmpNonIncreasing(e) && TiesInFrequencyOrder(e);
    DftOutputUnique(FourPointTransform(halfPi), r, e);
  }
}
