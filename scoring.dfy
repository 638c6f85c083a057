/**
 * The scoring engine of main.py: reverse recoding, the raw total, the
 * per-dimension raw sums and 0-100 normalised scores over the answered
 * items, and the threshold interpretation of the total and of a dimension.
 */
module Scoring {
  import opened Wrappers
  import opened Catalog

  /** Answers by item key; None is an unanswered item. Values are not range-checked. */
  type Answers = map<string, Option<int>>

  /** `answers.get(key)`: a missing key reads as unanswered. */
  function Get(answers: Answers, key: string): (r: Option<int>)
    ensures key !in answers ==> r.None?
    ensures key in answers ==> r == answers[key]
  {
    if key in answers then answers[key] else None
  }

  /** Every recorded answer is one of the four Likert codes. */
  ghost predicate AnswersInRange(answers: Answers) {
    forall k :: k in answers && answers[k].Some? ==> 1 <= answers[k].value <= 4
  }

  /** Every item of the catalog has an answer. */
  ghost predicate Complete(answers: Answers) {
    forall i :: 0 <= i < |QUESTIONS| ==> Get(answers, QUESTIONS[i].key).Some?
  }

  // ---------------------------------------------------------------
  // Recoding
  // ---------------------------------------------------------------

  /** Reverse scoring for a 4-point scale; an unanswered item stays unanswered. */
  function Recode(value: Option<int>, rev: bool): (r: Option<int>)
    ensures r.Some? <==> value.Some?
    ensures value.Some? && 1 <= value.value <= 4 ==> 1 <= r.value <= 4
  {
    match value
    case None => None
    case Some(v) => Some(if rev then 5 - v else v)
  }

  /** Recoding twice gives back the answer, for every value and both flags. */
  lemma RecodeInvolutive(value: Option<int>, rev: bool)
    ensures Recode(Recode(value, rev), rev) == value
  {
  }

  /** On the Likert range, reverse recoding maps 1, 2, 3, 4 to 4, 3, 2, 1. */
  lemma RecodeReversesOrder(v: int, w: int)
    requires 1 <= v <= 4 && 1 <= w <= 4
    ensures v <= w <==> Recode(Some(w), true).value <= Recode(Some(v), true).value
    ensures Recode(Some(v), false).value == v
  {
  }

  // ---------------------------------------------------------------
  // What compute_scores computes, as functions of the answers
  // ---------------------------------------------------------------

  function Sum(s: seq<int>): int {
    if |s| == 0 then 0 else Sum(s[..|s| - 1]) + s[|s| - 1]
  }

  /** The recoded answer item i contributes, if it was answered. */
  function Contribution(answers: Answers, i: nat): Option<int>
    requires i < |QUESTIONS|
  {
    Recode(Get(answers, QUESTIONS[i].key), QUESTIONS[i].rev)
  }

  /** The recoded answers of dimension d among the first n items, in catalog order. */
  function DimValues(answers: Answers, n: nat, d: string): seq<int>
    requires n <= |QUESTIONS|
  {
    if n == 0 then []
    else
      var c := Contribution(answers, n - 1);
      DimValues(answers, n - 1, d) + (if c.Some? && QUESTIONS[n - 1].dim == d then [c.value] else [])
  }

  /** The sum of the recoded answers among the first n items. */
  function TotalUpTo(answers: Answers, n: nat): int
    requires n <= |QUESTIONS|
  {
    if n == 0 then 0
    else
      var c := Contribution(answers, n - 1);
      TotalUpTo(answers, n - 1) + (if c.Some? then c.value else 0)
  }

  /** A raw sum rescaled to 0-100 between its least and greatest possible values. */
  function Normalise(raw: int, minS: int, maxS: int): (r: real)
    ensures maxS <= minS ==> r == 0.0
    ensures minS < maxS && minS <= raw <= maxS ==> 0.0 <= r <= 100.0
    ensures minS < maxS ==> (r == 0.0 <==> raw == minS) && (r == 100.0 <==> raw == maxS)
  {
    if maxS > minS then
      NormalisedRange((raw - minS) as real, (maxS - minS) as real);
      (raw - minS) as real / (maxS - minS) as real * 100.0
    else 0.0
  }

  /** The normalised score of one dimension's recoded answers: minimum 1 * n, maximum 4 * n. */
  function Norm(vals: seq<int>): (r: real)
    ensures |vals| == 0 ==> r == 0.0
    ensures (forall k :: 0 <= k < |vals| ==> 1 <= vals[k] <= 4) ==> 0.0 <= r <= 100.0
  {
    if |vals| == 0 then 0.0
    else
      SumBoundsIf(vals);
      Normalise(Sum(vals), 1 * |vals|, 4 * |vals|)
  }

  /** The raw total of a whole answer set. */
  function TotalRaw(answers: Answers): int {
    TotalUpTo(answers, |QUESTIONS|)
  }

  /** The raw sum of dimension d over a whole answer set. */
  function DimRaw(answers: Answers, d: string): int {
    Sum(DimValues(answers, |QUESTIONS|, d))
  }

  /** The normalised score of dimension d over a whole answer set. */
  function DimNorm(answers: Answers, d: string): real {
    Norm(DimValues(answers, |QUESTIONS|, d))
  }

  // ---------------------------------------------------------------
  // compute_scores
  // ---------------------------------------------------------------

  /**
   * The first pass of compute_scores: over the catalog in order, skipping
   * unanswered items, add each recoded answer to the total and append it to
   * its dimension's list.
   */
  method CollectValues(answers: Answers) returns (totalRaw: int, dimValues: map<string, seq<int>>)
    ensures totalRaw == TotalRaw(answers)
    ensures forall d :: d in dimValues <==> d in DIM_LIST
    ensures forall d :: d in dimValues ==> dimValues[d] == DimValues(answers, |QUESTIONS|, d)
  {
    dimValues := map d | d in DIM_LIST :: [];
    totalRaw := 0;
    for i := 0 to |QUESTIONS|
      invariant totalRaw == TotalUpTo(answers, i)
      invariant forall d :: d in dimValues <==> d in DIM_LIST
      invariant forall d :: d in dimValues ==> dimValues[d] == DimValues(answers, i, d)
    {
      var q := QUESTIONS[i];
      var v := Get(answers, q.key);
      if v.None? {
        continue;
      }
      var vRec := Recode(v, q.rev).value;
      totalRaw := totalRaw + vRec;
      DimInList(i);
      DimValuesAppend(answers, i, dimValues);
      dimValues := dimValues[q.dim := dimValues[q.dim] + [vRec]];
    }
  }

  /** Appending item i's recoded answer to its dimension's list extends every list from i to i + 1 items. */
  lemma DimValuesAppend(answers: Answers, i: nat, dimValues: map<string, seq<int>>)
    requires i < |QUESTIONS|
    requires Contribution(answers, i).Some?
    requires QUESTIONS[i].dim in dimValues
    requires forall d :: d in dimValues ==> dimValues[d] == DimValues(answers, i, d)
    ensures var m := dimValues[QUESTIONS[i].dim := dimValues[QUESTIONS[i].dim] + [Contribution(answers, i).value]];
            forall d :: d in m ==> m[d] == DimValues(answers, i + 1, d)
  {
  }

  /**
   * The second pass of compute_scores: each dimension's score is 0.0 when
   * none of its items was answered, otherwise its sum rescaled between 1 * n
   * and 4 * n for its n answers.
   */
  method NormaliseDims(dimValues: map<string, seq<int>>) returns (dimNorm: map<string, real>)
    requires forall d :: d in DIM_LIST ==> d in dimValues
    ensures forall d :: d in dimNorm <==> d in DIM_LIST
    ensures forall d :: d in dimNorm ==> dimNorm[d] == Norm(dimValues[d])
  {
    dimNorm := map[];
    for j := 0 to |DIM_LIST|
      invariant forall k :: 0 <= k < j ==> DIM_LIST[k] in dimNorm
      invariant forall d :: d in dimNorm ==> d in DIM_LIST && dimNorm[d] == Norm(dimValues[d])
    {
      var d := DIM_LIST[j];
      var vals := dimValues[d];
      if |vals| == 0 {
        dimNorm := dimNorm[d := 0.0];
        continue;
      }
      var n := |vals|;
      var raw := Sum(vals);
      var minS := 1 * n;
      var maxS := 4 * n;
      dimNorm := dimNorm[d := Normalise(raw, minS, maxS)];
    }
  }

  /** compute_scores: the raw total, the raw sum of each dimension and its normalised score. */
  method ComputeScores(answers: Answers) returns (totalRaw: int, dimRaw: map<string, int>, dimNorm: map<string, real>)
    ensures totalRaw == TotalRaw(answers)
    ensures forall d :: d in dimRaw <==> d in DIM_LIST
    ensures forall d :: d in dimNorm <==> d in DIM_LIST
    ensures forall d :: d in dimRaw ==> dimRaw[d] == DimRaw(answers, d)
    ensures forall d :: d in dimNorm ==> dimNorm[d] == DimNorm(answers, d)
    ensures totalRaw == dimRaw[DIM_LIST[0]] + dimRaw[DIM_LIST[1]] + dimRaw[DIM_LIST[2]]
  {
    var dimValues;
    totalRaw, dimValues := CollectValues(answers);
    dimRaw := map d | d in dimValues :: if |dimValues[d]| > 0 then Sum(dimValues[d]) else 0;
    dimNorm := NormaliseDims(dimValues);
    TotalIsSumOfDims(answers, |QUESTIONS|);
  }

  // ---------------------------------------------------------------
  // Properties of the scores
  // ---------------------------------------------------------------

  lemma {:induction false} SumAppend(s: seq<int>, t: seq<int>)
    ensures Sum(s + t) == Sum(s) + Sum(t)
    decreases |t|
  {
    if |t| > 0 {
      assert (s + t)[..|s + t| - 1] == s + t[..|t| - 1];
      SumAppend(s, t[..|t| - 1]);
    } else {
      assert s + t == s;
    }
  }

  /** One more item adds its recoded answer, if any, to its own dimension's sum only. */
  lemma DimSumStep(answers: Answers, n: nat, d: string)
    requires 0 < n <= |QUESTIONS|
    ensures Sum(DimValues(answers, n, d))
         == Sum(DimValues(answers, n - 1, d))
            + (if Contribution(answers, n - 1).Some? && QUESTIONS[n - 1].dim == d then Contribution(answers, n - 1).value else 0)
  {
    var c := Contribution(answers, n - 1);
    SumAppend(DimValues(answers, n - 1, d), if c.Some? && QUESTIONS[n - 1].dim == d then [c.value] else []);
  }

  /** Each answered item adds to the total and to its own dimension only: the total is the sum of the dimensions. */
  lemma {:induction false} TotalIsSumOfDims(answers: Answers, n: nat)
    requires n <= |QUESTIONS|
    ensures TotalUpTo(answers, n)
         == Sum(DimValues(answers, n, DIM_LIST[0])) + Sum(DimValues(answers, n, DIM_LIST[1])) + Sum(DimValues(answers, n, DIM_LIST[2]))
  {
    if n > 0 {
      TotalIsSumOfDims(answers, n - 1);
      DimInList(n - 1);
      DimListDistinct();
      DimSumStep(answers, n, DIM_LIST[0]);
      DimSumStep(answers, n, DIM_LIST[1]);
      DimSumStep(answers, n, DIM_LIST[2]);
    }
  }

  /** When every recorded answer is a code 1..4, every value in a dimension's list is in 1..4. */
  lemma {:induction false} DimValuesInRange(answers: Answers, n: nat, d: string)
    requires n <= |QUESTIONS|
    requires AnswersInRange(answers)
    ensures forall k :: 0 <= k < |DimValues(answers, n, d)| ==> 1 <= DimValues(answers, n, d)[k] <= 4
  {
    if n > 0 {
      DimValuesInRange(answers, n - 1, d);
      var key := QUESTIONS[n - 1].key;
      if key in answers && answers[key].Some? {
        assert 1 <= answers[key].value <= 4;
      }
    }
  }

  /** When every item is answered, a dimension's list has one entry per item of the dimension. */
  lemma {:induction false} CompleteDimLength(answers: Answers, n: nat, d: string)
    requires n <= |QUESTIONS|
    requires Complete(answers)
    ensures |DimValues(answers, n, d)| == CountDim(n, d)
  {
    if n > 0 {
      CompleteDimLength(answers, n - 1, d);
    }
  }

  lemma SumBoundsIf(s: seq<int>)
    ensures (forall k :: 0 <= k < |s| ==> 1 <= s[k] <= 4) ==> |s| <= Sum(s) <= 4 * |s|
  {
    if forall k :: 0 <= k < |s| ==> 1 <= s[k] <= 4 {
      SumBounds(s);
    }
  }

  lemma {:induction false} SumBounds(s: seq<int>)
    requires forall k :: 0 <= k < |s| ==> 1 <= s[k] <= 4
    ensures |s| <= Sum(s) <= 4 * |s|
  {
    if |s| > 0 {
      SumBounds(s[..|s| - 1]);
    }
  }

  /** A complete answer set on the 1..4 codes scores 10..40 per dimension and 30..120 in total. */
  lemma CompleteBounds(answers: Answers)
    requires Complete(answers) && AnswersInRange(answers)
    ensures forall d :: d in DIM_LIST ==> 10 <= DimRaw(answers, d) <= 40
    ensures 30 <= TotalRaw(answers) <= 120
  {
    DimCounts();
    forall d | d in DIM_LIST
      ensures 10 <= DimRaw(answers, d) <= 40
    {
      CompleteDimLength(answers, |QUESTIONS|, d);
      DimValuesInRange(answers, |QUESTIONS|, d);
      SumBounds(DimValues(answers, |QUESTIONS|, d));
    }
    TotalIsSumOfDims(answers, |QUESTIONS|);
    assert DIM_LIST[0] in DIM_LIST && DIM_LIST[1] in DIM_LIST && DIM_LIST[2] in DIM_LIST;
  }

  /** On the 1..4 codes, the total of any partial answer set stays within 0..120. */
  lemma PartialTotalBounds(answers: Answers)
    requires AnswersInRange(answers)
    ensures 0 <= TotalRaw(answers) <= 120
  {
    DimCounts();
    forall d | d in DIM_LIST
      ensures 0 <= DimRaw(answers, d) <= 40
    {
      DimValuesInRange(answers, |QUESTIONS|, d);
      SumBounds(DimValues(answers, |QUESTIONS|, d));
      DimLengthAtMostCount(answers, |QUESTIONS|, d);
    }
    TotalIsSumOfDims(answers, |QUESTIONS|);
    assert DIM_LIST[0] in DIM_LIST && DIM_LIST[1] in DIM_LIST && DIM_LIST[2] in DIM_LIST;
  }

  lemma {:induction false} DimLengthAtMostCount(answers: Answers, n: nat, d: string)
    requires n <= |QUESTIONS|
    ensures |DimValues(answers, n, d)| <= CountDim(n, d)
  {
    if n > 0 {
      DimLengthAtMostCount(answers, n - 1, d);
    }
  }

  /**
   * The normalised score is 0.0 for no answers; on the 1..4 codes it lies in
   * [0, 100], is 0.0 exactly when every recoded answer is at the minimum and
   * 100.0 exactly when every one is at the maximum.
   */
  lemma NormBounds(vals: seq<int>)
    requires forall k :: 0 <= k < |vals| ==> 1 <= vals[k] <= 4
    ensures 0.0 <= Norm(vals) <= 100.0
    ensures |vals| > 0 ==> (Norm(vals) == 0.0 <==> Sum(vals) == |vals|)
    ensures |vals| > 0 ==> (Norm(vals) == 100.0 <==> Sum(vals) == 4 * |vals|)
  {
    if |vals| > 0 {
      SumBounds(vals);
      var n := |vals| as real;
      var x := (Sum(vals) - |vals|) as real;
      assert 0.0 <= x <= 3.0 * n;
      assert Norm(vals) == Normalise(Sum(vals), |vals|, 4 * |vals|);
      assert Norm(vals) == x / (3.0 * n) * 100.0;
      NormalisedRange(x, 3.0 * n);
    }
  }

  lemma NormalisedRange(x: real, m: real)
    requires m > 0.0
    ensures 0.0 <= x <= m ==> 0.0 <= x / m * 100.0 <= 100.0
    ensures x / m * 100.0 == 0.0 <==> x == 0.0
    ensures x / m * 100.0 == 100.0 <==> x == m
  {
    if 0.0 <= x <= m {
      assert x / m <= 1.0;
    }
  }

  /** Every dimension score of an answer set on the 1..4 codes lies in [0, 100]. */
  lemma DimNormBounds(answers: Answers, d: string)
    requires AnswersInRange(answers)
    ensures 0.0 <= DimNorm(answers, d) <= 100.0
  {
    DimValuesInRange(answers, |QUESTIONS|, d);
    NormBounds(DimValues(answers, |QUESTIONS|, d));
  }

  /** A dimension none of whose items is answered scores raw 0 and normalised 0.0. */
  lemma {:induction false} UnansweredDim(answers: Answers, n: nat, d: string)
    requires n <= |QUESTIONS|
    requires forall i :: 0 <= i < n && QUESTIONS[i].dim == d ==> Get(answers, QUESTIONS[i].key).None?
    ensures DimValues(answers, n, d) == []
    ensures Sum(DimValues(answers, n, d)) == 0 && Norm(DimValues(answers, n, d)) == 0.0
  {
    if n > 0 {
      UnansweredDim(answers, n - 1, d);
    }
  }

  /**
   * With only the first five items answered (all of them Atencional), the
   * other two dimensions report raw 0 and normalised 0.0.
   */
  lemma FirstFiveScenario(answers: Answers)
    requires forall i :: 5 <= i < |QUESTIONS| ==> Get(answers, QUESTIONS[i].key).None?
    ensures DimRaw(answers, DIM_LIST[1]) == 0 && DimNorm(answers, DIM_LIST[1]) == 0.0
    ensures DimRaw(answers, DIM_LIST[2]) == 0 && DimNorm(answers, DIM_LIST[2]) == 0.0
  {
    DimListDistinct();
    forall i | 0 <= i < 5
      ensures QUESTIONS[i].dim == DIM_LIST[0]
    {
      ItemAt(i);
    }
    UnansweredDim(answers, |QUESTIONS|, DIM_LIST[1]);
    UnansweredDim(answers, |QUESTIONS|, DIM_LIST[2]);
  }

  /** When every recoded answer of the first n items is 4, every dimension's list is all 4s. */
  lemma {:induction false} AllMaxValues(answers: Answers, n: nat, d: string)
    requires n <= |QUESTIONS|
    requires forall i :: 0 <= i < n ==> Contribution(answers, i) == Some(4)
    ensures |DimValues(answers, n, d)| == CountDim(n, d)
    ensures Sum(DimValues(answers, n, d)) == 4 * CountDim(n, d)
  {
    if n > 0 {
      AllMaxValues(answers, n - 1, d);
      DimSumStep(answers, n, d);
      assert Contribution(answers, n - 1) == Some(4);
      assert |DimValues(answers, n, d)| == |DimValues(answers, n - 1, d)| + (if QUESTIONS[n - 1].dim == d then 1 else 0);
    }
  }

  /** Answering 4 on every direct item and 1 on every reversed item. */
  function MaxAnswers(): Answers {
    KeyIndexInverts();
    map k | k in KEY2IDX :: Some(if QUESTIONS[KEY2IDX[k]].rev then 1 else 4)
  }

  /** Under the maximal answers every item recodes to 4. */
  lemma MaxContribution(i: nat)
    requires i < |QUESTIONS|
    ensures Contribution(MaxAnswers(), i) == Some(4)
  {
    KeyIndexInverts();
    assert MaxAnswers()[QUESTIONS[i].key] == Some(if QUESTIONS[i].rev then 1 else 4);
  }

  /** The maximal answer set scores 40 per dimension, 120 in total and 100.0 on every normalised score. */
  lemma MaxScenario()
    ensures TotalRaw(MaxAnswers()) == 120
    ensures forall d :: d in DIM_LIST ==> DimRaw(MaxAnswers(), d) == 40 && DimNorm(MaxAnswers(), d) == 100.0
  {
    var a := MaxAnswers();
    forall i | 0 <= i < |QUESTIONS|
      ensures Contribution(a, i) == Some(4)
    {
      MaxContribution(i);
    }
    DimCounts();
    forall d | d in DIM_LIST
      ensures DimRaw(a, d) == 40 && DimNorm(a, d) == 100.0
    {
      AllMaxValues(a, |QUESTIONS|, d);
      assert forall k :: 0 <= k < |DimValues(a, |QUESTIONS|, d)| ==> 1 <= DimValues(a, |QUESTIONS|, d)[k] <= 4 by {
        MaxValuesInRange(a, |QUESTIONS|, d);
      }
      NormBounds(DimValues(a, |QUESTIONS|, d));
    }
    TotalIsSumOfDims(a, |QUESTIONS|);
    assert DIM_LIST[0] in DIM_LIST && DIM_LIST[1] in DIM_LIST && DIM_LIST[2] in DIM_LIST;
  }

  lemma {:induction false} MaxValuesInRange(answers: Answers, n: nat, d: string)
    requires n <= |QUESTIONS|
    requires forall i :: 0 <= i < n ==> Contribution(answers, i) == Some(4)
    ensures forall k :: 0 <= k < |DimValues(answers, n, d)| ==> DimValues(answers, n, d)[k] == 4
  {
    if n > 0 {
      MaxValuesInRange(answers, n - 1, d);
    }
  }

  /** Answering 1 ("rara vez / nunca") on every item. */
  function OnesAnswers(): Answers {
    map k | k in KEY2IDX :: Some(1)
  }

  /** Under the all-ones answers a direct item contributes 1 and a reversed one 4. */
  lemma OnesContribution(i: nat)
    requires i < |QUESTIONS|
    ensures Contribution(OnesAnswers(), i) == Some(if ReversedPosition(i) then 4 else 1)
  {
    KeyIndexInverts();
    ReversedAt(i);
  }

  /**
   * The hand count of the all-ones scenario: what block b (positions 10 * b
   * up to 10 * b + 9) collects among the first n positions, 4 for a reversed
   * position and 1 for a direct one.
   */
  ghost function OnesBlockUpTo(n: nat, b: nat): int {
    if n == 0 then 0
    else OnesBlockUpTo(n - 1, b) + (if (n - 1) / 10 == b then (if ReversedPosition(n - 1) then 4 else 1) else 0)
  }

  /** Positions outside block b add nothing to its hand count. */
  lemma {:induction false} OnesBlockOutside(n: nat, b: nat)
    ensures n <= 10 * b ==> OnesBlockUpTo(n, b) == 0
    ensures n >= 10 * b + 10 ==> OnesBlockUpTo(n, b) == OnesBlockUpTo(10 * b + 10, b)
  {
    if n > 0 {
      OnesBlockOutside(n - 1, b);
    }
  }

  // The hand count of each block, position by position.
  lemma AtencionalOnesBlock()
    ensures OnesBlockUpTo(10, 0) == 19
  {
    OnesBlockOutside(0, 0);
    assert OnesBlockUpTo(1, 0) == 1;
    assert OnesBlockUpTo(2, 0) == 2;
    assert OnesBlockUpTo(3, 0) == 3;
    assert OnesBlockUpTo(4, 0) == 4;
    assert OnesBlockUpTo(5, 0) == 8;
    assert OnesBlockUpTo(6, 0) == 12;
    assert OnesBlockUpTo(7, 0) == 13;
    assert OnesBlockUpTo(8, 0) == 14;
    assert OnesBlockUpTo(9, 0) == 15;
    assert OnesBlockUpTo(10, 0) == 19;
  }

  lemma MotoraOnesBlock()
    ensures OnesBlockUpTo(20, 1) == 19
  {
    OnesBlockOutside(10, 1);
    assert OnesBlockUpTo(11, 1) == 1;
    assert OnesBlockUpTo(12, 1) == 2;
    assert OnesBlockUpTo(13, 1) == 3;
    assert OnesBlockUpTo(14, 1) == 4;
    assert OnesBlockUpTo(15, 1) == 8;
    assert OnesBlockUpTo(16, 1) == 12;
    assert OnesBlockUpTo(17, 1) == 13;
    assert OnesBlockUpTo(18, 1) == 14;
    assert OnesBlockUpTo(19, 1) == 18;
    assert OnesBlockUpTo(20, 1) == 19;
  }

  lemma NoPlanificadaOnesBlock()
    ensures OnesBlockUpTo(30, 2) == 22
  {
    OnesBlockOutside(20, 2);
    assert OnesBlockUpTo(21, 2) == 1;
    assert OnesBlockUpTo(22, 2) == 5;
    assert OnesBlockUpTo(23, 2) == 6;
    assert OnesBlockUpTo(24, 2) == 7;
    assert OnesBlockUpTo(25, 2) == 11;
    assert OnesBlockUpTo(26, 2) == 12;
    assert OnesBlockUpTo(27, 2) == 13;
    assert OnesBlockUpTo(28, 2) == 17;
    assert OnesBlockUpTo(29, 2) == 18;
    assert OnesBlockUpTo(30, 2) == 22;
  }

  /** Under the all-ones answers, each dimension's raw sum among the first n items is the hand count of its block. */
  lemma {:induction false} OnesDimSum(n: nat, b: nat)
    requires n <= |QUESTIONS| && b < |DIM_LIST|
    ensures Sum(DimValues(OnesAnswers(), n, DIM_LIST[b])) == OnesBlockUpTo(n, b)
  {
    if n > 0 {
      OnesDimSum(n - 1, b);
      DimSumStep(OnesAnswers(), n, DIM_LIST[b]);
      OnesContribution(n - 1);
      ItemAt(n - 1);
      DimListDistinct();
    }
  }

  /**
   * Answering 1 everywhere, the reversed items recode to 4: Atencional and
   * Motora (three reversed items each) sum to 19 and No planificada (four
   * reversed items) to 22.
   */
  lemma OnesDimRaw()
    ensures DimRaw(OnesAnswers(), DIM_LIST[0]) == 19
    ensures DimRaw(OnesAnswers(), DIM_LIST[1]) == 19
    ensures DimRaw(OnesAnswers(), DIM_LIST[2]) == 22
  {
    AtencionalOnesBlock();
    MotoraOnesBlock();
    NoPlanificadaOnesBlock();
    OnesDimSum(|QUESTIONS|, 0);
    OnesDimSum(|QUESTIONS|, 1);
    OnesDimSum(|QUESTIONS|, 2);
    OnesBlockOutside(|QUESTIONS|, 0);
    OnesBlockOutside(|QUESTIONS|, 1);
    OnesBlockOutside(|QUESTIONS|, 2);
  }

  /**
   * The all-ones answer set totals 60, exactly the lower bound of the
   * moderate tier; its normalised scores are 30, 30 and 40, graded baja,
   * baja and moderada.
   */
  lemma OnesScenario()
    ensures TotalRaw(OnesAnswers()) == 60 && InterpretTotal(TotalRaw(OnesAnswers())) == Moderate
    ensures DimNorm(OnesAnswers(), DIM_LIST[0]) == 30.0 && DimNorm(OnesAnswers(), DIM_LIST[1]) == 30.0
    ensures DimNorm(OnesAnswers(), DIM_LIST[2]) == 40.0
    ensures forall b :: 0 <= b < 2 ==>
              InterpretDim(DIM_LIST[b], DimRaw(OnesAnswers(), DIM_LIST[b]), DimNorm(OnesAnswers(), DIM_LIST[b])) == Baja
    ensures InterpretDim(DIM_LIST[2], DimRaw(OnesAnswers(), DIM_LIST[2]), DimNorm(OnesAnswers(), DIM_LIST[2])) == Moderada
  {
    var a := OnesAnswers();
    OnesDimRaw();
    TotalIsSumOfDims(a, |QUESTIONS|);
    OnesComplete();
    DimCounts();
    assert DIM_LIST[0] in DIM_LIST && DIM_LIST[1] in DIM_LIST && DIM_LIST[2] in DIM_LIST;
    CompleteDimLength(a, |QUESTIONS|, DIM_LIST[0]);
    CompleteDimLength(a, |QUESTIONS|, DIM_LIST[1]);
    CompleteDimLength(a, |QUESTIONS|, DIM_LIST[2]);
    NormOfTen(DimValues(a, |QUESTIONS|, DIM_LIST[0]));
    NormOfTen(DimValues(a, |QUESTIONS|, DIM_LIST[1]));
    NormOfTen(DimValues(a, |QUESTIONS|, DIM_LIST[2]));
  }

  /** The normalised score of ten values: their sum rescaled from 10..40 to 0..100. */
  lemma NormOfTen(vals: seq<int>)
    requires |vals| == 10
    ensures Norm(vals) == (Sum(vals) - 10) as real / 30.0 * 100.0
  {
  }

  lemma OnesComplete()
    ensures Complete(OnesAnswers())
  {
    KeyIndexInverts();
  }

  // ---------------------------------------------------------------
  // Interpretation
  // ---------------------------------------------------------------

  /** The three tiers of the total; the report text of each is not modelled. */
  datatype TotalTier = LowToModerate | Moderate | Elevated

  /** The three levels of a dimension ("baja", "moderada", "alta"); the report text is not modelled. */
  datatype DimLevel = Baja | Moderada | Alta

  function TotalTierRank(t: TotalTier): nat {
    match t
    case LowToModerate => 0
    case Moderate => 1
    case Elevated => 2
  }

  function DimLevelRank(l: DimLevel): nat {
    match l
    case Baja => 0
    case Moderada => 1
    case Alta => 2
  }

  function InterpretTotal(totalRaw: int): (t: TotalTier)
    ensures t == LowToModerate <==> totalRaw < 60
    ensures t == Moderate <==> 60 <= totalRaw < 85
    ensures t == Elevated <==> 85 <= totalRaw
  {
    if totalRaw < 60 then LowToModerate
    else if 60 <= totalRaw < 85 then Moderate
    else Elevated
  }

  /** The level depends only on the normalised score. */
  function InterpretDim(dim: string, raw: int, norm: real): (l: DimLevel)
    ensures l == Baja <==> norm < 35.0
    ensures l == Moderada <==> 35.0 <= norm < 65.0
    ensures l == Alta <==> 65.0 <= norm
  {
    if norm < 35.0 then Baja
    else if 35.0 <= norm < 65.0 then Moderada
    else Alta
  }

  /** A higher total never gets a lower tier. */
  lemma InterpretTotalMonotone(a: int, b: int)
    requires a <= b
    ensures TotalTierRank(InterpretTotal(a)) <= TotalTierRank(InterpretTotal(b))
  {
  }

  /** A higher normalised score never gets a lower level. */
  lemma InterpretDimMonotone(dim: string, raw: int, x: real, y: real)
    requires x <= y
    ensures DimLevelRank(InterpretDim(dim, raw, x)) <= DimLevelRank(InterpretDim(dim, raw, y))
  {
  }
}
