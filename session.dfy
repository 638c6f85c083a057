/**
 * The session state of main.py: the stage ("inicio", "test", "resultados"),
 * the current item index, the answers by key and the completion date, with
 * the auto-advance answer callback and the start and restart resets.
 */
module Session {
  import opened Wrappers
  import opened Catalog
  import opened Scoring

  datatype Stage = Inicio | Test | Resultados

  /** Every catalog key, unanswered. */
  function BlankAnswers(): (m: Answers)
    ensures m.Keys == QuestionKeys()
    ensures forall k :: k in m ==> m[k] == None
    ensures TotalRaw(m) == 0
  {
    var m := map k | k in QuestionKeys() :: None;
    BlankScoresZero(m, |QUESTIONS|);
    m
  }

  lemma {:induction false} BlankScoresZero(m: Answers, n: nat)
    requires n <= |QUESTIONS|
    requires forall k :: k in m ==> m[k] == None
    ensures TotalUpTo(m, n) == 0
  {
    if n > 0 {
      BlankScoresZero(m, n - 1);
    }
  }

  class Session {
    var stage: Stage
    var qIdx: int
    var answers: Answers
    /** The formatted completion date; the clock reading is supplied by the caller. */
    var fecha: Option<string>

    /** The index stays on an item, the answers hold exactly the catalog keys, all on the Likert codes. */
    ghost predicate Valid()
      reads this
    {
      && 0 <= qIdx < |QUESTIONS|
      && answers.Keys == QuestionKeys()
      && AnswersInRange(answers)
    }

    /** The initial session state. */
    constructor ()
      ensures Valid()
      ensures stage == Inicio && qIdx == 0 && answers == BlankAnswers() && fecha == None
    {
      stage := Inicio;
      qIdx := 0;
      answers := BlankAnswers();
      fecha := None;
    }

    /** The item the test view shows; its key leads back to the current index. */
    function CurrentItem(): (q: Item)
      reads this
      requires Valid()
      ensures q == QUESTIONS[qIdx]
      ensures q.key in KEY2IDX && KEY2IDX[q.key] == qIdx
      ensures q.key in answers
    {
      KeyIndexInverts();
      QUESTIONS[qIdx]
    }

    /**
     * The auto-advance callback for item qkey, given the label selected on its
     * radio (None if nothing is selected) and the formatted current time.
     * The position comes from the key, not from the current index.
     */
    method OnAnswerChange(qkey: string, selected: Option<string>, now: string)
      requires Valid()
      requires qkey in KEY2IDX
      requires selected.Some? ==> selected.value in LIK_MAP
      modifies this
      ensures Valid()
      ensures selected.None? ==> stage == old(stage) && qIdx == old(qIdx) && answers == old(answers) && fecha == old(fecha)
      ensures selected.Some? ==> answers == old(answers)[qkey := Some(LIK_MAP[selected.value])]
      ensures selected.Some? ==> answers[qkey].Some? && 1 <= answers[qkey].value <= 4
      ensures selected.Some? && KEY2IDX[qkey] < |QUESTIONS| - 1 ==>
                qIdx == KEY2IDX[qkey] + 1 && stage == Test && fecha == old(fecha)
      ensures selected.Some? && KEY2IDX[qkey] == |QUESTIONS| - 1 ==>
                qIdx == old(qIdx) && stage == Resultados && fecha == Some(now)
    {
      if selected.None? {
        return;
      }
      IndexedKey(qkey);
      LikertCode(selected.value);
      answers := answers[qkey := Some(LIK_MAP[selected.value])];

      var idx := KEY2IDX[qkey];
      if idx < |QUESTIONS| - 1 {
        qIdx := idx + 1;
        stage := Test;
      } else {
        stage := Resultados;
        fecha := Some(now);
      }
    }

    /** The start button of the opening view: a fresh evaluation at the first item. */
    method Start()
      modifies this
      ensures Valid()
      ensures stage == Test && qIdx == 0 && answers == BlankAnswers() && fecha == None
    {
      stage := Test;
      qIdx := 0;
      answers := BlankAnswers();
      fecha := None;
    }

    /** The restart button of the results view: the same reset, back to the opening view. */
    method Restart()
      modifies this
      ensures Valid()
      ensures stage == Inicio && qIdx == 0 && answers == BlankAnswers() && fecha == None
    {
      stage := Inicio;
      qIdx := 0;
      answers := BlankAnswers();
      fecha := None;
    }

    /**
     * What the results view computes from the session's answers: the raw
     * total and the raw and normalised score of each dimension, the tier of
     * the total and the level of each dimension. Every answer
     * being a Likert code, the total is within 0..120 and every normalised
     * score within [0, 100].
     */
    method Results() returns (totalRaw: int, dimRaw: map<string, int>, dimNorm: map<string, real>,
                              tier: TotalTier, levels: map<string, DimLevel>)
      requires Valid()
      ensures totalRaw == TotalRaw(answers) && tier == InterpretTotal(totalRaw)
      ensures forall d :: d in dimNorm <==> d in DIM_LIST
      ensures forall d :: d in levels <==> d in DIM_LIST
      ensures forall d :: d in dimRaw <==> d in DIM_LIST
      ensures forall d :: d in dimRaw ==> dimRaw[d] == DimRaw(answers, d)
      ensures totalRaw == dimRaw[DIM_LIST[0]] + dimRaw[DIM_LIST[1]] + dimRaw[DIM_LIST[2]]
      ensures forall d :: d in dimNorm ==> dimNorm[d] == DimNorm(answers, d) && 0.0 <= dimNorm[d] <= 100.0
      ensures forall d :: d in levels ==> levels[d] == InterpretDim(d, dimRaw[d], dimNorm[d])
      ensures 0 <= totalRaw <= 120
    {
      totalRaw, dimRaw, dimNorm := ComputeScores(answers);
      tier := InterpretTotal(totalRaw);
      levels := map d | d in DIM_LIST :: InterpretDim(d, dimRaw[d], dimNorm[d]);
      PartialTotalBounds(answers);
      forall d | d in DIM_LIST
        ensures 0.0 <= DimNorm(answers, d) <= 100.0
      {
        DimNormBounds(answers, d);
      }
    }
  }
}
