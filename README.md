# Impulsivity questionnaire (BIS-11 style, 30 items) — Dafny model

This project models the logic of a Streamlit app that runs a 30-item,
three-dimension impulsivity questionnaire on a 4-point Likert scale. The
three dimensions are Atencional, Motora and No planificada.

The app's logic has three parts, and each is a module here:

- `Catalog` (`catalog.dfy`) holds the fixed data:
  - the item list `QUESTIONS`, each item with a key, a dimension and a reverse-scoring flag;
  - the dimension list `DIM_LIST`;
  - `KEY2IDX`, the index from key to position, built the way the dictionary comprehension builds it;
  - `LIK_MAP`, from the four Likert labels to the codes 1..4.

  Lemmas check the literal catalog: 30 items, unique keys, every dimension
  in `DIM_LIST`, ten items per dimension. They also show that `KEY2IDX`
  inverts the position of each key.
- `Scoring` (`scoring.dfy`) is the scoring engine:
  - `recode`, as the function `Recode`;
  - the two passes of `compute_scores`, as the methods `CollectValues` and
    `NormaliseDims`, proved against specification functions of the answers
    (`TotalUpTo`, `DimValues`, `Norm`), and their composition `ComputeScores`,
    whose results are `TotalRaw`, `DimRaw` and `DimNorm`;
  - the tier functions `interpret_total` and `interpret_dim`.

  Lemmas prove that the total is the sum of the three dimensions, the
  30..120 and 10..40 bounds for complete answer sets, and that every
  normalised score stays in [0, 100]. They also cover the maximal, the
  "1 on every item" and the "first five items only" scenarios, and that each
  tier rises with its score.
- `Session` (`session.dfy`) is the session state as a class. Its fields
  are `stage`, `qIdx`, `answers` and `fecha`. Its methods model
  `on_answer_change` (record the answer, then advance or finish), the start
  and restart buttons, and the score computation of the results view. The
  object invariant `Valid()` keeps `qIdx` inside the catalog. It also keeps
  the answer keys equal to the catalog keys and every answer on the codes 1..4.

`Wrappers` (`wrappers.dfy`) holds the `Option` type used for an unanswered
item (Python's `None`).

The selected radio label and the formatted current time come from the UI
framework and the clock. They are parameters of `OnAnswerChange`. `fecha`
is an optional string.

The normalised scores use Dafny `real`, which is exact rational arithmetic.

## Model

| member | source | states |
|---|---|---|
| Catalog.CatalogWellFormed | main.py:136-172 | the catalog has 30 items, no two items share a key, and every item's dimension is one of `DIM_LIST` |
| Catalog.ItemAt | main.py:136-172 | item i lies in block i / 10 of the catalog: Atencional, then Motora, then No planificada |
| Catalog.CountDimBlock | main.py:136-172 | the first n items hold min(max(n - 10b, 0), 10) items of dimension b |
| Catalog.DimCounts | main.py:136-172 | each of the three dimensions has exactly ten items |
| Catalog.DimListDistinct | main.py:125-129 | the dimension list has three distinct names |
| Catalog.IndexUpToSound | main.py:175 | the enumeration index of the first n items of any item list holds each of their keys, and every entry maps a key to a position below n holding that key |
| Catalog.IndexUpToInverts | main.py:175 | if keys are unique, the enumeration index of the first n items maps each item's key to its position and holds no other key |
| Catalog.KeyIndexInverts | main.py:175 | `KEY2IDX` has exactly the catalog keys and inverts position-to-key in both directions |
| Catalog.IndexedKey | main.py:175 | every key of `KEY2IDX` is a catalog key whose item sits at the indexed position |
| Catalog.ReversedAt | main.py:136-172 | item i is reverse-scored exactly at positions 4, 5, 9 (A5, A6, A10), 14, 15, 18 (M5, M6, M9) and 21, 24, 27, 29 (N2, N5, N8, N10) |
| Catalog.LikertBijection | main.py:178-189 | `LIK_MAP` maps the four labels, in order, one-to-one onto the codes 1, 2, 3, 4 |
| Catalog.LikertCode | main.py:184-189 | every label in `LIK_MAP` stands for a code in 1..4 |
| Scoring.Get | main.py:224 | `answers.get(key)`: a key missing from the answers reads as unanswered, otherwise the stored value is returned |
| Scoring.Recode | main.py:208-211 | an unanswered value stays unanswered and an answered one stays answered; a code in 1..4 recodes to a code in 1..4 |
| Scoring.RecodeInvolutive | main.py:208-211 | recoding twice with the same flag gives back the original value, for every value |
| Scoring.RecodeReversesOrder | main.py:208-211 | on 1..4, a direct item keeps its code and a reversed item reverses the order of codes |
| Scoring.CollectValues | main.py:220-229 | the first pass returns the total of the recoded answered values and, for each dimension of `DIM_LIST`, exactly that dimension's recoded answered values in catalog order; unanswered items are skipped |
| Scoring.TotalUpTo | main.py:221-226 | the running total over the first n items: the sum of the recoded answers of the answered ones, unanswered items skipped; `CollectValues` is proved to compute it |
| Scoring.DimValues | main.py:220-229 | the list of dimension d over the first n items: the recoded answers of its answered items in catalog order; `CollectValues` is proved to compute it |
| Scoring.Normalise | main.py:237-242 | the rescaling formula is 0.0 when the maximum does not exceed the minimum; otherwise it lies in [0, 100] for a raw value between the two, and is 0.0 exactly at the minimum and 100.0 exactly at the maximum |
| Scoring.Norm | main.py:232-242 | the score of an empty list is 0.0, and the score of a list of codes 1..4 lies in [0, 100] |
| Scoring.NormaliseDims | main.py:232-242 | the second pass gives each dimension of `DIM_LIST` the score `Norm` of its values: 0.0 for no values, otherwise the sum rescaled between 1·n and 4·n |
| Scoring.ComputeScores | main.py:213-244 | the result is the raw total, the raw sum of every dimension and its normalised score; both maps are keyed by exactly `DIM_LIST`, and the total equals the sum of the three raw sums |
| Scoring.TotalIsSumOfDims | main.py:221-231 | every answered item adds to the total and to its own dimension only, so the total is the sum of the three dimension sums |
| Scoring.DimValuesAppend | main.py:228-229 | appending an answered item's recoded value to its own dimension's list takes every dimension's list from i items to i + 1 items |
| Scoring.DimSumStep | main.py:227-229 | one more item adds its recoded answer, if any, to its own dimension's sum and to no other |
| Scoring.DimValuesInRange | main.py:223-229 | when all answers are codes 1..4, every recorded value of a dimension is in 1..4 |
| Scoring.CompleteDimLength | main.py:223-229 | when every item is answered, a dimension has one value per item of that dimension |
| Scoring.DimLengthAtMostCount | main.py:223-229 | a dimension never has more values than it has items |
| Scoring.CompleteBounds | main.py:216-231 | when all 30 items are answered with codes 1..4, each dimension's raw sum is in 10..40 and the total is in 30..120 |
| Scoring.PartialTotalBounds | main.py:221-231 | with any subset of items answered with codes 1..4, the total is in 0..120 |
| Scoring.NormBounds | main.py:232-242 | on codes 1..4 the normalised score is in [0, 100]; it is 0.0 exactly when every value is at the minimum and 100.0 exactly when every value is at the maximum |
| Scoring.NormalisedRange | main.py:242 | a raw value between the least and the greatest possible value rescales into [0, 100], reaching 0 and 100 only at those extremes |
| Scoring.DimNormBounds | main.py:232-242 | when all answers are codes 1..4, every dimension's normalised score is in [0, 100] |
| Scoring.UnansweredDim | main.py:223-236 | a dimension with no answered item has no values, raw 0 and normalised 0.0 |
| Scoring.FirstFiveScenario | main.py:223-236 | with only the first five items answered, Motora and No planificada report raw 0 and normalised 0.0 |
| Scoring.AllMaxValues | main.py:223-231 | if every one of the first n items is answered and recodes to 4, each dimension has one value per item and its sum is 4 times its item count |
| Scoring.MaxValuesInRange | main.py:223-229 | if every item recodes to 4, every value in a dimension's list is 4 |
| Scoring.MaxContribution | main.py:208-211 | under the maximal answer set every item recodes to 4 |
| Scoring.MaxScenario | main.py:216-242 | answering 4 on every direct item and 1 on every reversed item gives 40 per dimension, a total of 120 and 100.0 on every normalised score |
| Scoring.OnesContribution | main.py:208-211 | under the all-ones answer set a direct item contributes 1 and a reversed item 4 |
| Scoring.OnesBlockOutside | main.py:136-172 | in the hand count of the all-ones scenario, positions outside a dimension's block of ten add nothing |
| Scoring.OnesDimSum | main.py:223-231 | under the all-ones answer set each dimension's raw sum over the first n items equals the hand count of its block of ten |
| Scoring.OnesDimRaw | main.py:223-231 | answering 1 on every item gives raw sums 19 (Atencional, three reversed items), 19 (Motora, three) and 22 (No planificada, four) |
| Scoring.OnesScenario | main.py:216-253 | answering 1 on every item gives a total of 60, which is the lower bound of the moderate tier, and normalised scores 30, 30 and 40, graded baja, baja and moderada |
| Scoring.InterpretTotal | main.py:246-253 | every total falls in exactly one tier: below 60, from 60 up to but not including 85, or 85 and above |
| Scoring.InterpretDim | main.py:255-265 | every normalised score falls in exactly one level: baja below 35, moderada from 35 up to but not including 65, alta at 65 and above |
| Scoring.InterpretTotalMonotone | main.py:248-253 | a higher total never gets a lower tier |
| Scoring.InterpretDimMonotone | main.py:256-264 | a higher normalised score never gets a lower level |
| Session.BlankAnswers | main.py:199 | the reset answer set has exactly the catalog keys, all unanswered, and scores a total of 0 |
| Session.Session.constructor | main.py:194-201 | the initial state is stage `inicio`, index 0, every answer unanswered and no date; the invariant holds |
| Session.Session.CurrentItem | main.py:352-353 | the item the test view shows is `QUESTIONS[q_idx]`, its key indexes back to `q_idx`, and it has an answer slot |
| Session.Session.OnAnswerChange | main.py:270-287 | with no label selected nothing changes. Otherwise the answer for the key becomes the label's code (in 1..4) and every other answer is unchanged. Before the last item the index becomes the key's position + 1 and the stage `test`. On the last item the stage becomes `resultados`, the date is set and the index is unchanged. The invariant is kept |
| Session.Session.Start | main.py:344-349 | the start button sets stage `test`, index 0, every catalog key unanswered and the date cleared |
| Session.Session.Restart | main.py:461-466 | the restart button does the same reset, but the stage goes back to `inicio` |
| Session.Session.Results | main.py:394-450 | the results view computes the raw total, every dimension's raw sum and normalised score of the session's answers, with the total equal to the three raw sums; it also gives the tier of the total and the level of each dimension. On a valid session the total is in 0..120 and every normalised score is in [0, 100] |

## Left out

- Page rendering is not modelled: CSS, HTML, progress bar, radio, columns, buttons and page configuration. It is UI done through framework calls, and the view dispatch (main.py:471-476) only picks one of the views.
- The `_needs_rerun` flag and `st.rerun()` (main.py:202-203, 287, 479-481) are the framework's re-render loop. They carry no logic.
- `datetime.now().strftime(...)` is clock I/O. The formatted date is a parameter of `OnAnswerChange`. The results view's fallback that stamps the date when it is still missing (main.py:391-392) is not modelled.
- The statement text of each item, the dimension descriptions of `DIMENSIONES` and the report sentences returned by `interpret_total` and `interpret_dim` are left out. They are display strings. The tiers are datatypes, whose constructors name the levels of the source.
- Floating-point rounding of the normalised scores and their one-decimal display are not modelled. The scores are exact reals.
- The `numpy` import is never used.
- The preselection of the previous answer on the radio (main.py:372-377) is view-only.
- The label read by `on_answer_change` is always one of the radio's options. `OnAnswerChange` therefore requires the label to be in `LIK_MAP` and the key to be in `KEY2IDX`; the source would raise `KeyError` otherwise.
- Scoring.Recode: its contract does not spell out `5 - v`. That value follows from `RecodeInvolutive` and `RecodeReversesOrder`, which fix the reversed recoding on 1..4.
- The single `compute_scores` function is modelled as two methods with one loop each, `CollectValues` and `NormaliseDims`, called in sequence.
