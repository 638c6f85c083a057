/**
 * The fixed questionnaire definition of main.py: the three dimensions, the
 * 30 items (key, dimension, reverse-scoring flag), the key-to-position index
 * and the map from the four Likert labels to the codes 1..4.
 */
module Catalog {

  /** One questionnaire item. Its statement text is display-only and not modelled. */
  datatype Item = Item(key: string, dim: string, rev: bool)

  /** The dimension names, in the declaration order of the dimension catalog. */
  const DIM_LIST: seq<string> := ["Atencional", "Motora", "No planificada"]

  const QUESTIONS: seq<Item> := [
    // Atencional (10)
    Item("A1", "Atencional", false), Item("A2", "Atencional", false),
    Item("A3", "Atencional", false), Item("A4", "Atencional", false),
    Item("A5", "Atencional", true), Item("A6", "Atencional", true),
    Item("A7", "Atencional", false), Item("A8", "Atencional", false),
    Item("A9", "Atencional", false), Item("A10", "Atencional", true),
    // Motora (10)
    Item("M1", "Motora", false), Item("M2", "Motora", false),
    Item("M3", "Motora", false), Item("M4", "Motora", false),
    Item("M5", "Motora", true), Item("M6", "Motora", true),
    Item("M7", "Motora", false), Item("M8", "Motora", false),
    Item("M9", "Motora", true), Item("M10", "Motora", false),
    // No planificada (10)
    Item("N1", "No planificada", false), Item("N2", "No planificada", true),
    Item("N3", "No planificada", false), Item("N4", "No planificada", false),
    Item("N5", "No planificada", true), Item("N6", "No planificada", false),
    Item("N7", "No planificada", false), Item("N8", "No planificada", true),
    Item("N9", "No planificada", false), Item("N10", "No planificada", true)
  ]

  const LIK_LABELS: seq<string> := [
    "1 - Rara vez / nunca",
    "2 - A veces",
    "3 - A menudo",
    "4 - Casi siempre / siempre"
  ]

  const LIK_MAP: map<string, int> := map[
    LIK_LABELS[0] := 1,
    LIK_LABELS[1] := 2,
    LIK_LABELS[2] := 3,
    LIK_LABELS[3] := 4
  ]

  /**
   * The key index built by enumerating the first n items in order; a later
   * item with the same key overwrites an earlier one, as in a dictionary
   * comprehension.
   */
  function IndexUpTo(qs: seq<Item>, n: nat): map<string, nat>
    requires n <= |qs|
  {
    if n == 0 then map[] else IndexUpTo(qs, n - 1)[qs[n - 1].key := n - 1]
  }

  const KEY2IDX: map<string, nat> := IndexUpTo(QUESTIONS, |QUESTIONS|)

  /** The keys of the catalog. */
  function QuestionKeys(): set<string> {
    set i | 0 <= i < |QUESTIONS| :: QUESTIONS[i].key
  }

  ghost predicate UniqueKeys(qs: seq<Item>) {
    forall i, j :: 0 <= i < j < |qs| ==> qs[i].key != qs[j].key
  }

  /** Number of items of dimension d among the first n. */
  function CountDim(n: nat, d: string): nat
    requires n <= |QUESTIONS|
  {
    if n == 0 then 0 else CountDim(n - 1, d) + (if QUESTIONS[n - 1].dim == d then 1 else 0)
  }

  // ---------------------------------------------------------------
  // Checking the literal catalog
  // ---------------------------------------------------------------

  /**
   * The position a key has under the catalog's naming scheme: block letter
   * A, M or N (ten items each), then the item number 1..10. Used only to show
   * that no two items share a key.
   */
  ghost function KeyRank(k: string): int {
    if |k| < 2 then -1
    else
      (if k[0] == 'A' then 0 else if k[0] == 'M' then 10 else 20)
      + (if |k| == 3 then 10 else k[1] as int - '0' as int) - 1
  }

  /** The positions of the reverse-scored items, counted from 0: A5, A6, A10, M5, M6, M9, N2, N5, N8 and N10. */
  ghost predicate ReversedPosition(i: nat) {
    i == 4 || i == 5 || i == 9 || i == 14 || i == 15 || i == 18 || i == 21 || i == 24 || i == 27 || i == 29
  }

  /** What is checked of item i: its key ranks at i and its dimension is that of its block. */
  ghost predicate ItemChecked(i: nat)
    requires i < |QUESTIONS|
  {
    KeyRank(QUESTIONS[i].key) == i && QUESTIONS[i].dim == DIM_LIST[i / 10]
  }

  // One lemma per block of ten: the solver checks the items of the block case by case.
  lemma AtencionalBlockChecked(i: nat)
    requires i < 10
    ensures ItemChecked(i)
  {
  }

  lemma MotoraBlockChecked(i: nat)
    requires 10 <= i < 20
    ensures ItemChecked(i)
  {
  }

  lemma NoPlanificadaBlockChecked(i: nat)
    requires 20 <= i < |QUESTIONS|
    ensures ItemChecked(i)
  {
  }

  /** Item i is reverse-scored exactly at the positions ReversedPosition names, checked block by block. */
  lemma ReversedAt(i: nat)
    requires i < |QUESTIONS|
    ensures QUESTIONS[i].rev <==> ReversedPosition(i)
  {
    if i < 10 {
      assert QUESTIONS[i].rev <==> ReversedPosition(i);
    } else if i < 20 {
      assert QUESTIONS[i].rev <==> ReversedPosition(i);
    } else {
      assert QUESTIONS[i].rev <==> ReversedPosition(i);
    }
  }

  /** Item i has rank i and belongs to the block of its position. */
  lemma ItemAt(i: nat)
    requires i < |QUESTIONS|
    ensures KeyRank(QUESTIONS[i].key) == i
    ensures QUESTIONS[i].dim == DIM_LIST[i / 10]
  {
    if i < 10 {
      AtencionalBlockChecked(i);
    } else if i < 20 {
      MotoraBlockChecked(i);
    } else {
      NoPlanificadaBlockChecked(i);
    }
  }

  // ---------------------------------------------------------------
  // Well-formedness of the catalog
  // ---------------------------------------------------------------

  /** The dimension list has three distinct names. */
  lemma DimListDistinct()
    ensures |DIM_LIST| == 3
    ensures forall i, j :: 0 <= i < j < |DIM_LIST| ==> DIM_LIST[i] != DIM_LIST[j]
  {
  }

  /** 30 items, no two with the same key, every dimension one of DIM_LIST. */
  lemma CatalogWellFormed()
    ensures |QUESTIONS| == 30
    ensures UniqueKeys(QUESTIONS)
    ensures forall i :: 0 <= i < |QUESTIONS| ==> QUESTIONS[i].dim in DIM_LIST
  {
    forall i | 0 <= i < |QUESTIONS|
      ensures QUESTIONS[i].dim in DIM_LIST
    {
      ItemAt(i);
    }
    forall i, j | 0 <= i < j < |QUESTIONS|
      ensures QUESTIONS[i].key != QUESTIONS[j].key
    {
      ItemAt(i);
      ItemAt(j);
    }
  }

  /** Every item's dimension is a key of the per-dimension tables. */
  lemma DimInList(i: nat)
    requires i < |QUESTIONS|
    ensures QUESTIONS[i].dim in DIM_LIST
  {
    ItemAt(i);
  }

  /** The first n items hold min(max(n - 10b, 0), 10) items of dimension b. */
  lemma {:induction false} CountDimBlock(n: nat, b: nat)
    requires n <= |QUESTIONS|
    requires b < |DIM_LIST|
    ensures CountDim(n, DIM_LIST[b]) == if n <= 10 * b then 0 else if n >= 10 * b + 10 then 10 else n - 10 * b
  {
    if n > 0 {
      CountDimBlock(n - 1, b);
      ItemAt(n - 1);
      DimListDistinct();
    }
  }

  /** Each dimension has ten items. */
  lemma DimCounts()
    ensures forall d :: d in DIM_LIST ==> CountDim(|QUESTIONS|, d) == 10
  {
    forall d | d in DIM_LIST
      ensures CountDim(|QUESTIONS|, d) == 10
    {
      var b :| 0 <= b < |DIM_LIST| && DIM_LIST[b] == d;
      CountDimBlock(|QUESTIONS|, b);
    }
  }

  /** Every entry of the enumeration index of the first n items names a position holding its key. */
  lemma {:induction false} IndexUpToSound(qs: seq<Item>, n: nat)
    requires n <= |qs|
    ensures forall i :: 0 <= i < n ==> qs[i].key in IndexUpTo(qs, n)
    ensures forall k :: k in IndexUpTo(qs, n) ==> IndexUpTo(qs, n)[k] < n && qs[IndexUpTo(qs, n)[k]].key == k
  {
    if n > 0 {
      IndexUpToSound(qs, n - 1);
    }
  }

  /**
   * The enumeration index maps each of the first n keys to its position and
   * holds nothing else, given that keys are unique.
   */
  lemma {:induction false} IndexUpToInverts(qs: seq<Item>, n: nat)
    requires n <= |qs|
    requires UniqueKeys(qs)
    ensures forall i :: 0 <= i < n ==> qs[i].key in IndexUpTo(qs, n) && IndexUpTo(qs, n)[qs[i].key] == i
    ensures forall k :: k in IndexUpTo(qs, n) ==> IndexUpTo(qs, n)[k] < n && qs[IndexUpTo(qs, n)[k]].key == k
  {
    IndexUpToSound(qs, n);
    if n > 0 {
      IndexUpToInverts(qs, n - 1);
      forall i | 0 <= i < n - 1
        ensures IndexUpTo(qs, n)[qs[i].key] == i
      {
        assert qs[i].key != qs[n - 1].key;
      }
    }
  }

  /** KEY2IDX is the inverse of the position-to-key function over the whole catalog. */
  lemma KeyIndexInverts()
    ensures KEY2IDX.Keys == QuestionKeys()
    ensures forall i :: 0 <= i < |QUESTIONS| ==> QUESTIONS[i].key in KEY2IDX && KEY2IDX[QUESTIONS[i].key] == i
    ensures forall k :: k in KEY2IDX ==> KEY2IDX[k] < |QUESTIONS| && QUESTIONS[KEY2IDX[k]].key == k
  {
    CatalogWellFormed();
    IndexUpToInverts(QUESTIONS, |QUESTIONS|);
    forall k | k in KEY2IDX
      ensures k in QuestionKeys()
    {
      var i := KEY2IDX[k];
      assert QUESTIONS[i].key == k;
    }
  }

  /** A key of the index is a catalog key and indexes a position of the catalog. */
  lemma IndexedKey(k: string)
    requires k in KEY2IDX
    ensures k in QuestionKeys() && KEY2IDX[k] < |QUESTIONS| && QUESTIONS[KEY2IDX[k]].key == k
  {
    KeyIndexInverts();
  }

  /** A label of LIK_MAP stands for one of the codes 1..4. */
  lemma LikertCode(lab: string)
    requires lab in LIK_MAP
    ensures 1 <= LIK_MAP[lab] <= 4
  {
  }

  /** LIK_MAP is a bijection from the four labels onto the codes 1..4, in label order. */
  lemma LikertBijection()
    ensures LIK_MAP.Keys == set l | l in LIK_LABELS
    ensures forall i :: 0 <= i < |LIK_LABELS| ==> LIK_MAP[LIK_LABELS[i]] == i + 1
    ensures forall l :: l in LIK_MAP ==> 1 <= LIK_MAP[l] <= 4
    ensures forall l, m :: l in LIK_MAP && m in LIK_MAP && l != m ==> LIK_MAP[l] != LIK_MAP[m]
    ensures LIK_MAP.Values == {1, 2, 3, 4}
  {
  }
}
