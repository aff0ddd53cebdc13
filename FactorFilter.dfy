// components/predict/FactorFilterPanel.tsx: the factor checkboxes, the
// toggle that adds or removes a factor, and the checked state.

module FactorFilter {
  import Seqs

  datatype FactorGroup = FactorGroup(category: string, factors: seq<string>)

  /** `FACTOR_GROUPS`: the factors offered, by category. */
  const FactorGroups: seq<FactorGroup> := [
    FactorGroup("가치 팩터", ["PBR", "PER", "PSR", "POR", "시가총액", "EV (기업가치 - 시가총액 + 순부채)"]),
    FactorGroup("퀄리티 팩터", ["ROE", "ROA", "변동성", "F-score"]),
    FactorGroup("가격관련 팩터", ["1개월 모멘텀", "3개월 모멘텀", "6개월 모멘텀", "RSI(9)", "RSI(15)", "RSI(30)"])
  ]

  /** The test `filter((f) => f !== factor)` applies. */
  function Other(factor: string): string -> bool
  {
    (f: string) => f != factor
  }

  /** `checked={selectedFactors.includes(factor)}`. */
  predicate Checked(selected: seq<string>, factor: string)
  {
    factor in selected
  }

  /** `toggleFactor`: the new selection handed to `setSelectedFactors`. */
  function Toggle(selected: seq<string>, factor: string): (r: seq<string>)
    ensures Checked(selected, factor) ==> r == Seqs.Filter(selected, Other(factor))
    ensures !Checked(selected, factor) ==> r == selected + [factor]
  {
    if factor in selected then Seqs.Filter(selected, Other(factor)) else selected + [factor]
  }

  /** A toggle flips the checkbox of that factor and of no other; a
      newly selected factor comes last, after the selection unchanged. */
  lemma ToggleFlips(selected: seq<string>, factor: string, g: string)
    ensures Checked(Toggle(selected, factor), factor) <==> !Checked(selected, factor)
    ensures g != factor ==> (Checked(Toggle(selected, factor), g) <==> Checked(selected, g))
    ensures !Checked(selected, factor) ==>
      |Toggle(selected, factor)| == |selected| + 1 && Toggle(selected, factor)[|selected|] == factor
      && Toggle(selected, factor)[..|selected|] == selected
    ensures Checked(selected, factor) ==> |Toggle(selected, factor)| < |selected|
  {
    Seqs.FilterMembers(selected, Other(factor), factor);
    Seqs.FilterMembers(selected, Other(factor), g);
    if factor in selected {
      Seqs.FilterShorter(selected, Other(factor), factor);
    }
  }

  /** The other factors keep their order: dropping the toggled factor from
      the selection before and after gives the same list. */
  lemma ToggleKeepsOthers(selected: seq<string>, factor: string)
    ensures Seqs.Filter(Toggle(selected, factor), Other(factor)) == Seqs.Filter(selected, Other(factor))
  {
    if factor in selected {
      Seqs.FilterTwice(selected, Other(factor));
    } else {
      Seqs.FilterAppend(selected, [factor], Other(factor));
      assert Seqs.Filter([factor], Other(factor)) == [];
    }
  }

  /** Selecting an unselected factor and unselecting it again restores
      the selection. */
  lemma ToggleTwice(selected: seq<string>, factor: string)
    requires !Checked(selected, factor)
    ensures Toggle(Toggle(selected, factor), factor) == selected
  {
    Seqs.FilterAppend(selected, [factor], Other(factor));
    assert Seqs.Filter([factor], Other(factor)) == [];
    Seqs.FilterAll(selected, Other(factor));
  }

  /** A selection without repeats stays without repeats. */
  lemma ToggleDistinct(selected: seq<string>, factor: string)
    requires Seqs.Distinct(selected)
    ensures Seqs.Distinct(Toggle(selected, factor))
  {
    if factor in selected {
      Seqs.FilterDistinct(selected, Other(factor));
    } else {
      Seqs.DistinctAppend(selected, factor);
    }
  }
}
