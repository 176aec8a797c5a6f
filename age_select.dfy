/** The age-group selector: four fixed options, the one equal to the
    current value shown as selected, and a press that reports its option. */
module UserAgeSelect {
  import opened Wrappers

  const AgeOptions: seq<string> := ["10대", "20대", "30대", "40대 이상"]

  /** `value === option`; a null value selects nothing. */
  predicate IsSelected(value: Option<string>, option: string) {
    value == Some(option)
  }

  /** Pressing the option at `idx` calls `onChange` with that option; the
      value it reports is never null. */
  function Press(idx: nat): (v: Option<string>)
    requires idx < |AgeOptions|
    ensures v.Some? && v.value == AgeOptions[idx]
    ensures IsSelected(v, AgeOptions[idx])
    ensures forall j :: 0 <= j < |AgeOptions| && j != idx ==> !IsSelected(v, AgeOptions[j])
  {
    OptionsDistinct();
    Some(AgeOptions[idx])
  }

  /** Four distinct options, in display order. */
  lemma OptionsDistinct()
    ensures |AgeOptions| == 4
    ensures forall i, j :: 0 <= i < j < |AgeOptions| ==> AgeOptions[i] != AgeOptions[j]
  {
  }

  /** At most one option is shown as selected, and none for a null value. */
  lemma AtMostOneSelected(value: Option<string>, i: nat, j: nat)
    requires i < |AgeOptions| && j < |AgeOptions|
    requires IsSelected(value, AgeOptions[i]) && IsSelected(value, AgeOptions[j])
    ensures i == j
  {
    OptionsDistinct();
  }

  lemma NoneSelectsNothing(option: string)
    ensures !IsSelected(None, option)
  {
  }

  /** Pressing the selected option again keeps it selected: there is no
      deselection. */
  lemma PressSelectedKeepsIt(value: Option<string>, idx: nat)
    requires idx < |AgeOptions| && IsSelected(value, AgeOptions[idx])
    ensures Press(idx) == value
  {
  }
}
