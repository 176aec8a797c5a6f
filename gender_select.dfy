/** The gender selector: two options with a label and a value, the option
    whose value equals the current value shown as selected, and a press
    that reports the option's value. */
module UserGenderSelect {
  import opened Wrappers

  datatype GenderOption = GenderOption(optionLabel: string, value: string)

  const GenderOptions: seq<GenderOption> := [GenderOption("남자", "male"), GenderOption("여자", "female")]

  /** `value === option.value`; a null value selects nothing. */
  predicate IsSelected(value: Option<string>, option: GenderOption) {
    value.Some? && value.value == option.value
  }

  /** Pressing the option at `idx` calls `onChange` with its value, which is
      "male" or "female" and never null. */
  function Press(idx: nat): (v: string)
    requires idx < |GenderOptions|
    ensures v in {"male", "female"}
    ensures IsSelected(Some(v), GenderOptions[idx])
    ensures forall j :: 0 <= j < |GenderOptions| && j != idx ==> !IsSelected(Some(v), GenderOptions[j])
  {
    GenderOptions[idx].value
  }

  /** Two options whose values are "male" and "female". */
  lemma OptionValues()
    ensures |GenderOptions| == 2
    ensures GenderOptions[0].value == "male" && GenderOptions[1].value == "female"
  {
  }

  /** At most one option is shown as selected, and none for a null value. */
  lemma AtMostOneSelected(value: Option<string>, i: nat, j: nat)
    requires i < |GenderOptions| && j < |GenderOptions|
    requires IsSelected(value, GenderOptions[i]) && IsSelected(value, GenderOptions[j])
    ensures i == j
  {
  }

  lemma NoneSelectsNothing(option: GenderOption)
    ensures !IsSelected(None, option)
  {
  }

  /** Pressing the selected option again keeps it selected. */
  lemma PressSelectedKeepsIt(value: Option<string>, idx: nat)
    requires idx < |GenderOptions| && IsSelected(value, GenderOptions[idx])
    ensures Some(Press(idx)) == value
  {
  }
}
