/** The custom-hobby input: one text field, and an add button that hands the
    trimmed text to `onAdd` and clears the field, unless the text is blank. */
module UserHobbyInput {
  import opened Wrappers
  import JsText

  class HobbyInput {
    /** The `input` state field. */
    var input: string

    constructor()
      ensures input == ""
    {
      input := "";
    }

    /** `onChangeText={setInput}`. */
    method SetInput(text: string)
      modifies this
      ensures input == text
    {
      input := text;
    }

    /** `handleAdd`: the value passed to `onAdd`, if it is called. */
    method HandleAdd() returns (added: Option<string>)
      modifies this
      ensures JsText.Trim(old(input)) != "" ==> added == Some(JsText.Trim(old(input))) && input == ""
      ensures JsText.Trim(old(input)) == "" ==> added == None && input == old(input)
    {
      var trimmed := JsText.Trim(input);
      if trimmed != "" {
        added := Some(trimmed);
        input := "";
      } else {
        added := None;
      }
    }
  }

  /** What `onAdd` receives is non-empty, starts and ends with a non-space,
      and is the typed text with only blank characters taken off either end. */
  lemma AddedIsTrimmed(text: string)
    requires JsText.Trim(text) != ""
    ensures var t := JsText.Trim(text);
      && !JsText.IsJsSpace(t[0]) && !JsText.IsJsSpace(t[|t| - 1])
      && exists i, j :: 0 <= i <= j <= |text| && t == text[i..j]
                        && JsText.AllSpace(text[..i]) && JsText.AllSpace(text[j..])
  {
    JsText.TrimShape(text);
    var a := JsText.TrimOffset(text);
    assert 0 <= a <= a + |JsText.Trim(text)| <= |text|;
  }

  /** `onAdd` is called exactly when the text is not blank. */
  lemma AddsUnlessBlank(text: string)
    ensures JsText.Trim(text) != "" <==> !JsText.AllSpace(text)
  {
    JsText.TrimEmptyIffAllSpace(text);
  }

  /** Typing a text and pressing the button twice: the first press reports
      the trimmed text when there is one, and the second press, on the
      cleared field, reports nothing. */
  method AddTwice(text: string) returns (first: Option<string>, second: Option<string>)
    ensures JsText.AllSpace(text) <==> first == None
    ensures first.Some? ==> first.value == JsText.Trim(text)
    ensures first.Some? ==> second == None
  {
    var field := new HobbyInput();
    field.SetInput(text);
    first := field.HandleAdd();
    JsText.TrimEmptyIffAllSpace(text);
    second := field.HandleAdd();
    JsText.TrimEmptyIffAllSpace("");
  }
}
