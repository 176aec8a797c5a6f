/** The signup screen's state, its completeness check `isEmpty` (which
    drives the warning line) and the updates its selectors make. */
module Signup {
  import opened Wrappers
  import JsText
  import MbtiSelect
  import HobbySelect
  import UserInfoForm

  const WarningText := "*입력되지 않은 정보가 있습니다"

  /** The screen's input state (the two show-password flags are left out). */
  datatype SignupState = SignupState(
    name: string, email: string, password: string, passwordCheck: string,
    gender: Option<string>, mbti: string, hobbies: seq<string>,
    input: string, age: Option<string>)

  /** The initial state as the screen writes it: the MBTI value starts
      empty rather than at the default type. */
  const InitialAsWritten := SignupState("", "", "", "", None, "", [], "", None)

  /** The initial state with the MBTI value at the default type, as the
      extra-information form starts it; the rest of this model uses it. */
  const Initial := InitialAsWritten.(mbti := UserInfoForm.DefaultMbti)

  /** `isEmpty`: a required text is blank, no gender is chosen, the MBTI is
      still the default type, or no hobby is chosen. */
  predicate IsEmpty(s: SignupState) {
    || JsText.Trim(s.email) == ""
    || JsText.Trim(s.password) == ""
    || JsText.Trim(s.passwordCheck) == ""
    || s.gender == None
    || s.mbti == UserInfoForm.DefaultMbti
    || s.hobbies == []
  }

  /** The warning line under the form. */
  function Warning(s: SignupState): (w: Option<string>)
    ensures w.Some? <==> IsEmpty(s)
    ensures w.Some? ==> w.value == WarningText
  {
    if IsEmpty(s) then Some(WarningText) else None
  }

  /** `isEmpty` does not look at the name, the age or the typed hobby, and
      does not compare the two passwords. */
  lemma IsEmptyIgnores(s: SignupState, name: string, age: Option<string>, input: string, check: string)
    requires JsText.Trim(check) != "" <==> JsText.Trim(s.passwordCheck) != ""
    ensures IsEmpty(s.(name := name, age := age, input := input, passwordCheck := check)) == IsEmpty(s)
  {
  }

  /** Every required text starts with a visible character, a gender and a
      hobby are chosen. */
  predicate Filled(s: SignupState) {
    && s.email != [] && !JsText.IsJsSpace(s.email[0])
    && s.password != [] && !JsText.IsJsSpace(s.password[0])
    && s.passwordCheck != [] && !JsText.IsJsSpace(s.passwordCheck[0])
    && s.gender.Some? && s.hobbies != []
  }

  /** A filled-in form whose MBTI was changed from the default type is not
      reported as incomplete, even when the two passwords differ. */
  lemma MismatchedPasswordsPass(s: SignupState)
    requires Filled(s) && s.mbti != UserInfoForm.DefaultMbti
    requires s.password != s.passwordCheck
    ensures !IsEmpty(s)
  {
    FilledText(s.email);
    FilledText(s.password);
    FilledText(s.passwordCheck);
  }

  /** A text that starts with a visible character is not blank. */
  lemma FilledText(text: string)
    requires text != [] && !JsText.IsJsSpace(text[0])
    ensures JsText.Trim(text) != ""
  {
    JsText.TrimEmptyIffAllSpace(text);
  }

  /** `isEmpty` holds in the initial state, and the warning is shown. */
  lemma InitialIsEmpty()
    ensures IsEmpty(Initial) && IsEmpty(InitialAsWritten)
    ensures Warning(Initial) == Some(WarningText)
  {
  }

  /** `handleAddHobby` on the screen state: only the hobbies change, through
      the same rule as the extra-information form. */
  function AddHobby(s: SignupState, hobby: string): (t: SignupState)
    ensures t == s.(hobbies := t.hobbies)
    ensures forall h :: h in t.hobbies <==> h in s.hobbies || h == hobby
  {
    s.(hobbies := UserInfoForm.AddHobby(s.hobbies, hobby))
  }

  /** Adding never creates a duplicate and adding twice is adding once. */
  lemma AddHobbyKeepsNoDupAndIsIdempotent(s: SignupState, hobby: string)
    requires HobbySelect.NoDup(s.hobbies)
    ensures HobbySelect.NoDup(AddHobby(s, hobby).hobbies)
    ensures AddHobby(AddHobby(s, hobby), hobby) == AddHobby(s, hobby)
  {
    UserInfoForm.AddHobbyKeepsNoDup(s.hobbies, hobby);
    UserInfoForm.AddHobbyIdempotent(s.hobbies, hobby);
  }

  /** One press in the MBTI selector. */
  datatype Pick = Pick(pairIdx: nat, option: string)

  predicate IsOption(p: Pick) {
    p.pairIdx < 4 && p.option in MbtiSelect.Pairs[p.pairIdx]
  }

  /** The MBTI value after a series of presses. */
  function ApplyPicks(mbti: string, picks: seq<Pick>): string
    decreases picks
  {
    if picks == [] then mbti
    else ApplyPicks(MbtiSelect.Select(mbti, picks[0].pairIdx, picks[0].option), picks[1..])
  }

  /** Presses of real options keep a valid type valid. */
  lemma {:induction false} PicksKeepValid(mbti: string, picks: seq<Pick>)
    requires MbtiSelect.ValidMbti(mbti)
    requires forall k :: 0 <= k < |picks| ==> IsOption(picks[k])
    ensures MbtiSelect.ValidMbti(ApplyPicks(mbti, picks))
    decreases picks
  {
    if picks != [] {
      MbtiSelect.SelectKeepsValid(mbti, picks[0].pairIdx, picks[0].option);
      PicksKeepValid(MbtiSelect.Select(mbti, picks[0].pairIdx, picks[0].option), picks[1..]);
    }
  }

  /** As written: starting from the empty MBTI value, pressing T and then E
      leaves "E" (the T is overwritten), no option is shown as selected at
      first, and a form whose MBTI was never touched passes the check. */
  lemma AsWrittenMbtiStart()
    ensures ApplyPicks(InitialAsWritten.mbti, [Pick(2, "T"), Pick(0, "E")]) == "E"
    ensures !MbtiSelect.ValidMbti(ApplyPicks(InitialAsWritten.mbti, [Pick(2, "T"), Pick(0, "E")]))
    ensures forall i, o :: !MbtiSelect.IsSelected(InitialAsWritten.mbti, i, o)
    ensures forall s :: Filled(s) && s.mbti == InitialAsWritten.mbti ==> !IsEmpty(s)
  {
    var picks := [Pick(2, "T"), Pick(0, "E")];
    assert MbtiSelect.Select("", 2, "T") == "T";
    assert MbtiSelect.Select("T", 0, "E") == "E";
    assert picks[1..][1..] == [];
    forall s | Filled(s) && s.mbti == InitialAsWritten.mbti
      ensures !IsEmpty(s)
    {
      FilledText(s.email);
      FilledText(s.password);
      FilledText(s.passwordCheck);
    }
  }

  /** Corrected: starting from the default type, every series of presses
      leaves one of the sixteen types, and a form whose MBTI was never
      touched is reported as incomplete whatever else is filled in. */
  lemma CorrectedMbtiStart(picks: seq<Pick>, s: SignupState)
    requires forall k :: 0 <= k < |picks| ==> IsOption(picks[k])
    ensures ApplyPicks(Initial.mbti, picks) in MbtiSelect.Types
    ensures s.mbti == Initial.mbti ==> IsEmpty(s)
  {
    UserInfoForm.InitialState();
    PicksKeepValid(Initial.mbti, picks);
    MbtiSelect.ValidMbtiIsType(ApplyPicks(Initial.mbti, picks));
  }
}
