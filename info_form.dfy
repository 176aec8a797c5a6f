/** The extra-information form: its initial state and `handleAddHobby`,
    which appends a typed hobby unless it is already chosen. */
module UserInfoForm {
  import opened Wrappers
  import MbtiSelect
  import HobbySelect

  const DefaultMbti := "ESTJ"

  /** The form's state: the chosen gender ("male" or "female", or none), the
      MBTI value and the chosen hobbies. */
  datatype FormState = FormState(gender: Option<string>, mbti: string, hobbies: seq<string>)

  const Initial := FormState(None, DefaultMbti, [])

  /** The list `handleAddHobby` leaves: the hobby is appended when it is
      absent, and the list stays as it is otherwise. */
  function AddHobby(hobbies: seq<string>, hobby: string): (r: seq<string>)
    ensures hobby in r
    ensures hobby in hobbies ==> r == hobbies
    ensures hobby !in hobbies ==> |r| == |hobbies| + 1 && r[..|hobbies|] == hobbies && r[|hobbies|] == hobby
  {
    if hobby !in hobbies then hobbies + [hobby] else hobbies
  }

  /** `handleAddHobby` on the form state: only the hobbies change. */
  function HandleAddHobby(s: FormState, hobby: string): (t: FormState)
    ensures t.gender == s.gender && t.mbti == s.mbti
    ensures forall h :: h in t.hobbies <==> h in s.hobbies || h == hobby
  {
    s.(hobbies := AddHobby(s.hobbies, hobby))
  }

  /** The initial state has no gender, no hobby and a valid MBTI type, so
      the MBTI selector starts from the four letters it expects. */
  lemma InitialState()
    ensures Initial.gender == None && Initial.hobbies == []
    ensures MbtiSelect.ValidMbti(Initial.mbti)
  {
    MbtiSelect.ValidMbtiIsType(Initial.mbti);
    assert Initial.mbti == MbtiSelect.Types[12];
  }

  /** Adding never creates a duplicate. */
  lemma AddHobbyKeepsNoDup(hobbies: seq<string>, hobby: string)
    requires HobbySelect.NoDup(hobbies)
    ensures HobbySelect.NoDup(AddHobby(hobbies, hobby))
  {
    if hobby !in hobbies {
      HobbySelect.AppendKeepsNoDup(hobbies, hobby);
    }
  }

  /** Adding the same hobby again changes nothing. */
  lemma AddHobbyIdempotent(hobbies: seq<string>, hobby: string)
    ensures AddHobby(AddHobby(hobbies, hobby), hobby) == AddHobby(hobbies, hobby)
  {
  }

  /** Adding agrees with toggling on an absent hobby and differs from it on a
      present one, which adding keeps. */
  lemma AddHobbyVersusToggle(hobbies: seq<string>, hobby: string)
    ensures hobby !in hobbies ==> AddHobby(hobbies, hobby) == HobbySelect.Toggle(hobbies, hobby)
    ensures hobby in hobbies ==> hobby !in HobbySelect.Toggle(hobbies, hobby) && hobby in AddHobby(hobbies, hobby)
  {
  }
}
