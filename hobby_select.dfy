/** The hobby selector: two fixed option lists and `handleToggle`, which
    removes a chosen hobby (every copy of it) or appends an unchosen one, and
    hands the same new list to both of its setters. */
module HobbySelect {

  const HobbyOptions: seq<string> := [
    "독서", "음악 감상", "사진 찍기", "글쓰기", "카페 가기",
    "요리/베이킹", "영화/드라마 감상", "식물 키우기", "일기 쓰기", "그림 그리기"]

  /** The active hobbies (the list is named `HOBBT_OPTIONS_ACTIVE` where it
      is defined). */
  const ActiveHobbyOptions: seq<string> := [
    "산책하기", "러닝", "헬스/요가", "등산하기", "여행", "캠핑",
    "친구만나기", "자전거 타기", "게임하기", "보드게임/퍼즐", "봉사활동"]

  /** A list in which no hobby occurs twice. */
  predicate NoDup(s: seq<string>) {
    forall i, j :: 0 <= i < j < |s| ==> s[i] != s[j]
  }

  /** `value.filter((v) => v !== hobby)`: every copy of `hobby` goes, every
      other entry keeps its number of copies. */
  function Without(value: seq<string>, hobby: string): (r: seq<string>)
    ensures hobby !in r
    ensures forall y :: y != hobby ==> multiset(r)[y] == multiset(value)[y]
    ensures |r| <= |value|
  {
    if value == [] then []
    else
      var rest := Without(value[1..], hobby);
      assert value == [value[0]] + value[1..];
      if value[0] == hobby then rest else [value[0]] + rest
  }

  /** The list both setters receive. */
  function Toggle(value: seq<string>, hobby: string): (r: seq<string>)
    ensures hobby in r <==> hobby !in value
    ensures forall y :: y != hobby ==> multiset(r)[y] == multiset(value)[y]
  {
    if hobby in value then Without(value, hobby) else value + [hobby]
  }

  /** What `handleToggle` passes to `setHobbies` and to `onChange`. */
  datatype Toggled = Toggled(hobbies: seq<string>, reported: seq<string>)

  function HandleToggle(value: seq<string>, hobby: string): (t: Toggled)
    ensures t.hobbies == t.reported
    ensures hobby in value ==> hobby !in t.hobbies
    ensures hobby !in value ==> t.hobbies == value + [hobby]
  {
    Toggled(Toggle(value, hobby), Toggle(value, hobby))
  }

  /** Filtering works piece by piece, so the entries that stay keep their
      relative order. */
  lemma {:induction false} WithoutAppend(a: seq<string>, b: seq<string>, hobby: string)
    ensures Without(a + b, hobby) == Without(a, hobby) + Without(b, hobby)
  {
    if a == [] {
      assert a + b == b;
    } else {
      assert (a + b)[1..] == a[1..] + b;
      WithoutAppend(a[1..], b, hobby);
    }
  }

  /** Removing an absent hobby changes nothing. */
  lemma {:induction false} WithoutAbsent(value: seq<string>, hobby: string)
    requires hobby !in value
    ensures Without(value, hobby) == value
  {
    if value != [] {
      WithoutAbsent(value[1..], hobby);
    }
  }

  /** Filtering keeps a list free of duplicates. */
  lemma {:induction false} WithoutKeepsNoDup(value: seq<string>, hobby: string)
    requires NoDup(value)
    ensures NoDup(Without(value, hobby))
  {
    if value != [] {
      WithoutKeepsNoDup(value[1..], hobby);
      var rest := Without(value[1..], hobby);
      if value[0] != hobby {
        assert value[0] !in value[1..];
        assert multiset(rest)[value[0]] == 0;
        assert value[0] !in rest;
      }
    }
  }

  /** Appending an absent hobby keeps a list free of duplicates. */
  lemma AppendKeepsNoDup(value: seq<string>, hobby: string)
    requires NoDup(value) && hobby !in value
    ensures NoDup(value + [hobby])
  {
  }

  /** Toggling keeps a list free of duplicates. */
  lemma ToggleKeepsNoDup(value: seq<string>, hobby: string)
    requires NoDup(value)
    ensures NoDup(Toggle(value, hobby))
  {
    if hobby in value {
      WithoutKeepsNoDup(value, hobby);
    } else {
      AppendKeepsNoDup(value, hobby);
    }
  }

  /** Toggling twice restores the list when the hobby was absent, and
      restores membership of every hobby when it was present. */
  lemma ToggleTwice(value: seq<string>, hobby: string)
    ensures hobby !in value ==> Toggle(Toggle(value, hobby), hobby) == value
    ensures forall y :: y in Toggle(Toggle(value, hobby), hobby) <==> y in value
  {
    if hobby !in value {
      WithoutAppend(value, [hobby], hobby);
      WithoutAbsent(value, hobby);
      assert Without([hobby], hobby) == [];
    }
    forall y ensures y in Toggle(Toggle(value, hobby), hobby) <==> y in value {
      if y != hobby {
        assert multiset(Toggle(Toggle(value, hobby), hobby))[y] == multiset(value)[y];
      }
    }
  }

  /** The two lists are disjoint and free of duplicates, so each option is
      one button. */
  lemma OptionListsDisjoint()
    ensures NoDup(HobbyOptions) && NoDup(ActiveHobbyOptions)
    ensures forall h :: h in HobbyOptions ==> h !in ActiveHobbyOptions
  {
  }
}
