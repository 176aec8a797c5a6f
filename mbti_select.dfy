/** The MBTI selector: four pairs of one-letter options, one letter shown as
    selected per pair, and `handleSelect`, which writes the chosen letter at
    the pair's position of the current value. */
module MbtiSelect {

  /** The option values of the four pairs, in display order. */
  const Pairs: seq<seq<string>> := [["E", "I"], ["S", "N"], ["T", "F"], ["J", "P"]]

  /** The sixteen types the account API accepts. */
  const Types: seq<string> := [
    "ISTJ", "ISFJ", "INFJ", "INTJ", "ISTP", "ISFP", "INFP", "INTP",
    "ESTP", "ESFP", "ENFP", "ENTP", "ESTJ", "ESFJ", "ENFJ", "ENTJ"]

  /** `value.split("")`: one element per character. */
  function Letters(s: string): (parts: seq<string>)
    ensures |parts| == |s|
    ensures forall i :: 0 <= i < |s| ==> parts[i] == [s[i]]
  {
    seq(|s|, i requires 0 <= i < |s| => [s[i]])
  }

  /** `parts.join("")`, folded from the left as the join loop reads it; an
      unset slot of the array is an empty element. */
  function Join(parts: seq<string>): string {
    if parts == [] then "" else Join(parts[..|parts| - 1]) + parts[|parts| - 1]
  }

  /** What `handleSelect(pairIdx, selected)` reports. Inside the value the
      element at `pairIdx` is replaced; past its end the array grows, the
      slots in between stay unset and join as nothing, so `selected` lands at
      the end. */
  function Select(value: string, pairIdx: nat, selected: string): (r: string)
    ensures pairIdx < |value| ==> |r| == |value| - 1 + |selected|
    ensures pairIdx < |value| ==> r[..pairIdx] == value[..pairIdx]
    ensures pairIdx < |value| ==>
              r[pairIdx..pairIdx + |selected|] == selected && r[pairIdx + |selected|..] == value[pairIdx + 1..]
    ensures pairIdx >= |value| ==> r == value + selected
  {
    if pairIdx < |value| then value[..pairIdx] + selected + value[pairIdx + 1..]
    else value + selected
  }

  /** The array `handleSelect` joins: the letters of the value, grown to
      cover `pairIdx`, with `selected` written at `pairIdx`. */
  method HandleSelect(value: string, pairIdx: nat, selected: string) returns (joined: string)
    ensures joined == Select(value, pairIdx, selected)
  {
    var n := if pairIdx < |value| then |value| else pairIdx + 1;
    var chars := new string[n](i => if 0 <= i < |value| then [value[i]] else "");
    chars[pairIdx] := selected;
    ghost var parts := chars[..];
    joined := "";
    var k := 0;
    while k < n
      invariant 0 <= k <= n
      invariant chars[..] == parts
      invariant joined == Join(parts[..k])
    {
      assert parts[..k + 1][..k] == parts[..k];
      joined := joined + chars[k];
      k := k + 1;
    }
    assert parts[..n] == parts;
    JoinOfArray(value, pairIdx, selected, parts);
  }

  lemma {:induction false} JoinAppend(a: seq<string>, b: seq<string>)
    ensures Join(a + b) == Join(a) + Join(b)
    decreases |b|
  {
    if b != [] {
      var b' := b[..|b| - 1];
      assert (a + b)[..|a + b| - 1] == a + b';
      JoinAppend(a, b');
    } else {
      assert a + b == a;
    }
  }

  lemma {:induction false} JoinLetters(s: string)
    ensures Join(Letters(s)) == s
    decreases |s|
  {
    if s != [] {
      var s' := s[..|s| - 1];
      assert Letters(s)[..|s| - 1] == Letters(s');
      JoinLetters(s');
      assert s == s' + [s[|s| - 1]];
    }
  }

  lemma {:induction false} JoinBlanks(parts: seq<string>)
    requires forall i :: 0 <= i < |parts| ==> parts[i] == ""
    ensures Join(parts) == ""
    decreases |parts|
  {
    if parts != [] {
      JoinBlanks(parts[..|parts| - 1]);
    }
  }

  /** The joined array is the value with `selected` written in. */
  lemma JoinOfArray(value: string, pairIdx: nat, selected: string, parts: seq<string>)
    requires |parts| == (if pairIdx < |value| then |value| else pairIdx + 1)
    requires parts[pairIdx] == selected
    requires forall i :: 0 <= i < |parts| && i != pairIdx ==>
               parts[i] == (if i < |value| then [value[i]] else "")
    ensures Join(parts) == Select(value, pairIdx, selected)
  {
    if pairIdx < |value| {
      JoinInside(value, pairIdx, selected, parts);
    } else {
      JoinPastEnd(value, pairIdx, selected, parts);
    }
  }

  lemma JoinSingle(x: string)
    ensures Join([x]) == x
  {
    assert [x][..0] == [];
  }

  lemma JoinInside(value: string, pairIdx: nat, selected: string, parts: seq<string>)
    requires pairIdx < |value| && |parts| == |value|
    requires parts[pairIdx] == selected
    requires forall i :: 0 <= i < |parts| && i != pairIdx ==> parts[i] == [value[i]]
    ensures Join(parts) == value[..pairIdx] + selected + value[pairIdx + 1..]
  {
    var front := Letters(value[..pairIdx]);
    var back := Letters(value[pairIdx + 1..]);
    assert parts == front + [selected] + back by {
      assert |parts| == |front + [selected] + back|;
      forall i | 0 <= i < |parts| ensures parts[i] == (front + [selected] + back)[i] {
        if i < pairIdx {
        } else if i == pairIdx {
        } else {
          assert value[pairIdx + 1..][i - pairIdx - 1] == value[i];
        }
      }
    }
    JoinAppend(front + [selected], back);
    JoinAppend(front, [selected]);
    JoinSingle(selected);
    JoinLetters(value[..pairIdx]);
    JoinLetters(value[pairIdx + 1..]);
  }

  lemma JoinPastEnd(value: string, pairIdx: nat, selected: string, parts: seq<string>)
    requires pairIdx >= |value| && |parts| == pairIdx + 1
    requires parts[pairIdx] == selected
    requires forall i :: 0 <= i < pairIdx ==> parts[i] == (if i < |value| then [value[i]] else "")
    ensures Join(parts) == value + selected
  {
    var gap := parts[|value|..pairIdx];
    assert parts == Letters(value) + gap + [selected] by {
      assert |parts| == |Letters(value) + gap + [selected]|;
    }
    JoinAppend(Letters(value) + gap, [selected]);
    JoinAppend(Letters(value), gap);
    JoinSingle(selected);
    JoinLetters(value);
    JoinBlanks(gap);
  }

  /** An option is shown as selected when the value's letter at its pair's
      position is the option. */
  predicate IsSelected(value: string, pairIdx: nat, option: string) {
    pairIdx < |value| && [value[pairIdx]] == option
  }

  /** A four-letter value whose every letter comes from its own pair. */
  predicate ValidMbti(value: string) {
    |value| == 4 && forall i :: 0 <= i < 4 ==> [value[i]] in Pairs[i]
  }

  /** On a four-letter value, a one-letter selection keeps four letters,
      puts the letter at the position and leaves every other letter. */
  lemma SelectReplacesOne(value: string, pairIdx: nat, selected: string)
    requires pairIdx < |value| && |selected| == 1
    ensures |Select(value, pairIdx, selected)| == |value|
    ensures Select(value, pairIdx, selected)[pairIdx] == selected[0]
    ensures forall j :: 0 <= j < |value| && j != pairIdx ==> Select(value, pairIdx, selected)[j] == value[j]
  {
  }

  /** After the selection the chosen option is the one shown as selected in
      its pair, and the other option of the pair is not. */
  lemma SelectShowsSelected(value: string, pairIdx: nat, option: string, other: string)
    requires pairIdx < |value| && |option| == 1 && other != option
    ensures IsSelected(Select(value, pairIdx, option), pairIdx, option)
    ensures !IsSelected(Select(value, pairIdx, option), pairIdx, other)
  {
    SelectReplacesOne(value, pairIdx, option);
    assert [Select(value, pairIdx, option)[pairIdx]] == option;
  }

  /** The two options of a pair differ, so at most one is shown as selected. */
  lemma AtMostOneSelected(value: string, pairIdx: nat)
    requires pairIdx < 4
    ensures !(IsSelected(value, pairIdx, Pairs[pairIdx][0]) && IsSelected(value, pairIdx, Pairs[pairIdx][1]))
  {
  }

  /** Selecting the same option twice is selecting it once. */
  lemma SelectIdempotent(value: string, pairIdx: nat, selected: string)
    requires pairIdx < |value| && |selected| == 1
    ensures Select(Select(value, pairIdx, selected), pairIdx, selected) == Select(value, pairIdx, selected)
  {
    SelectReplacesOne(value, pairIdx, selected);
    var once := Select(value, pairIdx, selected);
    SelectReplacesOne(once, pairIdx, selected);
  }

  /** Selections in different pairs commute. */
  lemma SelectCommutes(value: string, i: nat, a: string, j: nat, b: string)
    requires i < |value| && j < |value| && i != j && |a| == 1 && |b| == 1
    ensures Select(Select(value, i, a), j, b) == Select(Select(value, j, b), i, a)
  {
    SelectReplacesOne(value, i, a);
    SelectReplacesOne(value, j, b);
    SelectReplacesOne(Select(value, i, a), j, b);
    SelectReplacesOne(Select(value, j, b), i, a);
  }

  /** Choosing an option of its own pair keeps a valid type valid. */
  lemma SelectKeepsValid(value: string, pairIdx: nat, option: string)
    requires ValidMbti(value) && pairIdx < 4 && option in Pairs[pairIdx]
    ensures ValidMbti(Select(value, pairIdx, option))
  {
    SelectReplacesOne(value, pairIdx, option);
    var r := Select(value, pairIdx, option);
    forall i | 0 <= i < 4 ensures [r[i]] in Pairs[i] {
      if i == pairIdx {
        assert [r[i]] == option;
      } else {
        assert r[i] == value[i];
      }
    }
  }

  /** The valid values are exactly the sixteen types. */
  lemma ValidMbtiIsType(value: string)
    ensures ValidMbti(value) <==> value in Types
  {
    if ValidMbti(value) {
      assert [value[0]] in Pairs[0] && [value[1]] in Pairs[1];
      assert [value[2]] in Pairs[2] && [value[3]] in Pairs[3];
      assert value == [value[0], value[1], value[2], value[3]];
    }
    if value in Types {
      var k :| 0 <= k < |Types| && Types[k] == value;
      assert ValidMbti(Types[k]);
    }
  }
}
