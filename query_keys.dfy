/** The cache keys of the remote-state cache: constant tuples and two tuple
    builders. A key is an array of strings and numbers; invalidating by a
    key array matches every cached key that starts with it. */
module QueryKeys {

  datatype KeyPart = Text(text: string) | Number(number: int)

  type QueryKey = seq<KeyPart>

  const QuestToday: QueryKey := [Text("quest"), Text("today")]
  const QuestSuggestions: QueryKey := [Text("quest"), Text("suggestions")]
  const UserMe: QueryKey := [Text("user"), Text("me")]
  const UserTierCurrent: QueryKey := [Text("user"), Text("tier"), Text("current")]

  /** The filter the quest-completion mutation invalidates with. */
  const HistoryPrefix: QueryKey := [Text("quest"), Text("my"), Text("history")]

  /** The key of the quest history between two dates. */
  function QuestMyHistory(startDate: string, endDate: string): (k: QueryKey)
    ensures |k| == 5 && k[..3] == HistoryPrefix
    ensures k[3] == Text(startDate) && k[4] == Text(endDate)
  {
    [Text("quest"), Text("my"), Text("history"), Text(startDate), Text(endDate)]
  }

  /** The key of the tier of one given month. */
  function UserTierSpecific(year: int, month: int): (k: QueryKey)
    ensures |k| == 4 && k[..2] == UserTierCurrent[..2]
    ensures k[2] == Number(year) && k[3] == Number(month)
  {
    [Text("user"), Text("tier"), Number(year), Number(month)]
  }

  /** Partial matching of an array filter against a cached key. */
  predicate Matches(filter: QueryKey, key: QueryKey) {
    |filter| <= |key| && key[..|filter|] == filter
  }

  /** Partial matching is a prefix order: every key matches itself, and a
      filter that is a prefix of another filter matches every key that one
      matches. */
  lemma MatchesPreorder(a: QueryKey, b: QueryKey, c: QueryKey)
    ensures Matches(a, a)
    ensures Matches(a, b) && Matches(b, c) ==> Matches(a, c)
  {
    if Matches(a, b) && Matches(b, c) {
      assert c[..|a|] == c[..|b|][..|a|];
    }
  }

  /** Every history key, whatever its dates, is hit by the invalidation. */
  lemma HistoryPrefixMatchesAll(startDate: string, endDate: string)
    ensures Matches(HistoryPrefix, QuestMyHistory(startDate, endDate))
  {
  }

  /** ... and no constant key is: today's quest, the suggestions, the user and
      the current tier survive the invalidation. */
  lemma HistoryPrefixSparesConstants()
    ensures !Matches(HistoryPrefix, QuestToday)
    ensures !Matches(HistoryPrefix, QuestSuggestions)
    ensures !Matches(HistoryPrefix, UserMe)
    ensures !Matches(HistoryPrefix, UserTierCurrent)
  {
    assert QuestSuggestions[1] != HistoryPrefix[1];
    assert UserTierCurrent[0] != HistoryPrefix[0];
  }

  /** Different date ranges get different history keys. */
  lemma QuestMyHistoryInjective(s1: string, e1: string, s2: string, e2: string)
    requires QuestMyHistory(s1, e1) == QuestMyHistory(s2, e2)
    ensures s1 == s2 && e1 == e2
  {
    assert QuestMyHistory(s1, e1)[3] == QuestMyHistory(s2, e2)[3];
    assert QuestMyHistory(s1, e1)[4] == QuestMyHistory(s2, e2)[4];
  }

  /** Different months get different tier keys, and none of them is the key
      of the current tier. */
  lemma UserTierSpecificDistinct(y1: int, m1: int, y2: int, m2: int)
    ensures UserTierSpecific(y1, m1) == UserTierSpecific(y2, m2) <==> y1 == y2 && m1 == m2
    ensures UserTierSpecific(y1, m1) != UserTierCurrent
    ensures !Matches(UserTierSpecific(y1, m1), UserTierCurrent)
    ensures !Matches(UserTierCurrent, UserTierSpecific(y1, m1))
  {
    if UserTierSpecific(y1, m1) == UserTierSpecific(y2, m2) {
      assert UserTierSpecific(y1, m1)[2] == UserTierSpecific(y2, m2)[2];
      assert UserTierSpecific(y1, m1)[3] == UserTierSpecific(y2, m2)[3];
    }
    assert UserTierSpecific(y1, m1)[2] != UserTierCurrent[2];
  }

  /** The four constant keys are pairwise distinct. */
  lemma ConstantKeysDistinct()
    ensures QuestToday != QuestSuggestions && QuestToday != UserMe && QuestToday != UserTierCurrent
    ensures QuestSuggestions != UserMe && QuestSuggestions != UserTierCurrent
    ensures UserMe != UserTierCurrent
  {
    assert QuestToday[1] != QuestSuggestions[1];
    assert QuestToday[0] != UserMe[0];
    assert QuestSuggestions[0] != UserMe[0];
    assert UserMe[1] != UserTierCurrent[1];
  }
}
