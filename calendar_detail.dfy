/** The calendar detail dialog: the date title, the today / yesterday /
    N-days-ago line, the experience label and the evidence section. A date
    is given by its epoch time and the local calendar fields the dialog
    reads from it; "now" is an argument. */
module CalendarDetail {
  import opened Wrappers
  import JsText

  /** `1000 * 60 * 60 * 24`. */
  const MsPerDay := 86_400_000

  const WeekDays: seq<string> := ["일", "월", "화", "수", "목", "금", "토"]

  type Weekday = w: int | 0 <= w < 7

  /** A date: its epoch milliseconds, the number of its local calendar day
      (two dates with equal `toDateString()` have equal numbers, and the day
      before has the number one less), its zero-based month, its day of the
      month and its weekday (0 is Sunday). */
  datatype Instant = Instant(epochMs: int, dayNumber: int, month0: int, date: int, weekday: Weekday)

  /** The ranges `getMonth()` and `getDate()` keep to. */
  predicate ValidFields(d: Instant) {
    0 <= d.month0 <= 11 && 1 <= d.date <= 31
  }

  /** `formatDate`: "{month}월 {day}일 ({weekday})". */
  function FormatDate(d: Instant): (s: string)
    requires ValidFields(d)
    ensures |s| >= 9 && s[|s| - 3..] == "(" + WeekDays[d.weekday] + ")"
  {
    JsText.NatToString(d.month0 + 1) + ("월 " + (JsText.NatToString(d.date) + ("일 (" + (WeekDays[d.weekday] + ")"))))
  }

  /** Two digit strings each followed by a non-digit split the same way. */
  lemma {:induction false} SplitAtNonDigit(x: string, y: string, r1: string, r2: string)
    requires JsText.AllDigits(x) && JsText.AllDigits(y)
    requires r1 != [] && r2 != [] && !JsText.IsDigit(r1[0]) && !JsText.IsDigit(r2[0])
    requires x + r1 == y + r2
    ensures x == y && r1 == r2
    decreases |x|
  {
    if x == [] {
      assert x + r1 == r1;
      if y != [] {
        assert false;
      }
      assert y + r2 == r2;
    } else {
      assert (x + r1)[0] == x[0];
      if y == [] {
        assert false;
      }
      assert (y + r2)[0] == y[0];
      assert (x + r1)[1..] == x[1..] + r1;
      assert (y + r2)[1..] == y[1..] + r2;
      SplitAtNonDigit(x[1..], y[1..], r1, r2);
      assert x == [x[0]] + x[1..] && y == [y[0]] + y[1..];
    }
  }

  /** The title determines the month, the day and the weekday. */
  lemma FormatDateInjective(a: Instant, b: Instant)
    requires ValidFields(a) && ValidFields(b)
    requires FormatDate(a) == FormatDate(b)
    ensures a.month0 == b.month0 && a.date == b.date && a.weekday == b.weekday
  {
    var ma, mb := JsText.NatToString(a.month0 + 1), JsText.NatToString(b.month0 + 1);
    var da, db := JsText.NatToString(a.date), JsText.NatToString(b.date);
    var wa, wb := "일 (" + (WeekDays[a.weekday] + ")"), "일 (" + (WeekDays[b.weekday] + ")");
    var ra, rb := "월 " + (da + wa), "월 " + (db + wb);
    SplitAtNonDigit(ma, mb, ra, rb);
    JsText.NatToStringInjective(a.month0 + 1, b.month0 + 1);
    assert ra[2..] == da + wa && rb[2..] == db + wb;
    SplitAtNonDigit(da, db, wa, wb);
    JsText.NatToStringInjective(a.date, b.date);
    assert wa[3] == WeekDays[a.weekday][0] && wb[3] == WeekDays[b.weekday][0];
  }

  datatype DateStatus = Today | Yesterday | DaysAgo(days: nat)

  function Abs(x: int): nat {
    if x < 0 then -x else x
  }

  /** The classification `formatDateStatus` makes: the same calendar day
      first, then the day before, otherwise the absolute whole-day
      difference rounded down (Dafny's `/` by a positive divisor rounds
      down, as `Math.floor` does). */
  function Status(date: Instant, now: Instant): (st: DateStatus)
    ensures st.Today? <==> date.dayNumber == now.dayNumber
    ensures st.Yesterday? <==> date.dayNumber == now.dayNumber - 1
  {
    if date.dayNumber == now.dayNumber then Today
    else if date.dayNumber == now.dayNumber - 1 then Yesterday
    else DaysAgo(Abs((now.epochMs - date.epochMs) / MsPerDay))
  }

  function StatusLabel(st: DateStatus): string {
    match st
    case Today => "오늘"
    case Yesterday => "어제"
    case DaysAgo(n) => JsText.NatToString(n) + "일 전"
  }

  /** `formatDateStatus(date)` at the time `now`. */
  function FormatDateStatus(date: Instant, now: Instant): (text: string)
    ensures text == "오늘" <==> date.dayNumber == now.dayNumber
    ensures text == "어제" <==> date.dayNumber == now.dayNumber - 1
    ensures text != "오늘" && text != "어제" ==>
              text == JsText.NatToString(Abs((now.epochMs - date.epochMs) / MsPerDay)) + "일 전"
  {
    var st := Status(date, now);
    assert st.DaysAgo? ==> |StatusLabel(st)| >= 3;
    StatusLabel(st)
  }

  /** A date whose epoch time lies inside its calendar day in a time zone
      with a fixed offset. */
  predicate InDay(d: Instant, offsetMs: int) {
    d.dayNumber * MsPerDay + offsetMs <= d.epochMs < (d.dayNumber + 1) * MsPerDay + offsetMs
  }

  /** A past date k >= 2 calendar days back is labelled k - 1 or k days ago. */
  lemma PastDays(date: Instant, now: Instant, offsetMs: int, k: nat)
    requires InDay(date, offsetMs) && InDay(now, offsetMs)
    requires k >= 2 && date.dayNumber + k == now.dayNumber
    ensures Status(date, now).DaysAgo?
    ensures k - 1 <= Status(date, now).days <= k
  {
    var diff := now.epochMs - date.epochMs;
    assert (k - 1) * MsPerDay < diff < (k + 1) * MsPerDay;
    FloorBetween(diff, k - 1);
  }

  /** A future date k >= 1 calendar days ahead is also labelled "days ago",
      with k or k + 1 days. */
  lemma FutureDays(date: Instant, now: Instant, offsetMs: int, k: nat)
    requires InDay(date, offsetMs) && InDay(now, offsetMs)
    requires k >= 1 && date.dayNumber == now.dayNumber + k
    ensures Status(date, now).DaysAgo?
    ensures k <= Status(date, now).days <= k + 1
  {
    var diff := now.epochMs - date.epochMs;
    assert -(k + 1) * MsPerDay < diff < -(k - 1) * MsPerDay;
    FloorBetween(diff, -(k as int) - 1);
  }

  /** Rounding down a difference that lies strictly between q and q + 2
      whole days gives q or q + 1. */
  lemma FloorBetween(x: int, q: int)
    requires q * MsPerDay < x < (q + 2) * MsPerDay
    ensures q <= x / MsPerDay <= q + 1
  {
    var d := x / MsPerDay;
    assert x == MsPerDay * d + x % MsPerDay;
    assert 0 <= x % MsPerDay < MsPerDay;
  }

  /** The evidence image of a quest. */
  datatype EvidenceImage = EvidenceImage(id: string, fileName: string, size: int)

  datatype QuestData = QuestData(title: string, isCompleted: bool, evidenceImage: Option<EvidenceImage>,
                                 experience: Option<int>)

  /** `questData.experience || 10`: the experience, or 10 when it is missing
      or zero. */
  function Experience(q: QuestData): (n: int)
    ensures n != 0
    ensures q.experience.Some? && q.experience.value != 0 ==> n == q.experience.value
    ensures q.experience.None? || q.experience.value == 0 ==> n == 10
  {
    if q.experience.Some? && q.experience.value != 0 then q.experience.value else 10
  }

  /** The experience label, shown only when there is a quest. */
  function ExperienceLine(q: Option<QuestData>): (line: Option<string>)
    ensures line.Some? <==> q.Some?
    ensures line.Some? ==> line.value == "경험치 +" + JsText.IntToString(Experience(q.value))
  {
    if q.Some? then Some("경험치 +" + JsText.IntToString(Experience(q.value))) else None
  }

  /** What the evidence box shows. */
  datatype EvidenceView = Photo(uri: string) | Placeholder

  /** The evidence section: absent without a quest, the image whose source
      is the evidence id when there is one, a placeholder otherwise. */
  function Evidence(q: Option<QuestData>): Option<EvidenceView> {
    match q
    case None => None
    case Some(data) =>
      match data.evidenceImage
      case Some(image) => Some(Photo(image.id))
      case None => Some(Placeholder)
  }

  const NoDateTitle := "날짜 선택"

  /** The header: the formatted date or "날짜 선택", and the status line, empty
      when no date is selected. */
  function Header(selected: Option<Instant>, now: Instant): (h: (string, string))
    requires selected.Some? ==> ValidFields(selected.value)
    ensures selected.None? ==> h == (NoDateTitle, "")
    ensures selected.Some? ==> h.0 != NoDateTitle && h.1 != ""
    ensures selected.Some? ==> h == (FormatDate(selected.value), FormatDateStatus(selected.value, now))
  {
    match selected
    case None => (NoDateTitle, "")
    case Some(d) =>
      var title := FormatDate(d);
      assert title[|title| - 1] == ')';
      (title, FormatDateStatus(d, now))
  }

  /** Everything the dialog shows for the selected date (if any) and the
      quest of that date (if any). */
  datatype DialogView = DialogView(title: string, status: string, experience: Option<string>,
                                   evidence: Option<EvidenceView>)

  function Dialog(selected: Option<Instant>, now: Instant, quest: Option<QuestData>): (v: DialogView)
    requires selected.Some? ==> ValidFields(selected.value)
  {
    var h := Header(selected, now);
    DialogView(h.0, h.1, ExperienceLine(quest), Evidence(quest))
  }

  /** The experience label and the evidence section come and go together,
      exactly with a quest; the label never reads "+0"; the title is the
      placeholder exactly without a date; and a photo shows the quest's own
      evidence. */
  lemma DialogSections(selected: Option<Instant>, now: Instant, quest: Option<QuestData>)
    requires selected.Some? ==> ValidFields(selected.value)
    ensures var v := Dialog(selected, now, quest);
      && (v.experience.Some? <==> v.evidence.Some?)
      && (v.experience.Some? <==> quest.Some?)
      && (v.experience.Some? ==> v.experience.value != "경험치 +0")
      && (v.title == NoDateTitle <==> selected.None?)
      && (v.evidence.Some? ==> (v.evidence.value.Photo? <==> quest.value.evidenceImage.Some?))
      && (v.evidence.Some? && v.evidence.value.Photo? ==> v.evidence.value.uri == quest.value.evidenceImage.value.id)
  {
    if quest.Some? {
      var n := Experience(quest.value);
      JsText.IntToStringZero(n);
      var line := "경험치 +" + JsText.IntToString(n);
      assert line[|"경험치 +"|..] == JsText.IntToString(n);
    }
  }

  /** Every weekday has a one-character label, and no two share one. */
  lemma WeekDayLabels()
    ensures forall w: Weekday :: |WeekDays[w]| == 1
    ensures forall v: Weekday, w: Weekday :: WeekDays[v] == WeekDays[w] ==> v == w
  {
  }
}
