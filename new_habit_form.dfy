/** The "New Stamp" / "Edit Stamp" form (src/app/new/page.tsx): the form state and
    its handlers, the "match number of days" effect, the inclusive day count, the
    subtitle texts and the preview grid. Dates are day ordinals in local time, so
    `differenceInCalendarDays(a, b)` is `a - b`. */
module NewHabitForm {
  import opened Common
  import opened NumberText

  type Day = int

  /** The `numStamps` form value: a number (the initial 0, or the count the
      match-days effect writes) or the text last typed into the number input. */
  datatype StampsField = Count(n: int) | Typed(text: string)

  /** `Number(formData.numStamps)`, None standing for NaN. */
  function NumberValue(f: StampsField): Option<int> {
    match f
    case Count(n) => Some(n)
    case Typed(t) => if t == "" then Some(0) else ParseInt(t)
  }

  datatype FormData = FormData(
    titleLine1: string,
    line1Font: string,
    titleLine2: string,
    line2Font: string,
    numStamps: StampsField,
    endDate: Option<Day>,
    condition: string,
    themeColor: string,
    bgColor: string,
    stampLogo: string,
    createdAt: Day)

  /** `initialFormData` with `createdAt` set to the current day, as a new form is reset. */
  function InitialFormData(today: Day): FormData {
    FormData("", "font-sans", "", "font-sans", Count(0), None, "",
             "#3B6EC5", "bg-[#F3F0E6]", "star", today)
  }

  /** The inputs wired to `handleInputChange`, by their element id. */
  datatype InputField = TitleLine1 | TitleLine2 | Condition | NumStamps

  /** The selects wired to `handleSelectChange`, by the id each one passes. */
  datatype SelectField = Line1Font | Line2Font | ThemeColor | BgColor

  /** What the input `id` shows, as the text of its field. */
  function InputValue(d: FormData, id: InputField): StampsField {
    match id
    case TitleLine1 => Typed(d.titleLine1)
    case TitleLine2 => Typed(d.titleLine2)
    case Condition => Typed(d.condition)
    case NumStamps => d.numStamps
  }

  /** `{ ...prev, [id]: value }` for an input. */
  function WithInput(d: FormData, id: InputField, value: string): (r: FormData)
    ensures InputValue(r, id) == Typed(value)
    ensures forall other: InputField :: other != id ==> InputValue(r, other) == InputValue(d, other)
    ensures r.(titleLine1 := d.titleLine1, titleLine2 := d.titleLine2,
               condition := d.condition, numStamps := d.numStamps) == d
  {
    match id
    case TitleLine1 => d.(titleLine1 := value)
    case TitleLine2 => d.(titleLine2 := value)
    case Condition => d.(condition := value)
    case NumStamps => d.(numStamps := Typed(value))
  }

  function SelectValue(d: FormData, id: SelectField): string {
    match id
    case Line1Font => d.line1Font
    case Line2Font => d.line2Font
    case ThemeColor => d.themeColor
    case BgColor => d.bgColor
  }

  /** `{ ...prev, [id]: value }` for a select. */
  function WithSelect(d: FormData, id: SelectField, value: string): (r: FormData)
    ensures SelectValue(r, id) == value
    ensures forall other: SelectField :: other != id ==> SelectValue(r, other) == SelectValue(d, other)
    ensures r.(line1Font := d.line1Font, line2Font := d.line2Font,
               themeColor := d.themeColor, bgColor := d.bgColor) == d
  {
    match id
    case Line1Font => d.(line1Font := value)
    case Line2Font => d.(line2Font := value)
    case ThemeColor => d.(themeColor := value)
    case BgColor => d.(bgColor := value)
  }

  /** `timePeriodDays`: the calendar-day difference from creation to the end date,
      plus one; 0 without an end date. */
  function TimePeriodDays(endDate: Option<Day>, createdAt: Day): int {
    match endDate
    case None => 0
    case Some(end) => end - createdAt + 1
  }

  /** The period counts the calendar days from creation through the end date, both
      included (and is 0 or negative when the end date precedes the creation day). */
  lemma PeriodCountsCalendarDays(createdAt: Day, end: Day)
    ensures Max(TimePeriodDays(Some(end), createdAt), 0) == |Interval(createdAt, end)|
  {
    IntervalSize(createdAt, end);
  }

  /** The calendar's `disabled` rule: a date before today's midnight cannot be picked. */
  predicate IsDisabledDate(date: Day, today: Day) {
    date < today
  }

  /** A date the calendar lets the user pick, on a habit created today or earlier,
      gives a period of at least one day, covering every day up to the end date. */
  lemma SelectableEndDatePeriod(createdAt: Day, today: Day, end: Day)
    requires createdAt <= today && !IsDisabledDate(end, today)
    ensures TimePeriodDays(Some(end), createdAt) >= 1
    ensures TimePeriodDays(Some(end), createdAt) == |Interval(createdAt, end)|
    ensures Interval(today, end) <= Interval(createdAt, end)
  {
    PeriodCountsCalendarDays(createdAt, end);
  }

  /** `${shown} day${period !== 1 ? 's' : ''}`. */
  function DaysLabel(shown: int, period: int): string {
    IntText(shown) + " day" + (if period != 1 then "s" else "")
  }

  /** The subtitle under the preview title: the period, shown as 0 when it is not
      positive, with "day" only for a period of exactly 1. */
  function PreviewSubtitle(endDate: Option<Day>, createdAt: Day): string {
    var period := TimePeriodDays(endDate, createdAt);
    DaysLabel(if period > 0 then period else 0, period)
  }

  /** The subtitle `handleSubmit` saves: "0 days" without an end date, otherwise
      the unclamped period and its "day"/"days" word. */
  function SavedSubtitle(endDate: Option<Day>, createdAt: Day): string {
    if endDate.None? then "0 days"
    else
      var days := TimePeriodDays(endDate, createdAt);
      DaysLabel(days, days)
  }

  /** Reads a subtitle back: the number before the first space and whether the
      word after it is "days" rather than "day". */
  function ReadDaysLabel(s: string): Option<(int, bool)> {
    match FirstIndex(s, ' ')
    case None => None
    case Some(k) =>
      if s[k..] != " day" && s[k..] != " days" then None
      else
        match ParseInt(s[..k])
        case None => None
        case Some(n) => Some((n, s[k..] == " days"))
  }

  lemma DaysLabelReads(shown: int, period: int)
    ensures ReadDaysLabel(DaysLabel(shown, period)) == Some((shown, period != 1))
  {
    var t := IntText(shown);
    var s := DaysLabel(shown, period);
    assert ' ' !in t by {
      forall k | 0 <= k < |t| ensures t[k] != ' ' {
        if k > 0 { assert IsDigit(t[k]); }
      }
    }
    assert s[|t|] == ' ';
    assert s[..|t|] == t;
    assert FirstIndex(s, ' ') == Some(|t|);
    ParseIntText(shown);
  }

  /** The preview reads "N day(s)" with N the period clamped at 0, and "day" exactly
      for a one-day period. */
  lemma PreviewSubtitleReads(endDate: Option<Day>, createdAt: Day)
    ensures var p := TimePeriodDays(endDate, createdAt);
            ReadDaysLabel(PreviewSubtitle(endDate, createdAt)) == Some((Max(p, 0), p != 1))
  {
    var p := TimePeriodDays(endDate, createdAt);
    DaysLabelReads(if p > 0 then p else 0, p);
  }

  /** The saved subtitle reads "N day(s)" with N the unclamped period (0 without an
      end date), and "day" exactly for a one-day period. */
  lemma SavedSubtitleReads(endDate: Option<Day>, createdAt: Day)
    ensures var p := TimePeriodDays(endDate, createdAt);
            ReadDaysLabel(SavedSubtitle(endDate, createdAt)) == Some((p, p != 1))
  {
    var p := TimePeriodDays(endDate, createdAt);
    if endDate.None? {
      assert SavedSubtitle(endDate, createdAt) == DaysLabel(0, 0);
    }
    DaysLabelReads(p, p);
  }

  /** Preview and saved subtitle agree unless the end date lies before the creation
      day, where the preview says "0 days" and the saved one a negative count. */
  lemma SubtitlesAgree(endDate: Option<Day>, createdAt: Day)
    ensures TimePeriodDays(endDate, createdAt) >= 0 <==>
            PreviewSubtitle(endDate, createdAt) == SavedSubtitle(endDate, createdAt)
  {
    var p := TimePeriodDays(endDate, createdAt);
    SavedSubtitleReads(endDate, createdAt);
    PreviewSubtitleReads(endDate, createdAt);
    if endDate.None? {
      assert SavedSubtitle(endDate, createdAt) == DaysLabel(0, 0);
    }
  }

  /** `Number(formData.numStamps) || 0`: NaN counts as 0. */
  function PreviewCount(f: StampsField): int {
    NumberValue(f).GetOr(0)
  }

  /** The numbers written in the preview's dashed cells. */
  function PreviewCells(f: StampsField): seq<int> {
    Range(1, ArrayLength(Min(PreviewCount(f), 10)))
  }

  /** Whether the preview adds a "..." cell. */
  function PreviewShowsEllipsis(f: StampsField): bool {
    PreviewCount(f) > 10
  }

  /** The preview draws cells 1..min(n, 10) for the stamp count n (NaN and negative
      counts draw none), and the "..." cell appears exactly when some stamps are
      not drawn. */
  lemma PreviewLayout(f: StampsField)
    ensures var n := PreviewCount(f);
            |PreviewCells(f)| == Min(Max(n, 0), 10) &&
            (forall i :: 0 <= i < |PreviewCells(f)| ==> PreviewCells(f)[i] == i + 1) &&
            (PreviewShowsEllipsis(f) <==> |PreviewCells(f)| < n)
  {
  }

  /** Whether the stamp count already equals the period, in the case where the
      match-days effect would set it. */
  predicate StampsMatchDays(d: FormData, matchDays: bool) {
    var days := TimePeriodDays(d.endDate, d.createdAt);
    matchDays && d.endDate.Some? && days > 0 ==> d.numStamps == Count(days)
  }

  /** The form data the match-days effect leaves behind. */
  function SyncedStamps(d: FormData, matchDays: bool): (r: FormData)
    ensures StampsMatchDays(r, matchDays)
    ensures r.(numStamps := d.numStamps) == d
    ensures r.numStamps != d.numStamps ==>
              matchDays && d.endDate.Some? && TimePeriodDays(d.endDate, d.createdAt) > 0
  {
    if matchDays && d.endDate.Some? then
      var days := TimePeriodDays(d.endDate, d.createdAt);
      if days > 0 then d.(numStamps := Count(days)) else d
    else d
  }

  /** The form's two pieces of state: `formData` and `matchDays`. */
  class HabitForm {
    var formData: FormData
    var matchDays: bool

    /** A new form: the initial data with `createdAt` reset to today, matching off. */
    constructor (today: Day)
      ensures formData == InitialFormData(today) && !matchDays
    {
      formData := InitialFormData(today);
      matchDays := false;
    }

    function TimePeriod(): int
      reads this
    {
      TimePeriodDays(formData.endDate, formData.createdAt)
    }

    /** The effect React runs after a render where `endDate`, `matchDays` or
        `createdAt` changed. */
    method MatchDaysEffect()
      modifies this
      ensures formData == SyncedStamps(old(formData), matchDays)
      ensures matchDays == old(matchDays)
      ensures StampsMatchDays(formData, matchDays)
    {
      if matchDays && formData.endDate.Some? {
        var days := formData.endDate.value - formData.createdAt + 1;
        if days > 0 {
          formData := formData.(numStamps := Count(days));
        }
      }
    }

    /** Typing into an input stores the text in its field; typing a stamp count
        switches matching off. */
    method HandleInputChange(id: InputField, value: string)
      modifies this
      ensures formData == WithInput(old(formData), id, value)
      ensures matchDays == (old(matchDays) && id != NumStamps)
      ensures old(StampsMatchDays(formData, matchDays)) ==> StampsMatchDays(formData, matchDays)
    {
      if id == NumStamps {
        matchDays := false;
      }
      formData := WithInput(formData, id, value);
    }

    method HandleSelectChange(id: SelectField, value: string)
      modifies this
      ensures formData == WithSelect(old(formData), id, value)
      ensures matchDays == old(matchDays)
      ensures old(StampsMatchDays(formData, matchDays)) ==> StampsMatchDays(formData, matchDays)
    {
      formData := WithSelect(formData, id, value);
    }

    method HandleDateChange(date: Option<Day>)
      modifies this
      ensures formData == old(formData).(endDate := date)
      ensures matchDays == old(matchDays)
    {
      formData := formData.(endDate := date);
    }

    method HandleLogoChange(value: string)
      modifies this
      ensures formData == old(formData).(stampLogo := value)
      ensures matchDays == old(matchDays)
      ensures old(StampsMatchDays(formData, matchDays)) ==> StampsMatchDays(formData, matchDays)
    {
      formData := formData.(stampLogo := value);
    }

    /** The "Match number of days" checkbox. */
    method SetMatchDays(checked: bool)
      modifies this
      ensures matchDays == checked && formData == old(formData)
    {
      matchDays := checked;
    }
  }

  /** A new form, an end date picked from the calendar and "Match number of days"
      ticked: the stamp count becomes the inclusive period, which is at least 1, and
      both subtitles read that many days. */
  method NewHabitMatchingDays(today: Day, end: Day) returns (numStamps: StampsField, subtitle: string)
    requires !IsDisabledDate(end, today)
    ensures numStamps == Count(end - today + 1) && end - today + 1 >= 1
    ensures ReadDaysLabel(subtitle) == Some((end - today + 1, end != today))
  {
    var form := new HabitForm(today);
    form.HandleDateChange(Some(end));
    form.MatchDaysEffect();
    form.SetMatchDays(true);
    form.MatchDaysEffect();
    numStamps := form.formData.numStamps;
    subtitle := SavedSubtitle(form.formData.endDate, form.formData.createdAt);
    SavedSubtitleReads(form.formData.endDate, form.formData.createdAt);
  }
}
