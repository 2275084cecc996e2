/** The signed-in home page (src/app/home/page.tsx): what a stamp card derives from
    its habit (completion, the rounded percentage, the stamp buttons, the ellipsis
    cell, the icon), how a click on a day toggles it in the stored `stamped` array,
    the sticker colour read from the stored preferences, and the two-step
    expand/collapse of a card. Firestore writes are returned as values that describe
    them; documents arrive through the listener methods. */
module HomeCards {
  import opened Common
  import LocalHabits
  import Icons

  /** The fields of a habit document the page computes with. `stampLogo` is "" when
      the document has none. */
  datatype Habit = Habit(id: string, numStamps: int, stamped: seq<int>, stampLogo: string)

  // ---------------------------------------------------------------- card values

  /** `isComplete`: a positive goal with at least as many stamps as the goal. */
  predicate IsComplete(numStamps: int, stamped: seq<int>) {
    numStamps > 0 && |stamped| >= numStamps
  }

  /** `progressPercent`: `Math.round(stamped / numStamps * 100)`, the whole number
      nearest to the exact percentage with halves rounded up; 0 without a goal. */
  function ProgressPercent(numStamps: int, stampedCount: nat): (pct: int)
    ensures numStamps <= 0 ==> pct == 0
    ensures numStamps > 0 ==>
              2 * numStamps * pct - numStamps <= 200 * stampedCount < 2 * numStamps * pct + numStamps
  {
    if numStamps > 0 then
      var q := (200 * stampedCount + numStamps) / (2 * numStamps);
      var m := (200 * stampedCount + numStamps) % (2 * numStamps);
      assert 200 * stampedCount + numStamps == 2 * numStamps * q + m && 0 <= m < 2 * numStamps;
      q
    else 0
  }

  lemma MulMonotonic(a: int, b: int, c: int)
    requires a >= 0 && b <= c
    ensures a * b <= a * c
  {
  }

  /** A complete card shows at least 100%. */
  lemma CompleteShowsFull(numStamps: int, stamped: seq<int>)
    requires IsComplete(numStamps, stamped)
    ensures ProgressPercent(numStamps, |stamped|) >= 100
  {
    var n, s, pct := numStamps, |stamped|, ProgressPercent(numStamps, |stamped|);
    if pct <= 99 {
      MulMonotonic(2 * n, pct, 99);
      assert false;
    }
  }

  /** A card that is not complete shows at most 100%. */
  lemma IncompleteShowsAtMostFull(numStamps: int, stamped: seq<int>)
    requires numStamps > 0 && !IsComplete(numStamps, stamped)
    ensures ProgressPercent(numStamps, |stamped|) <= 100
  {
    var n, s, pct := numStamps, |stamped|, ProgressPercent(numStamps, |stamped|);
    if pct >= 101 {
      MulMonotonic(2 * n, 101, pct);
      assert false;
    }
  }

  /** The percentage is not capped: more stamps than the goal show more than 100%. */
  lemma PercentNotCapped()
    ensures ProgressPercent(2, 3) == 150
    ensures ProgressPercent(3, 1) == 33 && ProgressPercent(3, 2) == 67
    ensures ProgressPercent(0, 5) == 0
  {
  }

  /** When every stamp is a distinct day of the card, the card is complete exactly
      when every day from 1 through the goal is stamped. */
  lemma CompleteIffEveryDayStamped(numStamps: int, stamped: seq<int>)
    requires numStamps > 0 && NoDuplicates(stamped)
    requires forall i :: 0 <= i < |stamped| ==> 1 <= stamped[i] <= numStamps
    ensures IsComplete(numStamps, stamped) <==> Elements(stamped) == Interval(1, numStamps)
  {
    var e, days := Elements(stamped), Interval(1, numStamps);
    DistinctElements(stamped);
    IntervalSize(1, numStamps);
    assert |e| == |stamped|;
    assert |days| == numStamps;
    assert e <= days by {
      forall x | x in e
        ensures x in days
      {
        var i :| 0 <= i < |stamped| && stamped[i] == x;
      }
    }
    if IsComplete(numStamps, stamped) {
      SubsetOfEqualSize(e, days);
    }
  }

  /** `numVisibleStamps`: all of them when expanded, ten otherwise. */
  function NumVisibleStamps(numStamps: int, isExpanded: bool): int {
    if isExpanded then numStamps else 10
  }

  /** The days of the stamp buttons, in order:
      `Array.from({ length: Math.min(numStamps, numVisibleStamps) })` with day `i + 1`. */
  function StampButtonDays(numStamps: int, isExpanded: bool): seq<int> {
    Range(1, ArrayLength(Min(numStamps, NumVisibleStamps(numStamps, isExpanded))))
  }

  /** The "..." cell after the buttons. */
  predicate ShowsEllipsis(numStamps: int, isExpanded: bool) {
    numStamps > NumVisibleStamps(numStamps, isExpanded) && !isExpanded
  }

  /** A collapsed card shows the first ten days at most and the ellipsis exactly when
      there are more; an expanded card shows a button for every day of the goal. */
  lemma CardLayout(numStamps: int, isExpanded: bool)
    ensures var days := StampButtonDays(numStamps, isExpanded);
            |days| == (if isExpanded then ArrayLength(numStamps) else ArrayLength(Min(numStamps, 10))) &&
            (forall i :: 0 <= i < |days| ==> days[i] == i + 1) &&
            (isExpanded ==> forall d :: 1 <= d <= numStamps ==> d in days)
    ensures ShowsEllipsis(numStamps, isExpanded) <==> !isExpanded && numStamps > 10
  {
    var days := StampButtonDays(numStamps, isExpanded);
    if isExpanded {
      forall d | 1 <= d <= numStamps
        ensures d in days
      {
        assert days[d - 1] == d;
      }
    }
  }

  /** `habit.stampLogo || "check"`: the icon a stamped button shows. */
  function CardIconName(stampLogo: string): string {
    if stampLogo == "" then "check" else stampLogo
  }

  /** A card without a logo shows the check icon, and a card whose logo names an
      icon shows that icon; the text is never empty. */
  lemma CardIconRenders(stampLogo: string, icon: Icons.StampIconName)
    ensures CardIconName(stampLogo) != ""
    ensures stampLogo == "" ==> Icons.StampIcon(CardIconName(stampLogo)) == Some(Icons.Check)
    ensures stampLogo == icon.Key() ==> Icons.StampIcon(CardIconName(stampLogo)) == Some(icon)
  {
    Icons.StampIconOfKey(icon);
    Icons.StampIconOfKey(Icons.Check);
  }

  // ---------------------------------------------------------------- stamp toggling

  /** Firestore `arrayUnion(x)`: appended unless already present. */
  function ArrayUnion(s: seq<int>, x: int): (r: seq<int>)
    ensures x in r
    ensures forall y :: y in r <==> y in s || y == x
    ensures NoDuplicates(s) ==> NoDuplicates(r)
  {
    if x in s then s else s + [x]
  }

  /** Firestore `arrayRemove(x)`: every copy removed, the rest in order. */
  function ArrayRemove(s: seq<int>, x: int): (r: seq<int>)
    ensures x !in r
    ensures forall y :: y in r <==> y in s && y != x
    ensures NoDuplicates(s) ==> NoDuplicates(r)
  {
    var r := Without(s, x);
    assert forall y :: y in r <==> multiset(r)[y] > 0;
    assert NoDuplicates(s) ==> NoDuplicates(r) by {
      if NoDuplicates(s) { FilterNoDuplicates(s, NotEqual(x)); }
    }
    r
  }

  /** The write `toggleStampForHabit` sends: `arrayRemove(day)` when the card showed the
      day as stamped, `arrayUnion(day)` otherwise, to `users/{uid}/habits/{habitId}`. */
  datatype StampWrite = StampWrite(uid: string, habitId: string, remove: bool, day: int)

  /** What the write does to the stored array. */
  function ApplyStampWrite(stored: seq<int>, w: StampWrite): seq<int> {
    if w.remove then ArrayRemove(stored, w.day) else ArrayUnion(stored, w.day)
  }

  /** A click on a day, applied to the array the card showed: the day's membership
      flips, every other day keeps its membership, and no duplicate is created. */
  function ToggleDay(stamped: seq<int>, day: int): (r: seq<int>)
    ensures day in r <==> day !in stamped
    ensures forall d :: d != day ==> (d in r <==> d in stamped)
    ensures NoDuplicates(stamped) ==> NoDuplicates(r)
  {
    if day in stamped then ArrayRemove(stamped, day) else ArrayUnion(stamped, day)
  }

  /** Toggling a day twice: the same days are stamped, and a day that was not
      stamped leaves the array exactly as it was. */
  lemma ToggleDayTwice(stamped: seq<int>, day: int)
    ensures forall d :: d in ToggleDay(ToggleDay(stamped, day), day) <==> d in stamped
    ensures day !in stamped ==> ToggleDay(ToggleDay(stamped, day), day) == stamped
  {
    if day !in stamped {
      LocalHabits.ToggleStampTwice(stamped, day);
      assert ToggleDay(stamped, day) == LocalHabits.ToggleStamp(stamped, day);
    }
  }

  /** The home page and the local-storage page toggle a day the same way. */
  lemma ToggleDayMatchesLocalPage(stamped: seq<int>, day: int)
    ensures ToggleDay(stamped, day) == LocalHabits.ToggleStamp(stamped, day)
  {
  }

  /** `habits.find(h => h.id === id)`. */
  function FindHabit(habits: seq<Habit>, id: string): (r: Option<Habit>)
    ensures r.None? <==> forall i :: 0 <= i < |habits| ==> habits[i].id != id
    ensures r.Some? ==> r.value.id == id && r.value in habits
  {
    match FindIndex(habits, (h: Habit) => h.id == id)
    case Some(i) => Some(habits[i])
    case None => None
  }

  // ---------------------------------------------------------------- sticker colour

  datatype StickerColor = StickerColor(bg: string, text: string)

  /** `stickerColorOptions`. */
  const StickerColorOptions: seq<StickerColor> := [
    StickerColor("bg-pink-300", "text-pink-900"),
    StickerColor("bg-blue-300", "text-blue-900"),
    StickerColor("bg-green-300", "text-green-900"),
    StickerColor("bg-yellow-300", "text-yellow-900"),
    StickerColor("bg-purple-300", "text-purple-900"),
    StickerColor("bg-gray-300", "text-gray-900")]

  /** `stickerColorOptions.find(c => c.bg === bg && c.text === text)`: found exactly
      when both stored values name one option. */
  function FindSticker(bg: string, text: string): (r: Option<StickerColor>)
    ensures r.Some? <==> StickerColor(bg, text) in StickerColorOptions
    ensures r.Some? ==> r.value == StickerColor(bg, text)
  {
    var r := FindIndex(StickerColorOptions, (c: StickerColor) => c.bg == bg && c.text == text);
    if r.Some? then Some(StickerColorOptions[r.value])
    else
      assert forall i :: 0 <= i < |StickerColorOptions| ==> StickerColorOptions[i] != StickerColor(bg, text);
      None
  }

  /** The stored preference fields `stickerBg` and `stickerText` of a user. */
  datatype PrefsWrite = PrefsWrite(uid: string, stickerBg: string, stickerText: string)

  // ---------------------------------------------------------------- page state

  /** The state of `HomePageContent`. `pendingCollapses` counts the collapse timers
      `handleExpandToggle` has scheduled that have not fired yet. */
  class HomeState {
    var user: Option<string>
    var habits: seq<Habit>
    var stickerColor: StickerColor
    var expandedHabitId: Option<string>
    var isAnimatingOut: bool
    var pendingCollapses: nat

    /** A card is only ever animating out while it is expanded and its collapse is
        still to come. */
    predicate Valid()
      reads this
    {
      isAnimatingOut ==> pendingCollapses > 0 && expandedHabitId.Some?
    }

    /** The initial state: signed out, no habits, the pink sticker, nothing expanded. */
    constructor()
      ensures Valid()
      ensures user.None? && habits == [] && stickerColor == StickerColorOptions[0]
      ensures expandedHabitId.None? && !isAnimatingOut && pendingCollapses == 0
    {
      user := None;
      habits := [];
      stickerColor := StickerColor("bg-pink-300", "text-pink-900");
      expandedHabitId := None;
      isAnimatingOut := false;
      pendingCollapses := 0;
    }

    /** The `onAuthStateChanged` callback: a signed-in user is kept; signing out also
        clears the habits. */
    method AuthStateChanged(currentUser: Option<string>)
      requires Valid()
      modifies this
      ensures Valid()
      ensures user == currentUser
      ensures habits == if currentUser.None? then [] else old(habits)
      ensures stickerColor == old(stickerColor) && expandedHabitId == old(expandedHabitId)
      ensures isAnimatingOut == old(isAnimatingOut) && pendingCollapses == old(pendingCollapses)
    {
      user := currentUser;
      if currentUser.None? {
        habits := [];
      }
    }

    /** The habits listener, attached only while a user is signed in: the list becomes
        the delivered documents. */
    method ReceiveHabits(snapshot: seq<Habit>)
      requires Valid()
      modifies this
      ensures Valid()
      ensures habits == if old(user).Some? then snapshot else old(habits)
      ensures user == old(user) && stickerColor == old(stickerColor)
      ensures expandedHabitId == old(expandedHabitId) && isAnimatingOut == old(isAnimatingOut)
      ensures pendingCollapses == old(pendingCollapses)
    {
      if user.Some? {
        habits := snapshot;
      }
    }

    /** The preferences listener: when the document exists and its two fields name one
        of the options, that option becomes the sticker colour; otherwise the colour
        stays. */
    method ReceivePreferences(stored: Option<StickerColor>)
      requires Valid()
      modifies this
      ensures Valid()
      ensures old(user).Some? && stored.Some? && stored.value in StickerColorOptions ==>
                stickerColor == stored.value
      ensures !(old(user).Some? && stored.Some? && stored.value in StickerColorOptions) ==>
                stickerColor == old(stickerColor)
      ensures old(stickerColor) in StickerColorOptions ==> stickerColor in StickerColorOptions
      ensures user == old(user) && habits == old(habits)
      ensures expandedHabitId == old(expandedHabitId) && isAnimatingOut == old(isAnimatingOut)
      ensures pendingCollapses == old(pendingCollapses)
    {
      if user.Some? && stored.Some? {
        var selected := FindSticker(stored.value.bg, stored.value.text);
        if selected.Some? {
          stickerColor := selected.value;
        }
      }
    }

    /** `handleStickerColorChange`: signed in, the colour is shown at once and written
        to the user's preferences; signed out, nothing happens. */
    method HandleStickerColorChange(color: StickerColor) returns (write: Option<PrefsWrite>)
      requires Valid()
      modifies this
      ensures Valid()
      ensures old(user).None? ==> write.None? && stickerColor == old(stickerColor)
      ensures old(user).Some? ==>
                write == Some(PrefsWrite(old(user).value, color.bg, color.text)) && stickerColor == color
      ensures user == old(user) && habits == old(habits)
      ensures expandedHabitId == old(expandedHabitId) && isAnimatingOut == old(isAnimatingOut)
      ensures pendingCollapses == old(pendingCollapses)
    {
      if user.None? {
        return None;
      }
      stickerColor := color;
      write := Some(PrefsWrite(user.value, color.bg, color.text));
    }

    /** `toggleStampForHabit`: nothing without a user or for an id not in the list;
        otherwise the write that removes the day when the card showed it stamped and
        adds it when not. Applied to the array the card showed, the write toggles
        the day. The page itself does not change: the new array comes back through
        the habits listener. */
    method ToggleStampForHabit(habitId: string, day: int) returns (write: Option<StampWrite>)
      ensures write.Some? <==> user.Some? && FindHabit(habits, habitId).Some?
      ensures write.Some? ==>
                var shown := FindHabit(habits, habitId).value.stamped;
                write.value == StampWrite(user.value, habitId, day in shown, day) &&
                ApplyStampWrite(shown, write.value) == ToggleDay(shown, day)
    {
      if user.None? {
        return None;
      }
      var habit := FindHabit(habits, habitId);
      if habit.None? {
        return None;
      }
      var isStamped := day in habit.value.stamped;
      write := Some(StampWrite(user.value, habitId, isStamped, day));
    }

    /** `handleExpandToggle`: another card is expanded at once; the expanded card
        starts animating out and schedules its collapse. */
    method HandleExpandToggle(habitId: string)
      requires Valid()
      modifies this
      ensures Valid()
      ensures old(expandedHabitId) == Some(habitId) ==>
                isAnimatingOut && expandedHabitId == old(expandedHabitId) &&
                pendingCollapses == old(pendingCollapses) + 1
      ensures old(expandedHabitId) != Some(habitId) ==>
                expandedHabitId == Some(habitId) && isAnimatingOut == old(isAnimatingOut) &&
                pendingCollapses == old(pendingCollapses)
      ensures user == old(user) && habits == old(habits) && stickerColor == old(stickerColor)
    {
      if expandedHabitId == Some(habitId) {
        isAnimatingOut := true;
        pendingCollapses := pendingCollapses + 1;
      } else {
        expandedHabitId := Some(habitId);
      }
    }

    /** A scheduled collapse fires 300 ms later: nothing is expanded or animating. */
    method CollapseTimerFires()
      requires Valid() && pendingCollapses > 0
      modifies this
      ensures Valid()
      ensures expandedHabitId.None? && !isAnimatingOut
      ensures pendingCollapses == old(pendingCollapses) - 1
      ensures user == old(user) && habits == old(habits) && stickerColor == old(stickerColor)
    {
      expandedHabitId := None;
      isAnimatingOut := false;
      pendingCollapses := pendingCollapses - 1;
    }

    /** `handleDeleteHabit`: signed in, the habit's document is deleted and, when it is
        the expanded card, the card is collapsed as by a click on it. The list loses
        the habit when the habits listener delivers the new documents. */
    method HandleDeleteHabit(habitId: string) returns (deleted: Option<(string, string)>)
      requires Valid()
      modifies this
      ensures Valid()
      ensures old(user).None? ==>
                deleted.None? && expandedHabitId == old(expandedHabitId) &&
                isAnimatingOut == old(isAnimatingOut) && pendingCollapses == old(pendingCollapses)
      ensures old(user).Some? ==> deleted == Some((old(user).value, habitId))
      ensures old(user).Some? && old(expandedHabitId) == Some(habitId) ==>
                isAnimatingOut && expandedHabitId == Some(habitId) &&
                pendingCollapses == old(pendingCollapses) + 1
      ensures old(user).Some? && old(expandedHabitId) != Some(habitId) ==>
                expandedHabitId == old(expandedHabitId) && isAnimatingOut == old(isAnimatingOut) &&
                pendingCollapses == old(pendingCollapses)
      ensures user == old(user) && habits == old(habits) && stickerColor == old(stickerColor)
    {
      if user.None? {
        return None;
      }
      deleted := Some((user.value, habitId));
      if expandedHabitId == Some(habitId) {
        HandleExpandToggle(habitId);
      }
    }
  }

  /** A card expanded and clicked again collapses in two steps: it stays expanded
      while animating out, and is closed once the timer fires. */
  method ExpandThenCollapse(habitId: string) returns (expanded: Option<string>, animating: bool, closed: Option<string>)
    ensures expanded == Some(habitId) && animating
    ensures closed.None?
  {
    var page := new HomeState();
    page.HandleExpandToggle(habitId);
    page.HandleExpandToggle(habitId);
    expanded, animating := page.expandedHabitId, page.isAnimatingOut;
    page.CollapseTimerFires();
    closed := page.expandedHabitId;
  }

  /** As written, a card expanded while another is animating out is closed again by
      the other card's timer, which clears the expanded id whatever it is. */
  method ExpandDuringCollapse(first: string, second: string) returns (shown: Option<string>, afterTimer: Option<string>)
    requires first != second
    ensures shown == Some(second)
    ensures afterTimer.None?
  {
    var page := new HomeState();
    page.HandleExpandToggle(first);
    page.HandleExpandToggle(first);
    page.HandleExpandToggle(second);
    shown := page.expandedHabitId;
    page.CollapseTimerFires();
    afterTimer := page.expandedHabitId;
  }
}
