# St1mps habit stamp cards, in Dafny

St1mps is a web app for habit "stamp cards": a card with a title, a goal of N
stamps and a grid of day buttons, where each button a user clicks marks that day
as done. This project models the parts of the app that compute something:

- **the new/edit stamp form** (`NewHabitForm`, src/app/new/page.tsx): the form
  state and its handlers, as a class with `formData` and `matchDays` fields. It
  also covers the "match number of days" effect, the inclusive period from
  creation to end date, the calendar's past-date rule, the preview and saved
  subtitles ("N day(s)") and the preview grid of at most ten cells.
- **the signed-in home page** (`HomeCards`, src/app/home/page.tsx):
  - what a card derives from its habit: completion, the rounded percentage, the
    stamp buttons, the ellipsis cell and the icon;
  - how a click toggles a day through Firestore `arrayUnion`/`arrayRemove`;
  - the sticker colour read from the stored preferences;
  - the page state as a class, with the auth and snapshot listeners, the
    sticker handler, deletion and the two-step expand/collapse of a card.
- **the local-storage habit list** (`LocalHabits`, src/app/page.tsx): toggling
  a day, inserting or replacing a handed-over habit by the part of its id
  before the first '-' (a method that updates a copied array in place), and
  deleting a habit. The upsert and the delete return the local-storage stamp
  keys they remove.
- **the theme tooltip label** (`ThemeLabel`, src/components/controls.tsx): the
  first '-' becomes " & ", then every word start is upper-cased.
- **the stamp icon table** (`Icons`, src/components/icons.tsx): eleven icons,
  the ten a user may pick, and the lookup that renders nothing for an unknown
  name.
- **the landing page's sample card** (`LandingCard`,
  src/components/landing/stamp-card.tsx): cell counts and React keys.
- **a single stamp button** (`StampButton`, src/components/stamp.tsx): a class
  whose `isStamped` flag a click flips, and the aria attributes, icon and day
  number that follow it.

`Common` holds generic sequence helpers: `Filter`, `Without`, `FindIndex` and
`Range`. `NumberText` holds the decimal text of an integer (template-literal
`${n}`) and its integer parse (`Number(text)`).

Dates are whole days, represented as integer day numbers in local time, so
`differenceInCalendarDays(a, b)` is `a - b`. Firestore and local-storage writes
are returned as values that describe them, such as `StampWrite`, `PrefsWrite`
and `StorageUpdate`. Data that listeners deliver becomes a parameter of the
listener method.

One behaviour is modelled as written: a collapse timer clears whichever card is
expanded when it fires. That includes a card expanded in the 300 ms after another
card was clicked closed (`HomeCards.ExpandDuringCollapse`).

## Model

| member | source | states |
|---|---|---|
| `NewHabitForm.WithInput` | src/app/new/page.tsx:162 | The edited input's field holds the typed text; every other input and every other form field keep their values. |
| `NewHabitForm.WithSelect` | src/app/new/page.tsx:166 | The chosen select's field holds the new value; every other select and every other form field keep their values. |
| `NewHabitForm.PeriodCountsCalendarDays` | src/app/new/page.tsx:145 | With an end date, the period (clamped at 0) is the number of calendar days from the creation day through the end date, both included. |
| `NewHabitForm.SelectableEndDatePeriod` | src/app/new/page.tsx:365 | On a habit created today or earlier, any end date the calendar lets the user pick gives a period of at least 1 day, covering every day from today to the end date. |
| `NewHabitForm.DaysLabelReads` | src/app/new/page.tsx:184 | An "N day(s)" label reads back as the number it shows, with "days" exactly when the period is not 1. |
| `NewHabitForm.PreviewSubtitleReads` | src/app/new/page.tsx:265 | The preview subtitle shows max(period, 0), with "day" only for a period of exactly 1 (so a period of 0 or less reads "0 days"). |
| `NewHabitForm.SavedSubtitleReads` | src/app/new/page.tsx:181-185 | The saved subtitle is "0 days" without an end date; otherwise it shows the unclamped period, with "day" only for a period of 1. |
| `NewHabitForm.SubtitlesAgree` | src/app/new/page.tsx:181-185 | The preview and saved subtitles are equal exactly when the period is not negative. |
| `NewHabitForm.PreviewLayout` | src/app/new/page.tsx:267-287 | With n = Number(numStamps) and NaN taken as 0, the preview draws min(max(n, 0), 10) cells numbered 1, 2, … in order, plus a "..." cell exactly when n > 10. |
| `NewHabitForm.SyncedStamps` | src/app/new/page.tsx:147-154 | With matching on and an end date giving a positive period, numStamps becomes the period; in every other case the form data is unchanged, and no other field ever changes. |
| `NewHabitForm.HabitForm.constructor` | src/app/new/page.tsx:141 | A new form holds the initial form data with createdAt set to today, and matching off. |
| `NewHabitForm.HabitForm.MatchDaysEffect` | src/app/new/page.tsx:147-154 | The effect's new form data is the synced data; matchDays is unchanged; afterwards the count agrees with the period whenever syncing applies. |
| `NewHabitForm.HabitForm.HandleInputChange` | src/app/new/page.tsx:157-163 | Only the edited field changes. matchDays turns off exactly when the stamp count is edited and otherwise stays as it was. An edit never breaks an existing count-period agreement. |
| `NewHabitForm.HabitForm.HandleSelectChange` | src/app/new/page.tsx:165-167 | Only the chosen select's field changes; matchDays is unchanged. |
| `NewHabitForm.HabitForm.HandleDateChange` | src/app/new/page.tsx:169-171 | Only endDate changes. |
| `NewHabitForm.HabitForm.HandleLogoChange` | src/app/new/page.tsx:173-175 | Only stampLogo changes. |
| `NewHabitForm.HabitForm.SetMatchDays` | src/app/new/page.tsx:375 | The checkbox sets matchDays and leaves the form data alone. |
| `NewHabitForm.NewHabitMatchingDays` | src/app/new/page.tsx:147-154 | On a new form, picking an end date and ticking "match" makes the stamp count equal the inclusive period, which is at least 1; the saved subtitle then reads that many days. |
| `LocalHabits.StampsKeyInjective` | src/app/page.tsx:248 | Different habit ids have different stamp storage keys. |
| `LocalHabits.ToggleStamp` | src/app/page.tsx:65-68 | A stamped day is removed: it is no longer in the list, and every copy of it and nothing else is gone. An unstamped day is appended at the end. |
| `LocalHabits.ToggleRemovalKeepsOrder` | src/app/page.tsx:67 | Removing a day keeps the other days in their original order. |
| `LocalHabits.ToggleStampTwice` | src/app/page.tsx:65-68 | Toggling an absent day twice gives back exactly the original list. For a stamped day in a list without duplicates, it moves the day to the end and keeps the same days. |
| `LocalHabits.IdPrefix` | src/app/page.tsx:205 | The prefix is hyphen-free, starts the id, and is followed by '-' unless it is the whole id. |
| `LocalHabits.IdPrefixUnique` | src/app/page.tsx:205 | Those three properties determine the prefix: it is the text before the first '-', or the whole id. |
| `LocalHabits.UpsertReplacesFirstMatch` | src/app/page.tsx:203-217 | With a matching prefix, only the first match is replaced and the length and every other entry are unchanged. The old stamp key is removed exactly when the full ids differ. |
| `LocalHabits.UpsertAppendsNewPrefix` | src/app/page.tsx:219-220 | With no matching prefix, the habit is appended and no stamp key is removed. |
| `LocalHabits.UpsertAgainAt` | src/app/page.tsx:204-217 | A habit put at the first prefix match is still the first match, so a second upsert replaces it by itself and removes no key. |
| `LocalHabits.UpsertAgainAppended` | src/app/page.tsx:219-220 | An appended habit is the first match of its prefix, so a second upsert replaces it by itself and removes no key. |
| `LocalHabits.UpsertIdempotent` | src/app/page.tsx:203-226 | Handing over the same habit again leaves the list as it is and removes nothing. |
| `LocalHabits.SearchPrefix` | src/app/page.tsx:204-206 | The search loop stops at the first habit whose id prefix matches, or at the end of the list exactly when none does. |
| `LocalHabits.ReplaceAt` | src/app/page.tsx:210-217 | Updating the copied array in place replaces exactly the entry at the match. The old habit's stamp key is removed exactly when its id differs. |
| `LocalHabits.ApplyNewHabit` | src/app/page.tsx:199-226 | The search and the in-place update produce exactly the list and removed keys of the upsert. A parameter that does not decode changes nothing. |
| `LocalHabits.Deleted` | src/app/page.tsx:251-256 | No habit with the id remains. Every other habit stays exactly as often as it occurred, so the list never grows. That id's stamp key is removed. |
| `LocalHabits.DeleteKeepsOrder` | src/app/page.tsx:238 | Deleting keeps the remaining habits in their original order. |
| `Icons.StampIconKeysComplete` | src/components/icons.tsx:17-29 | The table has every icon name exactly once. |
| `Icons.KeyInjective` | src/components/icons.tsx:17-29 | No two icons share a key text. |
| `Icons.StampIconNamesInOrder` | src/components/icons.tsx:34 | The selectable names are the keys after "check", in declaration order. |
| `Icons.KeysAfterCheck` | src/components/icons.tsx:33-34 | There are ten selectable names, with no duplicates; "check" is not among them and every other name is. |
| `Icons.Lookup` | src/components/icons.tsx:40 | The lookup finds an icon exactly when some key has that text, and the icon found has that key. |
| `Icons.StampIcon` | src/components/icons.tsx:36-43 | Nothing is rendered exactly when no icon has the name; otherwise the icon rendered is the one with that name. |
| `Icons.StampIconOfKey` | src/components/icons.tsx:40-42 | Every icon's own name renders that icon. |
| `ThemeLabel.ToUpper` | src/components/controls.tsx:114 | Upper-casing a word character changes only lower-case letters, to their capitals, and keeps word characters word characters. |
| `ThemeLabel.ReplaceWithoutHyphen` | src/components/controls.tsx:113 | A name without '-' is unchanged by the first replace. |
| `ThemeLabel.ReplaceAtFirstHyphen` | src/components/controls.tsx:113 | Only the first '-' becomes " & "; the text before it and after it, later hyphens included, is kept. |
| `ThemeLabel.ReplaceLength` | src/components/controls.tsx:113 | The replaced text is two characters longer exactly when the name contains '-'. |
| `ThemeLabel.CapitalizeFromSpec` | src/components/controls.tsx:114 | The capitalising pass keeps the length and upper-cases exactly the characters that start a word. |
| `ThemeLabel.CapitalizeWords` | src/components/controls.tsx:114 | Every word character at index 0 or after a non-word character is upper-cased; every other character is unchanged; the length is kept. |
| `ThemeLabel.CapitalizeWordsIdempotent` | src/components/controls.tsx:114 | Capitalising a second time changes nothing. |
| `ThemeLabel.LabelShape` | src/components/controls.tsx:112-114 | The label is the name's length plus 2 when the name has a '-', and the same length otherwise. Capitalising the label again leaves it unchanged. |
| `ThemeLabel.TwoWordLabel` | src/components/controls.tsx:112-114 | Two lower-case words joined by '-' give the two words, each capitalised, joined by " & ". |
| `ThemeLabel.NavyPurpleLabel` | src/lib/themes.ts:10 | "navy-purple" is labelled "Navy & Purple". |
| `ThemeLabel.SlateIndigoLabel` | src/lib/themes.ts:34 | "slate-indigo" is labelled "Slate & Indigo". |
| `ThemeLabel.TwoHyphensLabel` | src/components/controls.tsx:113 | "a-b-c" is labelled "A & B-C": only the first hyphen is replaced. |
| `LandingCard.GridKeys` | src/components/landing/stamp-card.tsx:38-45 | No two cells of the sample card share a key. |
| `LandingCard.CellCounts` | src/components/landing/stamp-card.tsx:35-48 | The card has `stamps` filled cells (none for a negative count) and max(0, 10 - stamps) empty cells. So it has max(stamps, 10) cells in all for a non-negative count, exactly 10 from 0 through 10. |
| `LandingCard.GridKeysAreConsecutive` | src/components/landing/stamp-card.tsx:35-48 | For a count from 0 through 10, the keys are 0 through 9 in order. |
| `StampButton.AriaLabelInjective` | src/components/stamp.tsx:22 | The aria-label determines both the day and the stamped state. |
| `StampButton.Stamp.constructor` | src/components/stamp.tsx:13 | A new button is unstamped. |
| `StampButton.Stamp.HandleClick` | src/components/stamp.tsx:15-17 | A click flips the stamped state. |
| `StampButton.ButtonReflectsState` | src/components/stamp.tsx:22-43 | A button whose label reads day d in state s has that day and state. aria-pressed and the icon both equal the state. The day number is hidden exactly when stamped. |
| `StampButton.ClickTwice` | src/components/stamp.tsx:15-17 | A new button clicked once is labelled stamped; clicked again it is labelled unstamped, as it began. |
| `HomeCards.ProgressPercent` | src/app/home/page.tsx:94 | The percentage is 0 without a positive goal. Otherwise it is the whole number nearest to 100·stamped/goal, with halves rounded up. |
| `HomeCards.CompleteShowsFull` | src/app/home/page.tsx:93-94 | A complete card shows at least 100%. |
| `HomeCards.IncompleteShowsAtMostFull` | src/app/home/page.tsx:93-94 | An incomplete card with a goal shows at most 100%. |
| `HomeCards.PercentNotCapped` | src/app/home/page.tsx:94 | The percentage is not capped (3 stamps of 2 show 150%); thirds round to 33 and 67; a goal of 0 shows 0. |
| `HomeCards.CompleteIffEveryDayStamped` | src/app/home/page.tsx:93 | When the stamps are distinct days of the card, the card is complete exactly when every day from 1 through the goal is stamped. |
| `HomeCards.CardLayout` | src/app/home/page.tsx:170-196 | A collapsed card shows buttons for days 1 through min(goal, 10); an expanded card shows one for every day of the goal, in order. The ellipsis shows exactly when the card is collapsed and the goal exceeds 10. |
| `HomeCards.CardIconRenders` | src/app/home/page.tsx:186 | A card without a logo shows the check icon; a card whose logo names an icon shows that icon. |
| `HomeCards.ArrayUnion` | src/app/home/page.tsx:348 | After arrayUnion the day is present; the array holds the old elements plus the day; no duplicate is created. |
| `HomeCards.ArrayRemove` | src/app/home/page.tsx:344 | After arrayRemove the day is absent; every other element is kept; no duplicate is created. |
| `HomeCards.ToggleDay` | src/app/home/page.tsx:339-349 | The clicked day's membership flips, every other day keeps its membership, and no duplicate is created. |
| `HomeCards.ToggleDayTwice` | src/app/home/page.tsx:339-349 | Toggling twice restores the set of stamped days; for a day not stamped, it restores the exact array. |
| `HomeCards.ToggleDayMatchesLocalPage` | src/app/home/page.tsx:339-349 | The home page toggles a day exactly as the local-storage page does. |
| `HomeCards.FindHabit` | src/app/home/page.tsx:335 | A habit is found exactly when one has the id, and the habit found has that id and is in the list. |
| `HomeCards.FindSticker` | src/app/home/page.tsx:263 | An option is found exactly when both stored values name one, and the option found is that one. |
| `HomeCards.HomeState.constructor` | src/app/home/page.tsx:219-224 | The page starts signed out, with no habits, the pink sticker, and nothing expanded or animating. |
| `HomeCards.HomeState.AuthStateChanged` | src/app/home/page.tsx:231-239 | The user becomes the reported one. Signing out clears the habits; nothing else changes. |
| `HomeCards.HomeState.ReceiveHabits` | src/app/home/page.tsx:249-254 | While signed in, the habit list becomes the delivered documents; nothing else changes. |
| `HomeCards.HomeState.ReceivePreferences` | src/app/home/page.tsx:260-267 | The sticker colour changes exactly when a signed-in user's stored bg and text both match one option, and then becomes that option. It stays one of the options. |
| `HomeCards.HomeState.HandleStickerColorChange` | src/app/home/page.tsx:362-371 | Signed out, nothing happens. Signed in, the colour is shown at once and written to that user's preferences. |
| `HomeCards.HomeState.ToggleStampForHabit` | src/app/home/page.tsx:332-354 | No write happens without a user or for an unknown id. Otherwise the write removes the day when the card showed it stamped and adds it when not. Applied to that array, the write toggles the day. |
| `HomeCards.HomeState.HandleExpandToggle` | src/app/home/page.tsx:320-330 | Another card is expanded at once. The expanded card instead starts animating out, stays expanded, and gains a pending collapse. |
| `HomeCards.HomeState.CollapseTimerFires` | src/app/home/page.tsx:323-326 | A pending collapse leaves nothing expanded or animating. |
| `HomeCards.HomeState.HandleDeleteHabit` | src/app/home/page.tsx:280-291 | Signed out, nothing happens. Signed in, the user's habit document is deleted, and the card collapses as if clicked when it was the expanded one. |
| `HomeCards.ExpandThenCollapse` | src/app/home/page.tsx:320-330 | A card expanded and clicked again stays expanded while animating out, and is closed once its timer fires. |
| `HomeCards.ExpandDuringCollapse` | src/app/home/page.tsx:320-330 | A card expanded while another is animating out is closed by the other card's timer. |

## Left out

- The habit-extraction flow (src/ai/flows/extract-habit-details.ts): its
  numbers come from a language model through prompt text; no code resolves
  dates or counts there. The only day counting in the code is the form's
  (src/app/new/page.tsx:145-154), which is modelled.
- Firebase Auth, Firestore and localStorage I/O. Writes are returned as values,
  listener deliveries become method parameters, and reads and parse steps are
  not modelled. A failed write is not modelled either: every write is taken to
  succeed.
- HomeCards.HomeState.HandleDeleteHabit: collapses the card as if `deleteDoc`
  succeeded; when it throws, the page does not collapse the card.
- Router navigation (the redirect to /signin, `router.replace`), the carousel
  and its scroll-to-habit effect, the rest of `handleSubmit` (the document
  write and navigation; its subtitle is modelled by
  `NewHabitForm.SavedSubtitle`), the habit fetch of the edit form, and the
  sign-in, sign-up and layout pages.
- src/components/stamp-tracker.tsx only renders days 1..days; its numbering is
  the one `HomeCards.CardLayout` states.
- src/lib/themes.ts is a data table; only two of its names are used, as inputs
  to the label.
- Timing: the 300 ms `setTimeout` is kept only as a pending-collapse count and
  the two-step state. Time zones, daylight saving and time of day are not
  modelled, since dates are day numbers. Date formatting ("PPP") is not modelled.
- HomeCards.ProgressPercent: rounds the exact quotient half-up. JavaScript's
  floating-point `Math.round((s / n) * 100)` can differ at a few .5 boundaries
  (for example 29 stamps of 200).
- NewHabitForm.NumberValue: `Number(text)` is modelled for "" and optionally
  signed decimal integers. Every other text (decimals, exponents, spaces,
  hexadecimal) counts as NaN.
- A habit document without `stampLogo` is modelled with the empty text, which
  `||` treats the same way.
- Icons.StampIcon: an object lookup also finds names inherited from the
  object prototype (such as "constructor"); the model's table holds the eleven
  keys only.
- LocalHabits.ApplyNewHabit: the `habit` URL parameter's JSON decode is a
  parameter (None when it throws). A decoded value's shape is not checked.
- Styling, CSS classes and colours, apart from the sticker options and the day
  number's opacity.
