# Shiftaty: a verified model of the shift and earnings core

Shiftaty is a mobile app for doctors who work shifts at several hospitals. Each hospital has a
payment model: a fixed rate per shift, a rate per patient, both added together ("mixed"), or a
salary plus billable items ("detailed"). The doctor logs each shift, and the app prices it and
shows monthly income.

This project models, in Dafny, the parts of the app that decide money and shift data:

- **The app store** (`AppStore`, in `app_store.dfy`). This is the earnings evaluator
  `calculateShiftEarnings` and the six mutators that add, update and delete hospitals and shifts.
  It is a class `Store` whose two sequence fields the mutators replace. The lemmas cover:
  - the evaluator, one payment model at a time;
  - the colour palette;
  - the guard that decides whether `updateShift` recomputes earnings;
  - unique ids, which every mutator keeps as long as new ids are fresh and no update sets an id.
- **The records** (`Types`). Hospital, shift and item rate, with the optional fields as
  `Option` values.
- **The JavaScript idioms** the pages apply to form values (`Js`): `trim`, `x || 0`,
  `x || undefined`, `Math.round`, and the item-count map update.
- **The Edit Shift page** (`EditShift`):
  - the shift length `calcShiftHours`, including overnight shifts;
  - the partial-shift decision and the pro-rata rate;
  - the save and confirm handlers, as methods of a `Form` class over the page's state.
- **The Add Shift page** (`AddShift`): the live estimate, `handleSubmit`'s validation and the
  shift it adds.
- **The Hospitals page** (`Hospitals`): the add/edit form, including its item list, reset and
  open-for-edit, and the record it hands to the store.
- **The Dashboard** (`Dashboard`):
  - the month's shifts (both bounds inclusive) and their totals;
  - the newest-first list, a stable sort;
  - the average per shift;
  - the month arrows.
- **The income breakdown chart** (`IncomeBreakdown`): one slice per hospital with positive
  income. It includes the finding described below.
- **The Profile card** (`Profile`): the avatar's initials and the lifetime earnings total.

The model's conventions:

- Money is `real` and counts are `int`.
- Instants are integers (milliseconds).
- Form inputs arrive already parsed:
  - `parseInt` results are `Option<int>`, where `None` stands for NaN;
  - numeric text inputs are `RateInput`: `Blank`, or `Entered(value)`;
  - clock times are `Option<ClockTime>`.
- Random ids and "now" are parameters. Each method that adds an id requires it to be fresh.

Behaviour of the code that a reader of the pages might not expect:

- **`detailed` pays nothing.** The pages pass `itemCounts` as a fourth argument
  (`src/pages/AddShift.tsx:51-59`, `src/pages/EditShift.tsx:95-102`), but the store's
  `calculateShiftEarnings` takes three parameters and returns 0 for `detailed`
  (`src/stores/appStore.ts:122-140`). The salary and the item rates never enter the earnings.
- **A custom rate needs a known hospital.** The store looks up the hospital before it checks
  the custom rate, so a positive custom rate on an unknown hospital gives 0.
- **`itemCounts` does not trigger recomputation.** `updateShift` recomputes only when the update
  has a truthy `hospitalId`, a defined `casesCount` or a defined `customRate`. So an update that
  sets `customRate: undefined` and nothing else keeps the old earnings
  (`AppStore.ClearingCustomRateKeepsEarnings`).
- **The store is small.** `src/stores/appStore.ts` holds only the hospitals and the shifts: it has
  no remote sync, no reminders, no `importData` and no user profile. Its persistence converts
  dates back but does no defensive coercion and supplies no legacy defaults.

## Model

| member | source | states |
|---|---|---|
| AppStore.PaletteColor | src/stores/appStore.ts:27-36 | the colour given to the n-th hospital is one of the eight palette colours |
| AppStore.PaletteCycles | src/stores/appStore.ts:52 | the palette repeats every 8 hospitals, and 8 consecutive hospitals get 8 different colours |
| AppStore.FirstIndex | src/stores/appStore.ts:123 | the lookup finds nothing exactly when no hospital has the id; otherwise it returns the first one that does |
| AppStore.FindHospital | src/stores/appStore.ts:123 | `find` returns a hospital with that id from the list, or nothing exactly when there is none |
| AppStore.FindFirst | src/stores/appStore.ts:123 | with duplicate ids, `find` returns the earliest one |
| AppStore.CalculateShiftEarnings | src/stores/appStore.ts:122-140 | a shift earns something only at a hospital that is found; the cases below fix each amount |
| AppStore.FirstIndexByIds | src/stores/appStore.ts:123 | the lookup depends only on the hospitals' ids |
| AppStore.EarningsOfUnknownHospital | src/stores/appStore.ts:123-124 | a shift at an unknown hospital earns 0, whatever its custom rate |
| AppStore.EarningsOfCustomRate | src/stores/appStore.ts:126-128 | at a known hospital, a positive custom rate is the earnings |
| AppStore.EarningsByModel | src/stores/appStore.ts:130-139 | without a positive custom rate: fixed pays fixedRate, per_patient pays cases times perPatientRate, mixed pays both, detailed pays 0 |
| AppStore.MixedIsFixedPlusPerPatient | src/stores/appStore.ts:131-136 | the mixed amount equals the fixed amount plus the per-patient amount for the same hospital |
| AppStore.EarningsNonNegative | src/stores/appStore.ts:122-140 | with no negative rate and no negative case count, no shift earns a negative amount |
| AppStore.EarningsReadOnlyRates | src/stores/appStore.ts:122-140 | earnings depend only on ids, payment models and the two rates; name, colour, salary, items and timestamps do not matter |
| AppStore.NewHospital | src/stores/appStore.ts:49-55 | the new hospital gets the fresh id and "now" timestamps; a missing or empty colour becomes the palette colour for the current count |
| AppStore.MergeHospital | src/stores/appStore.ts:64 | the merged hospital is stamped with "now"; an update with no keys changes nothing else |
| AppStore.UpdatedHospitals | src/stores/appStore.ts:61-67 | updateHospital keeps the list length |
| AppStore.UpdateHospitalEffect | src/stores/appStore.ts:61-67 | only hospitals with that id change, and each is merged with the update and re-stamped; an unknown id changes nothing; unique ids stay unique unless the update sets an id |
| AppStore.MergeShift | src/stores/appStore.ts:100 | the merged shift is stamped with "now"; an update with no keys changes nothing else |
| AppStore.MergeTwice | src/stores/appStore.ts:64 | applying the same update twice is the same as applying it once, for hospitals and for shifts |
| AppStore.NewShift | src/stores/appStore.ts:76-89 | the new shift's earnings are the evaluator's value for its hospital, cases and custom rate |
| AppStore.UpdatedShifts | src/stores/appStore.ts:95-114 | updateShift keeps the list length |
| AppStore.UpdatedShift | src/stores/appStore.ts:100-111 | one updated shift is stamped with "now", and keeps its old earnings when the guard fails and the update carries no earnings |
| AppStore.UpdatedShiftEarnings | src/stores/appStore.ts:100-109 | when the guard holds, the earnings are recomputed from the merged fields; otherwise they are the merged value; every other field is the merge |
| AppStore.ClearingCustomRateKeepsEarnings | src/stores/appStore.ts:103 | an update that only clears the custom rate keeps the old earnings |
| AppStore.UpdateShiftEffect | src/stores/appStore.ts:95-114 | only shifts with that id change; an unknown id changes nothing; unique ids stay unique unless the update sets an id |
| AppStore.DeleteHospitalEffect | src/stores/appStore.ts:69-74 | the hospital and all its shifts are removed, and nothing else; both lists keep their order; afterwards that id earns 0 whatever the ids |
| AppStore.DeleteShiftEffect | src/stores/appStore.ts:116-120 | exactly the shifts with that id are removed, order kept; the list shrinks by the number of such shifts |
| AppStore.DeleteShiftCount | src/stores/appStore.ts:116-120 | the list shrinks by exactly the number of shifts with that id |
| AppStore.Store.constructor | src/stores/appStore.ts:45-46 | the store starts with no hospitals and no shifts |
| AppStore.Store.AddHospital | src/stores/appStore.ts:48-59 | appends the new hospital, leaves the shifts alone, keeps ids unique |
| AppStore.Store.UpdateHospital | src/stores/appStore.ts:61-67 | the hospitals become the updated list; the shifts are unchanged, so stored earnings are not repriced |
| AppStore.Store.DeleteHospital | src/stores/appStore.ts:69-74 | removes the hospital and every shift filed under it, keeps ids unique |
| AppStore.Store.AddShift | src/stores/appStore.ts:76-93 | appends the priced shift; the hospitals are unchanged |
| AppStore.Store.UpdateShift | src/stores/appStore.ts:95-114 | the shifts become the updated list; the hospitals are unchanged |
| AppStore.Store.DeleteShift | src/stores/appStore.ts:116-120 | removes the shifts with that id; the hospitals are unchanged |
| Seqs.Filter | src/stores/appStore.ts:72-73 | `filter` keeps exactly the elements that pass, and nothing longer than its input |
| Js.Round | src/pages/Dashboard.tsx:105 | `Math.round` lands within half a unit of its argument |
| Js.RoundMonotone | src/pages/EditShift.tsx:124 | rounding preserves order |
| Js.Trim | src/pages/Hospitals.tsx:116 | `trim` never lengthens its argument |
| Js.TrimIsCore | src/pages/Hospitals.tsx:116 | `trim` returns a contiguous middle part of the string, and only white space is cut from either end |
| Js.TrimEnds | src/pages/Hospitals.tsx:116 | a non-empty trimmed string neither starts nor ends with white space |
| Js.TrimEmptyIff | src/pages/Hospitals.tsx:106 | the trimmed name is empty exactly when the name is all white space |
| Js.TrimmedOrUndefined | src/pages/AddShift.tsx:90 | `notes.trim() \|\| undefined` is nothing exactly for all-white-space notes, else the non-empty trimmed text |
| Js.WithItemCount | src/pages/AddShift.tsx:248-251 | the item-count edit sets that item's count (unparsable gives 0) and leaves every other count as it was |
| EditShift.ShiftMinutes | src/pages/EditShift.tsx:40-41 | for valid clock times the length in minutes is in (0, 1440] and brings the start time to the end time |
| EditShift.CalcShiftHours | src/pages/EditShift.tsx:37-43 | the length is undefined exactly when a time does not parse |
| EditShift.ClockEqualIff | src/pages/EditShift.tsx:40 | two valid times fall at the same minute of the day only when they are equal |
| EditShift.ShiftHoursRange | src/pages/EditShift.tsx:37-43 | the length is in (0, 24] hours, is 24 exactly when start equals end (a full day), is a whole number of hundredths, and is within 0.005 h of the exact length |
| EditShift.ParseClock | src/pages/EditShift.tsx:38-39 | a time input's "HH:MM" reads as its hour and minute, each between 0 and 99; the cleared input reads as unparsable |
| EditShift.FormatClock | src/pages/EditShift.tsx:38-39 | a valid clock time shows as five characters with the colon in the middle |
| EditShift.ParseFormatClock | src/pages/EditShift.tsx:38-39 | reading back what a time input shows gives the same clock time |
| EditShift.ShiftHoursExamples | src/pages/EditShift.tsx:37-43 | read from the time inputs, 22:00 to 06:00 is 8 hours, 09:00 to 17:00 is 8 hours, and 09:00 to 09:00 is 24 hours |
| EditShift.ProRata | src/pages/EditShift.tsx:124 | a full day gives the whole rounded estimate and zero hours give 0 |
| EditShift.ProRataBounds | src/pages/EditShift.tsx:124 | the pro-rata rate is between 0 and the rounded full estimate |
| EditShift.DecideSave | src/pages/EditShift.tsx:121-131 | the dialog opens exactly for a parsed length under 24 hours without a custom rate, with the pro-rata rate pending; otherwise the direct rate is saved |
| EditShift.PartialDialogIffShortShift | src/pages/EditShift.tsx:122-123 | with valid times and no custom rate, the dialog opens exactly when start and end differ |
| EditShift.PendingRateEarnings | src/pages/EditShift.tsx:133 | a positive pending rate is what the shift then earns; a rate rounded to 0 falls back to the payment model |
| EditShift.Form.constructor | src/pages/EditShift.tsx:56-80 | built on the first stored shift with the route's id, every field is pre-filled from the shift; the custom-rate toggle is on exactly for a non-zero rate; the dialog starts closed |
| EditShift.Form.DirectRate | src/pages/EditShift.tsx:99 | the custom rate is used exactly when the toggle is on and the field holds a non-zero number, and it is that number |
| EditShift.Form.EstimatedEarnings | src/pages/EditShift.tsx:95-102 | the estimate is 0 without a selected hospital |
| EditShift.Form.SavePatch | src/pages/EditShift.tsx:105-116 | the update always makes the store recompute earnings; it sets the hospital, the date, both times, the parsed case and procedure counts, the trimmed notes, the override and the detailed-only item counts |
| EditShift.Form.DoSave | src/pages/EditShift.tsx:104-119 | the edited shift is updated with that patch and its stored earnings become the evaluator's value for the form's hospital, cases and override |
| EditShift.Form.HandleSave | src/pages/EditShift.tsx:121-131 | it decides on the hours between the form's own start and end inputs: either it opens the dialog with the hours and the pro-rata rate, changes no other field and saves nothing, or it changes no field, saves the direct rate, and the stored earnings equal the estimate the page showed |
| EditShift.Form.HandleConfirmHourly | src/pages/EditShift.tsx:133 | closes the dialog, changes no other field, and saves with the pending pro-rata rate, which then prices the shift |
| EditShift.Form.HandleConfirmFixed | src/pages/EditShift.tsx:134 | closes the dialog, changes no other field, and saves with the direct rate; the stored earnings equal the estimate shown |
| EditShift.Form.SetItemCount | src/pages/EditShift.tsx:269-272 | sets one item's count and changes no other field of the page |
| AddShift.Form.constructor | src/pages/AddShift.tsx:30-41 | a new form: no hospital, today's date, 09:00 to 09:00, blank counts and rate, toggle off, no item counts |
| AddShift.Form.DirectRate | src/pages/AddShift.tsx:56 | the custom rate is used exactly when the toggle is on and the field holds a non-zero number |
| AddShift.Form.EstimatedEarnings | src/pages/AddShift.tsx:51-59 | the estimate is 0 without a selected hospital that is found |
| AddShift.Form.Payload | src/pages/AddShift.tsx:61-93 | no hospital is refused first and no date second; otherwise the payload carries the form's hospital, date, start and end times, parsed counts, outpatient flag, notes, rate and item counts, and the store prices it exactly as the estimate |
| AddShift.Form.HandleSubmit | src/pages/AddShift.tsx:61-101 | a refused form adds nothing; an accepted one appends one shift whose stored earnings equal the estimate shown before submitting |
| AddShift.Form.SetItemCount | src/pages/AddShift.tsx:246-251 | sets one item's count and changes no other field of the form |
| Hospitals.DeleteItemEffect | src/pages/Hospitals.tsx:101-103 | removing an item keeps exactly the items with other ids, in order, and keeps item ids unique |
| Hospitals.ResaveHospital | src/pages/Hospitals.tsx:73-85 | opening a hospital and saving it unchanged alters only the name's surrounding white space, fills in a missing salary (0) and item list (empty), and restamps it |
| Hospitals.Form.constructor | src/pages/Hospitals.tsx:41-52 | the page starts with a closed dialog and a reset form |
| Hospitals.Form.ResetForm | src/pages/Hospitals.tsx:60-71 | every form field is blank again and nothing is being edited; the open flag is untouched |
| Hospitals.Form.HandleOpenChange | src/pages/Hospitals.tsx:266-268 | opening the dialog changes nothing but the open flag; closing it leaves it closed with every field blank and nothing being edited |
| Hospitals.Form.OpenEditDialog | src/pages/Hospitals.tsx:73-85 | loads the hospital's values, an absent salary as blank and absent items as empty, and opens the dialog; submitting now would send the hospital's own values |
| Hospitals.Form.HandleAddItem | src/pages/Hospitals.tsx:87-99 | a blank name or rate changes nothing; otherwise one item with the trimmed name is appended, the two inputs are cleared and no other field changes; item ids stay unique |
| Hospitals.Form.HandleDeleteItem | src/pages/Hospitals.tsx:101-103 | removes the items with that id and changes no other field of the form |
| Hospitals.Form.SubmittedData | src/pages/Hospitals.tsx:115-122 | the record has the trimmed name and blank rates as 0; it always carries a salary and the item list, and no colour |
| Hospitals.Form.SubmittedPatch | src/pages/Hospitals.tsx:124-125 | as an update, it sets every field of that record and leaves id, colour and creation time alone |
| Hospitals.Form.HandleSubmit | src/pages/Hospitals.tsx:105-140 | a blank name changes neither the store nor any field of the form; a truthy edited id updates that hospital; otherwise a new hospital with a palette colour is added; then the form is reset and closed |
| Dashboard.PrevMonth | src/pages/Dashboard.tsx:40 | the left arrow moves exactly one month back, across years |
| Dashboard.NextMonth | src/pages/Dashboard.tsx:41 | the right arrow moves exactly one month forward, across years |
| Dashboard.MonthNumberInjective | src/pages/Dashboard.tsx:40-41 | a month is determined by its position in the month count |
| Dashboard.MonthStepsInvert | src/pages/Dashboard.tsx:40-41 | the two arrows undo each other |
| Dashboard.ShiftsBetween | src/pages/Dashboard.tsx:22-25 | exactly the shifts dated within the window, both ends included, are kept |
| Dashboard.ShiftsBetweenAppend | src/pages/Dashboard.tsx:22-25 | the window filter keeps the stored order |
| Dashboard.MonthShifts | src/pages/Dashboard.tsx:22-25 | the month's shifts are exactly the stored shifts dated from the first instant to the last instant of the month |
| Dashboard.TotalsAppend | src/pages/Dashboard.tsx:28-29 | the income and patient sums add over concatenation |
| Dashboard.TotalsPermutation | src/pages/Dashboard.tsx:28-36 | the sums do not depend on the order of the shifts |
| Dashboard.TotalIncomeNonNegative | src/pages/Dashboard.tsx:29 | with no negative earnings the income is not negative |
| Dashboard.InsertByDatePermutes | src/pages/Dashboard.tsx:36 | one insertion step of the sort adds exactly the inserted shift |
| Dashboard.InsertByDateSorted | src/pages/Dashboard.tsx:36 | one insertion step keeps a newest-first list newest first |
| Dashboard.SortByDateDescCorrect | src/pages/Dashboard.tsx:35-36 | the list is newest first and holds exactly the month's shifts |
| Dashboard.SortByDateDescStable | src/pages/Dashboard.tsx:36 | shifts of the same date keep their stored order |
| Dashboard.MonthlyStatsCorrect | src/pages/Dashboard.tsx:18-38 | the count, patient sum and income sum are those of the month's shifts; the list is a newest-first permutation of them with the same totals |
| Dashboard.AddedShiftStats | src/pages/Dashboard.tsx:18-38 | logging a shift changes the month's figures by exactly that shift when it falls in the month, and not at all otherwise |
| Dashboard.AvgPerShift | src/pages/Dashboard.tsx:103-107 | 0 without shifts; otherwise within half a unit of income per shift |
| Dashboard.AvgOfEqualEarnings | src/pages/Dashboard.tsx:103-107 | a month whose shifts all earned the same whole amount averages exactly that amount, whatever other months' shifts earned |
| IncomeBreakdown.CandidateEntries | src/components/dashboard/IncomeBreakdown.tsx:23-38 | one entry per hospital in hospital order: name, income and number of its in-window shifts, and its colour or the default "#3b82f6" |
| IncomeBreakdown.Candidates | src/components/dashboard/IncomeBreakdown.tsx:23-38 | one candidate entry per hospital |
| IncomeBreakdown.BreakdownAsWritten | src/components/dashboard/IncomeBreakdown.tsx:14-39 | the chart as written has at most one slice per hospital |
| IncomeBreakdown.Breakdown | src/components/dashboard/IncomeBreakdown.tsx:23-39 | the corrected chart has at most one slice per hospital |
| IncomeBreakdown.EarningAppendHospital | src/components/dashboard/IncomeBreakdown.tsx:23-39 | over any window, a further hospital adds its slice at the end exactly when its income is positive |
| IncomeBreakdown.BreakdownAppendHospital | src/components/dashboard/IncomeBreakdown.tsx:23-39 | in the chart as written and in the corrected one, a further hospital adds its slice at the end exactly when its income is positive |
| IncomeBreakdown.BreakdownPositive | src/components/dashboard/IncomeBreakdown.tsx:39 | every slice has a positive value, in the chart as written and in the corrected one |
| IncomeBreakdown.UnmatchedShiftIgnored | src/components/dashboard/IncomeBreakdown.tsx:23-27 | a shift whose hospital is unknown changes no slice |
| IncomeBreakdown.BreakdownSumsToMonthIncome | src/components/dashboard/IncomeBreakdown.tsx:14-42 | with the month window corrected, unique hospital ids, no negative earnings and no orphan shifts, the slices add up to the dashboard's Total Income |
| IncomeBreakdown.LastDayShiftMissing | src/components/dashboard/IncomeBreakdown.tsx:15-20 | a 09:00 shift on the month's last day counts on the dashboard but is missing from the chart as written |
| Profile.Split | src/pages/Profile.tsx:43 | `split(" ")` always gives at least one piece |
| Profile.SplitJoin | src/pages/Profile.tsx:43 | the pieces hold no space and join back into the name |
| Profile.UpperCase | src/pages/Profile.tsx:46 | upper-casing keeps the length |
| Profile.Initials | src/pages/Profile.tsx:42-47 | at most two initials, and a name that does not start with a space starts them with its own first character, upper-cased |
| Profile.InitialsAreWordStarts | src/pages/Profile.tsx:42-47 | the initials are the characters that start a word, upper-cased, at most two; empty words add nothing |
| Profile.InitialsEmptyIff | src/pages/Profile.tsx:42-47 | the initials are empty exactly when the name has no character other than a space |
| Profile.InitialsOfTwoWords | src/pages/Profile.tsx:42-47 | "mo al" gives "MA" |
| Profile.InitialsSkipExtraSpaces | src/pages/Profile.tsx:43-45 | " sa  ez" gives "SE" |
| Profile.InitialsKeepTwo | src/pages/Profile.tsx:47 | "d o h" gives "DO" |
| Profile.IncomeSplitsByWindow | src/pages/Profile.tsx:104 | all income is the income inside a window plus the income outside it |
| Profile.LifetimeCoversMonth | src/pages/Profile.tsx:104 | the lifetime total is a month's Total Income plus all other income; with no negative earnings it is at least any month's |

## Left out

- Persistence (`src/stores/appStore.ts:142-169`): zustand and localStorage, and the JS `Date` to ISO string conversion, are outside the model.
- Remote sync, the session, the user profile and reminders do not appear in the store modelled here.
- EditShift.ParseClock: reads only the "HH:MM" shape a time input gives (or the empty string); other strings that `Number` would still read, such as " 9:5", are taken as unparsable.
- `generateId` and the random item id are replaced by fresh-id parameters; the methods require the id to be unused.
- Parsing of form strings (`parseInt`, `parseFloat`, `split(":").map(Number)`) is left out.
  - The model takes parsed values.
  - A number input's text is taken to be either blank or a valid number.
- NaN is represented only as `None`.
- The date-fns month bounds are inputs (`Dashboard.MonthBounds`), not computed from a calendar.
- Daylight-saving days are represented only through the 23-hour lower bound on a last day.
- Floating-point rounding is left out: money is exact, and the chart's percentages and `toLocaleString` formatting are not modelled.
- Dashboard.PrevMonth: does not model `subMonths`' effect on the day of the month and the time, only which month is selected.
- Dashboard.NextMonth: does not model `addMonths`' effect on the day of the month and the time, only which month is selected.
- Profile.FirstChars: JavaScript's `w[0]` is one UTF-16 code unit, so a word that starts with a character outside the Basic Multilingual Plane gives a lone surrogate; the model takes the whole character.
- Profile.UpperCase: upper-cases only a-z; `toUpperCase`'s full Unicode case mapping is not modelled.
- Profile.LifetimeEarnings: `s.totalEarnings || 0` differs from the plain sum only for NaN, which exact numbers cannot hold.
- Every update is stamped with `updatedAt` by the store, but the pages' patches have no `updatedAt` key; a partial update that sets `updatedAt` itself is not represented.
- Rendering, toasts, navigation and plain field setters are left out, except the item-count setter.
- The "Shift not found" screen of `src/pages/EditShift.tsx:82-91` is left out; the edit form is built only for an existing shift, the first stored one with the route's id (`shifts.find`, `src/pages/EditShift.tsx:56`), which the constructor of `EditShift.Form` requires.
- `handleDelete` on the Hospitals page is the store's `deleteHospital` plus a toast, and is covered by `AppStore.Store.DeleteHospital`.

## Findings

| source | as written | input that shows it | evidently intended | confidence | as-written member | corrected member |
|---|---|---|---|---|---|---|
| src/components/dashboard/IncomeBreakdown.tsx:15-20 | the chart's window ends at `new Date(y, m + 1, 0)`, 00:00 on the month's last day | a shift dated 09:00 on the last day (the Add Shift form's default date is the current time): the dashboard counts its income, but the chart omits it, so the slices no longer add up to Total Income | the window ends where the dashboard's does, at the end of the last day (`endOfMonth`) | high (not executed) | IncomeBreakdown.BreakdownAsWritten, shown by IncomeBreakdown.LastDayShiftMissing | IncomeBreakdown.Breakdown, with IncomeBreakdown.BreakdownSumsToMonthIncome |
