# Janaina Iara grooming site: booking scheduler and portfolio, in Dafny

This project models the client-side logic of a pet-grooming website.

The booking scheduler (`CalendarScheduler` in `calendar.js`):

- a fixed availability table of `YYYY-MM-DD` records, each listing hourly times or the whole-day sentinel `DIA_FREELANCER`;
- the month grid: leading blanks, then one cell per day with its date key and its class (past, Sunday-unavailable, clickable), computed with the proleptic Gregorian day arithmetic of ECMA-262 section 21.4;
- the selection state machine (date, time, time panel, booking form, service select, pet-name `required` flag, displayed month);
- the WhatsApp booking message and its `wa.me` link.

The portfolio and contact code (`script_github.js`):

- the gallery list, flattened from the image server's category → images answer or replaced by a fixed fallback list;
- category filtering with a twelve-image cap;
- the contact form's WhatsApp message.

Modules, one per file: `Wrappers` (Option), `Gregorian` (day numbers, weekdays, month lengths), `DateKeys` (the `YYYY-MM-DD` key and its parser), `Availability`, `CalendarGrid`, `Navigation`, `TimeSlots`, `Messages` (messages as lists of lines, the `wa.me` link), `BookingMessages`, `ContactMessages`, `Scheduler` (class `CalendarScheduler`), `Portfolio` (class `PortfolioManager`) and `Sequences` (sequence facts the grid and the contact message share).

The inputs the code reads from outside are parameters:

- the clock (`new Date()`) is a `today: Date` parameter;
- the pt-BR date formatter (`toLocaleDateString`) is a `string -> string` parameter applied to the date key;
- `encodeURIComponent` is a `string -> string` parameter;
- the portfolio request is a `LoadOutcome` parameter: a decoded answer or a failure.

The code behaves as follows, and the model does the same:

- the availability table is embedded in the constructor; nothing fetches it;
- only Sunday is closed; Saturdays are clickable;
- submitting validates nothing (only the HTML `required` attributes guard the fields);
- the hourly template always prints the `Nome do Pet` line, even when it is empty;
- an empty optional line of the booking message stays in the message as an empty line.

## Model

| member | source | states |
|---|---|---|
| Availability.IsDateAvailable | calendar.js:48-50 | true exactly when some record of the table has the given date |
| Availability.FindRecord | calendar.js:52-55 | the index of the first record with the date, None exactly when no record has it |
| Availability.GetAvailableTimesForDate | calendar.js:52-55 | its promise is stated by FirstRecordTimes, UnavailableHasNoTimes and UniqueDateTimes |
| Availability.FirstRecordTimes | calendar.js:52-55 | the times of the first record with the date, or the empty list when no record has it |
| Availability.UnavailableHasNoTimes | calendar.js:48-55 | a date that is not available has an empty time list |
| Availability.AvailableIffFound | calendar.js:48-55 | `some` and `find` agree: available exactly when find finds a record |
| Availability.UniqueDateTimes | calendar.js:52-55 | with distinct dates, a date's times are those of its own record |
| Availability.TableDatesDistinct | calendar.js:9-38 | the seven dates of the embedded table are distinct |
| Availability.WholeDayDates | calendar.js:9-38 | 2025-07-10 and 2025-07-15 offer only the whole day |
| Availability.SixteenthHasTenTimes | calendar.js:9-38 | 2025-07-16 offers ten times |
| Availability.ThirteenthNotListed | calendar.js:9-38 | 2025-07-13 is not available and has no times |
| Gregorian.DaysInYear | calendar.js:157-160 | 365 or 366 days, 366 exactly in leap years |
| Gregorian.DaysInMonth | calendar.js:158-159 | 28 to 31 days; February has 29 exactly in leap years |
| Gregorian.DaysBeforeMonth | calendar.js:157-159 | no days precede January; between 28 and 31 days per earlier month precede month m |
| Gregorian.MonthBoundaries | calendar.js:157-159 | the month lengths add up to the standard's month boundaries (31, 59, 90, ..., one day later from March in a leap year) |
| Gregorian.WeekDay | calendar.js:160 | getDay() is always between 0 (Sunday) and 6 |
| Gregorian.NextMonth | calendar.js:158 | the month after (y, m), carrying into the next year after December |
| Gregorian.MonthsFillYear | calendar.js:157-159 | the twelve months of a year add up to the year's length |
| Gregorian.YearLength | calendar.js:157-160 | the days between consecutive 1 Januaries are the year's length |
| Gregorian.MonthsAreContiguous | calendar.js:158-159 | day 0 of the next month is the month's last day: the 1st of the next month follows the month's last day |
| Gregorian.WeekDayAdvance | calendar.js:160 | k days later the weekday has advanced by k modulo 7 |
| Gregorian.KnownWeekDays | calendar.js:160 | 1 January 1970 is a Thursday, 13 July 2025 a Sunday and 16 July 2025 a Wednesday |
| DateKeys.DecimalString | calendar.js:179 | a non-empty digit string, one digit long exactly below 10 |
| DateKeys.DecimalRoundTrip | calendar.js:179 | reading the decimal digits back gives the number |
| DateKeys.Pad2RoundTrip | calendar.js:179 | `padStart(2, '0')` of 0 to 99 is two digits that read back to the number |
| DateKeys.DateKey | calendar.js:179 | its promise is stated by DateKeyRoundTrip and DateKeyInjective |
| DateKeys.ParseDateKey | calendar.js:210 | the inverse of DateKey, stated by DateKeyRoundTrip |
| DateKeys.DateKeyRoundTrip | calendar.js:179 | the key of a four-digit year, a month and a day has length 10 and parses back to that date |
| DateKeys.DateKeyInjective | calendar.js:179 | different dates of four-digit years get different keys |
| CalendarGrid.TwoDigitYearLayout | calendar.js:157-159 | `new Date(y, m, d)` reads a year 0 to 99 as 1900 + y, so such a year gets the blanks and month length of year 1900 + y |
| CalendarGrid.Classify | calendar.js:181-194 | its promise is stated by ClassificationByColumn, PastDaysArePrefix and CurrentMonthPastDays |
| CalendarGrid.MonthGrid | calendar.js:157-194 | its promise is stated by GridShape, GridColumnIsWeekDay and ClassificationByColumn |
| CalendarGrid.LeadingBlanks | calendar.js:157-167 | between 0 and 6 empty cells precede the 1st |
| CalendarGrid.MonthLength | calendar.js:158-159 | 28 to 31 day cells follow |
| CalendarGrid.BuildMonthGrid | calendar.js:166-197 | the two counting loops produce exactly the month grid |
| CalendarGrid.GridShape | calendar.js:157-174 | blanks first, then days 1..n in order, each keyed by its date; at most 42 cells |
| CalendarGrid.GridColumnIsWeekDay | calendar.js:160-187 | the cell at index i falls on weekday i mod 7 |
| CalendarGrid.DayColumn | calendar.js:160-174 | day d of the month falls on weekday (leading blanks + d - 1) mod 7 |
| CalendarGrid.ClassificationByColumn | calendar.js:181-194 | past exactly before today; otherwise unavailable exactly in the Sunday column and clickable elsewhere; the table plays no part |
| CalendarGrid.PastDaysArePrefix | calendar.js:183-185 | the past days form a prefix of the month |
| CalendarGrid.CurrentMonthPastDays | calendar.js:181-185 | in today's month a day is past exactly when it comes before today |
| CalendarGrid.GridKeysDistinct | calendar.js:179 | no two day cells of a month share a key |
| CalendarGrid.July2025 | calendar.js:157-174 | July 2025 opens with two blanks and has 33 cells |
| Navigation.ShiftCursor | calendar.js:332-340 | the month index moves by exactly delta, with a valid month |
| Navigation.CursorIndexDetermines | calendar.js:332-340 | a displayed month is determined by its month index |
| Navigation.ShiftCompose | calendar.js:332-340 | moves add up; next then previous returns to the same month |
| Navigation.NextFromDecember | calendar.js:337-340 | next from December shows January of the following year |
| Navigation.SetMonth | calendar.js:333 | `setMonth` always gives a valid date |
| Navigation.SetMonthKeepsDay | calendar.js:333 | `setMonth` keeps the day of the month: the result is that many days after the 1st of the target month |
| Navigation.RollDay | calendar.js:333 | always a valid date; its position is stated by RollDayKeepsDay |
| Navigation.RollDayKeepsDay | calendar.js:333 | a day the target month lacks carries into the next month and still lies that many days after the target month's 1st |
| Navigation.NavigateAsWritten | calendar.js:332-340 | the written handlers always give a valid date |
| Navigation.AsWrittenLandsOnTarget | calendar.js:332-340 | the written handlers reach the intended month exactly when the current day exists in it |
| Navigation.PreviousFromMarch31StaysInMarch | calendar.js:332-335 | from 31 March 2025, previous gives 3 March instead of February |
| Navigation.NextFromJanuary31SkipsFebruary | calendar.js:337-340 | from 31 January 2025, next gives 3 March and February is skipped |
| TimeSlots.SlotsFor | calendar.js:229-267 | the message exactly for an empty list; the whole-day slot exactly when the sentinel is listed; otherwise the stored times |
| TimeSlots.SlotButtonsFor | calendar.js:249-267 | no button for an empty list; one `DIA_FREELANCER` button with the sentinel; otherwise one button per time in order; every button's time is listed |
| TimeSlots.UnlistedDateShowsMessage | calendar.js:229-239 | a date missing from the table shows the "no times" message |
| Messages.JoinSnoc | calendar.js:384-410 | a further template line adds a line break and the line |
| Messages.JoinStartsWithFirst | calendar.js:384-410 | a message begins with its first line |
| Messages.JoinEndsWithLast | calendar.js:384-410 | a message ends with its last line |
| Messages.FieldsAppend | calendar.js:384-410 | the labelled lines of consecutive parts are those of each part, in order |
| Messages.OptionalField | calendar.js:392-393 | a labelled line exactly when the value is non-empty |
| Messages.FieldsOfOptional | calendar.js:392-393 | an optional line contributes its pair exactly when the value is non-empty |
| Messages.FieldsOfBody | calendar.js:384-410 | a run of labelled lines yields its pairs in order |
| Messages.HandoffUrl | calendar.js:413 | the link is the fixed `wa.me` prefix followed by the encoded message |
| Messages.HandoffUrlInjective | calendar.js:413 | with an injective encoder, different messages give different links |
| Messages.HandoffUrlRoundTrip | calendar.js:413 | decoding the link's text gives back the message |
| BookingMessages.ServiceName | calendar.js:424-434 | a known code gets its display name; the name equals the code exactly for codes outside the table |
| BookingMessages.ServiceNamesOfTheForm | calendar.js:424-434 | the six service codes get their display names; the empty value stays empty |
| BookingMessages.BookingLines | calendar.js:383-410 | its promise is stated by BookingFields, OmittedLinesStayEmpty, FreelancerOmitsTime and HourlyStatesTime |
| BookingMessages.ComposeBooking | calendar.js:383-410 | the lines joined by line breaks; its header is stated by MessageOpensWithHeader |
| BookingMessages.BookingFields | calendar.js:383-410 | the labelled lines in order for each template, the optional ones only when filled; 12 or 13 lines whatever is filled |
| BookingMessages.OmittedLinesStayEmpty | calendar.js:392-407 | an optional field left empty leaves an empty line at its place (9th and 10th lines of the whole-day message, 11th of the hourly one) |
| BookingMessages.FreelancerOmitsTime | calendar.js:383-395 | the whole-day template has no Horário line |
| BookingMessages.HourlyStatesTime | calendar.js:396-410 | the hourly template states the selected time once, second, and the service's display name sixth |
| BookingMessages.MessageOpensWithHeader | calendar.js:383-397 | the service code alone picks the template, seen in the message's header |
| ContactMessages.BuildContactMessage | script_github.js:209-223 | the `+=` sequence produces the contact message's lines joined by line breaks, and the link is the `wa.me` prefix followed by the encoded message |
| ContactMessages.AppendsGiveLayout | script_github.js:209-218 | header, greeting, the four fields, the optional one and the question, appended as the handler does, give the layout joined by line breaks |
| ContactMessages.ContactLines | script_github.js:209-218 | its promise is stated by ContactFields and ContactFrame |
| ContactMessages.ContactFields | script_github.js:211-217 | Nome, Telefone, Nome do Pet, Serviço in that order, then Observações only when non-empty; 10 or 11 lines |
| ContactMessages.ContactFrame | script_github.js:209-218 | the message opens with its header and always ends with the availability question |
| Scheduler.PanelFor | calendar.js:94-96 | the select-a-date prompt shows exactly while no date is selected |
| Scheduler.CalendarScheduler.constructor | calendar.js:5-46 | the current month is drawn against today; nothing is selected; the form is hidden with an empty service and a required pet field |
| Scheduler.CalendarScheduler.RenderCalendar | calendar.js:145-197 | the grid becomes the month grid of the displayed month against today |
| Scheduler.CalendarScheduler.ShowAvailableTimes | calendar.js:229-267 | the panel shows the view of the date's stored times |
| Scheduler.CalendarScheduler.SelectDate | calendar.js:200-227 | selects the date, clears the time, shows the date's times, hides the form |
| Scheduler.CalendarScheduler.ClickDay | calendar.js:189-194 | a click selects the cell's date exactly when the cell is clickable; any other click changes nothing |
| Scheduler.CalendarScheduler.UpdateFormForServiceType | calendar.js:314-328 | the change listener is installed |
| Scheduler.CalendarScheduler.SelectTime | calendar.js:275-312 | records the time and shows the form; the whole-day time presets `dia-freelancer` with an optional pet field, any other time clears the service and requires the pet field |
| Scheduler.CalendarScheduler.ClickSlot | calendar.js:270-271 | the selected time is the clicked button's and is one of the selected date's stored times; the form shows, the whole-day button presets `dia-freelancer` with an optional pet field, any other button clears the service and requires the pet field |
| Scheduler.CalendarScheduler.ChangeService | calendar.js:319-327 | once the listener is installed, the pet name is required exactly for services other than `dia-freelancer`; before that the flag is unchanged |
| Scheduler.CalendarScheduler.Cancel | calendar.js:349-358 | hides and resets the form and clears only the time; the date stays selected |
| Scheduler.CalendarScheduler.PreviousMonth | calendar.js:332-335 | shows the month before and redraws; the selection is untouched |
| Scheduler.CalendarScheduler.NextMonth | calendar.js:337-340 | shows the month after and redraws; the selection is untouched |
| Scheduler.CalendarScheduler.SubmitBooking | calendar.js:361-414 | the link carries the template message for the form's service, the formatted selected date and the selected time |
| Portfolio.Entry | script_github.js:36-40 | the entry keeps the category and alt text, and its path is the server URL, a slash and the image's path |
| Portfolio.Flatten | script_github.js:35-43 | its promise is stated by FlattenLength, FlattenPrefix and FlattenAt |
| Portfolio.FlattenLength | script_github.js:35-43 | one entry per image: the total is the sum of the categories' image counts |
| Portfolio.FlattenPrefix | script_github.js:35-43 | the entries of the first categories come first |
| Portfolio.FlattenAt | script_github.js:35-43 | image j of category c sits at position (images of earlier categories) + j, ordered by category then image |
| Portfolio.FilterCategory | script_github.js:81-83 | never lengthens the list |
| Portfolio.FilterMembership | script_github.js:81-83 | keeps exactly the images of the category |
| Portfolio.FilterAppend | script_github.js:81-83 | filtering keeps the order of the images |
| Portfolio.FilterAll | script_github.js:81-83 | a list all of one category is its own filter |
| Portfolio.FilterNone | script_github.js:81-83 | a list without the category filters to nothing |
| Portfolio.FilterOfRuns | script_github.js:81-83 | runs of three distinct categories filter to their runs |
| Portfolio.FallbackCategories | script_github.js:57-67 | the fallback list has nine images: three `small`, three `medium`, three `large` |
| Portfolio.GalleryFor | script_github.js:78-93 | its promise is stated by GalleryContents and GalleryShowsOnlyCategory |
| Portfolio.GalleryContents | script_github.js:78-93 | the first min(12, n) selected images in order, and the message exactly when no image is selected (for `all`, an empty list) |
| Portfolio.GalleryShowsOnlyCategory | script_github.js:81-88 | every image shown for a category has that category |
| Portfolio.PortfolioManager.constructor | script_github.js:3-10 | no images yet, the server URL set, the grid untouched |
| Portfolio.PortfolioManager.Init | script_github.js:13-17 | loads the list, then shows every category |
| Portfolio.PortfolioManager.LoadImagesFromApi | script_github.js:19-51 | a decoded answer flattened entry by entry, or the fallback list on any failure |
| Portfolio.PortfolioManager.LoadFallbackImages | script_github.js:54-69 | the fallback list replaces the current one |
| Portfolio.PortfolioManager.DisplayPortfolioItems | script_github.js:78-93 | the grid shows the gallery of the category for the current list |

## Left out

- Everything the page draws is reduced to the state it shows: HTML templates, created elements, CSS classes, the `.selected` highlight, scrolling, `alert`, `window.open`, the modal, the menu, animations and lazy loading.
- The clock is the `today` parameter; the model does not track time passing between a render and a click.
- The pt-BR date formatting and `encodeURIComponent` are function parameters; their output is not modelled, beyond injectivity where a lemma assumes it.
- The fetch, its status check and the JSON decoding are one `LoadOutcome` value; a partly pushed list is always replaced by the fallback, so partial failures are that value's `LoadFailed`.
- Portfolio.Flatten: categories come in the order `Object.entries` yields them. That order (integer-like keys first, ascending) is not derived from an object.
- Portfolio.Entry: an image missing `src` or `alt` (JavaScript's `undefined` in the template) is not modelled.
- BookingMessages.ServiceName: keys inherited from `Object.prototype` (such as `constructor`) are not modelled; only the six own codes are looked up.
- Scheduler.CalendarScheduler.UpdateFormForServiceType: each call adds one more identical listener. The model keeps one flag, because the listeners all apply the same rule.
- Scheduler.CalendarScheduler.SelectTime: requires a selected date, because its buttons exist only once a date has been selected.
- Scheduler.CalendarScheduler.Cancel: `form.reset()` also clears the name, phone, pet and observation fields. The model passes those values to SubmitBooking and keeps only the service select.
- Scheduler.CalendarScheduler.PreviousMonth and NextMonth move the corrected (year, month) cursor, not the written `setMonth` (see Findings).
- DateKeys.DateKeyRoundTrip: stated for four-digit years only. Other years give keys of another length, which the table never holds.
- The month title (`monthNames[month]` and the year) and the weekday header row are not modelled.

## Findings

| source | as written | input that shows it | evidently intended | confidence | as-written member | corrected member |
|---|---|---|---|---|---|---|
| calendar.js:333, calendar.js:338 | `currentDate.setMonth(currentDate.getMonth() ∓ 1)` keeps the day of the month; a day the target month lacks rolls into the following month | on 31 March 2025, previous gives 3 March (still March); on 31 January 2025, next gives 3 March (February skipped) | move the displayed (year, month) by one month | high; not executed | Navigation.NavigateAsWritten (Navigation.PreviousFromMarch31StaysInMarch, Navigation.NextFromJanuary31SkipsFebruary, Navigation.AsWrittenLandsOnTarget) | Navigation.ShiftCursor (Navigation.ShiftCompose, Navigation.NextFromDecember) |
