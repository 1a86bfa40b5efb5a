# Scheduling chat assistant: message pipeline, date extractor and training-type filter

This project models three parts of a training-session scheduler:

- The chat endpoint's pipeline. A free-text message is turned into an intent, a date, a time and a category. That result is completed with defaults and checked against the fixed current date (5 July 2025, 12:00). The pipeline then ends in one of four operations on the booking table: create, delete all sessions of a day, reschedule the first session of a day, or list a range.
- The test utility's copy of the extractor, and the cases its suite checks.
- The training-types endpoint, which is a fixed catalogue of eight courses. It can be narrowed to one category, compared without regard to case.

Modules:

- `Text`: characters, ASCII lower-casing, substring search, digit runs.
- `Calendar`: instants as integer milliseconds on a local timeline, days, `setHours`, the civil-date day number, and the anchor date.
- `Patterns`: the regular expressions of the extractor, written as scanners. Each scanner matches at one position. A generic leftmost `Search` is proved to return the first match.
- `Extraction`: the extractor as one specification function, `Extract`, plus lemmas about it.
- `BookingStore`: the booking record, the overlap test, the sorted range query, and a `Store` class.
  - The class stands for the booking table: a record sequence plus the next id.
  - Its methods `Create`, `Update` and `Delete` change that state in place.
- `ChatRoute`: the rest of the endpoint.
  - The extractor is written as a method that updates its locals step by step, as the route does. It is proved equal to `Extract`.
  - Also here: the date gate, the smart defaults, the three executors over a `Store`, the session map (a class with a `map` field) and the query range.
- `DateParser`: the suite's CRUD cases and three cases of its format table, worked out on `Extract`.
- `TrainingTypes`: the catalogue and its case-insensitive filter.

The JavaScript utility `test-utils/date-parser.js` repeats the route's extractor statement for statement. It has the same keyword lists, date patterns, time patterns, confidence bonuses and current date. So one definition, `Extraction.Extract`, models both.

The date patterns use the `/i` flag on the original message. The model matches them case-sensitively on the ASCII-lowered message instead. For ASCII text this finds the same positions and the same captures.

Two places where the code does not do what its surroundings say:

- Delete is gated on past dates. The route passes the extracted date to `validateDateForOperation(…, 'DELETE')` (app/api/chat/route.ts:489). Deleting sessions of a day before 5 July 2025 is therefore refused, and the model does the same (`ChatRoute.ExecuteDelete`).
- An hour after "jul" is taken as the day. The first date pattern is a month word, spaces and one or two digits (app/api/chat/route.ts:166), and it is tried before every day-first pattern. So when a day-first date is followed by an hour, the pattern matches the month word and the hour, and the hour becomes the day. Three rows of the suite's format table expect 13 July and get 2 July:
  - "book training 13-Jul 2 PM to 3 PM" (tests/date-parsing.test.js:23-27), proved by `DateParser.HourAfterMonthIsTakenAsDay`;
  - "book training 13jul 2 PM to 3 PM" (tests/date-parsing.test.js:47-51), proved by `DateParser.HourAfterJoinedMonthIsTakenAsDay`;
  - "book training 13 July 2 PM to 3 PM" (tests/date-parsing.test.js:64-68), proved by `DateParser.HourAfterMonthNameIsTakenAsDay`.

  The model keeps the code's behaviour.

## Model

| member | source | states |
|---|---|---|
| ChatRoute.ConvertHour | app/api/chat/route.ts:230-231 | the 12-hour to 24-hour conversion used in every time branch agrees with `To24` (pm adds 12 below 12, 12 am becomes 0) |
| Extraction.To24Bounds | app/api/chat/route.ts:230-231 | for hours 1-12 the result is a valid hour below 24; it is a morning hour exactly when the meridiem is am; it keeps the hour modulo 12 |
| Extraction.To24Injective | app/api/chat/route.ts:230-231 | two well-formed 12-hour times that convert to the same hour are the same time |
| Extraction.To24PassesLargeHours | app/api/chat/route.ts:265-268 | an hour above 12 is not range-checked: "15 pm" gives 27 and "15 am" gives 15 |
| ChatRoute.DetectIntent | app/api/chat/route.ts:99-146 | the keyword filters and the priority chain compute exactly the intent and bonus of `IntentOf` |
| Extraction.MatchingKeywords | app/api/chat/route.ts:108-112 | the filtered list holds exactly the keywords the lowered message contains |
| Extraction.MatchingNonEmptyIffMentions | app/api/chat/route.ts:108-144 | a keyword list's match list is non-empty exactly when the message mentions one of its keywords |
| Extraction.IntentPriority | app/api/chat/route.ts:122-146 | confirmation beats delete, delete beats update, update beats query, query beats booking; each intent holds iff the higher groups are absent and its own group is present; the bonus is 0 only for the general intent |
| Extraction.DeleteOutranksQueryAndUpdate | app/api/chat/route.ts:127-131 | without a confirmation word, any delete keyword yields intent delete with bonus 70, whatever query or update words occur |
| ChatRoute.DetectDate | app/api/chat/route.ts:150-208 | the today/tomorrow tests and the pattern loop compute exactly `DateOf` |
| Extraction.RelativeDates | app/api/chat/route.ts:153-160 | "today" gives the current instant (day 5 July 2025) with bonus 25; "tomorrow" without "today" gives the next day at the same time of day |
| Extraction.FirstDateFromIsFirst | app/api/chat/route.ts:185-203 | the loop takes the first pattern, in list order, that matches; no date exactly when no pattern matches |
| Extraction.FirstDateFrom | app/api/chat/route.ts:185-203 | whatever the loop captures is one or two digits |
| Extraction.PatternDateIsJuly | app/api/chat/route.ts:186-198 | without a relative word, the captured digits d give local midnight of July d, 2025, with bonus 25 |
| Extraction.YearIsAlways2025 | app/api/chat/route.ts:189-190 | the year is 2025 whatever the message says |
| Extraction.DateBonus | app/api/chat/route.ts:150-208 | the date step adds 25 exactly when it finds a date and 0 otherwise |
| Patterns.MatchDate | app/api/chat/route.ts:164-181 | each date pattern, when it matches, captures one or two digits |
| Patterns.MonthDayScannersAgree | app/api/chat/route.ts:166-179 | at every position, the first pattern (read with the regex engine's backtracking: blanks given back one at a time, two digits then one, the optional suffix) captures exactly what the sixth pattern (month word, spaces, day digits) captures |
| Patterns.MonthDayNeverDecides | app/api/chat/route.ts:166-179 | over a whole message the first and sixth patterns give the same match, so the sixth never decides the date |
| Patterns.SearchIsLeftmost | app/api/chat/route.ts:188 | `match` returns the match at the leftmost position, and none exactly when no position matches |
| ChatRoute.DetectTime | app/api/chat/route.ts:210-291 | the update branch, the range branch and the single-time branch compute exactly `TimeOf` |
| Extraction.TimeFieldsShape | app/api/chat/route.ts:210-291 | an update never sets an end time or duration; a range sets both times on the hour and a duration of end hour minus start hour, bonus 30; a single time gets duration 1; no time means bonus 0 and no end time or duration |
| Extraction.UpdateRangeTakesTarget | app/api/chat/route.ts:219-235 | for "from X to Y" in an update, the new time is the target Y, not the old time X, with bonus 40 |
| Patterns.MatchUpdateRange | app/api/chat/route.ts:220-221 | a match yields two well-formed 12-hour times |
| Patterns.MatchUpdateTarget | app/api/chat/route.ts:238-239 | a match yields a well-formed 12-hour time without minutes |
| Patterns.MatchTimeRange | app/api/chat/route.ts:255-256 | a match yields two well-formed 12-hour times without minutes |
| Patterns.MatchSingleTime | app/api/chat/route.ts:276-277 | a match yields a well-formed 12-hour time without minutes |
| ChatRoute.DetectCategory | app/api/chat/route.ts:293-308 | the keyword loop computes exactly `CategoryFrom` |
| Extraction.CategoryFromIsFirst | app/api/chat/route.ts:295-308 | the category is that of the first keyword, in table order, that the message contains, with bonus 10; none and bonus 0 exactly when no keyword occurs |
| ChatRoute.ExtractInformationFromMessage | app/api/chat/route.ts:90-319 | the extractor method computes exactly `Extract` |
| Extraction.ConfidenceBounds | app/api/chat/route.ts:90-319 | the confidence is between 0 and 145 (at most 135 for an update); it is 0 exactly when nothing was recognised |
| Calendar.AnchorIsJulyFifth | app/api/chat/route.ts:8 | the fixed current date is 5 July 2025 at 12:00, and its day number is 20274 |
| Calendar.JulyDayNumbers | app/api/chat/route.ts:189-194 | `new Date(2025, 6, d)` is day 20270 + d - 1, and day 0 rolls back to 30 June |
| Calendar.DayBlock | app/api/chat/route.ts:505-508 | an instant lies between the start and the end of a day exactly when it is on that day |
| Calendar.SetHoursKeepsDay | app/api/chat/route.ts:344 | `setHours` with an in-range time keeps the day and sets the time of day |
| ChatRoute.StartOfDay | app/api/chat/route.ts:505-506 | local midnight of the same day, not after the instant |
| ChatRoute.EndOfDay | app/api/chat/route.ts:507-508 | 23:59:59.999 of the same day, not before the instant |
| ChatRoute.OperationNameIsLowered | app/api/chat/route.ts:28-40 | the operation named in the date errors is the lower-cased constant, and the three names differ |
| ChatRoute.MessagesIdentifyError | app/api/chat/route.ts:28-44 | the error texts are pairwise different, so each text names the one check that failed (the texts of lines 380, 417, 442, 526, 610 and 643 are covered too) |
| ChatRoute.IsDateInPast | app/api/chat/route.ts:11-26 | past exactly when the date's day is before 5 July 2025, that is, before its midnight |
| ChatRoute.ValidateDateForOperation | app/api/chat/route.ts:28-44 | valid iff a date is given and its day is not before 5 July 2025; no error exactly when valid; a missing date and a past date each give their own error for the operation |
| ChatRoute.ApplySmartDefaults | app/api/chat/route.ts:322-365 | the method computes exactly `Defaults` |
| ChatRoute.DefaultsMeaning | app/api/chat/route.ts:322-365 | the start is on the extracted day (tomorrow if none) at the extracted time (10:00 if none); an end time is on the start's day; otherwise the end is duration (1 by default) hours after the start; client "Client"; category and "… Training" title, or "Training" and "Training Session" |
| BookingStore.OverlapsSymmetric | app/api/chat/route.ts:422-437 | the conflict test is symmetric, means the two intervals intersect, and lets back-to-back sessions touch |
| BookingStore.FindByStartRange | app/api/chat/route.ts:737-745 | the rows whose start lies in the closed range, sorted by start time, a permutation of the unsorted selection |
| BookingStore.RangeQueryKeepsDistinctIds | app/api/chat/route.ts:737-745 | each row is returned at most once: ids stay distinct when the table's are |
| BookingStore.SortByStart | app/api/chat/route.ts:744 | sorted by start time and a permutation of its input |
| BookingStore.Insert | app/api/chat/route.ts:744 | inserting into a sorted list keeps it sorted and adds exactly the new row |
| BookingStore.SortKeepsDistinctIds | app/api/chat/route.ts:744 | sorting keeps ids distinct |
| BookingStore.StartingIn | app/api/chat/route.ts:739-743 | exactly the rows whose start lies in the closed range |
| BookingStore.StartingInKeepsDistinctIds | app/api/chat/route.ts:739-743 | the selection keeps ids distinct |
| BookingStore.FirstIsEarliest | app/api/chat/route.ts:598-618 | when some row is in range, the result is non-empty and its first row starts no later than any row in range |
| ChatRoute.GetBookingsForDateRange | app/api/chat/route.ts:735-750 | the store's rows starting in the range, sorted by start time, a permutation of the selection, ids distinct when the table's are |
| ChatRoute.DayBookings | app/api/chat/route.ts:503-510 | the rows starting on the date's day, sorted, ids distinct when the table's are |
| ChatRoute.QueryRangeIsDayOrJuly | app/api/chat/route.ts:895-912 | with a date, the query covers that whole day; without one, it runs from 1 July 00:00 to 31 July 23:59:59 and stays within July |
| BookingStore.Store.constructor | app/api/chat/route.ts:446-455 | the table starts empty and the first id the database hands out is 1 |
| BookingStore.Store.Create | app/api/chat/route.ts:446-455 | appends a row with a fresh id and the given fields, and advances the id counter |
| BookingStore.Store.Update | app/api/chat/route.ts:700-709 | replaces the row with the same id, leaves every other row and the counter alone |
| BookingStore.Store.Delete | app/api/chat/route.ts:538-540 | removes the row with the id and reports whether one existed |
| BookingStore.Without | app/api/chat/route.ts:534-548 | keeps exactly the rows whose id is not deleted, never more rows, ids distinct when they were |
| BookingStore.WithoutDistributes | app/api/chat/route.ts:534-548 | deleting keeps order: deleting from a concatenation deletes from each part in turn |
| BookingStore.WithoutTwice | app/api/chat/route.ts:534-548 | deleting one id set after another is deleting their union |
| BookingStore.Replace | app/api/chat/route.ts:700-709 | same length; each row with the id becomes the new row and every other row stays |
| BookingStore.ExcludingOwnIdOnlyDropsIt | app/api/chat/route.ts:674-691 | the update's conflict check, which leaves out the booking's own id, finds a conflict only where the create's check would; the two agree when no row has that id; any conflict it drops is with the booking itself |
| BookingStore.IdIdentifiesRecord | app/api/chat/route.ts:538-540 | with distinct ids, the id determines the row |
| ChatRoute.ClientOrNull | app/api/chat/route.ts:453 | the falsy-or-null choice for the client name: null exactly for the empty name, the name itself otherwise |
| ChatRoute.ExecuteBooking | app/api/chat/route.ts:368-476 | missing time, past start, end not after start, and conflict each fail without changing the table; otherwise exactly one row with the draft's fields is appended; a table without overlaps keeps none |
| ChatRoute.AppendKeepsDisjoint | app/api/chat/route.ts:421-455 | appending a session that conflicts with no row keeps the table free of overlaps |
| ChatRoute.Deletable | app/api/chat/route.ts:534-548 | the targets whose deletion succeeds are exactly those whose id is not failing, never more than the targets |
| ChatRoute.DeletableKeepsOrder | app/api/chat/route.ts:531-548 | the deleted bookings keep the targets' start order and their distinct ids |
| ChatRoute.ExecuteDelete | app/api/chat/route.ts:479-565 | a missing or past date fails without change; otherwise every session of that day except failing ones is deleted and reported, and "no bookings" is reported when the day was empty; overlaps are not introduced |
| ChatRoute.DeleteEach | app/api/chat/route.ts:531-548 | the loop deletes each target in turn, counts and lists exactly the successful deletions, and leaves the table without their ids |
| ChatRoute.DeleteKeepsOtherDays | app/api/chat/route.ts:503-548 | a session on another day survives a delete |
| ChatRoute.DeleteKeepsFailures | app/api/chat/route.ts:534-548 | a session whose deletion fails survives |
| ChatRoute.WithoutKeepsDisjoint | app/api/chat/route.ts:534-548 | deleting rows keeps the table free of overlaps |
| ChatRoute.RescheduledMeaning | app/api/chat/route.ts:621-658 | the new session keeps id, title and description; it starts on the original day at the new time; without end time or duration it keeps the original length; the category is replaced only by a recognised one |
| ChatRoute.ExecuteUpdate | app/api/chat/route.ts:568-732 | a missing or past date, an empty day, a missing time, end not after start, and conflict each fail without change; otherwise the first session of the day (by start) is replaced by its rescheduled form; overlaps are not introduced |
| ChatRoute.ReplaceKeepsDisjoint | app/api/chat/route.ts:674-709 | replacing a row with one that conflicts with no other row keeps the table free of overlaps |
| ChatRoute.UpdateTouchesOnlyTarget | app/api/chat/route.ts:700-709 | after the update the table holds exactly the rows with other ids plus the new row (when its id was present); the set of ids is unchanged and ids stay distinct |
| ChatRoute.ConversationStates.constructor | app/api/chat/route.ts:61 | the session map starts empty |
| ChatRoute.ConversationStates.GetConversationState | app/api/chat/route.ts:67-77 | returns the state of the single session id, inserting a fresh state only when absent and otherwise changing nothing |
| DateParser.CreateWithMonthDayOrdinal | tests/date-parsing.test.js:86-91 | "book training Jul 13th 2 PM to 3 PM" is a booking on 13 July 2025 from 14:00 to 15:00, duration 1 |
| DateParser.DeleteWithDayDashMonth | tests/date-parsing.test.js:93-97 | "delete all sessions 13-Jul" is a delete dated 13 July 2025 |
| DateParser.UpdateWithMonthSlashDay | tests/date-parsing.test.js:99-104 | "update session 07/13 from 2 PM to 3 PM" is an update dated 13 July 2025 whose new time is 15:00 |
| DateParser.QueryWithDayMonthJoined | tests/date-parsing.test.js:106-110 | "show me sessions 13jul" is a query dated 13 July 2025 |
| DateParser.HourAfterMonthIsTakenAsDay | tests/date-parsing.test.js:23-27 | "book training 13-Jul 2 PM to 3 PM" is a booking dated 2 July 2025, not the expected 13 July |
| DateParser.HourAfterJoinedMonthIsTakenAsDay | tests/date-parsing.test.js:47-51 | "book training 13jul 2 PM to 3 PM" is a booking dated 2 July 2025, not the expected 13 July |
| DateParser.HourAfterMonthNameIsTakenAsDay | tests/date-parsing.test.js:64-68 | "book training 13 July 2 PM to 3 PM" is a booking dated 2 July 2025, not the expected 13 July |
| DateParser.OnlyBookingWordIntent | app/api/chat/route.ts:122-146 | a message starting with "book" whose characters can start no keyword of another intent is a booking with bonus 50 |
| TrainingTypes.CatalogueCategoriesAre | app/api/training-types/route.ts:6-15 | every course is Azure, Python or General |
| TrainingTypes.ListTrainingTypes | app/api/training-types/route.ts:17-30 | no category, or an empty one, lists the whole catalogue; otherwise exactly the courses of that category |
| TrainingTypes.FilterKeepsCategory | app/api/training-types/route.ts:24-28 | the filter keeps exactly the entries whose category matches |
| TrainingTypes.FilterDistributes | app/api/training-types/route.ts:25-27 | the filter keeps order: filtering a concatenation filters each part in turn |
| TrainingTypes.FilterEmptyIff | app/api/training-types/route.ts:25-27 | the result is empty exactly when no entry matches |
| TrainingTypes.FilterIgnoresCase | app/api/training-types/route.ts:26 | spellings that lower-case alike give the same list |
| TrainingTypes.FilterIdempotent | app/api/training-types/route.ts:25-27 | filtering twice is filtering once |
| TrainingTypes.AzureInCapitals | app/api/training-types/route.ts:24-28 | `?category=AZURE` lists exactly the Azure courses |
| TrainingTypes.UnknownCategoryIsEmpty | app/api/training-types/route.ts:24-28 | `?category=java` lists nothing |
| TrainingTypes.EmptyCategoryListsAll | app/api/training-types/route.ts:22-24 | an empty parameter is falsy and lists all eight courses |

## Left out

- HTTP and HTML: the request and response shells, `generateBookingsTable`, the reply texts and their emoji, the search route, and the network scripts are not part of this model. They format output and do not decide any operation.
- Logging, BigInt serialisation, and the `catch` blocks that turn an exception into a "System error" reply are left out. The database and the runtime are assumed not to throw, except for the delete failures below.
- `getBookingsForDateRange` returns `[]` when the database throws. This is left out for the same reason.
- Delete failures: the `try`/`catch` around each `prisma.booking.delete` is modelled by a parameter, `failing`, the set of ids whose deletion fails.
- Dates: JavaScript dates become integer milliseconds on one local timeline. Daylight-saving changes, time zones and fractional or NaN dates are not modelled.
- `toLowerCase` is modelled for ASCII only. Other letters are left unchanged.
- Concurrency: two requests that interleave between the conflict check and the write are not modelled. Each operation runs alone on the table.
- BookingStore.FindByStartRange: the database's order among rows with the same start time is unspecified. The model uses a stable sort, so ties keep table order.
- The "Please specify a date…" branches of delete (app/api/chat/route.ts:512-519) and update (app/api/chat/route.ts:613-619) come after the date gate, which already demands a date. They cannot be reached, so they are not modelled as paths of their own.
- The training-types `catch` that answers 500 is left out: nothing in the filter throws.
- DateParser: of the suite's format table, the rows "13-Jul", "13jul" and "13 July" are worked out. The other seven rows (tests/date-parsing.test.js:12-21, 28-44, 52-63) are not. Each message would need its own keyword and pattern lemmas.
- TrainingTypes.AzureInCapitals states which courses are listed, not their order. Order is covered for every filter by `TrainingTypes.FilterDistributes`.
