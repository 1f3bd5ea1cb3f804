# FairBilling in Dafny

A model of the billing core of FairBilling, a small Java program that reads a log of
`HH:MM:SS <user> <Start|End>` lines and reports, per user, how many sessions they had
and how many seconds those sessions lasted. The model follows the three stages of
`FairBilling.processFileAsList`:

1. **Parsing** (`parseLine`, `parseAllTheLines`), module `LineParser`. Each line is matched
   in full against the pattern `^(\d\d):(\d\d):(\d\d) (.*) (.*)$`. Lines whose action is not
   exactly `Start` or `End` are dropped.
2. **Reconstruction** (`processLine`, `processLines`), module `Reconstruction`. Events are
   grouped per user in an insertion-ordered map (`LinkedHashMap`, module `OrderedMap`).
   A Start always opens a new session. An End closes the OLDEST session still waiting for
   an End. An End with nothing waiting records a session whose start lies before the log.
3. **Billing** (`processFileAsList`), module `Billing`. A missing start becomes the time of
   the first kept event of the whole log. A missing end becomes the time of the last one.
   Each user's sessions are counted and their durations summed, on Java `int`s.

`UserSession` becomes the immutable datatype `Sessions.Session`, and each setter returns an
updated copy. `LocalTime` becomes a second of the day (`TimeOfDay.Time`). Java `int`
arithmetic is written out as 32-bit wrap-around (`Int32.Wrap`). The module `Matching`
holds the invariants of the pairing and a counting characterisation of it. The module
`Examples` proves the expected results of the project's unit tests.

In these places the model follows the code exactly:

- The user field is group 4 of a greedy `(.*) (.*)`. It runs to the LAST space of the
  line, so it may contain spaces and may be empty. The action is what follows that space.
- Java's `.` refuses the line terminators `\n`, `\r`, U+0085, U+2028 and U+2029, so a line
  containing one never matches.
- A kept line whose hour, minute or second is out of range (for example `24:00:00`) makes
  `LocalTime.parse` throw. Processing then aborts rather than skipping the line. The model
  returns `Failure(TimeOutOfRange)` from `ProcessFileAsList`. `ProcessLine` and
  `ProcessLines` require in-range times, because the source throws on them.
- A session that ends earlier in the day than it starts gets a negative duration. It is
  kept as a negative `int`, exactly as `Duration.between` yields it.

## Model

| member | source | states |
|---|---|---|
| Int32.Wrap | src/main/java/com/fairbilling/FairBilling.java:188-198 | the Java `int` value of an integer: in range, congruent to it modulo 2^32, and equal to it when it already fits |
| Int32.WrapAdd | src/main/java/com/fairbilling/FairBilling.java:198 | narrowing after every addition gives the same result as narrowing the exact sum once |
| TimeOfDay.SecondOfDay | src/main/java/com/fairbilling/FairBilling.java:95-97 | the second of the day for in-range fields; hour, minute and second can be read back from it |
| LineParser.LastSpace | src/main/java/com/fairbilling/FairBilling.java:138 | where greedy `(.*) (.*)` splits: a space with no space after it, or none when the text has no space |
| LineParser.ParseLine | src/main/java/com/fairbilling/FairBilling.java:129-153 | an empty line is rejected; accepted pieces are well formed and render back to exactly the input line |
| LineParser.ParseRender | src/main/java/com/fairbilling/FairBilling.java:138-150 | round trip: the line rendered from any well-formed pieces is accepted with exactly those pieces |
| LineParser.ParseLineIff | src/main/java/com/fairbilling/FairBilling.java:138-150 | a line is accepted with pieces `p` if and only if `p` is well formed and renders to the line |
| LineParser.ParseLineRejects | src/main/java/com/fairbilling/FairBilling.java:132-150 | a line is rejected if and only if no well-formed pieces render to it |
| LineParser.TimeOf | src/main/java/com/fairbilling/FairBilling.java:95-97 | the parsed time has the line's hour, minute and second |
| LineParser.KeptEvent | src/main/java/com/fairbilling/FairBilling.java:47-59 | one line contributes at most one event to the list; which one is stated by `ParseAllTheLinesMembers` |
| LineParser.ParseAllTheLines | src/main/java/com/fairbilling/FairBilling.java:40-63 | never more events than lines; every kept event is well formed with action Start or End |
| LineParser.ParseAllTheLinesAppend | src/main/java/com/fairbilling/FairBilling.java:45-60 | the filter works line by line: the events of a concatenation are the concatenated events, so input order is kept |
| LineParser.ParseAllTheLinesMembers | src/main/java/com/fairbilling/FairBilling.java:51-59 | an event is kept if and only if some line parses to it with action Start or End |
| Sessions.NewSession | src/main/java/com/fairbilling/UserSession.java:13-15 | the session has the given user and neither time |
| Sessions.MakeSession | src/main/java/com/fairbilling/UserSession.java:17-21 | the session holds the three given fields |
| Sessions.SetUserId | src/main/java/com/fairbilling/UserSession.java:27-29 | the user changes and both times stay |
| Sessions.SetStartTime | src/main/java/com/fairbilling/UserSession.java:33-35 | the start changes and the user and end stay |
| Sessions.SetEndTime | src/main/java/com/fairbilling/UserSession.java:39-41 | the end changes and the user and start stay |
| Sessions.ConstructorsAgree | src/main/java/com/fairbilling/UserSession.java:13-21 | the three-argument constructor equals the one-argument constructor followed by both setters, in either order |
| OrderedMap.Keys | src/main/java/com/fairbilling/FairBilling.java:187 | the iteration order of `keySet()`: one key per entry, and position `i` holds the key of entry `i` |
| OrderedMap.Get | src/main/java/com/fairbilling/FairBilling.java:76 | absent (`null`) exactly when the key is not in the map; otherwise the value of an entry with that key |
| OrderedMap.Put | src/main/java/com/fairbilling/FairBilling.java:80 | an existing key keeps its position and a new key goes last; the key now maps to the value; every other lookup is unchanged |
| OrderedMap.GetAt | src/main/java/com/fairbilling/FairBilling.java:187-190 | with distinct keys, looking up the key of entry `k` yields entry `k`'s value |
| Reconstruction.FirstOpen | src/main/java/com/fairbilling/FairBilling.java:110-117 | the scan from the top finds the lowest-index session without an end, or reports that every session has one |
| Reconstruction.ProcessLine | src/main/java/com/fairbilling/FairBilling.java:89-124 | a Start appends an open session at its time; an End sets the end of the first open session in place and nothing else; an End with no open session appends a session with only an end |
| Reconstruction.Replay | src/main/java/com/fairbilling/FairBilling.java:89-124 | `processLine` applied to one user's events in turn, starting from no list; it has no contract of its own, and `Matching.ReplayMatches`, `Matching.SessionCount`, `Matching.ReplayUser` and `Billing.ReplayLength` state what it produces |
| Reconstruction.ProcessLines | src/main/java/com/fairbilling/FairBilling.java:69-84 | the session map has at most one entry per event; which keys it has and what each holds is the pair of lemmas `ProcessLinesKeys` and `ProcessLinesLookup` |
| Reconstruction.FirstSeenSpec | src/main/java/com/fairbilling/FairBilling.java:71-80 | the reference key order lists each user once, exactly the users present, ordered by first appearance |
| Reconstruction.ProcessLinesKeys | src/main/java/com/fairbilling/FairBilling.java:69-84 | the map's keys are the distinct users of the events in first-seen order |
| Reconstruction.ProcessLinesLookup | src/main/java/com/fairbilling/FairBilling.java:69-84 | a user's list is that user's own events replayed from an empty list; other users do not interfere; unseen users have no entry |
| Reconstruction.EntryIsReplay | src/main/java/com/fairbilling/FairBilling.java:187-190 | the `k`-th entry belongs to a user of the log and holds the replay of exactly that user's events |
| Matching.StartMatches | src/main/java/com/fairbilling/FairBilling.java:100-105 | a Start keeps the session-list invariants |
| Matching.CloseMatches | src/main/java/com/fairbilling/FairBilling.java:110-117 | an End that finds an open session keeps the invariants |
| Matching.OrphanMatches | src/main/java/com/fairbilling/FairBilling.java:119-123 | an End that finds no open session keeps the invariants |
| Matching.ProcessLineMatches | src/main/java/com/fairbilling/FairBilling.java:89-124 | any one event keeps the invariants |
| Matching.ReplayMatches | src/main/java/com/fairbilling/FairBilling.java:89-124 | after any events, for one user: sessions = Starts + orphan Ends; sessions with a start = Starts; sessions with an end = Ends; every session has at least one time; open sessions form a suffix of the list |
| Matching.TallyIsDeficit | src/main/java/com/fairbilling/FairBilling.java:107-123 | the orphan Ends are the largest lead of Ends over Starts over all prefixes; the open sessions are Starts − Ends plus that lead |
| Matching.SessionCount | src/main/java/com/fairbilling/FairBilling.java:89-124 | a user's session count is their Starts plus the largest lead of Ends over Starts |
| Matching.ReplayTimesTight | src/main/java/com/fairbilling/FairBilling.java:95-123 | with times that never go backwards, every session time lies between the first and last event, and no complete session ends before it starts |
| Matching.ReplayTimes | src/main/java/com/fairbilling/FairBilling.java:95-123 | with ordered events inside a window, every session time lies inside that window |
| Matching.EventsOfNonDecreasing | src/main/java/com/fairbilling/FairBilling.java:73-80 | a user's own events, taken from an ordered log, are still ordered |
| Matching.ReplayUser | src/main/java/com/fairbilling/FairBilling.java:99-123 | every session belongs to the user whose events were replayed |
| Billing.FillSession | src/main/java/com/fairbilling/FairBilling.java:192-197 | a missing start becomes the window start and a missing end the window end; known times and the user are kept |
| Billing.FilledSeconds | src/main/java/com/fairbilling/FairBilling.java:192-198 | the seconds of a session once filled: its end, or else the window end, minus its start, or else the window start; negative when the end is earlier in the day |
| Billing.RunningCount | src/main/java/com/fairbilling/FairBilling.java:189-191 | the `numberOfSessions++` counter is always a Java `int`; its value is stated by `RunningCountIsWrappedLength` |
| Billing.RunningTotal | src/main/java/com/fairbilling/FairBilling.java:188-198 | the `total +=` accumulator is always a Java `int`; its value is stated by `RunningTotalIsWrappedSum` |
| Billing.RunningCountIsWrappedLength | src/main/java/com/fairbilling/FairBilling.java:189-191 | the `int` session counter ends at the list length wrapped to `int` |
| Billing.RunningTotalIsWrappedSum | src/main/java/com/fairbilling/FairBilling.java:188-198 | the `int` running total ends at the exact sum of the filled durations wrapped to `int` |
| Billing.Summarise | src/main/java/com/fairbilling/FairBilling.java:187-200 | a row carries the user, the wrapped session count and the wrapped total of filled durations |
| Billing.Summaries | src/main/java/com/fairbilling/FairBilling.java:184-201 | one row per map entry, in the map's order, each the summary of its entry |
| Billing.ProcessFileAsList | src/main/java/com/fairbilling/FairBilling.java:158-204 | an empty list gives no rows; the run fails exactly when a kept line has an out-of-range time; with no kept events there are no rows |
| Billing.ProcessFileAsListUsers | src/main/java/com/fairbilling/FairBilling.java:182-201 | the rows are the distinct users of the kept events, in first-seen order |
| Billing.ProcessFileAsListRow | src/main/java/com/fairbilling/FairBilling.java:182-200 | each row's count is the wrapped number of the user's reconstructed sessions, which is their Starts plus the largest lead of Ends; its total is the wrapped sum of their filled durations over the log's window |
| Billing.ReplayLength | src/main/java/com/fairbilling/FairBilling.java:89-124 | each event adds at most one session |
| Billing.BillableBounds | src/main/java/com/fairbilling/FairBilling.java:192-198 | sessions inside the window bill between zero and the window length each |
| Billing.UserBillBounds | src/main/java/com/fairbilling/FairBilling.java:186-199 | for an ordered log, a user's total lies between zero and their session count times the window length |
| Billing.ProcessFileAsListNonNegative | src/main/java/com/fairbilling/FairBilling.java:158-204 | for an ordered log of at most 24855 lines nothing wraps: each row holds the plain count and a total between zero and count × window |
| Examples.OneUserFile | src/main/java/com/fairbilling/FairBilling.java:158-204 | a single-user log whose events replay to `count` sessions billing `total` seconds yields exactly one row with those numbers |
| Examples.ParsesAs | src/main/java/com/fairbilling/FairBilling.java:40-63 | lines that are renderings of Start/End events parse to exactly those events |
| Examples.ParseLineRejected | src/test/java/com/fairbilling/FairBillingTest.java:42-58 | `""`, `"xxx"` and `"14:02:03 ALICE99"` are rejected |
| Examples.ParseLineAccepted | src/test/java/com/fairbilling/FairBillingTest.java:61-64 | `"14:02:03 ALICE99 Start"` is accepted with its five fields |
| Examples.ProcessLineNoEnding | src/test/java/com/fairbilling/FairBillingTest.java:67-74 | a Start at 14:02:11 on no list gives one session starting then with no end |
| Examples.ProcessLineOneRowStart | src/test/java/com/fairbilling/FairBillingTest.java:77-88 | an End at 14:02:11 closes the session started at 14:01:56 in place |
| Examples.ProcessLinesTwoEnds | src/test/java/com/fairbilling/FairBillingTest.java:91-98 | two Ends give the user two sessions |
| Examples.ProcessLinesTwoStarts | src/test/java/com/fairbilling/FairBillingTest.java:101-108 | two Starts give the user two sessions |
| Examples.EmptyLog | src/test/java/com/fairbilling/FairBillingTest.java:118-122 | an empty log gives no rows |
| Examples.OnlyStart | src/test/java/com/fairbilling/FairBillingTest.java:125-131 | one Start bills one session of 0 seconds |
| Examples.StartEnd | src/test/java/com/fairbilling/FairBillingTest.java:134-141 | Start then End one second later bills one session of 1 second |
| Examples.ThreeRows | src/test/java/com/fairbilling/FairBillingTest.java:144-151 | Start, End, End bills 2 sessions of 3 seconds in total |
| Examples.Alice | src/test/java/com/fairbilling/FairBillingTest.java:154-162 | the seven-line ALICE99 log bills 4 sessions of 240 seconds |
| Examples.Charlie | src/test/java/com/fairbilling/FairBillingTest.java:165-172 | the four-line CHARLIE log bills 3 sessions of 35 seconds |
| Examples.AllLinesInvalid | src/test/java/com/fairbilling/FairBillingTest.java:175-179 | three unmatched lines give no rows |

## Left out

- `loadFileToList` and `FairBillingException`: file I/O, outside the pure core.
- `main`: it prints the report to standard output, which is I/O.
- The diagnostic that `parseAllTheLines` prints to standard error for a dropped line is not modelled. The source prints it both for lines with an unknown action and for lines that do not match at all.
- The fields of a rejected `LineInPieces`: they only feed that diagnostic, so a rejected line is `None`.
- `LineInPieces` and `UserResult` are modelled as `LineParser.Pieces` and `Billing.UserResult`, from how the core uses them. Their getters, setters and `toString` are not modelled.
- A `null` list or `null` line cannot be represented. Sequences and strings are never null. The source handles null like empty, which the model covers (testProcessLineNull is therefore not stated separately).
- The no-argument `UserSession()` constructor and `toString` are not modelled. A session is always built with its user, and the text format is only used for printing.
- The message of the `DateTimeParseException` thrown for an out-of-range time is not modelled. It is reduced to `Failure(TimeOutOfRange)`.
- Reconstruction.ProcessLine: requires an in-range time, because the source throws before touching the list otherwise. `ProcessFileAsList` models that failure.
- Reconstruction.ProcessLines: requires in-range times for the same reason.
- Billing.ProcessFileAsListNonNegative: the bounds are stated only for logs whose times never go backwards and that have at most 24855 lines. Outside that, negative durations (sessions across midnight) and `int` wrap-around are possible. Billing.ProcessFileAsListRow states the exact wrapped values for every log.
- Date rollover is not modelled: times carry no date, as in the source.
- The `find()` loop before `matches()` in `parseLine` is not modelled separately. When `matches()` succeeds, the fields it set are the groups of that full match. Otherwise the line is dropped either way, and those fields only feed the left-out diagnostic. For example, `"14:02:03 A Start"` followed by U+2028 is found with action `Start` but does not match.
