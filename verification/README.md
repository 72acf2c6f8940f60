# AI-use tracker: a Dafny model

This project models a Chrome extension that measures the time a student spends on AI-tool
sites. It covers the background service, the popup, the teacher and student report pages, and the
content-script heartbeat. Each part of the model keeps the form of the code it stands for:

- The background service keeps one active session, a pause deadline, a tracking switch, the rule
  set, the last heartbeat time per tab and the stored log list. Its event handlers are the
  methods of the class `Tracker.Tracker`. Each handler is one atomic step, and the clock and the
  browser's answers (the tab, its url and host) are parameters.
- The URL matcher (`Rules`), the log compactor (`Logs`) and the weekly aggregate with its score
  and badge (`Weekly`) are functions with lemmas. The loops of `compactLogs`, of the weekly
  aggregate and of `sumInRange` are methods proved against those functions.
- The popup helpers (`Popup`, `Format`) cover the duration texts, the per-day and per-site sums,
  the score band, the log table with its filters and pages, and the "pause for today" minutes.
- The report pages read portfolio JSON, which is modelled as JavaScript values (`JsValue`), with
  JavaScript's truthiness, `||`, `??`, `Number()`, `Math.round`, `Object.entries` and `<`.
  `Portfolio` holds the checks and the top-tool pick shared by both pages.
- `Teacher` holds the class list (a class whose `Ingest` fills an alias-keyed Map in a loop), the
  summary statistics, the table order and search, the score histogram, the aggregate block of the
  PNG report and the CSV export.
- `Student` holds the daily bar series and the texts of the stat tiles.
- `Heartbeat` is the content script's throttle: a class holding `last`, `booted` and the pings sent.

Days and weeks are fixed 86 400 000 ms slots counted from an abstract week start. Times are
integer milliseconds, and derived quantities are exact reals with `Math.round(x) = floor(x + 1/2)`.

## Model

| member | source | states |
|---|---|---|
| Rules.NormalizeRule | extension/background.js:459 | the normal form is trimmed, has no capitals and is no longer than the rule |
| Rules.StripStars | extension/background.js:472 | the token is the rule minus its whole leading run of '*' |
| Rules.UrlMatchesRules | extension/background.js:462-479 | the loop returns true iff the URL is non-empty and some rule hits |
| Rules.RuleVerdict | extension/background.js:467-475 | one turn of the loop gives the rule's verdict: blank rules never hit, domain-like rules test the host, other rules the URL |
| Rules.AnyRuleHitIff | extension/background.js:465-476 | the rule set hits iff one of its rules hits |
| Rules.DomainRuleIff | extension/background.js:469-470 | a domain-like rule hits iff the host equals it or ends with "." + rule |
| Rules.PatternRuleIff | extension/background.js:471-474 | a pattern rule hits iff its star-stripped token is non-empty and occurs in the lower-cased URL |
| Rules.BlankRuleNeverHits | extension/background.js:467-468 | a blank rule is skipped |
| Rules.NormalizeIdentity | extension/background.js:459 | a trimmed, lower-case rule is its own normal form |
| Rules.TrackedSingle | extension/background.js:462-479 | a one-rule set tracks a non-empty URL iff that rule hits |
| Rules.SubdomainExample | extension/background.js:469-470 | `example.com` tracks `sub.example.com` |
| Rules.LookalikeExample | extension/background.js:469-470 | `example.com` does not track `notexample.com` |
| Rules.StarPatternExample | extension/background.js:471-474 | `*foo` tracks every URL containing `foo` in any case |
| Rules.PopupNoRules | extension/popup.js:147 | the popup tracks nothing without rules |
| Rules.PopupAgreesWithBackground | extension/popup.js:143-157 | the popup's matcher gives the background's verdict on every URL |
| Rules.NothingHitsEmpty | extension/background.js:463 | no rule hits an empty URL and host |
| Logs.Absorb | extension/background.js:610-611 | the merged entry keeps the start and site of the current one and ends at the later end |
| Logs.Merge | extension/background.js:603-619 | the scan of one run keeps the run's first start and site and never lengthens the list |
| Logs.Keep | extension/background.js:597 | the filter keeps exactly the well-formed entries |
| Logs.CompactLogs | extension/background.js:594-620 | the scan loop computes `Compact` |
| Logs.MergeShape | extension/background.js:603-619 | the scan output is sorted, never longer than its input and has no mergeable neighbours |
| Logs.MergeCovers | extension/background.js:603-619 | every scanned entry lies inside an output entry of its site |
| Logs.MergeIdentity | extension/background.js:603-619 | a list with no mergeable neighbours is left as it is |
| Logs.StartOrder | extension/background.js:598 | the start comparator is a strict weak order |
| Logs.SortedReady | extension/background.js:596-599 | the filtered, sorted list is in start order |
| Logs.CompactShape | extension/background.js:594-620 | with two or more entries, compaction keeps only well-formed entries, sorts them by start, never grows the list, leaves no mergeable pair and loses no well-formed entry |
| Logs.CompactIdempotent | extension/background.js:594-620 | compacting twice equals compacting once |
| Logs.KeepAll | extension/background.js:597 | filtering well-formed entries changes nothing |
| Logs.CompactTwo | extension/background.js:607-617 | two entries merge iff they share a site and the gap is between 0 and 120000 ms; otherwise both stay, in start order |
| Logs.SortTwo | extension/background.js:598 | the stable sort swaps two entries only when the second starts strictly earlier |
| Logs.MergeTwo | extension/background.js:607-617 | the scan absorbs a mergeable next entry and keeps any other behind |
| Logs.ShortGapExample | extension/background.js:607-611 | two visits to one site 50 ms apart become one entry |
| Logs.LongGapExample | extension/background.js:607-617 | visits 130 s apart stay two |
| Logs.OverlapExample | extension/background.js:607-617 | overlapping visits stay two |
| Logs.OtherSiteExample | extension/background.js:596-617 | visits to different sites stay two, in start order |
| Tracker.ClosedShape | extension/background.js:560-568 | closing a session of at least a second stores an entry of its site covering it and leaves the logs compacted; a shorter one changes nothing |
| Tracker.ShortSessionExample | extension/background.js:560-568 | an 800 ms session leaves no log |
| Tracker.Distinct | extension/background.js:440 | the set holds the list's elements, each once |
| Tracker.Tracker.constructor | extension/background.js:405-444 | the defaults applied at start-up: default rules, tracking on, no pause, "minutes" badge |
| Tracker.Tracker.CompactLogsOnBoot | extension/background.js:622-631 | the compacted list is written back only when its length changed |
| Tracker.Tracker.RestoreActiveFromStorage | extension/background.js:181-186 | a saved session becomes the active one unless one is running; no activity time is recorded for its tab |
| Tracker.HeartbeatTime | extension/background.js:356-357 | `msg.ts \|\| now` is now, or the message's non-zero time stamp |
| Tracker.Tracker.StartSession | extension/background.js:537-545 | the tab becomes the active session, starting now, and its activity time is now |
| Tracker.Tracker.EndActiveSession | extension/background.js:547-570 | the slot is cleared and the session is logged through `Closed` |
| Tracker.Tracker.MaybeCloseActive | extension/background.js:532-535 | with a session, it is ended; without one, nothing changes |
| Tracker.Tracker.MaybeStartOrExtend | extension/background.js:518-530 | a matching active tab starts a session while tracking is on and not paused, unless it is already timed; the replaced session is not logged; otherwise nothing changes |
| Tracker.Tracker.HandleTabActivated | extension/background.js:483-486 | the running session is closed and logged, then the tab starts one iff it may be tracked, with its activity time set to now; no precondition, so a session restored without an activity time is covered |
| Tracker.Tracker.HandleTabUpdated | extension/background.js:488-498 | the new session, logs and activity times in every case: a matching complete load of the active tab may start a session; a non-matching one of the timed tab ends and logs it; any other update changes nothing |
| Tracker.Tracker.HandleTabRemoved | extension/background.js:500-503 | closing the timed tab ends its session; the tab's activity record goes |
| Tracker.Tracker.HandleWindowFocusChanged | extension/background.js:505-511 | the focused window's tab starts a session exactly when a real window got focus and the tab may start one; otherwise session and activity times are unchanged; the running session is never logged |
| Tracker.Tracker.HeartbeatMsgHandler | extension/background.js:350-366 | a message without a tab id or of another type changes nothing; otherwise the tab's activity time becomes `msg.ts \|\| now`, or now when a session starts; with no session a matching tab starts one even while paused or off, and otherwise start-or-extend applies, replacing another tab's session unlogged |
| Tracker.Tracker.StartFromHeartbeat | extension/background.js:359-363 | a session starts on the tab exactly when no session runs and its URL matches, or start-or-extend allows it; otherwise session and activity times are unchanged |
| Tracker.Tracker.EnforceIdleTimeout | extension/background.js:576-588 | ends the session only if its tab has an activity time and has been silent strictly longer than 60000 ms |
| Tracker.Tracker.PauseFor | extension/background.js:873-880 | the pause ends `mins` minutes from now and the session is closed |
| Tracker.Tracker.ResumeAll | extension/background.js:882-888 | the pause is lifted; the focused tab starts a session exactly when it may be tracked with no pause; logs and the other settings are unchanged |
| Tracker.Tracker.OnStorageChanged | extension/background.js:446-452 | local changes are copied into the cache with their defaults; other areas change nothing |
| Tracker.Tracker.ResetToday | extension/background.js:714-724 | the logs ending before today are compacted, then the active session is closed into them |
| Tracker.Tracker.ClearData | extension/background.js:725-731 | no logs and no session |
| Tracker.Tracker.AddRule | extension/background.js:732-738 | the value is appended iff it is absent |
| Tracker.Tracker.RemoveRule | extension/background.js:739-745 | every copy of the value is removed and the other rules stay |
| Tracker.Tracker.ResetRules | extension/background.js:746-750 | the stored rules become the default list |
| Tracker.KeepBefore | extension/background.js:718 | keeps exactly the entries ending before the start of today |
| Tracker.Without | extension/background.js:741 | keeps exactly the rules other than the value |
| Tracker.TodayPart | extension/background.js:910-912 | one entry adds between 0 and the time since the start of today |
| Tracker.TodayMsBounds | extension/background.js:910-915 | today's logged time is between 0 and the length of today so far per entry |
| Tracker.TodayMsAppend | extension/background.js:910-915 | today's time is additive over log lists |
| Tracker.IntText | extension/background.js:920 | `String(n)` reads back as n |
| Tracker.BadgeTextMeaning | extension/background.js:890-922 | the badge is blank iff mode is "none", shows only the pause glyph while paused, and otherwise reads back as today's minutes |
| Weekly.CalcAiScore | extension/background.js:938-943 | the score is in [20, 100], and 100 below five hours |
| Weekly.ScoreExamples | extension/background.js:938-943 | sample points of the score curve |
| Weekly.ScoreIsLinearPiece | extension/background.js:938-943 | from five hours on, the score is round(90 - 2h) before the clamp |
| Weekly.BadgeByHours | extension/background.js:1003-1004 | "Healthy" iff at most 5.25 h; "Super User" iff more than 20.25 h |
| Weekly.ClipLen | extension/background.js:961-963 | the overlap is non-negative, no longer than the window and positive iff the entry overlaps |
| Weekly.EntryMinutes | extension/background.js:965-969 | an entry adds non-negative minutes, and none outside the week |
| Weekly.DayIndex | extension/background.js:966 | the day slot is between 0 and 6 |
| Weekly.AddToKeys | extension/background.js:969 | `map.set` keeps a known key's place and appends a new key |
| Weekly.AddToValues | extension/background.js:969 | `map.set` adds m to that key only |
| Weekly.AddToUnique | extension/background.js:969 | `map.set` never gives a key two places |
| Weekly.DomainTotalsFacts | extension/background.js:959-970 | the site buckets have no site twice, each holds its site's minutes, and together they hold the week's minutes |
| Weekly.DaysSumToWeek | extension/background.js:958-972 | the day buckets add up to the week's minutes |
| Weekly.TopOf | extension/background.js:972-974 | the top site holds at least as many minutes as every site and is never negative; with no positive site it is "—" and 0 |
| Weekly.TopOfIsFirstMax | extension/background.js:973-974 | unless it is "—" and 0, the top site is a positive bucket with strictly more minutes than every earlier one |
| Weekly.WeekMinutesOf | extension/background.js:981-986 | the previous-week loop computes `WeekMinutes` |
| Weekly.StreakBound | extension/background.js:989-1001 | weeks before the earliest log have no minutes, so the streak loop ends |
| Weekly.LowestStart | extension/background.js:989-1001 | the streak floor lies at or before this week and before every logged start |
| Weekly.EmptyBeforeFirst | extension/background.js:981-986 | a week ending before every logged start has no minutes |
| Weekly.MostIdxAsWritten | extension/background.js:976 | the reducer as written returns a day index in 0..6 |
| Weekly.MostIdxAsWrittenCounterexample | extension/background.js:976 | a week active only on Sunday gets day 0 from the written reducer |
| Weekly.MostIdx | extension/background.js:976 | the corrected reducer returns the first day with the most minutes |
| Weekly.MostIdxExample | extension/background.js:976 | the corrected reducer gives Sunday for that week |
| Weekly.ChangePct | extension/background.js:987 | no value iff the previous week had no minutes; 0 iff the weeks are equal |
| Weekly.FillBuckets | extension/background.js:958-970 | the bucket loop computes `Days` and `DomainTotals` |
| Weekly.FindTop | extension/background.js:973-974 | the top-site loop computes `TopOf` |
| Weekly.CountStreak | extension/background.js:989-1001 | the streak counts the consecutive weeks with minutes, walking back from this week |
| Weekly.BuildAggregate | extension/background.js:945-1004 | every field of the weekly aggregate, stated through the functions above; the most active day is the reducer as written |
| Popup.SumInRange | extension/popup.js:111-116 | the loop computes the floored seconds of all positive overlaps, the running session included only with a start and a site |
| Popup.LogsMsSplit | extension/popup.js:111-116 | the time in a window is the sum of its two halves |
| Popup.DaysCoverSpan | extension/popup.js:408-413 | the day slots cover the week without gap or overlap |
| Popup.WeekSecBounds | extension/popup.js:408-439 | the week total is the week's seconds, short by at most seven |
| Popup.PopupDomainsFacts | extension/popup.js:418-432 | the site buckets have no site twice, and every bucket is named and positive |
| Popup.ComputeWeekAggregates | extension/popup.js:403-441 | seven day slots, their total and the first site with the most seconds |
| Popup.FillDomains | extension/popup.js:419-433 | the site loop computes `PopupDomains` |
| Popup.WeekTotalMeaning | extension/popup.js:439 | the total counts every second of the week once, less under a second per slot |
| Popup.PopupScoreSame | extension/popup.js:445-450 | the popup's score is the background's |
| Popup.Clamp | extension/popup.js:172 | the result is within the bounds, and a value already inside is kept |
| Popup.ScoreBandIsBadge | extension/popup.js:451-455 | the colour band follows the same thresholds as the badge |
| Popup.RowsMeaning | extension/popup.js:964-980 | the rows are newest first, a row is shown iff it is a stored entry passing the filters in force, and with no filter the rows are the stored entries with their multiplicities |
| Popup.FilteredRows | extension/popup.js:976-980 | the three filters keep the newest-first order and keep exactly the entries passing all of them |
| Popup.NewestFirst | extension/popup.js:966 | sorting newest first orders by start and is a permutation of the entries |
| Popup.PageEnd | extension/popup.js:955 | the page end never passes the row count, and reaches it iff the page covers every row |
| Popup.LogPager.constructor | extension/popup.js:949-950 | no rows and page 1 |
| Popup.LogPager.RenderLogsPage | extension/popup.js:952-963 | appends the next page of up to 200 rows; "load more" shows iff rows remain |
| Popup.LogPager.LoadMore | extension/popup.js:987 | the next page is appended |
| Popup.LogPager.RefreshLogs | extension/popup.js:964-985 | the rows are rebuilt and the first page is shown |
| Popup.PauseTodayEnds | extension/popup.js:275-279 | the pause ends within the day, or one minute from now |
| Popup.PauseTodayMinutes | extension/popup.js:275-279 | at least one minute; the whole minutes left in the day when a minute or more remains |
| Format.FmtShortRoundTrip | extension/popup.js:102-104 | the short text reads back as the seconds below a minute, and drops the seconds from a minute on |
| Format.FmtDurationRoundTrip | extension/popup.js:105-107 | the text reads back as the floored, clamped seconds |
| Format.FmtHMRoundTrip | extension/pages/student.js:37-41 | the text reads back as the rounded minutes clamped at 0 |
| JsValue.Or | extension/pages/teacher.js:67 | `a \|\| b` is truthy iff either is, and is a when a is truthy |
| JsValue.JsRound | extension/pages/teacher.js:68 | `Math.round` gives the integer within 1/2 of the number, or NaN |
| JsValue.NumberOr0 | extension/pages/teacher.js:180 | `Number(v)\|\|0` is the number itself, and 0 for NaN |
| JsValue.Entries | extension/pages/teacher.js:60 | `Object.entries` lists an object's fields, one entry per array item or string character, and nothing for anything else |
| JsValue.EntriesIndexed | extension/pages/teacher.js:60 | the entries of an array or a string are its items keyed by their decimal indices |
| JsValue.ToPrimitive | extension/pages/teacher.js:211-212 | arrays and objects become their text before a comparison; other values stay |
| JsValue.JsLessAsymmetric | extension/pages/teacher.js:211-212 | `<` is irreflexive and asymmetric on every pair of values |
| JsValue.JsLessLaws | extension/pages/teacher.js:211-212 | `<` is a strict weak order on all-string or all-number values |
| Portfolio.TopToolOf | extension/pages/teacher.js:58-62 | no top tool iff there is no entry; otherwise it is one of the entries |
| Portfolio.TopToolIsFirstMax | extension/pages/student.js:43-47 | with numeric minutes, the top tool is the first entry with the most minutes |
| Portfolio.FirstMaxEntry | extension/pages/student.js:43-47 | the head of the minutes-descending sort of numeric entries has the most minutes, and every entry before it strictly fewer |
| Portfolio.ValidateIff | extension/pages/student.js:23-26 | the student page accepts a file iff the teacher page would and it carries consent set to true |
| Teacher.ClassRow | extension/pages/teacher.js:66-81 | a class-aggregate row has whole numbers, the defaults 'student' and '—', and a portfolio carrying them |
| Teacher.ClassRowTopTool | extension/pages/teacher.js:77 | that portfolio's top tool is the row's own tool, with its minutes |
| Teacher.RoundedOr0 | extension/pages/teacher.js:68-79 | `Math.round(Number(x)\|\|0)` is a whole number within 1/2 of `Number(x)\|\|0` |
| Teacher.V01 | extension/pages/teacher.js:95-104 | the rebuilt portfolio is v0.1 with consent and carries the given alias, score, streak and totals |
| Teacher.PortfolioRow | extension/pages/teacher.js:109-118 | the row keeps the portfolio, rounds score and minutes, and shows its top tool or '—' |
| Teacher.ToV01 | extension/pages/teacher.js:84-107 | a valid portfolio is kept; another object is rebuilt with numeric totals; anything else is null |
| Teacher.NormalizeClassAggregate | extension/pages/teacher.js:65-81 | one row per student, in order; it throws iff a student is null or undefined |
| Teacher.NormalizeOtherObject | extension/pages/teacher.js:109-118 | any other object gives one row, keeping a valid portfolio unchanged |
| Teacher.NormalizeNonObject | extension/pages/teacher.js:106-109 | a non-object gives no row |
| Teacher.PutMembers | extension/pages/teacher.js:131 | `byAlias.set` replaces the record of that alias and keeps the others |
| Teacher.PutAllMembers | extension/pages/teacher.js:122-131 | after a batch, each alias holds its last record, untouched aliases stay, and aliases are unique |
| Teacher.PutAllFresh | extension/pages/teacher.js:122 | seeding the Map from the class gives the class back |
| Teacher.IngestSkipsNonJson | extension/pages/teacher.js:124 | files not named `.json` change nothing |
| Teacher.IngestFile | extension/pages/teacher.js:124-131 | one file turn of the loop sets its rows in turn and keeps aliases unique |
| Teacher.TeacherPage.constructor | extension/pages/teacher.js:13 | the class starts empty |
| Teacher.TeacherPage.Ingest | extension/pages/teacher.js:121-136 | the class becomes the Map's values after all files, without duplicate aliases |
| Teacher.TeacherPage.Clear | extension/pages/teacher.js:395-399 | the class list becomes empty |
| Teacher.AveragesBounded | extension/pages/teacher.js:180-195 | the averages lie between the rounded extremes, and are 0 for an empty class |
| Teacher.MedianOdd | extension/pages/teacher.js:188-189 | an odd median has half the scores at or below it and half at or above it |
| Teacher.MedianEven | extension/pages/teacher.js:190 | an even median is a whole number between the roundings of the two middle scores |
| Teacher.MedianOfClass | extension/pages/teacher.js:187-191 | the median is taken over the ascending scores, and is '—' iff the class is empty |
| Teacher.ToolCountsFacts | extension/pages/teacher.js:198-202 | each tool counts the students whose top tool it is; the counts add up to the students with a tool |
| Teacher.TopToolsFacts | extension/pages/teacher.js:203 | at most n tools, with true counts, most used first, and none left out beats a listed one |
| Teacher.GetOrderedSorted | extension/pages/teacher.js:207-216 | on a string or number column the rows are a permutation of the class in column order, either direction |
| Teacher.GetFilteredFacts | extension/pages/teacher.js:218-221 | a row is kept iff its alias contains the term, in table order; a blank term keeps everything |
| Teacher.BinRanges | extension/pages/teacher.js:349 | the bins are 0–19, 20–39, 40–59, 60–79 and 80 up, negatives in the first |
| Teacher.Histogram | extension/pages/teacher.js:346-351 | each bin holds the number of values that fall in it |
| Teacher.HistogramTotal | extension/pages/teacher.js:346-351 | the bins count every numeric value once |
| Teacher.ChartCounts | extension/pages/teacher.js:363 | bin b of the score chart counts exactly the students whose `score \|\| 0` is a number in band b (below 20, 20 wide in between, from 80 on) |
| Teacher.ChartBinIsBand | extension/pages/teacher.js:346-351 | one student's chart value falls in bin b iff it lies in band b |
| Teacher.ReportMedian | extension/pages/teacher.js:461-463 | the report median is 0 for an empty class, otherwise the summary's median |
| Teacher.Streak3Facts | extension/pages/teacher.js:465 | the count is the class size iff all have streak 3 or more, and 0 iff none has |
| Teacher.LowScoreFirstIff | extension/pages/teacher.js:486 | lower score first, then more minutes first |
| Teacher.HighScoreFirstIff | extension/pages/teacher.js:485 | higher score first, then more minutes first |
| Teacher.Top10MinutesFacts | extension/pages/teacher.js:484 | at most ten students, most minutes first, and none left out has more minutes than one listed |
| Teacher.Top5ScoreFacts | extension/pages/teacher.js:485 | at most five students, by score then minutes, and none left out ranks ahead of one listed |
| Teacher.StrugglingIff | extension/pages/teacher.js:486 | `(s.score \|\| 0) < 50` holds iff the score is a number below 50 |
| Teacher.NeedsHelpFacts | extension/pages/teacher.js:486 | at most five students scoring under 50, lowest first, and no such student left out ranks ahead |
| Teacher.ReportBandAgrees | extension/pages/teacher.js:489-495 | the report bands a clamped score as the chart bands the raw score |
| Teacher.ClampedScore | extension/pages/teacher.js:493 | the report clamps `Number(score) \|\| 0` into 0..100: a value inside is kept, one above becomes 100, one below becomes 0 |
| Teacher.ReportHistogram | extension/pages/teacher.js:489-496 | each report bin holds the students whose clamped score falls in it |
| Teacher.ReportMatchesChart | extension/pages/teacher.js:488-496 | with numeric scores, the report and the chart fill the same bins |
| Teacher.CellField | extension/pages/teacher.js:411 | any cell text without a double quote reads back as itself |
| Teacher.CsvCellsRoundTrip | extension/pages/teacher.js:411 | a line of cells reads back cell for cell, commas inside cells included |
| Teacher.CsvLineRoundTrip | extension/pages/teacher.js:411 | a CSV line of values reads back as their texts |
| Student.DailyValue | extension/pages/student.js:53 | a bar is NaN or a whole number ≥ 0 within 1/2 of non-negative minutes; a null entry throws |
| Student.ExtractDaily | extension/pages/student.js:51-56 | always seven values; with a breakdown they are NaN or whole and ≥ 0, otherwise seven equal numbers |
| Student.ExtractDailyBreakdown | extension/pages/student.js:52-53 | with a seven-entry breakdown, each bar comes from its own entry, and the series exists iff no entry is null |
| Student.ExtractDailyAverage | extension/pages/student.js:54-55 | otherwise the seven equal bars add up to the total within 7/2 minutes |
| Student.TotalTextRoundTrip | extension/pages/student.js:78 | the total tile reads back as the rounded, clamped minutes |
| Student.TopText | extension/pages/student.js:79-80 | '—' when there is no tool, otherwise the name of the entry `topTool(d)` picks |
| Student.TopTextIsFirstMax | extension/pages/student.js:79-80 | with numeric minutes, the tile names the first site with the most minutes |
| Student.ScoreTextReadsBack | extension/pages/student.js:81 | a missing score reads "0"; a score reads back as itself rounded |
| Student.StreakText | extension/pages/student.js:85 | the text ends in 's' iff the streak is not 1 |
| Student.StreakTextCases | extension/pages/student.js:85 | "1 week"; "0 weeks" when missing; "n weeks" otherwise |
| Student.BadgeText | extension/pages/student.js:86 | '—' for a falsy badge, otherwise the badge |
| Student.ToFixed1ReadsBack | extension/pages/student.js:84 | `toFixed(1)` reads back within 1/20 of the number |
| Student.ChangeText | extension/pages/student.js:83-84 | '—' iff not a number; '+' in front iff non-negative; '%' at the end |
| Heartbeat.Page.constructor | extension/heartbeat.js:4-6 | `last` is 0, the page has not booted, and nothing is sent |
| Heartbeat.Page.Send | extension/heartbeat.js:8-12 | nothing while hidden; an interaction within 15 s of `last` is dropped; a send sets `last` to now, and follows the previous ping by at least 15 s |
| Heartbeat.Page.OnKey | extension/heartbeat.js:29-32 | a lone modifier key sends nothing; any other key is an interaction |
| Heartbeat.Page.BootIfVisible | extension/heartbeat.js:42-48 | a visible page that has not booted sends the one bootstrap ping; otherwise nothing changes |
| Heartbeat.Page.OnVisibilityChange | extension/heartbeat.js:49-54 | becoming visible resets `last` to 0 and boots the page once |
| Heartbeat.TwoInteractions | extension/heartbeat.js:10-12 | two interaction pings with no visibility change between them are at least 15 s apart |

## Left out

- URL parsing: the host of a URL is an input.
- Case and space: `toLowerCase` maps only the ASCII letters A-Z; other case mappings are not modelled. `trim` removes space, tab, line feed, carriage return, vertical tab, form feed, U+00A0, U+FEFF, U+2028 and U+2029; the other Unicode white-space characters are not modelled.
- Time: the local-time `Date` arithmetic (`startOfDay`, `startOfWeek`, time zones, summer time) is left out. Days are fixed 86 400 000 ms slots from an abstract week start.
- Concurrency: the `await` interleaving between handlers is not modelled. Each handler is one sequential step.
- Log times: a start or end that is not a number acts as NaN. Compaction drops such an entry, and the badge, popup, previous-week, streak and history sums skip it (their test is `e > s`). The coercion of `null` to 0 by `Math.max` is not modelled.
- Weekly.FillBuckets: an entry of the current week with a non-number start or end adds nothing here. In the source its `if (e <= s) continue` is false for NaN, so it adds NaN. With a numeric start in the week, its day bucket becomes NaN, and the total, the score and the badge ("Super User") follow. Its site's total becomes NaN until a later entry of that site restarts it from 0 through `|| 0`. This NaN propagation is not modelled.
- Weekly.BuildAggregate: the aggregate inherits the NaN gap of `Weekly.FillBuckets`. It is exact when every entry of the week has numeric start and end.
- Browser calls: the `chrome.*` calls, storage writes, alarms, notifications, context menus, message plumbing, and backup export and import are not modelled.
- Display: DOM, canvas, PNG drawing and chart rendering are not modelled, and neither is the mode week range of the PNG report.
- Floating point: JavaScript number rounding is not modelled. Numbers are exact reals, so `toFixed(1)` on a decimal tie such as 0.15 can differ from the binary result. Numbers of 10^21 and above are given the fixed form, not exponent form.
- Portfolio exports: ISO date text, `JSON.stringify` schemas, the friendly-label tables and SHA-256 pseudonymisation are not modelled.
- JsValue.ToText: `String(v)` of a fractional number or of an array is not modelled and gives "". So `JsLess` compares an array as the empty string.
- JsValue.StrToNumber: `Number(s)` reads only blank and plain digit strings; signs, decimals, exponents and hex give NaN.
- JSON objects: an object keeps every field and `Field` reads the last one, as `JSON.parse` does. `Object.entries` of an object with a duplicate key lists it twice. Integer-like keys are not moved to the front.
- JavaScript Map keys: they are compared by value, which agrees with the Map for every string and number key.
- Teacher.AliasHas: the search treats a non-string alias as not matching, where the page's `s.alias.toLowerCase()` would throw.
- Teacher.CsvCell: a value containing a comma is wrapped in quotes, but quotes inside it are not doubled, as in the page itself. The round trip is proved only for texts without a double quote.
- Teacher: the sort column and search term of the table (`sortState` and `term`) are never changed on the page. `GetOrdered` and `GetFiltered` take them as parameters.
- Teacher: the Sample button (fixed demonstration records) is not modelled.
- Student: the most-active-day tile uses `niceDate`, a `Date` locale formatter, and is not modelled. So is the week title.
- Student.TotalText: a NaN total cannot come from `JSON.parse`. Its "NaNm" text is modelled as the page would print it.
- Heartbeat: the `chrome.runtime.id` guard around `sendMessage` is not modelled. `sent` records every ping that passes the throttle.
- Heartbeat: the 300 ms start-up delay of the first `bootIfVisible` is not modelled. The pointer, wheel and scroll listeners are `Send` with their reason.
- Tracker.Tracker.constructor: the settings objects created at first run (`portfolioPrefs`, `settings`, the salt) are not modelled.
- Weekly.MostIdxAsWritten: as written, the reducer only promises a day index in 0..6, not the most active day (see Findings). `Weekly.BuildAggregate` uses it, as the source does.

## Findings

| source | as written | input that shows it | evidently intended | confidence | as-written member | corrected member |
|---|---|---|---|---|---|---|
| extension/background.js:976 | `perDay.reduce((best, i, _, arr) => arr[i] > arr[best] ? i : best, 0)` uses each day's minute count as a day index | minutes `[0,0,0,0,0,0,30]` give day 0 (Monday), though only Sunday has minutes | the index of the first day with the most minutes | high (not executed) | Weekly.MostIdxAsWritten, Weekly.MostIdxAsWrittenCounterexample | Weekly.MostIdx, Weekly.MostIdxExample |
