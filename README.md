# Football match time tuner — a Dafny model

The repository is a browser tool for a football match. It ties field time, the clock of the match, to the wall clock, using the two kick-off times. Field time runs 0–45:00, then first-half stoppage time up to a cap, then the second half. The user moves a playhead along a timeline, bookmarks events (cards, goals, substitutions…) at the playhead, and prints a report. Three versions of the tuner share this logic:

- **main.js**: two timeline rows (first and second half) split at the first-half cap. The cap is the recorded end of the first half, or 75 minutes (4500 s). The timeline is 150 minutes (9000 s). The tuner has stepped zoom levels and autoplay, which follows the wall clock.
- **app.js**: one 150-minute row with a fixed 4500 s cap. Zoom multiplies by 2, from 0.25x to 8x. This version also has autoplay, a score picker and extra-time quick buttons.
- **index.js**: a 90-minute row at 3 px/s with two fixed 45-minute halves. It has no zoom and no autoplay.

The model has one Dafny module per concern:

- `TimeBase`: conversion between field time and wall-clock time, and the HH:MM clock.
- `Labels`: the mm:ss / 45+m:ss / 90+m:ss clock text used by the pill, the lists and the report. The first-half cap is a parameter: main.js passes the recorded-or-4500 cap, and app.js's copy of the formatter (app.js:147-172) is the same rule with 4500 fixed. The conversions in `TimeBase` are shared in the same way with app.js:955-988.
- `Text`: the JavaScript string and number built-ins the code relies on: `%`, `trim`, `String(n)`, `padStart`, `parseInt`.
- `Seek`: clamping, wheel/arrow steps, dragging, and the playhead with its autoplay state, as a class.
- `Bookmarks`: the bookmark list and its store class (add+sort, remove, delete, clear, save with the five-second overwrite rule).
- `Notes`: the combined team/note text of the save sheet.
- `Persist`: what is written to and read back from storage, modelled as a map.
- `Colors`: `hexToRgba`.
- `Report`: the summary counts and the fifteen-per-page split of the report.
- `ScoreOptions`: the score picker's option list.
- `Ticks`: the ruler loop.
- `MainTuner`, `AppTuner`, `IndexTuner`: each version's state as a class, with its handlers as methods.
- `Scenarios`: runs of the main tuner's handlers: autoplay against the quick buttons, and a page reload.

Wall-clock readings (`Date.now()`, the time of day), user confirmations and sheet inputs are method parameters.

## Model

| member | source | states |
|---|---|---|
| TimeBase.FieldToReal | main.js:214-222 | Null unless both kick-offs are set. Up to the cap, field time f is start1 + f; past the cap it is start2 + (f − cap). |
| TimeBase.RealToField | main.js:224-235 | 0 while a kick-off is unset or before both kick-offs. From start1 up to start2 it is min(r − start1, cap). From start2 on it is cap + (r − start2). Never negative when the cap is not. |
| TimeBase.NonDecreasingIff | main.js:214-222 | Field-to-real is monotone exactly when start1 + cap ≤ start2 + 1. |
| TimeBase.RoundTripSecondHalf | main.js:214-235 | Every field time past the cap survives field → real → field, whatever the kick-offs. |
| TimeBase.RoundTripFirstHalfIff | main.js:214-235 | All field times 0..cap survive the round trip exactly when the second kick-off is at least a cap after the first. |
| TimeBase.RealRoundTrip | main.js:214-235 | A wall-clock second inside a half maps to a field time that maps back to it. |
| TimeBase.DayOffset | main.js:188 | The double remainder gives a second of the day in [0, 86400), congruent to the input. |
| TimeBase.DoubleRemainder | main.js:188 | `((sec % 86400) + 86400) % 86400`, with JavaScript's `%`, is the mathematical modulus. |
| TimeBase.SecToHMReadsClock | main.js:188 | HH:MM is two-digit hour 0..23 and minute 0..59 of the second, wrapped into one day. |
| TimeBase.SecToHMPeriodic | main.js:188 | A full day later the clock text is the same. |
| Text.JsRem | main.js:188 | JavaScript `%`: the modulus for non-negative dividends; for a negative one, minus the modulus of its magnitude, in (−b, 0]. |
| Text.TrimStart | main.js:398 | Drops exactly the leading white space: the result is a suffix, and it does not start with white space. |
| Text.TrimEnd | main.js:398 | Drops exactly the trailing white space: the result is a prefix, and it does not end with white space. |
| Text.TrimFixedPoint | main.js:398 | A string is its own trim iff it is empty or neither starts nor ends with white space. |
| Text.TrimIdempotent | main.js:398 | Trimming twice is trimming once. |
| Text.DigitValue | main.js:288-290 | A character's digit value is at most 36; Text.DigitValueTable states which value each character has. |
| Text.DigitValueTable | main.js:288-290 | '0'..'9' are 0..9; 'a'..'z' and 'A'..'Z' are 10..35. The value is 36 ("not a digit in any radix") exactly for every other character. |
| Text.Digits | main.js:22 | String(n) of a natural is a non-empty digit string; one digit below 10, two digits for 10..99. |
| Text.ValueOfDigits | main.js:22 | The numeral String(n) denotes n. |
| Text.IntToStringDenotes | main.js:22 | String(n) is a decimal numeral denoting n: only digits for n ≥ 0; for n < 0 a minus sign followed by digits denoting −n. |
| Text.Pad2Digits | main.js:22 | padStart(2,'0') of 0..99 is two digits denoting n; from 10 up it is String(n) unchanged. |
| Text.DigitRun | main.js:350 | The longest prefix made of digits valid in the radix. |
| Text.ParseIntOfDigits | main.js:350 | parseInt of a non-empty digit string without a 0x prefix is its value. |
| Text.ParseIntOfString | main.js:345-350 | parseInt(String(n), 10) == n for every integer n, negatives included: a position saved as text reads back. |
| Labels.LabelRoundTrip | main.js:191-212 | Every field time t ≥ 0 is read back from its clock text, so distinct times never share a text. |
| Labels.RegularFirstRoundTrip | main.js:194-195 | The mm:ss text of 0..45:00 reads back. |
| Labels.StoppageFirstRoundTrip | main.js:196-200 | The 45+m:ss text of first-half stoppage time reads back. |
| Labels.RegularSecondRoundTrip | main.js:201-205 | The mm:ss text (45 and up) of the regular second half reads back. |
| Labels.StoppageSecondRoundTrip | main.js:206-211 | The 90+m:ss text of second-half stoppage time reads back. |
| Labels.HalfTimeBoundary | main.js:194-200 | 2700 s is "45:00"; with a later cap, 2701 s is "45+0:01". |
| Labels.FullTimeBoundary | main.js:201-211 | cap + 2700 is "90:00"; one second later is "90+0:01". |
| Labels.FullTimeText | main.js:201-205 | cap + 2700 reads "90:00". |
| Labels.StoppageSecondStartText | main.js:206-211 | cap + 2701 reads "90+0:01". |
| Labels.QuickJumpLabels | main.js:1497-1514 | With the default cap, the quick buttons' 3000, 7500 and 7800 read 45+5:00, 90+5:00 and 90+10:00. |
| Seek.Clamp | main.js:1114 | In [lo, hi]; the identity inside; lo below, hi above. |
| Seek.ClampIdempotentMonotone | main.js:1114 | Clamping twice is clamping once; clamping keeps the order of inputs. |
| Seek.ClampReal | main.js:1346 | The real-valued clamp of a drag stays in [lo, hi] and is the identity inside. |
| Seek.StepSeconds | main.js:1366 | A wheel or arrow step is 30 s with Shift and 5 s without. |
| Seek.WheelStep | main.js:1363-1370 | One wheel notch stays in [0, MAX_SEC]. It moves forward iff a delta is positive, backward otherwise. It moves by exactly one step unless it stops at an end. |
| Seek.DragSeek | main.js:1342-1348 | The playhead moves by −dx / PX_PER_SEC while that stays in [0, MAX_SEC]. Otherwise it stops at 0 or MAX_SEC. |
| Seek.DragDirectionAndUndo | main.js:1342-1348 | Dragging right moves back, dragging left moves forward, and a drag undone by the opposite drag returns to the start. |
| Seek.AutoplayPath | main.js:584-588 | Autoplay starts from the recorded position. It never runs backward as the clock advances. Restarting from an intermediate point lands where the uninterrupted run would. |
| Seek.Playhead.constructor | main.js:74 | The playhead starts paused at the given position. |
| Seek.Playhead.Start | main.js:554-566 | No-op while playing; otherwise plays and records the clock and the position. |
| Seek.Playhead.Stop | main.js:568-582 | Pauses, forgets the start clock, and keeps the position. |
| Seek.Playhead.Toggle | main.js:1311-1314 | Flips playing; a start records the clock and the position. |
| Seek.Playhead.Tick | main.js:584-600 | The playhead follows the clock. On reaching MAX_SEC it stays there and autoplay stops. While paused, or with a falsy start clock, nothing changes. |
| Seek.Playhead.SeekTo | main.js:1108-1112 | Stops autoplay and moves to t, unclamped. |
| Seek.Playhead.Nudge | main.js:1363-1370 | Stops autoplay and moves by delta, clamped to [0, MAX_SEC]. |
| Seek.Playhead.Jump | main.js:1497-1514 | Sets the position and leaves autoplay and its start record as they were. |
| Seek.Playhead.GoLive | main.js:606-617 | Stops, moves to the clamped live time, and plays from there with the new clock. |
| Bookmarks.NewBookmark | main.js:390-411 | The record carries the given id, time, type and creation stamp. A tagged note with text keeps its text, colour and team. A plain note is stored trimmed, without a team. A tagged note with empty text is stored as an empty note without a team. |
| Bookmarks.InsertIndex | main.js:412 | The insertion point is within the list; where it lies is stated by Bookmarks.InsertPlacement. |
| Bookmarks.InsertPlacement | main.js:412 | In a sorted list the new bookmark lands after every bookmark not later than it and before every later one. |
| Bookmarks.InsertMultiset | main.js:412 | Inserting adds exactly that bookmark. |
| Bookmarks.InsertSorted | main.js:412 | Inserting into a sorted list keeps it sorted. |
| Bookmarks.InsertAtTime | main.js:412 | The new bookmark goes after those of equal time (stability). |
| Bookmarks.StableSortSpec | main.js:412 | The sort by time is sorted, a permutation, and keeps equal-time bookmarks in their original order. |
| Bookmarks.StableSortOfSorted | main.js:412 | Sorting a sorted list changes nothing. |
| Bookmarks.AddToSorted | main.js:411-412 | Push-then-sort on a sorted list is one insertion. |
| Bookmarks.RemoveIdSpec | main.js:418-424 | The filter keeps exactly the bookmarks with other ids, in order and with their multiplicities; none with the id is left. |
| Bookmarks.SubsequenceSorted | main.js:418-424 | Filtering a sorted list leaves it sorted. |
| Bookmarks.RemoveAbsentId | main.js:418-424 | Removing an id nobody carries changes nothing. |
| Bookmarks.RemovePresentId | main.js:418-424 | With distinct ids, removing a stored id shortens the list by one. |
| Bookmarks.NearIndex | main.js:1542 | The first index within five seconds of t, or the length when there is none. |
| Bookmarks.FindNear | main.js:1542 | The first bookmark in list order within five seconds, as Array.prototype.find returns it; None iff there is none. |
| Bookmarks.SaveSpec | main.js:1533-1553 | With no bookmark within five seconds, saving adds one. Declining the overwrite changes nothing. Overwriting keeps the length (distinct ids). Any save leaves the list sorted. |
| Bookmarks.BookmarkStore.constructor | main.js:379-388 | The store holds the loaded list. |
| Bookmarks.BookmarkStore.Add | main.js:390-416 | New list = stable sort of the old list with the new record pushed. |
| Bookmarks.BookmarkStore.Remove | main.js:418-424 | New list = old list filtered by id. |
| Bookmarks.BookmarkStore.Delete | main.js:1301-1305 | Filters by id only when confirmed. |
| Bookmarks.BookmarkStore.Clear | main.js:426-440 | An empty list gets the nothing-to-clear outcome. Otherwise the list empties when confirmed and is kept when not. |
| Bookmarks.BookmarkStore.Save | main.js:1533-1553 | With no type chosen nothing changes. Otherwise the new list is the save-with-overwrite result. |
| Notes.CombinedText | main.js:1228-1255 | Empty iff both team and note are empty. Without a team it is the trimmed note. With a team it starts with the team name, followed by " - note" when there is a note. |
| Notes.CombinedNote | main.js:1228-1255 | Tagged with the team and colour exactly when a team with a colour is chosen; its text is the combined text. |
| Notes.CombinedTextTrimmed | main.js:1228-1255 | The combined text has no surrounding white space when the team name has none. |
| Notes.StoredNote | main.js:390-411 | The bookmark saved from the sheet stores the combined text and, when tagged, the team and colour. |
| Notes.StoredPlainNote | main.js:396-399 | A plain combined note is stored as is. |
| Persist.SaveSeek | main.js:345 | Writes String(seek) under the seek key and leaves other keys as they were. |
| Persist.LoadSeek | main.js:347-357 | Restores only a value that parses to a number in [0, MAX_SEC], and restores every such value. |
| Persist.SeekRoundTrip | main.js:345-357 | A position saved in range is restored exactly. |
| Persist.SeekReadBack | main.js:345-357 | Reading right after a save gives the saved position when it is in [0, MAX_SEC] and nothing otherwise, whatever the store held. A second save replaces the first. |
| Persist.SaveStarts | main.js:323-328 | Keeps all keys and changes none but the four start keys. |
| Persist.LoadStarts | main.js:330-343 | Some iff all four start keys are stored. |
| Persist.StartsRoundTrip | main.js:323-343 | Saved start fields load back as saved. |
| Persist.HasAllSavedTimes | app.js:1254-1275 | True iff all four values were stored, i.e. iff the main tuner's load succeeds on that storage. |
| Persist.StoreOf | app.js:1256-1259 | A key is present iff its value was read. |
| Persist.HasAllSavedTimesAgree | app.js:1266 | The `&&` chain agrees with the intended check when none of the first three values is empty. |
| Persist.HasAllSavedTimesEmptyFirst | app.js:1266 | An empty first value makes the chain report all times saved although the others are missing. |
| Colors.Slice | main.js:288-290 | slice cuts both indices down to the length. In range it is the sub-string. With only the end past the length it is the rest of the string. From the length on, or with end before start, it is empty. |
| Colors.HexDigit | main.js:288-290 | The lower-case hexadecimal digit of d has digit value d. |
| Colors.Hex2 | main.js:288-290 | Two hexadecimal digits. |
| Colors.HexColor | main.js:287-292 | "#rrggbb" is seven characters. |
| Colors.Hex2RoundTrip | main.js:288-290 | parseInt(.., 16) reads two hexadecimal digits back as the channel value. |
| Colors.ChannelsOfColor | main.js:287-292 | Each channel of "#rrggbb" is read back as the value written. |
| Colors.HexToRgbaOfColor | main.js:287-292 | hexToRgba of a well-formed colour prints its three channel values in decimal with the alpha. |
| Colors.ShortColorBlueIsNaN | main.js:290-291 | A colour too short for a blue channel prints NaN for it. |
| Report.PageCount | main.js:891 | Math.ceil(n / 15): the fewest pages of fifteen that hold n events. |
| Report.Paginate | main.js:889-903 | One page per fifteen events. Page p is slice(15p, min(15p+15, n)). Pages are non-empty, all but the last are full, and together they are the list. |
| Report.KindCount | main.js:860-863 | A type's count is at most the number of events; Report.KindCountsAddUp states that the counts partition them. |
| Report.KindCountsAddUp | main.js:860-863 | The per-type counts add up to the number of events. |
| ScoreOptions.GenerateScoreOptions | app.js:993-1004 | The loops push the option texts of all scores by total, then home goals. |
| ScoreOptions.PushRow | app.js:996-1001 | The inner loop appends the texts of one total's scores to what is there. |
| ScoreOptions.RowMembers | app.js:996-1001 | A row holds exactly the scores with that total and at most ten a side. |
| ScoreOptions.RowOrdered | app.js:996-1001 | A row is ordered by home goals. |
| ScoreOptions.PairsMembers | app.js:995-1003 | The scores pushed are exactly those with at most ten a side. |
| ScoreOptions.PairsOrdered | app.js:995-1003 | The scores are ordered by total and then by home goals. |
| ScoreOptions.RowLength | app.js:996-1001 | The length of a row is the number of home counts allowed. |
| ScoreOptions.PairsLength | app.js:995-1003 | The length of the list is the sum of the row sizes. |
| ScoreOptions.ScorePairsCount | app.js:993-1004 | 121 options. |
| ScoreOptions.PairsCount | app.js:995-1003 | Totals 0..20 give 121 scores. |
| ScoreOptions.ScoreTextReading | app.js:999 | An option text reads back as the score it was written from. |
| ScoreOptions.ScoreOptionsComplete | app.js:993-1004 | Every score with at most ten goals a side is offered. |
| ScoreOptions.ScoreOptionsDistinct | app.js:993-1004 | No option is offered twice. |
| Ticks.TickCount | main.js:646 | The number of iterations of `for (s = 0; s <= limit; s += step)`. |
| Ticks.TickCountUnique | main.js:646 | Only one count has those properties. |
| Ticks.LayOut | main.js:646-682 | One tick per iteration; tick i is the mark of s = i·step. |
| MainTuner.ZoomInIndex | main.js:463-468 | zoomIn goes to the next level and saturates at the last. |
| MainTuner.ZoomOutIndex | main.js:470-475 | zoomOut goes to the previous level and saturates at the first. |
| MainTuner.ZoomInCoarsens | main.js:10-14 | Zooming in lowers px/s and widens the tick interval; zooming out undoes it. |
| MainTuner.Placement | main.js:716-728 | A marker is on the first row iff its time is within the cap; first-row offsets lie in [0, cap]. |
| MainTuner.PlacementIsRealTime | main.js:716-728 | A marker's row kick-off plus its offset is its wall-clock time. |
| MainTuner.MainTickClasses | main.js:657-673 | The tick colour classes agree with the clock periods of the labels. |
| MainTuner.Tuner.Cap | main.js:189 | The recorded first-half end, or 4500. |
| MainTuner.Tuner.constructor | main.js:72-77 | No kick-offs, no half ends, first zoom level, playhead paused at 0, loaded bookmarks. |
| MainTuner.Tuner.SyncStarts | main.js:1101-1106 | The kick-offs become the picker times; nothing else changes. |
| MainTuner.Tuner.EndFirstHalf | main.js:479-486 | The first-half end, and so the cap, becomes the playhead. |
| MainTuner.Tuner.ClickEndFirstHalf | main.js:1434-1437 | The first-half end is recorded only when none is. |
| MainTuner.Tuner.ResetFirstHalf | main.js:528-538 | When confirmed, the first-half end is forgotten and the cap returns to 4500. |
| MainTuner.Tuner.EndSecondHalf | main.js:488-494 | The match end is recorded at the playhead and autoplay stops. |
| MainTuner.Tuner.ClickEndSecondHalf | main.js:1439-1442 | The match end is recorded at the playhead, and autoplay stopped, only when none is recorded. Otherwise autoplay and its start record are untouched. Kick-offs, the first-half end, zoom and position are kept. |
| MainTuner.Tuner.ResetSecondHalf | main.js:540-550 | When confirmed, the match end is forgotten. |
| MainTuner.Tuner.ZoomIn | main.js:463-468 | Next zoom index; px/s follows the level. |
| MainTuner.Tuner.ZoomOut | main.js:470-475 | Previous zoom index; px/s follows the level. |
| MainTuner.Tuner.GoToLiveTime | main.js:606-617 | Plays from the live field time clamped to [0, 9000]. Autoplay restarts from that position at the given clock. |
| MainTuner.Tuner.Wheel | main.js:1363-1370 | Stops autoplay and steps in the wheel's direction, clamped. |
| MainTuner.Tuner.Arrow | main.js:1386-1397 | Stops autoplay and steps back or forward, clamped. |
| MainTuner.Tuner.Space | main.js:1398-1401 | Toggles autoplay; the playhead stays. |
| MainTuner.Tuner.PointerDown | main.js:1333-1340 | Pressing the timeline stops autoplay. |
| MainTuner.Tuner.SheetGo | main.js:1466-1473 | Stops autoplay and moves to minutes·60 + seconds, clamped. |
| MainTuner.Tuner.QuickJumpAsWritten | main.js:1497-1514 | Sets the playhead and leaves autoplay running. |
| MainTuner.Tuner.QuickJump | main.js:1497-1514 | Corrected: stops autoplay, then sets the playhead. |
| MainTuner.Tuner.GoToBookmark | main.js:1296-1299 | Stops autoplay and moves to the bookmark's time, unclamped. |
| MainTuner.Tuner.SaveBookmark | main.js:1533-1553 | Saves the combined note at the playhead with the overwrite rule; with no type chosen nothing changes. |
| MainTuner.Tuner.RestoreSeek | main.js:347-357 | Restores the saved position iff it is a number in [0, 9000]; otherwise the position stays. |
| MainTuner.Tuner.InitSeekAsWritten | main.js:1637-1645 | As written: the renders in updateZoom and syncStarts save the current position before it is loaded. So the position read back is the one just written, and the storage ends holding it. |
| MainTuner.Tuner.InitSeek | main.js:1637-1645 | Corrected: the stored position is restored iff it is a number in [0, 9000], with 0 otherwise. Only then is the position saved again. |
| MainTuner.Tuner.BuildTicks | main.js:621-684 | Both rows have TickCount(cap, interval) ticks; tick i of a row is its mark at i·interval. |
| AppTuner.IndexOf | app.js:615 | indexOf: the first index holding x, or −1 iff x is absent. |
| AppTuner.ZoomSteps | app.js:614-628 | Zooming in doubles the level up to 8x; zooming out halves it down to 0.25x; out undoes in. |
| AppTuner.LevelIndex | app.js:9-11 | Each level has its index in the list, and neighbouring levels differ by a factor of two. |
| AppTuner.LevelIndexOf | app.js:9-11 | indexOf finds every level at its own position. |
| AppTuner.ZoomInFromUnknownLevel | app.js:614-620 | A level missing from the list would zoom in to the smallest level. |
| AppTuner.Density | app.js:1307-1323 | Tick and major intervals by level: (300, 900) up to 0.5x, (60, 300) below 4x, (30, 300) from 4x. |
| AppTuner.AppMarkLabelled | app.js:1325-1370 | A tick is labelled iff it is major, or at 2x and up on a whole minute. |
| AppTuner.ZoomedTickIsClockText | app.js:1325-1370 | From 2x up, a whole-minute label is the clock text of its time with the 4500 s cap, coloured by its period. |
| AppTuner.Tuner.constructor | app.js:116-130 | 1x zoom, no kick-offs, playhead paused at 0, loaded bookmarks. |
| AppTuner.Tuner.SyncStarts | app.js:1778-1783 | The kick-offs become the picker times. |
| AppTuner.Tuner.ZoomIn | app.js:614-620 | The next level; px/s = 3 × level. |
| AppTuner.Tuner.ZoomOut | app.js:622-628 | The previous level; px/s = 3 × level. |
| AppTuner.Tuner.ResetZoom | app.js:630-633 | Back to 1x. |
| AppTuner.Tuner.GoToLiveTime | app.js:713-743 | Plays from the live field time with the 4500 s cap, clamped. Autoplay restarts from that position at the given clock. |
| AppTuner.Tuner.Wheel | app.js:1513-1524 | Stops autoplay and steps in the wheel's direction within [0, 9000]. |
| AppTuner.Tuner.Arrow | app.js:1526-1540 | Stops autoplay and steps within [0, 9000]. |
| AppTuner.Tuner.Space | app.js:1541-1548 | Toggles autoplay; the playhead stays. |
| AppTuner.Tuner.PointerDown | app.js:1482-1491 | Pressing the timeline stops autoplay. |
| AppTuner.Tuner.SheetGo | app.js:1622-1629 | Stops autoplay and moves to minutes·60 + seconds, clamped. |
| AppTuner.Tuner.QuickJumpAsWritten | app.js:1652-1684 | Sets the playhead and leaves autoplay running. |
| AppTuner.Tuner.QuickJump | app.js:1652-1684 | Corrected: stops autoplay, then sets the playhead. |
| AppTuner.Tuner.SaveBookmark | app.js:1705-1722 | Saves the combined note as plain text at the playhead with the overwrite rule. |
| AppTuner.Tuner.BuildTicks | app.js:1286-1371 | TickCount(9000, interval) ticks; tick i is the mark at i·interval. |
| IndexTuner.IndexRealToField | index.js:150-161 | Field time in [0, 5400]. 0 without kick-offs and before start1. r − start1 in the first 45 minutes, then 2700 until start2. 2700 + (r − start2) in the second 45 minutes, then 5400. |
| IndexTuner.IndexRoundTripIff | index.js:136-161 | Every field time 0..5400 survives field → real → field exactly when start1 + 2700 ≤ start2. |
| IndexTuner.IndexRealRoundTrip | index.js:136-161 | A wall-clock second inside either half maps to a field time that maps back to it. |
| IndexTuner.IndexRealToFieldMonotone | index.js:150-161 | With ordered kick-offs, a later second never shows an earlier field time. |
| IndexTuner.PillMatchesClock | index.js:136-147 | The corrected pill says first half iff the field time converts to a wall-clock time within the first half. |
| IndexTuner.PillAsWrittenAtHalfTime | index.js:414-416 | At exactly 45:00 the pill as written says second half, while the conversion places the time at the end of the first half. |
| IndexTuner.IndexMarkReadsClock | index.js:382-397 | A whole-minute tick is major and labelled with its mm:ss, green before 45:00, the half-time colour at 45:00 and purple after. |
| IndexTuner.IndexMarkMinor | index.js:382-397 | Other ticks are minor and unlabelled. |
| IndexTuner.Tuner.constructor | index.js:85-87 | No kick-offs, playhead at 0, loaded bookmarks. |
| IndexTuner.Tuner.SyncStarts | index.js:660-665 | The kick-offs become the picker times. |
| IndexTuner.Tuner.Wheel | index.js:476-482 | Steps in the wheel's direction within [0, 5400]. |
| IndexTuner.Tuner.Arrow | index.js:485-494 | Steps within [0, 5400]. |
| IndexTuner.Tuner.SheetGo | index.js:552-559 | Moves to minutes·60 + seconds clamped to [0, 5400] (also for the 0/45/90 buttons). |
| IndexTuner.Tuner.GoToBookmark | index.js:312-316 | Moves to the bookmark's time as stored. |
| IndexTuner.Tuner.SaveBookmark | index.js:604-623 | Saves the typed note at the playhead with the overwrite rule. |
| IndexTuner.Tuner.BuildTicks | index.js:370-401 | 541 ticks, tick i marking i·10 s. |
| Scenarios.QuickJumpLostDuringAutoplay | main.js:1497-1514 | Autoplay from 0; a 90+5 press at 7500; one second later the playhead is back at 101. |
| Scenarios.QuickJumpHeldAfterCorrection | main.js:1497-1514 | The same presses with the corrected jump: the playhead stays at 7500 and autoplay is off. |
| Scenarios.AutoplayStopsAtEnd | main.js:584-600 | Autoplay from 8998 reaches 9000 and stops there. |
| Scenarios.ReloadAsWritten | main.js:1637-1645 | Any position in [0, 9000] saved by the previous session: a fresh page reopens at 0 and reports the position as restored. |
| Scenarios.ReloadCorrected | main.js:1637-1645 | With the load before the first render, the page reopens at the saved position. |

## Left out

- DOM, CSS, pixel positions and the rendering of labels and markers. Only the tick and label *values* are modelled.
- The PDF report (html2canvas, jsPDF, the HTML pages) beyond the page split and the per-type counts. Also left out are the Thai-language messages, feedback toasts, sheets and button effects.
- Browser storage I/O, JSON (de)serialisation of the bookmark list, and the try/catch around storage. Storage is a `map<string, string>`.
- Timers (`setInterval`, `setTimeout`) and the clock. `Date.now()` and the time of day are parameters in whole seconds. Seek.Playhead.Tick therefore moves in whole seconds, whereas the source's position can be fractional between ticks.
- Seek.DragSeek: dragging is a real-valued function, not a tuner method. The model's playhead position is an integer, while a drag in the source makes it fractional.
- The tuners' SyncStarts do not write storage. What `saveStarts` writes is Persist.SaveStarts.
- The app and index tuners' delete, clear and go-to-bookmark handlers behave as the main tuner's on the shared BookmarkStore, and are not repeated per tuner. The app tuner's restore of the seek position is the main tuner's Persist.LoadSeek check with the same 9000 s bound.
- `calculateExtraTimePeriods`, `generateImportantOptions`, `updateBookmarkDropdown`, `renderBookmarkList` and the team name/colour persistence are left out. They are UI plumbing, and the first is never called.
- `loadHalfEndTimes` is left out. It would store `parseInt` of a stored string, which can be NaN; the model's half ends are integers.
- In app.js, `syncStarts` is declared twice with the same body, and the model has one.
- Where the two disagree, the model follows the code rather than the written description. Half ends are not required to be after 45:00, so with a first-half end below 2700 the clock text of (end, 2700] is still first-half text. goToBookmark does not clamp. In main.js, "zoom in" moves to a coarser scale (fewer px per second).

## Findings

| source | as written | input that shows it | evidently intended | confidence | as-written member | corrected member |
|---|---|---|---|---|---|---|
| main.js:1497-1514 | The 45+5 / 90+5 / 90+10 buttons assign the position without stopping autoplay (app.js:1652-1684 does the same) | Autoplay started at 0 on clock second 1000; press 90+5 at 1100; at 1101 the next autoplay tick puts the playhead at 101 | Stop autoplay first, as every other explicit seek (`seekToTime`) does, so the jump sticks | medium; not executed | Scenarios.QuickJumpLostDuringAutoplay | MainTuner.Tuner.QuickJump |
| index.js:414-416 | The half pill shows the first half only for field time < 2700 | Field time 2700 (45:00): the pill shows the second half, while `fieldToRealSec` (index.js:140, `<= 2700`) maps it to start1 + 2700, the end of the first half | First half up to and including 2700, as the conversion counts it | low; not executed | IndexTuner.PillAsWrittenAtHalfTime | IndexTuner.PillMatchesClock |
| main.js:1637-1643 | init calls `updateZoom()` and `syncStarts()`, which both `render()`, and `render` ends in `saveSeekPosition()` (main.js:791). Only then does `loadSeekPosition()` run. app.js:1835-1837 has the same order, with `render` saving at app.js:1423 | The previous session saved 1234; on reload the renders write "0" (the initial `seekSecVal`, main.js:74) over it; the load reads 0 and reports the position restored | Load the saved position before the first render saves | medium; not executed | Scenarios.ReloadAsWritten | Scenarios.ReloadCorrected |
| app.js:1266 | `hasAllSavedTimes = (a && b && c && d) != null` | a = "" with b, c, d missing: the chain stops at "" and reports all times saved | True only when all four values are stored | low; not executed | Persist.HasAllSavedTimesEmptyFirst | Persist.HasAllSavedTimes |
