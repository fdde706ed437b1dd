# Linear-channel timeline: a Dafny model

The application turns a viewer's YouTube subscriptions into one linear "TV
channel". The feed refresh caches the latest uploads of every enabled
subscription, with each video's duration parsed from its ISO 8601 duration
text. The timeline endpoint plays the cached videos back to back from a fixed
broadcast start time. It answers three things: which video airs at a given
epoch, how far into it the channel is, and which videos surround it. Three
small helpers complete the core:

- the "published ... ago" label of a video card;
- the player's `H:MM:SS` / `M:SS` clock;
- the OAuth token refresh done before every call to the video platform.

The model is split into these modules:

| file | module | models |
|---|---|---|
| `wrappers.dfy` | `Wrappers` | `Option` and `Result` |
| `digits.dfy` | `Digits` | decimal rendering of numbers (`${n}`) and digit values |
| `js_parse_int.dfy` | `JsParseInt` | JavaScript's `parseInt` without a radix, with `None` for `NaN` |
| `iso_duration.dfy` | `IsoDuration` | duration text to whole seconds via `PT(\d+H)?(\d+M)?(\d+S)?` |
| `feed.dfy` | `Feed` | the `Video` record, the duration map, video construction, the `videos` / `feedUpdates` arrays |
| `timeline.dfy` | `Timeline` | `getVideoAtEpoch`, the last-video fallback, the five-before/five-after window |
| `timeline_request.dfy` | `TimelineRequest` | `GET /api/timeline`: parameters, the 400 and 204 answers, the response body |
| `relative_time.dfy` | `RelativeTime` | `getRelativeTime` |
| `player_time.dfy` | `PlayerTime` | `formatTime` |
| `auth.dfy` | `Auth` | `refreshTokenIfNeeded` and its `shouldRefresh` rule |

`Timeline.Locate` is the reference definition of "the video airing
`elapsed` seconds in". The first video airs over `[0, duration)`; after it, the
rest of the list airs as a channel of its own. The imperative scan
`Timeline.GetVideoAtEpoch`, with its running `accumulatedTime`, is proved
equal to `Locate`. The properties of the timeline are then lemmas about
`Locate`.

Clocks and network answers are parameters:

- `now` in `TimelineRequest.Get`, `RelativeTime.Ago` and `Auth.RefreshTokenIfNeeded`;
- the credentials `refreshAccessToken` returns (`renewed`);
- the database's video list, already ordered by `publishedAt`;
- the search and details answers of each subscription, with the subscription document's `title` that becomes every video's `channelTitle` (`Feed.ChannelFetch`).

The comment at `app/api/timeline/route.ts:108` reads the `null` result as
"epoch is after all videos". `Timeline.LocateNotFound` states the exact
condition: the end of the channel has passed, or the list is empty. The empty
list gives `null` even for a negative `elapsed`; the route never reaches that
case, since it answers the empty catalog first.

## Model

| member | source | states |
|---|---|---|
| Timeline.GetVideoAtEpoch | app/api/timeline/route.ts:17-52 | the scan with its running total returns exactly the reference position `Locate(videos, epoch - startTime)`, including `null` |
| Timeline.Locate | app/api/timeline/route.ts:17-52 | reference definition of the video airing `elapsed` seconds in; its meaning is stated by `Timeline.LocateFound`, `Timeline.LocateNotFound`, `Timeline.LocateContained` and `Timeline.LocateBeforeStart`, and the loop is proved equal to it by `Timeline.GetVideoAtEpoch` |
| Timeline.LocateFound | app/api/timeline/route.ts:29-45 | a found position is the first video whose end lies after `elapsed`: every earlier video ended at or before `elapsed`; the index is in range; the video and id are that entry; the timestamp is `elapsed` minus the video's start |
| Timeline.LocateNotFound | app/api/timeline/route.ts:30-51 | `null` comes back exactly when the list is empty or `elapsed` is at or past the sum of all durations (both directions) |
| Timeline.LocateContained | app/api/timeline/route.ts:34-38 | with `elapsed >= 0`, a found timestamp lies in `[0, duration)`, so a zero-length video is never current |
| Timeline.LocateBeforeStart | app/api/timeline/route.ts:27-44 | before the start time, a non-empty list yields index 0 with the negative, unclamped `elapsed` as timestamp |
| Timeline.StartOfNext | app/api/timeline/route.ts:34-48 | the accumulated time after video `i` is the start of video `i + 1` |
| Timeline.TotalDurationAppend | app/api/timeline/route.ts:29-48 | the channel length of two lists played one after the other is the sum of their lengths |
| Timeline.Fallback | app/api/timeline/route.ts:108-117 | a found position is kept and `null` becomes the last video at offset 0; `Timeline.ResolvedPosition` states what this gives for the located position |
| Timeline.ResolvedPosition | app/api/timeline/route.ts:106-117 | on a non-empty list the resolved position always has a valid index and its own video; past the end it is the last video at offset 0; before the end it is the located position |
| Timeline.Neighbours | app/api/timeline/route.ts:119-140 | `before` is the `min(5, i)` videos just before index `i` and `after` the `min(5, len-i-1)` just after it, entry by entry; `afterCount` is `len - i - 1`, never below the window's size |
| Timeline.ScenarioInsideSecond | app/api/timeline/route.ts:27-44 | videos of 100, 200 and 300 s, 150 s in: the second video at offset 50 |
| Timeline.ScenarioPastEnd | app/api/timeline/route.ts:106-117 | the same list 1000 s in: the third video at offset 0 |
| Timeline.ScenarioWindow | app/api/timeline/route.ts:124-139 | twelve videos, current index 8: `before` is indices 3..7, `after` is 9..11, `afterCount` is 3 |
| Timeline.ScenarioSingleVideo | app/api/timeline/route.ts:27-139 | one 50 s video, 10 s in: it airs at 10 with empty neighbours |
| TimelineRequest.Get | app/api/timeline/route.ts:58-149 | invalid `startTime` gives 400; an empty catalog gives the corrected answer, 204 without a body (the route as written answers 500 there, see Findings; the catch branch appears only in `TimelineRequest.EmptyCatalogAsWritten`); status 200 exactly when both are fine; the body's `elapsedSeconds`, `totalVideos`, `afterCount`, `before` and `after` are as the route computes them, and `current` is the fallback of the located position |
| TimelineRequest.EpochOf | app/api/timeline/route.ts:66-68 | `parseInt` of the `epoch` parameter (`"0"` when absent or empty), with `NaN` and 0 replaced by now; stated by `TimelineRequest.ParameterDefaults` and `TimelineRequest.EpochParameter` |
| TimelineRequest.StartTimeOf | app/api/timeline/route.ts:69-78 | `parseInt` of the `startTime` parameter (`"1767906120"` when absent or empty), with 0 and `NaN` refused; stated by `TimelineRequest.ParameterDefaults`, `TimelineRequest.StartTimeParameter` and `TimelineRequest.DefaultStartTimeParses` |
| TimelineRequest.ParameterDefaults | app/api/timeline/route.ts:66-71 | an absent or empty `epoch` means now; an absent or empty `startTime` means 1767906120 |
| TimelineRequest.EpochParameter | app/api/timeline/route.ts:66-68 | a decimal epoch is taken as given unless it is 0 (then now); an unparseable one means now |
| TimelineRequest.StartTimeParameter | app/api/timeline/route.ts:69-78 | a decimal start time is accepted unless it is 0; a non-empty text that does not parse is refused |
| TimelineRequest.DefaultStartTimeParses | app/api/timeline/route.ts:69-71 | the default text `"1767906120"` parses to 1767906120 |
| TimelineRequest.Respond | app/api/timeline/route.ts:99-102 | the `Response.json` constructor: a body on a null body status (101, 103, 204, 205, 304) is refused; stated by `TimelineRequest.RespondStatuses` |
| TimelineRequest.RespondStatuses | app/api/timeline/route.ts:74-77 | 204 with any body fails; 204 without a body, and 200 or 400 with any body, are accepted as given |
| TimelineRequest.EmptyCatalogAsWritten | app/api/timeline/route.ts:98-103 | the empty-catalog branch as written, where the constructor's failure lands in the catch of lines 150-155; stated by `TimelineRequest.EmptyCatalogAsWrittenIsServerError` |
| TimelineRequest.EmptyCatalogAsWrittenIsServerError | app/api/timeline/route.ts:98-103 | as written, the empty-catalog answer becomes the 500 "Failed to fetch timeline!" response |
| TimelineRequest.EmptyCatalog | app/api/timeline/route.ts:98-103 | the intended empty-catalog answer, 204 without a body, is one the response constructor accepts |
| JsParseInt.ParseInt | app/api/timeline/route.ts:66-71 | `parseInt` without a radix: leading white space, a sign, an optional `0x`, the longest digit run, `None` for `NaN`; stated by `JsParseInt.ParseIntDecimal`, `JsParseInt.ParseIntDecimalString` and `JsParseInt.TrimStartDropsOnlyWhite` |
| JsParseInt.ParseIntDecimal | app/api/timeline/route.ts:66-71 | `parseInt` of a digit string followed by anything that is not a digit is the digits' value, unless a lone `0` is followed by `x` or `X` |
| JsParseInt.ParseIntDecimalString | app/api/timeline/route.ts:66-71 | `parseInt` reads back the decimal rendering of every natural number |
| JsParseInt.TrimStart | app/api/timeline/route.ts:66-71 | the leading white space `parseInt` skips: the result is a suffix that does not start with white space (that only white space is dropped is `JsParseInt.TrimStartDropsOnlyWhite`) |
| JsParseInt.TrimStartDropsOnlyWhite | app/api/timeline/route.ts:66-71 | every character `TrimStart` removes is white space, so together with `TrimStart`'s contract exactly the leading white space goes |
| Digits.DecimalString | app/page.tsx:275-279 | the `${n}` / `n.toString()` rendering of a natural number below 10^21, without leading zeros; stated by `Digits.DecimalStringValue` and read back by `JsParseInt.ParseIntDecimalString` |
| Digits.DecimalStringValue | app/page.tsx:275-279 | `${n}` (for `n` below 10^21) is a non-empty digit string worth `n`, one character long exactly below 10 |
| IsoDuration.DurationSeconds | app/api/feed/route.ts:128-137 | the parsed duration is never negative |
| IsoDuration.IndexOfPT | app/api/feed/route.ts:128-130 | the unanchored match starts at the first occurrence of `PT`, and there is none when `PT` does not occur |
| IsoDuration.GroupValue | app/api/feed/route.ts:129-134 | a matched group is its digits followed by the unit letter, and counts as the digits' value; every component is non-negative |
| IsoDuration.DurationOfCanonical | app/api/feed/route.ts:128-136 | `PT`, then any of the `H`, `M` and `S` fields in that order, gives `3600*H + 60*M + S`, with a missing field counted as 0 |
| IsoDuration.DurationWithoutPT | app/api/feed/route.ts:128-135 | a text in which `PT` never occurs gives 0 |
| IsoDuration.DurationMinutesOnly | app/api/feed/route.ts:132-136 | `PT5M` gives 300 |
| IsoDuration.DurationSecondsOnly | app/api/feed/route.ts:132-136 | `PT45S` gives 45 |
| IsoDuration.DurationAllFields | app/api/feed/route.ts:132-136 | `PT1H2M3S` gives 3723 |
| IsoDuration.DurationDayForm | app/api/feed/route.ts:128-135 | the day form `P1DT2H` gives 0 |
| Feed.BuildDurationMap | app/api/feed/route.ts:124-145 | the `forEach` over the details items builds exactly `DurationMapOf(details)` |
| Feed.DurationMapOf | app/api/feed/route.ts:124-137 | the dictionary from id to parsed duration; `Feed.DurationMapOfKeys` and `Feed.DurationMapOfLastWins` state its keys and entries |
| Feed.DurationMapOfKeys | app/api/feed/route.ts:127-137 | the map's keys are exactly the ids of the details items |
| Feed.DurationMapOfLastWins | app/api/feed/route.ts:127-137 | each id maps to the parsed duration of the last details item with that id |
| Feed.DurationForMeaning | app/api/feed/route.ts:149-150 | a video whose id is missing from the map gets duration 0; otherwise the map's entry |
| Feed.DurationFor | app/api/feed/route.ts:149-150 | the map's entry for the id, with a missing id (or a zero entry) giving 0; stated by `Feed.DurationForMeaning` |
| Feed.MakeVideo | app/api/feed/route.ts:152-170 | the `Video` built from one search item, the channel title and its duration; `Feed.MakeVideos` states it item by item |
| Feed.MakeVideos | app/api/feed/route.ts:148-171 | one video per search item, in search-result order, each built from its item, the channel title and its duration |
| Feed.FeedBatch.AddSearchResults | app/api/feed/route.ts:148-180 | appends exactly the constructed videos of one search result and keeps one upsert per video |
| Feed.FeedBatch.AddChannel | app/api/feed/route.ts:72-189 | one subscription appends its constructed videos; a skipped one appends nothing |
| Feed.FeedBatch.AddChannels | app/api/feed/route.ts:68-190 | the loop over subscriptions appends the videos of every subscription in order, with one upsert per video |
| Feed.FeedBatch.Push | app/api/feed/route.ts:171-179 | `videos` gains the video and `feedUpdates` gains its upsert |
| Feed.UpsertKeyedById | app/api/feed/route.ts:173-179 | in the batch every video has exactly one upsert at its own position, keyed by its id, setting the video, with `upsert: true` |
| Feed.AllSkippedCollectsNothing | app/api/feed/route.ts:183-195 | a refresh in which every subscription is skipped collects no video, so nothing is written |
| RelativeTime.AgoJustNow | app/page.tsx:270-274 | the label is "just now" exactly when `diff < 60`, future timestamps included |
| RelativeTime.Ago | app/page.tsx:270-280 | the label of a publication time; stated by `RelativeTime.AgoJustNow`, `RelativeTime.AgoLongestUnit`, `RelativeTime.AgoBuckets` and `RelativeTime.AgoNeverEmpty` |
| RelativeTime.AgoLongestUnit | app/page.tsx:275-279 | from a minute on, the label counts the longest unit that fits: at least one, rounded down, followed by the unit and " ago" |
| RelativeTime.LongestFittingOfUnits | app/page.tsx:275-279 | the source's bucket chain picks the same unit as the longest-fitting reference choice |
| RelativeTime.AgoBuckets | app/page.tsx:275-279 | the shown count is 1-59 minutes, 1-23 hours, 1-6 days, 1-4 weeks, and at least one month, in the matching bucket |
| RelativeTime.AgoNeverEmpty | app/page.tsx:270-280 | the label is never empty |
| PlayerTime.ClockOf | app/components/CustomPlayer.tsx:162-164 | minutes and seconds are below 60; `hours*3600 + minutes*60 + secs` is the input; hours are positive exactly from one hour on |
| PlayerTime.PadStart | app/components/CustomPlayer.tsx:167-171 | `padStart` yields the longer of the text and the width (its contents are `PlayerTime.PadStartContent`) |
| PlayerTime.PadStartContent | app/components/CustomPlayer.tsx:167-171 | the padded text ends with the original text and everything before it is the fill character |
| PlayerTime.TwoDigitsValue | app/components/CustomPlayer.tsx:167-171 | a field below 60 is written as exactly two decimal digits worth the field |
| PlayerTime.FormatTimeRoundTrip | app/components/CustomPlayer.tsx:161-172 | the label reads back as the time it shows, so no two times share a label |
| PlayerTime.FormatTime | app/components/CustomPlayer.tsx:161-172 | the label of a time; stated by `PlayerTime.FormatTimeRoundTrip`, `PlayerTime.FormatTimeShape` and `PlayerTime.FieldsOfLabel` |
| PlayerTime.FormatClock | app/components/CustomPlayer.tsx:166-171 | the two label forms, `H:MM:SS` with hours and `M:SS` without; stated by `PlayerTime.ClockRoundTrip` and `PlayerTime.FieldsOfLabel` |
| PlayerTime.ClockRoundTrip | app/components/CustomPlayer.tsx:166-171 | the label of any clock with fields below 60 reads back as `hours*3600 + minutes*60 + secs` |
| PlayerTime.FieldsOfLabel | app/components/CustomPlayer.tsx:166-171 | the colon-separated fields are hours, two-digit minutes and two-digit seconds when there are hours; otherwise unpadded minutes and two-digit seconds |
| PlayerTime.FormatTimeShape | app/components/CustomPlayer.tsx:166-171 | three fields exactly from one hour on, two below; the last field is always two digits worth `s % 60`; an hour field is never zero |
| Auth.DueWithinMargin | lib/authUtils.ts:36-38 | a token expiring before `now + 300000` ms, already expired ones included, is due; one expiring later is not |
| Auth.ShouldRefresh | lib/authUtils.ts:36-38 | due when the expiry is absent or zero, or less than five minutes (300000 ms) away; stated by `Auth.DueWithinMargin` and used by `Auth.RefreshTokenIfNeeded` |
| Auth.RefreshTokenIfNeeded | lib/authUtils.ts:22-57 | no stored tokens fails without touching the store; otherwise a fresh client; when a refresh is due and a refresh token is present, the client and the store hold the new credentials after one write; otherwise the client holds the stored tokens and the store is untouched |
| Auth.ProfileStore.SaveTokens | lib/authUtils.ts:45-51 | the stored tokens become the new credentials, in one write |
| Auth.OAuthClient.SetCredentials | lib/authUtils.ts:33-42 | the client holds exactly the given credentials |

## Left out

- MongoDB connections and queries. The enabled-subscription filter, the `$in` channel filter and the `publishedAt` sort are not modelled. The video list arrives as a parameter, already ordered.
- The `bulkWrite` call and its guard `feedUpdates.length > 0` are not modelled. The feed's JSON answer is not modelled either.
- The YouTube calls `channels.list`, `search.list` and `videos.list`, and `refreshAccessToken`, are foreign calls. Their answers are parameters: `Feed.ChannelFetch` (together with the subscription's own `title`, which is not part of any answer), and `renewed` in `Auth.RefreshTokenIfNeeded`.
- The per-subscription `continue` paths (no channel item, no uploads playlist, no search items, a thrown error) are merged into `Feed.Skipped`. The model does not say which of them happened.
- `Feed.SearchItem.publishedAt`: the `Date` parse of the publish time and the division to whole seconds are not modelled. The item carries the converted number.
- Thumbnails are not part of this model. The `videoId` field of the `Video` interface is never set by the feed route, so it is omitted as well.
- `Date.now()`, the environment-variable checks and `console` logging are left out. The clock is a parameter.
- URL decoding of the query string is not modelled. A parameter arrives as already-decoded text, or as `None` when it is absent.
- Digits.DecimalString: writes every digit for any size; JavaScript switches to exponent form (`1e+21`) from 10^21 on. The counts and clock fields rendered here never reach that size.
- JsParseInt.ParseInt: floating-point precision is not modelled. The model computes exact integers, so digit strings of more than 15 or 16 digits read differently than in JavaScript. `IsJsWhiteSpace` lists the Unicode space separators explicitly rather than from the Unicode database.
- PlayerTime.FormatTime: modelled on non-negative integer seconds only. The player's fractional `getCurrentTime()` values and `Math.floor` of floats are not modelled.
- The catch branch of `GET /api/timeline` is modelled only where a reachable construction failure leads to it (see Findings). Database exceptions are not modelled.
- React rendering, the IFrame player, timers and the floating-point progress bar are outside this model.

## Findings

| source | as written | input that shows it | evidently intended | confidence | as-written member | corrected member |
|---|---|---|---|---|---|---|
| app/api/timeline/route.ts:98-103 | `Response.json({message: ...}, {status: 204})` with a body. Under the Fetch standard, 204 is a null body status, so the `Response` constructor throws a `TypeError`. The route's `catch` turns that into status 500 "Failed to fetch timeline!" | an empty feed (no cached videos for the enabled subscriptions) | the 204 "refresh needed" answer, which must be sent without a body | not executed | TimelineRequest.EmptyCatalogAsWrittenIsServerError | TimelineRequest.EmptyCatalog |
