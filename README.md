# marne-bot: a verified model of the status loop

marne-bot is a Discord bot that shows the state of one Battlefield server.
Once a minute it fetches the public server list from marne.io, picks the
server it was configured to watch, and publishes two things: a "playing"
activity text such as `40/64 - Amiens`, and an avatar drawn from the map art
with the game mode written on it. A small HTTP probe reports whether the
poll loop is still running.

This project models the decision logic of `src/main.rs`. The modules follow
the parts of that file:

- `Types`: the server-list entry (`MarneServerInfo`) and the configuration
  (`Static`). Integers are a 64-bit `i64` newtype.
- `Utf8`, `Poller`: `get`. It picks the endpoint from the game name. The
  response body is a byte sequence that is valid UTF-8, as a Rust `String`
  is. When the first byte is 239, the first character is removed. The JSON
  decoder is a function parameter.
- `Tables`: the three lookup tables of `status`, copied entry for entry, and
  the lookups with their fallbacks.
- `Matcher`: the choice of the server (`right_server` and the `for` scan),
  the map key the regex `[^\/]+$` extracts, the status text, and the
  arguments handed to the image renderer.
- `Decimal`: the decimal text `format!("{}", n)` writes. A parser is its
  partner, so the status text and the probe body provably read back as the
  numbers written.
- `Liveness`: the `last_update` minute as a class with one field. `Record`
  is the loop's store. `Probe` is the HTTP probe.
- `Cycle`: one iteration of the poll loop, described as the list of calls
  the bot makes to the outside world. `PollLoop` runs the endless loop over
  a finite run of its iterations.

Some outside effects are inputs of the model rather than things it
computes: the HTTP response, the decoder's verdict, whether the renderer
succeeded, whether the rendered file could be read back, and the clock.

Some of the code's behaviour is easy to misread, and the model follows the
code:

- The marker strip removes one character per call. It is not idempotent: a
  body that starts with two byte-order marks keeps one.
- The name and image lookups fall back to the extracted map key, not to the
  raw `mapName`.
- The fallback activity text is published only when `get` fails. It is not
  published when the server is missing, and not when rendering fails.
- An empty body panics on `json_bytes[0]`. That ends the spawned poll task,
  so no liveness write follows.
- The liveness minute is read from the wall clock on every store. It never
  decreases only while the clock does not go back; a clock that steps back
  lowers `last_update`.
- The liveness minute records that the loop ran, not that it succeeded: a
  bot whose every request fails still answers 200.

## Model

| member | source | states |
|---|---|---|
| Poller.GameOrDefault | src/main.rs:186 | the configured game, or "bf1" when none is set |
| Poller.Endpoint | src/main.rs:158-161 | the URL is the BFV list exactly when the game is "bfv", and the BF1 list for every other game |
| Poller.StripMarker | src/main.rs:165-171 | a body whose first byte is 239 loses exactly its first three bytes (one character); any other body is unchanged; the result is still valid UTF-8 |
| Poller.StripRemovesByteOrderMark | src/main.rs:166-171 | a byte-order mark in front of a valid body is removed and the body is left intact |
| Poller.StripRemovesOneCharOnly | src/main.rs:169-171 | only one character is removed per call: with two marks in front, one mark remains, and a second strip is needed to remove it |
| Poller.StripIdempotentWhenClean | src/main.rs:169-171 | once the result no longer starts with byte 239, stripping again changes nothing |
| Poller.Get | src/main.rs:156-183 | a failed send gives "url failed"; an empty body panics; otherwise the decoder sees the stripped body, and its verdict decides between the list and "json incorrect" |
| Poller.BodyOf | src/main.rs:165 | `unwrap_or_default`: the response text, or the empty body when it could not be read |
| Utf8.RemoveFirstChar | src/main.rs:170 | `String::remove(0)` on valid UTF-8: removes exactly the bytes of the first character and keeps the rest valid |
| Matcher.FirstMatch | src/main.rs:335-344 | the index of the first server in list order that matches; no earlier server matches; `None` only when no server matches |
| Matcher.FindServer | src/main.rs:335-344 | the `for` scan with early return finds the server `FirstMatch` names, so it is the first matching one |
| Matcher.NameIgnoresIds | src/main.rs:336-342 | with a name configured, the choice depends only on the servers' names; the configured id and the servers' ids play no part |
| Matcher.NoTargetChoosesNothing | src/main.rs:338-341 | with neither name nor id configured, no server is ever chosen |
| Matcher.RightServer | src/main.rs:336-342 | with a name configured, right exactly when the names are equal; otherwise, with an id configured, right exactly when the ids are equal; with neither, never right |
| Matcher.SegmentStart | src/main.rs:346 | where the text after the last '/' starts: no '/' after it, and a '/' just before it |
| Matcher.MapKey | src/main.rs:345-349 | the key is a suffix of mapName; the whole mapName when it is empty, ends in '/' or has no '/'; otherwise a nonempty '/'-free suffix preceded by '/' |
| Matcher.MapKeyIsLeftmostMatch | src/main.rs:346-348 | the regex has a match exactly when mapName is nonempty and does not end in '/'; the key starts at its leftmost match; with no match the key is the whole mapName |
| Matcher.MapKeyOfPath | src/main.rs:345-349 | the key of `prefix/segment` is the segment, for any prefix and any nonempty '/'-free segment |
| Matcher.MapKeyExamples | src/main.rs:345-349 | "Xpack2/Levels/MP/MP_Bridge/MP_Bridge" gives "MP_Bridge"; "MP_Bridge", "Levels/" and "" are kept whole |
| Matcher.RenderArguments | src/main.rs:360-362 | the mode text is the table entry for the raw gameMode, or ""; the image is the table entry for the extracted key, or the key itself |
| Matcher.StatusText | src/main.rs:351-356 | read back by Matcher.StatusTextRoundTrip as the two player counts and the display name; never the fallback text, by Cycle.StatusTextIsNotFallback |
| Matcher.StatusTextRoundTrip | src/main.rs:351-356 | the status text reads back as the current players, the maximum players and the display name (the table name of the key, or the key itself) |
| Matcher.ParseComposed | src/main.rs:351-356 | any text of the shape `current/max - display` reads back as these three parts, whatever the display holds |
| Decimal.FormatRoundTrip | src/main.rs:126 | the decimal text of a number (Rust's `{}` of an i64) reads back as that number |
| Decimal.Format | src/main.rs:126-131 | nonempty; read back as the number by Decimal.FormatRoundTrip; canonical by Decimal.FormatCanonical |
| Decimal.FormatCanonical | src/main.rs:126-131 | a minus sign exactly for a negative number, and no leading zero except for zero itself, so texts such as "07" or "-0" are never written |
| Decimal.FormatCharacters | src/main.rs:352-354 | the decimal text uses only digits and a leading minus sign |
| Decimal.FormatTwoDigits | src/main.rs:352-354 | a two-digit number is written as its two digits, with no sign and no padding |
| Tables.DisplayName | src/main.rs:355 | the name table's entry for the key, or the key itself when there is none |
| Tables.ImageUrl | src/main.rs:362 | the image table's entry for the key, or the key itself when there is none |
| Tables.ModeAbbreviation | src/main.rs:361 | the mode table's entry for the game mode, or "" when there is none |
| Tables.MapTablesShareKeys | src/main.rs:188-320 | the display-name table `MapNames` and the image table `MapImages`, copies of the two literals, have the same key set |
| Tables.SharedKeysFallBackTogether | src/main.rs:355-362 | with tables keyed alike, the image lookup falls back to the key exactly when the name lookup does |
| Tables.AmiensEntries | src/main.rs:188-256 | the source's tables map "MP_Amiens" to the name "Amiens" and to its map art |
| Tables.ModeEntries | src/main.rs:322-333 | in `ModeAbbreviations`, the copy of the mode literal, "Conquest0" abbreviates to "CQ"; "Conquest" has no entry |
| Liveness.EpochMinute | src/main.rs:123 | `timestamp() / 60` truncates toward zero, and the minute fits the bounds that keep the probe's subtraction in range |
| Liveness.EpochMinuteMonotone | src/main.rs:123 | a later clock never gives an earlier minute |
| Liveness.Health | src/main.rs:124-134 | 200 exactly when at most five minutes have passed, 503 exactly when more have |
| Liveness.HealthBoundary | src/main.rs:124 | five elapsed minutes is still healthy; six is not |
| Liveness.Tracker.constructor | src/main.rs:107 | the liveness minute starts at 0 |
| Liveness.Tracker.Record | src/main.rs:148 | the stored minute becomes `now / 60` |
| Liveness.Tracker.Probe | src/main.rs:121-135 | 200 when now minus the stored minute is at most 5, 503 when it is more; the body is the decimal text of that difference in both cases, and reads back as it |
| Liveness.ProbeBeforeFirstWrite | src/main.rs:107-134 | before the first store, every probe more than five minutes after the epoch answers 503, with the current minute in decimal as the body |
| Cycle.Status | src/main.rs:185-385 | `status` always starts with the fetch of the configured game's list and never writes the liveness minute |
| Cycle.Shown | src/main.rs:344-364 | a found server's calls up to the render: the fetch, the status text, the render; no liveness write |
| Cycle.Publish | src/main.rs:344-373 | the `if right_server` block: stated in full by Cycle.FoundServerPublishes; no liveness write |
| Cycle.RunCycle | src/main.rs:142-148 | one loop iteration: stated by Cycle.CycleStoresOnce |
| Cycle.CycleStoresOnce | src/main.rs:140-151 | each loop iteration that does not panic stores the current minute exactly once, after `status`, whatever `status` returned; one that panics stores nothing |
| Cycle.FallbackIffGetFailed | src/main.rs:377-382 | the fallback text is published exactly when `get` failed, and then right after the fetch |
| Cycle.StatusTextIsNotFallback | src/main.rs:351-358 | no status text can be mistaken for the fallback text |
| Cycle.NotFoundPublishesNothing | src/main.rs:335-384 | a list without the watched server fails the cycle with "not found" and publishes nothing |
| Cycle.EmptyBodyPanics | src/main.rs:165-169 | an empty body panics before anything is published, and the loop does not go on |
| Cycle.FoundServerPublishes | src/main.rs:358-373 | once the server is found, the text is published before rendering; a failed render returns an error and leaves the avatar alone; a good render sets the avatar last; an unreadable image panics after the text was published |
| Cycle.TransportFailureStillStores | src/main.rs:142-148 | a failed request publishes the fallback text, and the iteration still stores the current minute |
| Cycle.StoredMinutes | src/main.rs:148 | the minutes stored by a run's liveness writes, in order, as Cycle.CycleStoresOnce and Cycle.TraceStoresPerCycle state them; Cycle.Stores is their number |
| Cycle.Trace | src/main.rs:141-151 | the calls of a run of iterations up to the first panic: stated by Cycle.TraceStoresPerCycle and matched by Cycle.PollLoop |
| Cycle.Completed | src/main.rs:141-151 | the number of iterations before the first panic, at most the run's length |
| Cycle.TraceStoresPerCycle | src/main.rs:141-151 | over any run of iterations, the loop stores once per completed iteration, the k-th store holding the k-th iteration's minute, and never after a panic |
| Cycle.StoredMinutesNeverDecrease | src/main.rs:148 | while the clock does not go back, the stored minutes never decrease |
| Cycle.ClockStepBackLowersMinute | src/main.rs:148 | a clock that goes from 120 to 60 seconds stores 2 and then 1: the minute can decrease |
| Cycle.NoPanicCompletesAll | src/main.rs:141-151 | when no iteration panics, every iteration completes and stores |
| Cycle.PollLoop | src/main.rs:141-151 | the loop's calls are those of its iterations in order, up to the first panic; the stored minute is that of the last completed iteration, or unchanged when none completed |
| Cycle.FailingCyclesStayHealthy | src/main.rs:121-151 | when every request fails, each `status` call returns an error and the run stores once per iteration, yet a probe within five minutes of the last iteration answers 200 |
| Cycle.AlphaPublished | src/main.rs:185-373 | watching "Alpha" on a BF1 list, with Alpha on Amiens in Conquest at 40 of 64 players, publishes "40/64 - Amiens", renders "CQ" over the Amiens art and sets the avatar, for any tables holding those three entries |
| Cycle.SourceAlphaPublished | src/main.rs:188-373 | the same cycle with the source's own tables `SourceTables` |

## Left out

- The Discord client (serenity): logging in, `set_activity`, `EditProfile` and `CreateAttachment`. These are foreign calls; the model records them as `Effect` values in the order the bot makes them. The result of the avatar edit is ignored by the source and is not modelled.
- warp, `tokio::spawn` and atomics. These exist for concurrency. `last_update` is a plain field, with `Record` as its one writer and `Probe` as its one reader. The two tasks are not interleaved.
- The 60-second sleep between iterations. The clock is an input of each iteration.
- reqwest and serde_json. These are I/O and a foreign library. The response is an input and the JSON decoder is a function parameter. Field names and serde's range checks are not modelled.
- `gen_img` (src/main.rs:387-422). It downloads and decodes images, brightens them and draws text with a font, using `f32` arithmetic. The model keeps only its arguments and whether it succeeded.
- Loading and storing `config.txt` with confy, the default configuration, the log messages (src/main.rs:105, 112-118, 145) and the logger setup in `main`. These are I/O.
- The unused types `Player`, `Mod`, `ModType` and `PlayerType`.
- The regex engine. The regex is specified by what it matches (`PatternMatchesFrom`), and `MapKey` is proved to pick its leftmost match.
- Poller.StripMarker: `String::remove(0)` updates the string in place; the model computes the new byte sequence as a value.
- The bot token. It only logs the client in.
- Cycle.PollLoop: the loop never ends in the source. The model runs a finite prefix of its iterations, and PollLoop states nothing about the iterations after that prefix.
