# Alpha Access submission server, modelled in Dafny

The system is a small Express server (`server.js`). Visitors submit a Telegram
username. The server validates it, cleans it, records it in a process-wide `stats`
record and notifies an administrator chat. Beside the routes, an `AutoPinger` object
keeps the hosted instance awake: on a fixed schedule it sends three requests to the
service's own public URL.

The model covers:

- **`JsString`** (`js_string.dfy`): the two JavaScript string operations the handler relies on.
  - `s.replace('@', '')` with a string pattern. Only the first occurrence goes.
  - `s.trim()`, over the ECMAScript WhiteSpace and LineTerminator code points.
- **`InsertionOrderedSet`** (`ordered_set.dfy`): a JavaScript `Set` as `Array.from` lists it. It is a duplicate-free sequence in order of first insertion.
- **`Submission`** (`submission.dfy`): the `POST /api/submit` guard, the cleaning, the three replies (400, 200, 500), and the chat link the notification carries.
- **`ServerStats`** and **`Routes`** (`server_stats.dfy`):
  - The `stats` record, as a class whose fields the handlers update in place.
  - The routes that read or write it: `/`, `/api/submit`, `/health`, `/api/ping` and `/api/stats`.
- **`AutoPing`** (`autoping.dfy`): the `AutoPinger` class.
  - Its three ping methods.
  - `pingAll`, which records the ping time, counts the successes and reports whether any succeeded.
  - `start`, which does its work only on the first call.

`sequences.dfy` holds the shared `Option` type, `NoDuplicates` and `IndexOf`.

Every network outcome is an input of the model. This covers the three pings and the
Telegram `sendMessage`. Each outcome is a boolean saying whether the request resolved.
Clock readings are integer parameters (`Instant`, milliseconds).

Two details of the code shape the model:

- Cleaning removes the first `@` wherever it stands, not only a leading one (server.js:173): `"a@b"` becomes `"ab"`, and `"@@x"` becomes `"@x"`. `Submission.Clean` and `Submission.CleanRemovesFirstAt` state this.
- `activeUsers` is a `Set`, so `/api/stats` lists it in order of first insertion (server.js:24, 239). The model keeps that order and proves what it is (`InsertionOrderedSet.FirstInsertionOrder`).

## Model

| member | source | states |
|---|---|---|
| JsString.RemoveFirst | server.js:173 | `s.replace(c, '')` is one character shorter than `s` exactly when `c` occurs in `s`, and as long as `s` otherwise |
| JsString.RemoveFirstSplits | server.js:173 | `replace` with a one-character string pattern removes exactly the character at the first occurrence and leaves the string as it is when the character does not occur |
| JsString.RemoveFirstCount | server.js:173 | the replacement removes one occurrence of the character if there is one, and no other character |
| JsString.TrimStartSplits | server.js:165 | the leading part `trim` drops is all whitespace, and what remains does not start with whitespace |
| JsString.TrimEndSplits | server.js:165 | the trailing part `trim` drops is all whitespace, and what remains does not end with whitespace |
| JsString.Trim | server.js:165 | the trimmed string is no longer than the input and neither starts nor ends with whitespace |
| JsString.TrimIsInfix | server.js:173 | the trimmed string is a contiguous part of the input with only whitespace before and after it |
| JsString.TrimEmptyIff | server.js:165 | a string trims to `''` exactly when every character is whitespace |
| JsString.TrimOfTrimmed | server.js:173 | a string that neither starts nor ends with whitespace is its own trim |
| JsString.TrimIdempotent | server.js:173 | trimming twice gives the same as trimming once |
| JsString.TrimKeepsNonWhitespace | server.js:173 | trimming keeps the count of every non-whitespace character |
| JsString.AllWhitespaceConcat | server.js:165 | a concatenation is all whitespace exactly when both parts are |
| InsertionOrderedSet.Add | server.js:176 | `set.add(x)`: the old listing is a prefix of the new one, the members are the old ones plus `x`, the size grows by one exactly when `x` was absent, and duplicate-freedom is kept |
| InsertionOrderedSet.AddIdempotent | server.js:176 | adding an element a second time changes nothing |
| InsertionOrderedSet.AddAllConcat | server.js:176 | adding `ys` and then `zs` to a set gives the same set as adding `ys + zs`, so a run of `add` calls can be split anywhere |
| InsertionOrderedSet.FirstInsertionOrder | server.js:176 | starting from an empty set, the listing has no duplicates, holds exactly the elements added, and is ordered by each element's first insertion |
| Submission.Accepts | server.js:165-170 | the guard lets a username through exactly when it is present and not all whitespace |
| Submission.AcceptsIff | server.js:165-170 | the guard passes exactly when a username is present and holds some non-whitespace character |
| Submission.Clean | server.js:173 | a cleaned name is empty or neither starts nor ends with whitespace |
| Submission.CleanCounts | server.js:173 | cleaning loses exactly one `@` when there is one, and keeps the count of every other visible character |
| Submission.CleanFixesCleanNames | server.js:173 | cleaning a cleaned name that holds no `@` changes nothing |
| Submission.CleanRemovesFirstAt | server.js:173 | the `@` removed is the first one, wherever it stands: `a + "@" + b` cleans to `a + b` when `a` has no `@` and `a + b` is trimmed |
| Submission.CleanExamples | server.js:173 | `"a@b"` cleans to `"ab"`, and `"@@x"` to `"@x"` |
| Submission.PlainNameIsClean | server.js:165-176 | a name with no `@` and no surrounding whitespace is accepted and recorded as it is |
| Submission.CleanEmptyIff | server.js:165-176 | a name passes the guard and yet cleans to `''` exactly when it is one `@` with only whitespace on each side of it |
| Submission.CleanEmptyAround | server.js:165-176 | with an `@` present the guard passes, and the name cleans to `''` exactly when its first `@` has only whitespace around it |
| Submission.CleanEmptyWithoutAt | server.js:165-176 | a name without `@` never both passes the guard and cleans to `''` |
| Submission.AtAmidWhitespace | server.js:165-176 | one `@` between two runs of whitespace passes the guard and cleans to `''` |
| Submission.ValidatedBeforeCleaning | server.js:165-176 | `"@"` and `" @ "` are accepted, and both are recorded as `''` |
| Submission.SubmitReply.Status | server.js:166-195 | the reply's HTTP status is 200 exactly for the success reply and 400 exactly for a rejected name |
| Submission.SubmitReply.Message | server.js:166-195 | of the three reply messages, only the success message starts with `✅ Заявка @` |
| Submission.SentMessageNames | server.js:181-190 | the 200 reply is a success whose message names the cleaned user after `✅ Заявка @` |
| Submission.TelegramLink | server.js:126-132 | the chat link starts with `https://t.me/`, and after it comes the name itself when the name holds no `@` |
| Submission.LinkKeepsAtIff | server.js:126-132 | the chat link's handle still holds an `@` exactly when the submitted string held three or more |
| ServerStats.Stats.constructor | server.js:19-25 | the record starts with both counters at zero, no ping time and no users |
| Routes.Home | server.js:148-157 | `GET /` adds one to `totalRequests`, changes nothing else, and renders the number of users |
| Routes.Submit | server.js:160-196 | a rejected name gives 400 and leaves the users unchanged. An accepted name is cleaned and added to the users whatever the notification did, giving 200 with the cleaned name or 500. The old users stay a prefix, no duplicates appear, and the counters do not change |
| Routes.Health | server.js:208-219 | `GET /health` reports `healthy` with the current counters and changes nothing |
| Routes.ApiPing | server.js:222-229 | `POST /api/ping` adds one to `totalRequests`, changes nothing else, and answers `pong` with the time and the body it received |
| Routes.StatsDump | server.js:232-243 | `GET /api/stats` reports every field, lists the users once each in insertion order, and changes nothing |
| Routes.SubmitAll | server.js:160-205 | after a run of submissions into a fresh record, the users are the cleaned accepted names added in turn, whatever the notifications did |
| Routes.AcceptedNamesConcat | server.js:165-176 | the accepted names of two runs of submissions, one after the other, are those of the first run followed by those of the second |
| AutoPing.PingVariant.Timeout | server.js:47-77 | every ping gives up within 8 to 12 seconds |
| AutoPing.CountSuccessful | server.js:96 | the number of successful results is at most the number of results, and is zero exactly when no result is a fulfilled `true` |
| AutoPing.CountFulfilled | server.js:92-96 | when every method fulfils with its own outcome, the count of successes is the number of `true` outcomes |
| AutoPing.AutoPinger.constructor | server.js:35-42 | a new pinger holds the three methods in order and is not running |
| AutoPing.AutoPinger.PingMethod | server.js:45-85 | a ping reports whether its target answered, adds one to `successfulRequests` exactly when it did, and touches nothing else |
| AutoPing.AutoPinger.PingAll | server.js:88-100 | `pingAll` sets `lastPing` to the current time, adds the number of successful methods to `successfulRequests`, and returns true exactly when some method succeeded |
| AutoPing.AutoPinger.Start | server.js:103-117 | the first `start` schedules one recurring job and one initial ping; every later call changes nothing |
| AutoPing.SelfPingCycle | server.js:88-100 | a `pingAll` aimed at the server's own address sets `lastPing` and counts the successes as `PingAll` does. It also adds one to `totalRequests` for each of `HEAD /` and `POST /api/ping` that gets through, and nothing for `GET /health` |
| AutoPing.StartTwice | server.js:103-117 | starting twice leaves the pinger as starting once does, with the first call's interval |

## Left out

- The HTTP transport is left out, because it is framework code and has no behaviour specific to this server. This covers Express routing, body parsing, static files, EJS rendering and 404s.
- Network effects are left out, because they are I/O. `PingAll` on its own does not count the requests its pings make to the server. `AutoPing.SelfPingCycle` follows a `PingAll` with `Routes.Home` and `Routes.ApiPing` for the pings that got through, which is what happens when `APP_URL` is the server's own address. It assumes a ping that got through was handled by this process, so a ping that times out after the handler ran is not captured.
- The Telegram call (`sendToTelegram`, server.js:124-143) is reduced to its boolean outcome, because it is I/O. Of the message, only the link is modelled (`Submission.TelegramLink`). The Markdown text, the date, the client IP and the keyboard layout are left out.
- `axios` calls are reduced to their outcomes, because they are I/O. Their timeouts appear only as constants (`PingVariant.Timeout`), and console logging is left out.
- Scheduling is left out because it is timing. The model records the `node-schedule` cron job and the 5-second `setTimeout` of `start` only as entries in `jobs` and `initialPings`. The later runs of `pingAll` that these trigger are not modelled.
- `Promise.allSettled` concurrency is left out: the methods never reject and share only the counter increments, so `PingAll` runs them one after another.
- Dates are plain integers, because of the clock: `toISOString`, `toLocaleTimeString`, `process.uptime()` and the uptime-in-minutes fields are left out.
- Non-string `username` values are left out, because the input is modelled as an optional string. A missing `username` and `null` are `None`. A falsy value (`0`, `false`, `NaN`) fails `!username` and gets the 400 reply, as `None` does (server.js:165). A truthy non-string (a non-zero number, `true`, an object or an array) makes `trim` throw, which gets the generic 500 reply (server.js:198-204).
- Number limits are left out: the counters are unbounded `nat`, whereas a JavaScript Number stops growing by one past 2^53 (server.js:49, 149, 223). No proved property reaches that size.
- Lone surrogates are left out: a Dafny `string` holds Unicode scalar values, whereas a JavaScript string is UTF-16 code units. So a username carrying a lone surrogate, such as one from a JSON `\ud800` escape, cannot be represented. `@` and every whitespace character `trim` strips are single code units, so the proved properties are unaffected for every representable name.
- `/api/commands` and `/download` are left out, because they return fixed documents and do not touch `stats`.
- Configuration from environment variables (`PORT`, `TG_TOKEN`, `ADMIN_CHAT_ID`, `RENDER_EXTERNAL_URL`) is left out, because it only selects addresses.
