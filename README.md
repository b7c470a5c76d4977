# ShoreSquad cleanup feed: a Dafny model

ShoreSquad is a landing page for coordinating community beach cleanups in
Singapore. Its script `js/app.js` holds a fixed table of three cleanup events.
On load, the page fetches the four-day outlook of Singapore's National
Environment Agency. It merges each forecast record into the event with the same
position: the event's weather text becomes an icon and a temperature. It then
shows one card per event and a forecast panel. Visitors can join a cleanup,
which records the event id in browser storage, and sign up with an email
address that is checked against a regular expression.

This project models that core:

- `Text`: the string operations the script relies on. These are `toLowerCase`
  on ASCII letters, `includes`, and the decimal rendering of an integer.
- `WeatherIcons`: `getWeatherIcon`. A description maps to one of six icons by
  case-insensitive keyword tests in a fixed order of precedence.
- `Email`: `isValidEmail`, the pattern `^[^\s@]+@[^\s@]+\.[^\s@]+$`, and a
  direct statement of the address shape it accepts.
- `Feed`: the `mockCleanups` table, the payload shape, and the merge that
  `loadCleanupCards` performs, as functions with lemmas.
- `Forecast`: what `displayWeatherForecast` renders. This is an error panel, or
  a header, one tile per record and a footer.
- `Joins`: the joined-id list of `handleJoinCleanup`, an insertion that never
  adds a duplicate.
- `ShorePage.Page`: a class holding the page's mutable state. That state is the
  event table, the grid, the forecast section, the notifications raised, the
  stored joined ids and the signup input and stored email. Its methods are the
  handlers, written as loops that update the fields in place. Each method is
  proved against the functions above.
- `Scenarios`: client methods that drive a page through a failed fetch, empty
  records, one thunder-storm record, a record without forecast text, a double
  join and two signups. Their assertions follow from the handlers' contracts
  alone.

An event's `weather` string is `${icon} ${temp}°C` both in the seeded table
and after a merge. The model keeps it as its two parts, an icon and an
integer temperature, and `Feed.WeatherText` writes it out. A lemma shows the
text determines both parts, so nothing is lost.

Network results are inputs. `LoadCleanupCards` takes the forecast fetch's
result as an `Option<Payload>`: `None` is the `null` that a failed fetch
returns. Notifications are log entries of message and severity. A card is the
event it was built from.

Behaviour of `js/app.js` the model keeps:

- The "enriched" outcome is the branch `weatherData && weatherData.data`. A
  payload with `data` but with missing or empty `records` takes that branch.
  It changes no event and still renders the panel, with no tiles.
- The temperature default 30 (and 32/26 in the panel) replaces a missing
  value, and it also replaces `0`, because the code uses `||`.
- The only failure the merge can raise on a modelled payload is a matched
  record with no `forecast` text: `toLowerCase` of `undefined` throws. The
  loop mutates the table in place, so events before that record keep their new
  weather. The grid is replaced by one error message, one error notification
  is raised, and the forecast panel is not rendered.
- A page without a `.cleanups-grid` element returns at once. It shows no error
  and raises no notification.
- Joined ids go to `localStorage`, which outlives the session. A confirmation
  is raised on every click, including repeated ones.
- If the page has no forecast section and no `.map-container`, the panel is
  rendered into an element that is never attached, so nothing is shown.

## Model

| member | source | states |
|---|---|---|
| `Text.LowerAppend` | js/app.js:398 | Lower-casing distributes over concatenation. |
| `Text.LowerIgnoresCase` | js/app.js:398 | Strings that differ only in letter case lower-case to the same string. |
| `Text.ScanIff` | js/app.js:399-403 | The left-to-right `includes` search succeeds iff the word occurs at some index. |
| `Text.ContainsInContext` | js/app.js:399-403 | An occurrence survives any text added before or after it. |
| `Text.MissingCharExcludes` | js/app.js:399-403 | A string lacking one of a word's characters does not include the word. |
| `Text.OccurrenceChars` | js/app.js:399-403 | Every character of a word occurring in a string is a character of that string. |
| `Text.NatToString` | js/app.js:475 | The rendering of a natural number is never empty. |
| `Text.NatToStringDigits` | js/app.js:475 | The rendering is all decimal digits, with no leading zero. |
| `Text.NatToStringRoundTrip` | js/app.js:475 | Reading the digits back gives the number. |
| `Text.IntToStringRoundTrip` | js/app.js:475 | The rendered temperature, sign included, determines the integer. |
| `WeatherIcons.IconPrecedence` | js/app.js:397-405 | The icon is the highest-precedence one that the description signals (rain/shower > thunder > cloudy > partly > fair/sunny); no higher one is signalled; the generic icon comes exactly when no keyword occurs. |
| `WeatherIcons.IconIgnoresCase` | js/app.js:398 | Descriptions that differ only in letter case get the same icon. |
| `WeatherIcons.SignalsInContext` | js/app.js:397-405 | A keyword signals its icon whatever text surrounds it. |
| `WeatherIcons.RainDominates` | js/app.js:399 | Any description with "rain" or "shower" somewhere, in any case, gets the rain icon, whatever else it says. |
| `WeatherIcons.PartlyCloudyShowsCloud` | js/app.js:401-402 | "Partly Cloudy" in any letter case gets the cloud icon, not the partly-cloudy one. |
| `WeatherIcons.ThunderStormsShowsStorm` | js/app.js:400 | "Thunder Storms" in any letter case gets the storm icon. |
| `Email.IsValidEmailIff` | js/app.js:263-265 | The pattern accepts exactly the addresses with no white space, exactly one `@`, a non-empty part before it, and a dot after it with a character on each side. |
| `Email.ValidIsWellFormed` | js/app.js:263-265 | Every string the pattern matches has that shape. |
| `Email.WellFormedIsValid` | js/app.js:263-265 | Every string of that shape matches the pattern. |
| `Email.ValidEmailLength` | js/app.js:263-265 | An accepted address has at least five characters, so the empty input is refused. |
| `Feed.MergeRecords` | js/app.js:470-476 | The merge keeps the table's length; a failure points at a matched record without forecast text. |
| `Feed.MergeKeepsOtherFields` | js/app.js:470-476 | The merge changes no field of any event but `weather`. |
| `Feed.MergeFailsAtFirstGap` | js/app.js:472-475 | The merge fails iff some matched record lacks forecast text, and every record before the failure point has text. |
| `Feed.MergeFailsAt` | js/app.js:472-475 | The first matched record without forecast text is exactly where the merge fails. |
| `Feed.MergedTemperature` | js/app.js:474-475 | An event the merge enriched never shows 0 degrees; it shows record i's high exactly when that high is non-zero, and 30 when the high is missing or 0. |
| `Feed.MergeRecordsAt` | js/app.js:470-476 | Event i takes the icon of record i's text and its high (or 30) when the loop reached it and record i exists; events past the record count, or at or after the failure, keep their weather. |
| `Feed.MergeStep` | js/app.js:470-476 | Once every matched record up to i has text, merged event i is event i enriched from record i, or untouched when there is no record i. |
| `Feed.MergeLoopStep` | js/app.js:470-476 | One turn of the loop keeps the table merged below the cursor and original from it on. |
| `Feed.MergeLoopResult` | js/app.js:470-485 | Enriching front to back and stopping at the end or at the first gap yields exactly the merged table, and the stop is a failure iff the merge fails. |
| `Feed.FallbackKeepsTable` | js/app.js:467-496 | Without a payload, `data` or `records`, no event changes and there is no failure. |
| `Feed.MergeOfMockCleanupsWithOneRecord` | js/app.js:470-476 | A single usable record enriches the first seeded event only. |
| `Feed.ThunderStormExample` | js/app.js:470-476 | One "Thunder Storms" record with high 31 makes the first event's weather the storm icon at 31, written "⛈️ 31°C"; the other two events keep their seeded values. |
| `Feed.ThunderStormWeather` | js/app.js:475 | "Thunder Storms" with a high of 31 is the storm icon at 31, written "⛈️ 31°C". |
| `Feed.SeededWeatherTexts` | js/app.js:420-442 | The seeded weather values render as "☀️ 28°C", "⛅ 29°C" and "☀️ 30°C". |
| `Feed.WeatherTextRoundTrip` | js/app.js:475 | A weather text determines its icon and temperature: reading it back gives both. |
| `Forecast.TilesAt` | js/app.js:613-633 | There is one tile per record, in record order. |
| `Forecast.TilesHaveNoError` | js/app.js:613-633 | No tile is the error block. |
| `Forecast.TilesAppend` | js/app.js:621-632 | Accumulating one more record adds exactly its tile at the end. |
| `Forecast.ForecastPanelShape` | js/app.js:593-641 | No payload or no `data` gives the error panel alone; otherwise a header, one tile per record (none for missing or empty records), a footer, and no error block. |
| `Forecast.TileDefaults` | js/app.js:616-619 | A tile shows the record's high, low and description when usable, else 32, 26 and "Partly Cloudy"; never 0 or an empty description; its icon is that of its description. |
| `Forecast.MissingDescriptionShowsCloud` | js/app.js:616-619 | A record with no or empty description is shown with the cloud icon. |
| `Joins.CountAppend` | js/app.js:566 | Appending `y` adds one occurrence of `y` and none of anything else. |
| `Joins.CountZero` | js/app.js:565 | An id occurs zero times iff it is absent. |
| `Joins.JoinedIdempotent` | js/app.js:564-568 | Joining the same id twice leaves the list as joining it once. |
| `Joins.JoinedContents` | js/app.js:564-568 | Joining keeps the old ids as a prefix and adds exactly the joined id to the set; an id already present leaves the list unchanged, and an absent one ends up occurring exactly once. |
| `Joins.JoinedKeepsNoDuplicates` | js/app.js:564-568 | A list without duplicates stays without duplicates. |
| `Joins.LaterJoinKeepsOneOccurrence` | js/app.js:564-568 | A later join of any id never adds a second occurrence of an id joined before. |
| `ShorePage.CardsAppend` | js/app.js:478-479 | Appending one event's card extends the cards by exactly that card. |
| `ShorePage.Page.constructor` | js/app.js:412-446 | A new page holds the seeded table, an empty grid (if present), no forecast section, no notifications and the stored joined ids. |
| `ShorePage.Page.LoadCleanupCards` | js/app.js:451-510 | With no grid, nothing changes. Otherwise the table is merged in place. On success the grid holds one card per event in order, the panel is rendered and the outcome is enriched or fallback. On a failure the grid is one error message, one error notification is added and the panel is left alone. |
| `ShorePage.Page.MergeAndShowCards` | js/app.js:470-485 | The enriched loop leaves the merged table, and (without failure) one card per event, and reports failure exactly when the merge fails. |
| `ShorePage.Page.ShowCards` | js/app.js:488-495 | The fallback loop shows one card per event; it may change only the grid. |
| `ShorePage.Page.DisplayWeatherForecast` | js/app.js:576-643 | The section, when in the document or attachable next to the map, holds the forecast panel that the payload determines; nothing else changes. |
| `ShorePage.Page.HandleJoinCleanup` | js/app.js:560-571 | A confirmation is always raised. The stored list becomes the list with the id joined, and it is written only when the id was absent. Events, grid and panel do not change. |
| `ShorePage.Page.SubmitSignup` | js/app.js:222-257 | The submission is accepted iff the address matches the pattern. A refused one raises one error and stores nothing. An accepted one raises the welcome, stores the address and clears the input. |

## Left out

- `fetchWeatherData` and `fetchTemperature` (js/app.js:358-392) are network
  calls. The forecast result is the `weather` parameter. The temperature result
  is fetched but never used, so it does not appear.
- `Text.IntToString`: writes every integer in full decimal. `${temp}`
  formats a JavaScript number, which uses exponent form from 10^21 in
  magnitude on ("1e+21"), and a JSON integer beyond 2^53 is rounded before it
  is shown; temperatures that large are not modelled.
- Payload shapes beyond the modelled ones are not covered. These are a
  non-string `forecast`, non-integer temperatures, `null` entries in `records`,
  and a non-array `records`. Temperatures are integers here; a fractional
  value would render differently.
- `localStorage` and `JSON.parse`/`JSON.stringify` are browser storage. The
  stored lists and values are plain fields, and a corrupt stored value is not
  modelled.
- DOM construction and HTML templates (`createCleanupCard`,
  `showLoadingSpinner`, `showNotification`, `innerHTML`) are presentation. A
  card is the event it shows, a notification is its message and severity, and
  the panel is a sequence of blocks.
- `formatDate`, the forecast day labels and the "Last updated" timestamp are
  locale and clock dependent. Tiles carry no day label.
- Timers (`debounce`, `throttle`, staggered `animate-in`, notification
  expiry, the delay in `simulateAPICall`), `animateCounter`, scroll animation,
  lazy loading, the mobile menu, smooth scroll, header scroll, geolocation,
  dark mode, performance logging and service-worker registration are browser
  event handlers with no state the core depends on.
- Asynchrony: a load cycle and a signup run to completion as one step. Events
  that could interleave at their `await` points are not modelled.
- The signup button's disabled state and label are not modelled. The
  `catch` branch of the submit handler (js/app.js:252-253) is not modelled
  either. The simulated call always resolves, and stored values are a plain
  field whose write never fails, so a `localStorage.setItem` that throws
  (storage disabled or full) is out of scope. In the page that happens after
  the welcome and the cleared input, and adds a second, error notification.
- An event's weather is held as icon and temperature rather than as a
  string. Any string of the script's own making has this form; a table
  edited to hold some other text is not modelled.
- `Text.LowerChar`: lower-cases ASCII A-Z only, where `toLowerCase` covers all
  of Unicode. For the icon keywords the result is the same. The only non-ASCII
  characters whose lower case contains ASCII letters are U+0130, which becomes
  "i" followed by a combining dot, and the Kelvin sign, which becomes "k". The
  first cannot complete "rain" or "fair", and no keyword has a "k".
