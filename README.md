# scoreboard-cli sports client: a Dafny model

This project models the `internal/sports` package of scoreboard-cli, a
command-line scoreboard that fetches today's NBA games from the balldontlie
HTTP API and caches them for 30 seconds.

- `cache.dfy`, module `TtlCache`: the generic single-slot cache `Cache[T]`
  as a class with the fields `data` and `timestamp`, a fixed `ttl`, a
  read-only `Get` and an in-place `Set`. The clock is an integer number of
  nanoseconds passed in by the caller; the zero `time.Time` that marks a
  never-written cache is `None`. Beside the class, the cache's life is
  replayed as a sequence of `Get`/`Set` calls on its abstract state (`Slot`),
  which is where the lasting properties are proved: every `Get` answers with
  the latest write while it is fresh and the zero value otherwise, a
  never-written cache never hits, and a TTL of zero or less never hits on a
  clock that does not run backwards.
- `client.dfy`, module `Sports`: the `Game`, `Team` and `GameResponse` datatypes, field for field the structs of internal/sports/client.go:15-31 (the
  decoded records); the request URL with today's date in `YYYY-MM-DD` form, proved to
  read back as that date; `FormatStatus`, whose "3:04 PM" rendering is
  proved to read back as the same time of day; and `FetchNBAScores` as a
  method over a cache object, proved equal to the specification `Fetch`,
  whose lemmas state that a hit answers from the cache alone, that a failure
  of any step leaves the cache untouched, that a non-200 status is always an
  error, and that a successful miss stores and returns exactly the decoded
  list.
- `decimal.dfy`, module `Decimal`: zero-padded and unpadded decimal digit
  strings with their round trips, used by the date and time formats.
- `wrappers.dfy`, module `Wrappers`: `Option` and `Result`.

Each network step (`http.NewRequest`, the transport `client.Do`, reading the
body, `json.Unmarshal`) is an outcome supplied by an `Upstream` value: the
model decides what the fetch does with each outcome, not what the network
does. `NewCache` takes one extra argument, `zero`, standing for Go's zero
value of `T`, which Dafny cannot name for an arbitrary type parameter.
`FetchNBAScores` reads the clock three times in the source: the
`time.Since` of `Get` before the request, the `time.Now` that gives today's
date for the URL, and the `time.Now` of `Set` after the response. The model
takes the three as parameters, `readAt`, `today` (a calendar date) and
`writeAt`, and takes the cache as a parameter in place of the package-level
`gamesCache`.

## Model

| member | source | states |
|---|---|---|
| `TtlCache.Cache.constructor` | internal/sports/cache.go:16-21 | a new cache has the given TTL, holds the zero value, has never been written, and reports invalid at every time |
| `TtlCache.Cache.Get` | internal/sports/cache.go:23-34 | a hit exactly when the cache has been written and less than the TTL has elapsed since the write; a hit returns the stored value, a miss the zero value; nothing changes |
| `TtlCache.Cache.Set` | internal/sports/cache.go:36-43 | the value is replaced wholesale and stamped with the write time, only `data` and `timestamp` change, and afterwards `Get` hits exactly at times less than the TTL after the write |
| `TtlCache.AfterIsLastSet` | internal/sports/cache.go:37-43 | after any run of calls the cache holds exactly the value and time of the last `Set`, or its starting state when there was no `Set`, since `Get` changes nothing |
| `TtlCache.ResponseAt` | internal/sports/cache.go:24-34 | each `Get` in a run answers from the state the calls before it left |
| `TtlCache.GetAnswersLatestWrite` | internal/sports/cache.go:28-33 | each `Get` returns the value of the most recent `Set` before it when less than the TTL has elapsed since that `Set`, and the zero value and false otherwise; an overwritten value is never returned again |
| `TtlCache.NeverSetNeverHits` | internal/sports/cache.go:17-21 | a cache that was never written returns the zero value and false on every `Get`, at any time |
| `TtlCache.NonPositiveTtlNeverHits` | internal/sports/cache.go:30 | with a TTL of zero or less and a non-decreasing clock, no `Get` ever reports valid |
| `Sports.NewGamesCache` | internal/sports/client.go:13 | the games cache is fresh, has a 30-second TTL, the empty list as zero value, and has never been written |
| `Sports.DateString` | internal/sports/client.go:40 | today's date is 10 characters: four digits, a dash, two digits, a dash, two digits |
| `Sports.DateRoundTrip` | internal/sports/client.go:40 | the date string reads back as exactly the year, month and day it was written from |
| `Sports.RequestUrl` | internal/sports/client.go:42 | the URL is the fixed endpoint followed by `?dates[]=` and a 10-character date that reads back as today |
| `Sports.Clock12` | internal/sports/client.go:89 | the "3:04 PM" rendering of a time of day is 7 or 8 characters long, 7 exactly when the 12-hour dial shows 1 to 9 (the hour is not padded) |
| `Sports.Clock12RoundTrip` | internal/sports/client.go:89 | the "3:04 PM" rendering reads back as the same hour and minute, so 12-hour dial and AM/PM lose nothing |
| `Sports.FormatStatus` | internal/sports/client.go:83-90 | a status that does not parse as an RFC 3339 timestamp is returned unchanged; one that parses comes back as a string that reads back as its local time of day |
| `Sports.GetRequest` | internal/sports/client.go:42-53 | the request of a miss is a GET with the API key as its Authorization header, the 10-second client timeout, and a URL made of the fixed endpoint, `?dates[]=` and a date that reads back as today |
| `Sports.Retrieve` | internal/sports/client.go:44-80 | the miss path: build the request, send it, reject a status other than 200 with "API error: " and the status line, read the body, decode the envelope; when a step fails after every earlier one succeeded, that step's own error is the result (stated for request construction, transport, body read and decode; for the status, by `NonOkStatusFails`), and a list comes back only when every step succeeded, as its decoded `data` |
| `Sports.Fetch` | internal/sports/client.go:33-80 | one call: a fresh cache answers with its list and stays as it is; otherwise the result of `Retrieve`, where an error returns no games and keeps the cache, and a success returns the list and stores it stamped with the write time; the cache changes only on a successful miss |
| `Sports.FetchNBAScores` | internal/sports/client.go:33-81 | the returned list, the error and the new cache state are those of `Fetch` on the old cache state |
| `Sports.FetchHitServesCache` | internal/sports/client.go:34-37 | a fresh cache returns the cached list with no error and an untouched cache, independently of the upstream, the key, the date and the clock at write time: a hit never reaches the network |
| `Sports.FetchFailureKeepsCache` | internal/sports/client.go:44-75 | an error only comes from a miss whose retrieval failed, returns no games and leaves the cache exactly as it was |
| `Sports.FetchMissSuccessCachesData` | internal/sports/client.go:77-80 | a successful miss stores exactly the retrieved list, stamped with the write time, and returns that same list with no error |
| `Sports.RetrieveSucceedsIffAllStepsSucceed` | internal/sports/client.go:44-80 | retrieval yields a list exactly when the request is built, the transport answers, the status is 200, the body is read and decodes to an envelope whose data is that list |
| `Sports.NonOkStatusFails` | internal/sports/client.go:62-64 | a status other than 200 is an error carrying "API error: " and the status line, whatever the body holds |
| `Sports.RepeatFetchWithinTtl` | internal/sports/client.go:33-80 | after a successful miss, a second fetch read less than a TTL after the write returns the identical list with no error, leaves the cache alone and does not depend on the upstream |
| `Sports.OneGameFetchedThenServedFromCache` | internal/sports/client.go:13-80 | on the never-written 30-second games cache, an upstream whose every step succeeds and whose decoder yields the one-game envelope `{"data":[{"id":1,"status":"Final","home_team_score":100,"visitor_team_score":98,"home_team":{"abbreviation":"LAL"},"visitor_team":{"abbreviation":"BOS"}}]}` (one `Game` with two `Team` records, empty `time`) yields exactly that record and caches it; a second fetch within 30 s of the write returns the identical record without depending on the upstream |
| `Decimal.PaddedValue` | internal/sports/client.go:40 | a number below 10^width survives zero-padding to width digits |
| `Decimal.UnpaddedValue` | internal/sports/client.go:89 | a number written without padding reads back as itself |

## Left out

- The `sync.RWMutex` in `Cache[T]`: calls are modelled one at a time, each `Get` and `Set` atomic, so the concurrency contract (parallel readers, exclusive writer, no torn reads) is not modelled.
- Wall-clock and monotonic clock reads (`time.Now`, `time.Since`): they are parameters. Go's `time.Duration` is a 64-bit count that saturates; the model's integers are unbounded, so the saturation of `time.Since` at the int64 limits is not modelled.
- `Sports.DateString`: requires a year from 0 to 9999, the range in which Go writes a four-digit zero-padded year; Go's forms for negative years and years above 9999 are not modelled, and the calendar validity of the day within its month is not checked (the clock only produces valid dates).
- `today` is a free parameter of `Sports.FetchNBAScores`: in the source it is the local date of a clock reading taken after `readAt` and before `writeAt`, and the model does not tie it to either reading. No proved property depends on this.
- The HTTP client, `http.NewRequest`, the 10-second timeout, `resp.Body.Close`, `io.ReadAll` and `json.Unmarshal`: network I/O and library code, modelled only as the outcomes in `Upstream`. The timeout is recorded in the request; what happens when it expires is part of the transport outcome.
- Error values are strings: the wrapped Go error types and their messages (other than "API error: " with the status line) are not modelled.
- Go slices alias: the list `Get` returns shares its backing array with the cache, so a caller that writes into it would change the cached list. The model works on values and does not capture this aliasing. Likewise a nil slice and an empty slice are both the empty sequence.
- `time.Parse` with the RFC 3339 layout and the conversion to the local time zone inside `FormatStatus`: library and time-zone code, modelled as the parameter `parseLocal`, which yields the local time of day or nothing when the status is not an RFC 3339 date-time.
- The package-level `gamesCache` variable: the model passes the cache to `FetchNBAScores` explicitly, built by `NewGamesCache`.
