# mart_music rate limiter and song decoding, in Dafny

This project models the two parts of the `mart_music` client library that hold logic:

- **`RatelimitHandler`** (`mart_music/ratelimits.py`), the per-route gate both clients call before every request. It keeps two call counters and two reset timestamps, one pair for a short ("second") window and one for a long ("minute") window. Its limits come from a fixed table keyed by the token's first two characters: tier `T1` allows 1 and 30 calls, `T2` 4 and 120, `T3` 10 and 300. The gate is the class `RateLimits.RatelimitHandler`. Its methods update the four fields in place. Each method is specified by a function on values: `CheckWindow` for one window and `CheckGate` for the whole check. Lemmas about sequences of checks are proved from those functions. `TierOneScenario` is an example client: a tier-1 gate admits a call at 0.0, makes one at 0.1 wait 0.9, and admits one at 1.05.
- **`Song` and `_parse_songs`** (`mart_music/common.py`), which turn a decoded search response into song records or raise `APIException`. They are modelled in `Common` as datatypes and functions.

The clock (`monotonic()`) becomes explicit `real` parameters. A window check reads the clock once to compute the remaining time (`now`). When the window has expired it reads the clock again for the new reset timestamp (`later`). A full check therefore takes four readings `t0 <= t1 <= t2 <= t3`: two for the second window and two for the minute window. The ghost field `clock` records the latest reading given, and every method requires readings no earlier than it. This keeps the clock non-decreasing.

Behaviour of the code that the model keeps as written:

- A window lasts as many time units as its call limit, because the remaining time is `limit - elapsed`. A tier-2 gate's short window lasts 4 units and its long one 120 units, not 1 s and 60 s.
- The minute counter is touched only when the second window admits the call. A call blocked by the second window leaves the minute window unchanged.
- A window resets when elapsed time is at least its length (`wait_time <= 0`). A call that resets its window is never limited.
- The wait reported after a reset is never recomputed. It is never returned either, because the count after a reset is 1.

## Model

| member | source | states |
|---|---|---|
| `RateLimits.PerSecond` | mart_music/ratelimits.py:10 | the short-window limit of every tier is between 1 and 10 |
| `RateLimits.PerMinute` | mart_music/ratelimits.py:12 | the long-window limit of every tier is between 30 and 300 and above that tier's short-window limit |
| `RateLimits.Prefix` | mart_music/ratelimits.py:21 | `token[:2]` is the first two characters of the token, or the whole token when it is shorter |
| `RateLimits.TierOf` | mart_music/ratelimits.py:20-23 | the lookup succeeds exactly when some tier's key equals the token's prefix, and that key is the tier returned; otherwise it fails with the prefix that has no key |
| `RateLimits.TierOfName` | mart_music/ratelimits.py:21-23 | every token that starts with a tier's key selects that tier, whatever follows |
| `RateLimits.Remaining` | mart_music/ratelimits.py:35-43 | the remaining time is non-positive exactly when the window has expired, and it never exceeds the window's length |
| `RateLimits.CheckWindow` | mart_music/ratelimits.py:45-73 | an expired window resets to one call at the later reading; otherwise the count grows by one and the reset time stays. A call is limited exactly when the new count exceeds the limit. A limited call found its window unexpired and reports a wait in (0, limit]. An admitted call reports 0, and a call that resets is always admitted |
| `RateLimits.AdmitsAfterWait` | mart_music/ratelimits.py:47-58 | after sleeping the reported wait, the next check of the same window is admitted |
| `RateLimits.Run` | mart_music/ratelimits.py:45-58 | successive checks of one window produce one verdict per check |
| `RateLimits.WithinOneWindow` | mart_music/ratelimits.py:49-58 | while a window does not expire, each check adds exactly one call. The k-th check is limited exactly when the starting count plus k+1 exceeds the limit, and a limited check reports the time left in the window |
| `RateLimits.FreshWindow` | mart_music/ratelimits.py:47-58 | once a check opens a new window, exactly the first `limit` checks in that window are admitted and every later one is limited |
| `RateLimits.CheckGate` | mart_music/ratelimits.py:75-81 | a check is limited exactly when either counter exceeds its limit. When the second window blocks, the minute window is unchanged and the second window's wait is returned. Otherwise the minute window's check decides. A limited check always reports a positive wait |
| `RateLimits.RatelimitHandler.constructor` | mart_music/ratelimits.py:20-28 | limits come from the tier's table entries, both counters start at 0, and the two reset times are the two construction readings |
| `RateLimits.RatelimitHandler.New` | mart_music/ratelimits.py:20-23 | construction from a token fails exactly when the token's prefix names no tier, carrying that prefix; otherwise it yields a fresh gate in its initial state |
| `RateLimits.RatelimitHandler.TimeRemainingSecond` | mart_music/ratelimits.py:35-38 | the time left in the second window is non-positive exactly when the window has expired, and never exceeds `per_second` |
| `RateLimits.RatelimitHandler.TimeRemainingMinute` | mart_music/ratelimits.py:40-43 | the time left in the minute window is non-positive exactly when the window has expired, and never exceeds `per_minute` |
| `RateLimits.RatelimitHandler.HittingSecondRatelimit` | mart_music/ratelimits.py:45-58 | the second window's fields and the verdict are those of `CheckWindow`. The minute fields do not change, and the count is at least 1 afterwards |
| `RateLimits.RatelimitHandler.HittingMinuteRatelimit` | mart_music/ratelimits.py:60-73 | the minute window's fields and the verdict are those of `CheckWindow`. The second fields do not change, and the count is at least 1 afterwards |
| `RateLimits.RatelimitHandler.HittingRatelimit` | mart_music/ratelimits.py:75-81 | the new state and the verdict are those of `CheckGate`, and a limited check reports a wait in (0, `per_minute`] |
| `RateLimits.RatelimitHandler.Wait` | mart_music/ratelimits.py:83-93 | exactly one check is made; the sleep duration is that check's wait when it is limited and none otherwise, and it is always positive |
| `Common.NewSong` | mart_music/common.py:43-58 | a song stores `dl_path` as its path and copies title, artist, downloadable, source, url and info unchanged |
| `Common.NewSongDefaults` | mart_music/common.py:50-51 | `url` and `info` are None when not given |
| `Common.SongItemRoundTrip` | mart_music/common.py:52-58 | building a song from a result item loses nothing: the item can be recovered from the song, and the other way round |
| `Common.ParseSongs` | mart_music/common.py:61-66 | an unsuccessful response raises `APIException` with the response's error and yields no songs. A successful one yields exactly one song per result item, at the same position |
| `Common.SongOf` | mart_music/common.py:65 | `Song(**item)` stores the item's `dl_path` as the song's path and copies every other key, so the item can be read back from the song |
| `Common.ParseSongsLossless` | mart_music/common.py:65-66 | the songs of a successful response give back exactly its result items, in order |
| `Common.ParseSongsAppend` | mart_music/common.py:65-66 | parsing preserves order: the songs of two concatenated result lists are the two parses concatenated |

## Left out

- The clock (`monotonic()`) is not modelled. Its readings are parameters, assumed non-decreasing.
- Sleeping (`time.sleep`, `asyncio.sleep`) and the cooperative suspension of `wait_async` are not modelled. `Wait` stands for both `wait` and `wait_async` and returns the duration that would be slept.
- Floating point is modelled as exact `real` arithmetic, so rounding of times and waits is not captured.
- `RatelimitHandler` is modelled single-threaded; the source has no locking.
- `RateLimits.RatelimitHandler.constructor` takes the tier rather than the token. The token lookup and its `KeyError` are `New`, which returns `Failure(UnknownTier(prefix))` instead of raising.
- `RateLimits.CheckWindow`, `Run`, `WithinOneWindow`, `FreshWindow` and `CheckGate` require limits of at least 1. Every tier's limits are at least 1, so no gate of the source calls them otherwise.
- `Common.Item` stands for the keyword arguments of `Song(**item)`. Python's failures on unknown or missing keys are not modelled.
- The `info` dictionary's values (`Any`) are modelled as strings, and the response's `error` value as a string.
- The HTTP clients (`mart_music/sync/client.py`, `mart_music/async_/client.py`) are not part of this model: sessions, headers, JSON decoding, URL quoting, byte buffers, and the choice between `ROOT + path` and `url` when downloading. `setup.py` is packaging only.
