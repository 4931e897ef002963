# Profile statistics reconciler

A Dafny model of the statistics logic in the `Profile` page of the Bingo
web client (`mern/src/components/Profile.js`). Each refresh asks the server
for the user's statistics. A truthy response body is used field by field,
with every falsy field replaced by 0 and a missing or empty level by
"Bingo Rookie". An empty body or a failed request falls back to the
browser cache entry `bingoStats_<userId>`, or to all-zero defaults when
nothing is cached. In that fallback the win rate is recomputed from the
cached counts and the level is always "Bingo Rookie". The page also derives
its displayed achievement tier from the number of games won, using a
five-step ladder.

The model has four modules:

- `Wire` (`wire.dfy`): absent fields and JavaScript's `x || default`.
- `Achievement` (`achievement.dfy`): the tier ladder.
- `Stats` (`stats.dfy`): the data model and the pure reconciler.
  `Reconcile(remote, store, userId)` takes the request's outcome and the
  cache as inputs.
- `Profile` (`profile.dfy`): the component state, a class with the fields
  `stats` and `loading`. Its `Refresh` method follows the
  `try`/`catch`/`finally` of `fetchUserStats` step by step and is proved
  equal to `Reconcile`.

Two behaviours of the code are worth stating plainly:

- A corrupt cache entry is not recovered from. The `JSON.parse` in the
  `catch` block (Profile.js:143) throws again, and nothing catches it. The
  snapshot keeps its previous value, and only `loading` is cleared
  (`Stats.CorruptCacheThrows`, `Profile.ProfileState.Refresh`).
- Nothing bounds the fallback win rate. It lies in [0, 100] when the
  cached wins are between 0 and the cached games played
  (`Stats.WinRateInRange`). More wins than games give at least 100.0
  (at least 200.0 for twice as many wins). Negative wins give at most 0.0
  (at most -100.0 for as many negative wins as games). Both are proved in
  `Stats.WinRateOutOfRange`. A cache
  entry with games played but no win count gives "NaN"
  (`Stats.FallbackWinRateCases`).

## Model

| member | source | states |
|---|---|---|
| `Achievement.TierOf` | mern/src/components/Profile.js:167-173 | the tier is the highest one whose threshold (10, 25, 50, 100 wins) is met: a tier above Rookie is reached exactly when the wins reach its threshold |
| `Achievement.TierMonotone` | mern/src/components/Profile.js:168-172 | more games won never gives a lower tier |
| `Achievement.TierBoundaries` | mern/src/components/Profile.js:168-172 | 9→Rookie, 10→Player, 24→Player, 25→Pro, 49→Pro, 50→Expert, 99→Expert, 100→Master |
| `Achievement.BelowTenIsRookie` | mern/src/components/Profile.js:171-172 | the tier is Rookie exactly when fewer than 10 games were won, negative counts included |
| `Profile.ProfileState.AchievementTier` | mern/src/components/Profile.js:167-173 | while the page is loading the tier is Rookie; with no snapshot loaded, or no win count in it, the tier is Rookie; otherwise it is the ladder applied to the displayed `gamesWon`, whatever `achievementLevel` the snapshot holds |
| `Wire.OrElse` | mern/src/components/Profile.js:87-89 | JavaScript's logical-or with a fallback: a truthy field is kept, anything else gives the fallback, so the result is falsy only when the fallback is |
| `Wire.OrZero` | mern/src/components/Profile.js:82-86 | logical-or with 0: the result is 0 exactly when the field is missing or 0, and otherwise it is the field's own value |
| `Stats.CacheKey` | mern/src/components/Profile.js:96 | the key starts with the fixed prefix `bingoStats_`, and the rest of the key is exactly the user id |
| `Stats.ReadCache` | mern/src/components/Profile.js:96-108 | reading the entry throws exactly when it is corrupt; a parsed entry is used as it is; a missing or empty entry gives the all-zero record |
| `Stats.FallbackWinRate` | mern/src/components/Profile.js:146-148 | "NaN" exactly when games were played but no win count is known; a non-zero rate only with a positive games-played count and a non-zero win count (its value in every case is `Stats.FallbackWinRateCases`) |
| `Stats.FromRemote` | mern/src/components/Profile.js:81-90 | every count is present; each field is the body's own value or the default (0, or "Bingo Rookie" for the level); the level is never empty |
| `Stats.FromCache` | mern/src/components/Profile.js:150-159 | the cached counts are copied unchanged, except that `gamesDrawn` is the cached value or 0; the win rate is derived from the cached counts; the level is "Bingo Rookie" |
| `Stats.Fallback` | mern/src/components/Profile.js:132-161 | one run of the fallback block throws exactly on a corrupt entry; otherwise it gives a "Bingo Rookie" snapshot |
| `Stats.Reconcile` | mern/src/components/Profile.js:62-165 | a truthy body is turned into the snapshot without reading the cache; otherwise the fallback decides. The refresh throws exactly when the body is not usable and the user's cache entry is corrupt |
| `Stats.RoundTenths` | mern/src/components/Profile.js:110-112 | the result is the nearest tenth of a percent to won/played·100; ties go away from zero, as `toFixed(1)` does |
| `Stats.RemoteFieldsDefaultIndependently` | mern/src/components/Profile.js:77-93 | a truthy body always replaces the snapshot; each of the eight fields is the body's value when truthy, else 0, and the level defaults to "Bingo Rookie" |
| `Stats.RemoteIgnoresCache` | mern/src/components/Profile.js:77-93 | on the remote path the result does not depend on the cache store or the user identity |
| `Stats.PartialBody` | mern/src/components/Profile.js:81-90 | the body `{gamesWon: 3}` gives played 0, lost 0, drawn 0, win rate 0 and "Bingo Rookie", and does not cause a whole-object fallback |
| `Stats.FallbackPathsAgree` | mern/src/components/Profile.js:94-161 | an empty body and a failed request give the same outcome for the same cache contents |
| `Stats.NoCacheGivesZeros` | mern/src/components/Profile.js:96-125 | on either fallback path, with no cache entry (or an empty one), every count is 0, the win rate is "0.0" and the level is "Bingo Rookie" |
| `Stats.FallbackCopiesCache` | mern/src/components/Profile.js:142-159 | on either fallback path with a cached record, the snapshot copies each cached field unchanged, except that a falsy `gamesDrawn` becomes 0; the win rate comes from the cached counts; the level is "Bingo Rookie" |
| `Stats.CorruptCacheThrows` | mern/src/components/Profile.js:106-144 | on a fallback path the refresh throws exactly when the user's cache entry is corrupt: the second parse in `catch` is not caught |
| `Stats.OwnEntryOnly` | mern/src/components/Profile.js:132-144 | two stores that agree on the user's own entry give the same outcome, whatever other users' entries hold |
| `Stats.CacheKeyInjective` | mern/src/components/Profile.js:132 | distinct user ids give distinct `bingoStats_<userId>` keys |
| `Stats.WinRateInRange` | mern/src/components/Profile.js:146-148 | with 0 ≤ won ≤ played and played > 0, the rate lies between 0.0 and 100.0 |
| `Stats.WinRateOutOfRange` | mern/src/components/Profile.js:146-148 | nothing clamps the rate: more wins than games played give at least 100.0, twice as many at least 200.0; negative wins give at most 0.0, as many negative wins as games at most -100.0 |
| `Stats.WinRateOutOfRangeExamples` | mern/src/components/Profile.js:110-112 | 30 wins in 20 games give "150.0"; -5 wins in 10 games give "-50.0" |
| `Stats.QuarterWinRate` | mern/src/components/Profile.js:142-148 | a cache entry with 20 played and 5 won gives "25.0" on either fallback path |
| `Stats.FallbackWinRateCases` | mern/src/components/Profile.js:110-112 | the rate is "0.0" unless a positive number of games was played; it is "NaN" when games were played but no win count is cached; otherwise it is `RoundTenths(won, played)`, the nearest tenth of won/played·100; it is in range when the wins are between 0 and the games played |
| `Stats.FallbackLevelDiverges` | mern/src/components/Profile.js:150-172 | a cache entry with 100 wins yields the level "Bingo Rookie" while the page's ladder shows "Bingo Master" |
| `Profile.ProfileState.constructor` | mern/src/components/Profile.js:21-22 | the page starts with no snapshot and `loading` set |
| `Profile.ProfileState.LoadCached` | mern/src/components/Profile.js:96-108 | `userStats` starts as the all-zero record and is replaced by the parsed entry when one is stored; a corrupt entry throws; the result agrees with `Stats.ReadCache` |
| `Profile.ProfileState.Refresh` | mern/src/components/Profile.js:62-165 | `loading` is false after every refresh. `stats` becomes the reconciled snapshot, or keeps its old value when the fallback in `catch` throws (then `rejected` is set). The invariant "loading implies no snapshot" is preserved. The new `stats` is one step of `Profile.StatsAfter` |
| `Profile.ThrowingRunsKeepStats` | mern/src/components/Profile.js:127-164 | refreshes that all throw out of the `catch` block leave the displayed snapshot unchanged, however many there are |
| `Profile.LastReplacingRunWins` | mern/src/components/Profile.js:93-161 | after a series of refreshes, taken in the order they complete (`Profile.StatsAfter`), the displayed snapshot is the one from the last refresh that did not throw, whatever came before: `setStats` replaces it wholesale |

## Left out

- The HTTP request and the bearer token read from `localStorage` (Profile.js:65-73). They are foreign I/O; their outcome is the `RemoteOutcome` input.
- The cache store is a map given as input. Writing to it is done by other components and is not part of this model.
- The socket and window `gameCompleted` listeners and their removal (Profile.js:24-51). They are event wiring; each event only starts a refresh.
- The 30-second polling timer (Profile.js:54-60) is not modelled. The interleaving of overlapping asynchronous refreshes is concurrency and is not modelled either. `Refresh` runs one refresh to completion, and `Profile.StatsAfter` takes a series of refreshes in the order they complete. Which order that is, given when the requests were started, is not modelled.
- Floating point. `toFixed(1)` is modelled on exact rationals (nearest tenth, ties away from zero), not on IEEE doubles. The "-0.0" that a tiny negative rate prints is modelled as 0. The server's `winRate` is taken in whole tenths of a percent. Remote `0` and fallback `"0.0"` (number versus string) are both `Tenths(0)`.
- `averageLinesPerGame` is a real that is copied through; its computation happens elsewhere.
- JSON values other than numbers, strings and absence are not modelled. JSON `null` is not distinguished from an absent field, although `null / played` is 0 where `undefined / played` is NaN. Fields holding strings or booleans are not modelled.
- A missing `user` is not modelled: `user._id` would throw the same way a corrupt cache entry does.
- The rejected promise of a refresh that throws is reported only as the `rejected` flag.
- Rendering: the JSX, the tier colours and icons, dates, the "Last played" text and console logging (Profile.js:175-335).
