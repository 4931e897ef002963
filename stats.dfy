/** The statistics reconciler of the profile page (`fetchUserStats` in
    Profile.js): one refresh merges the outcome of the remote statistics
    request, the per-user browser cache and default values into the snapshot
    the page shows. The request's outcome and the cache contents are inputs. */
module Stats {
  import opened Wire
  import opened Achievement

  /** A win rate in tenths of a percent (250 is "25.0"), or the "NaN" that
      `toFixed` yields when the division has no number to divide. */
  datatype WinRate = Tenths(tenths: int) | NotANumber

  /** The JSON body of a successful `GET /api/users/stats`; every field may be
      missing. The server's win rate is taken in tenths of a percent. */
  datatype RemoteBody = RemoteBody(
    gamesPlayed: Option<int>,
    gamesWon: Option<int>,
    gamesLost: Option<int>,
    gamesDrawn: Option<int>,
    totalLinesCompleted: Option<int>,
    averageLinesPerGame: Option<real>,
    winRate: Option<int>,
    achievementLevel: Option<string>)

  /** How the request ended: a truthy body, a falsy (empty) body, or a thrown
      error (network failure, non-2xx status, timeout). */
  datatype RemoteOutcome = Body(body: RemoteBody) | EmptyBody | Failed

  /** The statistics a finished game leaves under `bingoStats_<userId>`. */
  datatype CachedRecord = CachedRecord(
    gamesPlayed: Option<int>,
    gamesWon: Option<int>,
    gamesLost: Option<int>,
    gamesDrawn: Option<int>,
    totalLinesCompleted: Option<int>,
    averageLinesPerGame: Option<real>)

  /** What the cache holds under a key: a payload that parses to a record, the
      empty string (falsy, so treated like no entry), or a payload on which
      `JSON.parse` or the field access after it throws. */
  datatype Stored = Parsed(record: CachedRecord) | Blank | Malformed

  /** The object handed to `setStats`. */
  datatype Snapshot = Snapshot(
    gamesPlayed: Option<int>,
    gamesWon: Option<int>,
    gamesLost: Option<int>,
    gamesDrawn: int,
    totalLinesCompleted: Option<int>,
    averageLinesPerGame: Option<real>,
    winRate: WinRate,
    achievementLevel: string)

  /** The end of one refresh: a new snapshot, or an exception that escapes
      the `catch` block (the snapshot is then not replaced). */
  datatype Refreshed = Replaced(snapshot: Snapshot) | Threw

  /** The all-zero record used when nothing is cached. */
  const NoStats := CachedRecord(Some(0), Some(0), Some(0), Some(0), Some(0), Some(0.0))

  /** The cache key of a user: the user id behind the fixed namespace prefix
      `bingoStats_`. */
  function CacheKey(userId: string): (key: string)
    ensures "bingoStats_" <= key && |key| == |"bingoStats_"| + |userId|
    ensures key[|"bingoStats_"|..] == userId
  {
    "bingoStats_" + userId
  }

  /** Reading the user's cache entry into `userStats`: the defaults when the
      entry is missing or empty, the parsed record otherwise; None when
      parsing throws. */
  function ReadCache(store: map<string, Stored>, userId: string): (r: Option<CachedRecord>)
    ensures r == None <==> CacheKey(userId) in store && store[CacheKey(userId)] == Malformed
    ensures CacheKey(userId) in store && store[CacheKey(userId)].Parsed? ==> r == Some(store[CacheKey(userId)].record)
    ensures CacheKey(userId) !in store || store[CacheKey(userId)] == Blank ==> r == Some(NoStats)
  {
    var key := CacheKey(userId);
    if key !in store then Some(NoStats)
    else match store[key]
      case Blank => Some(NoStats)
      case Parsed(rec) => Some(rec)
      case Malformed => None
  }

  /** `(n / d * 100).toFixed(1)` in tenths, on exact rationals: the integer
      nearest to 1000n/d, a tie going away from zero. */
  function RoundTenths(n: int, d: int): (r: int)
    requires d > 0
    ensures n >= 0 ==> 2 * d * r - d <= 2000 * n < 2 * d * r + d
    ensures n < 0 ==> 2 * d * r - d < 2000 * n <= 2 * d * r + d
  {
    if n >= 0 then (2000 * n + d) / (2 * d) else -((2000 * -n + d) / (2 * d))
  }

  /** The fallback win rate: won/played as a percentage when played is a
      positive number, else "0.0". It is "NaN" exactly when games were played
      but no win count is known; its value in every case is
      `FallbackWinRateCases`. */
  function FallbackWinRate(played: Option<int>, won: Option<int>): (r: WinRate)
    ensures r == NotANumber <==> played.Some? && played.value > 0 && won.None?
    ensures r.Tenths? && r.tenths != 0 ==> played.Some? && played.value > 0 && won.Some? && won.value != 0
  {
    if played.Some? && played.value > 0 then
      if won.Some? then Tenths(RoundTenths(won.value, played.value)) else NotANumber
    else Tenths(0)
  }

  /** The snapshot built from a remote body, each field defaulted on its own:
      every count is present, each field is either the body's own value or
      the default, and the level is never empty. */
  function FromRemote(b: RemoteBody): (s: Snapshot)
    ensures s.gamesPlayed.Some? && s.gamesWon.Some? && s.gamesLost.Some?
    ensures s.totalLinesCompleted.Some? && s.averageLinesPerGame.Some? && s.winRate.Tenths?
    ensures s.gamesPlayed == b.gamesPlayed || s.gamesPlayed == Some(0)
    ensures s.gamesWon == b.gamesWon || s.gamesWon == Some(0)
    ensures s.gamesLost == b.gamesLost || s.gamesLost == Some(0)
    ensures Some(s.gamesDrawn) == b.gamesDrawn || s.gamesDrawn == 0
    ensures s.totalLinesCompleted == b.totalLinesCompleted || s.totalLinesCompleted == Some(0)
    ensures s.averageLinesPerGame == b.averageLinesPerGame || s.averageLinesPerGame == Some(0.0)
    ensures Some(s.winRate.tenths) == b.winRate || s.winRate == Tenths(0)
    ensures s.achievementLevel != ""
    ensures Some(s.achievementLevel) == b.achievementLevel || s.achievementLevel == Name(Rookie)
  {
    Snapshot(
      Some(OrZero(b.gamesPlayed)),
      Some(OrZero(b.gamesWon)),
      Some(OrZero(b.gamesLost)),
      OrZero(b.gamesDrawn),
      Some(OrZero(b.totalLinesCompleted)),
      Some(OrElse(b.averageLinesPerGame, 0.0, 0.0)),
      Tenths(OrZero(b.winRate)),
      OrElse(b.achievementLevel, "", Name(Rookie)))
  }

  /** The snapshot built from the cached (or default) record: the cached
      counts unchanged except a present `gamesDrawn`, the derived win rate,
      and the lowest level whatever the record holds. */
  function FromCache(rec: CachedRecord): (s: Snapshot)
    ensures s.gamesPlayed == rec.gamesPlayed && s.gamesWon == rec.gamesWon && s.gamesLost == rec.gamesLost
    ensures s.totalLinesCompleted == rec.totalLinesCompleted && s.averageLinesPerGame == rec.averageLinesPerGame
    ensures Some(s.gamesDrawn) == rec.gamesDrawn || s.gamesDrawn == 0
    ensures s.winRate == FallbackWinRate(rec.gamesPlayed, rec.gamesWon)
    ensures s.achievementLevel == Name(Rookie)
  {
    Snapshot(
      rec.gamesPlayed,
      rec.gamesWon,
      rec.gamesLost,
      OrZero(rec.gamesDrawn),
      rec.totalLinesCompleted,
      rec.averageLinesPerGame,
      FallbackWinRate(rec.gamesPlayed, rec.gamesWon),
      Name(Rookie))
  }

  /** One run of the fallback block: read the cache, build the snapshot. It
      throws exactly on a corrupt entry and otherwise always gives a
      "Bingo Rookie" snapshot. */
  function Fallback(store: map<string, Stored>, userId: string): (r: Refreshed)
    ensures r == Threw <==> CacheKey(userId) in store && store[CacheKey(userId)] == Malformed
    ensures r.Replaced? ==> r.snapshot.achievementLevel == Name(Rookie)
  {
    match ReadCache(store, userId)
    case Some(rec) => Replaced(FromCache(rec))
    case None => Threw
  }

  /** One refresh. A truthy body is used on its own. An empty body runs the
      fallback inside the `try`; if that throws, the `catch` runs the same
      fallback again. A failed request runs the fallback in the `catch`. */
  function Reconcile(remote: RemoteOutcome, store: map<string, Stored>, userId: string): (r: Refreshed)
    ensures remote.Body? ==> r == Replaced(FromRemote(remote.body))
    ensures !remote.Body? ==> r == Fallback(store, userId)
    ensures r == Threw <==> !remote.Body? && CacheKey(userId) in store && store[CacheKey(userId)] == Malformed
  {
    match remote
    case Body(b) => Replaced(FromRemote(b))
    case EmptyBody =>
      var inTry := Fallback(store, userId);
      if inTry.Replaced? then inTry else Fallback(store, userId)
    case Failed => Fallback(store, userId)
  }

  // ----- The remote path -----

  /** A truthy body replaces the snapshot, each of its eight fields kept when
      truthy and replaced by 0 (the level by "Bingo Rookie") otherwise. */
  lemma RemoteFieldsDefaultIndependently(b: RemoteBody, store: map<string, Stored>, userId: string)
    ensures Reconcile(Body(b), store, userId).Replaced?
    ensures var s := Reconcile(Body(b), store, userId).snapshot;
      && s.gamesPlayed == (if Truthy(b.gamesPlayed, 0) then b.gamesPlayed else Some(0))
      && s.gamesWon == (if Truthy(b.gamesWon, 0) then b.gamesWon else Some(0))
      && s.gamesLost == (if Truthy(b.gamesLost, 0) then b.gamesLost else Some(0))
      && s.gamesDrawn == (if Truthy(b.gamesDrawn, 0) then b.gamesDrawn.value else 0)
      && s.totalLinesCompleted == (if Truthy(b.totalLinesCompleted, 0) then b.totalLinesCompleted else Some(0))
      && s.averageLinesPerGame == (if Truthy(b.averageLinesPerGame, 0.0) then b.averageLinesPerGame else Some(0.0))
      && s.winRate == (if Truthy(b.winRate, 0) then Tenths(b.winRate.value) else Tenths(0))
      && s.achievementLevel == (if Truthy(b.achievementLevel, "") then b.achievementLevel.value else "Bingo Rookie")
  {
  }

  /** On the remote path the cache is never consulted: neither the store nor
      the user identity affects the result. */
  lemma RemoteIgnoresCache(b: RemoteBody, store1: map<string, Stored>, user1: string,
                           store2: map<string, Stored>, user2: string)
    ensures Reconcile(Body(b), store1, user1) == Reconcile(Body(b), store2, user2)
  {
  }

  /** A body holding only `gamesWon: 3` is not a reason to fall back: the other
      fields default to zero whatever the cache holds. */
  lemma PartialBody(store: map<string, Stored>, userId: string)
    ensures var b := RemoteBody(None, Some(3), None, None, None, None, None, None);
      Reconcile(Body(b), store, userId)
      == Replaced(Snapshot(Some(0), Some(3), Some(0), 0, Some(0), Some(0.0), Tenths(0), "Bingo Rookie"))
  {
  }

  // ----- The fallback paths -----

  /** An empty body and a failed request end the same way for the same cache. */
  lemma FallbackPathsAgree(store: map<string, Stored>, userId: string)
    ensures Reconcile(EmptyBody, store, userId) == Reconcile(Failed, store, userId)
  {
  }

  /** With no (or an empty) cache entry, the fallback snapshot is all zero, with
      win rate "0.0" and level "Bingo Rookie". */
  lemma NoCacheGivesZeros(remote: RemoteOutcome, store: map<string, Stored>, userId: string)
    requires !remote.Body?
    requires CacheKey(userId) !in store || store[CacheKey(userId)] == Blank
    ensures Reconcile(remote, store, userId)
      == Replaced(Snapshot(Some(0), Some(0), Some(0), 0, Some(0), Some(0.0), Tenths(0), "Bingo Rookie"))
  {
  }

  /** With a cached record, the fallback snapshot copies every cached field as
      it is, except that a falsy `gamesDrawn` becomes 0; the level is always
      "Bingo Rookie", whatever the number of games won. */
  lemma FallbackCopiesCache(remote: RemoteOutcome, store: map<string, Stored>, userId: string, rec: CachedRecord)
    requires !remote.Body?
    requires CacheKey(userId) in store && store[CacheKey(userId)] == Parsed(rec)
    ensures Reconcile(remote, store, userId).Replaced?
    ensures var s := Reconcile(remote, store, userId).snapshot;
      && s.gamesPlayed == rec.gamesPlayed
      && s.gamesWon == rec.gamesWon
      && s.gamesLost == rec.gamesLost
      && s.gamesDrawn == (if Truthy(rec.gamesDrawn, 0) then rec.gamesDrawn.value else 0)
      && s.totalLinesCompleted == rec.totalLinesCompleted
      && s.averageLinesPerGame == rec.averageLinesPerGame
      && s.winRate == FallbackWinRate(rec.gamesPlayed, rec.gamesWon)
      && s.achievementLevel == "Bingo Rookie"
  {
  }

  /** A corrupt cache entry is not recovered from: on both fallback paths the
      exception escapes and no snapshot is produced. */
  lemma CorruptCacheThrows(remote: RemoteOutcome, store: map<string, Stored>, userId: string)
    requires !remote.Body?
    ensures Reconcile(remote, store, userId) == Threw
        <==> CacheKey(userId) in store && store[CacheKey(userId)] == Malformed
  {
  }

  /** Only the user's own cache entry matters: two stores that agree on it
      give the same refresh, whatever they hold for other users. */
  lemma OwnEntryOnly(remote: RemoteOutcome, store1: map<string, Stored>, store2: map<string, Stored>, userId: string)
    requires CacheKey(userId) in store1 <==> CacheKey(userId) in store2
    requires CacheKey(userId) in store1 ==> store1[CacheKey(userId)] == store2[CacheKey(userId)]
    ensures Reconcile(remote, store1, userId) == Reconcile(remote, store2, userId)
  {
  }

  /** Distinct users have distinct cache keys. */
  lemma CacheKeyInjective(user1: string, user2: string)
    requires CacheKey(user1) == CacheKey(user2)
    ensures user1 == user2
  {
  }

  // ----- The fallback win rate -----

  /** A cache that has at most as many wins as games played gives a win rate
      between "0.0" and "100.0". */
  lemma WinRateInRange(won: int, played: int)
    requires 0 <= won <= played && 0 < played
    ensures 0 <= RoundTenths(won, played) <= 1000
  {
    var r := RoundTenths(won, played);
    assert played * (2 * r - 1) <= 2000 * played;
    assert 2 * r - 1 <= 2000;
  }

  /** Nothing clamps the rate: more wins than games played give at least
      "100.0" and twice as many at least "200.0"; negative wins give at most
      "0.0", and as many negative wins as games at most "-100.0". */
  lemma WinRateOutOfRange(won: int, played: int)
    requires 0 < played
    ensures won > played ==> RoundTenths(won, played) >= 1000
    ensures won >= 2 * played ==> RoundTenths(won, played) >= 2000
    ensures won < 0 ==> RoundTenths(won, played) <= 0
    ensures won <= -played ==> RoundTenths(won, played) <= -1000
  {
    var r := RoundTenths(won, played);
    if won >= 2 * played {
      assert played * 4000 <= 2000 * won < played * (2 * r + 1);
      assert 4000 < 2 * r + 1;
    } else if won > played {
      assert played * 2000 < 2000 * won < played * (2 * r + 1);
      assert 2000 < 2 * r + 1;
    }
    if won <= -played {
      assert played * (2 * r - 1) < 2000 * won <= played * -2000;
      assert 2 * r - 1 < -2000;
    } else if won < 0 {
      assert played * (2 * r - 1) < 2000 * won < 0;
      assert 2 * r - 1 < 0;
    }
  }

  /** A cache with 30 wins in 20 games shows "150.0", one with -5 wins in 10
      games "-50.0". */
  lemma WinRateOutOfRangeExamples()
    ensures FallbackWinRate(Some(20), Some(30)) == Tenths(1500)
    ensures FallbackWinRate(Some(10), Some(-5)) == Tenths(-500)
  {
  }

  /** 5 wins in 20 games read back as "25.0" from the cache. */
  lemma QuarterWinRate(remote: RemoteOutcome, store: map<string, Stored>, userId: string)
    requires !remote.Body?
    requires CacheKey(userId) in store
    requires store[CacheKey(userId)] == Parsed(CachedRecord(Some(20), Some(5), None, None, None, None))
    ensures Reconcile(remote, store, userId).Replaced?
    ensures Reconcile(remote, store, userId).snapshot.winRate == Tenths(250)
  {
  }

  /** The fallback rate: "0.0" unless a positive number of games was played;
      "NaN" when games were played but no win count is cached; otherwise the
      nearest tenth of won/played as a percentage, which lies within
      ["0.0", "100.0"] when the cached wins are between 0 and the games played. */
  lemma FallbackWinRateCases(played: Option<int>, won: Option<int>)
    ensures !(played.Some? && played.value > 0) ==> FallbackWinRate(played, won) == Tenths(0)
    ensures played.Some? && played.value > 0 && won.None? ==> FallbackWinRate(played, won) == NotANumber
    ensures played.Some? && played.value > 0 && won.Some? ==>
      FallbackWinRate(played, won) == Tenths(RoundTenths(won.value, played.value))
    ensures played.Some? && won.Some? && 0 <= won.value <= played.value ==>
      FallbackWinRate(played, won).Tenths? && 0 <= FallbackWinRate(played, won).tenths <= 1000
  {
    if played.Some? && won.Some? && 0 <= won.value <= played.value && played.value > 0 {
      WinRateInRange(won.value, played.value);
    }
  }

  /** The fallback level is never derived from the wins, while the page's own
      ladder is: a cache with 100 wins shows "Bingo Master" over a snapshot
      whose level says "Bingo Rookie". */
  lemma FallbackLevelDiverges(remote: RemoteOutcome, store: map<string, Stored>, userId: string)
    requires !remote.Body?
    requires CacheKey(userId) in store
    requires store[CacheKey(userId)] == Parsed(CachedRecord(Some(120), Some(100), Some(20), None, None, None))
    ensures Reconcile(remote, store, userId).Replaced?
    ensures var s := Reconcile(remote, store, userId).snapshot;
      s.achievementLevel == "Bingo Rookie" && TierOf(s.gamesWon.value) == Master
  {
  }
}
