/** The state of the `Profile` component: the snapshot on display and the
    loading flag, updated by each statistics refresh. */
module Profile {
  import opened Wire
  import opened Achievement
  import opened Stats

  /** The inputs of one completed refresh. */
  datatype Run = Run(remote: RemoteOutcome, store: map<string, Stored>, userId: string)

  /** The `stats` value after one completed refresh: the reconciled snapshot,
      or the previous value when the refresh threw. */
  function Apply(stats: Option<Snapshot>, run: Run): Option<Snapshot>
  {
    match Reconcile(run.remote, run.store, run.userId)
    case Replaced(s) => Some(s)
    case Threw => stats
  }

  /** The `stats` value after a series of refreshes (from the mount, the two
      `gameCompleted` listeners and the poll), taken in the order they
      complete. */
  function StatsAfter(stats: Option<Snapshot>, runs: seq<Run>): Option<Snapshot>
    decreases |runs|
  {
    if runs == [] then stats else StatsAfter(Apply(stats, runs[0]), runs[1..])
  }

  /** Refreshes that all throw leave the displayed snapshot as it was. */
  lemma {:induction false} ThrowingRunsKeepStats(stats: Option<Snapshot>, runs: seq<Run>)
    requires forall j :: 0 <= j < |runs| ==> Reconcile(runs[j].remote, runs[j].store, runs[j].userId) == Threw
    ensures StatsAfter(stats, runs) == stats
    decreases |runs|
  {
    if runs != [] {
      assert Apply(stats, runs[0]) == stats;
      ThrowingRunsKeepStats(stats, runs[1..]);
    }
  }

  /** Each refresh replaces the snapshot wholesale, so the last refresh that
      does not throw decides what is displayed, whatever came before it. */
  lemma {:induction false} LastReplacingRunWins(stats: Option<Snapshot>, runs: seq<Run>, k: nat)
    requires k < |runs| && Reconcile(runs[k].remote, runs[k].store, runs[k].userId).Replaced?
    requires forall j :: k < j < |runs| ==> Reconcile(runs[j].remote, runs[j].store, runs[j].userId) == Threw
    ensures StatsAfter(stats, runs) == Some(Reconcile(runs[k].remote, runs[k].store, runs[k].userId).snapshot)
    decreases |runs|
  {
    if k == 0 {
      ThrowingRunsKeepStats(Apply(stats, runs[0]), runs[1..]);
    } else {
      LastReplacingRunWins(Apply(stats, runs[0]), runs[1..], k - 1);
    }
  }

  class ProfileState {
    /** `stats`: null until the first refresh produces a snapshot. */
    var stats: Option<Snapshot>
    /** `loading`: true until the first refresh finishes. */
    var loading: bool

    /** While the page is still loading, nothing has been shown yet. */
    ghost predicate Valid()
      reads this
    {
      loading ==> stats == None
    }

    /** The component's initial state. */
    constructor ()
      ensures Valid()
      ensures stats == None && loading
    {
      stats := None;
      loading := true;
    }

    /** `getAchievementLevel`: the ladder applied to the displayed number of
        games won; with no snapshot, or no win count in it, the lowest tier,
        which is in particular what the page shows while it is loading. */
    function AchievementTier(): (t: Tier)
      requires Valid()
      reads this
      ensures loading ==> t == Rookie
      ensures stats == None ==> t == Rookie
      ensures stats != None && stats.value.gamesWon == None ==> t == Rookie
      ensures stats != None && stats.value.gamesWon != None ==> t == TierOf(stats.value.gamesWon.value)
    {
      match stats
      case None => Rookie
      case Some(s) =>
        match s.gamesWon
        case None => Rookie
        case Some(won) => TierOf(won)
    }

    /** Fill `userStats` from the cache: the all-zero record, replaced by the
        parsed entry when one is stored; `threw` when parsing fails. */
    static method LoadCached(store: map<string, Stored>, userId: string) returns (userStats: CachedRecord, threw: bool)
      ensures threw <==> ReadCache(store, userId) == None
      ensures !threw ==> ReadCache(store, userId) == Some(userStats)
    {
      var key := CacheKey(userId);
      userStats := NoStats;
      threw := false;
      if key in store {
        match store[key]
        case Parsed(rec) =>
          userStats := rec;
        case Blank =>
        case Malformed =>
          threw := true;
      }
    }

    /** `fetchUserStats` given the request's outcome and the cache contents.
        The snapshot is replaced wholesale by the reconciled one; when the
        fallback in the `catch` block throws, it keeps its previous value and
        the refresh is `rejected`. Either way `finally` clears `loading`. */
    method Refresh(remote: RemoteOutcome, store: map<string, Stored>, userId: string) returns (rejected: bool)
      requires Valid()
      modifies this
      ensures Valid()
      ensures !loading
      ensures rejected <==> Reconcile(remote, store, userId) == Threw
      ensures stats == if rejected then old(stats) else Some(Reconcile(remote, store, userId).snapshot)
      ensures stats == StatsAfter(old(stats), [Run(remote, store, userId)])
    {
      var caught := false;
      match remote {
        case Body(b) =>
          stats := Some(FromRemote(b));
        case EmptyBody =>
          var userStats, threw := LoadCached(store, userId);
          if threw {
            caught := true;
          } else {
            stats := Some(FromCache(userStats));
          }
        case Failed =>
          caught := true;
      }
      rejected := false;
      if caught {
        var userStats, threw := LoadCached(store, userId);
        if threw {
          rejected := true;
        } else {
          stats := Some(FromCache(userStats));
        }
      }
      loading := false;
    }
  }
}
