/** The achievement ladder the profile page derives from the number of games
    won (`getAchievementLevel` in Profile.js). */
module Achievement {

  datatype Tier = Rookie | Player | Pro | Expert | Master

  /** Position of a tier on the ladder, lowest first. */
  function Rank(t: Tier): nat
  {
    match t
    case Rookie => 0
    case Player => 1
    case Pro => 2
    case Expert => 3
    case Master => 4
  }

  /** The displayed name of a tier. */
  function Name(t: Tier): string
  {
    match t
    case Rookie => "Bingo Rookie"
    case Player => "Bingo Player"
    case Pro => "Bingo Pro"
    case Expert => "Bingo Expert"
    case Master => "Bingo Master"
  }

  /** Fewest games won that reach a tier. Rookie is the fall-through tier and
      has no threshold of its own; its entry is never consulted. */
  function Threshold(t: Tier): int
  {
    match t
    case Rookie => 0
    case Player => 10
    case Pro => 25
    case Expert => 50
    case Master => 100
  }

  /** The ladder: thresholds tested from the highest down, the first that is
      met wins. The result is the highest tier whose threshold is met: every
      tier at or below it is reached, every tier above it is not. */
  function TierOf(gamesWon: int): (r: Tier)
    ensures forall t :: t != Rookie ==> (Rank(t) <= Rank(r) <==> Threshold(t) <= gamesWon)
  {
    if gamesWon >= 100 then Master
    else if gamesWon >= 50 then Expert
    else if gamesWon >= 25 then Pro
    else if gamesWon >= 10 then Player
    else Rookie
  }

  /** Winning more games never lowers the tier. */
  lemma TierMonotone(a: int, b: int)
    requires a <= b
    ensures Rank(TierOf(a)) <= Rank(TierOf(b))
  {
  }

  /** The tier changes exactly at its thresholds. */
  lemma TierBoundaries()
    ensures TierOf(9) == Rookie && TierOf(10) == Player
    ensures TierOf(24) == Player && TierOf(25) == Pro
    ensures TierOf(49) == Pro && TierOf(50) == Expert
    ensures TierOf(99) == Expert && TierOf(100) == Master
  {
  }

  /** Every count below ten, negative ones included, is a Rookie. */
  lemma BelowTenIsRookie(gamesWon: int)
    ensures TierOf(gamesWon) == Rookie <==> gamesWon < 10
  {
  }
}
