/**
 * The pet's enumerations, records and tuning constants.
 * Numbers of the host language are modelled as exact `real`s; timestamps
 * (`Date` values) as `int` milliseconds since the epoch.
 */
module Types {

  datatype Option<+T> = None | Some(value: T) {
    function GetOr(default: T): T {
      match this
      case Some(v) => v
      case None => default
    }
  }

  /** Growth tier, derived from the accumulated Cred. */
  datatype PotatoStage = Baby | Adult | Golden

  /** Momentary mood, derived from the need-stats. */
  datatype PotatoEmotion = Happy | Sad | Angry | Sleepy

  /** Degraded-condition flag, derived from the worst need-stat. */
  datatype PotatoState = Healthy | Wilted | Sick

  /** The cosmetic accessories; the empty slot is `None` of `Option<Accessory>`. */
  datatype Accessory = Hat | Sunglasses | Crown

  datatype ThemeMode = Light | Cyberpunk

  /** The three needs, each documented to lie in 0-100. */
  datatype PotatoStats = PotatoStats(hunger: real, happiness: real, energy: real)

  datatype PotatoProgress = PotatoProgress(
    totalCred: real,
    oxoAccumulated: real,
    daysActive: int,
    lastFed: int,
    lastInteraction: int,
    streak: int)

  datatype PotatoAchievements = PotatoAchievements(
    firstPurchase: bool,
    tenPurchases: bool,
    hundredPurchases: bool,
    firstReferral: bool,
    weekStreak: bool,
    monthStreak: bool,
    thousandCred: bool,
    tenThousandCred: bool)

  datatype PotatoData = PotatoData(
    id: string,
    name: string,
    createdAt: int,
    stage: PotatoStage,
    emotion: PotatoEmotion,
    state: PotatoState,
    stats: PotatoStats,
    progress: PotatoProgress,
    achievements: PotatoAchievements,
    accessory: Option<Accessory>,
    theme: ThemeMode)

  // Stage thresholds (total Cred)
  const BabyThreshold: real := 0.0
  const AdultThreshold: real := 100.0
  const GoldenThreshold: real := 1000.0

  // Stat decay rates, per hour
  const HungerDecayRate: real := 2.0
  const HappinessDecayRate: real := 1.0
  const EnergyDecayRate: real := 0.5

  // Health-state thresholds: any stat below them
  const WiltedThreshold: real := 20.0
  const SickThreshold: real := 10.0

  /** Bounds of every need-stat. */
  const StatMax: real := 100.0

  /** The keys of the achievements record. */
  datatype Achievement =
    | FirstPurchase | TenPurchases | HundredPurchases | FirstReferral
    | WeekStreak | MonthStreak | ThousandCred | TenThousandCred

  /** Reads the flag of one achievement out of the record. */
  function Flag(a: PotatoAchievements, key: Achievement): bool {
    match key
    case FirstPurchase => a.firstPurchase
    case TenPurchases => a.tenPurchases
    case HundredPurchases => a.hundredPurchases
    case FirstReferral => a.firstReferral
    case WeekStreak => a.weekStreak
    case MonthStreak => a.monthStreak
    case ThousandCred => a.thousandCred
    case TenThousandCred => a.tenThousandCred
  }

  /** The accessory an achievement unlocks, if any. */
  function AchievementReward(key: Achievement): (r: Option<Accessory>)
    ensures r.Some? <==> key in {TenPurchases, HundredPurchases, MonthStreak}
    ensures key == TenPurchases ==> r == Some(Hat)
    ensures key == HundredPurchases ==> r == Some(Sunglasses)
    ensures key == MonthStreak ==> r == Some(Crown)
  {
    match key
    case FirstPurchase => None
    case TenPurchases => Some(Hat)
    case HundredPurchases => Some(Sunglasses)
    case FirstReferral => None
    case WeekStreak => None
    case MonthStreak => Some(Crown)
    case ThousandCred => None
    case TenThousandCred => None
  }

  /** Every accessory is the reward of exactly one achievement. */
  lemma RewardsAreDistinct(k1: Achievement, k2: Achievement)
    requires AchievementReward(k1).Some? && AchievementReward(k1) == AchievementReward(k2)
    ensures k1 == k2
  {
  }

  /** No flag that was raised in `before` is lowered in `after`. */
  predicate AchievementsGrow(before: PotatoAchievements, after: PotatoAchievements) {
    forall key :: Flag(before, key) ==> Flag(after, key)
  }

  /** Each need lies in the documented closed range 0-100. */
  predicate InRange(s: PotatoStats) {
    0.0 <= s.hunger <= StatMax && 0.0 <= s.happiness <= StatMax && 0.0 <= s.energy <= StatMax
  }

  predicate NonNegative(s: PotatoStats) {
    0.0 <= s.hunger && 0.0 <= s.happiness && 0.0 <= s.energy
  }

  function Min(a: real, b: real): (r: real)
    ensures r <= a && r <= b && (r == a || r == b)
  {
    if a <= b then a else b
  }

  function Max(a: real, b: real): (r: real)
    ensures r >= a && r >= b && (r == a || r == b)
  {
    if a >= b then a else b
  }

  /** Stage thresholds are strictly ordered and decay rates are positive. */
  lemma ConstantsOrdered()
    ensures BabyThreshold < AdultThreshold < GoldenThreshold
    ensures 0.0 < SickThreshold < WiltedThreshold
    ensures HungerDecayRate == 2.0 && HappinessDecayRate == 1.0 && EnergyDecayRate == 0.5
    ensures 0.0 < EnergyDecayRate < HappinessDecayRate < HungerDecayRate
  {
  }
}
