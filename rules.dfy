/**
 * The pure derivation rules of the pet: growth stage from Cred, mood and
 * health state from the need-stats, time-proportional decay, and the
 * default snapshot of a new pet.
 */
module Rules {
  import opened Types

  /** Milliseconds in one hour: timestamps are millisecond counts. */
  const MillisPerHour: real := 3600000.0

  /** Name given to a pet created without one. */
  const DefaultName: string := "Spud"

  /** Growth stage, thresholds evaluated highest first. */
  function Stage(totalCred: real): (r: PotatoStage)
    ensures r == Golden <==> totalCred >= GoldenThreshold
    ensures r == Adult <==> AdultThreshold <= totalCred < GoldenThreshold
    ensures r == Baby <==> totalCred < AdultThreshold
  {
    if totalCred >= GoldenThreshold then Golden
    else if totalCred >= AdultThreshold then Adult
    else Baby
  }

  /** Position of a stage in the growth order. */
  function StageRank(s: PotatoStage): nat {
    match s
    case Baby => 0
    case Adult => 1
    case Golden => 2
  }

  /** More Cred never gives a lower stage. */
  lemma StageMonotone(c1: real, c2: real)
    requires c1 <= c2
    ensures StageRank(Stage(c1)) <= StageRank(Stage(c2))
  {
  }

  /** The mean of the three needs. */
  function Mean(s: PotatoStats): real {
    (s.hunger + s.happiness + s.energy) / 3.0
  }

  /**
   * Mood by a fixed priority list, first match winning: low energy, then
   * low happiness, then low hunger, then the mean.
   */
  function Emotion(s: PotatoStats): (r: PotatoEmotion)
    ensures r == Sleepy <==> s.energy < 30.0
    ensures r == Angry <==> s.hunger < 30.0 && s.happiness >= 30.0 && s.energy >= 30.0
    ensures r == Sad <==>
      s.energy >= 30.0 && (s.happiness < 30.0 || (s.hunger >= 30.0 && Mean(s) < 40.0))
    ensures r == Happy <==>
      s.energy >= 30.0 && s.happiness >= 30.0 && s.hunger >= 30.0 && Mean(s) >= 40.0
  {
    var avg := Mean(s);
    if s.energy < 30.0 then Sleepy
    else if s.happiness < 30.0 then Sad
    else if s.hunger < 30.0 then Angry
    else if avg > 70.0 then Happy
    else if avg < 40.0 then Sad
    else Happy
  }

  /** The smallest of the three needs. */
  function MinStat(s: PotatoStats): real {
    Min(Min(s.hunger, s.happiness), s.energy)
  }

  /** Health state from the worst need: sick below 10, wilted below 20. */
  function HealthState(s: PotatoStats): (r: PotatoState)
    ensures r == Sick <==>
      s.hunger < SickThreshold || s.happiness < SickThreshold || s.energy < SickThreshold
    ensures r == Wilted <==>
      (s.hunger >= SickThreshold && s.happiness >= SickThreshold && s.energy >= SickThreshold) &&
      (s.hunger < WiltedThreshold || s.happiness < WiltedThreshold || s.energy < WiltedThreshold)
    ensures r == Healthy <==>
      s.hunger >= WiltedThreshold && s.happiness >= WiltedThreshold && s.energy >= WiltedThreshold
  {
    var minStat := MinStat(s);
    if minStat < SickThreshold then Sick
    else if minStat < WiltedThreshold then Wilted
    else Healthy
  }

  /** A sick pet always has some need below the wilted threshold too. */
  lemma SickIsBelowWilted(s: PotatoStats)
    requires HealthState(s) == Sick
    ensures MinStat(s) < WiltedThreshold
  {
  }

  /** Hours between two millisecond timestamps, negative when `now` is earlier. */
  function HoursBetween(from: int, now: int): real {
    (now - from) as real / MillisPerHour
  }

  /**
   * Catch-up decay: each need loses its hourly rate times the hours since
   * `lastInteraction`, floored at 0. Elapsed time is not clamped.
   */
  function Decay(s: PotatoStats, lastInteraction: int, now: int): (r: PotatoStats)
    ensures NonNegative(r)
    ensures now >= lastInteraction && NonNegative(s) ==>
      r.hunger <= s.hunger && r.happiness <= s.happiness && r.energy <= s.energy
  {
    var hours := HoursBetween(lastInteraction, now);
    PotatoStats(
      Max(0.0, s.hunger - hours * HungerDecayRate),
      Max(0.0, s.happiness - hours * HappinessDecayRate),
      Max(0.0, s.energy - hours * EnergyDecayRate))
  }

  /** With stats in range and time moving forward, decay stays in range. */
  lemma DecayInRange(s: PotatoStats, lastInteraction: int, now: int)
    requires InRange(s) && lastInteraction <= now
    ensures InRange(Decay(s, lastInteraction, now))
  {
  }

  /** The longer the absence, the lower (or equal) every need. */
  lemma DecayMonotone(s: PotatoStats, lastInteraction: int, now1: int, now2: int)
    requires now1 <= now2
    ensures Decay(s, lastInteraction, now2).hunger <= Decay(s, lastInteraction, now1).hunger
    ensures Decay(s, lastInteraction, now2).happiness <= Decay(s, lastInteraction, now1).happiness
    ensures Decay(s, lastInteraction, now2).energy <= Decay(s, lastInteraction, now1).energy
  {
    assert HoursBetween(lastInteraction, now1) <= HoursBetween(lastInteraction, now2);
  }

  /** No time elapsed leaves non-negative stats unchanged. */
  lemma DecayZeroElapsed(s: PotatoStats, t: int)
    requires NonNegative(s)
    ensures Decay(s, t, t) == s
  {
  }

  /**
   * A clock that runs backwards makes the elapsed time negative, and the
   * needs then grow: the result can leave the 0-100 range.
   */
  lemma DecayClockSkewRaises(s: PotatoStats, lastInteraction: int, now: int)
    requires now < lastInteraction && NonNegative(s)
    ensures Decay(s, lastInteraction, now).hunger > s.hunger
    ensures Decay(s, lastInteraction, now).happiness > s.happiness
    ensures Decay(s, lastInteraction, now).energy > s.energy
  {
    assert HoursBetween(lastInteraction, now) < 0.0;
  }

  /** The derived fields agree with the rules applied to the numeric state. */
  predicate Consistent(p: PotatoData) {
    && p.emotion == Emotion(p.stats)
    && p.state == HealthState(p.stats)
    && p.stage == Stage(p.progress.totalCred)
  }

  /** No achievement is unlocked. */
  predicate NoAchievements(a: PotatoAchievements) {
    forall key :: !Flag(a, key)
  }

  /**
   * The default snapshot: full needs, no Cred, every timestamp `now`, no
   * achievement, no accessory, light theme, the name defaulting to "Spud".
   */
  function NewPotato(name: Option<string>, id: string, now: int): (r: PotatoData)
    ensures r.id == id && r.createdAt == now
    ensures r.name == (if name.Some? then name.value else DefaultName)
    ensures r.stats == PotatoStats(StatMax, StatMax, StatMax)
    ensures r.progress.totalCred == 0.0 && r.progress.oxoAccumulated == 0.0
    ensures r.progress.daysActive == 0 && r.progress.streak == 0
    ensures r.progress.lastFed == now && r.progress.lastInteraction == now
    ensures NoAchievements(r.achievements)
    ensures r.accessory == None && r.theme == Light
  {
    PotatoData(
      id := id,
      name := name.GetOr(DefaultName),
      createdAt := now,
      stage := Baby,
      emotion := Happy,
      state := Healthy,
      stats := PotatoStats(100.0, 100.0, 100.0),
      progress := PotatoProgress(0.0, 0.0, 0, now, now, 0),
      achievements := PotatoAchievements(false, false, false, false, false, false, false, false),
      accessory := None,
      theme := Light)
  }

  /**
   * The literal baby / happy / healthy of the default snapshot are what the
   * rules give for full needs and no Cred, so it starts consistent.
   */
  lemma NewPotatoConsistent(name: Option<string>, id: string, now: int)
    ensures Consistent(NewPotato(name, id, now))
    ensures InRange(NewPotato(name, id, now).stats)
  {
  }
}
