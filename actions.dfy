/**
 * The record updates behind every action of the pet engine, the single
 * re-derivation step that commits them, catch-up decay on load, and the
 * properties of whole sequences of actions.
 */
module Actions {
  import opened Types
  import opened Rules

  /** Milliseconds between two scheduled ticks. */
  const TickInterval: int := 60000

  /** Cost of one play session in energy, and its gain in happiness. */
  const PlayHappiness: real := 15.0
  const PlayEnergy: real := 5.0
  const RestEnergy: real := 20.0
  const ReferralHappiness: real := 25.0

  /**
   * The commit of every update: emotion, health state and stage are
   * recomputed from the stats and Cred; nothing else moves.
   */
  function Rederive(p: PotatoData): (r: PotatoData)
    ensures Consistent(r)
    ensures r == p.(stage := r.stage, emotion := r.emotion, state := r.state)
    ensures Consistent(p) ==> r == p
  {
    p.(emotion := Emotion(p.stats), state := HealthState(p.stats), stage := Stage(p.progress.totalCred))
  }

  /** One minute's decay: each need loses a sixtieth of its hourly rate, floored at 0. */
  function TickStats(s: PotatoStats): (r: PotatoStats)
    ensures NonNegative(r)
    ensures r.hunger <= Max(0.0, s.hunger) && r.happiness <= Max(0.0, s.happiness)
    ensures r.energy <= Max(0.0, s.energy)
    ensures InRange(s) ==> InRange(r)
  {
    PotatoStats(
      Max(0.0, s.hunger - HungerDecayRate / 60.0),
      Max(0.0, s.happiness - HappinessDecayRate / 60.0),
      Max(0.0, s.energy - EnergyDecayRate / 60.0))
  }

  function Ticked(p: PotatoData): (r: PotatoData)
    ensures r == p.(stats := r.stats)
    ensures r.stats == TickStats(p.stats)
  {
    p.(stats := TickStats(p.stats))
  }

  /** Feeding raises hunger by twice the amount and happiness by the amount, capped at 100. */
  function Fed(p: PotatoData, credAmount: real, now: int): (r: PotatoData)
    ensures r == p.(stats := r.stats, progress := p.progress.(lastFed := now))
    ensures r.stats.energy == p.stats.energy
    ensures r.stats.hunger <= StatMax && r.stats.happiness <= StatMax
    ensures credAmount >= 0.0 ==>
      r.stats.hunger >= Min(StatMax, p.stats.hunger) && r.stats.happiness >= Min(StatMax, p.stats.happiness)
    ensures credAmount >= 0.0 && InRange(p.stats) ==> InRange(r.stats)
  {
    p.(stats := p.stats.(hunger := Min(StatMax, p.stats.hunger + credAmount * 2.0),
                         happiness := Min(StatMax, p.stats.happiness + credAmount)),
       progress := p.progress.(lastFed := now))
  }

  function Played(p: PotatoData, now: int): (r: PotatoData)
    ensures r == p.(stats := r.stats, progress := p.progress.(lastInteraction := now))
    ensures r.stats.hunger == p.stats.hunger
    ensures r.stats.happiness <= StatMax && r.stats.energy >= 0.0
    ensures Min(StatMax, p.stats.happiness) <= r.stats.happiness
    ensures r.stats.energy <= Max(0.0, p.stats.energy)
    ensures InRange(p.stats) ==> InRange(r.stats)
  {
    p.(stats := p.stats.(happiness := Min(StatMax, p.stats.happiness + PlayHappiness),
                         energy := Max(0.0, p.stats.energy - PlayEnergy)),
       progress := p.progress.(lastInteraction := now))
  }

  function Rested(p: PotatoData, now: int): (r: PotatoData)
    ensures r == p.(stats := p.stats.(energy := r.stats.energy), progress := p.progress.(lastInteraction := now))
    ensures Min(StatMax, p.stats.energy) <= r.stats.energy <= StatMax
    ensures InRange(p.stats) ==> InRange(r.stats)
  {
    p.(stats := p.stats.(energy := Min(StatMax, p.stats.energy + RestEnergy)),
       progress := p.progress.(lastInteraction := now))
  }

  function Renamed(p: PotatoData, name: string): PotatoData {
    p.(name := name)
  }

  function Accessorized(p: PotatoData, accessory: Option<Accessory>): PotatoData {
    p.(accessory := accessory)
  }

  /** The theme flag flips between its two values. */
  function Toggled(t: ThemeMode): (r: ThemeMode)
    ensures r != t
  {
    if t == Light then Cyberpunk else Light
  }

  function ThemeToggled(p: PotatoData): PotatoData {
    p.(theme := Toggled(p.theme))
  }

  /** The second half of a purchase: add the Cred, mark the first purchase. */
  function Credited(p: PotatoData, credEarned: real): (r: PotatoData)
    ensures r == p.(achievements := r.achievements, progress := r.progress)
    ensures r.progress == p.progress.(totalCred := p.progress.totalCred + credEarned)
    ensures r.achievements == p.achievements.(firstPurchase := true)
  {
    var achievements :=
      if !p.achievements.firstPurchase then p.achievements.(firstPurchase := true) else p.achievements;
    p.(achievements := achievements,
       progress := p.progress.(totalCred := p.progress.totalCred + credEarned))
  }

  function Referred(p: PotatoData): (r: PotatoData)
    ensures r == p.(stats := p.stats.(happiness := r.stats.happiness),
                    achievements := p.achievements.(firstReferral := true))
    ensures Min(StatMax, p.stats.happiness) <= r.stats.happiness <= StatMax
    ensures InRange(p.stats) ==> InRange(r.stats)
  {
    p.(stats := p.stats.(happiness := Min(StatMax, p.stats.happiness + ReferralHappiness)),
       achievements := p.achievements.(firstReferral := true))
  }

  /**
   * Overwrites Cred and OXO with the reported values, with no check against
   * regression, and raises the two Cred milestones independently.
   */
  function Synced(p: PotatoData, totalCred: real, oxo: real): (r: PotatoData)
    ensures r.progress == p.progress.(totalCred := totalCred, oxoAccumulated := oxo)
    ensures r.achievements.thousandCred == (p.achievements.thousandCred || totalCred >= 1000.0)
    ensures r.achievements.tenThousandCred == (p.achievements.tenThousandCred || totalCred >= 10000.0)
    ensures r == p.(progress := r.progress,
                    achievements := p.achievements.(thousandCred := r.achievements.thousandCred,
                                                    tenThousandCred := r.achievements.tenThousandCred))
  {
    var a := p.achievements;
    var a := if totalCred >= 1000.0 then a.(thousandCred := true) else a;
    var a := if totalCred >= 10000.0 then a.(tenThousandCred := true) else a;
    p.(progress := p.progress.(totalCred := totalCred, oxoAccumulated := oxo), achievements := a)
  }

  /**
   * Catch-up on load: decay the stored stats over the time since the last
   * interaction, recompute emotion and state (but not stage), and stamp
   * the interaction time.
   */
  function Loaded(data: PotatoData, now: int): (r: PotatoData)
    ensures r.stats == Decay(data.stats, data.progress.lastInteraction, now)
    ensures r.emotion == Emotion(r.stats) && r.state == HealthState(r.stats)
    ensures r.progress == data.progress.(lastInteraction := now)
    ensures r == data.(stats := r.stats, emotion := r.emotion, state := r.state, progress := r.progress)
    ensures data.stage == Stage(data.progress.totalCred) ==> Consistent(r)
    ensures InRange(data.stats) && data.progress.lastInteraction <= now ==> InRange(r.stats)
  {
    var updatedStats := Decay(data.stats, data.progress.lastInteraction, now);
    data.(stats := updatedStats,
          emotion := Emotion(updatedStats),
          state := HealthState(updatedStats),
          progress := data.progress.(lastInteraction := now))
  }

  /** Loading twice at the same instant does not decay twice. */
  lemma LoadIdempotent(data: PotatoData, now: int)
    ensures Loaded(Loaded(data, now), now) == Loaded(data, now)
  {
    var once := Loaded(data, now);
    DecayZeroElapsed(once.stats, now);
  }

  /** The actions of the host API that go through the commit step. */
  datatype Action =
    | Tick
    | Feed(credAmount: real, now: int)
    | Play(now: int)
    | Rest(now: int)
    | Rename(name: string)
    | SetAccessory(accessory: Option<Accessory>)
    | ToggleTheme
    | Purchase(credEarned: real, now: int)
    | Referral
    | Sync(totalCred: real, oxo: real)

  /** The amounts an action carries are not negative. */
  predicate NonNegativeAmounts(a: Action) {
    match a
    case Feed(c, _) => c >= 0.0
    case Purchase(c, _) => c >= 0.0
    case _ => true
  }

  /**
   * The committed snapshot after one action. A purchase is a feed commit
   * followed by a credit commit.
   */
  function Step(p: PotatoData, a: Action): (r: PotatoData)
    ensures Consistent(r)
    ensures AchievementsGrow(p.achievements, r.achievements)
    ensures r.id == p.id && r.createdAt == p.createdAt
  {
    match a
    case Tick => Rederive(Ticked(p))
    case Feed(c, now) => Rederive(Fed(p, c, now))
    case Play(now) => Rederive(Played(p, now))
    case Rest(now) => Rederive(Rested(p, now))
    case Rename(name) => Rederive(Renamed(p, name))
    case SetAccessory(acc) => Rederive(Accessorized(p, acc))
    case ToggleTheme => Rederive(ThemeToggled(p))
    case Purchase(c, now) => Rederive(Credited(Rederive(Fed(p, c, now)), c))
    case Referral => Rederive(Referred(p))
    case Sync(t, o) => Rederive(Synced(p, t, o))
  }

  /** Clamped actions keep every need within 0-100. */
  lemma StepKeepsInRange(p: PotatoData, a: Action)
    requires InRange(p.stats) && NonNegativeAmounts(a)
    ensures InRange(Step(p, a).stats)
  {
  }

  /** A tick lowers each need by exactly its rate over 60, floored at 0. */
  lemma TickEffect(p: PotatoData)
    requires NonNegative(p.stats)
    ensures var r := Step(p, Tick);
      && r.stats.hunger == Max(0.0, p.stats.hunger - HungerDecayRate / 60.0)
      && r.stats.happiness == Max(0.0, p.stats.happiness - HappinessDecayRate / 60.0)
      && r.stats.energy == Max(0.0, p.stats.energy - EnergyDecayRate / 60.0)
      && r.stats.hunger <= p.stats.hunger && r.stats.happiness <= p.stats.happiness
      && r.stats.energy <= p.stats.energy
      && r.progress == p.progress && r.achievements == p.achievements
  {
  }

  /**
   * The exact amount each need moves by, clamped to 0-100: play gives +15
   * happiness and -5 energy, rest +20 energy, a referral +25 happiness and
   * a feed of `c` Cred +2c hunger and +c happiness; the other needs stay.
   */
  lemma ActionAmounts(p: PotatoData, c: real, now: int)
    ensures Step(p, Play(now)).stats ==
      p.stats.(happiness := Min(100.0, p.stats.happiness + 15.0), energy := Max(0.0, p.stats.energy - 5.0))
    ensures Step(p, Rest(now)).stats == p.stats.(energy := Min(100.0, p.stats.energy + 20.0))
    ensures Step(p, Referral).stats == p.stats.(happiness := Min(100.0, p.stats.happiness + 25.0))
    ensures Step(p, Feed(c, now)).stats ==
      p.stats.(hunger := Min(100.0, p.stats.hunger + 2.0 * c), happiness := Min(100.0, p.stats.happiness + c))
    ensures p.stats.hunger == 50.0 ==> Step(p, Feed(10.0, now)).stats.hunger == 70.0
  {
  }

  /** Rename, accessory and theme change only their own field of a consistent pet. */
  lemma CosmeticActionsFrame(p: PotatoData, name: string, accessory: Option<Accessory>)
    requires Consistent(p)
    ensures Step(p, Rename(name)) == p.(name := name)
    ensures Step(p, SetAccessory(accessory)) == p.(accessory := accessory)
    ensures Step(p, ToggleTheme) == p.(theme := Toggled(p.theme))
  {
  }

  /** Toggling the theme twice restores a consistent pet exactly. */
  lemma ToggleThemeTwice(p: PotatoData)
    requires Consistent(p)
    ensures Step(Step(p, ToggleTheme), ToggleTheme) == p
  {
  }

  /**
   * A purchase adds exactly the Cred earned, feeds the pet, stamps the feed
   * time (not the interaction time), marks the first purchase and moves the
   * stage to the one the new total gives.
   */
  lemma PurchaseEffect(p: PotatoData, credEarned: real, now: int)
    ensures var r := Step(p, Purchase(credEarned, now));
      && r.progress == p.progress.(totalCred := p.progress.totalCred + credEarned, lastFed := now)
      && r.stats == p.stats.(hunger := Min(StatMax, p.stats.hunger + 2.0 * credEarned),
                             happiness := Min(StatMax, p.stats.happiness + credEarned))
      && r.achievements == p.achievements.(firstPurchase := true)
      && r.stage == Stage(p.progress.totalCred + credEarned)
      && r == p.(stats := r.stats, progress := r.progress, achievements := r.achievements,
                 stage := r.stage, emotion := r.emotion, state := r.state)
  {
  }

  /** A purchase of 150 Cred grows a new baby into an adult. */
  lemma PurchaseOnNewPotato(name: Option<string>, id: string, created: int, now: int)
    ensures var r := Step(NewPotato(name, id, created), Purchase(150.0, now));
      && r.progress.totalCred == 150.0 && r.stage == Adult && r.achievements.firstPurchase
  {
  }

  /**
   * Sync overwrites Cred and OXO, re-stages from the new total and raises
   * the milestones the new total reaches.
   */
  lemma SyncEffect(p: PotatoData, totalCred: real, oxo: real)
    ensures var r := Step(p, Sync(totalCred, oxo));
      && r.progress.totalCred == totalCred && r.progress.oxoAccumulated == oxo
      && r.stage == Stage(totalCred)
      && (totalCred >= 1000.0 ==> r.achievements.thousandCred)
      && (totalCred >= 10000.0 ==> r.achievements.tenThousandCred)
      && r.stats == p.stats
  {
  }

  /** Syncing 10000 Cred reaches golden and both Cred milestones at once. */
  lemma SyncTenThousand(name: Option<string>, id: string, now: int)
    ensures var r := Step(NewPotato(name, id, now), Sync(10000.0, 5.0));
      && r.achievements.thousandCred && r.achievements.tenThousandCred && r.stage == Golden
  {
  }

  /**
   * Sync trusts its caller: a lower reported total lowers Cred and can drop
   * a golden pet back to baby, while the milestone flag stays raised.
   */
  lemma SyncCanRegress(p: PotatoData)
    requires Consistent(p) && p.progress.totalCred >= GoldenThreshold && p.achievements.thousandCred
    ensures var r := Step(p, Sync(0.0, 0.0));
      && p.stage == Golden && r.stage == Baby
      && r.progress.totalCred < p.progress.totalCred
      && r.achievements.thousandCred
  {
  }

  /** The snapshot after a sequence of actions, applied in order. */
  function Run(p: PotatoData, actions: seq<Action>): PotatoData
    decreases |actions|
  {
    if actions == [] then p else Run(Step(p, actions[0]), actions[1..])
  }

  lemma AchievementsGrowTransitive(a: PotatoAchievements, b: PotatoAchievements, c: PotatoAchievements)
    requires AchievementsGrow(a, b) && AchievementsGrow(b, c)
    ensures AchievementsGrow(a, c)
  {
  }

  /** Over any sequence of actions, no achievement flag goes from true to false. */
  lemma {:induction false} RunNeverRevokes(p: PotatoData, actions: seq<Action>)
    ensures AchievementsGrow(p.achievements, Run(p, actions).achievements)
    decreases |actions|
  {
    if actions != [] {
      var q := Step(p, actions[0]);
      RunNeverRevokes(q, actions[1..]);
      AchievementsGrowTransitive(p.achievements, q.achievements, Run(q, actions[1..]).achievements);
    }
  }

  /** Over any sequence of actions with non-negative amounts, every need stays in 0-100. */
  lemma {:induction false} RunKeepsInRange(p: PotatoData, actions: seq<Action>)
    requires InRange(p.stats)
    requires forall i :: 0 <= i < |actions| ==> NonNegativeAmounts(actions[i])
    ensures InRange(Run(p, actions).stats)
    decreases |actions|
  {
    if actions != [] {
      StepKeepsInRange(p, actions[0]);
      RunKeepsInRange(Step(p, actions[0]), actions[1..]);
    }
  }

  /** From a consistent pet, every sequence of actions ends consistent. */
  lemma {:induction false} RunConsistent(p: PotatoData, actions: seq<Action>)
    requires Consistent(p)
    ensures Consistent(Run(p, actions))
    ensures Run(p, actions).id == p.id
    decreases |actions|
  {
    if actions != [] {
      RunConsistent(Step(p, actions[0]), actions[1..]);
    }
  }

  /** The needs after `n` ticks in a row. */
  function TickedN(s: PotatoStats, n: nat): PotatoStats {
    if n == 0 then s else TickStats(TickedN(s, n - 1))
  }

  /** Shifting one tick from the front to the back of a run of ticks. */
  lemma {:induction false} TickedNShift(s: PotatoStats, n: nat)
    ensures TickedN(TickStats(s), n) == TickedN(s, n + 1)
  {
    if n > 0 {
      TickedNShift(s, n - 1);
    }
  }

  /** `m` ticks followed by `n` ticks are `m + n` ticks. */
  lemma {:induction false} TickedNAdd(s: PotatoStats, m: nat, n: nat)
    ensures TickedN(TickedN(s, m), n) == TickedN(s, m + n)
  {
    if n > 0 {
      TickedNAdd(s, m, n - 1);
    }
  }

  /** `n` tick actions in a row. */
  function Ticks(n: nat): seq<Action> {
    seq(n, _ => Tick)
  }

  /**
   * Running `n` tick actions applies `TickStats` `n` times to the needs and
   * leaves the progress record, `lastInteraction` included, as it was.
   */
  lemma {:induction false} RunTicks(p: PotatoData, n: nat)
    ensures Run(p, Ticks(n)).stats == TickedN(p.stats, n)
    ensures Run(p, Ticks(n)).progress == p.progress
    decreases n
  {
    if n > 0 {
      assert Ticks(n)[0] == Tick;
      assert Ticks(n)[1..] == Ticks(n - 1);
      var q := Step(p, Tick);
      RunTicks(q, n - 1);
      TickedNShift(p.stats, n - 1);
    }
  }

  lemma HoursOfTicks(t: int, n: nat)
    ensures HoursBetween(t, t + n * TickInterval) == n as real / 60.0
  {
    assert (t + n * TickInterval) - t == n * 60000;
    assert (n * 60000) as real == n as real * 60000.0;
  }

  /**
   * With exact arithmetic, `n` one-minute ticks take the needs exactly where
   * catch-up decay over `n` minutes takes them.
   */
  lemma {:induction false} TicksMatchCatchUp(s: PotatoStats, t: int, n: nat)
    requires NonNegative(s)
    ensures TickedN(s, n) == Decay(s, t, t + n * TickInterval)
  {
    if n == 0 {
      assert t + n * TickInterval == t;
      DecayZeroElapsed(s, t);
    } else {
      TicksMatchCatchUp(s, t, n - 1);
      HoursOfTicks(t, n - 1);
      HoursOfTicks(t, n);
      var h := (n - 1) as real / 60.0;
      assert n as real / 60.0 == h + 1.0 / 60.0;
    }
  }

  /**
   * Ticks do not stamp `lastInteraction`, so a reload after a session of
   * `n` ticks decays those `n` minutes a second time: `n` minutes of wall
   * clock cost the needs `2n` minutes of decay.
   */
  lemma TickSessionThenReload(p: PotatoData, n: nat)
    requires NonNegative(p.stats)
    ensures var t := p.progress.lastInteraction;
      && Loaded(Run(p, Ticks(n)), t + n * TickInterval).stats == TickedN(p.stats, 2 * n)
      && Loaded(Run(p, Ticks(n)), t + n * TickInterval).stats == Decay(p.stats, t, t + (2 * n) * TickInterval)
  {
    var t := p.progress.lastInteraction;
    var q := Run(p, Ticks(n));
    RunTicks(p, n);
    TicksMatchCatchUp(p.stats, t, n);
    TicksMatchCatchUp(q.stats, t, n);
    TickedNAdd(p.stats, n, n);
    TicksMatchCatchUp(p.stats, t, 2 * n);
  }

  /** Sixty ticks from hunger 50, then a reload one hour on, leave hunger 46, not 48. */
  lemma TickHourThenReload(p: PotatoData)
    requires NonNegative(p.stats) && p.stats.hunger == 50.0
    ensures Run(p, Ticks(60)).stats.hunger == 48.0
    ensures Loaded(Run(p, Ticks(60)), p.progress.lastInteraction + 60 * TickInterval).stats.hunger == 46.0
  {
    var t := p.progress.lastInteraction;
    RunTicks(p, 60);
    TicksMatchCatchUp(p.stats, t, 60);
    TickSessionThenReload(p, 60);
    TicksMatchCatchUp(p.stats, t, 120);
  }
}
