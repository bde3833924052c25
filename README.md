# Potagotchi pet engine, modelled in Dafny

Potagotchi is a virtual pet. It lives inside a rewards app and is a potato.
Its visible condition is derived from numbers:

- the growth stage (baby, adult, golden) comes from the accumulated reward
  currency, Cred;
- the mood (happy, sad, angry, sleepy) and the health state (healthy,
  wilted, sick) come from three needs: hunger, happiness and energy.

The needs decay over time. Purchases, referrals, play and rest raise or
lower them. This project models the pet's state-derivation and decay
engine and proves its properties.

- `types.dfy` (module `Types`): the enumerations, the snapshot records and
  the tuning constants of `src/types.ts`, including which achievement
  unlocks which accessory.
- `rules.dfy` (module `Rules`): the pure rules of `src/usePotagotchi.ts`,
  that is stage from Cred, mood and health state from the needs, catch-up
  decay over elapsed time, and the default snapshot.
- `actions.dfy` (module `Actions`): the record update behind each action
  and the commit step `Rederive`. `Rederive` recomputes mood, health state
  and stage after every update. The module also has the catch-up done on
  load, and the committed effect `Step` of each action together with
  `Run`, its extension to sequences of actions.
- `engine.dfy` (module `Engine`): the hook as a class, `PotatoEngine`. It
  owns one field `potato: Option<PotatoData>`. It has one method per
  action, and each method ends in the commit `UpdatePotato`.
  `CreatePotato` and `LoadPotato` install new snapshots. A ghost field
  `saved` records the last snapshot handed to storage.
- `sprites.dfy` (module `Sprites`): the sprite selector of
  `src/Potagotchi.tsx`, which returns an abstract sprite key. It also has
  the asset table, whose shape is proved total, and the stage badge label.

The enumerations of `src/types.ts:6-14` are datatypes. So an accessory
is exactly one of hat, sunglasses or crown, or the empty slot `None`, and
a theme is exactly light or cyberpunk.

Numbers are exact `real`s. Timestamps are `int` milliseconds. The current
time and the new pet's id are parameters.

The central invariant is `PotatoEngine.Valid()`. It says that the
derived fields of the held pet equal the rules applied to its needs and
Cred, and that storage was last given the held snapshot. Every commit
re-establishes it, and creation establishes it.

Four behaviours of the code are easy to miss; the model follows the code
in each:

- Catch-up decay does not clamp a negative elapsed time
  (`src/usePotagotchi.ts:96`). A clock that runs backwards raises the
  needs (`Rules.DecayClockSkewRaises`). The 0-100 bound therefore needs
  `lastInteraction <= now`.
- `syncProgress` overwrites Cred with no check against regression
  (`src/usePotagotchi.ts:328-334`). A lower report lowers the stage
  (`Actions.SyncCanRegress`).
- Loading recomputes emotion and state but keeps the stored stage
  (`src/usePotagotchi.ts:157-166`). A loaded pet is consistent only when
  its stored stage was.
- `tick` does not update `lastInteraction` (`src/usePotagotchi.ts:199-208`),
  so a reload after a session of ticks decays the ticked minutes a second
  time (`Actions.TickSessionThenReload`). Sixty ticks take hunger from 50
  to 48, and a reload one hour after the last interaction then takes it to
  46 (`Actions.TickHourThenReload`).

`onPurchase` sets `firstPurchase` only when it is false. This has the same
effect as setting it on every call.

## Model

| member | source | states |
|---|---|---|
| Types.AchievementReward | src/types.ts:64-73 | exactly tenPurchases, hundredPurchases and monthStreak unlock an accessory (hat, sunglasses, crown); every other achievement unlocks none |
| Types.RewardsAreDistinct | src/types.ts:64-73 | no accessory is the reward of two achievements |
| Types.ConstantsOrdered | src/types.ts:57-86 | stage thresholds are strictly ordered 0 < 100 < 1000, health thresholds 0 < 10 < 20, decay rates are 2, 1 and 0.5 per hour, all positive |
| Rules.Stage | src/usePotagotchi.ts:63-67 | golden iff Cred >= 1000, adult iff 100 <= Cred < 1000, baby iff Cred < 100 |
| Rules.StageMonotone | src/usePotagotchi.ts:63-67 | more Cred never gives a lower stage |
| Rules.Emotion | src/usePotagotchi.ts:70-80 | sleepy iff energy < 30 whatever else; angry iff hunger < 30 with happiness and energy >= 30; sad iff energy >= 30 and (happiness < 30, or all >= 30 and mean < 40); happy iff all >= 30 and mean >= 40 |
| Rules.HealthState | src/usePotagotchi.ts:83-89 | sick iff some need < 10; wilted iff every need >= 10 and some need < 20; healthy iff every need >= 20 |
| Rules.SickIsBelowWilted | src/types.ts:83-86 | a sick pet also has a need below the wilted threshold |
| Rules.Decay | src/usePotagotchi.ts:92-103 | decayed needs are never negative; with time moving forward and non-negative needs no need rises |
| Rules.DecayInRange | src/usePotagotchi.ts:92-103 | needs in 0-100 stay in 0-100 under forward decay |
| Rules.DecayMonotone | src/usePotagotchi.ts:92-103 | every decayed need is non-increasing in the current time |
| Rules.DecayZeroElapsed | src/usePotagotchi.ts:92-103 | zero elapsed time is the identity on non-negative needs |
| Rules.DecayClockSkewRaises | src/usePotagotchi.ts:96-102 | a current time before the last interaction raises every need (elapsed time is not clamped) |
| Rules.NewPotato | src/usePotagotchi.ts:28-60 | a new pet has the given id, creation time `now`, the given name or "Spud", full needs, zero Cred, OXO, days and streak, every timestamp `now`, no achievement, no accessory, light theme |
| Rules.NewPotatoConsistent | src/usePotagotchi.ts:32-39 | the literal baby, happy, healthy of a new pet are the rules applied to full needs and zero Cred, and its needs are in range |
| Actions.Rederive | src/usePotagotchi.ts:185-196 | after the commit, emotion, state and stage agree with the rules; only these three fields change; a consistent snapshot is left as it is |
| Actions.TickStats | src/usePotagotchi.ts:202-206 | one tick leaves every need non-negative, never above its old value (floored at 0), and in range if it was |
| Actions.Ticked | src/usePotagotchi.ts:199-208 | a tick changes only the needs |
| Actions.Fed | src/usePotagotchi.ts:218-231 | feeding changes only hunger, happiness and lastFed; both needs end <= 100; a non-negative amount never lowers them and keeps them in range |
| Actions.Played | src/usePotagotchi.ts:234-247 | play changes only happiness, energy and lastInteraction; happiness does not fall and stays <= 100, energy does not rise and stays >= 0; it keeps needs in range; the exact amounts are stated by `Actions.ActionAmounts` |
| Actions.Rested | src/usePotagotchi.ts:250-262 | rest changes only energy and lastInteraction; energy does not fall and stays <= 100; the exact amounts are stated by `Actions.ActionAmounts` |
| Actions.Toggled | src/usePotagotchi.ts:278 | the theme always changes to the other value |
| Actions.Credited | src/usePotagotchi.ts:285-301 | the credit half of a purchase adds the Cred earned, sets firstPurchase and touches nothing else |
| Actions.Referred | src/usePotagotchi.ts:305-317 | a referral changes only happiness (capped at 100, never lowered) and sets firstReferral; the exact amounts are stated by `Actions.ActionAmounts` |
| Actions.Synced | src/usePotagotchi.ts:320-338 | sync overwrites Cred and OXO; thousandCred becomes old-or-(Cred >= 1000), tenThousandCred old-or-(Cred >= 10000), independently; nothing else changes |
| Actions.Loaded | src/usePotagotchi.ts:150-168 | loading replaces the needs by their decay, recomputes emotion and state from them, keeps the stored stage, sets lastInteraction to now and keeps every other field; consistent if the stored stage was, in range if the stored needs were and time moved forward |
| Actions.LoadIdempotent | src/usePotagotchi.ts:150-168 | loading twice at the same instant does not decay twice |
| Actions.Step | src/usePotagotchi.ts:185-338 | after every action the derived fields agree with the rules, no achievement flag is lowered, and id and creation time are kept |
| Actions.StepKeepsInRange | src/usePotagotchi.ts:199-262 | tick, play, rest, referral and feed or purchase with a non-negative amount keep every need in 0-100 |
| Actions.TickEffect | src/usePotagotchi.ts:199-208 | a tick lowers each need by exactly rate/60, floored at 0, never raises one, and leaves progress and achievements alone |
| Actions.CosmeticActionsFrame | src/usePotagotchi.ts:265-280 | on a consistent pet, rename, setAccessory and toggleTheme change only their own field |
| Actions.ToggleThemeTwice | src/usePotagotchi.ts:275-280 | toggling the theme twice restores a consistent pet exactly |
| Actions.PurchaseEffect | src/usePotagotchi.ts:283-302 | a purchase adds exactly the Cred earned, sets hunger to min(100, hunger + 2c) and happiness to min(100, happiness + c), sets lastFed (not lastInteraction), sets firstPurchase and re-stages from the new total |
| Actions.PurchaseOnNewPotato | src/usePotagotchi.ts:283-302 | 150 Cred bought by a new pet gives total 150, stage adult and firstPurchase |
| Actions.SyncEffect | src/usePotagotchi.ts:320-338 | after sync the Cred and OXO are the reported ones, the stage is that of the reported Cred, the milestones reached are set and the needs are untouched |
| Actions.SyncTenThousand | src/usePotagotchi.ts:320-338 | syncing 10000 reaches golden with both Cred milestones |
| Actions.SyncCanRegress | src/usePotagotchi.ts:328-334 | a golden pet synced to 0 Cred drops to baby with lower Cred while thousandCred stays set |
| Actions.RunNeverRevokes | src/usePotagotchi.ts:285-335 | over any sequence of actions no achievement flag goes from true to false |
| Actions.RunKeepsInRange | src/usePotagotchi.ts:199-317 | over any sequence of actions with non-negative amounts every need stays in 0-100 |
| Actions.RunConsistent | src/usePotagotchi.ts:185-196 | from a consistent pet every sequence of actions ends consistent, with the same id |
| Actions.ActionAmounts | src/usePotagotchi.ts:218-317 | play sets happiness to min(100, h + 15) and energy to max(0, e - 5), rest energy to min(100, e + 20), a referral happiness to min(100, h + 25), a feed of c hunger to min(100, hunger + 2c) and happiness to min(100, h + c), the other needs unchanged; hunger 50 fed 10 becomes 70 |
| Actions.TicksMatchCatchUp | src/usePotagotchi.ts:199-208 | n applications of the one-minute tick update (`TickedN`) take non-negative needs exactly where catch-up decay over n minutes does |
| Actions.RunTicks | src/usePotagotchi.ts:199-208 | running n tick actions applies the tick update n times to the needs and leaves the progress record, lastInteraction included, unchanged |
| Actions.TickSessionThenReload | src/usePotagotchi.ts:150-208 | a reload n minutes after the last interaction, following n ticks, leaves the needs where 2n minutes of decay would |
| Actions.TickHourThenReload | src/usePotagotchi.ts:150-208 | sixty ticks take hunger 50 to 48, and the reload one hour after the last interaction takes it to 46 |
| Engine.AfterAction | src/usePotagotchi.ts:185-187 | without a pet an action leaves none; with one, the result is consistent |
| Engine.PotatoEngine.constructor | src/usePotagotchi.ts:125-126 | the engine starts with no pet and in the loading phase |
| Engine.PotatoEngine.LoadPotato | src/usePotagotchi.ts:150-175 | a stored snapshot is installed after catch-up and saved; no snapshot (absent or unreadable) leaves the engine as it was; loading ends either way |
| Engine.PotatoEngine.CreatePotato | src/usePotagotchi.ts:211-215 | the held pet becomes the default snapshot, saved, and the invariant holds |
| Engine.PotatoEngine.UpdatePotato | src/usePotagotchi.ts:185-196 | the held pet becomes the commit of the update applied to it; with no pet nothing changes and nothing is saved; the invariant is re-established |
| Engine.PotatoEngine.Tick | src/usePotagotchi.ts:199-208 | the held pet becomes its tick step; the invariant is kept |
| Engine.PotatoEngine.Feed | src/usePotagotchi.ts:218-231 | the held pet becomes its feed step; the invariant is kept |
| Engine.PotatoEngine.Play | src/usePotagotchi.ts:234-247 | the held pet becomes its play step; the invariant is kept |
| Engine.PotatoEngine.Rest | src/usePotagotchi.ts:250-262 | the held pet becomes its rest step; the invariant is kept |
| Engine.PotatoEngine.Rename | src/usePotagotchi.ts:265-267 | the held pet becomes its rename step; the invariant is kept |
| Engine.PotatoEngine.SetAccessory | src/usePotagotchi.ts:270-272 | the held pet becomes its accessory step; the invariant is kept |
| Engine.PotatoEngine.ToggleTheme | src/usePotagotchi.ts:275-280 | the held pet becomes its theme step; the invariant is kept |
| Engine.PotatoEngine.OnPurchase | src/usePotagotchi.ts:283-302 | a feed commit followed by a credit commit gives the purchase step; the invariant is kept |
| Engine.PotatoEngine.OnReferral | src/usePotagotchi.ts:305-317 | the held pet becomes its referral step; the invariant is kept |
| Engine.PotatoEngine.SyncProgress | src/usePotagotchi.ts:320-338 | the held pet becomes its sync step; the invariant is kept |
| Sprites.SpriteTableTotal | src/Potagotchi.tsx:23-58 | the asset table has an entry for every stage with every emotion, both degraded states, every accessory and every cyberpunk emotion, and for nothing else |
| Sprites.GetSprite | src/Potagotchi.tsx:137-153 | sick sprite iff sick; wilted sprite iff wilted; a cyberpunk emotion sprite iff healthy and cyberpunk; a light stage/emotion sprite iff healthy and light, carrying the pet's emotion (and stage) |
| Sprites.SpriteImage | src/Potagotchi.tsx:137-153 | the table lookup for the chosen key never misses |
| Sprites.DegradedStateOverrides | src/Potagotchi.tsx:139-144 | two sick (or two wilted) pets get the same sprite whatever their theme, stage or emotion |
| Sprites.CyberpunkIgnoresStage | src/Potagotchi.tsx:147-149 | a healthy cyberpunk pet's sprite does not depend on its stage |
| Sprites.Capitalized | src/Potagotchi.tsx:215 | same length, first character upper-cased, the rest kept |
| Sprites.BadgeLabel | src/Potagotchi.tsx:215 | the badge is the stage name with its first letter capitalised |
| Sprites.BadgeLabels | src/Potagotchi.tsx:215 | the badges read "Baby", "Adult" and "Golden" |

The updaters `Actions.Renamed`, `Actions.Accessorized` and
`Actions.ThemeToggled` (src/usePotagotchi.ts:265-280) are single record
updates without a contract of their own. `Actions.CosmeticActionsFrame`
and `Actions.ToggleThemeTwice` state their effect.

## Left out

- Storage: the key-value store reads and writes and the JSON round trip
  (src/usePotagotchi.ts:152-154, 177-183) are foreign I/O. What storage
  returns is the `stored` parameter of `LoadPotato`, and a failed read is
  `None`. A write is the ghost field `saved`, and write failures are
  swallowed, so they leave nothing to model.
- JSON turns stored dates into strings, which `new Date(...)` parses back.
  Timestamps here are plain integers.
- The one-minute interval timer, its handle and its cleanup
  (src/usePotagotchi.ts:127-148) are timer plumbing. `Tick` is a plain
  method. `RunTicks` relates n tick actions to n applications of the tick
  update, and `TicksMatchCatchUp` relates those to elapsed time.
- The two updates that `onPurchase` queues are batched by the UI framework;
  here they run one after the other.
- Random ids and the clock (src/usePotagotchi.ts:25) are parameters.
  `createNewPotato` reads the clock three times; the model uses one `now`
  for all three. `loadPotato` reads the clock twice, for the decay
  (src/usePotagotchi.ts:96) and for the new `lastInteraction` (:164);
  `Loaded` uses one `now` for both.
- Rules.Decay and every stat operation: floating-point rounding is not
  modelled. The arithmetic is exact, so `TicksMatchCatchUp` holds exactly
  here but only approximately in the program.
- The React state setter and its functional-update form are plain field
  assignment here.
- Sprites.Capitalized: upper-cases ASCII letters only, where the program
  upper-cases by full Unicode rules (the stage names are ASCII).
- The onboarding rule `name.trim() || 'Spud'` (src/PotagotchiOnboarding.tsx:49)
  belongs to the caller. `CreatePotato` takes the name as given, or the
  default when none is given.
- Animation, styling and stat-bar rendering, the intro video, the action
  buttons, the demo app, the once-a-day intro check, re-exports and the
  sprite-cropping script are presentation or tooling, not part of this model.
