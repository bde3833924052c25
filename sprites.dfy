/**
 * The sprite a pet is drawn with, and the label of its stage badge. The
 * sprite table is keyed by abstract sprite keys that mirror the nesting of
 * the asset table: light-theme sprites by stage and emotion, the two
 * degraded-state sprites, the accessory overlays and the cyberpunk sprites
 * by emotion.
 */
module Sprites {
  import opened Types

  datatype SpriteKey =
    | LightKey(stage: PotatoStage, emotion: PotatoEmotion)
    | StateKey(state: PotatoState)
    | AccessoryKey(accessory: Accessory)
    | CyberpunkKey(emotion: PotatoEmotion)

  /** The asset table: each key to the image it loads. */
  const SpriteTable: map<SpriteKey, string> := map[
    LightKey(Baby, Happy) := "../assets/baby/happy.png",
    LightKey(Baby, Sad) := "../assets/baby/sad.png",
    LightKey(Baby, Angry) := "../assets/baby/angry.png",
    LightKey(Baby, Sleepy) := "../assets/baby/sleepy.png",
    LightKey(Adult, Happy) := "../assets/adult/happy.png",
    LightKey(Adult, Sad) := "../assets/adult/sad.png",
    LightKey(Adult, Angry) := "../assets/adult/angry.png",
    LightKey(Adult, Sleepy) := "../assets/adult/sleepy.png",
    LightKey(Golden, Happy) := "../assets/golden/happy.png",
    LightKey(Golden, Sad) := "../assets/golden/sad.png",
    LightKey(Golden, Angry) := "../assets/golden/angry.png",
    LightKey(Golden, Sleepy) := "../assets/golden/sleepy.png",
    StateKey(Wilted) := "../assets/states/wilted.png",
    StateKey(Sick) := "../assets/states/sick.png",
    AccessoryKey(Hat) := "../assets/accessories/hat.png",
    AccessoryKey(Sunglasses) := "../assets/accessories/sunglasses.png",
    AccessoryKey(Crown) := "../assets/accessories/crown.png",
    CyberpunkKey(Happy) := "../assets/cyberpunk/happy.png",
    CyberpunkKey(Sad) := "../assets/cyberpunk/sad.png",
    CyberpunkKey(Angry) := "../assets/cyberpunk/angry.png",
    CyberpunkKey(Sleepy) := "../assets/cyberpunk/sleepy.png"
  ]

  /** The keys the table holds: every key except a healthy-state one. */
  predicate InTableShape(k: SpriteKey) {
    !(k.StateKey? && k.state == Healthy)
  }

  /**
   * The table is total over its shape: every stage with every emotion,
   * both degraded states, every accessory and every cyberpunk emotion.
   */
  lemma SpriteTableTotal(k: SpriteKey)
    ensures k in SpriteTable <==> InTableShape(k)
  {
    match k {
      case LightKey(stage, emotion) =>
        match stage {
          case Baby =>
          case Adult =>
          case Golden =>
        }
        match emotion {
          case Happy =>
          case Sad =>
          case Angry =>
          case Sleepy =>
        }
      case StateKey(state) =>
      case AccessoryKey(accessory) =>
        match accessory {
          case Hat =>
          case Sunglasses =>
          case Crown =>
        }
      case CyberpunkKey(emotion) =>
        match emotion {
          case Happy =>
          case Sad =>
          case Angry =>
          case Sleepy =>
        }
    }
  }

  /**
   * Sprite precedence: a degraded health state overrides the theme, the
   * cyberpunk theme overrides the stage, and otherwise stage and emotion
   * choose.
   */
  function GetSprite(p: PotatoData): (r: SpriteKey)
    ensures r == StateKey(Sick) <==> p.state == Sick
    ensures r == StateKey(Wilted) <==> p.state == Wilted
    ensures r.CyberpunkKey? <==> p.state == Healthy && p.theme == Cyberpunk
    ensures r.LightKey? <==> p.state == Healthy && p.theme == Light
    ensures r.CyberpunkKey? || r.LightKey? ==> r.emotion == p.emotion
    ensures r.LightKey? ==> r.stage == p.stage
    ensures InTableShape(r)
  {
    match p.state
    case Sick => StateKey(Sick)
    case Wilted => StateKey(Wilted)
    case Healthy =>
      match p.theme
      case Cyberpunk => CyberpunkKey(p.emotion)
      case Light => LightKey(p.stage, p.emotion)
  }

  /** The image a pet is drawn with; the lookup never misses. */
  function SpriteImage(p: PotatoData): (r: string)
    ensures GetSprite(p) in SpriteTable && r == SpriteTable[GetSprite(p)]
  {
    SpriteTableTotal(GetSprite(p));
    SpriteTable[GetSprite(p)]
  }

  /** A sick or wilted pet shows its state sprite whatever its theme, stage or mood. */
  lemma DegradedStateOverrides(p: PotatoData, q: PotatoData)
    requires p.state == q.state && p.state != Healthy
    ensures GetSprite(p) == GetSprite(q)
  {
  }

  /** Under the cyberpunk theme the stage does not change the sprite. */
  lemma CyberpunkIgnoresStage(p: PotatoData, stage: PotatoStage)
    requires p.state == Healthy && p.theme == Cyberpunk
    ensures GetSprite(p.(stage := stage)) == GetSprite(p)
  {
  }

  function StageName(s: PotatoStage): string {
    match s
    case Baby => "baby"
    case Adult => "adult"
    case Golden => "golden"
  }

  /** ASCII upper-casing of one character. */
  function UpperChar(c: char): (r: char)
    ensures 'a' <= c <= 'z' ==> 'A' <= r <= 'Z' && r as int == c as int - 32
    ensures !('a' <= c <= 'z') ==> r == c
  {
    if 'a' <= c <= 'z' then (c as int - 32) as char else c
  }

  /** The first character upper-cased, the rest kept. */
  function Capitalized(s: string): (r: string)
    ensures |r| == |s|
    ensures |s| > 0 ==> r[0] == UpperChar(s[0]) && r[1..] == s[1..]
  {
    if s == [] then [] else [UpperChar(s[0])] + s[1..]
  }

  /** The stage badge shows the stage name with its first letter capitalised. */
  function BadgeLabel(s: PotatoStage): (r: string)
    ensures |r| == |StageName(s)| && r[0] == UpperChar(StageName(s)[0]) && r[1..] == StageName(s)[1..]
  {
    Capitalized(StageName(s))
  }

  lemma BadgeLabels()
    ensures BadgeLabel(Baby) == "Baby"
    ensures BadgeLabel(Adult) == "Adult"
    ensures BadgeLabel(Golden) == "Golden"
  {
  }
}
