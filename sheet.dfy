/**
 * The character record read from one sheet page: a structured value with one field per entry
 * the extractor fills, consumed unchanged by both the chat palette and the XML sheet.
 */
module Sheet {
  import opened Wrappers
  import opened JsNumber

  datatype Ability = Str | Dex | Con | Int | Wis | Cha

  /** The fixed order abilities are listed in everywhere: str, dex, con, int, wis, cha. */
  const Abilities: seq<Ability> := [Str, Dex, Con, Int, Wis, Cha]

  /** The ability's Japanese name, as the sheet and palette label it. */
  function AbilityLabel(a: Ability): string {
    match a
    case Str => "筋力"
    case Dex => "敏捷力"
    case Con => "耐久力"
    case Int => "知力"
    case Wis => "判断力"
    case Cha => "魅力"
  }

  /** The one-character abbreviation a skill line uses for its governing ability. */
  function AbilityAbbreviation(a: Ability): string {
    match a
    case Str => "筋"
    case Dex => "敏"
    case Con => "耐"
    case Int => "知"
    case Wis => "判"
    case Cha => "魅"
  }

  /** One text value per ability. */
  datatype AbilityValues = AbilityValues(
    strength: string, dexterity: string, constitution: string,
    intelligence: string, wisdom: string, charisma: string)
  {
    function Get(a: Ability): string {
      match a
      case Str => strength
      case Dex => dexterity
      case Con => constitution
      case Int => intelligence
      case Wis => wisdom
      case Cha => charisma
    }
  }

  datatype Skill =
    | Intimidation | Medicine | Athletics | Stealth | Acrobatics | Insight
    | Performance | Nature | Religion | Survival | Persuasion | Investigation
    | Perception | SleightOfHand | AnimalHandling | Deception | Arcana | History

  /** The canonical order of the eighteen skills, the order of the sheet's skill table. */
  const Skills: seq<Skill> := [
    Intimidation, Medicine, Athletics, Stealth, Acrobatics, Insight,
    Performance, Nature, Religion, Survival, Persuasion, Investigation,
    Perception, SleightOfHand, AnimalHandling, Deception, Arcana, History]

  /** The skill's bracketed Japanese name, used for the XML node and the palette line alike. */
  function SkillLabel(k: Skill): string {
    match k
    case Intimidation => "〈威圧〉"
    case Medicine => "〈医術〉"
    case Athletics => "〈運動〉"
    case Stealth => "〈隠密〉"
    case Acrobatics => "〈軽業〉"
    case Insight => "〈看破〉"
    case Performance => "〈芸能〉"
    case Nature => "〈自然〉"
    case Religion => "〈宗教〉"
    case Survival => "〈生存〉"
    case Persuasion => "〈説得〉"
    case Investigation => "〈捜査〉"
    case Perception => "〈知覚〉"
    case SleightOfHand => "〈手先の早業〉"
    case AnimalHandling => "〈動物使い〉"
    case Deception => "〈ペテン〉"
    case Arcana => "〈魔法学〉"
    case History => "〈歴史〉"
  }

  /** The ability a skill check is based on. */
  function GoverningAbility(k: Skill): Ability {
    match k
    case Intimidation => Cha
    case Medicine => Wis
    case Athletics => Str
    case Stealth => Dex
    case Acrobatics => Dex
    case Insight => Wis
    case Performance => Cha
    case Nature => Int
    case Religion => Int
    case Survival => Wis
    case Persuasion => Cha
    case Investigation => Int
    case Perception => Wis
    case SleightOfHand => Dex
    case AnimalHandling => Wis
    case Deception => Cha
    case Arcana => Int
    case History => Int
  }

  /** One text value per skill. */
  datatype SkillValues = SkillValues(
    intimidation: string, medicine: string, athletics: string, stealth: string,
    acrobatics: string, insight: string, performance: string, nature: string,
    religion: string, survival: string, persuasion: string, investigation: string,
    perception: string, sleightOfHand: string, animalHandling: string, deception: string,
    arcana: string, history: string)
  {
    function Get(k: Skill): string {
      match k
      case Intimidation => intimidation
      case Medicine => medicine
      case Athletics => athletics
      case Stealth => stealth
      case Acrobatics => acrobatics
      case Insight => insight
      case Performance => performance
      case Nature => nature
      case Religion => religion
      case Survival => survival
      case Persuasion => persuasion
      case Investigation => investigation
      case Perception => perception
      case SleightOfHand => sleightOfHand
      case AnimalHandling => animalHandling
      case Deception => deception
      case Arcana => arcana
      case History => history
    }
  }

  /** One row of the sheet's attack table. */
  datatype Attack = Attack(name: string, bonus: string, damage: string, damageType: string, note: string)

  /** Spell lists for levels lv0..lv9, index k holding level k. */
  type SpellLists = s: seq<seq<string>> | |s| == 10 witness seq(10, k => [])

  /** Spell-slot counts for levels lv1..lv9, index k - 1 holding level k. */
  type SlotValues = s: seq<string> | |s| == 9 witness seq(9, k => "")

  /** The key of spell level k: `lv0` .. `lv9`. */
  function LevelKey(k: nat): (key: string)
    requires k < 10
    ensures |key| == 3 && key[..2] == "lv" && key[2] == DigitChar(k)
  {
    "lv" + [DigitChar(k)]
  }

  datatype CharacterRecord = CharacterRecord(
    name: string,
    imageUrl: Option<string>,
    attribute: string,
    playerName: string,
    classes: string,
    level: string,
    race: string,
    size: string,
    sex: string,
    age: string,
    armorClass: string,
    initiative: string,
    speed: string,
    ability: AbilityValues,
    abilityBonus: AbilityValues,
    proficiencyBonus: string,
    save: AbilityValues,
    hp: string,
    hitDice: string,
    skill: SkillValues,
    attacks: seq<Attack>,
    spellSave: string,
    spellAttack: string,
    slots: SlotValues,
    spells: SpellLists,
    background: string,
    traits: string,
    ideals: string,
    bonds: string,
    flaws: string,
    characterDesign: string,
    otherProficiencies: string,
    feats: string)
  {
    /** The slot count of spell level k, for k in 1..9. */
    function Slot(k: nat): string
      requires 1 <= k < 10
    {
      slots[k - 1]
    }

    /** Whether any spell level has a spell. */
    predicate HasSpells() {
      exists k :: 0 <= k < 10 && spells[k] != []
    }
  }
}
