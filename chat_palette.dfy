/**
 * The chat palette (`createChatPalette`): the line-oriented macro script a virtual tabletop
 * uses for one-click rolls.
 *
 * The palette is specified in two layers. `PaletteLines` says what each line is (a heading,
 * an attack roll, a check, a spell, ...) and depends only on the character; `Render` gives the
 * text of one such line for the chosen mode and roll command. `CreateChatPalette` builds the
 * text the way the source does, by pushing onto and concatenating to a growing list, and is
 * proved to yield the rendered lines joined with line breaks.
 */
module ChatPalette {
  import opened JsText
  import opened JsNumber
  import opened Sheet
  import opened Modifier

  /** The dice tokens put in front of attack rolls and of checks. */
  datatype RollTokens = RollTokens(attack: string, check: string)

  /** Mode `default` rolls a plain d20 everywhere; any other mode uses the macro tokens `AT` and `AR`. */
  function SelectRollTokens(rollCommand: string): (t: RollTokens)
    ensures rollCommand == "default" ==> t.attack == "1d20" && t.check == "1d20"
    ensures rollCommand != "default" ==> t.attack == "AT" && t.check == "AR"
  {
    if rollCommand == "default" then RollTokens("1d20", "1d20") else RollTokens("AT", "AR")
  }

  /** The palette's section headings. */
  datatype Section = Attacks | AbilityChecks | SavingThrows | SkillChecks | OtherAbilities | Spells | SpellList

  function Heading(s: Section): string {
    match s
    case Attacks => "⚔️ ===攻撃==="
    case AbilityChecks => "💪 ===能力値判定==="
    case SavingThrows => "🛡️ ===セーヴィングスロー==="
    case SkillChecks => "🎲 ===技能==="
    case OtherAbilities => "🌱 ===その他の能力==="
    case Spells => "🪄 ===呪文==="
    case SpellList => "📖 ===呪文リスト==="
  }

  /** A check before its mode is chosen: the stored value, the placeholder name, the label text. */
  datatype Check = Check(stored: string, placeholder: string, suffix: string)

  type SpellLevel = k: nat | k < 10

  /** What a palette line is. */
  datatype Line =
    | Title(name: string, playerName: string)
    | Summary(level: string, classes: string, race: string, sex: string, attribute: string)
    | Proficiency(bonus: string)
    | Initiative(value: string)
    | SectionHeading(section: Section)
    | AttackRoll(attack: Attack)
    | Damage(attack: Attack)
    | CheckRoll(check: Check)
    | Blank
    | SpellSaveDc(dc: string)
    | SpellAttackRoll(value: string)
    | LevelMarker(spellLevel: SpellLevel)
    | SpellName(name: string)

  /** A name in braces, which the tabletop resolves against the character's live values. */
  function Placeholder(name: string): string {
    "{" + name + "}"
  }

  predicate IsLineBreak(c: char) {
    c == '\n'
  }

  /** The marker of spell level k: keycap digit, then `初級` for level 0 or the level key. */
  function MarkerText(k: SpellLevel): string {
    [DigitChar(k), '\U{20E3}'] + " ===" + (if k == 0 then "初級" else LevelKey(k)) + "呪文==="
  }

  /**
   * The text of one line. Checks show the formatted stored value in computed mode (`simple`)
   * and the `{…}` placeholder otherwise; the damage type is bracketed and the note
   * parenthesised only when present; line breaks inside a spell name become spaces.
   */
  function Render(line: Line, simple: bool, t: RollTokens): string {
    match line
    case Title(name, playerName) => "◆チャットパレット " + name + "(PL:" + playerName + ")"
    case Summary(level, classes, race, sex, attribute) =>
      "▼ レベル " + level + " " + classes + " / " + race + " / " + sex + " / " + attribute
    case Proficiency(bonus) => "▼ 習熟ボーナス：" + bonus
    case Initiative(value) => t.check + ModifierValue(value) + " イニシアチブ"
    case SectionHeading(section) => Heading(section)
    case AttackRoll(a) => t.attack + ModifierValue(a.bonus) + " " + a.name + "の攻撃ロール"
    case Damage(a) =>
      a.damage + " " + (if a.damageType != "" then "[" + a.damageType + "]" else "")
      + " " + a.name + "のダメージ " + (if a.note != "" then "(" + a.note + ")" else "")
    case CheckRoll(c) =>
      t.check + (if simple then ModifierValue(c.stored) else Placeholder(c.placeholder)) + c.suffix
    case Blank => ""
    case SpellSaveDc(dc) => "呪文セーヴ難易度：" + dc
    case SpellAttackRoll(value) => t.attack + ModifierValue(value) + " 呪文攻撃ロール"
    case LevelMarker(k) => MarkerText(k)
    case SpellName(name) => ReplaceAll(name, IsLineBreak, ' ')
  }

  function RenderLines(lines: seq<Line>, simple: bool, t: RollTokens): (text: seq<string>)
    ensures |text| == |lines|
  {
    seq(|lines|, i requires 0 <= i < |lines| => Render(lines[i], simple, t))
  }

  // ----- What the palette holds -----

  /** Name and player, level and identity, proficiency bonus, and the initiative check. */
  function HeaderLines(r: CharacterRecord): seq<Line> {
    [ Title(r.name, r.playerName),
      Summary(r.level, r.classes, r.race, r.sex, r.attribute),
      Proficiency(r.proficiencyBonus),
      Initiative(r.initiative) ]
  }

  /** The attack section: a roll line then a damage line for each attack, in list order. */
  function AttackLines(attacks: seq<Attack>): (lines: seq<Line>)
    ensures |lines| == 2 * |attacks|
  {
    if attacks == [] then []
    else
      var last := attacks[|attacks| - 1];
      AttackLines(attacks[..|attacks| - 1]) + [AttackRoll(last), Damage(last)]
  }

  /** The ability checks, one per ability in sheet order, placeholder `{<label>修正}`. */
  function AbilityCheckList(r: CharacterRecord): (c: seq<Check>)
    ensures |c| == 6
  {
    seq(6, i requires 0 <= i < 6 =>
      Check(r.abilityBonus.Get(Abilities[i]), AbilityLabel(Abilities[i]) + "修正",
            " 【" + AbilityLabel(Abilities[i]) + "】能力値判定"))
  }

  /** The saving throws, one per ability in sheet order, placeholder `{<label>セーヴ}`. */
  function SaveCheckList(r: CharacterRecord): (c: seq<Check>)
    ensures |c| == 6
  {
    seq(6, i requires 0 <= i < 6 =>
      Check(r.save.Get(Abilities[i]), AbilityLabel(Abilities[i]) + "セーヴ",
            " 【" + AbilityLabel(Abilities[i]) + "】セーヴィングスロー"))
  }

  /** The skill checks in sheet order, each naming the ability it is rolled with. */
  function SkillCheckList(r: CharacterRecord): (c: seq<Check>)
    ensures |c| == 18
  {
    seq(18, i requires 0 <= i < 18 =>
      Check(r.skill.Get(Skills[i]), SkillLabel(Skills[i]),
            " ▼" + SkillLabel(Skills[i]) + " 【" + AbilityAbbreviation(GoverningAbility(Skills[i])) + "】技能判定"))
  }

  /** All thirty checks in palette order. */
  function Checks(r: CharacterRecord): (c: seq<Check>)
    ensures |c| == 30
  {
    AbilityCheckList(r) + SaveCheckList(r) + SkillCheckList(r)
  }

  function CheckLines(checks: seq<Check>): (lines: seq<Line>)
    ensures |lines| == |checks|
  {
    seq(|checks|, i requires 0 <= i < |checks| => CheckRoll(checks[i]))
  }

  function SpellNameLines(spells: seq<string>): (lines: seq<Line>)
    ensures |lines| == |spells|
  {
    seq(|spells|, i requires 0 <= i < |spells| => SpellName(spells[i]))
  }

  /** A non-empty level contributes its marker and its spells; an empty one contributes nothing. */
  function LevelLines(spells: seq<string>, k: SpellLevel): seq<Line> {
    if spells == [] then [] else [LevelMarker(k)] + SpellNameLines(spells)
  }

  /** The spell list of levels 0 .. n - 1, level by level. */
  function SpellListLines(lists: SpellLists, n: nat): seq<Line>
    requires n <= 10
  {
    if n == 0 then [] else SpellListLines(lists, n - 1) + LevelLines(lists[n - 1], n - 1)
  }

  function SpellHeaderLines(r: CharacterRecord): seq<Line> {
    [SectionHeading(Spells), SpellSaveDc(r.spellSave), SpellAttackRoll(r.spellAttack), SectionHeading(SpellList)]
  }

  /** The spells section, present only when some level has a spell. */
  function SpellSection(r: CharacterRecord): seq<Line> {
    var spells := SpellListLines(r.spells, 10);
    if spells != [] then SpellHeaderLines(r) + spells else []
  }

  /** The palette put together from its sections, each after its heading. */
  function Assemble(header: seq<Line>, attacks: seq<Line>, abilities: seq<Line>, saves: seq<Line>,
                    skills: seq<Line>, spells: seq<Line>): seq<Line> {
    header + [SectionHeading(Attacks)] + attacks + [SectionHeading(AbilityChecks)] + abilities
    + [SectionHeading(SavingThrows)] + saves + [SectionHeading(SkillChecks)] + skills
    + [SectionHeading(OtherAbilities), Blank] + spells
  }

  /** The palette's lines; they do not depend on the mode or the roll command. */
  function PaletteLines(r: CharacterRecord): seq<Line> {
    Assemble(HeaderLines(r), AttackLines(r.attacks), CheckLines(AbilityCheckList(r)),
             CheckLines(SaveCheckList(r)), CheckLines(SkillCheckList(r)), SpellSection(r))
  }

  /** The palette text: the rendered lines joined with line breaks. */
  function PaletteText(r: CharacterRecord, simple: bool, rollCommand: string): string {
    JoinLines(RenderLines(PaletteLines(r), simple, SelectRollTokens(rollCommand)))
  }

  // ----- The builder -----

  /** The `reduce` over the attack list: two lines per attack, appended in list order. */
  method CollectAttackLines(attacks: seq<Attack>, simple: bool, t: RollTokens) returns (lines: seq<string>)
    ensures lines == RenderLines(AttackLines(attacks), simple, t)
  {
    lines := [];
    var i := 0;
    while i < |attacks|
      invariant 0 <= i <= |attacks|
      invariant lines == RenderLines(AttackLines(attacks[..i]), simple, t)
    {
      var a := attacks[i];
      lines := lines + [t.attack + ModifierValue(a.bonus) + " " + a.name + "の攻撃ロール"];
      lines := lines + [a.damage + " " + (if a.damageType != "" then "[" + a.damageType + "]" else "")
                        + " " + a.name + "のダメージ " + (if a.note != "" then "(" + a.note + ")" else "")];
      assert attacks[..i + 1][..i] == attacks[..i];
      AttackText(a, simple, t);
      RenderLinesConcat(AttackLines(attacks[..i]), [AttackRoll(a), Damage(a)], simple, t);
      i := i + 1;
    }
    assert attacks[..|attacks|] == attacks;
  }

  /** The `reduce` over the ten spell levels: a marker and the spells of each non-empty level. */
  method CollectSpellList(lists: SpellLists, simple: bool, t: RollTokens) returns (lines: seq<string>)
    ensures lines == RenderLines(SpellListLines(lists, 10), simple, t)
  {
    lines := [];
    var k := 0;
    while k < 10
      invariant 0 <= k <= 10
      invariant lines == RenderLines(SpellListLines(lists, k), simple, t)
    {
      var current := lists[k];
      if current != [] {
        lines := lines + [MarkerText(k)];
        lines := lines + seq(|current|, i requires 0 <= i < |current| => ReplaceAll(current[i], IsLineBreak, ' '));
        LevelText(current, k, simple, t);
        RenderLinesConcat(SpellListLines(lists, k), LevelLines(current, k), simple, t);
      }
      k := k + 1;
    }
  }

  /** `createChatPalette`: the palette text for a character, a mode and a roll command. */
  method CreateChatPalette(r: CharacterRecord, simple: bool, rollCommand: string) returns (text: string)
    ensures text == PaletteText(r, simple, rollCommand)
  {
    var t := SelectRollTokens(rollCommand);
    var p := CollectHeader(r, simple, t);
    ghost var lines := HeaderLines(r);
    p := p + [Heading(Attacks)];
    HeadingText(Attacks, simple, t);
    lines := Extend(lines, [SectionHeading(Attacks)], simple, t);
    var attackLines := CollectAttackLines(r.attacks, simple, t);
    p := p + attackLines;
    lines := Extend(lines, AttackLines(r.attacks), simple, t);
    p := p + [Heading(AbilityChecks)];
    HeadingText(AbilityChecks, simple, t);
    lines := Extend(lines, [SectionHeading(AbilityChecks)], simple, t);
    var abilities := CheckSection(AbilityCheckList(r), simple, t);
    p := p + abilities;
    lines := Extend(lines, CheckLines(AbilityCheckList(r)), simple, t);
    p := p + [Heading(SavingThrows)];
    HeadingText(SavingThrows, simple, t);
    lines := Extend(lines, [SectionHeading(SavingThrows)], simple, t);
    var saves := CheckSection(SaveCheckList(r), simple, t);
    p := p + saves;
    lines := Extend(lines, CheckLines(SaveCheckList(r)), simple, t);
    p := p + [Heading(SkillChecks)];
    HeadingText(SkillChecks, simple, t);
    lines := Extend(lines, [SectionHeading(SkillChecks)], simple, t);
    var skills := CheckSection(SkillCheckList(r), simple, t);
    p := p + skills;
    lines := Extend(lines, CheckLines(SkillCheckList(r)), simple, t);
    ghost var main := p;
    p := p + [Heading(OtherAbilities)];
    p := p + [""];
    HeadingText(OtherAbilities, simple, t);
    assert p == main + [Heading(OtherAbilities), ""];
    lines := Extend(lines, [SectionHeading(OtherAbilities), Blank], simple, t);
    var spells := CollectSpellSection(r, simple, t);
    p := p + spells;
    lines := Extend(lines, SpellSection(r), simple, t);
    assert lines == PaletteLines(r);
    text := JoinLines(p);
  }

  /** The four opening lines: name and player, level and identity, proficiency bonus, initiative. */
  method CollectHeader(r: CharacterRecord, simple: bool, t: RollTokens) returns (p: seq<string>)
    ensures p == RenderLines(HeaderLines(r), simple, t)
  {
    p := [];
    p := p + ["◆チャットパレット " + r.name + "(PL:" + r.playerName + ")"];
    p := p + ["▼ レベル " + r.level + " " + r.classes + " / " + r.race + " / " + r.sex + " / " + r.attribute];
    p := p + ["▼ 習熟ボーナス：" + r.proficiencyBonus];
    p := p + [t.check + ModifierValue(r.initiative) + " イニシアチブ"];
    HeaderText(r, simple, t);
  }

  /** The spells section: the spell header lines and the spell list, only when the list is non-empty. */
  method CollectSpellSection(r: CharacterRecord, simple: bool, t: RollTokens) returns (p: seq<string>)
    ensures p == RenderLines(SpellSection(r), simple, t)
  {
    var spellsHeader := [Heading(Spells), "呪文セーヴ難易度：" + r.spellSave,
                         t.attack + ModifierValue(r.spellAttack) + " 呪文攻撃ロール", Heading(SpellList)];
    var spells := CollectSpellList(r.spells, simple, t);
    p := [];
    if |spells| > 0 {
      p := p + spellsHeader;
      p := p + spells;
      SpellHeaderText(r, simple, t);
      RenderLinesConcat(SpellHeaderLines(r), SpellListLines(r.spells, 10), simple, t);
    }
  }

  /** The `map` over a check table: each check rendered in the palette's one mode. */
  method CheckSection(checks: seq<Check>, simple: bool, t: RollTokens) returns (lines: seq<string>)
    ensures lines == RenderLines(CheckLines(checks), simple, t)
  {
    lines := seq(|checks|, i requires 0 <= i < |checks| =>
      t.check + (if simple then ModifierValue(checks[i].stored) else Placeholder(checks[i].placeholder)) + checks[i].suffix);
  }

  // ----- Rendering -----

  /** One step of the builder: appending a section's lines appends their rendering. */
  ghost function Extend(lines: seq<Line>, piece: seq<Line>, simple: bool, t: RollTokens): (longer: seq<Line>)
    ensures longer == lines + piece
    ensures RenderLines(longer, simple, t) == RenderLines(lines, simple, t) + RenderLines(piece, simple, t)
  {
    RenderLinesConcat(lines, piece, simple, t);
    lines + piece
  }

  lemma HeaderText(r: CharacterRecord, simple: bool, t: RollTokens)
    ensures RenderLines(HeaderLines(r), simple, t)
         == [ "◆チャットパレット " + r.name + "(PL:" + r.playerName + ")",
              "▼ レベル " + r.level + " " + r.classes + " / " + r.race + " / " + r.sex + " / " + r.attribute,
              "▼ 習熟ボーナス：" + r.proficiencyBonus,
              t.check + ModifierValue(r.initiative) + " イニシアチブ" ]
  {
  }

  lemma AttackText(a: Attack, simple: bool, t: RollTokens)
    ensures RenderLines([AttackRoll(a), Damage(a)], simple, t)
         == [ t.attack + ModifierValue(a.bonus) + " " + a.name + "の攻撃ロール",
              a.damage + " " + (if a.damageType != "" then "[" + a.damageType + "]" else "")
              + " " + a.name + "のダメージ " + (if a.note != "" then "(" + a.note + ")" else "") ]
  {
  }

  lemma HeadingText(s: Section, simple: bool, t: RollTokens)
    ensures RenderLines([SectionHeading(s)], simple, t) == [Heading(s)]
    ensures RenderLines([SectionHeading(s), Blank], simple, t) == [Heading(s), ""]
  {
  }

  lemma SpellHeaderText(r: CharacterRecord, simple: bool, t: RollTokens)
    ensures RenderLines(SpellHeaderLines(r), simple, t)
         == [Heading(Spells), "呪文セーヴ難易度：" + r.spellSave,
             t.attack + ModifierValue(r.spellAttack) + " 呪文攻撃ロール", Heading(SpellList)]
  {
  }

  lemma LevelText(spells: seq<string>, k: SpellLevel, simple: bool, t: RollTokens)
    requires spells != []
    ensures RenderLines(LevelLines(spells, k), simple, t)
         == [MarkerText(k)] + seq(|spells|, i requires 0 <= i < |spells| => ReplaceAll(spells[i], IsLineBreak, ' '))
  {
  }

  /** Rendering distributes over concatenation. */
  lemma RenderLinesConcat(a: seq<Line>, b: seq<Line>, simple: bool, t: RollTokens)
    ensures RenderLines(a + b, simple, t) == RenderLines(a, simple, t) + RenderLines(b, simple, t)
  {
  }

  /** Rendering an assembled palette renders each section in place, after its heading's text. */
  lemma RenderAssemble(header: seq<Line>, attacks: seq<Line>, abilities: seq<Line>, saves: seq<Line>,
                       skills: seq<Line>, spells: seq<Line>, simple: bool, t: RollTokens)
    ensures RenderLines(Assemble(header, attacks, abilities, saves, skills, spells), simple, t)
         == RenderLines(header, simple, t) + [Heading(Attacks)] + RenderLines(attacks, simple, t)
            + [Heading(AbilityChecks)] + RenderLines(abilities, simple, t)
            + [Heading(SavingThrows)] + RenderLines(saves, simple, t)
            + [Heading(SkillChecks)] + RenderLines(skills, simple, t)
            + [Heading(OtherAbilities), ""] + RenderLines(spells, simple, t)
  {
    HeadingText(Attacks, simple, t);
    HeadingText(AbilityChecks, simple, t);
    HeadingText(SavingThrows, simple, t);
    HeadingText(SkillChecks, simple, t);
    HeadingText(OtherAbilities, simple, t);
    var a := header + [SectionHeading(Attacks)];
    RenderLinesConcat(header, [SectionHeading(Attacks)], simple, t);
    var b := a + attacks;
    RenderLinesConcat(a, attacks, simple, t);
    var c := b + [SectionHeading(AbilityChecks)];
    RenderLinesConcat(b, [SectionHeading(AbilityChecks)], simple, t);
    var d := c + abilities;
    RenderLinesConcat(c, abilities, simple, t);
    var e := d + [SectionHeading(SavingThrows)];
    RenderLinesConcat(d, [SectionHeading(SavingThrows)], simple, t);
    var f := e + saves;
    RenderLinesConcat(e, saves, simple, t);
    var g := f + [SectionHeading(SkillChecks)];
    RenderLinesConcat(f, [SectionHeading(SkillChecks)], simple, t);
    var h := g + skills;
    RenderLinesConcat(g, skills, simple, t);
    var i := h + [SectionHeading(OtherAbilities), Blank];
    RenderLinesConcat(h, [SectionHeading(OtherAbilities), Blank], simple, t);
    RenderLinesConcat(i, spells, simple, t);
    assert Assemble(header, attacks, abilities, saves, skills, spells) == i + spells;
  }

  // ----- Properties of the palette -----

  /** Attack i yields lines 2i and 2i+1 of the attack section: its roll, then its damage. */
  lemma {:induction false} AttackLinesAt(attacks: seq<Attack>, i: nat)
    requires i < |attacks|
    ensures AttackLines(attacks)[2 * i] == AttackRoll(attacks[i])
    ensures AttackLines(attacks)[2 * i + 1] == Damage(attacks[i])
    decreases |attacks|
  {
    var init := attacks[..|attacks| - 1];
    if i < |attacks| - 1 {
      AttackLinesAt(init, i);
      assert init[i] == attacks[i];
    }
  }

  /** Where check `i` of the thirty sits in a palette with n attacks. */
  function CheckIndex(n: nat, i: nat): nat
    requires i < 30
  {
    if i < 6 then 6 + 2 * n + i else if i < 12 then 7 + 2 * n + i else 8 + 2 * n + i
  }

  /** Where each section of an assembled palette starts and ends. */
  lemma AssembleLayout(header: seq<Line>, attacks: seq<Line>, abilities: seq<Line>, saves: seq<Line>,
                       skills: seq<Line>, spells: seq<Line>)
    requires |header| == 4 && |abilities| == 6 && |saves| == 6 && |skills| == 18
    ensures var lines := Assemble(header, attacks, abilities, saves, skills, spells);
            var m := |attacks|;
            && |lines| == 40 + m + |spells|
            && lines[..4] == header
            && lines[4] == SectionHeading(Attacks)
            && lines[5..5 + m] == attacks
            && lines[5 + m] == SectionHeading(AbilityChecks)
            && lines[6 + m..12 + m] == abilities
            && lines[12 + m] == SectionHeading(SavingThrows)
            && lines[13 + m..19 + m] == saves
            && lines[19 + m] == SectionHeading(SkillChecks)
            && lines[20 + m..38 + m] == skills
            && lines[38 + m] == SectionHeading(OtherAbilities)
            && lines[39 + m] == Blank
            && lines[40 + m..] == spells
  {
    var a := header + [SectionHeading(Attacks)] + attacks;
    var b := a + [SectionHeading(AbilityChecks)] + abilities;
    var c := b + [SectionHeading(SavingThrows)] + saves;
    var d := c + [SectionHeading(SkillChecks)] + skills;
    var lines := d + [SectionHeading(OtherAbilities), Blank] + spells;
    assert lines == Assemble(header, attacks, abilities, saves, skills, spells);
    assert a[..4] == header && a[5..] == attacks;
    assert b[..|a|] == a && b[|a| + 1..] == abilities;
    assert c[..|b|] == b && c[|b| + 1..] == saves;
    assert d[..|c|] == c && d[|c| + 1..] == skills;
    assert lines[..|d|] == d && lines[|d| + 2..] == spells;
  }

  /**
   * The fixed layout: four header lines, the attack section, the ability, saving-throw and
   * skill sections and the closing heading with a blank line — 40 + 2n lines for n attacks —
   * then the spells section, if any.
   */
  lemma PaletteLayout(r: CharacterRecord)
    ensures var lines := PaletteLines(r);
            var m := 2 * |r.attacks|;
            && |lines| == 40 + m + |SpellSection(r)|
            && lines[..4] == HeaderLines(r)
            && lines[4] == SectionHeading(Attacks)
            && lines[5..5 + m] == AttackLines(r.attacks)
            && lines[5 + m] == SectionHeading(AbilityChecks)
            && lines[6 + m..12 + m] == CheckLines(AbilityCheckList(r))
            && lines[12 + m] == SectionHeading(SavingThrows)
            && lines[13 + m..19 + m] == CheckLines(SaveCheckList(r))
            && lines[19 + m] == SectionHeading(SkillChecks)
            && lines[20 + m..38 + m] == CheckLines(SkillCheckList(r))
            && lines[38 + m] == SectionHeading(OtherAbilities)
            && lines[39 + m] == Blank
            && lines[40 + m..] == SpellSection(r)
  {
    AssembleLayout(HeaderLines(r), AttackLines(r.attacks), CheckLines(AbilityCheckList(r)),
                   CheckLines(SaveCheckList(r)), CheckLines(SkillCheckList(r)), SpellSection(r));
  }

  /** In an assembled palette, the header comes first and attack i fills lines 5 + 2i and 6 + 2i. */
  lemma AssembleAttackAt(header: seq<Line>, attacks: seq<Attack>, abilities: seq<Line>, saves: seq<Line>,
                         skills: seq<Line>, spells: seq<Line>, i: nat)
    requires |header| == 4 && |abilities| == 6 && |saves| == 6 && |skills| == 18 && i < |attacks|
    ensures var lines := Assemble(header, AttackLines(attacks), abilities, saves, skills, spells);
            && 6 + 2 * i < |lines| && lines[0] == header[0]
            && lines[5 + 2 * i] == AttackRoll(attacks[i]) && lines[6 + 2 * i] == Damage(attacks[i])
  {
    var section := AttackLines(attacks);
    AssembleLayout(header, section, abilities, saves, skills, spells);
    AttackLinesAt(attacks, i);
    var lines := Assemble(header, section, abilities, saves, skills, spells);
    assert lines[0] == lines[..4][0];
    ElementOfSlice(lines, 5, 5 + |section|, section, 2 * i);
    ElementOfSlice(lines, 5, 5 + |section|, section, 2 * i + 1);
  }

  /** The palette opens with the character's name and player, and the attack lines follow in list order. */
  lemma PaletteAttacks(r: CharacterRecord, i: nat)
    requires i < |r.attacks|
    ensures var lines := PaletteLines(r);
            && |lines| > 6 + 2 * i
            && lines[0] == Title(r.name, r.playerName)
            && lines[5 + 2 * i] == AttackRoll(r.attacks[i])
            && lines[6 + 2 * i] == Damage(r.attacks[i])
  {
    AssembleAttackAt(HeaderLines(r), r.attacks, CheckLines(AbilityCheckList(r)), CheckLines(SaveCheckList(r)),
                     CheckLines(SkillCheckList(r)), SpellSection(r), i);
  }

  /** In an assembled palette with n attacks, check i of the three check sections sits at `CheckIndex(n, i)`. */
  lemma AssembleCheckAt(header: seq<Line>, attacks: seq<Line>, abilities: seq<Line>, saves: seq<Line>,
                        skills: seq<Line>, spells: seq<Line>, n: nat, i: nat)
    requires |header| == 4 && |abilities| == 6 && |saves| == 6 && |skills| == 18
    requires |attacks| == 2 * n && i < 30
    ensures var lines := Assemble(header, attacks, abilities, saves, skills, spells);
            CheckIndex(n, i) < |lines| && lines[CheckIndex(n, i)] == (abilities + saves + skills)[i]
  {
    AssembleLayout(header, attacks, abilities, saves, skills, spells);
    var lines := Assemble(header, attacks, abilities, saves, skills, spells);
    var m := 2 * n;
    if i < 6 {
      ElementOfSlice(lines, 6 + m, 12 + m, abilities, i);
    } else if i < 12 {
      ElementOfSlice(lines, 13 + m, 19 + m, saves, i - 6);
    } else {
      ElementOfSlice(lines, 20 + m, 38 + m, skills, i - 12);
    }
  }

  /** Check `i` of the thirty is the palette's line `CheckIndex`. */
  lemma CheckLineInPalette(r: CharacterRecord, i: nat)
    requires i < 30
    ensures var lines := PaletteLines(r);
            CheckIndex(|r.attacks|, i) < |lines| && lines[CheckIndex(|r.attacks|, i)] == CheckRoll(Checks(r)[i])
  {
    var abilities, saves, skills := AbilityCheckList(r), SaveCheckList(r), SkillCheckList(r);
    AssembleCheckAt(HeaderLines(r), AttackLines(r.attacks), CheckLines(abilities), CheckLines(saves),
                    CheckLines(skills), SpellSection(r), |r.attacks|, i);
    assert CheckLines(abilities) + CheckLines(saves) + CheckLines(skills) == CheckLines(abilities + saves + skills);
  }

  lemma ElementOfSlice<T>(s: seq<T>, lo: nat, hi: nat, part: seq<T>, j: nat)
    requires lo <= hi <= |s| && s[lo..hi] == part && j < hi - lo
    ensures s[lo + j] == part[j]
  {
  }

  lemma SplitSuffix<T>(s: seq<T>, lo: nat, a: seq<T>, b: seq<T>)
    requires lo <= |s| && s[lo..] == a + b
    ensures s[lo..lo + |a|] == a && s[lo + |a|..] == b
  {
    assert s[lo..lo + |a|] == (a + b)[..|a|];
    assert s[lo + |a|..] == (a + b)[|a|..];
  }

  /**
   * Every check line of the text obeys the same switch: in computed mode it shows the stored
   * value through `ModifierValue`, otherwise the `{…}` placeholder — never a mix of the two.
   */
  lemma ChecksFollowToggle(r: CharacterRecord, simple: bool, rollCommand: string, i: nat)
    requires i < 30
    ensures var text := RenderLines(PaletteLines(r), simple, SelectRollTokens(rollCommand));
            var t := SelectRollTokens(rollCommand);
            var c := Checks(r)[i];
            && CheckIndex(|r.attacks|, i) < |text|
            && (simple ==> text[CheckIndex(|r.attacks|, i)] == t.check + ModifierValue(c.stored) + c.suffix)
            && (!simple ==> text[CheckIndex(|r.attacks|, i)] == t.check + Placeholder(c.placeholder) + c.suffix)
  {
    CheckLineInPalette(r, i);
  }

  /** Lines other than checks read the same in both modes. */
  lemma RenderIgnoresMode(line: Line, t: RollTokens)
    requires !line.CheckRoll?
    ensures Render(line, true, t) == Render(line, false, t)
  {
  }

  /** Placeholder-mode check lines depend only on the placeholders and suffixes. */
  lemma PlaceholderLinesIgnoreValues(checks: seq<Check>, checks': seq<Check>, t: RollTokens)
    requires |checks| == |checks'|
    requires forall i :: 0 <= i < |checks| ==>
               checks[i].placeholder == checks'[i].placeholder && checks[i].suffix == checks'[i].suffix
    ensures RenderLines(CheckLines(checks), false, t) == RenderLines(CheckLines(checks'), false, t)
  {
  }

  /** Computed-mode check lines depend only on the formatted values and suffixes. */
  lemma ComputedLinesReadModifiers(checks: seq<Check>, checks': seq<Check>, t: RollTokens)
    requires |checks| == |checks'|
    requires forall i :: 0 <= i < |checks| ==>
               ModifierValue(checks[i].stored) == ModifierValue(checks'[i].stored) && checks[i].suffix == checks'[i].suffix
    ensures RenderLines(CheckLines(checks), true, t) == RenderLines(CheckLines(checks'), true, t)
  {
  }

  /** Two palettes that differ only in their check sections render alike when those sections do. */
  lemma SameChecksSameText(r: CharacterRecord, r': CharacterRecord, simple: bool, t: RollTokens)
    requires r'.attacks == r.attacks && HeaderLines(r') == HeaderLines(r) && SpellSection(r') == SpellSection(r)
    requires RenderLines(CheckLines(AbilityCheckList(r)), simple, t) == RenderLines(CheckLines(AbilityCheckList(r')), simple, t)
    requires RenderLines(CheckLines(SaveCheckList(r)), simple, t) == RenderLines(CheckLines(SaveCheckList(r')), simple, t)
    requires RenderLines(CheckLines(SkillCheckList(r)), simple, t) == RenderLines(CheckLines(SkillCheckList(r')), simple, t)
    ensures RenderLines(PaletteLines(r), simple, t) == RenderLines(PaletteLines(r'), simple, t)
  {
    RenderAssemble(HeaderLines(r), AttackLines(r.attacks), CheckLines(AbilityCheckList(r)),
                   CheckLines(SaveCheckList(r)), CheckLines(SkillCheckList(r)), SpellSection(r), simple, t);
    RenderAssemble(HeaderLines(r'), AttackLines(r'.attacks), CheckLines(AbilityCheckList(r')),
                   CheckLines(SaveCheckList(r')), CheckLines(SkillCheckList(r')), SpellSection(r'), simple, t);
  }

  /**
   * In placeholder mode the palette leaves the check values to the tabletop: records that
   * differ only in their ability modifiers, saving throws and skill values give the same text.
   */
  lemma PlaceholderModeIgnoresValues(r: CharacterRecord, bonuses: AbilityValues, saves: AbilityValues,
                                     skills: SkillValues, rollCommand: string)
    ensures PaletteText(r, false, rollCommand)
         == PaletteText(r.(abilityBonus := bonuses, save := saves, skill := skills), false, rollCommand)
  {
    var r' := r.(abilityBonus := bonuses, save := saves, skill := skills);
    var t := SelectRollTokens(rollCommand);
    PlaceholderLinesIgnoreValues(AbilityCheckList(r), AbilityCheckList(r'), t);
    PlaceholderLinesIgnoreValues(SaveCheckList(r), SaveCheckList(r'), t);
    PlaceholderLinesIgnoreValues(SkillCheckList(r), SkillCheckList(r'), t);
    SameChecksSameText(r, r', false, t);
  }

  /**
   * In computed mode only the formatted value of each check matters: records whose check values
   * format the same (for instance `2` and `+2`) give the same text.
   */
  lemma ComputedModeReadsModifiers(r: CharacterRecord, bonuses: AbilityValues, saves: AbilityValues,
                                   skills: SkillValues, rollCommand: string)
    requires forall a: Ability :: ModifierValue(r.abilityBonus.Get(a)) == ModifierValue(bonuses.Get(a))
    requires forall a: Ability :: ModifierValue(r.save.Get(a)) == ModifierValue(saves.Get(a))
    requires forall k: Skill :: ModifierValue(r.skill.Get(k)) == ModifierValue(skills.Get(k))
    ensures PaletteText(r, true, rollCommand)
         == PaletteText(r.(abilityBonus := bonuses, save := saves, skill := skills), true, rollCommand)
  {
    var r' := r.(abilityBonus := bonuses, save := saves, skill := skills);
    var t := SelectRollTokens(rollCommand);
    ComputedLinesReadModifiers(AbilityCheckList(r), AbilityCheckList(r'), t);
    ComputedLinesReadModifiers(SaveCheckList(r), SaveCheckList(r'), t);
    ComputedLinesReadModifiers(SkillCheckList(r), SkillCheckList(r'), t);
    SameChecksSameText(r, r', true, t);
  }

  /** The spell list is empty exactly when none of its levels has a spell. */
  lemma {:induction false} SpellListEmpty(lists: SpellLists, n: nat)
    requires n <= 10
    ensures SpellListLines(lists, n) == [] <==> forall k :: 0 <= k < n ==> lists[k] == []
  {
    if n > 0 {
      SpellListEmpty(lists, n - 1);
      if lists[n - 1] != [] {
        assert |LevelLines(lists[n - 1], n - 1)| > 0;
      }
    }
  }

  /** Level k's marker is in the spell list exactly when level k has a spell. */
  lemma {:induction false} MarkerPresence(lists: SpellLists, n: nat, k: SpellLevel)
    requires n <= 10
    ensures LevelMarker(k) in SpellListLines(lists, n) <==> k < n && lists[k] != []
  {
    if n > 0 {
      MarkerPresence(lists, n - 1, k);
      var level := LevelLines(lists[n - 1], n - 1);
      assert LevelMarker(k) in level <==> k == n - 1 && lists[n - 1] != [] by {
        if lists[n - 1] != [] {
          var names := SpellNameLines(lists[n - 1]);
          assert level == [LevelMarker(n - 1)] + names;
          assert LevelMarker(k) !in names;
        }
      }
    }
  }

  /** A level marker can only come from the spell list. */
  lemma MarkerOnlyInSpellList(r: CharacterRecord, k: SpellLevel)
    ensures LevelMarker(k) in PaletteLines(r) <==> LevelMarker(k) in SpellListLines(r.spells, 10)
  {
    AttackLinesNoMarker(r.attacks);
    AssembleMarker(HeaderLines(r), AttackLines(r.attacks), CheckLines(AbilityCheckList(r)),
                   CheckLines(SaveCheckList(r)), CheckLines(SkillCheckList(r)), SpellSection(r), k);
    if SpellListLines(r.spells, 10) != [] {
      assert SpellSection(r) == SpellHeaderLines(r) + SpellListLines(r.spells, 10);
    }
  }

  predicate NoMarker(lines: seq<Line>) {
    forall j :: 0 <= j < |lines| ==> !lines[j].LevelMarker?
  }

  lemma {:induction false} AttackLinesNoMarker(attacks: seq<Attack>)
    ensures NoMarker(AttackLines(attacks))
  {
    if attacks != [] {
      AttackLinesNoMarker(attacks[..|attacks| - 1]);
    }
  }

  /** Only the spells section of an assembled palette can hold a level marker. */
  lemma AssembleMarker(header: seq<Line>, attacks: seq<Line>, abilities: seq<Line>, saves: seq<Line>,
                       skills: seq<Line>, spells: seq<Line>, k: SpellLevel)
    requires NoMarker(header) && NoMarker(attacks) && NoMarker(abilities) && NoMarker(saves) && NoMarker(skills)
    ensures LevelMarker(k) in Assemble(header, attacks, abilities, saves, skills, spells) <==> LevelMarker(k) in spells
  {
    var front := header + [SectionHeading(Attacks)] + attacks + [SectionHeading(AbilityChecks)] + abilities
                 + [SectionHeading(SavingThrows)] + saves + [SectionHeading(SkillChecks)] + skills
                 + [SectionHeading(OtherAbilities), Blank];
    assert Assemble(header, attacks, abilities, saves, skills, spells) == front + spells;
    assert NoMarker(front);
  }

  /**
   * The spells section appears exactly when some level has a spell; it then holds the four
   * spell header lines followed by the spell list.
   */
  lemma SpellSectionPresence(r: CharacterRecord)
    ensures var m := 2 * |r.attacks|;
            var lines := PaletteLines(r);
            && (|lines| > 40 + m <==> r.HasSpells())
            && (r.HasSpells() ==>
                  lines[40 + m..44 + m] == SpellHeaderLines(r)
                  && lines[44 + m..] == SpellListLines(r.spells, 10))
  {
    var m := 2 * |r.attacks|;
    var section := SpellSection(r);
    AssembleTail(HeaderLines(r), AttackLines(r.attacks), CheckLines(AbilityCheckList(r)),
                 CheckLines(SaveCheckList(r)), CheckLines(SkillCheckList(r)), section);
    SpellListEmpty(r.spells, 10);
    var lines := PaletteLines(r);
    var spells := SpellListLines(r.spells, 10);
    if r.HasSpells() {
      var k :| 0 <= k < 10 && r.spells[k] != [];
      assert spells != [];
      assert section == SpellHeaderLines(r) + spells;
      SplitSuffix(lines, 40 + m, SpellHeaderLines(r), spells);
    } else {
      assert spells == [];
      assert section == [];
    }
  }

  /** The spells section of an assembled palette is its tail after line 40 plus the attack section. */
  lemma AssembleTail(header: seq<Line>, attacks: seq<Line>, abilities: seq<Line>, saves: seq<Line>,
                     skills: seq<Line>, spells: seq<Line>)
    requires |header| == 4 && |abilities| == 6 && |saves| == 6 && |skills| == 18
    ensures var lines := Assemble(header, attacks, abilities, saves, skills, spells);
            |lines| == 40 + |attacks| + |spells| && lines[40 + |attacks|..] == spells
  {
    var front := header + [SectionHeading(Attacks)] + attacks + [SectionHeading(AbilityChecks)] + abilities
                 + [SectionHeading(SavingThrows)] + saves + [SectionHeading(SkillChecks)] + skills
                 + [SectionHeading(OtherAbilities), Blank];
    assert Assemble(header, attacks, abilities, saves, skills, spells) == front + spells;
  }

  /** Each line of the spell list is a level marker or a spell name. */
  lemma {:induction false} SpellListKinds(lists: SpellLists, n: nat)
    requires n <= 10
    ensures forall line :: line in SpellListLines(lists, n) ==> line.LevelMarker? || line.SpellName?
  {
    if n > 0 {
      SpellListKinds(lists, n - 1);
      var level := LevelLines(lists[n - 1], n - 1);
      assert forall j :: 0 <= j < |level| ==> level[j].LevelMarker? || level[j].SpellName?;
    }
  }

  /** A marker or a spell name renders as a single line. */
  lemma SpellLineSingle(line: Line, simple: bool, t: RollTokens)
    requires line.LevelMarker? || line.SpellName?
    ensures '\n' !in Render(line, simple, t)
  {
    if line.LevelMarker? {
      var k := line.spellLevel;
      var key := if k == 0 then "初級" else LevelKey(k);
      assert '\n' !in key;
      assert MarkerText(k) == [DigitChar(k), '\U{20E3}'] + " ===" + key + "呪文===";
    } else {
      var text := ReplaceAll(line.name, IsLineBreak, ' ');
      assert forall i :: 0 <= i < |text| ==> text[i] != '\n';
    }
  }

  /** Every rendered line of the spell list is a single line: no entry keeps a line break. */
  lemma SpellListSingleLines(lists: SpellLists, simple: bool, t: RollTokens)
    ensures forall text :: text in RenderLines(SpellListLines(lists, 10), simple, t) ==> '\n' !in text
  {
    SpellListKinds(lists, 10);
    var lines := SpellListLines(lists, 10);
    forall j | 0 <= j < |lines|
      ensures '\n' !in Render(lines[j], simple, t)
    {
      assert lines[j] in lines;
      SpellLineSingle(lines[j], simple, t);
    }
  }
}
