/**
 * Reading the character record off the sheet page (`readCharactorData`). The page is given as
 * the raw text found at each fixed probe position of its table layout; a position that is not
 * on the page reads as the empty string, so extraction never fails.
 */
module Extract {
  import opened Wrappers
  import opened Seqs
  import opened JsText
  import opened Sheet

  /** A fixed position of the sheet's table layout that the extractor reads. */
  datatype Probe =
    | Title | Attribute | PlayerName | Classes | Level | Race | Size | Sex | Age
    | ArmorClass | Initiative | Speed
    | AbilityScoreCell(ability: Ability)
    | AbilityBonusCell(ability: Ability)
    | ProficiencyBonus
    | SaveCell(ability: Ability)
    | HitPoints | HitDice
    | SkillCell(skill: Skill)
    | AttackCell(row: nat, column: nat)   // row and column of the attack table, counted from 1
    | SpellSaveDc | SpellAttack
    | SlotCell(level: nat)
    | SpellCell(level: nat, row: nat)     // row of the spell table that holds `level`
    | Background | Traits | Ideals | Bonds | Flaws | CharacterDesign | OtherProficiencies | Feats

  /** The decoded sheet page: the text at each probe that exists, and the first image's `src`. */
  datatype Page = Page(cells: map<Probe, string>, imageSrc: Option<string>)

  /** The raw text at a probe; a position the page lacks reads as empty. */
  function RawText(page: Page, p: Probe): string {
    if p in page.cells then page.cells[p] else ""
  }

  /** The trimmed text at a probe, which is what every non-narrative field keeps. */
  function CellText(page: Page, p: Probe): (t: string)
    ensures IsTrimmed(t)
  {
    Trim(RawText(page, p))
  }

  // ---- attacks ----

  /** The number of attack rows probed. */
  const AttackSlots: nat := 6

  /** The table row of attack slot i: rows 3, 5, 7, 9, 11, 13. */
  function AttackRow(i: nat): nat {
    3 + 2 * i
  }

  /** Attack slot i, or nothing when its name cell is blank, whatever the other cells hold. */
  function ProbeAttack(page: Page, i: nat): (a: Option<Attack>)
    ensures a.Some? <==> CellText(page, AttackCell(AttackRow(i), 1)) != ""
    ensures a.Some? ==> a.value.name == CellText(page, AttackCell(AttackRow(i), 1))
  {
    var row := AttackRow(i);
    var name := CellText(page, AttackCell(row, 1));
    if name == "" then None
    else Some(Attack(name,
                     CellText(page, AttackCell(row, 2)),
                     CellText(page, AttackCell(row, 3)),
                     CellText(page, AttackCell(row, 4)),
                     CellText(page, AttackCell(row, 5))))
  }

  /** The outcome of probing each of the six attack slots, in slot order. */
  function AttackProbes(page: Page): seq<Option<Attack>> {
    seq(AttackSlots, i requires 0 <= i < AttackSlots => ProbeAttack(page, i))
  }

  /** The attack list: the named slots, in slot order, so at most six. */
  function ReadAttacks(page: Page): (r: seq<Attack>)
    ensures |r| <= AttackSlots
    ensures forall a :: a in r ==> a.name != "" && IsTrimmed(a.name)
    ensures forall a :: a in r ==> Some(a) in AttackProbes(page)
  {
    var probes := AttackProbes(page);
    var r := Somes(probes);
    forall a | a in r ensures a.name != "" && IsTrimmed(a.name) {
      var i :| 0 <= i < |probes| && probes[i] == Some(a);
      assert ProbeAttack(page, i) == Some(a);
    }
    r
  }

  /** A slot whose trimmed name is non-empty yields an attack that is on the list. */
  lemma NamedSlotKept(page: Page, i: nat)
    requires i < AttackSlots && CellText(page, AttackCell(AttackRow(i), 1)) != ""
    ensures ProbeAttack(page, i).Some? && ProbeAttack(page, i).value in ReadAttacks(page)
  {
    assert AttackProbes(page)[i] == ProbeAttack(page, i);
  }

  /** Overwriting any other cell of an attack slot whose name is blank leaves the attack list unchanged. */
  lemma BlankAttackRowDropped(page: Page, i: nat, column: nat, text: string)
    requires i < AttackSlots && column != 1
    requires CellText(page, AttackCell(AttackRow(i), 1)) == ""
    ensures ReadAttacks(page.(cells := page.cells[AttackCell(AttackRow(i), column) := text]))
         == ReadAttacks(page)
  {
    var page' := page.(cells := page.cells[AttackCell(AttackRow(i), column) := text]);
    forall j | 0 <= j < AttackSlots ensures ProbeAttack(page', j) == ProbeAttack(page, j) {
      if j != i {
        assert forall c :: RawText(page', AttackCell(AttackRow(j), c)) == RawText(page, AttackCell(AttackRow(j), c));
      } else {
        assert RawText(page', AttackCell(AttackRow(i), 1)) == RawText(page, AttackCell(AttackRow(i), 1));
      }
    }
    assert AttackProbes(page') == AttackProbes(page);
  }

  /** With the first n slots named and the rest blank, the list is exactly those n attacks, in order. */
  lemma DenseAttacks(page: Page, n: nat)
    requires n <= AttackSlots
    requires forall i :: 0 <= i < n ==> AttackProbes(page)[i].Some?
    requires forall i :: n <= i < AttackSlots ==> AttackProbes(page)[i].None?
    ensures |ReadAttacks(page)| == n
    ensures forall i :: 0 <= i < n ==> ReadAttacks(page)[i] == AttackProbes(page)[i].value
  {
    SomesDense(AttackProbes(page), n);
  }

  /** Present values followed by absent ones: `Somes` keeps exactly the present prefix. */
  lemma SomesDense<T>(s: seq<Option<T>>, n: nat)
    requires n <= |s|
    requires forall i :: 0 <= i < n ==> s[i].Some?
    requires forall i :: n <= i < |s| ==> s[i].None?
    ensures |Somes(s)| == n
    ensures forall i :: 0 <= i < n ==> Somes(s)[i] == s[i].value
  {
    var named, blank := s[..n], s[n..];
    assert s == named + blank;
    SomesConcat(named, blank);
    SomesAllPresent(named);
    SomesNonePresent(blank);
  }

  lemma {:induction false} SomesAllPresent<T>(s: seq<Option<T>>)
    requires forall i :: 0 <= i < |s| ==> s[i].Some?
    ensures Somes(s) == seq(|s|, i requires 0 <= i < |s| => s[i].value)
  {
    if s != [] {
      SomesAllPresent(s[1..]);
    }
  }

  lemma {:induction false} SomesNonePresent<T>(s: seq<Option<T>>)
    requires forall i :: 0 <= i < |s| ==> s[i].None?
    ensures Somes(s) == []
  {
    if s != [] {
      SomesNonePresent(s[1..]);
    }
  }

  // ---- spells ----

  /** The number of rows probed for each spell level lv0..lv9. */
  const SpellProbeCounts: seq<nat> := [10, 13, 13, 13, 11, 10, 10, 8, 7, 6]

  /** The first table row probed for each spell level lv0..lv9. */
  const SpellFirstRows: seq<nat> := [4, 18, 35, 4, 21, 37, 4, 18, 30, 41]

  /** The trimmed text of every probed row of spell level k, in row order. */
  function SpellCandidates(page: Page, k: nat): (c: seq<string>)
    requires k < 10
    ensures |c| == SpellProbeCounts[k]
    ensures forall i :: 0 <= i < |c| ==> IsTrimmed(c[i])
  {
    var first := SpellFirstRows[k];
    var c := seq(SpellProbeCounts[k], i requires 0 <= i => CellText(page, SpellCell(k, first + i)));
    assert forall i :: 0 <= i < |c| ==> c[i] == CellText(page, SpellCell(k, first + i));
    c
  }

  predicate NonEmpty(s: string) {
    s != ""
  }

  /** The spells of level k: exactly the non-empty candidates, in row order. */
  function ReadSpellLevel(page: Page, k: nat): (r: seq<string>)
    requires k < 10
    ensures |r| <= SpellProbeCounts[k]
    ensures forall s :: s in r ==> s != "" && IsTrimmed(s) && s in SpellCandidates(page, k)
    ensures forall i :: 0 <= i < SpellProbeCounts[k] && SpellCandidates(page, k)[i] != ""
                        ==> SpellCandidates(page, k)[i] in r
  {
    var candidates := SpellCandidates(page, k);
    var r := Filter(candidates, NonEmpty);
    forall s | s in r ensures IsTrimmed(s) {
      var i :| 0 <= i < |candidates| && candidates[i] == s;
    }
    r
  }

  /** A level's list is empty exactly when every probed row of that level is blank. */
  lemma SpellLevelEmpty(page: Page, k: nat)
    requires k < 10
    ensures ReadSpellLevel(page, k) == [] <==> forall i :: 0 <= i < SpellProbeCounts[k] ==> SpellCandidates(page, k)[i] == ""
  {
    FilterEmpty(SpellCandidates(page, k), NonEmpty);
  }

  /** The lists of all ten levels. */
  function ReadSpells(page: Page): (r: SpellLists)
    ensures forall k :: 0 <= k < 10 ==> r[k] == ReadSpellLevel(page, k)
  {
    seq(10, k requires 0 <= k < 10 => ReadSpellLevel(page, k))
  }

  /** The slot counts of levels lv1..lv9. */
  function ReadSlots(page: Page): SlotValues {
    seq(9, i requires 0 <= i < 9 => CellText(page, SlotCell(i + 1)))
  }

  // ---- scalar fields ----

  /** An ability bonus; a blank cell reads as "0". */
  function BonusText(page: Page, a: Ability): (r: string)
    ensures r != "" && IsTrimmed(r)
    ensures CellText(page, AbilityBonusCell(a)) != "" ==> r == CellText(page, AbilityBonusCell(a))
    ensures CellText(page, AbilityBonusCell(a)) == "" ==> r == "0"
  {
    var t := CellText(page, AbilityBonusCell(a));
    if t == "" then "0" else t
  }

  /** Six values read from the cells `cell` names, each ability from its own cell. */
  function ReadAbilities(page: Page, cell: Ability -> Probe): (r: AbilityValues)
    ensures forall a: Ability :: r.Get(a) == CellText(page, cell(a))
  {
    AbilityValues(CellText(page, cell(Str)), CellText(page, cell(Dex)), CellText(page, cell(Con)),
                  CellText(page, cell(Int)), CellText(page, cell(Wis)), CellText(page, cell(Cha)))
  }

  function ReadAbilityBonuses(page: Page): AbilityValues {
    AbilityValues(BonusText(page, Str), BonusText(page, Dex), BonusText(page, Con),
                  BonusText(page, Int), BonusText(page, Wis), BonusText(page, Cha))
  }

  lemma BonusesRead(page: Page)
    ensures forall a: Ability :: ReadAbilityBonuses(page).Get(a) == BonusText(page, a)
  {
    forall a: Ability ensures ReadAbilityBonuses(page).Get(a) == BonusText(page, a) {
      match a
      case Str => case Dex => case Con => case Int => case Wis => case Cha =>
    }
  }

  /** Eighteen skill values, in the record's field order. */
  function ReadSkills(page: Page): SkillValues {
    SkillValues(CellText(page, SkillCell(Intimidation)), CellText(page, SkillCell(Medicine)),
                CellText(page, SkillCell(Athletics)), CellText(page, SkillCell(Stealth)),
                CellText(page, SkillCell(Acrobatics)), CellText(page, SkillCell(Insight)),
                CellText(page, SkillCell(Performance)), CellText(page, SkillCell(Nature)),
                CellText(page, SkillCell(Religion)), CellText(page, SkillCell(Survival)),
                CellText(page, SkillCell(Persuasion)), CellText(page, SkillCell(Investigation)),
                CellText(page, SkillCell(Perception)), CellText(page, SkillCell(SleightOfHand)),
                CellText(page, SkillCell(AnimalHandling)), CellText(page, SkillCell(Deception)),
                CellText(page, SkillCell(Arcana)), CellText(page, SkillCell(History)))
  }

  /** Each skill is read from its own cell of the skill table. */
  lemma SkillsRead(page: Page)
    ensures forall k: Skill :: ReadSkills(page).Get(k) == CellText(page, SkillCell(k))
  {
    var r := ReadSkills(page);
    forall k: Skill ensures r.Get(k) == CellText(page, SkillCell(k)) {
      match k
      case Intimidation => case Medicine => case Athletics => case Stealth => case Acrobatics =>
      case Insight => case Performance => case Nature => case Religion => case Survival =>
      case Persuasion => case Investigation => case Perception => case SleightOfHand =>
      case AnimalHandling => case Deception => case Arcana => case History =>
    }
  }

  /** What every extracted record satisfies. */
  predicate IsExtracted(r: CharacterRecord) {
    && |r.attacks| <= AttackSlots
    && (forall a :: a in r.attacks ==> a.name != "" && IsTrimmed(a.name))
    && (forall k :: 0 <= k < 10 ==> |r.spells[k]| <= SpellProbeCounts[k])
    && (forall k, s :: 0 <= k < 10 && s in r.spells[k] ==> s != "" && IsTrimmed(s))
    && (forall a: Ability :: r.abilityBonus.Get(a) != "")
    && IsTrimmed(r.name) && IsTrimmed(r.level) && IsTrimmed(r.hp)
  }

  /** `readCharactorData`: the record read off one page. */
  function ReadCharacterData(page: Page): (r: CharacterRecord)
    ensures IsExtracted(r)
    ensures r.name == CellText(page, Title)
    ensures r.attacks == ReadAttacks(page)
    ensures forall k :: 0 <= k < 10 ==> r.spells[k] == ReadSpellLevel(page, k)
    ensures forall a: Ability :: r.abilityBonus.Get(a) == BonusText(page, a)
    ensures forall a: Ability :: r.save.Get(a) == CellText(page, SaveCell(a))
    ensures forall k: Skill :: r.skill.Get(k) == CellText(page, SkillCell(k))
  {
    var spells := ReadSpells(page);
    var bonuses := ReadAbilityBonuses(page);
    assert forall k :: 0 <= k < 10 ==> spells[k] == ReadSpellLevel(page, k);
    BonusesRead(page);
    SkillsRead(page);
    CharacterRecord(
      name := CellText(page, Title),
      imageUrl := match page.imageSrc case None => None case Some(src) => Some(Trim(src)),
      attribute := CellText(page, Attribute),
      playerName := CellText(page, PlayerName),
      classes := CellText(page, Classes),
      level := CellText(page, Level),
      race := CellText(page, Race),
      size := CellText(page, Size),
      sex := CellText(page, Sex),
      age := CellText(page, Age),
      armorClass := CellText(page, ArmorClass),
      initiative := CellText(page, Initiative),
      speed := CellText(page, Speed),
      ability := ReadAbilities(page, a => AbilityScoreCell(a)),
      abilityBonus := bonuses,
      proficiencyBonus := CellText(page, ProficiencyBonus),
      save := ReadAbilities(page, a => SaveCell(a)),
      hp := CellText(page, HitPoints),
      hitDice := CellText(page, HitDice),
      skill := ReadSkills(page),
      attacks := ReadAttacks(page),
      spellSave := CellText(page, SpellSaveDc),
      spellAttack := CellText(page, SpellAttack),
      slots := ReadSlots(page),
      spells := spells,
      background := RawText(page, Background),
      traits := RawText(page, Traits),
      ideals := RawText(page, Ideals),
      bonds := RawText(page, Bonds),
      flaws := RawText(page, Flaws),
      characterDesign := RawText(page, CharacterDesign),
      otherProficiencies := RawText(page, OtherProficiencies),
      feats := RawText(page, Feats))
  }
}
