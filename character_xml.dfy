/**
 * The Udonarium character document (`createXML`): a `character` element holding the sheet
 * data as nested `data` elements, and the chat palette beside it.
 *
 * `CharacterTree` specifies the tree; `CreateXml` builds it the way the source drives its XML
 * builder, appending a group per spell level to the `呪文` element and then appending the slot
 * resource and the spell leaves to the group it has just added. Serialisation is not modelled.
 */
module CharacterXml {
  import opened Wrappers
  import opened JsNumber
  import opened Sheet
  import opened Modifier
  import ChatPalette

  datatype Attribute = Attribute(key: string, value: string)

  /** An XML element with its attributes in insertion order, or a text node. */
  datatype Node = Element(tag: string, attributes: seq<Attribute>, children: seq<Node>) | Text(value: string)

  // ----- Reading a tree back -----

  /** The value of the first attribute with this key. */
  function AttributeValue(attributes: seq<Attribute>, key: string): (v: Option<string>)
    ensures v.Some? <==> exists i :: 0 <= i < |attributes| && attributes[i].key == key
  {
    if attributes == [] then None
    else if attributes[0].key == key then Some(attributes[0].value)
    else AttributeValue(attributes[1..], key)
  }

  /** A node's `name` attribute, which is how Udonarium addresses its data elements. */
  function NameOf(n: Node): Option<string> {
    if n.Element? then AttributeValue(n.attributes, "name") else None
  }

  function Attr(n: Node, key: string): Option<string> {
    if n.Element? then AttributeValue(n.attributes, key) else None
  }

  /** The concatenated text children of a node list. */
  function Texts(children: seq<Node>): string {
    if children == [] then "" else (if children[0].Text? then children[0].value else "") + Texts(children[1..])
  }

  /** A node's own text, as set by the builder's `txt`. */
  function TextContent(n: Node): string {
    if n.Element? then Texts(n.children) else n.value
  }

  /** The names of a list of nodes, `""` for a node that has none. */
  function Names(nodes: seq<Node>): (names: seq<string>)
    ensures |names| == |nodes|
  {
    seq(|nodes|, i requires 0 <= i < |nodes| => NameOf(nodes[i]).GetOr(""))
  }

  /** The first node of the list whose name is `name`. */
  function Find(nodes: seq<Node>, name: string): (found: Option<Node>)
    ensures found.Some? ==> found.value in nodes && NameOf(found.value) == Some(name)
  {
    if nodes == [] then None
    else if NameOf(nodes[0]) == Some(name) then Some(nodes[0])
    else Find(nodes[1..], name)
  }

  // ----- The nodes the builder makes -----

  /** `.ele("data", {name})` with the given children. */
  function Data(name: string, children: seq<Node>): Node {
    Element("data", [Attribute("name", name)], children)
  }

  /** `.ele("data", {name}).txt(text)`. */
  function Field(name: string, text: string): Node {
    Data(name, [Text(text)])
  }

  /** `.ele("data", {name, type: "note"}).txt(text)`: a multi-line note. */
  function Note(name: string, text: string): Node {
    Element("data", [Attribute("name", name), Attribute("type", "note")], [Text(text)])
  }

  /** `.ele("data", {name, type: "numberResource", currentValue}).txt(max)`: a gauge with its current and maximum value. */
  function Resource(name: string, current: string, max: string): Node {
    Element("data", [Attribute("name", name), Attribute("type", "numberResource"), Attribute("currentValue", current)],
            [Text(max)])
  }

  function ImageNode(): Node {
    Data("image", [Element("data", [Attribute("name", "imageIdentifier"), Attribute("type", "image")], [Text("null")])])
  }

  function CommonNode(r: CharacterRecord): Node {
    Data("common", [Field("name", r.name), Field("size", "1")])
  }

  function BasicNode(r: CharacterRecord): Node {
    Data("基本", [Field("種族", r.race), Field("クラス", r.classes), Field("属性", r.attribute),
                  Field("プレイヤー", r.playerName), Field("レベル", r.level)])
  }

  /** The six ability scores, as read. */
  function AbilityScoreNode(r: CharacterRecord): Node {
    Data("能力値", seq(6, i requires 0 <= i < 6 =>
      Field("【" + AbilityLabel(Abilities[i]) + "】", r.ability.Get(Abilities[i]))))
  }

  /** The six ability modifiers, formatted. */
  function ModifierNode(r: CharacterRecord): Node {
    Data("能力値修正", seq(6, i requires 0 <= i < 6 =>
      Field(AbilityLabel(Abilities[i]) + "修正", ModifierValue(r.abilityBonus.Get(Abilities[i])))))
  }

  /** Combat values: hit points as a full gauge, temporary hit points 0 of 100, inspiration 0 of 1. */
  function ActionNode(r: CharacterRecord): Node {
    Data("行動データ", [
      Field("AC", r.armorClass),
      Resource("HP", r.hp, r.hp),
      Resource("一時的HP", "0", "100"),
      Field("ヒット・ダイス", r.hitDice),
      Resource("インスピレーション", "0", "1"),
      Field("習熟ボーナス", r.proficiencyBonus),
      Field("呪文攻撃ロール", ModifierValue(r.spellAttack)),
      Field("呪文セーブ", r.spellSave),
      Field("サイズ", r.size),
      Field("移動速度", r.speed),
      Field("イニシアチブ", ModifierValue(r.initiative)),
      Field("状態異常", "-")])
  }

  /** The eighteen skills in sheet order, formatted. */
  function SkillNode(r: CharacterRecord): Node {
    Data("技能", seq(18, i requires 0 <= i < 18 => Field(SkillLabel(Skills[i]), ModifierValue(r.skill.Get(Skills[i])))))
  }

  /** The six saving throws, formatted. */
  function SaveNode(r: CharacterRecord): Node {
    Data("セーヴィングスロー", seq(6, i requires 0 <= i < 6 =>
      Field(AbilityLabel(Abilities[i]) + "セーヴ", ModifierValue(r.save.Get(Abilities[i])))))
  }

  function NotesNode(r: CharacterRecord): Node {
    Data("特徴等", [Note("背景", r.background), Note("人格的特徴", r.traits), Note("尊ぶもの", r.ideals),
                    Note("関わり深いもの", r.bonds), Note("弱味", r.flaws), Note("その他設定など", r.characterDesign),
                    Note("その他の習熟と言語", r.otherProficiencies), Note("特徴・特性", r.feats)])
  }

  /** The group name of spell level k: `初級呪文` for cantrips, `lvK呪文` otherwise. */
  function GroupName(k: nat): string
    requires k < 10
  {
    if k == 0 then "初級呪文" else LevelKey(k) + "呪文"
  }

  /** Level k's slot gauge, current value and maximum both the slot text; cantrips have none. */
  function SlotNodes(r: CharacterRecord, k: nat): seq<Node>
    requires k < 10
  {
    if k == 0 then [] else [Resource(LevelKey(k), r.Slot(k), r.Slot(k))]
  }

  function SpellLeaf(name: string): Node {
    Data(name, [])
  }

  function SpellLeaves(names: seq<string>): (leaves: seq<Node>)
    ensures |leaves| == |names|
  {
    seq(|names|, i requires 0 <= i < |names| => SpellLeaf(names[i]))
  }

  /** Level k's group after its first j spells have been appended. */
  function PartialGroup(r: CharacterRecord, k: nat, j: nat): Node
    requires k < 10 && j <= |r.spells[k]|
  {
    Data(GroupName(k), SlotNodes(r, k) + SpellLeaves(r.spells[k][..j]))
  }

  /** Level k's group: its slot gauge, then one leaf per spell in list order. */
  function SpellGroup(r: CharacterRecord, k: nat): Node
    requires k < 10
  {
    Data(GroupName(k), SlotNodes(r, k) + SpellLeaves(r.spells[k]))
  }

  /** The groups of levels 0 .. n - 1. */
  function SpellGroups(r: CharacterRecord, n: nat): (groups: seq<Node>)
    requires n <= 10
    ensures |groups| == n
  {
    seq(n, k requires 0 <= k < n => SpellGroup(r, k))
  }

  function SpellNode(r: CharacterRecord): Node {
    Data("呪文", SpellGroups(r, 10))
  }

  function DetailNode(r: CharacterRecord): Node {
    Data("detail", [BasicNode(r), AbilityScoreNode(r), ModifierNode(r), ActionNode(r),
                    SkillNode(r), SaveNode(r), NotesNode(r), SpellNode(r)])
  }

  function ChatPaletteNode(palette: string): Node {
    Element("chat-palette", [Attribute("dicebot", "DungeonsAndDragons5")], [Text(palette)])
  }

  /** The document element: the character's data, and the chat palette beside it. */
  function CharacterTree(r: CharacterRecord, palette: string): Node {
    Element("character", [], [Data("character", [ImageNode(), CommonNode(r), DetailNode(r)]), ChatPaletteNode(palette)])
  }

  // ----- The builder -----

  /** `root.last().ele(child)`: append a child to the last node under the cursor. */
  function AppendToLast(nodes: seq<Node>, child: Node): (result: seq<Node>)
    requires nodes != [] && nodes[|nodes| - 1].Element?
  {
    var last := nodes[|nodes| - 1];
    nodes[..|nodes| - 1] + [Element(last.tag, last.attributes, last.children + [child])]
  }

  /** `createXML`: the character document for a record and its chat palette text. */
  method CreateXml(r: CharacterRecord, palette: string) returns (doc: Node)
    ensures doc == CharacterTree(r, palette)
  {
    // The fixed chain, which leaves the builder's cursor `root` on the `呪文` element.
    var detail := [BasicNode(r), AbilityScoreNode(r), ModifierNode(r), ActionNode(r),
                   SkillNode(r), SaveNode(r), NotesNode(r)];
    var groups := AddSpellGroups(r);
    detail := detail + [Data("呪文", groups)];
    assert detail == DetailNode(r).children;
    // `root.up().up().up()` climbs from `呪文` past `detail` and `data[name=character]` to `character`.
    doc := Element("character", [], [Data("character", [ImageNode(), CommonNode(r), Data("detail", detail)]),
                                     ChatPaletteNode(palette)]);
  }

  /** The `forEach` over the spell levels: the children it gives the `呪文` element. */
  method AddSpellGroups(r: CharacterRecord) returns (groups: seq<Node>)
    ensures groups == SpellGroups(r, 10)
  {
    groups := [];
    var k := 0;
    while k < 10
      invariant 0 <= k <= 10
      invariant groups == SpellGroups(r, k)
    {
      assert r.spells[k][..0] == [] && SpellLeaves([]) == [];
      if k == 0 {
        groups := groups + [Data("初級呪文", [])];
        assert SlotNodes(r, k) + SpellLeaves(r.spells[k][..0]) == [];
      } else {
        groups := groups + [Data(LevelKey(k) + "呪文", [])];
        var slots := r.Slot(k);
        AppendToLastOf(SpellGroups(r, k), Data(LevelKey(k) + "呪文", []), Resource(LevelKey(k), slots, slots));
        groups := AppendToLast(groups, Resource(LevelKey(k), slots, slots));
        assert SlotNodes(r, k) + SpellLeaves(r.spells[k][..0]) == [] + [Resource(LevelKey(k), slots, slots)];
      }
      assert groups == SpellGroups(r, k) + [PartialGroup(r, k, 0)];
      groups := AddSpellLeaves(r, k, groups);
      // `root.up()` here returns the parent, but the result is dropped: `root` stays on `呪文`.
      assert SpellGroups(r, k + 1) == SpellGroups(r, k) + [SpellGroup(r, k)];
      k := k + 1;
    }
  }

  /** The `forEach` over one level's spells: a leaf per spell, appended to the level's group. */
  method AddSpellLeaves(r: CharacterRecord, k: nat, groups: seq<Node>) returns (result: seq<Node>)
    requires k < 10 && groups == SpellGroups(r, k) + [PartialGroup(r, k, 0)]
    ensures result == SpellGroups(r, k) + [SpellGroup(r, k)]
  {
    var spells := r.spells[k];
    result := groups;
    var j := 0;
    while j < |spells|
      invariant 0 <= j <= |spells|
      invariant result == SpellGroups(r, k) + [PartialGroup(r, k, j)]
    {
      assert spells[..j + 1] == spells[..j] + [spells[j]];
      LeavesGrow(SlotNodes(r, k), spells[..j], spells[j]);
      AppendToLastOf(SpellGroups(r, k), PartialGroup(r, k, j), SpellLeaf(spells[j]));
      result := AppendToLast(result, SpellLeaf(spells[j]));
      j := j + 1;
    }
    assert spells[..|spells|] == spells;
  }

  lemma AppendToLastOf(nodes: seq<Node>, last: Node, child: Node)
    requires last.Element?
    ensures AppendToLast(nodes + [last], child) == nodes + [Element(last.tag, last.attributes, last.children + [child])]
  {
    assert (nodes + [last])[..|nodes|] == nodes;
  }

  lemma LeavesGrow(front: seq<Node>, names: seq<string>, name: string)
    ensures front + SpellLeaves(names) + [SpellLeaf(name)] == front + SpellLeaves(names + [name])
  {
    assert SpellLeaves(names + [name]) == SpellLeaves(names) + [SpellLeaf(name)];
  }

  /** What a reader finds on a plain field: its name and its text. */
  lemma FieldReads(name: string, text: string)
    ensures NameOf(Field(name, text)) == Some(name) && TextContent(Field(name, text)) == text
  {
    SingleText(text);
  }

  lemma SingleText(text: string)
    ensures Texts([Text(text)]) == text
  {
    assert [Text(text)][1..] == [];
    assert text + "" == text;
  }

  /** What a reader finds on a resource: its name, the `numberResource` type, its current value, and its maximum as text. */
  lemma ResourceReads(name: string, current: string, max: string)
    ensures var n := Resource(name, current, max);
            && NameOf(n) == Some(name) && Attr(n, "type") == Some("numberResource")
            && Attr(n, "currentValue") == Some(current) && TextContent(n) == max
  {
    var attributes := Resource(name, current, max).attributes;
    assert "name"[0] != "type"[0] && "name"[0] != "currentValue"[0] && "type"[0] != "currentValue"[0];
    var rest := attributes[1..];
    assert rest == [Attribute("type", "numberResource"), Attribute("currentValue", current)];
    assert rest[1..] == [Attribute("currentValue", current)];
    assert AttributeValue(rest[1..], "currentValue") == Some(current);
    assert AttributeValue(rest, "currentValue") == Some(current);
    assert AttributeValue(rest, "type") == Some("numberResource");
    SingleText(max);
  }

  /** `Find` skips a first node of another name. */
  lemma FindSkips(nodes: seq<Node>, name: string)
    requires |nodes| >= 2 && NameOf(nodes[0]) != Some(name) && NameOf(nodes[1]) == Some(name)
    ensures Find(nodes, name) == Some(nodes[1])
  {
    assert nodes[1..][0] == nodes[1];
  }

  // ----- Properties of the document -----

  /**
   * The document element `character` holds exactly two children: the data element named
   * `character`, and then the `chat-palette` element with the D&D 5e dice bot and the palette
   * text — a sibling of the data, not inside it.
   */
  lemma PaletteBesideData(r: CharacterRecord, palette: string)
    ensures var tree := CharacterTree(r, palette);
            && tree.Element? && tree.tag == "character" && |tree.children| == 2
            && NameOf(tree.children[0]) == Some("character")
            && tree.children[1].Element? && tree.children[1].tag == "chat-palette"
            && Attr(tree.children[1], "dicebot") == Some("DungeonsAndDragons5")
            && TextContent(tree.children[1]) == palette
  {
    SingleText(palette);
  }

  /** The character data holds the image, the common data and the detail, in that order. */
  lemma CharacterDataSections(r: CharacterRecord, palette: string)
    ensures var data := CharacterTree(r, palette).children[0];
            && |data.children| == 3
            && NameOf(data.children[0]) == Some("image")
            && NameOf(data.children[1]) == Some("common")
            && data.children[2] == DetailNode(r)
  {
  }

  /** The detail element's sections, in order. */
  lemma DetailSections(r: CharacterRecord)
    ensures var c := DetailNode(r).children;
            && |c| == 8
            && NameOf(c[0]) == Some("基本") && NameOf(c[1]) == Some("能力値")
            && NameOf(c[2]) == Some("能力値修正") && NameOf(c[3]) == Some("行動データ")
            && NameOf(c[4]) == Some("技能") && NameOf(c[5]) == Some("セーヴィングスロー")
            && NameOf(c[6]) == Some("特徴等") && c[7] == SpellNode(r) && NameOf(c[7]) == Some("呪文")
  {
  }

  /**
   * `呪文` holds one group per spell level lv0..lv9 in order, whether or not the level has a
   * spell; cantrips are grouped as `初級呪文`, the others as `lvK呪文`.
   */
  lemma SpellLevelsAllPresent(r: CharacterRecord)
    ensures var groups := SpellNode(r).children;
            && |groups| == 10
            && NameOf(groups[0]) == Some("初級呪文")
            && forall k :: 1 <= k < 10 ==> NameOf(groups[k]) == Some(LevelKey(k) + "呪文")
  {
  }

  /** The cantrip group holds only its spells, as leaves named after them, in list order. */
  lemma CantripGroup(r: CharacterRecord)
    ensures var group := SpellNode(r).children[0];
            && Names(group.children) == r.spells[0]
            && forall c :: c in group.children ==> c.Element? && c.children == [] && Attr(c, "type") == None
  {
    var group := SpellNode(r).children[0];
    assert group.children == SpellLeaves(r.spells[0]);
  }

  /**
   * Group k of levels 1..9 opens with a number resource named `lvK` whose current value and
   * text are both the level's slot count, followed by one leaf per spell in list order.
   */
  lemma LeveledGroup(r: CharacterRecord, k: nat)
    requires 1 <= k < 10
    ensures var group := SpellNode(r).children[k];
            && |group.children| == 1 + |r.spells[k]|
            && NameOf(group.children[0]) == Some(LevelKey(k))
            && Attr(group.children[0], "type") == Some("numberResource")
            && Attr(group.children[0], "currentValue") == Some(r.Slot(k))
            && TextContent(group.children[0]) == r.Slot(k)
            && Names(group.children[1..]) == r.spells[k]
  {
    var group := SpellNode(r).children[k];
    ResourceReads(LevelKey(k), r.Slot(k), r.Slot(k));
    assert group.children[1..] == SpellLeaves(r.spells[k]);
  }

  /**
   * An empty spell level still gets its group in the document, while the chat palette shows
   * no marker for it.
   */
  lemma EmptyLevelKept(r: CharacterRecord, k: nat)
    requires k < 10 && r.spells[k] == []
    ensures NameOf(SpellNode(r).children[k]) == Some(GroupName(k))
    ensures |SpellNode(r).children[k].children| == (if k == 0 then 0 else 1)
    ensures ChatPalette.LevelMarker(k) !in ChatPalette.PaletteLines(r)
  {
    ChatPalette.MarkerPresence(r.spells, 10, k);
    ChatPalette.MarkerOnlyInSpellList(r, k);
  }

  /** Hit points are a full gauge: the HP resource's current value and maximum are both the sheet's HP. */
  lemma HitPointsFull(r: CharacterRecord)
    ensures var hp := Find(ActionNode(r).children, "HP");
            && hp.Some?
            && Attr(hp.value, "type") == Some("numberResource")
            && Attr(hp.value, "currentValue") == Some(r.hp)
            && TextContent(hp.value) == r.hp
  {
    var c := ActionNode(r).children;
    FieldReads("AC", r.armorClass);
    ResourceReads("HP", r.hp, r.hp);
    assert "AC" != "HP";
    FindSkips(c, "HP");
  }

  /** Every modifier the document shows is the formatted stored value, denoting the same number. */
  lemma ModifiersFormatted(r: CharacterRecord)
    ensures forall i :: 0 <= i < 6 ==>
              TextContent(ModifierNode(r).children[i]) == ModifierValue(r.abilityBonus.Get(Abilities[i]))
              && ToNumber(TextContent(ModifierNode(r).children[i])) == ToNumber(r.abilityBonus.Get(Abilities[i]))
    ensures forall i :: 0 <= i < 6 ==>
              TextContent(SaveNode(r).children[i]) == ModifierValue(r.save.Get(Abilities[i]))
              && ToNumber(TextContent(SaveNode(r).children[i])) == ToNumber(r.save.Get(Abilities[i]))
    ensures forall i :: 0 <= i < 18 ==>
              TextContent(SkillNode(r).children[i]) == ModifierValue(r.skill.Get(Skills[i]))
              && ToNumber(TextContent(SkillNode(r).children[i])) == ToNumber(r.skill.Get(Skills[i]))
  {
    forall i | 0 <= i < 6
      ensures TextContent(ModifierNode(r).children[i]) == ModifierValue(r.abilityBonus.Get(Abilities[i]))
      ensures ToNumber(ModifierValue(r.abilityBonus.Get(Abilities[i]))) == ToNumber(r.abilityBonus.Get(Abilities[i]))
      ensures TextContent(SaveNode(r).children[i]) == ModifierValue(r.save.Get(Abilities[i]))
      ensures ToNumber(ModifierValue(r.save.Get(Abilities[i]))) == ToNumber(r.save.Get(Abilities[i]))
    {
      var a := Abilities[i];
      FieldReads(AbilityLabel(a) + "修正", ModifierValue(r.abilityBonus.Get(a)));
      FieldReads(AbilityLabel(a) + "セーヴ", ModifierValue(r.save.Get(a)));
      ModifierValueMeaning(r.abilityBonus.Get(a));
      ModifierValueMeaning(r.save.Get(a));
    }
    forall i | 0 <= i < 18
      ensures TextContent(SkillNode(r).children[i]) == ModifierValue(r.skill.Get(Skills[i]))
      ensures ToNumber(ModifierValue(r.skill.Get(Skills[i]))) == ToNumber(r.skill.Get(Skills[i]))
    {
      FieldReads(SkillLabel(Skills[i]), ModifierValue(r.skill.Get(Skills[i])));
      ModifierValueMeaning(r.skill.Get(Skills[i]));
    }
  }
}
