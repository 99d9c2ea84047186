# 5e character sheet to Udonarium exporter, modelled in Dafny

The exporter takes a character-sheet page for the fifth edition of the tabletop game and turns it into
a Udonarium character. It reads fixed table positions of the page into a character record, then builds
two things from that record: a chat palette, which is a line-oriented macro script, and a character XML
tree that holds the palette. Finally it makes a download file name from the character's name with
`contentDispositionFilename`.

The project models that core:

- `request.dfy` (module `Request`): the query parameters and the sheet-URL check made before any fetch.
- `js_text.dfy` (module `JsText`): the JavaScript string built-ins the code relies on: `trim`, a global one-class `replace`, and `join('\n')`. `SplitLines`, a model of `split('\n')`, is not used by the code; it is a reference inverse that states the round trip of `join`.
- `js_number.dfy` (module `JsNumber`): `Number(s)` on the integer grammar and `String(n)`.
- `modifier.dfy` (module `Modifier`): `modifierValue`.
- `sheet.dfy` (module `Sheet`): the character record, the ability and skill tables, and the spell-level keys.
- `extract.dfy` (module `Extract`): `readCharactorData`. The page is given as the raw text at each probe position.
- `chat_palette.dfy` (module `ChatPalette`): `createChatPalette`. It is an imperative method that pushes lines. It is proved equal to a specification built from structured lines (`PaletteLines`) rendered to text.
- `character_xml.dfy` (module `CharacterXml`): `createXML`. It is an imperative method that appends level groups and spell leaves in two loops. It is proved equal to a `Node` tree (`CharacterTree`). `AttributeValue`, `NameOf`, `Attr`, `Texts`, `TextContent`, `Names` and `Find` (with the lemmas `SingleText` and `FindSkips`) are reading helpers over the model tree; the code does not read its document back, and they exist only to state what the built tree holds.
- `filename.dfy` (module `Filename`): `contentDispositionFilename`. This covers control-character and mark replacement, UTF-8, and percent-encoding, together with a reference decoder.
- `seqs.dfy` and `wrappers.dfy`: `Array.prototype.filter`, and the `Option`/`Result` shapes.

Two behaviours of the code worth knowing:

- **XML spell groups.** The XML keeps a group for every level lv0–lv9, even an empty one, with its slot resource (lines 299-312); only the chat palette skips empty levels (line 377). `CharacterXml.EmptyLevelKept` states this.
- **Where the builder's nodes go.** Inside the loop, `root.up()` (line 311) is a discarded call with no effect. The `chat-palette` element is a child of `character`, next to `data[name=character]` (lines 313-314).

## Model

| member | source | states |
|---|---|---|
| Request.SimplePalette | backend/src/cleate5eUdonariumPc.ts:14 | computed-value mode is on exactly when the parameter is the literal `true` |
| Request.RollCommand | backend/src/cleate5eUdonariumPc.ts:15 | a missing `rollcommand` counts as the empty string; otherwise the given value is used |
| Request.IsSheetUrl | backend/src/cleate5eUdonariumPc.ts:21 | no contract of its own; `Request.SheetUrlMatch` proves it is exactly what the pattern accepts |
| Request.Matches | backend/src/cleate5eUdonariumPc.ts:21-22 | `pattern.test` on a pattern anchored at both ends; its meaning on the sheet pattern is `Request.SheetUrlMatch` (with `DigitsMatch` and `LiteralsMatch`) |
| Request.DigitsMatch | backend/src/cleate5eUdonariumPc.ts:21 | a trailing `\d+$` accepts exactly the non-empty strings of ASCII digits |
| Request.LiteralsMatch | backend/src/cleate5eUdonariumPc.ts:21 | a run of literal pattern characters matches exactly that text at the front of the input |
| Request.SheetUrlMatch | backend/src/cleate5eUdonariumPc.ts:21-22 | the anchored pattern accepts a URL iff it is the page address followed by one or more digits and nothing else |
| Request.ValidateUrl | backend/src/cleate5eUdonariumPc.ts:17-26 | the request goes on iff the URL is present and a sheet URL; a missing or empty URL is the "specify a URL" error; any other string is the "malformed URL" error |
| Request.SheetIdAccepted | backend/src/cleate5eUdonariumPc.ts:21-22 | every non-empty digit ID after the page address is accepted unchanged |
| Request.OtherUrlsRejected | backend/src/cleate5eUdonariumPc.ts:21-25 | the http scheme, a missing ID and trailing text after the ID are all rejected as malformed |
| JsText.Trim | backend/src/cleate5eUdonariumPc.ts:80 | `trim` leaves no white space at either end, never lengthens the text, and leaves trimmed text alone |
| JsText.TrimIsInfix | backend/src/cleate5eUdonariumPc.ts:80 | `trim` returns a slice `s[a..b]` of its input with only white space before `a` and after `b` |
| JsText.TrimEmpty | backend/src/cleate5eUdonariumPc.ts:158-159 | trimming gives the empty string iff the text is white space throughout, which is when a name cell counts as blank |
| JsText.ReplaceAll | backend/util/contentDispositionFilename.ts:3-4 | a global one-class `replace` keeps the length and replaces exactly the matching characters |
| JsText.JoinLines | backend/src/cleate5eUdonariumPc.ts:388 | no contract of its own; `JsText.JoinSplit` and `JsText.SplitJoin` prove that splitting its result at line breaks gives back lines that hold no line break |
| JsText.JoinSplit | backend/src/cleate5eUdonariumPc.ts:388 | splitting the joined palette at line breaks and joining again gives the text back |
| JsText.SplitJoin | backend/src/cleate5eUdonariumPc.ts:388 | lines without a line break are recovered from their `join('\n')` |
| JsNumber.ToNumber | backend/src/cleate5eUdonariumPc.ts:392 | no contract of its own; `JsNumber.NumeralReadsBack` gives its value on signed and unsigned numerals, `JsText.TrimEmpty` its value 0 on blank text, and `JsNumber.NumberToString` that it inverts `String` |
| JsNumber.Decimal | backend/src/cleate5eUdonariumPc.ts:395-396 | `String(n)` of a natural number is a canonical numeral whose value is `n` |
| JsNumber.DecimalOfValue | backend/src/cleate5eUdonariumPc.ts:395-396 | every canonical numeral is the one `String` prints for its value |
| JsNumber.NumeralReadsBack | backend/src/cleate5eUdonariumPc.ts:392 | `Number` of a signed or unsigned canonical numeral is the integer it spells |
| JsNumber.NumberToString | backend/src/cleate5eUdonariumPc.ts:395-396 | `String(n)` reads back through `Number` as `n` and starts with `-` exactly when `n` is negative |
| Modifier.ModifierValue | backend/src/cleate5eUdonariumPc.ts:391-397 | no contract of its own; `Modifier.ModifierValueMeaning`, `SignedModifierUnique` and `ModifierIdempotent` state what it promises |
| Modifier.SignedModifier | backend/src/cleate5eUdonariumPc.ts:394-396 | a number's display form is `+0` for zero, its own decimal form for a negative number and `+` before it otherwise; it is a signed modifier that reads back as the number, with a `-` exactly when the number is negative |
| Modifier.ModifierValueMeaning | backend/src/cleate5eUdonariumPc.ts:391-397 | `modifierValue` keeps the number its input denotes; a non-number passes through unchanged; a number comes out as a signed modifier with its own sign |
| Modifier.PlusZeroReadsBack | backend/src/cleate5eUdonariumPc.ts:394 | `+0` is a signed modifier that reads as 0 |
| Modifier.SignedModifierUnique | backend/src/cleate5eUdonariumPc.ts:394-396 | a signed modifier is exactly the display form of the number it denotes |
| Modifier.ModifierIdempotent | backend/src/cleate5eUdonariumPc.ts:391-397 | applying `modifierValue` twice is the same as applying it once |
| Modifier.BlankOrZeroShowsPlusZero | backend/src/cleate5eUdonariumPc.ts:392-394 | blank, white-space-only, `0` and `-0` all show as `+0` |
| Modifier.PositiveGainsPlus | backend/src/cleate5eUdonariumPc.ts:396 | `3` shows as `+3` and `+5` stays `+5` |
| Modifier.NegativeKeepsMinus | backend/src/cleate5eUdonariumPc.ts:395 | `-2` stays `-2` |
| Modifier.TextPassesThrough | backend/src/cleate5eUdonariumPc.ts:393 | a dice expression such as `d6` is returned unchanged |
| Seqs.Filter | backend/src/cleate5eUdonariumPc.ts:185 | `filter` keeps exactly the accepted elements and adds nothing |
| Seqs.FilterConcat | backend/src/cleate5eUdonariumPc.ts:185 | filtering distributes over concatenation, so survivors keep their order |
| Seqs.FilterKeepsAll | backend/src/cleate5eUdonariumPc.ts:185 | filtering a list that has no rejected element gives it back |
| Seqs.FilterEmpty | backend/src/cleate5eUdonariumPc.ts:185 | the filtered list is empty iff every element is rejected |
| Seqs.Somes | backend/src/cleate5eUdonariumPc.ts:156-167 | `filter(el => el)` over probe results keeps exactly the present values |
| Seqs.SomesConcat | backend/src/cleate5eUdonariumPc.ts:167 | collecting present values distributes over concatenation, so probe order is kept |
| Extract.CellText | backend/src/cleate5eUdonariumPc.ts:80-93 | every non-narrative field is the trimmed text at its position |
| Extract.ProbeAttack | backend/src/cleate5eUdonariumPc.ts:157-166 | an attack slot yields an attack iff its trimmed name is non-empty, and the attack carries that name |
| Extract.ReadAttacks | backend/src/cleate5eUdonariumPc.ts:156-167 | the attack list has at most six entries, each with a non-empty trimmed name, each the result of probing a slot |
| Extract.NamedSlotKept | backend/src/cleate5eUdonariumPc.ts:156-167 | a slot with a non-empty name is on the list |
| Extract.BlankAttackRowDropped | backend/src/cleate5eUdonariumPc.ts:158-159 | a blank-named slot is dropped whatever its other cells hold: changing them does not change the list |
| Extract.DenseAttacks | backend/src/cleate5eUdonariumPc.ts:156-167 | with the first n slots named and the rest blank, the list is exactly those n attacks in slot order |
| Extract.SomesDense | backend/src/cleate5eUdonariumPc.ts:167 | present values followed by absent ones are collected as exactly the present prefix |
| Extract.SpellCandidates | backend/src/cleate5eUdonariumPc.ts:185-194 | each level probes its fixed number of rows (10, 13, 13, 13, 11, 10, 10, 8, 7, 6), each read trimmed |
| Extract.ReadSpellLevel | backend/src/cleate5eUdonariumPc.ts:185-194 | a level's list holds exactly its non-empty trimmed candidates and no more entries than the level's probe count |
| Extract.SpellLevelEmpty | backend/src/cleate5eUdonariumPc.ts:185-194 | a level's list is empty iff every probed row of that level is blank |
| Extract.ReadSpells | backend/src/cleate5eUdonariumPc.ts:184-195 | level k of the spell lists is exactly the level-k list `ReadSpellLevel` reads |
| Extract.BonusText | backend/src/cleate5eUdonariumPc.ts:109-114 | an ability bonus is never empty: a blank cell becomes `0` and a filled cell is kept |
| Extract.ReadAbilities | backend/src/cleate5eUdonariumPc.ts:97-105 | each ability is read from its own cell, for the score and the saving-throw tables alike |
| Extract.BonusesRead | backend/src/cleate5eUdonariumPc.ts:108-116 | each of the six abilities gets the bonus read from its own cell |
| Extract.ReadAbilityBonuses | backend/src/cleate5eUdonariumPc.ts:108-116 | no contract of its own; `Extract.BonusesRead` ties each ability to its own `BonusText` |
| Extract.ReadSkills | backend/src/cleate5eUdonariumPc.ts:132-152 | no contract of its own; `Extract.SkillsRead` ties each skill to its own cell |
| Extract.SkillsRead | backend/src/cleate5eUdonariumPc.ts:132-152 | each of the eighteen skills is read from its own cell |
| Extract.ReadCharacterData | backend/src/cleate5eUdonariumPc.ts:77-207 | the record satisfies every extraction bound and carries the trimmed title as name, the attack list, each level's spell list and each ability's bonus as read |
| Sheet.LevelKey | backend/src/cleate5eUdonariumPc.ts:184-195 | the key of spell level k is `lv` followed by the digit k |
| ChatPalette.SelectRollTokens | backend/src/cleate5eUdonariumPc.ts:322-323 | `default` selects `1d20` for both rolls; any other value selects `AT` for attacks and `AR` for checks |
| ChatPalette.AttackLines | backend/src/cleate5eUdonariumPc.ts:331-335 | the attack section has two lines per attack |
| ChatPalette.Checks | backend/src/cleate5eUdonariumPc.ts:337-366 | the palette has thirty checks: six ability checks, six saving throws and eighteen skills |
| ChatPalette.Render | backend/src/cleate5eUdonariumPc.ts:326-379 | no contract of its own; `ChatPalette.ChecksFollowToggle`, `RenderIgnoresMode` and `SpellLineSingle` state how the mode and the roll tokens affect a line |
| ChatPalette.PaletteLines | backend/src/cleate5eUdonariumPc.ts:325-387 | no contract of its own; `ChatPalette.PaletteLayout`, `PaletteAttacks`, `CheckLineInPalette` and `SpellSectionPresence` give its layout |
| ChatPalette.PaletteText | backend/src/cleate5eUdonariumPc.ts:320-389 | no contract of its own; `ChatPalette.PlaceholderModeIgnoresValues` and `ComputedModeReadsModifiers` state what the text depends on, and `JsText.SplitJoin` with `SpellListSingleLines` that its lines come back from a split |
| ChatPalette.CreateChatPalette | backend/src/cleate5eUdonariumPc.ts:320-389 | the text the method builds is the specified palette joined with line breaks |
| ChatPalette.CollectHeader | backend/src/cleate5eUdonariumPc.ts:326-329 | the four header lines are the rendered title, summary, proficiency and initiative lines |
| ChatPalette.CollectAttackLines | backend/src/cleate5eUdonariumPc.ts:331-335 | the `reduce` over attacks pushes each attack's roll line and damage line, in list order |
| ChatPalette.CheckSection | backend/src/cleate5eUdonariumPc.ts:337-366 | each check section is its checks rendered one line each, in table order |
| ChatPalette.CollectSpellSection | backend/src/cleate5eUdonariumPc.ts:369-387 | the spells part is the four spell header lines and the spell list when the list is non-empty, and nothing otherwise |
| ChatPalette.CollectSpellList | backend/src/cleate5eUdonariumPc.ts:375-382 | the `reduce` over levels pushes a marker and the spell names for each non-empty level |
| ChatPalette.RenderLinesConcat | backend/src/cleate5eUdonariumPc.ts:331 | rendering distributes over concatenation, as `concat` does |
| ChatPalette.RenderAssemble | backend/src/cleate5eUdonariumPc.ts:325-368 | the rendered palette is the rendered sections with their literal headings between them |
| ChatPalette.AttackLinesAt | backend/src/cleate5eUdonariumPc.ts:331-335 | attack i gives lines 2i (roll) and 2i+1 (damage) of the attack section |
| ChatPalette.AssembleLayout | backend/src/cleate5eUdonariumPc.ts:325-368 | an assembled palette has 40 lines plus its attack and spell lines, each section at a fixed offset |
| ChatPalette.PaletteLayout | backend/src/cleate5eUdonariumPc.ts:325-368 | a palette has 40 + 2·attacks lines before the spells, in fixed order: header, attacks, 6 ability, 6 save, 18 skill, the closing heading and a blank line |
| ChatPalette.AssembleAttackAt | backend/src/cleate5eUdonariumPc.ts:331-335 | in any assembled palette, attack i is at lines 5+2i and 6+2i |
| ChatPalette.PaletteAttacks | backend/src/cleate5eUdonariumPc.ts:326-335 | the palette opens with the title line, and attack i gives lines 5+2i and 6+2i |
| ChatPalette.AssembleCheckAt | backend/src/cleate5eUdonariumPc.ts:337-366 | in any assembled palette, check i of the thirty is at `CheckIndex` |
| ChatPalette.CheckLineInPalette | backend/src/cleate5eUdonariumPc.ts:337-366 | check i of the thirty is the palette line at `CheckIndex` |
| ChatPalette.ChecksFollowToggle | backend/src/cleate5eUdonariumPc.ts:339-366 | every check line shows `modifierValue` of the stored value in computed mode and the `{…}` placeholder otherwise, never a mix |
| ChatPalette.RenderIgnoresMode | backend/src/cleate5eUdonariumPc.ts:326-387 | only check lines depend on the mode flag |
| ChatPalette.PlaceholderLinesIgnoreValues | backend/src/cleate5eUdonariumPc.ts:339-366 | placeholder-mode check lines do not depend on the stored values |
| ChatPalette.ComputedLinesReadModifiers | backend/src/cleate5eUdonariumPc.ts:339-366 | computed-mode check lines depend only on the formatted values |
| ChatPalette.SameChecksSameText | backend/src/cleate5eUdonariumPc.ts:325-368 | records that agree on everything but their check lines, whose rendering also agrees, give the same palette lines |
| ChatPalette.PlaceholderModeIgnoresValues | backend/src/cleate5eUdonariumPc.ts:339-366 | in placeholder mode, changing bonuses, saves and skills leaves the palette text unchanged |
| ChatPalette.ComputedModeReadsModifiers | backend/src/cleate5eUdonariumPc.ts:339-366 | in computed mode, values that format the same (such as `2` and `+2`) give the same palette text |
| ChatPalette.SpellListEmpty | backend/src/cleate5eUdonariumPc.ts:375-382 | the spell list is empty iff every level is empty |
| ChatPalette.MarkerPresence | backend/src/cleate5eUdonariumPc.ts:377-378 | level k's marker is in the spell list iff level k has a spell |
| ChatPalette.MarkerOnlyInSpellList | backend/src/cleate5eUdonariumPc.ts:325-387 | a level marker is in the palette iff it is in the spell list |
| ChatPalette.AttackLinesNoMarker | backend/src/cleate5eUdonariumPc.ts:331-335 | attack lines are never level markers |
| ChatPalette.AssembleMarker | backend/src/cleate5eUdonariumPc.ts:325-387 | when no fixed section holds a marker, the assembled palette holds one iff its spells part does |
| ChatPalette.SpellSectionPresence | backend/src/cleate5eUdonariumPc.ts:383-387 | the palette goes on past line 40 + 2·attacks iff some level has a spell, and then holds the four spell header lines followed by the spell list |
| ChatPalette.AssembleTail | backend/src/cleate5eUdonariumPc.ts:383-387 | the spells part of an assembled palette is its tail after the fixed sections |
| ChatPalette.SpellListKinds | backend/src/cleate5eUdonariumPc.ts:375-382 | every spell-list line is a level marker or a spell name |
| ChatPalette.SpellLineSingle | backend/src/cleate5eUdonariumPc.ts:378-379 | a marker line or a spell-name line holds no line break once rendered |
| ChatPalette.SpellListSingleLines | backend/src/cleate5eUdonariumPc.ts:379 | after `replace(/\n/g, " ")` no rendered spell-list line contains a line break |
| CharacterXml.CharacterTree | backend/src/cleate5eUdonariumPc.ts:210-314 | no contract of its own; `CharacterXml.PaletteBesideData`, `CharacterDataSections`, `DetailSections` and the spell-group lemmas give its shape |
| CharacterXml.CreateXml | backend/src/cleate5eUdonariumPc.ts:210-317 | the document the builder produces is the specified character tree |
| CharacterXml.AddSpellGroups | backend/src/cleate5eUdonariumPc.ts:299-312 | the `forEach` over levels appends exactly the ten spell groups, lv0 to lv9 |
| CharacterXml.AddSpellLeaves | backend/src/cleate5eUdonariumPc.ts:308-310 | the inner `forEach` completes the current level's group with one leaf per spell, in order |
| CharacterXml.AppendToLast | backend/src/cleate5eUdonariumPc.ts:306-309 | no contract of its own; `CharacterXml.AppendToLastOf` states that only the last group gains the child |
| CharacterXml.AppendToLastOf | backend/src/cleate5eUdonariumPc.ts:306-309 | `root.last().ele(…)` adds the child at the end of the last group and changes nothing else |
| CharacterXml.LeavesGrow | backend/src/cleate5eUdonariumPc.ts:308-310 | appending one more spell leaf gives the leaves of the longer spell list |
| CharacterXml.FieldReads | backend/src/cleate5eUdonariumPc.ts:218-295 | a `data` field carries its name and exactly its text |
| CharacterXml.ResourceReads | backend/src/cleate5eUdonariumPc.ts:247-250 | a resource carries its name, the `numberResource` type, its current value and its maximum as text |
| CharacterXml.PaletteBesideData | backend/src/cleate5eUdonariumPc.ts:212-314 | `character` has exactly two children: `data[name=character]` and `chat-palette` (dicebot `DungeonsAndDragons5`), whose text is the palette |
| CharacterXml.CharacterDataSections | backend/src/cleate5eUdonariumPc.ts:213-221 | `data[name=character]` holds image, common and detail, in that order |
| CharacterXml.DetailSections | backend/src/cleate5eUdonariumPc.ts:221-297 | detail holds its eight sections in source order, ending with `呪文` |
| CharacterXml.SpellLevelsAllPresent | backend/src/cleate5eUdonariumPc.ts:299-307 | `呪文` has exactly ten groups: `初級呪文`, then `lv1呪文` to `lv9呪文` |
| CharacterXml.CantripGroup | backend/src/cleate5eUdonariumPc.ts:301-302 | the lv0 group has no resource, and its children are bare leaves named after the cantrips, in order |
| CharacterXml.LeveledGroup | backend/src/cleate5eUdonariumPc.ts:303-310 | a lv1–lv9 group opens with a `numberResource` named after the level, whose currentValue and text are both the slot string; its spell leaves follow in order |
| CharacterXml.EmptyLevelKept | backend/src/cleate5eUdonariumPc.ts:299-312 | an empty level still gets its group in the XML, with its slot resource, while the palette has no marker for it |
| CharacterXml.HitPointsFull | backend/src/cleate5eUdonariumPc.ts:247 | the HP resource starts full: currentValue equals its text, and both are the sheet's HP |
| CharacterXml.ModifiersFormatted | backend/src/cleate5eUdonariumPc.ts:237-285 | every modifier, skill and save field shows `modifierValue` of its stored value and denotes the same number |
| Filename.Clean | backend/util/contentDispositionFilename.ts:3-4 | cleaning keeps the length; each control character and each of `"` `;` `\` `/` becomes `_`; every other character is unchanged |
| Filename.CleanRemovesUnsafe | backend/util/contentDispositionFilename.ts:3-4 | no control character or unsafe mark survives cleaning |
| Filename.CleanIdempotent | backend/util/contentDispositionFilename.ts:3-4 | cleaning twice is cleaning once |
| Filename.Utf8 | backend/util/contentDispositionFilename.ts:5 | a character encodes to one to four bytes, one exactly for ASCII, with continuation bytes after the first |
| Filename.DecodeOneUtf8 | backend/util/contentDispositionFilename.ts:5 | the decoder reads back each encoded character with its byte count, whatever follows |
| Filename.DecodeTwo | backend/util/contentDispositionFilename.ts:5 | two-byte sequences decode back to their character |
| Filename.DecodeThree | backend/util/contentDispositionFilename.ts:5 | three-byte sequences decode back to their character |
| Filename.DecodeFour | backend/util/contentDispositionFilename.ts:5 | four-byte sequences decode back to their character |
| Filename.Utf8RoundTrip | backend/util/contentDispositionFilename.ts:5 | UTF-8 decoding undoes UTF-8 encoding |
| Filename.HexDigit | backend/util/contentDispositionFilename.ts:5 | escapes use upper-case hexadecimal digits that read back as their value |
| Filename.PercentBytesChars | backend/util/contentDispositionFilename.ts:5 | escaping n bytes gives 3n characters: for byte i, `%` at 3i and the byte's two upper-case hexadecimal digits after it; no other character occurs |
| Filename.EncodedAlphabet | backend/util/contentDispositionFilename.ts:5 | the output uses only `A–Z a–z 0–9 - _ . ! ~ * ' ( )`, `%` and upper-case hexadecimal digits |
| Filename.UnreservedUnchanged | backend/util/contentDispositionFilename.ts:5 | a string of unreserved characters is returned unchanged |
| Filename.PercentBytesDecode | backend/util/contentDispositionFilename.ts:5 | percent-decoding escaped bytes gives those bytes back |
| Filename.PercentDecodeEncode | backend/util/contentDispositionFilename.ts:5 | percent-decoding the encoded text gives the UTF-8 bytes of the original |
| Filename.EncodeUriComponent | backend/util/contentDispositionFilename.ts:5 | no contract of its own; `Filename.UriComponentRoundTrip`, `EncodedAlphabet` and `UnreservedUnchanged` state what it promises |
| Filename.UriComponentRoundTrip | backend/util/contentDispositionFilename.ts:5 | `decodeURIComponent(encodeURIComponent(s))` is `s` |
| Filename.ContentDispositionFilename | backend/util/contentDispositionFilename.ts:1-7 | no contract of its own; `Filename.FilenameDecodes`, `HeaderSafe` and `EncodingInjective` state what it promises |
| Filename.FilenameDecodes | backend/util/contentDispositionFilename.ts:1-7 | the file name is made of encoded-alphabet characters and decodes to the cleaned name |
| Filename.HeaderSafe | backend/util/contentDispositionFilename.ts:1-7 | the file name has no quote, semicolon, backslash, slash, space or control character |
| Filename.EncodingInjective | backend/util/contentDispositionFilename.ts:1-7 | names with equal file names have equal cleaned forms |
| Filename.MarksExample | backend/util/contentDispositionFilename.ts:4 | `a/b\c"d;e` becomes `a_b_c_d_e` |
| Filename.MarksCleaned | backend/util/contentDispositionFilename.ts:3-4 | cleaning `a/b\c"d;e` gives `a_b_c_d_e` |
| Filename.UnderscoredKept | backend/util/contentDispositionFilename.ts:5 | `a_b_c_d_e` is encoded unchanged |
| Filename.EscapeExample | backend/util/contentDispositionFilename.ts:5 | a space and `キ` become `%20%E3%82%AD` |
| Filename.SpaceEscaped | backend/util/contentDispositionFilename.ts:5 | a space becomes `%20` |
| Filename.KatakanaEscaped | backend/util/contentDispositionFilename.ts:5 | `キ` becomes its three UTF-8 bytes escaped |

## Left out

- The Express server, routing, CORS and dotenv set-up (`backend/index.ts`) are I/O plumbing.
- The HTTP fetch of the sheet and the Shift-JIS decoding (lines 27-33) are network I/O and a foreign codec. The model starts from the decoded page.
- cheerio's selector evaluation (lines 78-204) is a foreign library. The page is the text found at each probe position (`Extract.Page`), and an absent position reads as empty. The CSS selectors themselves are not modelled.
- xmlbuilder2's serialisation, escaping, pretty-printing and XML declaration (lines 211 and 316) are not modelled. The model stops at the tree.
- Zip creation, streaming and the response headers (lines 41-60) are a foreign codec and streams. Two things there are not modelled:
  - The `filename*=` value at line 55 is quoted, which section 3.2 of RFC 5987 does not allow for an ext-value.
  - The zip entry name at line 50 uses the unsanitised name.
- `try`/`catch`, logging and the 500 response (lines 62-65) are not modelled, because every modelled operation is total.
- Modifier.ModifierValue: `Number` is modelled on the integer grammar only. That grammar is optional white space, an optional sign and decimal digits; empty input is 0 and anything else is NaN. Fractions, exponents, hexadecimal, `Infinity`, the 2^53 precision limit and the exponent form `String` uses from 1e21 are floating point and are left out.
- Array-valued query parameters (`?url=a&url=b`) are left out. The model takes each parameter as a single string or absent.
- Filename.EncodeUriComponent: Dafny strings hold only Unicode scalar values, so the `URIError` that `encodeURIComponent` throws on a lone surrogate cannot arise and is not modelled.
- Filename.DecodeUriComponent: this is a reference decoder used to state the round trip. It decodes a literal character as its own UTF-8 bytes. JavaScript decodes each escape run separately, so the two can differ on inputs the encoder never produces.
- The import path at line 8 names `./contentDispositionFilename`, but the file lives in `backend/util/`. That is a build matter, not behaviour.
- Source key names: the sheet's `flows` entry is the record field `flaws`, and `etc` is `otherProficiencies`. The image URL (line 81) is carried in the record but not used by the modelled outputs.
