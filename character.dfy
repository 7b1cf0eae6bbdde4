/**
 * The assistant's display name (frontend-svelte/src/lib/utils/character.ts):
 * the table of character labels and the name shown above an answer.
 */
module Character {
  import opened Wrappers
  import opened Text
  import SettingsValues

  const Assistant := "アシスタント"

  /**
   * `characterNames[key]` for the keys of the table; `None` for any other
   * key (JavaScript yields `undefined` there).
   */
  function CharacterLabel(key: string): (r: Option<string>)
    ensures key == "none" ==> r == Some("")
    ensures r.Some? && r.value == "" ==> key == "none"
  {
    if key == "none" then Some("")
    else if key == "samurai" then Some("侍")
    else if key == "gal" then Some("ギャル")
    else if key == "kansai" then Some("関西人")
    else if key == "cat" then Some("猫")
    else if key == "moe" then Some("萌えキャラ")
    else None
  }

  /** The display name when the label is `name`: `アシスタント（name）`. */
  function Decorated(name: string): (r: string)
    ensures |r| == |Assistant| + |name| + 2
    ensures r[..|Assistant|] == Assistant && r[|Assistant|] == '（' && r[|r| - 1] == '）'
  {
    Assistant + "（" + name + "）"
  }

  /**
   * `getAssistantDisplayName`: the plain name for an absent, empty or `'none'`
   * preset and for a key without a label, otherwise the name with the label.
   */
  function AssistantDisplayName(characterPreset: Option<string>): (r: string)
    ensures StartsWith(r, Assistant)
    ensures characterPreset.None? || characterPreset == Some("") || characterPreset == Some("none") ==> r == Assistant
    ensures characterPreset.Some? && CharacterLabel(characterPreset.value).None? ==> r == Assistant
    ensures characterPreset.Some? && CharacterLabel(characterPreset.value).Some? && characterPreset.value != "none"
            ==> r == Decorated(CharacterLabel(characterPreset.value).value)
  {
    if characterPreset.None? || characterPreset.value == "" || characterPreset.value == "none" then Assistant
    else
      var name := CharacterLabel(characterPreset.value).GetOr("");
      if name != "" then Decorated(name) else Assistant
  }

  /** The label of each character the settings offer. */
  function LabelOf(c: SettingsValues.CharacterName): (r: string)
    ensures r == "" <==> c == SettingsValues.NoCharacter
  {
    match c
    case NoCharacter => ""
    case Samurai => "侍"
    case Gal => "ギャル"
    case Kansai => "関西人"
    case Cat => "猫"
    case Moe => "萌えキャラ"
  }

  /** Every character of the settings store has a label, and the display name shows it. */
  lemma SettingsCharactersAreNamed(c: SettingsValues.CharacterName)
    ensures CharacterLabel(c.Key()) == Some(LabelOf(c))
    ensures AssistantDisplayName(Some(c.Key())) == if c == SettingsValues.NoCharacter then Assistant else Decorated(LabelOf(c))
  {
  }

  /** The label can be read back from a decorated name. */
  lemma DecoratedLabel(name: string)
    ensures var r := Decorated(name); |r| == |Assistant| + |name| + 2 && r[|Assistant| + 1..|r| - 1] == name
  {
    var r := Decorated(name);
    assert r == Assistant + ("（" + name + "）");
  }

  /** Different characters are shown under different names. */
  lemma DisplayNamesDiffer(a: SettingsValues.CharacterName, b: SettingsValues.CharacterName)
    requires a != b
    ensures AssistantDisplayName(Some(a.Key())) != AssistantDisplayName(Some(b.Key()))
  {
    SettingsCharactersAreNamed(a);
    SettingsCharactersAreNamed(b);
    DecoratedLabel(LabelOf(a));
    DecoratedLabel(LabelOf(b));
    if a != SettingsValues.NoCharacter && b != SettingsValues.NoCharacter {
      assert LabelOf(a) != LabelOf(b);
    } else if a == SettingsValues.NoCharacter {
      assert |Decorated(LabelOf(b))| > |Assistant|;
    } else {
      assert |Decorated(LabelOf(a))| > |Assistant|;
    }
  }
}
