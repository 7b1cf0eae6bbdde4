/**
 * The settings store (frontend-svelte/src/lib/stores/settingsStore.ts). A
 * settings object is a record with one field per key of the `Settings`
 * interface; a `Partial<Settings>` is the same record with every field
 * optional, and the object spread `{...current, ...patch}` is `Merge`.
 * Local storage is the ghost field `saved`; `JSON.parse` is an abstract
 * function that yields a partial settings object, or fails.
 */
module SettingsValues {
  import opened Wrappers

  /** The `preset` field: one of the three presets, or `'custom'`. */
  datatype Preset = Balanced | Fast | Accurate | CustomPreset {
    function Key(): string {
      match this
      case Balanced => "balanced"
      case Fast => "fast"
      case Accurate => "accurate"
      case CustomPreset => "custom"
    }
  }

  /** The argument of `applyPreset`: a preset that has values. */
  type PresetName = p: Preset | !p.CustomPreset? witness Balanced

  /** The `character_preset` field: one of the characters, or `'custom'`. */
  datatype Character = NoCharacter | Samurai | Gal | Kansai | Cat | Moe | CustomCharacter {
    function Key(): string {
      match this
      case NoCharacter => "none"
      case Samurai => "samurai"
      case Gal => "gal"
      case Kansai => "kansai"
      case Cat => "cat"
      case Moe => "moe"
      case CustomCharacter => "custom"
    }
  }

  /** The argument of `applyCharacterPreset`: a character that has a prompt. */
  type CharacterName = c: Character | !c.CustomCharacter? witness NoCharacter

  datatype Theme = Light | Dark | Ocean | Sunset | Forest | Purple

  /**
   * The `Settings` interface. JavaScript numbers are reals; the optional
   * advanced parameters (`top_k?` … `mirostat_eta?`) are `Option`s.
   */
  datatype Settings = Settings(
    model: string,
    preset: Preset,
    useRag: bool,
    useHybridSearch: bool,
    queryExpansion: bool,
    temperature: real,
    topP: real,
    repeatPenalty: real,
    numPredict: real,
    documentCount: real,
    searchMultiplier: real,
    topK: Option<real>,
    numCtx: Option<real>,
    seed: Option<real>,
    mirostat: Option<real>,
    mirostatTau: Option<real>,
    mirostatEta: Option<real>,
    characterPreset: Character,
    systemPrompt: string,
    tags: seq<string>,
    theme: Theme,
    fontSize: real)

  /** `Partial<Settings>`: `None` is a key the object does not carry. */
  datatype Patch = Patch(
    model: Option<string>,
    preset: Option<Preset>,
    useRag: Option<bool>,
    useHybridSearch: Option<bool>,
    queryExpansion: Option<bool>,
    temperature: Option<real>,
    topP: Option<real>,
    repeatPenalty: Option<real>,
    numPredict: Option<real>,
    documentCount: Option<real>,
    searchMultiplier: Option<real>,
    topK: Option<real>,
    numCtx: Option<real>,
    seed: Option<real>,
    mirostat: Option<real>,
    mirostatTau: Option<real>,
    mirostatEta: Option<real>,
    characterPreset: Option<Character>,
    systemPrompt: Option<string>,
    tags: Option<seq<string>>,
    theme: Option<Theme>,
    fontSize: Option<real>)

  /** `{}`: the object with no keys. */
  const Empty := Patch(None, None, None, None, None, None, None, None, None, None, None,
                       None, None, None, None, None, None, None, None, None, None, None)

  /** The value a key ends up with after a spread: the patch's if it carries the key. */
  function Pick<T>(current: T, patch: Option<T>): T {
    if patch.Some? then patch.value else current
  }

  /** The same for a key that is optional in both objects. */
  function PickOpt<T>(current: Option<T>, patch: Option<T>): Option<T> {
    if patch.Some? then patch else current
  }

  /** `{...current, ...patch}`. */
  function Merge(current: Settings, patch: Patch): (r: Settings)
    ensures patch == Empty ==> r == current
  {
    Settings(
      Pick(current.model, patch.model),
      Pick(current.preset, patch.preset),
      Pick(current.useRag, patch.useRag),
      Pick(current.useHybridSearch, patch.useHybridSearch),
      Pick(current.queryExpansion, patch.queryExpansion),
      Pick(current.temperature, patch.temperature),
      Pick(current.topP, patch.topP),
      Pick(current.repeatPenalty, patch.repeatPenalty),
      Pick(current.numPredict, patch.numPredict),
      Pick(current.documentCount, patch.documentCount),
      Pick(current.searchMultiplier, patch.searchMultiplier),
      PickOpt(current.topK, patch.topK),
      PickOpt(current.numCtx, patch.numCtx),
      PickOpt(current.seed, patch.seed),
      PickOpt(current.mirostat, patch.mirostat),
      PickOpt(current.mirostatTau, patch.mirostatTau),
      PickOpt(current.mirostatEta, patch.mirostatEta),
      Pick(current.characterPreset, patch.characterPreset),
      Pick(current.systemPrompt, patch.systemPrompt),
      Pick(current.tags, patch.tags),
      Pick(current.theme, patch.theme),
      Pick(current.fontSize, patch.fontSize))
  }

  /** `{...p, ...q}` on two partial objects: a key of `q` wins over the same key of `p`. */
  function Combine(p: Patch, q: Patch): (r: Patch)
    ensures p == Empty ==> r == q
    ensures q == Empty ==> r == p
  {
    Patch(
      PickOpt(p.model, q.model),
      PickOpt(p.preset, q.preset),
      PickOpt(p.useRag, q.useRag),
      PickOpt(p.useHybridSearch, q.useHybridSearch),
      PickOpt(p.queryExpansion, q.queryExpansion),
      PickOpt(p.temperature, q.temperature),
      PickOpt(p.topP, q.topP),
      PickOpt(p.repeatPenalty, q.repeatPenalty),
      PickOpt(p.numPredict, q.numPredict),
      PickOpt(p.documentCount, q.documentCount),
      PickOpt(p.searchMultiplier, q.searchMultiplier),
      PickOpt(p.topK, q.topK),
      PickOpt(p.numCtx, q.numCtx),
      PickOpt(p.seed, q.seed),
      PickOpt(p.mirostat, q.mirostat),
      PickOpt(p.mirostatTau, q.mirostatTau),
      PickOpt(p.mirostatEta, q.mirostatEta),
      PickOpt(p.characterPreset, q.characterPreset),
      PickOpt(p.systemPrompt, q.systemPrompt),
      PickOpt(p.tags, q.tags),
      PickOpt(p.theme, q.theme),
      PickOpt(p.fontSize, q.fontSize))
  }

  /** The whole object as a partial object carrying every key it has. */
  function AsPatch(s: Settings): (r: Patch)
    ensures Merge(Defaults(), r) == s
  {
    Patch(Some(s.model), Some(s.preset), Some(s.useRag), Some(s.useHybridSearch), Some(s.queryExpansion),
          Some(s.temperature), Some(s.topP), Some(s.repeatPenalty), Some(s.numPredict),
          Some(s.documentCount), Some(s.searchMultiplier),
          s.topK, s.numCtx, s.seed, s.mirostat, s.mirostatTau, s.mirostatEta,
          Some(s.characterPreset), Some(s.systemPrompt), Some(s.tags), Some(s.theme), Some(s.fontSize))
  }

  /**
   * `update` semantics, key by key: the keys the patch carries take its
   * values, every other key keeps its old value.
   */
  lemma MergeOverrides(current: Settings, patch: Patch)
    ensures var r := Merge(current, patch);
      && (patch.model.Some? ==> r.model == patch.model.value) && (patch.model.None? ==> r.model == current.model)
      && (patch.preset.Some? ==> r.preset == patch.preset.value) && (patch.preset.None? ==> r.preset == current.preset)
      && (patch.useRag.Some? ==> r.useRag == patch.useRag.value) && (patch.useRag.None? ==> r.useRag == current.useRag)
      && (patch.useHybridSearch.Some? ==> r.useHybridSearch == patch.useHybridSearch.value) && (patch.useHybridSearch.None? ==> r.useHybridSearch == current.useHybridSearch)
      && (patch.queryExpansion.Some? ==> r.queryExpansion == patch.queryExpansion.value) && (patch.queryExpansion.None? ==> r.queryExpansion == current.queryExpansion)
      && (patch.temperature.Some? ==> r.temperature == patch.temperature.value) && (patch.temperature.None? ==> r.temperature == current.temperature)
      && (patch.topP.Some? ==> r.topP == patch.topP.value) && (patch.topP.None? ==> r.topP == current.topP)
      && (patch.repeatPenalty.Some? ==> r.repeatPenalty == patch.repeatPenalty.value) && (patch.repeatPenalty.None? ==> r.repeatPenalty == current.repeatPenalty)
      && (patch.numPredict.Some? ==> r.numPredict == patch.numPredict.value) && (patch.numPredict.None? ==> r.numPredict == current.numPredict)
      && (patch.documentCount.Some? ==> r.documentCount == patch.documentCount.value) && (patch.documentCount.None? ==> r.documentCount == current.documentCount)
      && (patch.searchMultiplier.Some? ==> r.searchMultiplier == patch.searchMultiplier.value) && (patch.searchMultiplier.None? ==> r.searchMultiplier == current.searchMultiplier)
      && (patch.characterPreset.Some? ==> r.characterPreset == patch.characterPreset.value) && (patch.characterPreset.None? ==> r.characterPreset == current.characterPreset)
      && (patch.systemPrompt.Some? ==> r.systemPrompt == patch.systemPrompt.value) && (patch.systemPrompt.None? ==> r.systemPrompt == current.systemPrompt)
      && (patch.tags.Some? ==> r.tags == patch.tags.value) && (patch.tags.None? ==> r.tags == current.tags)
      && (patch.theme.Some? ==> r.theme == patch.theme.value) && (patch.theme.None? ==> r.theme == current.theme)
      && (patch.fontSize.Some? ==> r.fontSize == patch.fontSize.value) && (patch.fontSize.None? ==> r.fontSize == current.fontSize)
      && (patch.topK.Some? ==> r.topK == patch.topK) && (patch.topK.None? ==> r.topK == current.topK)
      && (patch.numCtx.Some? ==> r.numCtx == patch.numCtx) && (patch.numCtx.None? ==> r.numCtx == current.numCtx)
      && (patch.seed.Some? ==> r.seed == patch.seed) && (patch.seed.None? ==> r.seed == current.seed)
      && (patch.mirostat.Some? ==> r.mirostat == patch.mirostat) && (patch.mirostat.None? ==> r.mirostat == current.mirostat)
      && (patch.mirostatTau.Some? ==> r.mirostatTau == patch.mirostatTau) && (patch.mirostatTau.None? ==> r.mirostatTau == current.mirostatTau)
      && (patch.mirostatEta.Some? ==> r.mirostatEta == patch.mirostatEta) && (patch.mirostatEta.None? ==> r.mirostatEta == current.mirostatEta)
  {
  }

  /**
   * Spreading a complete object over one without the optional keys gives that
   * object back (its absent optional keys stay absent).
   */
  lemma MergeWhole(current: Settings, s: Settings)
    requires current.topK.None? && current.numCtx.None? && current.seed.None?
    requires current.mirostat.None? && current.mirostatTau.None? && current.mirostatEta.None?
    ensures Merge(current, AsPatch(s)) == s
  {
  }

  /** Spreading the same partial object twice is the same as spreading it once. */
  lemma MergeIdempotent(current: Settings, patch: Patch)
    ensures Merge(Merge(current, patch), patch) == Merge(current, patch)
  {
  }

  /** Two spreads in a row are one spread of the combined partial object. */
  lemma MergeCombine(current: Settings, p: Patch, q: Patch)
    ensures Merge(Merge(current, p), q) == Merge(current, Combine(p, q))
  {
  }

  /** The six tuning values of a preset. */
  datatype Tuning = Tuning(
    temperature: real, topP: real, repeatPenalty: real,
    numPredict: real, documentCount: real, searchMultiplier: real)

  /** `presets[p]`. */
  function PresetValues(p: PresetName): (t: Tuning)
    ensures 0.0 < t.temperature < 1.0 && 0.0 < t.topP < 1.0 && 1.0 < t.repeatPenalty
    ensures t.documentCount == t.searchMultiplier
  {
    match p
    case Balanced => Tuning(0.3, 0.9, 1.1, 2048.0, 10.0, 10.0)
    case Fast => Tuning(0.2, 0.8, 1.2, 1024.0, 5.0, 5.0)
    case Accurate => Tuning(0.1, 0.95, 1.15, 4096.0, 15.0, 15.0)
  }

  /** The preset values as a partial object carrying exactly the six tuning keys. */
  function TuningPatch(t: Tuning): (r: Patch)
    ensures forall s :: TuningOf(Merge(s, r)) == t
    ensures r.preset.None? && r.characterPreset.None? && r.systemPrompt.None? && r.model.None?
  {
    Empty.(temperature := Some(t.temperature), topP := Some(t.topP), repeatPenalty := Some(t.repeatPenalty),
           numPredict := Some(t.numPredict), documentCount := Some(t.documentCount),
           searchMultiplier := Some(t.searchMultiplier))
  }

  /** The six tuning fields of a settings object. */
  function TuningOf(s: Settings): Tuning {
    Tuning(s.temperature, s.topP, s.repeatPenalty, s.numPredict, s.documentCount, s.searchMultiplier)
  }

  /** The system prompts of the characters. */
  const SamuraiPrompt := "あなたは江戸時代の侍です。古風で格調高い言葉遣いを使い、武士道の精神を重んじて回答してください。「～でござる」「～候」などの表現を使用してください。敬語を用いて、礼儀正しく接してください。"
  const GalPrompt := "あなたは明るく元気なギャルです。フレンドリーでカジュアルな口調で話してください。「～だよね」「マジで」「ヤバい」「超」などの若者言葉を使い、親しみやすく接してください。たまに「☆」「♪」などの記号も使ってOKです。"
  const KansaiPrompt := "あなたは関西人です。関西弁で親しみやすく話してください。「～やで」「～やん」「めっちゃ」「ほんま」「せやな」などの関西弁を積極的に使用してください。明るくて気さくな雰囲気で回答してください。"
  const CatPrompt := "あなたは人間の言葉を話せる猫です。「にゃ」「にゃん」「にゃー」などの語尾を使い、猫らしい自由気ままな性格で回答してください。時々気まぐれで、甘えたり、ツンデレな態度を見せたりしてください。"
  const MoePrompt := "あなたは可愛らしい萌え系キャラクターです。「～です♪」「～ですよ☆」「えへへ」「わぁ！」など、可愛らしい表現を使ってください。明るく元気で、少し天然な性格です。語尾に「♪」「☆」「♡」などの記号を使うこともあります。"

  /** `characterPresets[n]`: the system prompt of a character, empty for none. */
  function CharacterPrompt(n: CharacterName): (r: string)
    ensures r == "" <==> n == NoCharacter
  {
    match n
    case NoCharacter => ""
    case Samurai => SamuraiPrompt
    case Gal => GalPrompt
    case Kansai => KansaiPrompt
    case Cat => CatPrompt
    case Moe => MoePrompt
  }

  /** `defaultSettings`: fixed values around the spread of the balanced preset. */
  function Defaults(): (r: Settings)
    ensures r.preset == Balanced && TuningOf(r) == PresetValues(Balanced)
    ensures r.characterPreset == NoCharacter && r.systemPrompt == CharacterPrompt(NoCharacter)
    ensures r.topK.None? && r.numCtx.None? && r.seed.None? && r.mirostat.None? && r.mirostatTau.None? && r.mirostatEta.None?
  {
    var b := PresetValues(Balanced);
    Settings("", Balanced, true, true, false,
             b.temperature, b.topP, b.repeatPenalty, b.numPredict, b.documentCount, b.searchMultiplier,
             None, None, None, None, None, None,
             NoCharacter, "", [], Light, 16.0)
  }

  /** The defaults carry `preset 'balanced'`, exactly its values, no character and no prompt. */
  lemma DefaultsAreBalanced()
    ensures Defaults().preset == Balanced
    ensures TuningOf(Defaults()) == PresetValues(Balanced)
    ensures Defaults().characterPreset == NoCharacter && Defaults().systemPrompt == ""
    ensures Defaults().model == "" && Defaults().useRag && Defaults().useHybridSearch && !Defaults().queryExpansion
  {
  }

  /**
   * `loadSettings`: the stored keys over the defaults; the defaults alone when
   * nothing (or an empty string) is stored or parsing fails.
   */
  function LoadSettings(stored: Option<string>, parse: string -> Option<Patch>): (r: Settings)
    ensures stored.None? || stored == Some("") ==> r == Defaults()
    ensures stored.Some? && stored.value != "" && parse(stored.value).None? ==> r == Defaults()
  {
    if stored.None? || stored.value == "" then Defaults()
    else match parse(stored.value)
      case None => Defaults()
      case Some(parsed) => Merge(Defaults(), parsed)
  }

  /** A stored key overrides the default; a key missing from storage keeps the default. */
  lemma LoadedKeysOverrideDefaults(stored: string, parse: string -> Option<Patch>)
    requires stored != "" && parse(stored).Some?
    ensures var r := LoadSettings(Some(stored), parse);
      var p := parse(stored).value;
      && r == Merge(Defaults(), p)
      && (p.model.Some? ==> r.model == p.model.value)
      && (p.model.None? ==> r.model == Defaults().model)
      && (p.preset.None? ==> r.preset == Balanced)
      && (p.temperature.None? ==> r.temperature == PresetValues(Balanced).temperature)
      && (p == Empty ==> r == Defaults())
  {
  }

  /** What a stored complete object loads back as: itself. */
  lemma SaveLoadRoundTrip(s: Settings, stored: string, parse: string -> Option<Patch>)
    requires stored != "" && parse(stored) == Some(AsPatch(s))
    ensures LoadSettings(Some(stored), parse) == s
  {
    MergeWhole(Defaults(), s);
  }

  /** `applyPreset`: `{...current, preset: p, ...presets[p]}`. */
  function ApplyPreset(current: Settings, p: PresetName): (r: Settings)
    ensures r.preset == p && TuningOf(r) == PresetValues(p)
    ensures r == current.(preset := p, temperature := r.temperature, topP := r.topP,
                          repeatPenalty := r.repeatPenalty, numPredict := r.numPredict,
                          documentCount := r.documentCount, searchMultiplier := r.searchMultiplier)
  {
    Merge(Merge(current, Empty.(preset := Some(p))), TuningPatch(PresetValues(p)))
  }

  /** `applyCharacterPreset`: `{...current, character_preset: n, system_prompt: characterPresets[n]}`. */
  function ApplyCharacterPreset(current: Settings, n: CharacterName): (r: Settings)
    ensures r.characterPreset == n && r.systemPrompt == CharacterPrompt(n)
    ensures r == current.(characterPreset := n, systemPrompt := r.systemPrompt)
  {
    MergeCharacter(current, n, CharacterPrompt(n));
    Merge(current, Empty.(characterPreset := Some(n), systemPrompt := Some(CharacterPrompt(n))))
  }

  /** A patch with only the two character keys changes only those keys. */
  lemma MergeCharacter(current: Settings, n: CharacterName, prompt: string)
    ensures Merge(current, Empty.(characterPreset := Some(n), systemPrompt := Some(prompt)))
         == current.(characterPreset := n, systemPrompt := prompt)
  {
  }

  /** Applying a preset twice is the same as applying it once. */
  lemma ApplyPresetIdempotent(current: Settings, p: PresetName)
    ensures ApplyPreset(ApplyPreset(current, p), p) == ApplyPreset(current, p)
  {
  }

  /** Applying a character twice is the same as applying it once. */
  lemma ApplyCharacterIdempotent(current: Settings, n: CharacterName)
    ensures ApplyCharacterPreset(ApplyCharacterPreset(current, n), n) == ApplyCharacterPreset(current, n)
  {
  }

  /** The two kinds of preset touch disjoint keys, so their order does not matter. */
  lemma PresetsCommute(current: Settings, p: PresetName, n: CharacterName)
    ensures ApplyCharacterPreset(ApplyPreset(current, p), n) == ApplyPreset(ApplyCharacterPreset(current, n), p)
  {
  }

  /** Applying the balanced preset and the plain character to the defaults gives the defaults back. */
  lemma DefaultsAreFixedPoint()
    ensures ApplyPreset(Defaults(), Balanced) == Defaults()
    ensures ApplyCharacterPreset(Defaults(), NoCharacter) == Defaults()
  {
  }
}

/** The store object of frontend-svelte/src/lib/stores/settingsStore.ts. */
module SettingsStore {
  import opened Wrappers
  import opened SettingsValues

  /** The store object: the current settings and what was last written to local storage. */
  class Store {
    var settings: Settings
    ghost var saved: Option<Settings>

    /** The store starts from `loadSettings()`; nothing is written yet. */
    constructor(stored: Option<string>, parse: string -> Option<Patch>)
      ensures settings == LoadSettings(stored, parse) && saved.None?
    {
      settings := LoadSettings(stored, parse);
      saved := None;
    }

    /** `update`: the given keys over the current settings, then saved. */
    method Update(patch: Patch)
      modifies this
      ensures settings == Merge(old(settings), patch) && saved == Some(settings)
    {
      settings := Merge(settings, patch);
      saved := Some(settings);
    }

    /** `applyPreset`, then saved. */
    method ApplyPreset(p: PresetName)
      modifies this
      ensures settings == SettingsValues.ApplyPreset(old(settings), p) && saved == Some(settings)
    {
      settings := SettingsValues.ApplyPreset(settings, p);
      saved := Some(settings);
    }

    /** `applyCharacterPreset`, then saved. */
    method ApplyCharacterPreset(n: CharacterName)
      modifies this
      ensures settings == SettingsValues.ApplyCharacterPreset(old(settings), n) && saved == Some(settings)
    {
      settings := SettingsValues.ApplyCharacterPreset(settings, n);
      saved := Some(settings);
    }

    /** `reset`: back to the defaults, saved. */
    method Reset()
      modifies this
      ensures settings == Defaults() && saved == Some(Defaults())
    {
      settings := Defaults();
      saved := Some(settings);
    }
  }
}
