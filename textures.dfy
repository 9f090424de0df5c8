/** The texture configurator: the shared quality cursor, published to three
    subscribers in registration order: apply the texture settings, show the
    level's localized name, save the level under "Textures". */
module Textures {
  import opened Common
  import opened Cycle
  import opened Language
  import opened Localization
  import opened Graphics

  /** Texture resolutions, from full down to an eighth. */
  datatype TextureResolutionLevel = RES_FULL | RES_HALF | RES_QUAT | RES_EIGH

  /** The resolution's enum ordinal: the number of mip levels the engine skips. */
  function ResolutionOrdinal(resolution: TextureResolutionLevel): (limit: int)
    ensures 0 <= limit <= 3
    ensures limit == 0 <==> resolution == RES_FULL
  {
    match resolution
    case RES_FULL => 0
    case RES_HALF => 1
    case RES_QUAT => 2
    case RES_EIGH => 3
  }

  /** The texture parameters configured for one quality level. */
  datatype TextureProps = TextureProps(resolution: TextureResolutionLevel, filtering: AnisotropicFiltering)

  /** The key of this configurator's entry in the graphics settings file. */
  const TEXTURES_KEY := "Textures"

  class TextureConfigurator {
    const core: GraphicsConfiguratorBase
    const settings: QualitySettings
    const localizer: Localizer
    var possibleTextureProps: map<QualityLevel, TextureProps>
    /** The text of the quality label. */
    var qualityText: string
    /** Whether `Start` has run, registering the subscribers. */
    var started: bool
    /** Every level passed to `TextureQualityChanged`, in order. */
    ghost var published: seq<QualityLevel>

    ghost predicate Valid()
      reads this, core
    {
      core.Valid()
    }

    /** The outcome of publishing `level`: the table lookup of the apply step
        or the localizer lookup of the display step can throw, and a throw
        stops the remaining subscribers. */
    function PublishOutcome(level: QualityLevel): Outcome
      reads this, core, localizer
    {
      if level !in possibleTextureProps then Fail(KeyNotFound)
      else if localizer.GetLocalizedString(core.language, LevelName(level)).Err? then Fail(KeyNotFound)
      else Pass
    }

    /** Publishing `level` ran the subscribers in order, stopping at the first
        that threw: apply (texture limit and filtering from the table), display
        (localized level name), save (level stored under "Textures" and the
        whole dictionary written). */
    twostate predicate PublishedLevel(level: QualityLevel, outcome: Outcome)
      reads this, core, core.file, settings, localizer
    {
      && published == old(published) + [level]
      && outcome == PublishOutcome(level)
      && (level in possibleTextureProps ==>
            && settings.masterTextureLimit == ResolutionOrdinal(possibleTextureProps[level].resolution)
            && settings.anisotropicFiltering == possibleTextureProps[level].filtering)
      && (level !in possibleTextureProps ==>
            settings.masterTextureLimit == old(settings.masterTextureLimit) &&
            settings.anisotropicFiltering == old(settings.anisotropicFiltering))
      && (outcome.Pass? ==>
            && qualityText == localizer.GetLocalizedString(core.language, LevelName(level)).value
            && core.savedQualityLevels == old(core.savedQualityLevels)[TEXTURES_KEY := SavedQualityLevel(level)]
            && core.file.content == core.savedQualityLevels)
      && (outcome.Fail? ==>
            && qualityText == old(qualityText)
            && core.savedQualityLevels == old(core.savedQualityLevels)
            && core.file.content == old(core.file.content))
    }

    /** Nothing was published and no subscriber ran. */
    twostate predicate NothingPublished()
      reads this, core, core.file, settings
    {
      && published == old(published)
      && settings.masterTextureLimit == old(settings.masterTextureLimit)
      && settings.anisotropicFiltering == old(settings.anisotropicFiltering)
      && qualityText == old(qualityText)
      && core.savedQualityLevels == old(core.savedQualityLevels)
      && core.file.content == old(core.file.content)
    }

    /** The component as the scene creates it: the base `Awake` has run. */
    constructor Awake(possibleQualityConfigurations: seq<QualityLevel>,
                      file: ConfigFile<map<string, SavedQualityLevel>>,
                      settings: QualitySettings, localizer: Localizer)
      ensures Valid() && fresh(core) && !started
      ensures core.file == file && core.qualityLevelsList == possibleQualityConfigurations
      ensures core.currentQualityLevel == (if |possibleQualityConfigurations| == 0 then None else Some(0))
      ensures core.savedQualityLevels == file.content && core.language == LNG_RUSSIAN
      ensures this.settings == settings && this.localizer == localizer
      ensures possibleTextureProps == map[] && qualityText == "" && published == []
    {
      core := new GraphicsConfiguratorBase.Awake(possibleQualityConfigurations, file);
      this.settings, this.localizer := settings, localizer;
      possibleTextureProps, qualityText := map[], "";
      started, published := false, [];
    }

    /** Takes the texture table read from the configuration file, registers
        the subscribers and loads the level saved under "Textures". */
    method Start(textureProps: map<QualityLevel, TextureProps>) returns (outcome: Outcome)
      requires Valid() && !started
      modifies this, core`currentQualityLevel, core`savedQualityLevels, core.file,
               settings`masterTextureLimit, settings`anisotropicFiltering
      ensures Valid() && started && possibleTextureProps == textureProps
      ensures core.qualityLevelsList == old(core.qualityLevelsList)
      ensures TEXTURES_KEY !in old(core.savedQualityLevels) ==>
                outcome == Fail(KeyNotFound) && core.currentQualityLevel == old(core.currentQualityLevel) && NothingPublished()
      ensures TEXTURES_KEY in old(core.savedQualityLevels) ==>
                core.currentQualityLevel == FindLast(core.qualityLevelsList, old(core.savedQualityLevels)[TEXTURES_KEY].level)
      ensures TEXTURES_KEY in old(core.savedQualityLevels) && core.currentQualityLevel.None? ==>
                outcome == Fail(NullReference) && NothingPublished()
      ensures TEXTURES_KEY in old(core.savedQualityLevels) && core.currentQualityLevel.Some? ==>
                PublishedLevel(old(core.savedQualityLevels)[TEXTURES_KEY].level, outcome)
      ensures outcome.Pass? ==> core.savedQualityLevels == old(core.savedQualityLevels)
    {
      possibleTextureProps := textureProps;
      started := true;
      outcome := LoadQuality(TEXTURES_KEY);
    }

    /** Places the cursor from the saved dictionary, then publishes the level
        under it. */
    method LoadQuality(qualityType: string) returns (outcome: Outcome)
      requires Valid() && started
      modifies this, core`currentQualityLevel, core`savedQualityLevels, core.file,
               settings`masterTextureLimit, settings`anisotropicFiltering
      ensures Valid() && started && possibleTextureProps == old(possibleTextureProps)
      ensures core.qualityLevelsList == old(core.qualityLevelsList)
      ensures qualityType !in old(core.savedQualityLevels) ==>
                outcome == Fail(KeyNotFound) && core.currentQualityLevel == old(core.currentQualityLevel) && NothingPublished()
      ensures qualityType in old(core.savedQualityLevels) ==>
                core.currentQualityLevel == FindLast(core.qualityLevelsList, old(core.savedQualityLevels)[qualityType].level)
      ensures qualityType in old(core.savedQualityLevels) && core.currentQualityLevel.None? ==>
                outcome == Fail(NullReference) && NothingPublished()
      ensures qualityType in old(core.savedQualityLevels) && core.currentQualityLevel.Some? ==>
                PublishedLevel(old(core.savedQualityLevels)[qualityType].level, outcome)
    {
      outcome := core.LoadQuality(qualityType);
      if outcome.Fail? {
        return;
      }
      if core.currentQualityLevel.None? {
        outcome := Fail(NullReference);
        return;
      }
      outcome := TextureQualityChanged(core.qualityLevelsList[core.currentQualityLevel.value]);
    }

    /** Moves the cursor to the next level, wrapping from the last to the
        first, then publishes the new current level. */
    method IncreaseQuality() returns (outcome: Outcome)
      requires Valid() && started
      modifies this, core`currentQualityLevel, core`savedQualityLevels, core.file,
               settings`masterTextureLimit, settings`anisotropicFiltering
      ensures Valid() && started && possibleTextureProps == old(possibleTextureProps)
      ensures core.qualityLevelsList == old(core.qualityLevelsList)
      ensures old(core.currentQualityLevel).Some? ==>
                core.currentQualityLevel == Some(Next(old(core.currentQualityLevel).value, |core.qualityLevelsList|))
      ensures old(core.currentQualityLevel).None? ==> core.currentQualityLevel == None
      ensures core.currentQualityLevel.Some? ==>
                PublishedLevel(core.qualityLevelsList[core.currentQualityLevel.value], outcome)
      ensures core.currentQualityLevel.None? ==> outcome == Fail(NullReference) && NothingPublished()
    {
      outcome := core.IncreaseQuality();
      if outcome.Fail? {
        return;
      }
      if core.currentQualityLevel.None? {
        outcome := Fail(NullReference);
        return;
      }
      outcome := TextureQualityChanged(core.qualityLevelsList[core.currentQualityLevel.value]);
    }

    /** Moves the cursor to the previous level, wrapping from the first to the
        last, then publishes the new current level. */
    method DecreaseQuality() returns (outcome: Outcome)
      requires Valid() && started
      modifies this, core`currentQualityLevel, core`savedQualityLevels, core.file,
               settings`masterTextureLimit, settings`anisotropicFiltering
      ensures Valid() && started && possibleTextureProps == old(possibleTextureProps)
      ensures core.qualityLevelsList == old(core.qualityLevelsList)
      ensures old(core.currentQualityLevel).Some? ==>
                core.currentQualityLevel == Some(Prev(old(core.currentQualityLevel).value, |core.qualityLevelsList|))
      ensures old(core.currentQualityLevel).None? ==> core.currentQualityLevel == None
      ensures core.currentQualityLevel.Some? ==>
                PublishedLevel(core.qualityLevelsList[core.currentQualityLevel.value], outcome)
      ensures core.currentQualityLevel.None? ==> outcome == Fail(NullReference) && NothingPublished()
    {
      outcome := core.DecreaseQuality();
      if outcome.Fail? {
        return;
      }
      if core.currentQualityLevel.None? {
        outcome := Fail(NullReference);
        return;
      }
      outcome := TextureQualityChanged(core.qualityLevelsList[core.currentQualityLevel.value]);
    }

    /** The `TextureQualityChanged` event: calls the subscribers in the order
        `Start` registered them. */
    method TextureQualityChanged(newLevel: QualityLevel) returns (outcome: Outcome)
      requires Valid() && started
      modifies this, core`savedQualityLevels, core.file, settings`masterTextureLimit, settings`anisotropicFiltering
      ensures Valid() && started && possibleTextureProps == old(possibleTextureProps)
      ensures PublishedLevel(newLevel, outcome)
    {
      published := published + [newLevel];
      outcome := UpdateQuality(newLevel);
      if outcome.Fail? {
        return;
      }
      var text := localizer.GetLocalizedString(core.language, LevelName(newLevel));
      if text.Err? {
        outcome := Fail(text.error);
        return;
      }
      qualityText := text.value;
      core.SaveQuality(TEXTURES_KEY, newLevel);
    }

    /** Applies the texture parameters configured for `newLevel`; a level
        missing from the table throws. */
    method UpdateQuality(newLevel: QualityLevel) returns (outcome: Outcome)
      modifies settings`masterTextureLimit, settings`anisotropicFiltering
      ensures outcome.Pass? <==> newLevel in possibleTextureProps
      ensures outcome.Fail? ==> outcome.error == KeyNotFound && unchanged(settings)
      ensures outcome.Pass? ==>
                && settings.masterTextureLimit == ResolutionOrdinal(possibleTextureProps[newLevel].resolution)
                && settings.anisotropicFiltering == possibleTextureProps[newLevel].filtering
    {
      if newLevel !in possibleTextureProps {
        outcome := Fail(KeyNotFound);
        return;
      }
      var newProps := possibleTextureProps[newLevel];
      settings.masterTextureLimit := ResolutionOrdinal(newProps.resolution);
      settings.anisotropicFiltering := newProps.filtering;
      outcome := Pass;
    }
  }
}
