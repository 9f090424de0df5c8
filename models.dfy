/** The model configurator: the shared quality cursor, published to its
    subscribers in registration order: apply the anti-aliasing and level of
    detail settings, then save the level under "Models". */
module Models {
  import opened Common
  import opened Cycle
  import opened Language
  import opened Graphics

  /** Multisample anti-aliasing levels. */
  datatype AntiAliasingLevel = NO_MSAA | MSAA_2X | MSAA_4X | MSAA_8X

  /** The level's enum value: the number of samples per pixel, 0 for none. */
  function AntiAliasingOrdinal(level: AntiAliasingLevel): (samples: int)
    ensures samples in {0, 2, 4, 8}
    ensures samples == 0 <==> level == NO_MSAA
  {
    match level
    case NO_MSAA => 0
    case MSAA_2X => 2
    case MSAA_4X => 4
    case MSAA_8X => 8
  }

  /** The model parameters configured for one quality level; the level of
      detail bias is only copied, never computed with. */
  datatype ModelsProps = ModelsProps(msaaLevel: AntiAliasingLevel, lodBias: real, maxLODLevel: int)

  /** The key of this configurator's entry in the graphics settings file. */
  const MODELS_KEY := "Models"

  class ModelConfigurator {
    const core: GraphicsConfiguratorBase
    const settings: QualitySettings
    var possibleModelsProps: map<QualityLevel, ModelsProps>
    /** Whether `Start` has run, registering the subscribers. */
    var started: bool
    /** Every level passed to `ModelsQualityChanged`, in order. */
    ghost var published: seq<QualityLevel>

    ghost predicate Valid()
      reads this, core
    {
      core.Valid()
    }

    /** Publishing `level` ran the apply step (three settings from the table,
        which throws for a level it lacks) and, only when that succeeded, the
        save step (level stored under "Models", whole dictionary written). */
    twostate predicate PublishedLevel(level: QualityLevel, outcome: Outcome)
      reads this, core, core.file, settings
    {
      && published == old(published) + [level]
      && (outcome.Pass? <==> level in possibleModelsProps)
      && (outcome.Fail? ==> outcome.error == KeyNotFound)
      && (outcome.Pass? ==>
            && settings.antiAliasing == AntiAliasingOrdinal(possibleModelsProps[level].msaaLevel)
            && settings.lodBias == possibleModelsProps[level].lodBias
            && settings.maximumLODLevel == possibleModelsProps[level].maxLODLevel
            && core.savedQualityLevels == old(core.savedQualityLevels)[MODELS_KEY := SavedQualityLevel(level)]
            && core.file.content == core.savedQualityLevels)
      && (outcome.Fail? ==>
            && settings.antiAliasing == old(settings.antiAliasing)
            && settings.lodBias == old(settings.lodBias)
            && settings.maximumLODLevel == old(settings.maximumLODLevel)
            && core.savedQualityLevels == old(core.savedQualityLevels)
            && core.file.content == old(core.file.content))
    }

    /** Nothing was published and no subscriber ran. */
    twostate predicate NothingPublished()
      reads this, core, core.file, settings
    {
      && published == old(published)
      && settings.antiAliasing == old(settings.antiAliasing)
      && settings.lodBias == old(settings.lodBias)
      && settings.maximumLODLevel == old(settings.maximumLODLevel)
      && core.savedQualityLevels == old(core.savedQualityLevels)
      && core.file.content == old(core.file.content)
    }

    /** The component as the scene creates it: the base `Awake` has run. */
    constructor Awake(possibleQualityConfigurations: seq<QualityLevel>,
                      file: ConfigFile<map<string, SavedQualityLevel>>, settings: QualitySettings)
      ensures Valid() && fresh(core) && !started
      ensures core.file == file && core.qualityLevelsList == possibleQualityConfigurations
      ensures core.currentQualityLevel == (if |possibleQualityConfigurations| == 0 then None else Some(0))
      ensures core.savedQualityLevels == file.content && core.language == LNG_RUSSIAN
      ensures this.settings == settings && possibleModelsProps == map[] && published == []
    {
      core := new GraphicsConfiguratorBase.Awake(possibleQualityConfigurations, file);
      this.settings := settings;
      possibleModelsProps := map[];
      started, published := false, [];
    }

    /** Takes the model table read from the configuration file, registers the
        subscribers and loads the level saved under "Models". */
    method Start(modelsProps: map<QualityLevel, ModelsProps>) returns (outcome: Outcome)
      requires Valid() && !started
      modifies this, core`currentQualityLevel, core`savedQualityLevels, core.file,
               settings`antiAliasing, settings`lodBias, settings`maximumLODLevel
      ensures Valid() && started && possibleModelsProps == modelsProps
      ensures core.qualityLevelsList == old(core.qualityLevelsList)
      ensures MODELS_KEY !in old(core.savedQualityLevels) ==>
                outcome == Fail(KeyNotFound) && core.currentQualityLevel == old(core.currentQualityLevel) && NothingPublished()
      ensures MODELS_KEY in old(core.savedQualityLevels) ==>
                core.currentQualityLevel == FindLast(core.qualityLevelsList, old(core.savedQualityLevels)[MODELS_KEY].level)
      ensures MODELS_KEY in old(core.savedQualityLevels) && core.currentQualityLevel.None? ==>
                outcome == Fail(NullReference) && NothingPublished()
      ensures MODELS_KEY in old(core.savedQualityLevels) && core.currentQualityLevel.Some? ==>
                PublishedLevel(old(core.savedQualityLevels)[MODELS_KEY].level, outcome)
      ensures outcome.Pass? ==> core.savedQualityLevels == old(core.savedQualityLevels)
    {
      possibleModelsProps := modelsProps;
      started := true;
      outcome := LoadQuality(MODELS_KEY);
    }

    /** Places the cursor from the saved dictionary, then publishes the level
        under it. */
    method LoadQuality(qualityType: string) returns (outcome: Outcome)
      requires Valid() && started
      modifies this, core`currentQualityLevel, core`savedQualityLevels, core.file,
               settings`antiAliasing, settings`lodBias, settings`maximumLODLevel
      ensures Valid() && started && possibleModelsProps == old(possibleModelsProps)
      ensures core.qualityLevelsList == old(core.qualityLevelsList)
      ensures qualityType !in old(core.savedQualityLevels) ==>
                outcome == Fail(KeyNotFound) && core.currentQualityLevel == old(core.currentQualityLevel) && NothingPublished()
      ensures qualityType in old(core.savedQualityLevels) ==>
                core.currentQualityLevel == FindLast(core.qualityLevelsList, old(core.savedQualityLevels)[qualityType].level)
      ensures qualityType in old(core.savedQualityLevels) && core.currentQualityLevel.None? ==>
                outcome == Fail(NullReference) && NothingPublished()
      ensures qualityType in old(core.savedQualityLevels) && core.currentQualityLevel.Some? ==>
                PublishedLevel(old(core.savedQualityLevels)[qualityType].level, outcome)
    {
      outcome := core.LoadQuality(qualityType);
      if outcome.Fail? {
        return;
      }
      if core.currentQualityLevel.None? {
        outcome := Fail(NullReference);
        return;
      }
      outcome := ModelsQualityChanged(core.qualityLevelsList[core.currentQualityLevel.value]);
    }

    /** Moves the cursor to the next level, wrapping from the last to the
        first, then publishes the new current level. */
    method IncreaseQuality() returns (outcome: Outcome)
      requires Valid() && started
      modifies this, core`currentQualityLevel, core`savedQualityLevels, core.file,
               settings`antiAliasing, settings`lodBias, settings`maximumLODLevel
      ensures Valid() && started && possibleModelsProps == old(possibleModelsProps)
      ensures core.qualityLevelsList == old(core.qualityLevelsList)
      ensures old(core.currentQualityLevel).Some? ==>
                core.currentQualityLevel == Some(Next(old(core.currentQualityLevel).value, |core.qualityLevelsList|))
      ensures old(core.currentQualityLevel).None? ==> core.currentQualityLevel == None
      ensures core.currentQualityLevel.Some? ==>
                PublishedLevel(core.qualityLevelsList[core.currentQualityLevel.value], outcome)
      ensures core.currentQualityLevel.None? ==> outcome == Fail(NullReference) && NothingPublished()
    {
      outcome := core.IncreaseQuality();
      if outcome.Fail? {
        return;
      }
      if core.currentQualityLevel.None? {
        outcome := Fail(NullReference);
        return;
      }
      outcome := ModelsQualityChanged(core.qualityLevelsList[core.currentQualityLevel.value]);
    }

    /** Moves the cursor to the previous level, wrapping from the first to the
        last, then publishes the new current level. */
    method DecreaseQuality() returns (outcome: Outcome)
      requires Valid() && started
      modifies this, core`currentQualityLevel, core`savedQualityLevels, core.file,
               settings`antiAliasing, settings`lodBias, settings`maximumLODLevel
      ensures Valid() && started && possibleModelsProps == old(possibleModelsProps)
      ensures core.qualityLevelsList == old(core.qualityLevelsList)
      ensures old(core.currentQualityLevel).Some? ==>
                core.currentQualityLevel == Some(Prev(old(core.currentQualityLevel).value, |core.qualityLevelsList|))
      ensures old(core.currentQualityLevel).None? ==> core.currentQualityLevel == None
      ensures core.currentQualityLevel.Some? ==>
                PublishedLevel(core.qualityLevelsList[core.currentQualityLevel.value], outcome)
      ensures core.currentQualityLevel.None? ==> outcome == Fail(NullReference) && NothingPublished()
    {
      outcome := core.DecreaseQuality();
      if outcome.Fail? {
        return;
      }
      if core.currentQualityLevel.None? {
        outcome := Fail(NullReference);
        return;
      }
      outcome := ModelsQualityChanged(core.qualityLevelsList[core.currentQualityLevel.value]);
    }

    /** The `ModelsQualityChanged` event: calls the subscribers in the order
        `Start` registered them. */
    method ModelsQualityChanged(newLevel: QualityLevel) returns (outcome: Outcome)
      requires Valid() && started
      modifies this, core`savedQualityLevels, core.file,
               settings`antiAliasing, settings`lodBias, settings`maximumLODLevel
      ensures Valid() && started && possibleModelsProps == old(possibleModelsProps)
      ensures PublishedLevel(newLevel, outcome)
    {
      published := published + [newLevel];
      outcome := UpdateQuality(newLevel);
      if outcome.Fail? {
        return;
      }
      core.SaveQuality(MODELS_KEY, newLevel);
    }

    /** Applies the model parameters configured for `newLevel`; a level
        missing from the table throws. */
    method UpdateQuality(newLevel: QualityLevel) returns (outcome: Outcome)
      modifies settings`antiAliasing, settings`lodBias, settings`maximumLODLevel
      ensures outcome.Pass? <==> newLevel in possibleModelsProps
      ensures outcome.Fail? ==> outcome.error == KeyNotFound && unchanged(settings)
      ensures outcome.Pass? ==>
                && settings.antiAliasing == AntiAliasingOrdinal(possibleModelsProps[newLevel].msaaLevel)
                && settings.lodBias == possibleModelsProps[newLevel].lodBias
                && settings.maximumLODLevel == possibleModelsProps[newLevel].maxLODLevel
    {
      if newLevel !in possibleModelsProps {
        outcome := Fail(KeyNotFound);
        return;
      }
      var newProps := possibleModelsProps[newLevel];
      settings.antiAliasing := AntiAliasingOrdinal(newProps.msaaLevel);
      settings.lodBias := newProps.lodBias;
      settings.maximumLODLevel := newProps.maxLODLevel;
      outcome := Pass;
    }
  }
}
