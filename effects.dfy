/** The effect configurator: the shared quality cursor, published to its
    subscribers in registration order: apply the particle settings, then save
    the level under "Effects". */
module Effects {
  import opened Common
  import opened Cycle
  import opened Language
  import opened Graphics

  /** The particle parameters configured for one quality level. */
  datatype FXProps = FXProps(useSoftParticles: bool, particleRaycastBudget: int)

  /** The key of this configurator's entry in the graphics settings file. */
  const EFFECTS_KEY := "Effects"

  class EffectConfigurator {
    const core: GraphicsConfiguratorBase
    const settings: QualitySettings
    var possibleFXProps: map<QualityLevel, FXProps>
    /** Whether `Start` has run, registering the subscribers. */
    var started: bool
    /** Every level passed to `FXQualityChanged`, in order. */
    ghost var published: seq<QualityLevel>

    ghost predicate Valid()
      reads this, core
    {
      core.Valid()
    }

    /** Publishing `level` ran the apply step (two settings copied from the
        table, which throws for a level it lacks) and, only when that
        succeeded, the save step (level stored under "Effects", whole
        dictionary written). */
    twostate predicate PublishedLevel(level: QualityLevel, outcome: Outcome)
      reads this, core, core.file, settings
    {
      && published == old(published) + [level]
      && (outcome.Pass? <==> level in possibleFXProps)
      && (outcome.Fail? ==> outcome.error == KeyNotFound)
      && (outcome.Pass? ==>
            && settings.softParticles == possibleFXProps[level].useSoftParticles
            && settings.particleRaycastBudget == possibleFXProps[level].particleRaycastBudget
            && core.savedQualityLevels == old(core.savedQualityLevels)[EFFECTS_KEY := SavedQualityLevel(level)]
            && core.file.content == core.savedQualityLevels)
      && (outcome.Fail? ==>
            && settings.softParticles == old(settings.softParticles)
            && settings.particleRaycastBudget == old(settings.particleRaycastBudget)
            && core.savedQualityLevels == old(core.savedQualityLevels)
            && core.file.content == old(core.file.content))
    }

    /** Nothing was published and no subscriber ran. */
    twostate predicate NothingPublished()
      reads this, core, core.file, settings
    {
      && published == old(published)
      && settings.softParticles == old(settings.softParticles)
      && settings.particleRaycastBudget == old(settings.particleRaycastBudget)
      && core.savedQualityLevels == old(core.savedQualityLevels)
      && core.file.content == old(core.file.content)
    }

    /** The component as the scene creates it: the base `Awake` has run. */
    constructor Awake(possibleQualityConfigurations: seq<QualityLevel>,
                      file: ConfigFile<map<string, SavedQualityLevel>>, settings: QualitySettings)
      ensures Valid() && fresh(core) && !started
      ensures core.file == file && core.qualityLevelsList == possibleQualityConfigurations
      ensures core.currentQualityLevel == (if |possibleQualityConfigurations| == 0 then None else Some(0))
      ensures core.savedQualityLevels == file.content && core.language == LNG_RUSSIAN
      ensures this.settings == settings && possibleFXProps == map[] && published == []
    {
      core := new GraphicsConfiguratorBase.Awake(possibleQualityConfigurations, file);
      this.settings := settings;
      possibleFXProps := map[];
      started, published := false, [];
    }

    /** Takes the effect table read from the configuration file, registers
        the subscribers and loads the level saved under "Effects". */
    method Start(fxProps: map<QualityLevel, FXProps>) returns (outcome: Outcome)
      requires Valid() && !started
      modifies this, core`currentQualityLevel, core`savedQualityLevels, core.file,
               settings`softParticles, settings`particleRaycastBudget
      ensures Valid() && started && possibleFXProps == fxProps
      ensures core.qualityLevelsList == old(core.qualityLevelsList)
      ensures EFFECTS_KEY !in old(core.savedQualityLevels) ==>
                outcome == Fail(KeyNotFound) && core.currentQualityLevel == old(core.currentQualityLevel) && NothingPublished()
      ensures EFFECTS_KEY in old(core.savedQualityLevels) ==>
                core.currentQualityLevel == FindLast(core.qualityLevelsList, old(core.savedQualityLevels)[EFFECTS_KEY].level)
      ensures EFFECTS_KEY in old(core.savedQualityLevels) && core.currentQualityLevel.None? ==>
                outcome == Fail(NullReference) && NothingPublished()
      ensures EFFECTS_KEY in old(core.savedQualityLevels) && core.currentQualityLevel.Some? ==>
                PublishedLevel(old(core.savedQualityLevels)[EFFECTS_KEY].level, outcome)
      ensures outcome.Pass? ==> core.savedQualityLevels == old(core.savedQualityLevels)
    {
      possibleFXProps := fxProps;
      started := true;
      outcome := LoadQuality(EFFECTS_KEY);
    }

    /** Places the cursor from the saved dictionary, then publishes the level
        under it. */
    method LoadQuality(qualityType: string) returns (outcome: Outcome)
      requires Valid() && started
      modifies this, core`currentQualityLevel, core`savedQualityLevels, core.file,
               settings`softParticles, settings`particleRaycastBudget
      ensures Valid() && started && possibleFXProps == old(possibleFXProps)
      ensures core.qualityLevelsList == old(core.qualityLevelsList)
      ensures qualityType !in old(core.savedQualityLevels) ==>
                outcome == Fail(KeyNotFound) && core.currentQualityLevel == old(core.currentQualityLevel) && NothingPublished()
      ensures qualityType in old(core.savedQualityLevels) ==>
                core.currentQualityLevel == FindLast(core.qualityLevelsList, old(core.savedQualityLevels)[qualityType].level)
      ensures qualityType in old(core.savedQualityLevels) && core.currentQualityLevel.None? ==>
                outcome == Fail(NullReference) && NothingPublished()
      ensures qualityType in old(core.savedQualityLevels) && core.currentQualityLevel.Some? ==>
                PublishedLevel(old(core.savedQualityLevels)[qualityType].level, outcome)
    {
      outcome := core.LoadQuality(qualityType);
      if outcome.Fail? {
        return;
      }
      if core.currentQualityLevel.None? {
        outcome := Fail(NullReference);
        return;
      }
      outcome := FXQualityChanged(core.qualityLevelsList[core.currentQualityLevel.value]);
    }

    /** Moves the cursor to the next level, wrapping from the last to the
        first, then publishes the new current level. */
    method IncreaseQuality() returns (outcome: Outcome)
      requires Valid() && started
      modifies this, core`currentQualityLevel, core`savedQualityLevels, core.file,
               settings`softParticles, settings`particleRaycastBudget
      ensures Valid() && started && possibleFXProps == old(possibleFXProps)
      ensures core.qualityLevelsList == old(core.qualityLevelsList)
      ensures old(core.currentQualityLevel).Some? ==>
                core.currentQualityLevel == Some(Next(old(core.currentQualityLevel).value, |core.qualityLevelsList|))
      ensures old(core.currentQualityLevel).None? ==> core.currentQualityLevel == None
      ensures core.currentQualityLevel.Some? ==>
                PublishedLevel(core.qualityLevelsList[core.currentQualityLevel.value], outcome)
      ensures core.currentQualityLevel.None? ==> outcome == Fail(NullReference) && NothingPublished()
    {
      outcome := core.IncreaseQuality();
      if outcome.Fail? {
        return;
      }
      if core.currentQualityLevel.None? {
        outcome := Fail(NullReference);
        return;
      }
      outcome := FXQualityChanged(core.qualityLevelsList[core.currentQualityLevel.value]);
    }

    /** Moves the cursor to the previous level, wrapping from the first to the
        last, then publishes the new current level. */
    method DecreaseQuality() returns (outcome: Outcome)
      requires Valid() && started
      modifies this, core`currentQualityLevel, core`savedQualityLevels, core.file,
               settings`softParticles, settings`particleRaycastBudget
      ensures Valid() && started && possibleFXProps == old(possibleFXProps)
      ensures core.qualityLevelsList == old(core.qualityLevelsList)
      ensures old(core.currentQualityLevel).Some? ==>
                core.currentQualityLevel == Some(Prev(old(core.currentQualityLevel).value, |core.qualityLevelsList|))
      ensures old(core.currentQualityLevel).None? ==> core.currentQualityLevel == None
      ensures core.currentQualityLevel.Some? ==>
                PublishedLevel(core.qualityLevelsList[core.currentQualityLevel.value], outcome)
      ensures core.currentQualityLevel.None? ==> outcome == Fail(NullReference) && NothingPublished()
    {
      outcome := core.DecreaseQuality();
      if outcome.Fail? {
        return;
      }
      if core.currentQualityLevel.None? {
        outcome := Fail(NullReference);
        return;
      }
      outcome := FXQualityChanged(core.qualityLevelsList[core.currentQualityLevel.value]);
    }

    /** The `FXQualityChanged` event: calls the subscribers in the order
        `Start` registered them. */
    method FXQualityChanged(newLevel: QualityLevel) returns (outcome: Outcome)
      requires Valid() && started
      modifies this, core`savedQualityLevels, core.file, settings`softParticles, settings`particleRaycastBudget
      ensures Valid() && started && possibleFXProps == old(possibleFXProps)
      ensures PublishedLevel(newLevel, outcome)
    {
      published := published + [newLevel];
      outcome := UpdateQuality(newLevel);
      if outcome.Fail? {
        return;
      }
      core.SaveQuality(EFFECTS_KEY, newLevel);
    }

    /** Copies the particle parameters configured for `newLevel`; a level
        missing from the table throws. */
    method UpdateQuality(newLevel: QualityLevel) returns (outcome: Outcome)
      modifies settings`softParticles, settings`particleRaycastBudget
      ensures outcome.Pass? <==> newLevel in possibleFXProps
      ensures outcome.Fail? ==> outcome.error == KeyNotFound && unchanged(settings)
      ensures outcome.Pass? ==>
                && settings.softParticles == possibleFXProps[newLevel].useSoftParticles
                && settings.particleRaycastBudget == possibleFXProps[newLevel].particleRaycastBudget
    {
      if newLevel !in possibleFXProps {
        outcome := Fail(KeyNotFound);
        return;
      }
      var newProps := possibleFXProps[newLevel];
      settings.softParticles := newProps.useSoftParticles;
      settings.particleRaycastBudget := newProps.particleRaycastBudget;
      outcome := Pass;
    }
  }
}
