/** What the three graphics configurators share: the quality levels, the
    engine's quality settings, and the base configurator that keeps the
    ordered list of levels, the cursor on it, and the dictionary of saved
    levels written back to the one graphics settings file. */
module Graphics {
  import opened Common
  import opened Cycle
  import opened Language

  datatype QualityLevel =
    | QUALITY_VERY_LOW | QUALITY_LOW | QUALITY_MEDIUM
    | QUALITY_HIGH | QUALITY_VERY_HIGH | QUALITY_ULTRA

  /** The level's enum name, which is also its localization key. */
  function LevelName(level: QualityLevel): string
  {
    match level
    case QUALITY_VERY_LOW => "QUALITY_VERY_LOW"
    case QUALITY_LOW => "QUALITY_LOW"
    case QUALITY_MEDIUM => "QUALITY_MEDIUM"
    case QUALITY_HIGH => "QUALITY_HIGH"
    case QUALITY_VERY_HIGH => "QUALITY_VERY_HIGH"
    case QUALITY_ULTRA => "QUALITY_ULTRA"
  }

  /** The saved form of a level: one entry of the graphics settings file. */
  datatype SavedQualityLevel = SavedQualityLevel(level: QualityLevel)

  /** The engine's anisotropic filtering modes. */
  datatype AnisotropicFiltering = Disable | Enable | ForceEnable

  /** The engine's global quality settings, holding the value last assigned
      to each. */
  class QualitySettings {
    var masterTextureLimit: int
    var anisotropicFiltering: AnisotropicFiltering
    var antiAliasing: int
    var lodBias: real
    var maximumLODLevel: int
    var softParticles: bool
    var particleRaycastBudget: int

    constructor ()
    {
      masterTextureLimit, anisotropicFiltering := 0, Disable;
      antiAliasing, lodBias, maximumLODLevel := 0, 1.0, 0;
      softParticles, particleRaycastBudget := false, 0;
    }
  }

  /** The base of the texture, model and effect configurators. The linked
      list of levels is `qualityLevelsList`; its current node is the index
      `currentQualityLevel`, `None` standing for a null node. */
  class GraphicsConfiguratorBase {
    const file: ConfigFile<map<string, SavedQualityLevel>>
    var qualityLevelsList: seq<QualityLevel>
    var currentQualityLevel: Option<nat>
    var savedQualityLevels: map<string, SavedQualityLevel>
    var language: LocaleLanguage

    ghost predicate Valid()
      reads this
    {
      currentQualityLevel.Some? ==> currentQualityLevel.value < |qualityLevelsList|
    }

    /** The list's first node, null when the list is empty. */
    function First(): Option<nat>
      reads this
    {
      if |qualityLevelsList| == 0 then None else Some(0)
    }

    /** The list's last node, null when the list is empty. */
    function Last(): Option<nat>
      reads this
    {
      if |qualityLevelsList| == 0 then None else Some(|qualityLevelsList| - 1)
    }

    /** Builds the list from the configured levels, in order, puts the cursor
        on its first node and reads the saved levels. */
    constructor Awake(possibleQualityConfigurations: seq<QualityLevel>,
                      file: ConfigFile<map<string, SavedQualityLevel>>)
      ensures Valid()
      ensures qualityLevelsList == possibleQualityConfigurations
      ensures currentQualityLevel == (if |possibleQualityConfigurations| == 0 then None else Some(0))
      ensures savedQualityLevels == file.content
      ensures language == LNG_RUSSIAN
      ensures this.file == file
    {
      this.file := file;
      qualityLevelsList := [];
      currentQualityLevel := None;
      savedQualityLevels := map[];
      language := LNG_RUSSIAN;
      new;
      for i := 0 to |possibleQualityConfigurations|
        invariant qualityLevelsList == possibleQualityConfigurations[..i]
        modifies this`qualityLevelsList
      {
        qualityLevelsList := qualityLevelsList + [possibleQualityConfigurations[i]];
      }
      currentQualityLevel := First();
      savedQualityLevels := file.content;
    }

    /** Moves the cursor to the next node, from the last node back to the
        first. A null cursor on a non-empty list throws. */
    method IncreaseQuality() returns (outcome: Outcome)
      requires Valid()
      modifies this`currentQualityLevel
      ensures Valid()
      ensures old(currentQualityLevel).Some? ==>
                outcome == Pass && currentQualityLevel == Some(Next(old(currentQualityLevel).value, |qualityLevelsList|))
      ensures old(currentQualityLevel).None? ==> currentQualityLevel == None
      ensures old(currentQualityLevel).None? ==> outcome == (if |qualityLevelsList| == 0 then Pass else Fail(NullReference))
    {
      if currentQualityLevel == Last() {
        currentQualityLevel := First();
        outcome := Pass;
      } else if currentQualityLevel.None? {
        outcome := Fail(NullReference);
      } else {
        currentQualityLevel := Some(currentQualityLevel.value + 1);
        outcome := Pass;
      }
    }

    /** Moves the cursor to the previous node, from the first node back to
        the last. A null cursor on a non-empty list throws. */
    method DecreaseQuality() returns (outcome: Outcome)
      requires Valid()
      modifies this`currentQualityLevel
      ensures Valid()
      ensures old(currentQualityLevel).Some? ==>
                outcome == Pass && currentQualityLevel == Some(Prev(old(currentQualityLevel).value, |qualityLevelsList|))
      ensures old(currentQualityLevel).None? ==> currentQualityLevel == None
      ensures old(currentQualityLevel).None? ==> outcome == (if |qualityLevelsList| == 0 then Pass else Fail(NullReference))
    {
      if currentQualityLevel == First() {
        currentQualityLevel := Last();
        outcome := Pass;
      } else if currentQualityLevel.None? {
        outcome := Fail(NullReference);
      } else {
        currentQualityLevel := Some(currentQualityLevel.value - 1);
        outcome := Pass;
      }
    }

    /** Puts the cursor on the last node holding the level saved under
        `qualityType`; a missing key throws, and a level absent from the
        list leaves a null cursor. */
    method LoadQuality(qualityType: string) returns (outcome: Outcome)
      requires Valid()
      modifies this`currentQualityLevel
      ensures Valid()
      ensures qualityType !in savedQualityLevels ==>
                outcome == Fail(KeyNotFound) && currentQualityLevel == old(currentQualityLevel)
      ensures qualityType in savedQualityLevels ==>
                outcome == Pass && currentQualityLevel == FindLast(qualityLevelsList, savedQualityLevels[qualityType].level)
    {
      if qualityType !in savedQualityLevels {
        outcome := Fail(KeyNotFound);
        return;
      }
      var savedLevel := savedQualityLevels[qualityType];
      currentQualityLevel := FindLast(qualityLevelsList, savedLevel.level);
      outcome := Pass;
    }

    /** Stores `levelToSave` under `qualityType` and writes the whole
        dictionary to the settings file. */
    method SaveQuality(qualityType: string, levelToSave: QualityLevel)
      modifies this`savedQualityLevels, file
      ensures qualityType in savedQualityLevels && savedQualityLevels[qualityType] == SavedQualityLevel(levelToSave)
      ensures forall key :: key != qualityType ==>
                (key in savedQualityLevels <==> key in old(savedQualityLevels)) &&
                (key in savedQualityLevels ==> savedQualityLevels[key] == old(savedQualityLevels)[key])
      ensures file.content == savedQualityLevels
    {
      savedQualityLevels := savedQualityLevels[qualityType := SavedQualityLevel(levelToSave)];
      file.content := savedQualityLevels;
    }

    /** The `LanguageChanged` subscriber that records the current language. */
    method OnLanguageChanged(newLanguage: LocaleLanguage)
      modifies this`language
      ensures language == newLanguage
    {
      language := newLanguage;
    }
  }

  /** All three graphics configurators write the same file, but each keeps the
      dictionary it read at `Awake`: a save by the second writes back its own
      stale copy of the key the first one has just saved. */
  method SharedFileLosesUpdate(first: GraphicsConfiguratorBase, second: GraphicsConfiguratorBase,
                               firstKey: string, firstLevel: QualityLevel,
                               secondKey: string, secondLevel: QualityLevel)
    requires first != second && first.file == second.file && firstKey != secondKey
    modifies first, second, first.file
    ensures secondKey in first.file.content && first.file.content[secondKey] == SavedQualityLevel(secondLevel)
    ensures firstKey in first.file.content <==> firstKey in old(second.savedQualityLevels)
    ensures firstKey in first.file.content ==>
              first.file.content[firstKey] == old(second.savedQualityLevels)[firstKey]
  {
    first.SaveQuality(firstKey, firstLevel);
    second.SaveQuality(secondKey, secondLevel);
  }
}
