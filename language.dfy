/** The language selector: three toggles, one per language, of which the
    selected one is remembered, and a subtitles switch. The saved record is
    `(Language, SubltitlesEnabled)`; every save builds it from the snapshot
    read at load time plus the one field that changed. */
module Language {
  import opened Common

  datatype LocaleLanguage = LNG_RUSSIAN | LNG_ENGLISH | LNG_CHINESE

  /** The saved language record. */
  datatype SavedLanguageConfiguration =
    SavedLanguageConfiguration(language: LocaleLanguage, subtitlesEnabled: bool)

  /** A UI toggle widget: `isOn` is its checked state, `enabled` whether it takes input. */
  class Toggle {
    var isOn: bool
    var enabled: bool

    constructor (isOn: bool)
      ensures this.isOn == isOn && enabled
    {
      this.isOn := isOn;
      enabled := true;
    }
  }

  class LanguageConfigurator {
    const ruToggle: Toggle
    const enToggle: Toggle
    const chnToggle: Toggle
    const subtitlesSwitcher: Toggle
    const file: ConfigFile<SavedLanguageConfiguration>

    /** The toggle of the language chosen last; null until the first choice. */
    var selectedToggle: Toggle?
    var languageVariants: map<LocaleLanguage, Toggle>
    /** The record read at load; never reassigned afterwards. */
    var currentLanguageConfiguration: SavedLanguageConfiguration
    /** Whether `Start` has run, registering the widget listeners. */
    var started: bool
    /** Every value passed to `LanguageChanged`, in order. */
    ghost var published: seq<LocaleLanguage>

    /** The toggle the source wires to `language`. */
    function ToggleFor(language: LocaleLanguage): Toggle
    {
      match language
      case LNG_RUSSIAN => ruToggle
      case LNG_ENGLISH => enToggle
      case LNG_CHINESE => chnToggle
    }

    ghost predicate Valid()
      reads this
    {
      && ruToggle != enToggle && ruToggle != chnToggle && enToggle != chnToggle
      && subtitlesSwitcher !in {ruToggle, enToggle, chnToggle}
      && (selectedToggle == null || selectedToggle in {ruToggle, enToggle, chnToggle})
      && (!started ==> selectedToggle == null && languageVariants == map[])
      && (started ==> languageVariants == map[LNG_RUSSIAN := ruToggle, LNG_ENGLISH := enToggle, LNG_CHINESE := chnToggle])
    }

    /** The component as the scene creates it, before `Start`. The four
        widgets are distinct objects of the scene. */
    constructor (ruToggle: Toggle, enToggle: Toggle, chnToggle: Toggle, subtitlesSwitcher: Toggle,
                 file: ConfigFile<SavedLanguageConfiguration>)
      requires ruToggle != enToggle && ruToggle != chnToggle && enToggle != chnToggle
      requires subtitlesSwitcher !in {ruToggle, enToggle, chnToggle}
      ensures Valid() && !started
      ensures this.ruToggle == ruToggle && this.enToggle == enToggle && this.chnToggle == chnToggle
      ensures this.subtitlesSwitcher == subtitlesSwitcher && this.file == file
      ensures selectedToggle == null && languageVariants == map[] && published == []
      ensures currentLanguageConfiguration == SavedLanguageConfiguration(LNG_RUSSIAN, false)
    {
      this.ruToggle, this.enToggle, this.chnToggle := ruToggle, enToggle, chnToggle;
      this.subtitlesSwitcher, this.file := subtitlesSwitcher, file;
      selectedToggle := null;
      languageVariants := map[];
      currentLanguageConfiguration := SavedLanguageConfiguration(LNG_RUSSIAN, false);
      started := false;
      published := [];
    }

    /** Fills the language-to-toggle table, registers the listeners and loads
        the saved record. */
    method Start()
      requires Valid() && !started
      modifies this, ruToggle, enToggle, chnToggle, subtitlesSwitcher`isOn, file
      ensures Valid() && started
      ensures forall language :: language in languageVariants && languageVariants[language] == ToggleFor(language)
      ensures currentLanguageConfiguration == old(file.content)
      ensures subtitlesSwitcher.isOn == old(file.content).subtitlesEnabled
      ensures selectedToggle == ToggleFor(old(file.content).language) && selectedToggle.isOn
      ensures forall t :: t in {ruToggle, enToggle, chnToggle} && t != selectedToggle ==> t.isOn == old(t.isOn)
      ensures forall t :: t in {ruToggle, enToggle, chnToggle} ==> t.enabled == old(t.enabled)
      ensures published == old(published) + [old(file.content).language]
      ensures file.content == old(file.content)
    {
      languageVariants := map[LNG_RUSSIAN := ruToggle, LNG_ENGLISH := enToggle, LNG_CHINESE := chnToggle];
      started := true;
      LoadLanguageConfiguration();
      forall language
        ensures language in languageVariants && languageVariants[language] == ToggleFor(language)
      {
        assert language.LNG_RUSSIAN? || language.LNG_ENGLISH? || language.LNG_CHINESE?;
      }
    }

    /** Reads the record, shows it on the widgets and publishes the saved language. */
    method LoadLanguageConfiguration()
      requires Valid() && started && selectedToggle == null
      requires languageVariants == map[LNG_RUSSIAN := ruToggle, LNG_ENGLISH := enToggle, LNG_CHINESE := chnToggle]
      modifies this, ruToggle, enToggle, chnToggle, subtitlesSwitcher`isOn, file
      ensures Valid() && started && languageVariants == old(languageVariants)
      ensures currentLanguageConfiguration == old(file.content)
      ensures subtitlesSwitcher.isOn == old(file.content).subtitlesEnabled
      ensures selectedToggle == ToggleFor(old(file.content).language) && selectedToggle.isOn
      ensures forall t :: t in {ruToggle, enToggle, chnToggle} && t != selectedToggle ==> t.isOn == old(t.isOn)
      ensures forall t :: t in {ruToggle, enToggle, chnToggle} ==> t.enabled == old(t.enabled)
      ensures published == old(published) + [old(file.content).language]
      ensures file.content == old(file.content)
    {
      currentLanguageConfiguration := file.content;
      subtitlesSwitcher.isOn := currentLanguageConfiguration.subtitlesEnabled;
      var language := currentLanguageConfiguration.language;
      assert language.LNG_RUSSIAN? || language.LNG_ENGLISH? || language.LNG_CHINESE?;
      languageVariants[language].isOn := true;
      SwitchLanguageToggle(languageVariants[language], language);
    }

    /** The listener every language toggle calls when its value changes; the
        new value itself is ignored. */
    method OnToggleValueChanged(language: LocaleLanguage, enabled: bool)
      requires Valid() && started
      modifies this, ruToggle, enToggle, chnToggle, file
      ensures Valid() && started
      ensures languageVariants == old(languageVariants)
      ensures currentLanguageConfiguration == old(currentLanguageConfiguration)
      ensures old(selectedToggle) != null ==> old(selectedToggle).enabled
      ensures selectedToggle == ToggleFor(language)
      ensures forall t :: t in {ruToggle, enToggle, chnToggle} ==> t.isOn == old(t.isOn)
      ensures forall t :: t in {ruToggle, enToggle, chnToggle} && t != old(selectedToggle) ==> t.enabled == old(t.enabled)
      ensures published == old(published) + [language]
      ensures file.content == SavedLanguageConfiguration(language, currentLanguageConfiguration.subtitlesEnabled)
    {
      SwitchLanguageToggle(languageVariants[language], language);
    }

    /** Re-enables the previously selected toggle, selects `toggle` and
        publishes `newLanguage`. */
    method SwitchLanguageToggle(toggle: Toggle, newLanguage: LocaleLanguage)
      requires Valid() && started && toggle in {ruToggle, enToggle, chnToggle}
      modifies this, ruToggle, enToggle, chnToggle, file
      ensures Valid() && started
      ensures languageVariants == old(languageVariants)
      ensures currentLanguageConfiguration == old(currentLanguageConfiguration)
      ensures old(selectedToggle) != null ==> old(selectedToggle).enabled
      ensures selectedToggle == toggle
      ensures forall t :: t in {ruToggle, enToggle, chnToggle} ==> t.isOn == old(t.isOn)
      ensures forall t :: t in {ruToggle, enToggle, chnToggle} && t != old(selectedToggle) ==> t.enabled == old(t.enabled)
      ensures published == old(published) + [newLanguage]
      ensures file.content == SavedLanguageConfiguration(newLanguage, currentLanguageConfiguration.subtitlesEnabled)
    {
      if selectedToggle != null {
        selectedToggle.enabled := true;
      }
      selectedToggle := toggle;
      published := published + [newLanguage];
      SaveLanguage(newLanguage);
    }

    /** The `LanguageChanged` subscriber: saves the new language with the
        load-time subtitles flag. */
    method SaveLanguage(newLanguage: LocaleLanguage)
      modifies file
      ensures file.content == SavedLanguageConfiguration(newLanguage, currentLanguageConfiguration.subtitlesEnabled)
    {
      file.content := SavedLanguageConfiguration(newLanguage, currentLanguageConfiguration.subtitlesEnabled);
    }

    /** The subtitles switch listener: saves the new flag with the load-time language. */
    method SaveSubtitlesCondition(newCondition: bool)
      requires Valid() && started
      modifies file
      ensures file.content == SavedLanguageConfiguration(currentLanguageConfiguration.language, newCondition)
    {
      file.content := SavedLanguageConfiguration(currentLanguageConfiguration.language, newCondition);
    }
  }

  /** Every save combines the load-time snapshot with the one field just
      changed, so a subtitles change after a language switch writes the
      load-time language back over the language just saved. */
  method LanguageThenSubtitles(configurator: LanguageConfigurator, toggle: Toggle, newLanguage: LocaleLanguage, newCondition: bool)
      returns (written: SavedLanguageConfiguration)
    requires configurator.Valid() && configurator.started
    requires toggle in {configurator.ruToggle, configurator.enToggle, configurator.chnToggle}
    modifies configurator, configurator.ruToggle, configurator.enToggle, configurator.chnToggle, configurator.file
    ensures written == SavedLanguageConfiguration(newLanguage, old(configurator.currentLanguageConfiguration).subtitlesEnabled)
    ensures configurator.file.content ==
      SavedLanguageConfiguration(old(configurator.currentLanguageConfiguration).language, newCondition)
  {
    configurator.SwitchLanguageToggle(toggle, newLanguage);
    written := configurator.file.content;
    configurator.SaveSubtitlesCondition(newCondition);
  }
}
