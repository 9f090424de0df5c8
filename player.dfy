/** The player configurator: a nickname field and a gender selector cycling
    over MALE, FEMALE, OTHER. The saved record is `(Nickname, Gender)`; every
    save builds it from the snapshot read at load time plus the one field
    that changed. */
module Player {
  import opened Common
  import opened Cycle
  import opened Language
  import opened Localization

  datatype GenderType = GENDER_MALE | GENDER_FEMALE | GENDER_OTHER

  /** The gender's enum name, which is also its localization key. */
  function GenderName(gender: GenderType): string
  {
    match gender
    case GENDER_MALE => "GENDER_MALE"
    case GENDER_FEMALE => "GENDER_FEMALE"
    case GENDER_OTHER => "GENDER_OTHER"
  }

  /** The saved player record. */
  datatype SavedPlayerConfiguration = SavedPlayerConfiguration(nickname: string, gender: GenderType)

  /** The order in which `Awake` appends the genders to the selector list. */
  const GENDER_ORDER: seq<GenderType> := [GENDER_MALE, GENDER_FEMALE, GENDER_OTHER]

  /** Every gender sits at exactly one node of the selector, so loading a
      saved gender always finds a node; "next" runs MALE, FEMALE, OTHER and
      back to MALE, and "previous" runs the other way. */
  lemma GenderCycle(gender: GenderType)
    ensures FindLast(GENDER_ORDER, gender).Some?
    ensures forall i :: 0 <= i < |GENDER_ORDER| && GENDER_ORDER[i] == gender ==> FindLast(GENDER_ORDER, gender) == Some(i)
    ensures GENDER_ORDER[Next(0, 3)] == GENDER_FEMALE && GENDER_ORDER[Next(1, 3)] == GENDER_OTHER
    ensures GENDER_ORDER[Next(2, 3)] == GENDER_MALE
    ensures GENDER_ORDER[Prev(0, 3)] == GENDER_OTHER && GENDER_ORDER[Prev(1, 3)] == GENDER_MALE
    ensures GENDER_ORDER[Prev(2, 3)] == GENDER_FEMALE
  {
    assert gender == GENDER_ORDER[0] || gender == GENDER_ORDER[1] || gender == GENDER_ORDER[2];
  }

  class PlayerConfigurator {
    const localizer: Localizer
    const file: ConfigFile<SavedPlayerConfiguration>
    var language: LocaleLanguage
    /** The record read at load; never reassigned afterwards. */
    var currentPlayerConfiguration: SavedPlayerConfiguration
    var genderTypesList: seq<GenderType>
    /** The current node of the gender list, `None` standing for null. */
    var currentGender: Option<nat>
    /** The text of the nickname input field. */
    var inputText: string
    /** The text of the gender label. */
    var genderText: string
    /** Whether `Start` has run, registering the subscribers. */
    var started: bool
    /** Every gender passed to `GenderChanged`, in order. */
    ghost var published: seq<GenderType>

    ghost predicate Valid()
      reads this
    {
      && genderTypesList == GENDER_ORDER
      && (currentGender.Some? ==> currentGender.value < |genderTypesList|)
      && (started ==> currentGender.Some?)
    }

    /** Publishing `gender` ran the subscribers in order, stopping at the first
        that threw: display (the localized gender name) and save (the gender
        with the load-time nickname). */
    twostate predicate PublishedGender(gender: GenderType, outcome: Outcome)
      reads this, file, localizer
    {
      && published == old(published) + [gender]
      && (outcome.Pass? <==> localizer.GetLocalizedString(language, GenderName(gender)).Ok?)
      && (outcome.Fail? ==> outcome.error == KeyNotFound)
      && (outcome.Pass? ==>
            && genderText == localizer.GetLocalizedString(language, GenderName(gender)).value
            && file.content == SavedPlayerConfiguration(currentPlayerConfiguration.nickname, gender))
      && (outcome.Fail? ==> genderText == old(genderText) && file.content == old(file.content))
    }

    /** The component as the scene creates it, after `Awake` has built the
        gender list. The cursor is null until the configuration is loaded. */
    constructor Awake(localizer: Localizer, file: ConfigFile<SavedPlayerConfiguration>)
      ensures Valid() && !started
      ensures this.localizer == localizer && this.file == file
      ensures genderTypesList == GENDER_ORDER && currentGender == None
      ensures language == LNG_RUSSIAN && published == []
      ensures currentPlayerConfiguration == SavedPlayerConfiguration("", GENDER_MALE)
    {
      this.localizer, this.file := localizer, file;
      language := LNG_RUSSIAN;
      currentPlayerConfiguration := SavedPlayerConfiguration("", GENDER_MALE);
      genderTypesList := [];
      genderTypesList := genderTypesList + [GENDER_MALE];
      genderTypesList := genderTypesList + [GENDER_FEMALE];
      genderTypesList := genderTypesList + [GENDER_OTHER];
      currentGender := None;
      inputText, genderText := "", "";
      started, published := false, [];
    }

    /** Registers the subscribers and loads the saved record. */
    method Start() returns (outcome: Outcome)
      requires Valid() && !started
      modifies this, file
      ensures Valid() && started
      ensures language == old(language)
      ensures currentPlayerConfiguration == old(file.content)
      ensures inputText == old(file.content).nickname
      ensures genderTypesList[currentGender.value] == old(file.content).gender
      ensures PublishedGender(old(file.content).gender, outcome)
      ensures outcome.Pass? ==> file.content == old(file.content)
    {
      outcome := LoadConfiguration();
      started := true;
    }

    /** Reads the record, shows the nickname, puts the cursor on the last node
        holding the saved gender and publishes that gender once. */
    method LoadConfiguration() returns (outcome: Outcome)
      requires Valid()
      modifies this, file
      ensures Valid() && started == old(started) && currentGender.Some?
      ensures language == old(language)
      ensures currentPlayerConfiguration == old(file.content)
      ensures inputText == old(file.content).nickname
      ensures currentGender == FindLast(genderTypesList, old(file.content).gender)
      ensures genderTypesList[currentGender.value] == old(file.content).gender
      ensures PublishedGender(old(file.content).gender, outcome)
    {
      currentPlayerConfiguration := file.content;
      inputText := currentPlayerConfiguration.nickname;
      GenderCycle(currentPlayerConfiguration.gender);
      currentGender := FindLast(genderTypesList, currentPlayerConfiguration.gender);
      outcome := GenderChanged(genderTypesList[currentGender.value]);
    }

    /** The nickname field's end-of-edit listener: saves the new nickname with
        the load-time gender. */
    method SaveNickname(newNickname: string)
      requires Valid() && started
      modifies file
      ensures file.content == SavedPlayerConfiguration(newNickname, currentPlayerConfiguration.gender)
    {
      file.content := SavedPlayerConfiguration(newNickname, currentPlayerConfiguration.gender);
    }

    /** Moves the cursor to the next gender, from OTHER back to MALE, then
        publishes it. */
    method NextGender() returns (outcome: Outcome)
      requires Valid() && started
      modifies this, file
      ensures Valid() && started
      ensures language == old(language) && inputText == old(inputText)
      ensures currentPlayerConfiguration == old(currentPlayerConfiguration)
      ensures currentGender == Some(Next(old(currentGender).value, |genderTypesList|))
      ensures PublishedGender(genderTypesList[currentGender.value], outcome)
    {
      currentGender := if currentGender == Some(|genderTypesList| - 1) then Some(0) else Some(currentGender.value + 1);
      outcome := GenderChanged(genderTypesList[currentGender.value]);
    }

    /** Moves the cursor to the previous gender, from MALE back to OTHER, then
        publishes it. */
    method PreviousGender() returns (outcome: Outcome)
      requires Valid() && started
      modifies this, file
      ensures Valid() && started
      ensures language == old(language) && inputText == old(inputText)
      ensures currentPlayerConfiguration == old(currentPlayerConfiguration)
      ensures currentGender == Some(Prev(old(currentGender).value, |genderTypesList|))
      ensures PublishedGender(genderTypesList[currentGender.value], outcome)
    {
      currentGender := if currentGender == Some(0) then Some(|genderTypesList| - 1) else Some(currentGender.value - 1);
      outcome := GenderChanged(genderTypesList[currentGender.value]);
    }

    /** The `GenderChanged` event: shows the gender's localized name, then
        saves it; a failed lookup throws and the save does not happen. */
    method GenderChanged(gender: GenderType) returns (outcome: Outcome)
      requires Valid()
      modifies this`published, this`genderText, file
      ensures PublishedGender(gender, outcome)
    {
      published := published + [gender];
      var text := localizer.GetLocalizedString(language, GenderName(gender));
      if text.Err? {
        outcome := Fail(text.error);
        return;
      }
      genderText := text.value;
      SaveGender(gender);
      outcome := Pass;
    }

    /** The `GenderChanged` subscriber that saves the gender with the load-time nickname. */
    method SaveGender(newGender: GenderType)
      modifies file
      ensures file.content == SavedPlayerConfiguration(currentPlayerConfiguration.nickname, newGender)
    {
      file.content := SavedPlayerConfiguration(currentPlayerConfiguration.nickname, newGender);
    }

    /** The `LanguageChanged` subscriber that records the current language. */
    method OnLanguageChanged(newLanguage: LocaleLanguage)
      modifies this`language
      ensures language == newLanguage
    {
      language := newLanguage;
    }
  }

  /** The saved record combines the load-time snapshot with the one field
      just changed, so a nickname edited after a gender change writes the
      load-time gender back over the gender just saved. */
  method GenderThenNickname(player: PlayerConfigurator, newNickname: string)
      returns (outcome: Outcome, written: SavedPlayerConfiguration)
    requires player.Valid() && player.started
    modifies player, player.file
    ensures outcome.Pass? ==>
              written == SavedPlayerConfiguration(old(player.currentPlayerConfiguration).nickname,
                                                  GENDER_ORDER[Next(old(player.currentGender).value, 3)])
    ensures player.file.content == SavedPlayerConfiguration(newNickname, old(player.currentPlayerConfiguration).gender)
  {
    outcome := player.NextGender();
    written := player.file.content;
    player.SaveNickname(newNickname);
  }
}
