# Settings-menu configurators, modelled in Dafny

This project models the settings menu of the `oim_ui` Unity game UI. It covers
the components that read a saved configuration, let the player change it with
buttons, toggles and sliders, push every change to the engine and to the
interface, and write it back:

- **Graphics** (`Graphics`, `Textures`, `Models`, `Effects`). A cursor over a
  fixed list of quality levels. "Increase" and "decrease" move it one step and
  wrap at both ends. Loading puts it on the last node that holds the saved
  level. Each of the three configurators publishes every move to its
  subscribers in registration order: apply the level's parameters to the
  engine's quality settings, show the level's name (textures only), then save
  the level under its own key (`"Textures"`, `"Models"`, `"Effects"`) in a
  settings file the three share.
- **Player** (`Player`). The same wrap-around cursor over MALE, FEMALE, OTHER,
  plus a nickname. The saved `(Nickname, Gender)` record is always rebuilt
  from the record read at load plus the one field that changed.
- **Audio** (`Audio`). Four channels (Master, Music, Voice, FX), each saved as
  a `(Volume, IsMuted)` record under its own key. Master drives the audio
  listener. The other three each drive one mixer parameter, which sits at
  `LOWEST_VOLUME` (-50) while the channel is muted.
- **Language** (`Language`). A small state machine over the selected language
  toggle. The saved `(Language, SubtitlesEnabled)` record is built from the
  load-time record plus the one field that changed.
- **Localizer** (`Localization`). One string table per language, built by
  storing the locale records in list order so that a later record with the
  same language replaces an earlier one. It is read by a two-level lookup that
  fails on a missing language or key.

`Common` holds the shared vocabulary:

- `Option` stands for a possibly-null reference.
- `Result` and `Outcome` stand for a call that may throw `KeyNotFound` or
  `NullReference`.
- `ConfigFile<T>` holds the parsed content of one JSON settings file.

`Cycle` holds the specification of the cursor moves (`Next`, `Prev`,
`Advance`) and of `LinkedList.FindLast`. The configurators' methods are proved
against these functions.

How C# and Unity constructs are modelled:

- **Components.** Each component is a class whose fields are the C# fields.
  Its constructor is object creation plus Unity's `Awake`. A `Start` method is
  Unity's `Start`. The UI entry points require `started`.
- **Inheritance.** The three graphics configurators own a
  `GraphicsConfiguratorBase` (`core`) in place of inheriting from it.
- **Linked-list cursors.** A linked-list node is an index into the list's
  sequence, and `None` stands for a null node.
- **Events.** A C# event is a method that calls its subscribers in
  registration order. The first subscriber that throws stops the rest: its
  `Outcome` is `Fail`, and the later subscribers' effects do not happen.
- **Engine sinks.** The engine's quality settings, audio listener and audio
  mixer are fields that hold the last value written. So are the label texts.
- **Published values.** A ghost sequence `published` records every value an
  event delivered.

## Model

| member | source | states |
|---|---|---|
| Cycle.Next | oim_ui/Assets/Source/UI/Configurators/Graphics/BNF_GraphicsConfiguratorBase.cs:88 | the node after `i` stays on the list and is `(i + 1) mod n`, so the last node is followed by the first |
| Cycle.Prev | oim_ui/Assets/Source/UI/Configurators/Graphics/BNF_GraphicsConfiguratorBase.cs:94 | the node before `i` stays on the list and is the one whose successor is `i`, so the first node is preceded by the last |
| Cycle.Advance | oim_ui/Assets/Source/UI/Configurators/Graphics/BNF_GraphicsConfiguratorBase.cs:86-89 | any number of "next" presses keeps the cursor on the list |
| Cycle.FindLast | oim_ui/Assets/Source/UI/Configurators/Graphics/BNF_GraphicsConfiguratorBase.cs:101 | `LinkedList.FindLast` gives null exactly when the value is absent; otherwise it gives a position that holds the value with no later position holding it |
| Cycle.PrevUndoesNext | oim_ui/Assets/Source/UI/Configurators/Graphics/BNF_GraphicsConfiguratorBase.cs:86-95 | increasing then decreasing returns the cursor to where it was |
| Cycle.NextUndoesPrev | oim_ui/Assets/Source/UI/Configurators/Graphics/BNF_GraphicsConfiguratorBase.cs:86-95 | decreasing then increasing returns the cursor to where it was |
| Cycle.AdvanceIsRotation | oim_ui/Assets/Source/UI/Configurators/Graphics/BNF_GraphicsConfiguratorBase.cs:86-89 | `k` increases move the cursor `k` places round the ring, `(i + k) mod n` |
| Cycle.FullTurnIsIdentity | oim_ui/Assets/Source/UI/Configurators/Graphics/BNF_GraphicsConfiguratorBase.cs:86-89 | `n` increases on an `n`-node list are the identity |
| Graphics.GraphicsConfiguratorBase.Awake | oim_ui/Assets/Source/UI/Configurators/Graphics/BNF_GraphicsConfiguratorBase.cs:70-83 | the list equals the configured levels in order; the cursor is on the first node (null for an empty list); the saved levels are the file's content; the language starts at Russian |
| Graphics.GraphicsConfiguratorBase.IncreaseQuality | oim_ui/Assets/Source/UI/Configurators/Graphics/BNF_GraphicsConfiguratorBase.cs:86-89 | a cursor on the list moves to `Next`, wrapping from last to first, and the list is unchanged; a null cursor stays null and throws `NullReference` unless the list is empty |
| Graphics.GraphicsConfiguratorBase.DecreaseQuality | oim_ui/Assets/Source/UI/Configurators/Graphics/BNF_GraphicsConfiguratorBase.cs:92-95 | a cursor on the list moves to `Prev`, wrapping from first to last; a null cursor stays null and throws `NullReference` unless the list is empty |
| Graphics.GraphicsConfiguratorBase.LoadQuality | oim_ui/Assets/Source/UI/Configurators/Graphics/BNF_GraphicsConfiguratorBase.cs:98-102 | a missing key throws `KeyNotFound` and leaves the cursor; otherwise the cursor is `FindLast` of the saved level, which is null for a level absent from the list |
| Graphics.GraphicsConfiguratorBase.SaveQuality | oim_ui/Assets/Source/UI/Configurators/Graphics/BNF_GraphicsConfiguratorBase.cs:105-110 | exactly the given key is set to the given level, every other key keeps its presence and value, and the whole dictionary is what the file then holds |
| Graphics.GraphicsConfiguratorBase.OnLanguageChanged | oim_ui/Assets/Source/UI/Configurators/Graphics/BNF_GraphicsConfiguratorBase.cs:81 | the recorded language becomes the published one |
| Graphics.SharedFileLosesUpdate | oim_ui/Assets/Source/UI/Configurators/Graphics/BNF_GraphicsConfiguratorBase.cs:105-110 | two configurators sharing the settings file: after the first saves its key and the second saves another, the file holds the second's `Awake`-time entry for the first key, so the first save is lost |
| Textures.ResolutionOrdinal | oim_ui/Assets/Source/UI/Configurators/Graphics/BNF_TextureConfigurator.cs:15-21 | the texture limit written is the resolution's enum value, between 0 and 3, and 0 exactly for full resolution |
| Textures.TextureConfigurator.Awake | oim_ui/Assets/Source/UI/Configurators/Graphics/BNF_TextureConfigurator.cs:34-45 | the base set-up has run (list, first-node cursor, saved levels) and the texture table is still empty |
| Textures.TextureConfigurator.Start | oim_ui/Assets/Source/UI/Configurators/Graphics/BNF_TextureConfigurator.cs:48-59 | takes the texture table, then loads the `"Textures"` key: a missing key throws; otherwise the cursor is on the last node with the saved level and that level is published once, or nothing is published when the cursor is null; a successful start leaves the saved levels unchanged |
| Textures.TextureConfigurator.LoadQuality | oim_ui/Assets/Source/UI/Configurators/Graphics/BNF_TextureConfigurator.cs:75-80 | places the cursor as the base does, then publishes the level under it; a missing key or a null cursor throws and publishes nothing |
| Textures.TextureConfigurator.IncreaseQuality | oim_ui/Assets/Source/UI/Configurators/Graphics/BNF_TextureConfigurator.cs:61-66 | first moves the cursor to `Next`, then publishes the new current level; a null cursor throws `NullReference` with nothing published |
| Textures.TextureConfigurator.DecreaseQuality | oim_ui/Assets/Source/UI/Configurators/Graphics/BNF_TextureConfigurator.cs:68-73 | first moves the cursor to `Prev`, then publishes the new current level; a null cursor throws `NullReference` with nothing published |
| Textures.TextureConfigurator.TextureQualityChanged | oim_ui/Assets/Source/UI/Configurators/Graphics/BNF_TextureConfigurator.cs:52-54 | the subscribers run in the order apply, display, save under `"Textures"`; a throw from the table lookup or the localizer stops the rest |
| Textures.TextureConfigurator.UpdateQuality | oim_ui/Assets/Source/UI/Configurators/Graphics/BNF_TextureConfigurator.cs:82-90 | a level in the table sets the texture limit to its resolution's ordinal and the anisotropic filtering to its filtering; a level missing from the table throws `KeyNotFound` and changes nothing |
| Models.AntiAliasingOrdinal | oim_ui/Assets/Source/UI/Configurators/Graphics/BNF_ModelConfigurator.cs:11-17 | the anti-aliasing written is one of 0, 2, 4, 8, and 0 exactly for no MSAA |
| Models.ModelConfigurator.Awake | oim_ui/Assets/Source/UI/Configurators/Graphics/BNF_ModelConfigurator.cs:29-48 | the base set-up has run and the model table is still empty |
| Models.ModelConfigurator.Start | oim_ui/Assets/Source/UI/Configurators/Graphics/BNF_ModelConfigurator.cs:50-59 | takes the model table, then loads the `"Models"` key and publishes the saved level once; a missing key or a null cursor throws with nothing published |
| Models.ModelConfigurator.LoadQuality | oim_ui/Assets/Source/UI/Configurators/Graphics/BNF_ModelConfigurator.cs:75-80 | places the cursor as the base does, then publishes the level under it |
| Models.ModelConfigurator.IncreaseQuality | oim_ui/Assets/Source/UI/Configurators/Graphics/BNF_ModelConfigurator.cs:61-66 | first moves the cursor to `Next`, then publishes the new current level |
| Models.ModelConfigurator.DecreaseQuality | oim_ui/Assets/Source/UI/Configurators/Graphics/BNF_ModelConfigurator.cs:68-73 | first moves the cursor to `Prev`, then publishes the new current level |
| Models.ModelConfigurator.ModelsQualityChanged | oim_ui/Assets/Source/UI/Configurators/Graphics/BNF_ModelConfigurator.cs:54-56 | the apply step runs first; only when it succeeds is the level saved under `"Models"` and the whole dictionary written |
| Models.ModelConfigurator.UpdateQuality | oim_ui/Assets/Source/UI/Configurators/Graphics/BNF_ModelConfigurator.cs:82-92 | a level in the table sets anti-aliasing to its MSAA ordinal, and copies the LOD bias and the maximum LOD level; a missing level throws `KeyNotFound` and changes nothing |
| Effects.EffectConfigurator.Awake | oim_ui/Assets/Source/UI/Configurators/Graphics/BNF_EffectConfigurator.cs:20-37 | the base set-up has run and the effects table is still empty |
| Effects.EffectConfigurator.Start | oim_ui/Assets/Source/UI/Configurators/Graphics/BNF_EffectConfigurator.cs:39-48 | takes the effects table, then loads the `"Effects"` key and publishes the saved level once; a missing key or a null cursor throws with nothing published |
| Effects.EffectConfigurator.LoadQuality | oim_ui/Assets/Source/UI/Configurators/Graphics/BNF_EffectConfigurator.cs:64-69 | places the cursor as the base does, then publishes the level under it |
| Effects.EffectConfigurator.IncreaseQuality | oim_ui/Assets/Source/UI/Configurators/Graphics/BNF_EffectConfigurator.cs:50-55 | first moves the cursor to `Next`, then publishes the new current level |
| Effects.EffectConfigurator.DecreaseQuality | oim_ui/Assets/Source/UI/Configurators/Graphics/BNF_EffectConfigurator.cs:57-62 | first moves the cursor to `Prev`, then publishes the new current level |
| Effects.EffectConfigurator.FXQualityChanged | oim_ui/Assets/Source/UI/Configurators/Graphics/BNF_EffectConfigurator.cs:43-45 | the apply step runs first; only when it succeeds is the level saved under `"Effects"` |
| Effects.EffectConfigurator.UpdateQuality | oim_ui/Assets/Source/UI/Configurators/Graphics/BNF_EffectConfigurator.cs:71-80 | a level in the table copies its soft-particles flag and its particle raycast budget; a missing level throws `KeyNotFound` and changes nothing |
| Player.GenderCycle | oim_ui/Assets/Source/UI/Configurators/Player/BNF_PlayerConfigurator.cs:80-82 | on the list MALE, FEMALE, OTHER every saved gender is found at its own node; "next" runs MALE, FEMALE, OTHER and back to MALE, and "previous" runs the reverse |
| Player.PlayerConfigurator.Awake | oim_ui/Assets/Source/UI/Configurators/Player/BNF_PlayerConfigurator.cs:78-86 | the gender list is MALE, FEMALE, OTHER in that order and the cursor is null |
| Player.PlayerConfigurator.Start | oim_ui/Assets/Source/UI/Configurators/Player/BNF_PlayerConfigurator.cs:88-101 | loads the saved record and publishes its gender once; a successful start leaves the file as it was |
| Player.PlayerConfigurator.LoadConfiguration | oim_ui/Assets/Source/UI/Configurators/Player/BNF_PlayerConfigurator.cs:103-110 | the snapshot is the file's record and the input field shows its nickname; the cursor is the last node equal to the saved gender, which exists for each of the three declared genders (an out-of-range saved value is under Left out); that gender is published once |
| Player.PlayerConfigurator.SaveNickname | oim_ui/Assets/Source/UI/Configurators/Player/BNF_PlayerConfigurator.cs:118-123 | writes the new nickname with the load-time gender |
| Player.PlayerConfigurator.NextGender | oim_ui/Assets/Source/UI/Configurators/Player/BNF_PlayerConfigurator.cs:126-130 | the cursor moves to `Next`, wrapping OTHER to MALE, then the new gender is published; the snapshot and the nickname field are unchanged |
| Player.PlayerConfigurator.PreviousGender | oim_ui/Assets/Source/UI/Configurators/Player/BNF_PlayerConfigurator.cs:132-136 | the cursor moves to `Prev`, wrapping MALE to OTHER, then the new gender is published |
| Player.PlayerConfigurator.GenderChanged | oim_ui/Assets/Source/UI/Configurators/Player/BNF_PlayerConfigurator.cs:97-98 | the label shows the gender's localized name; then the record `(load-time nickname, published gender)` is written; a failed lookup throws `KeyNotFound` and skips the save |
| Player.PlayerConfigurator.SaveGender | oim_ui/Assets/Source/UI/Configurators/Player/BNF_PlayerConfigurator.cs:138-143 | writes the new gender with the load-time nickname |
| Player.PlayerConfigurator.OnLanguageChanged | oim_ui/Assets/Source/UI/Configurators/Player/BNF_PlayerConfigurator.cs:84 | the recorded language becomes the published one |
| Player.GenderThenNickname | oim_ui/Assets/Source/UI/Configurators/Player/BNF_PlayerConfigurator.cs:118-143 | a gender change writes the new gender, but a nickname edited afterwards writes the load-time gender back |
| Audio.ChannelsAreIndependent | oim_ui/Assets/Source/UI/Configurators/Audio/BNF_AudioConfigurator.cs:45-51 | distinct channels have distinct keys and distinct mixer parameters |
| Audio.WithVolume | oim_ui/Assets/Source/UI/Configurators/Audio/BNF_AudioConfigurator.cs:182 | only the channel's volume changes: its mute flag, the other channels and the key set stay as they were |
| Audio.WithMuted | oim_ui/Assets/Source/UI/Configurators/Audio/BNF_AudioConfigurator.cs:189 | only the channel's mute flag changes: its volume, the other channels and the key set stay as they were |
| Audio.ResavingIsIdentity | oim_ui/Assets/Source/UI/Configurators/Audio/BNF_AudioConfigurator.cs:180-192 | saving the volume or mute flag a record already holds leaves the map unchanged |
| Audio.MixerLevel | oim_ui/Assets/Source/UI/Configurators/Audio/BNF_AudioConfigurator.cs:135-147 | a non-master mixer parameter is the stored volume exactly when the channel is unmuted (or the volume is already the floor), and `LOWEST_VOLUME` exactly when it is muted (or the volume is the floor) |
| Audio.ListenerLevel | oim_ui/Assets/Source/UI/Configurators/Audio/BNF_AudioConfigurator.cs:129 | the listener volume is the stored master volume exactly when Master is unmuted (or that volume is 0), and 0 exactly when it is muted (or the volume is 0) |
| Audio.MuteThenUnmuteRestores | oim_ui/Assets/Source/UI/Configurators/Audio/BNF_AudioConfigurator.cs:129-147 | muting sends `LOWEST_VOLUME` to the mixer (0 to the listener) whatever the volume; unmuting sends back exactly the stored volume, and restores the whole map for a channel that was unmuted |
| Audio.VolumeWhileMutedIsDeferred | oim_ui/Assets/Source/UI/Configurators/Audio/BNF_AudioConfigurator.cs:134-145 | a volume change on a muted channel is stored as given, with no clamping to `HIGHEST_VOLUME`; the mixer stays at `LOWEST_VOLUME`, and the new volume takes effect on unmute |
| Audio.LoadEvents | oim_ui/Assets/Source/UI/Configurators/Audio/BNF_AudioConfigurator.cs:164-177 | loading makes eight explicit publications: four volumes, then four mute conditions (widget-raised publications are under Left out) |
| Audio.LoadPublishesEveryChannel | oim_ui/Assets/Source/UI/Configurators/Audio/BNF_AudioConfigurator.cs:164-177 | every channel's stored volume is published among the first four events, and its stored mute condition among the last four |
| Audio.AudioConfigurator.constructor | oim_ui/Assets/Source/UI/Configurators/Audio/BNF_AudioConfigurator.cs:57 | no records are loaded yet and the engine's listener and mixer are as found |
| Audio.AudioConfigurator.Start | oim_ui/Assets/Source/UI/Configurators/Audio/BNF_AudioConfigurator.cs:126-152 | registers the handlers, then loads as `LoadVolumes` states |
| Audio.AudioConfigurator.LoadVolumes | oim_ui/Assets/Source/UI/Configurators/Audio/BNF_AudioConfigurator.cs:155-178 | a channel missing from the file throws `KeyNotFound` before anything is published (true while the sliders and muters are not wired back to the handlers; see Left out). Otherwise it publishes the load events in order, and the records and the file end as read. Every non-master channel's mixer parameter then matches its record, every other mixer entry is kept, and the listener matches the master record |
| Audio.AudioConfigurator.PublishStoredVolumes | oim_ui/Assets/Source/UI/Configurators/Audio/BNF_AudioConfigurator.cs:164-167 | publishing the stored volumes leaves the records as read and already puts every mixer parameter in step with its record, keeping every other mixer entry; the listener ends at the stored master volume |
| Audio.AudioConfigurator.PublishStoredMuteConditions | oim_ui/Assets/Source/UI/Configurators/Audio/BNF_AudioConfigurator.cs:174-177 | publishing the stored mute conditions leaves an in-step mixer exactly as it was and sets the listener from the master record |
| Audio.AudioConfigurator.PublishStored | oim_ui/Assets/Source/UI/Configurators/Audio/BNF_AudioConfigurator.cs:164-177 | publishing a value a record already holds leaves the records and the file unchanged and sets only that channel's sink: the listener for Master, with the mixer untouched; one mixer parameter otherwise, with the listener untouched |
| Audio.AudioConfigurator.UpdateVolume | oim_ui/Assets/Source/UI/Configurators/Audio/BNF_AudioConfigurator.cs:204-226 | publishes the volume as `VolumeChanged` states, and keeps every mixer parameter in step with its record |
| Audio.AudioConfigurator.Mute | oim_ui/Assets/Source/UI/Configurators/Audio/BNF_AudioConfigurator.cs:229-247 | publishes the mute condition as `VolumeMuted` states, and keeps every mixer parameter in step with its record |
| Audio.AudioConfigurator.VolumeChanged | oim_ui/Assets/Source/UI/Configurators/Audio/BNF_AudioConfigurator.cs:128-145 | Master sets the listener to the new volume, even while muted, then saves. The other channels save, then set the mixer to `LOWEST_VOLUME` if muted or else to the new volume. A missing record throws `KeyNotFound` at the save |
| Audio.AudioConfigurator.VolumeMuted | oim_ui/Assets/Source/UI/Configurators/Audio/BNF_AudioConfigurator.cs:129-147 | Master sets the listener to 0 without reading its record, or to the stored volume, then saves the flag. The other channels save the flag, then set the mixer to `LOWEST_VOLUME` or the stored volume. A missing record throws `KeyNotFound`: unmuting Master or any other channel then changes nothing, but muting Master has already silenced the listener when the save throws |
| Audio.AudioConfigurator.SaveVolume | oim_ui/Assets/Source/UI/Configurators/Audio/BNF_AudioConfigurator.cs:180-185 | the map becomes `WithVolume` of the key and is written whole; a missing key throws `KeyNotFound` and changes nothing |
| Audio.AudioConfigurator.SaveMuteCondition | oim_ui/Assets/Source/UI/Configurators/Audio/BNF_AudioConfigurator.cs:187-192 | the map becomes `WithMuted` of the key and is written whole; a missing key throws `KeyNotFound` and changes nothing |
| Language.LanguageConfigurator.constructor | oim_ui/Assets/Source/UI/Configurators/Language/BNF_LanguageConfigurator.cs:62-69 | no toggle is selected, the language map is empty and the snapshot is the default record |
| Language.LanguageConfigurator.Start | oim_ui/Assets/Source/UI/Configurators/Language/BNF_LanguageConfigurator.cs:74-90 | each of the three declared languages maps to its own toggle (an out-of-range saved value is under Left out). The saved language's toggle is selected and on, and the subtitles switch shows the saved flag; of that switch only `isOn` may change. The saved language is published exactly once and the file ends as read |
| Language.LanguageConfigurator.LoadLanguageConfiguration | oim_ui/Assets/Source/UI/Configurators/Language/BNF_LanguageConfigurator.cs:92-100 | the snapshot is the file's record; the saved language's toggle (for a declared language) is switched on and selected, the subtitles switch's `isOn` (its only field that may change) shows the saved flag, and that language is published once |
| Language.LanguageConfigurator.OnToggleValueChanged | oim_ui/Assets/Source/UI/Configurators/Language/BNF_LanguageConfigurator.cs:82 | a toggle's listener switches to that toggle's language, whatever value the toggle reports |
| Language.LanguageConfigurator.SwitchLanguageToggle | oim_ui/Assets/Source/UI/Configurators/Language/BNF_LanguageConfigurator.cs:102-113 | the previously selected toggle, if any, is re-enabled; the given toggle becomes selected; the language is published and saved with the load-time subtitles flag |
| Language.LanguageConfigurator.SaveLanguage | oim_ui/Assets/Source/UI/Configurators/Language/BNF_LanguageConfigurator.cs:115-120 | writes the new language with the load-time subtitles flag |
| Language.LanguageConfigurator.SaveSubtitlesCondition | oim_ui/Assets/Source/UI/Configurators/Language/BNF_LanguageConfigurator.cs:122-127 | writes the new subtitles flag with the load-time language |
| Language.LanguageThenSubtitles | oim_ui/Assets/Source/UI/Configurators/Language/BNF_LanguageConfigurator.cs:115-127 | a language switch writes the new language, but a subtitles change afterwards writes the load-time language back |
| Localization.BuildTable | oim_ui/Assets/Source/UI/Configurators/Language/BNF_Localizer.cs:39-43 | the loaded table holds a language exactly when some locale record carries that id, and every entry is one of the records, stored under its own id |
| Localization.LastRecordWins | oim_ui/Assets/Source/UI/Configurators/Language/BNF_Localizer.cs:39-43 | a language has a table exactly when some record carries its id, and the table kept is that of the last such record |
| Localization.LookupAfterLoad | oim_ui/Assets/Source/UI/Configurators/Language/BNF_Localizer.cs:39-49 | after loading, the table holds the key for the language (so `GetLocalizedString` succeeds) exactly when the last record for the language holds the key, and returns that record's string |
| Localization.Localizer.Awake | oim_ui/Assets/Source/UI/Configurators/Language/BNF_Localizer.cs:27-44 | the first localizer becomes the registered instance, and any later one is marked destroyed and leaves the registration alone; either way the table is the in-order fold of the locale records |
| Localization.Localizer.GetLocalizedString | oim_ui/Assets/Source/UI/Configurators/Language/BNF_Localizer.cs:46-49 | succeeds exactly when the language and the key are both present, and returns the stored string; otherwise it throws `KeyNotFound` rather than returning a default; it only reads the table |

## Left out

- File I/O and JSON. A settings file is a `ConfigFile` holding its parsed content. Reading it is reading `content`; writing is assigning it. Path strings, serialisation and parse errors are not modelled.
- Unity's lifecycle. Creation plus `Awake` is the constructor, and `Start` runs once before any UI input (the UI methods require `started`). The relative order of different components' `Awake` and `Start` is not modelled.
- Static events are shared by all instances of a class. The model has one instance per configurator class.
- Subscribers of one component's event registered by another component. The language-recording subscribers are the `OnLanguageChanged` methods. Each is called on its own, not from `Language.LanguageConfigurator.SwitchLanguageToggle`. Three things are therefore not modelled: the order in which they run against `SaveLanguage`, a throw from one of them skipping `SaveLanguage`, and the title refresh subscribers (`UpdateLocale`, the player's gender title and gender label refresh).
- Unity's `Toggle` raises `onValueChanged` when `isOn` is assigned in code and the assigned value differs from the current one (BNF_LanguageConfigurator.cs:96-97). The model does not raise it, so loading publishes the saved language once, through the explicit call; in a scene where the toggle was off, the real load also runs the toggle's listener, and the subtitles switch's listener when its value changes.
- The same holds for the audio widgets: assigning a slider's `value` (BNF_AudioConfigurator.cs:159-162) or a muter's `isOn` (BNF_AudioConfigurator.cs:169-172) raises `onValueChanged` when the value changes, and the scene wires those events to the `Update…Volume` and `Mute…` entry points. The real load can therefore make more than the eight explicit publications, and Master can already be published by its slider before a later missing key throws at line 160. `Audio.AudioConfigurator.LoadVolumes` and `Audio.LoadEvents` state the load with unwired widgets only.
- Saved enum values outside the declared range. `GenderType` and `LocaleLanguage` are closed datatypes, so a saved file cannot hold, say, gender 3 or language 5. In the source such a gender makes `FindLast` return null, and `.Value` throws at BNF_PlayerConfigurator.cs:109; such a language is missing from `LanguageVariants`, and the indexer throws at BNF_LanguageConfigurator.cs:97. `Player.PlayerConfigurator.LoadConfiguration`, `Language.LanguageConfigurator.Start` and `Language.LanguageConfigurator.LoadLanguageConfiguration` therefore state the load for in-range values only.
- The display subscribers of the model and effect configurators (BNF_ModelConfigurator.cs:55, BNF_EffectConfigurator.cs:44) are left out. They index `ConfigurationsNames`, which the base class does not declare, and read text files.
- `Localization.Localizer.Awake`: `DontDestroyOnLoad` and the actual destruction of a second localizer are not modelled. The second localizer is only marked `destroyed`. It still loads its table, as the rest of `Awake` does in the source.
- The texture display and the player's gender label look strings up through the localizer the configurator holds, which stands for the static `BNF_Localizer.Instance`.
- Floating point. Volumes and the LOD bias are `real` and are only stored, copied and compared. No rounding is modelled.
- Volume sliders, mute toggles and their positions, titles and label refresh texts, the nickname field's enable and edit mode, the edit button, and `Debug.Log`.
- Wiring-only files: the audio sources (BNF_AudioSource.cs, BNF_MusicSource.cs, BNF_VoiceSource.cs, BNF_FXAudioSource.cs), BNF_CommonConfigurator.cs and Settings.cs. The audio sources' volume and mute subscribers only forward values to engine components; they are not modelled.
- `Audio.AudioConfigurator.constructor`: the dictionary is null before `Start`. It is modelled as the empty map, and the UI entry points require `started`.
- `Language.LanguageConfigurator.constructor`: the three language toggles and the subtitles switch must be distinct objects. This is a scene assumption; the source does not check it.
