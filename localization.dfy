/** The localizer: one string table per language, loaded from the locale
    records at start-up, and read by a two-level lookup. The first localizer
    created becomes the registered instance; later ones mark themselves
    destroyed. */
module Localization {
  import opened Common
  import opened Cycle
  import opened Language

  /** One locale record: its language, code, title and key/value table. */
  datatype LocaleProps = LocaleProps(id: LocaleLanguage, code: string, title: string, values: map<string, string>)

  /** The table after storing each record under its id, in list order: it
      holds a language exactly when some record carries that id, and every
      entry is one of the records, stored under its own id. */
  function BuildTable(records: seq<LocaleProps>): (table: map<LocaleLanguage, LocaleProps>)
    ensures forall l :: l in table <==> exists i :: 0 <= i < |records| && records[i].id == l
    ensures forall l | l in table :: table[l].id == l && table[l] in records
  {
    if records == [] then map[]
    else BuildTable(records[..|records| - 1])[records[|records| - 1].id := records[|records| - 1]]
  }

  /** The ids of the records, in list order. */
  function Ids(records: seq<LocaleProps>): (ids: seq<LocaleLanguage>)
    ensures |ids| == |records|
    ensures forall i :: 0 <= i < |records| ==> ids[i] == records[i].id
  {
    seq(|records|, i requires 0 <= i < |records| => records[i].id)
  }

  /** A language has a table exactly when some record carries its id, and the
      table kept is that of the last such record: later records replace
      earlier ones. */
  lemma {:induction false} LastRecordWins(records: seq<LocaleProps>, language: LocaleLanguage)
    ensures language in BuildTable(records) <==> FindLast(Ids(records), language).Some?
    ensures language in BuildTable(records) ==>
              BuildTable(records)[language] == records[FindLast(Ids(records), language).value]
  {
    if records != [] {
      var init := records[..|records| - 1];
      LastRecordWins(init, language);
      assert Ids(records)[..|records| - 1] == Ids(init);
    }
  }

  /** After loading, the table holds the key for a language (which is when
      `GetLocalizedString` succeeds) exactly when the last record for the
      language holds it, and the string is that record's. */
  lemma LookupAfterLoad(records: seq<LocaleProps>, language: LocaleLanguage, index: string)
    ensures (language in BuildTable(records) && index in BuildTable(records)[language].values) <==>
              (exists i :: 0 <= i < |records| && records[i].id == language &&
                 (forall j :: i < j < |records| ==> records[j].id != language) &&
                 index in records[i].values)
    ensures language in BuildTable(records) && index in BuildTable(records)[language].values ==>
              BuildTable(records)[language].values[index] ==
                records[FindLast(Ids(records), language).value].values[index]
  {
    LastRecordWins(records, language);
    var found := FindLast(Ids(records), language);
    if found.Some? {
      var k := found.value;
      forall i | 0 <= i < |records| && records[i].id == language &&
                 (forall j :: i < j < |records| ==> records[j].id != language)
        ensures i == k
      {
        assert records[k].id == language && Ids(records)[i] == language;
      }
    } else {
      forall i | 0 <= i < |records| ensures records[i].id != language {
        assert Ids(records)[i] == records[i].id;
      }
    }
  }

  /** Holds the registered localizer, the static `Instance` property. */
  class LocalizerRegistry {
    var instance: Localizer?

    constructor ()
      ensures instance == null
    {
      instance := null;
    }
  }

  class Localizer {
    var loadedLocaleProps: map<LocaleLanguage, LocaleProps>
    /** Whether `Destroy` was called on this component's game object. */
    var destroyed: bool

    /** Registers this localizer unless one is registered already, then loads
        every locale record in order. */
    constructor Awake(registry: LocalizerRegistry, localeFiles: seq<LocaleProps>)
      modifies registry
      ensures old(registry.instance) == null ==> registry.instance == this && !destroyed
      ensures old(registry.instance) != null ==> registry.instance == old(registry.instance) && destroyed
      ensures loadedLocaleProps == BuildTable(localeFiles)
    {
      loadedLocaleProps := map[];
      destroyed := false;
      new;
      if registry.instance == null {
        registry.instance := this;
      } else {
        destroyed := true;
      }
      var i := 0;
      while i < |localeFiles|
        invariant 0 <= i <= |localeFiles|
        invariant loadedLocaleProps == BuildTable(localeFiles[..i])
        invariant registry.instance == (if old(registry.instance) == null then this else old(registry.instance))
        invariant destroyed == (old(registry.instance) != null)
      {
        assert localeFiles[..i + 1][..i] == localeFiles[..i];
        loadedLocaleProps := loadedLocaleProps[localeFiles[i].id := localeFiles[i]];
        i := i + 1;
      }
      assert localeFiles[..i] == localeFiles;
    }

    /** The localized string for `index` in `language`; a missing language or
        key throws rather than falling back to a default. */
    function GetLocalizedString(language: LocaleLanguage, index: string): (r: Result<string>)
      reads this
      ensures r.Ok? <==> language in loadedLocaleProps && index in loadedLocaleProps[language].values
      ensures r.Ok? ==> r.value == loadedLocaleProps[language].values[index]
      ensures r.Err? ==> r.error == KeyNotFound
    {
      if language !in loadedLocaleProps then Err(KeyNotFound)
      else if index !in loadedLocaleProps[language].values then Err(KeyNotFound)
      else Ok(loadedLocaleProps[language].values[index])
    }
  }
}
