/** The section-cursor store (`_ConfigReader` and `ConfigReader_manipulation`).

    The parsed configuration is taken as it is presented by the INI parser:
    a table from section name to the ordered key/value pairs of that
    section, which always holds the `DEFAULT` section. The store keeps a
    cursor: the current section's name and its view. */
module ConfigStore {
  import opened Wrappers
  import opened PathSearch

  type SectionView = seq<(string, string)>
  type Table = map<string, SectionView>

  const DefaultSection: string := "DEFAULT"

  /** Raised as `KeyError` by the source. */
  datatype StoreError = NoSuchSection(name: string)

  /** `view[key]`: the value paired with `key`, or None when no pair has it. */
  function Lookup(view: SectionView, key: string): (r: Option<string>)
    ensures r.None? <==> forall i | 0 <= i < |view| :: view[i].0 != key
    ensures r.Some? ==> (key, r.value) in view
  {
    if view == [] then None
    else if view[0].0 == key then Some(view[0].1)
    else Lookup(view[1..], key)
  }

  /** The parser never presents a key twice within one section. */
  ghost predicate DistinctKeys(view: SectionView)
  {
    forall i, j | 0 <= i < j < |view| :: view[i].0 != view[j].0
  }

  /** In a view without repeated keys, every pair that `items()` lists is
      what `get_value` finds for its key. */
  lemma LookupFindsListedPair(view: SectionView, key: string, value: string)
    requires DistinctKeys(view)
    requires (key, value) in view
    ensures Lookup(view, key) == Some(value)
  {
  }

  /** `_ConfigReader` together with the `items` of `ConfigReader_manipulation`. */
  class ConfigReader {
    /** The parsed configuration; never changed after construction. */
    const config: Table
    /** `_current_section_name` */
    var currentSectionName: string
    /** `section`: the view of the current section. */
    var section: SectionView

    /** The cursor names a section of the table and holds its view. */
    ghost predicate Valid()
      reads this
    {
      && DefaultSection in config
      && currentSectionName in config
      && section == config[currentSectionName]
    }

    /** The cursor part of `__init__`: start at the `DEFAULT` section. */
    constructor (config: Table)
      requires DefaultSection in config
      ensures Valid() && this.config == config
      ensures currentSectionName == DefaultSection && section == config[DefaultSection]
    {
      this.config := config;
      // `set_section('DEFAULT')` cannot fail: the table always holds DEFAULT
      currentSectionName := DefaultSection;
      section := config[DefaultSection];
    }

    /** `set_section(section_name)`: checks the name before changing anything. */
    method SetSection(name: string) returns (r: Outcome<StoreError>)
      requires Valid()
      modifies this
      ensures Valid()
      ensures r.Pass? <==> name in config
      ensures r.Pass? ==> currentSectionName == name && section == config[name]
      ensures r.Fail? ==> r.error == NoSuchSection(name)
      ensures r.Fail? ==> currentSectionName == old(currentSectionName) && section == old(section)
    {
      if name !in config {
        return Fail(NoSuchSection(name));
      }
      currentSectionName := name;
      section := config[name];
      return Pass;
    }

    /** `get_section(section_name)`: no name gives the current view; an
        unknown name is an error. */
    function GetSection(name: Option<string>): (r: Result<SectionView, StoreError>)
      reads this
      requires Valid()
      ensures name.None? ==> r == Ok(config[currentSectionName])
      ensures name.Some? ==> (r.Ok? <==> name.value in config)
      ensures name.Some? && r.Ok? ==> r.value == config[name.value]
      ensures r.Err? ==> name.Some? && r.error == NoSuchSection(name.value)
    {
      match name
      case None => Ok(section)
      case Some(n) => if n in config then Ok(config[n]) else Err(NoSuchSection(n))
    }

    /** `get_value(key, default_value)`: an empty current view first sends
        the cursor back to `DEFAULT`; a missing key yields the default. */
    method GetValue(key: string, default: Option<string>) returns (v: Option<string>)
      requires Valid()
      modifies this
      ensures Valid()
      ensures old(section) != [] ==>
                currentSectionName == old(currentSectionName) && section == old(section)
      ensures old(section) == [] ==>
                currentSectionName == DefaultSection && section == config[DefaultSection]
      ensures section == [] ==> config[DefaultSection] == []
      ensures Lookup(section, key).Some? ==> v == Lookup(section, key)
      ensures Lookup(section, key).None? ==> v == default
    {
      if section == [] {
        var reset := SetSection(DefaultSection);
      }
      var found := Lookup(section, key);
      match found
      case Some(value) => v := Some(value);
      case None => v := default;
    }

    /** `items()`: the pairs of the current view in order, after the same
        reset to `DEFAULT` as `get_value`. */
    method Items() returns (items: seq<(string, string)>)
      requires Valid()
      modifies this
      ensures Valid()
      ensures old(section) != [] ==>
                currentSectionName == old(currentSectionName) && section == old(section)
      ensures old(section) == [] ==>
                currentSectionName == DefaultSection && section == config[DefaultSection]
      ensures section == [] ==> config[DefaultSection] == []
      ensures items == config[currentSectionName]
    {
      if section == [] {
        var reset := SetSection(DefaultSection);
      }
      items := section;
    }
  }

  /** `_ConfigReader.__init__`: resolve the path, require the file to
      exist, then load `parsed` (what the parser reads from that file) and
      put the cursor on `DEFAULT`. `existing` is the set of paths that
      exist on the filesystem. */
  method Open(configFileName: string, callerPath: Option<Path>, cwd: Path, dirs: set<Path>,
              existing: set<Path>, parsed: Table)
    returns (r: Result<ConfigReader, SearchError>)
    requires DefaultSection in parsed
    ensures FirstCredentialsDir(cwd, dirs).None? ==> r == Err(NoCredentialsDir)
    ensures FirstCredentialsDir(cwd, dirs).Some? ==>
              var path := Join(Join(FirstCredentialsDir(cwd, dirs).value, CredentialsDirName), configFileName);
              (r.Ok? <==> path in existing) && (r.Err? ==> r.error == NoConfigFile(path))
    ensures r.Ok? ==> fresh(r.value) && r.value.Valid() && r.value.config == parsed
    ensures r.Ok? ==> r.value.currentSectionName == DefaultSection
                      && r.value.section == parsed[DefaultSection]
  {
    var found := GetConfigPath(configFileName, callerPath, cwd, dirs);
    if found.Err? {
      return Err(found.error);
    }
    var path := found.value;
    if path !in existing {
      return Err(NoConfigFile(path));
    }
    var reader := new ConfigReader(parsed);
    return Ok(reader);
  }
}
