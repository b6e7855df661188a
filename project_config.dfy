/**
 * The project configuration file, already parsed into sections of key/value
 * pairs, and the fields the environment derives from it.
 */
module ProjectConfig {
  import opened Wrappers
  import PyStrings

  /** A parsed INI document: section name to (key to raw value). */
  type ConfigData = map<string, map<string, string>>

  /**
   * `get_config`: the stored value of `field` in `section`, or `default` when
   * the section is missing or the key is missing in it (the two are not told apart).
   */
  function Get(cfg: ConfigData, section: string, field: string, default: Option<string>): (r: Option<string>)
    ensures section !in cfg ==> r == default
    ensures section in cfg && field !in cfg[section] ==> r == default
    ensures section in cfg && field in cfg[section] ==> r == Some(cfg[section][field])
  {
    if section in cfg && field in cfg[section] then Some(cfg[section][field]) else default
  }

  /**
   * The default matters exactly when the setting is absent: two lookups that
   * differ only in their default agree iff the key is stored or the defaults agree.
   */
  lemma GetDefaultOnlyWhenAbsent(cfg: ConfigData, section: string, field: string, d1: Option<string>, d2: Option<string>)
    ensures Get(cfg, section, field, d1) == Get(cfg, section, field, d2) <==>
            (section in cfg && field in cfg[section]) || d1 == d2
  {
  }

  /** The `schematic` value of section `Files`, a single space when it is absent. */
  function SchematicSetting(cfg: ConfigData): string
  {
    var v := Get(cfg, "Files", "schematic", Some(" "));
    v.value
  }

  /** `schematic_files`: the `schematic` setting split on ','. */
  function SchematicFiles(cfg: ConfigData): (r: seq<string>)
    ensures |r| >= 1
  {
    PyStrings.Split(SchematicSetting(cfg), ',')
  }

  /** Joining the schematic files with ',' gives back the setting they came from. */
  lemma SchematicFilesJoin(cfg: ConfigData)
    ensures PyStrings.Join(SchematicFiles(cfg), ',') == SchematicSetting(cfg)
    ensures forall i :: 0 <= i < |SchematicFiles(cfg)| ==> ',' !in SchematicFiles(cfg)[i]
  {
    PyStrings.JoinSplit(SchematicSetting(cfg), ',');
    PyStrings.SplitPiecesFree(SchematicSetting(cfg), ',');
  }

  /** Without a `schematic` key the list is the single string " ", not empty. */
  lemma SchematicFilesDefault(cfg: ConfigData)
    requires !("Files" in cfg && "schematic" in cfg["Files"])
    ensures SchematicFiles(cfg) == [" "]
  {
    PyStrings.SplitWithoutSeparator(" ", ',');
  }

  /** `schematic = a.sch,b.sch` gives the two file names in order. */
  lemma SchematicFilesTwo(cfg: ConfigData)
    requires "Files" in cfg && "schematic" in cfg["Files"]
    requires cfg["Files"]["schematic"] == "a.sch,b.sch"
    ensures SchematicFiles(cfg) == ["a.sch", "b.sch"]
  {
    PyStrings.SplitWithoutSeparator("b.sch", ',');
    PyStrings.SplitAfterPiece("a.sch", "b.sch", ',');
    assert "a.sch" + [','] + "b.sch" == "a.sch,b.sch";
  }

  /** A list of ','-free names written as a setting is read back as that same list. */
  lemma SchematicFilesRoundTrip(cfg: ConfigData, names: seq<string>)
    requires |names| >= 1 && forall i :: 0 <= i < |names| ==> ',' !in names[i]
    requires "Files" in cfg && "schematic" in cfg["Files"]
    requires cfg["Files"]["schematic"] == PyStrings.Join(names, ',')
    ensures SchematicFiles(cfg) == names
  {
    PyStrings.SplitJoin(names, ',');
  }
}
