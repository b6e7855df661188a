/**
 * The runtime environment of the gEDA/pcb toolchain: the symbol and package
 * search paths, lazily built indexes of the library files under them, and
 * the fields read from a project configuration file.
 */
module Environment {
  import opened Wrappers
  import PyStrings
  import PosixPath
  import RcFile
  import LibraryIndex
  import ProjectConfig

  /** Locations under the gEDA and pcb install roots, and the local ones. */
  const SystemGschemrc := "/share/gEDA/system-gschemrc"
  const SystemGafrc := "/share/gEDA/system-gafrc"
  const LocalGafrc := "./gafrc"
  const SymbolDir := "/share/gEDA/sym"
  const LocalPackages := "./packages"
  const PcbNewlib := "/share/pcb/newlib"
  const PcbPcblibNewlib := "/share/pcb/pcblib-newlib"

  /** The resource-file property that lists extra symbol directories. */
  const LibraryProperty := "component-library"

  /** The character stripped from both ends of a symbol directory. */
  const Quote: set<char> := {'"'}

  /** The advisory warning for a project file without a project name. */
  const NoProjectName := "No project name specified."

  /** `component-library` contains no regular-expression metacharacter. */
  lemma LibraryPropertyIsLiteral()
    ensures RcFile.LiteralName(LibraryProperty)
  {
  }

  /** How reading a project file ended: done (or skipped), or the file could not be opened. */
  datatype Outcome = Done | FileNotFound(path: string)

  /** Each resource-file value with its surrounding double quotes removed, in order. */
  function Unquoted(libs: seq<string>): seq<string>
  {
    if libs == [] then []
    else Unquoted(libs[..|libs| - 1]) + [PyStrings.StripChars(libs[|libs| - 1], Quote)]
  }

  /** The symbol search path built from the resource-file values and the gEDA root. */
  function SymbolSearchPath(libs: seq<string>, gEDAPath: string): seq<string>
  {
    Unquoted(libs) + [gEDAPath + SymbolDir]
  }

  /**
   * The symbol search path holds one quote-stripped entry per value, in the
   * values' order, and ends with the built-in symbol directory.
   */
  lemma {:induction false} SymbolSearchPathSpec(libs: seq<string>, gEDAPath: string)
    ensures var r := SymbolSearchPath(libs, gEDAPath);
      |r| == |libs| + 1 &&
      (forall i :: 0 <= i < |libs| ==> r[i] == PyStrings.StripChars(libs[i], Quote)) &&
      r[|libs|] == gEDAPath + SymbolDir
    decreases |libs|
  {
    if libs != [] {
      var n := |libs| - 1;
      SymbolSearchPathSpec(libs[..n], gEDAPath);
    }
  }

  class Env {
    /** Install roots of gschem and (when found) pcb. */
    var gEDAPath: string
    var pcbPath: Option<string>

    /** Search paths, in priority order; duplicates are kept. */
    var symbolPath: seq<string>
    var packagePath: seq<string>

    /** The memoised indexes `_all_symbols` and `_all_packages`. */
    var allSymbolsCache: seq<string>
    var allPackagesCache: seq<string>

    /** The parsed project file and the fields derived from it. */
    var config: Option<ProjectConfig.ConfigData>
    var inventoryServer: Option<string>
    var schematicFiles: Option<seq<string>>
    var pcbFile: Option<string>
    var outputPath: Option<string>
    var projectPackagePath: Option<string>
    var projectName: Option<string>
    var projectNumber: Option<string>
    var pcbVersion: Option<string>

    /** Warnings handed to the logging collaborator, oldest first. */
    var warnings: seq<string>

    /** Nothing ever stores into `_all_packages`: it stays empty for the object's lifetime. */
    ghost predicate PackagesNeverIndexed()
      reads this
    {
      allPackagesCache == []
    }

    /**
     * Builds the search paths from the install roots: the quote-stripped
     * `component-library` values of the system gschemrc and of ./gafrc, then
     * the built-in symbol directory; ./packages, then the two pcb libraries
     * when a pcb root is known.
     */
    constructor (gEDAPath: string, pcbPath: Option<string>, fs: RcFile.FileSystem)
      ensures this.gEDAPath == gEDAPath && this.pcbPath == pcbPath
      ensures symbolPath == SymbolSearchPath(
                RcFile.Properties(LibraryProperty, fs, gEDAPath + SystemGschemrc) +
                RcFile.Properties(LibraryProperty, fs, LocalGafrc), gEDAPath)
      ensures packagePath == [LocalPackages] +
                (if Truthy(pcbPath) then [pcbPath.value + PcbNewlib, pcbPath.value + PcbPcblibNewlib] else [])
      ensures allSymbolsCache == [] && PackagesNeverIndexed()
      ensures config == None && inventoryServer == None && schematicFiles == None
      ensures pcbFile == None && outputPath == None && projectPackagePath == None
      ensures projectName == None && projectNumber == None && pcbVersion == None
      ensures warnings == []
    {
      this.gEDAPath := gEDAPath;
      this.pcbPath := pcbPath;
      symbolPath := [];
      packagePath := [];
      allSymbolsCache := [];
      allPackagesCache := [];
      config := None;
      inventoryServer := None;
      schematicFiles := None;
      pcbFile := None;
      outputPath := None;
      projectPackagePath := None;
      projectName := None;
      projectNumber := None;
      pcbVersion := None;
      warnings := [];
      new;
      CollectSymbolPaths(fs);
      CollectPackagePaths();
      assert [] + [LocalPackages] == [LocalPackages];
    }

    /** The symbol half of the constructor: resource-file directories, then the built-in one. */
    method CollectSymbolPaths(fs: RcFile.FileSystem)
      modifies this`symbolPath
      ensures symbolPath == old(symbolPath) + SymbolSearchPath(
                RcFile.Properties(LibraryProperty, fs, gEDAPath + SystemGschemrc) +
                RcFile.Properties(LibraryProperty, fs, LocalGafrc), gEDAPath)
    {
      LibraryPropertyIsLiteral();
      var libs := GschemProperties(LibraryProperty, fs);
      ghost var before := symbolPath;
      var i := 0;
      while i < |libs|
        invariant 0 <= i <= |libs|
        invariant symbolPath == before + Unquoted(libs[..i])
      {
        symbolPath := symbolPath + [PyStrings.StripChars(libs[i], Quote)];
        assert libs[..i + 1][..i] == libs[..i];
        i := i + 1;
      }
      assert libs[..i] == libs;
      symbolPath := symbolPath + [gEDAPath + SymbolDir];
    }

    /** The package half of the constructor: ./packages, then the pcb libraries if pcb was found. */
    method CollectPackagePaths()
      modifies this`packagePath
      ensures packagePath == old(packagePath) + [LocalPackages] +
                (if Truthy(pcbPath) then [pcbPath.value + PcbNewlib, pcbPath.value + PcbPcblibNewlib] else [])
    {
      packagePath := packagePath + [LocalPackages];
      if Truthy(pcbPath) {
        packagePath := packagePath + [pcbPath.value + PcbNewlib];
        packagePath := packagePath + [pcbPath.value + PcbPcblibNewlib];
      }
    }

    /**
     * `rc_properties`: the values of the `(name VALUE)` records of a
     * resource file, in file order; none when the file does not exist.
     */
    method RcProperties(name: string, rcfile: string, fs: RcFile.FileSystem) returns (r: seq<string>)
      requires RcFile.LiteralName(name)
      ensures r == RcFile.Properties(name, fs, rcfile)
    {
      if rcfile !in fs {
        return [];
      }
      var lines := fs[rcfile];
      r := [];
      var i := 0;
      while i < |lines|
        invariant 0 <= i <= |lines|
        invariant r == RcFile.Values(name, lines[..i])
      {
        var line := PyStrings.Strip(lines[i]);
        if RcFile.IsRecord(name, line) {
          r := r + [RcFile.RecordValue(name, line)];
        }
        assert lines[..i + 1][..i] == lines[..i];
        assert RcFile.Values(name, lines[..i + 1]) == RcFile.Values(name, lines[..i]) + RcFile.LineValues(name, lines[i]);
        i := i + 1;
      }
      assert lines[..i] == lines;
    }

    /** `gschem_properties`: the system gschemrc's values, then those of ./gafrc. */
    method GschemProperties(name: string, fs: RcFile.FileSystem) returns (r: seq<string>)
      requires RcFile.LiteralName(name)
      ensures r == RcFile.Properties(name, fs, gEDAPath + SystemGschemrc) +
                   RcFile.Properties(name, fs, LocalGafrc)
    {
      r := [];
      var system := RcProperties(name, gEDAPath + SystemGschemrc, fs);
      r := r + system;
      var local := RcProperties(name, LocalGafrc, fs);
      r := r + local;
    }

    /** `gaf_properties`: the system gafrc's values, then those of ./gafrc. */
    method GafProperties(name: string, fs: RcFile.FileSystem) returns (r: seq<string>)
      requires RcFile.LiteralName(name)
      ensures r == RcFile.Properties(name, fs, gEDAPath + SystemGafrc) +
                   RcFile.Properties(name, fs, LocalGafrc)
    {
      r := [];
      var system := RcProperties(name, gEDAPath + SystemGafrc, fs);
      r := r + system;
      var local := RcProperties(name, LocalGafrc, fs);
      r := r + local;
    }

    /**
     * `all_packages`, as written: while `_all_packages` is empty it walks the
     * package path but appends what it finds to `_all_symbols`, then returns
     * `_all_packages`, which it never changes.
     */
    method AllPackages(walk: LibraryIndex.Walker) returns (r: seq<string>)
      modifies this`allSymbolsCache
      ensures r == allPackagesCache
      ensures allSymbolsCache ==
                if allPackagesCache == [] then old(allSymbolsCache) + LibraryIndex.Index(packagePath, walk)
                else old(allSymbolsCache)
    {
      if allPackagesCache != [] {
        return allPackagesCache;
      }
      var found := LibraryIndex.ListAll(packagePath, walk);
      allSymbolsCache := allSymbolsCache + found;
      r := allPackagesCache;
    }

    /** `package_files`: the entries of `all_packages` whose basename is `name`. */
    method PackageFiles(name: string, walk: LibraryIndex.Walker) returns (r: seq<string>)
      modifies this`allSymbolsCache
      ensures allSymbolsCache ==
                if allPackagesCache == [] then old(allSymbolsCache) + LibraryIndex.Index(packagePath, walk)
                else old(allSymbolsCache)
      ensures r == LibraryIndex.WithBasename(allPackagesCache, name)
      ensures PackagesNeverIndexed() ==> r == []
    {
      var packages := AllPackages(walk);
      r := LibraryIndex.SelectByBasename(packages, name);
    }

    /**
     * `all_symbols`: returns the cached index when it is non-empty and
     * changes nothing; otherwise indexes every file under the symbol path.
     */
    method AllSymbols(walk: LibraryIndex.Walker) returns (r: seq<string>)
      modifies this`allSymbolsCache
      ensures allSymbolsCache ==
                if old(allSymbolsCache) == [] then LibraryIndex.Index(symbolPath, walk)
                else old(allSymbolsCache)
      ensures r == allSymbolsCache
    {
      if allSymbolsCache != [] {
        return allSymbolsCache;
      }
      var found := LibraryIndex.ListAll(symbolPath, walk);
      assert allSymbolsCache + found == found;
      allSymbolsCache := allSymbolsCache + found;
      r := allSymbolsCache;
    }

    /** `sym_files`: the entries of `all_symbols` whose basename is `name`. */
    method SymFiles(name: string, walk: LibraryIndex.Walker) returns (r: seq<string>)
      modifies this`allSymbolsCache
      ensures allSymbolsCache ==
                if old(allSymbolsCache) == [] then LibraryIndex.Index(symbolPath, walk)
                else old(allSymbolsCache)
      ensures r == LibraryIndex.WithBasename(allSymbolsCache, name)
    {
      var symbols := AllSymbols(walk);
      r := LibraryIndex.SelectByBasename(symbols, name);
    }

    /**
     * `all_packages` as evidently intended: memoise the package index in
     * `_all_packages`, leaving the symbol index alone.
     */
    method AllPackagesIntended(walk: LibraryIndex.Walker) returns (r: seq<string>)
      modifies this`allPackagesCache
      ensures allPackagesCache ==
                if old(allPackagesCache) == [] then LibraryIndex.Index(packagePath, walk)
                else old(allPackagesCache)
      ensures r == allPackagesCache
    {
      if allPackagesCache != [] {
        return allPackagesCache;
      }
      var found := LibraryIndex.ListAll(packagePath, walk);
      assert allPackagesCache + found == found;
      allPackagesCache := allPackagesCache + found;
      r := allPackagesCache;
    }

    /**
     * `check_project_file`: nothing happens for a falsy file name; a file that
     * cannot be opened fails after the (empty) parser has been installed;
     * otherwise every field is read with its default, `package path` extends
     * the package search path when non-empty, and a missing project name
     * logs one warning.
     */
    method CheckProjectFile(file: Option<string>, projects: map<string, ProjectConfig.ConfigData>)
      returns (outcome: Outcome)
      modifies this`config, this`inventoryServer, this`schematicFiles, this`pcbFile,
               this`outputPath, this`projectPackagePath, this`packagePath, this`projectName,
               this`warnings, this`projectNumber, this`pcbVersion
      ensures !Truthy(file) ==> outcome == Done && unchanged(this)
      ensures Truthy(file) && file.value !in projects ==>
                outcome == FileNotFound(file.value) && config == Some(map[]) &&
                unchanged(this`inventoryServer, this`schematicFiles, this`pcbFile, this`outputPath,
                          this`projectPackagePath, this`packagePath, this`projectName, this`warnings,
                          this`projectNumber, this`pcbVersion)
      ensures Truthy(file) && file.value in projects ==>
                outcome == Done && ProjectRead(projects[file.value], old(packagePath), old(warnings))
    {
      if !Truthy(file) {
        return Done;
      }
      config := Some(map[]);
      if file.value !in projects {
        return FileNotFound(file.value);
      }
      ReadProject(projects[file.value]);
      outcome := Done;
    }

    /** Every field `check_project_file` derives from `cfg`, after the package path and warnings given. */
    ghost predicate ProjectRead(cfg: ProjectConfig.ConfigData, packagesBefore: seq<string>, warningsBefore: seq<string>)
      reads this
    {
      config == Some(cfg) &&
      inventoryServer == ProjectConfig.Get(cfg, "Inventory", "url", None) &&
      FilesSectionRead(cfg, packagesBefore) &&
      OptionsSectionRead(cfg, warningsBefore)
    }

    /** Installs a parsed project file and reads every field from it. */
    method ReadProject(cfg: ProjectConfig.ConfigData)
      modifies this`config, this`inventoryServer, this`schematicFiles, this`pcbFile,
               this`outputPath, this`projectPackagePath, this`packagePath, this`projectName,
               this`warnings, this`projectNumber, this`pcbVersion
      ensures ProjectRead(cfg, old(packagePath), old(warnings))
    {
      config := Some(cfg);
      inventoryServer := ProjectConfig.Get(cfg, "Inventory", "url", None);
      ReadFilesSection(cfg);
      ReadOptionsSection(cfg);
    }

    /** The fields of the `Files` section, read from `cfg`, after the package path `before`. */
    ghost predicate FilesSectionRead(cfg: ProjectConfig.ConfigData, before: seq<string>)
      reads this`schematicFiles, this`pcbFile, this`outputPath, this`projectPackagePath, this`packagePath
    {
      schematicFiles == Some(ProjectConfig.SchematicFiles(cfg)) &&
      pcbFile == ProjectConfig.Get(cfg, "Files", "pcb", None) &&
      outputPath == ProjectConfig.Get(cfg, "Files", "output path", None) &&
      projectPackagePath == ProjectConfig.Get(cfg, "Files", "package path", None) &&
      packagePath == before + (if Truthy(projectPackagePath) then [projectPackagePath.value] else [])
    }

    /** The fields of the `Options` section, read from `cfg`, after the warnings `before`. */
    ghost predicate OptionsSectionRead(cfg: ProjectConfig.ConfigData, before: seq<string>)
      reads this`projectName, this`warnings, this`projectNumber, this`pcbVersion
    {
      projectName == ProjectConfig.Get(cfg, "Options", "project name", None) &&
      warnings == before + (if projectName == None then [NoProjectName] else []) &&
      projectNumber == ProjectConfig.Get(cfg, "Options", "project number", None) &&
      pcbVersion == ProjectConfig.Get(cfg, "Options", "pcb version", None)
    }

    /** The `Files` part of `check_project_file`. */
    method ReadFilesSection(cfg: ProjectConfig.ConfigData)
      modifies this`schematicFiles, this`pcbFile, this`outputPath, this`projectPackagePath, this`packagePath
      ensures FilesSectionRead(cfg, old(packagePath))
    {
      schematicFiles := Some(ProjectConfig.SchematicFiles(cfg));
      pcbFile := ProjectConfig.Get(cfg, "Files", "pcb", None);
      outputPath := ProjectConfig.Get(cfg, "Files", "output path", None);
      projectPackagePath := ProjectConfig.Get(cfg, "Files", "package path", None);
      if Truthy(projectPackagePath) {
        packagePath := packagePath + [projectPackagePath.value];
      }
    }

    /** The `Options` part of `check_project_file`. */
    method ReadOptionsSection(cfg: ProjectConfig.ConfigData)
      modifies this`projectName, this`warnings, this`projectNumber, this`pcbVersion
      ensures OptionsSectionRead(cfg, old(warnings))
    {
      projectName := ProjectConfig.Get(cfg, "Options", "project name", None);
      if projectName == None {
        warnings := warnings + [NoProjectName];
      }
      projectNumber := ProjectConfig.Get(cfg, "Options", "project number", None);
      pcbVersion := ProjectConfig.Get(cfg, "Options", "pcb version", None);
    }
  }

  /**
   * Once `package_files` has run on a fresh environment, `sym_files` no
   * longer indexes the symbol path: `_all_symbols` already holds the package
   * files (when there are any), so symbols are looked up among packages,
   * while the package lookup itself found nothing.
   */
  method PackageLookupThenSymbolLookup(e: Env, walk: LibraryIndex.Walker, pkg: string, sym: string)
    returns (pkgs: seq<string>, syms: seq<string>)
    requires e.allSymbolsCache == [] && e.PackagesNeverIndexed()
    requires LibraryIndex.Index(e.packagePath, walk) != []
    modifies e`allSymbolsCache
    ensures pkgs == []
    ensures syms == LibraryIndex.WithBasename(LibraryIndex.Index(e.packagePath, walk), sym)
  {
    pkgs := e.PackageFiles(pkg, walk);
    assert [] + LibraryIndex.Index(e.packagePath, walk) == LibraryIndex.Index(e.packagePath, walk);
    syms := e.SymFiles(sym, walk);
  }

  /** A walker that finds one footprint file, `r0805.fp`, under ./packages. */
  function OneFootprint(dir: string): seq<LibraryIndex.WalkDir>
  {
    if dir == LocalPackages then [LibraryIndex.WalkDir(LocalPackages, ["r0805.fp"])] else []
  }

  /**
   * With one footprint on the package path, the package index holds it and a
   * basename lookup over that index finds it.
   */
  lemma MissedFootprint()
    ensures LibraryIndex.Index([LocalPackages], OneFootprint) == ["./packages/r0805.fp"]
    ensures LibraryIndex.WithBasename(LibraryIndex.Index([LocalPackages], OneFootprint), "r0805.fp")
              == ["./packages/r0805.fp"]
  {
    var idx := LibraryIndex.Index([LocalPackages], OneFootprint);
    assert [LocalPackages][..0] == [];
    assert LibraryIndex.Joined(LocalPackages, ["r0805.fp"]) == ["./packages/r0805.fp"] by {
      assert ["r0805.fp"][..0] == [];
      assert PosixPath.Join(LocalPackages, "r0805.fp") == "./packages/r0805.fp";
    }
    assert LibraryIndex.Walked(OneFootprint(LocalPackages)) == ["./packages/r0805.fp"] by {
      assert OneFootprint(LocalPackages)[..0] == [];
    }
    PosixPath.BasenameOfJoin(LocalPackages, "r0805.fp");
    assert idx[..0] == [];
  }

  /**
   * The as-written `package_files` on a fresh environment without a pcb root,
   * with `r0805.fp` under ./packages: the lookup finds nothing, and the
   * footprint ends up in the symbol cache instead.
   */
  method PackageFilesMissesFootprint() returns (found: seq<string>, symbols: seq<string>)
    ensures found == []
    ensures symbols == ["./packages/r0805.fp"]
  {
    var e := new Env("/usr", None, map[]);
    found := e.PackageFiles("r0805.fp", OneFootprint);
    MissedFootprint();
    symbols := e.allSymbolsCache;
  }
}
