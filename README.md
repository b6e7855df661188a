# pygeda environment model

This project models `Env`, the runtime environment of pygeda, a support tool for the gEDA/pcb
toolchain. Dafny proves properties of the model. `Env` does four jobs:

- **Resource-file records.** It reads gEDA resource files and keeps the value of every stripped
  line of the form `(NAME VALUE)`. The value runs up to the *last* `)` of the line, so it may
  contain parentheses. A missing file gives no values.
- **Search paths.** The symbol search path holds the quote-stripped `component-library` values of
  the system `system-gschemrc` and of `./gafrc`, in that order, followed by the built-in
  `share/gEDA/sym` directory. The package search path holds `./packages`, then the pcb
  `newlib` and `pcblib-newlib` directories when a pcb root is known.
- **Library indexes.** It builds a flat list of every file walked under the search paths and
  memoises it. A file is looked up by its basename.
- **Project configuration.** A parsed project file fills the project fields. A missing setting
  falls back to its default. The `schematic` setting is split on `,` and defaults to `" "`. A
  non-empty `package path` is appended to the package search path. A missing project name logs
  one warning.

Modules:

- `Wrappers`: `Option` and Python truthiness.
- `PyStrings`: `strip`, `strip(chars)`, `split` and `join`.
- `PosixPath`: `basename` and `join`.
- `RcFile`: the record syntax and the values of a file.
- `LibraryIndex`: walks, indexes and basename lookup.
- `ProjectConfig`: the defaulting accessor and `schematic_files`.
- `Environment`: the class `Env`, whose methods update its fields in place.

The model takes the world outside the process as parameters:

- Resource files are a map from path to the file's lines. A path that is present is a regular
  file.
- `os.walk` is a given function from a top directory to the directories it visits. Each visited
  directory has a root and file names.
- Installed project files are a map from path to the already-parsed sections.
- The gEDA root and the optional pcb root are constructor arguments.

Where the code departs from what it evidently intends, the model follows the code:

- `all_packages` fills the symbol cache, not the package cache (see Findings).
- A pcb root that turns out not to be a directory stays set (pygeda/lib/env.py:98-101). Its two
  package directories are then still added. Here `pcbPath` is the value left after discovery.

## Model

| member | source | states |
|---|---|---|
| `PyStrings.TrimStartSpec` | pygeda/lib/env.py:52 | left trimming keeps a suffix that does not start with a stripped character and cuts only stripped characters |
| `PyStrings.TrimEndSpec` | pygeda/lib/env.py:52 | right trimming keeps a prefix that does not end with a stripped character and cuts only stripped characters |
| `PyStrings.StripCharsSpec` | pygeda/lib/env.py:106 | `strip(chars)` returns the infix left after cutting characters of `chars` from both ends; it neither starts nor ends with one |
| `PyStrings.StripCharsIdempotent` | pygeda/lib/env.py:52 | stripping a stripped string changes nothing |
| `PyStrings.Split` | pygeda/lib/env.py:170 | `split` always yields at least one piece |
| `PyStrings.SplitPiecesFree` | pygeda/lib/env.py:170 | no piece of a split contains the separator |
| `PyStrings.JoinSplit` | pygeda/lib/env.py:170 | joining the pieces of a split with the separator gives back the string |
| `PyStrings.SplitWithoutSeparator` | pygeda/lib/env.py:170 | a string without the separator splits into itself alone |
| `PyStrings.SplitAfterPiece` | pygeda/lib/env.py:170 | a separator-free first piece followed by the separator splits off as its own piece |
| `PyStrings.SplitJoin` | pygeda/lib/env.py:170 | splitting a join of separator-free pieces gives back the pieces (the inverse direction) |
| `PosixPath.BasenameSpec` | pygeda/lib/env.py:128 | `basename` is the suffix after the last '/': it has no '/', and a '/' precedes it when it is shorter than the path |
| `PosixPath.JoinShape` | pygeda/lib/env.py:139 | `join(a, b)` ends with `b`; an absolute `b` replaces `a`; otherwise the result starts with `a`, with at most one '/' before `b` |
| `PosixPath.BasenameAfterSlash` | pygeda/lib/env.py:145 | a '/'-free name after an empty or '/'-terminated prefix is its own basename |
| `PosixPath.BasenameOfJoin` | pygeda/lib/env.py:139 | a walked file name joined onto any root is recovered by `basename` |
| `RcFile.RecordValue` | pygeda/lib/env.py:48 | the captured value is non-empty, has no newline, and the record is exactly opening + value + ")" |
| `RcFile.RecordRoundTrip` | pygeda/lib/env.py:48 | a record written for any non-empty one-line value matches the pattern and reads back as that value |
| `RcFile.ValuesAppend` | pygeda/lib/env.py:51-55 | the values of two consecutive runs of lines are the first run's values followed by the second's |
| `RcFile.ValuesLength` | pygeda/lib/env.py:51-55 | there is exactly one value per matching line |
| `RcFile.ValuesAt` | pygeda/lib/env.py:51-55 | a matching line's value sits right after the values of the lines before it |
| `RcFile.ValuesInOrder` | pygeda/lib/env.py:51-55 | of two matching lines, the earlier one's value comes first |
| `RcFile.ValuesSound` | pygeda/lib/env.py:51-55 | every returned value is the value of some matching stripped line |
| `RcFile.ValuesNone` | pygeda/lib/env.py:51-55 | a file without matching lines yields `[]` |
| `LibraryIndex.JoinedAt` | pygeda/lib/env.py:138-139 | the k-th path of a visited directory is `join(root, files[k])` |
| `LibraryIndex.JoinedLength` | pygeda/lib/env.py:138-139 | a visited directory contributes one path per file |
| `LibraryIndex.WithBasenameSound` | pygeda/lib/env.py:144-146 | a lookup returns only indexed entries with the requested basename |
| `LibraryIndex.WithBasenameComplete` | pygeda/lib/env.py:144-146 | a lookup returns every indexed entry with the requested basename |
| `LibraryIndex.WithBasenameIsSubsequence` | pygeda/lib/env.py:144-146 | a lookup keeps its matches in index order (an order-preserving subsequence) |
| `LibraryIndex.WithBasenameMultiplicity` | pygeda/lib/env.py:144-146 | a lookup keeps duplicates: an entry with the requested basename occurs in the result exactly as often as in the index, any other entry never |
| `LibraryIndex.WithBasenameEmpty` | pygeda/lib/env.py:142-147 | a lookup is `[]` exactly when no entry has that basename |
| `LibraryIndex.IndexAppend` | pygeda/lib/env.py:136-139 | the index of consecutive search-path parts is their indexes concatenated, so earlier search-path entries come first |
| `LibraryIndex.WalkedComplete` | pygeda/lib/env.py:137-139 | every file of every visited directory is in that walk's paths |
| `LibraryIndex.WalkedSound` | pygeda/lib/env.py:137-139 | every path of a walk is a file of one of its visited directories joined onto its root |
| `LibraryIndex.IndexComplete` | pygeda/lib/env.py:136-139 | every file walked under any search-path entry is in the index |
| `LibraryIndex.IndexSound` | pygeda/lib/env.py:136-139 | everything in the index is a file walked under some search-path entry |
| `LibraryIndex.FindWalkedFile` | pygeda/lib/env.py:136-146 | every walked file is found when its own name is looked up in the index |
| `LibraryIndex.ListAll` | pygeda/lib/env.py:136-139 | the nested walk loop produces exactly the index of the search path |
| `LibraryIndex.ListWalk` | pygeda/lib/env.py:137-139 | the loop over one walk produces exactly that walk's paths, in order |
| `LibraryIndex.SelectByBasename` | pygeda/lib/env.py:143-147 | the filtering loop returns exactly the basename lookup of its input |
| `ProjectConfig.Get` | pygeda/lib/env.py:149-155 | the stored value when both section and key exist; the default when the section or the key is missing |
| `ProjectConfig.GetDefaultOnlyWhenAbsent` | pygeda/lib/env.py:149-155 | two lookups that differ only in their default agree iff the key is stored or the defaults agree |
| `ProjectConfig.SchematicFiles` | pygeda/lib/env.py:169-170 | `schematic_files` always has at least one entry |
| `ProjectConfig.SchematicFilesJoin` | pygeda/lib/env.py:169-170 | joining `schematic_files` with ',' gives back the setting, and no entry contains ',' |
| `ProjectConfig.SchematicFilesDefault` | pygeda/lib/env.py:169-170 | without a `schematic` key, `schematic_files` is `[" "]`, not `[]` |
| `ProjectConfig.SchematicFilesTwo` | pygeda/lib/env.py:169-170 | `schematic = a.sch,b.sch` gives `["a.sch", "b.sch"]` |
| `ProjectConfig.SchematicFilesRoundTrip` | pygeda/lib/env.py:169-170 | a list of ','-free names written as the setting is read back as the same list |
| `Environment.LibraryPropertyIsLiteral` | pygeda/lib/env.py:105 | `component-library` contains no regular-expression metacharacter, so the pattern matches it literally |
| `Environment.SymbolSearchPathSpec` | pygeda/lib/env.py:105-107 | one quote-stripped entry per `component-library` value, in order, then `gEDA_path + '/share/gEDA/sym'` last |
| `Environment.Env.constructor` | pygeda/lib/env.py:104-113 | symbol path as above from the system gschemrc and ./gafrc; package path `./packages` plus both pcb directories iff the pcb root is truthy; empty caches; no project fields; no warnings |
| `Environment.Env.CollectSymbolPaths` | pygeda/lib/env.py:104-107 | appends the symbol search path built from the gschem properties |
| `Environment.Env.CollectPackagePaths` | pygeda/lib/env.py:109-113 | appends `./packages`, then `newlib` and `pcblib-newlib` under the pcb root when it is truthy |
| `Environment.Env.RcProperties` | pygeda/lib/env.py:45-57 | returns `[]` for a missing file, otherwise the values of the matching stripped lines in file order |
| `Environment.Env.GschemProperties` | pygeda/lib/env.py:59-64 | system gschemrc values followed by ./gafrc values, duplicates kept |
| `Environment.Env.GafProperties` | pygeda/lib/env.py:66-71 | system gafrc values followed by ./gafrc values, duplicates kept |
| `Environment.Env.AllPackages` | pygeda/lib/env.py:115-123 | as written: returns `_all_packages` unchanged; while it is empty, appends the package index to `_all_symbols` |
| `Environment.Env.PackageFiles` | pygeda/lib/env.py:125-130 | the basename lookup over `_all_packages`, which is `[]` whenever `_all_packages` is empty; the symbol cache grows as in `all_packages` |
| `Environment.Env.AllSymbols` | pygeda/lib/env.py:132-140 | a non-empty cache is returned with no state change; an empty one becomes the index of the symbol path |
| `Environment.Env.SymFiles` | pygeda/lib/env.py:142-147 | the basename lookup over the (possibly just built) symbol cache |
| `Environment.Env.AllPackagesIntended` | pygeda/lib/env.py:115-123 | corrected `all_packages`: memoises the package index in `_all_packages` and leaves the symbol cache alone |
| `Environment.Env.CheckProjectFile` | pygeda/lib/env.py:157-185 | a falsy file changes nothing; a missing file fails after installing an empty config; otherwise all fields are read as `ReadProject` states |
| `Environment.Env.ReadProject` | pygeda/lib/env.py:162-185 | config installed; `inventory_server` from `[Inventory] url`; then the Files and Options sections |
| `Environment.Env.ReadFilesSection` | pygeda/lib/env.py:168-177 | schematic list, pcb file, output path and package path read with defaults; the package path is appended iff it is non-empty |
| `Environment.Env.ReadOptionsSection` | pygeda/lib/env.py:179-185 | project name, number and pcb version read with defaults; exactly one warning iff the project name is missing |
| `Environment.PackageLookupThenSymbolLookup` | pygeda/lib/env.py:116-146 | on a fresh environment with package files, `package_files` returns `[]` and a later `sym_files` searches the package files only |
| `Environment.MissedFootprint` | pygeda/lib/env.py:119-130 | with `./packages/r0805.fp` walked, the package index holds it and a lookup over that index finds it |
| `Environment.PackageFilesMissesFootprint` | pygeda/lib/env.py:115-130 | on a fresh environment with `./packages/r0805.fp` walked, `package_files('r0805.fp')` returns `[]` and the footprint lands in `_all_symbols` |

## Left out

- Executable discovery (pygeda/lib/env.py:84-102) is left out. This covers `type -p`, `realpath`, `isdir`, the fatal error for a missing gschem, and the warning for a missing pcb. The gEDA root and the pcb root found by discovery are constructor arguments.
- `get_bin_path` (pygeda/lib/env.py:73-79) is left out: it computes a path, returns nothing, and has no caller.
- File-system access is given as data: `os.path.isfile`, `open` and `readlines` become a map from paths to lines, and `os.walk` becomes a given function. The order `os.walk` visits files in is whatever that function returns.
- ConfigParser is left out: INI parsing, syntax errors, `%` interpolation, the DEFAULT section and option-name lowercasing. A project file is given already parsed into nested maps. Any failure to open it is the `FileNotFound` outcome.
- `Env.RcProperties`: requires a property name without regular-expression metacharacters. The source pastes the name into the pattern unescaped, and such names would match differently there. The only name the environment uses, `component-library`, meets this requirement.
- `Env.GschemProperties`: same requirement on the property name as `Env.RcProperties`.
- `Env.GafProperties`: same requirement on the property name as `Env.RcProperties`.
- Logging through `message` becomes appending the text to `warnings`. The severity level is not kept.
- Python shares the class-level lists `package_path`, `symbol_path`, `_all_symbols` and `_all_packages` across all instances. The model gives each instance its own lists, starting empty.
- `Env.AllSymbols`: collects the walked files first and then appends them to the cache in one step. The source appends file by file. The final list is the same, and nothing can observe the cache in between.
- `Env.AllPackages`: appends to the symbol cache in one step, like `Env.AllSymbols`.
- `inventory_server`, `project_number` and `pcb_version` are not attributes of the class in the source. They only come into existence when a project file is read (pygeda/lib/env.py:166, 184-185), and reading them earlier raises `AttributeError`. The model has them from the start and sets them to `None` in the constructor.
- The attribute `args` is left out because the environment never uses it.
- `str.strip()` is modelled on the whitespace of Python 2 byte strings: space, tab, newline, carriage return, vertical tab and form feed.

## Findings

| source | as written | input that shows it | evidently intended | confidence | as-written member | corrected member |
|---|---|---|---|---|---|---|
| pygeda/lib/env.py:122 | `all_packages` appends the walked package files to `_all_symbols` and returns `_all_packages`. Nothing ever fills `_all_packages`. | A package path whose walk yields `./packages/r0805.fp`. `package_files('r0805.fp')` returns `[]`, and every call appends the package files to `_all_symbols` again. If it runs before the first `sym_files`, symbol lookups search package files instead of the symbol path. | `all_packages` memoises the package index in `_all_packages`, so `package_files` finds every walked package file and the symbol cache is left alone. | high; not executed | `Environment.PackageFilesMissesFootprint` | `Environment.Env.AllPackagesIntended` |

The other members model the source as written. In particular, `Env.PackageFiles` goes through the
as-written `Env.AllPackages`, because that is what the tool does. `Env.AllPackagesIntended`
carries the corrected behaviour. `LibraryIndex.FindWalkedFile` proves the intended property of a
package index: every walked package file is found by its name.
