# GPAW input generator: a Dafny model

This project models the core of `dft-input-gen`'s GPAW input generator.
Given a crystal structure and a layered set of calculation settings, the
generator writes a Python script that GPAW runs. It models three things.

- **The configuration object** every generator inherits (`DftInputGenerator`).
  It holds six fields: the structure, the base recipe name, the settings-file
  path, the custom settings dict, the write location and the overwrite flag.
  Each field has a property setter. The `write_location` setter turns None
  into the working directory and the `crystal_structure` setter rejects
  anything that is not an `ase.Atoms`; the others store their argument as
  given. `__init__` defaults the dict to `{}` and the overwrite flag to `True`.
- **Settings resolution** (`calculation_settings`). It starts from an empty
  dict and applies the named base recipe and then the custom dict with
  `dict.update`, so the dict wins. A configured JSON settings file makes
  resolution fail (see below). The result is recomputed from the current
  fields on every access.
- **Rendering** (`calc_obj_as_str`, `gpaw_input_as_str`). The calculator clause
  lists, in allow-list order, every allow-listed parameter the settings hold.
  String values are quoted. The value of `calculation` then picks the script:
  imports, the trajectory read, a routine definition, the clause, and a
  trailing call. Also modelled: the default file name
  (`_get_default_input_filename`), the checks `write_gpaw_input` makes before it
  opens a file, and `write_input_files`.

The model follows the code as it stands, including where the code cannot
run:

- A configured settings file always makes resolution fail. Line 46 calls the
  undefined `calc_sett_update`.
- A `calculation` value other than `relax`, `bulk_opt` or `bulk_opt_hcp` makes
  rendering fail. The fallback at line 137 reads the unbound `define_relax_fn`.
- `bulk_opt_hcp` renders the plain `bulk_opt` routine.
- A missing `calculation` raises KeyError. There is no graceful fallback.

The repository's tests pass a `calculation_presets` keyword, which `**kwargs`
silently ignores, so the base recipe stays None. They also read a
`gpaw_input_file` property that `gpaw.py` lacks. Only `test_dft_package_name`
agrees with `gpaw.py` as it stands.
`GpawIntended` states the corrected behaviour of the two defects beside the
as-written behaviour. See "## Findings".

Layout:

- `runtime.dfy` (module `Runtime`): settings values, exceptions, `Result`,
  `str.join`, and the whitespace test behind `str.strip()`.
- `base.dfy` (module `Base`): the class `DftInputGenerator` and
  `read_crystal_structure`.
- `gpaw_spec.dfy` (module `GpawSpec`): the generator's behaviour as functions,
  with the lemmas about them.
- `gpaw.dfy` (module `Gpaw`): the class `GpawInputGenerator`. Its methods
  mirror the properties and are each proved equal to a `GpawSpec` function.
  Its `DftPackage` function gives `"GPAW"`.
- `gpaw_intended.dfy` (module `GpawIntended`): corrected definitions for the
  findings.
- `gpaw_cases.dfy` (module `GpawCases`): concrete cases.

Python inheritance is modelled by composition. `GpawInputGenerator` holds its
`DftInputGenerator` in `config`. The import-time catalog `GPAW_BASE_RECIPES`
and the allow-list `GPAW_TAGS['parameters']` are constants of the generator.
The paths `open` can read are a parameter (`openable`). A Python value whose
type is exactly `str` is `Str(s)`. Any other value is `NonStr(printed)`,
carrying the text `str()` gives for it.

## Model

| member | source | states |
|---|---|---|
| Base.DftInputGenerator.constructor | src/dftinpgen/base.py:78-96 | after construction, recipe and file path are the arguments; dict is `{}` for None, else the argument; location is cwd for None; overwrite flag is `True` unless a non-None argument is given |
| Base.DftInputGenerator.Init | src/dftinpgen/base.py:78-79 | construction fails with TypeError exactly when the structure is not an `ase.Atoms` (the default None included); otherwise a fresh object in the constructor's state |
| Base.DftInputGenerator.SetCrystalStructure | src/dftinpgen/base.py:102-107 | succeeds exactly for an `ase.Atoms`, stores it; otherwise TypeError and the stored structure is unchanged; no other field can change |
| Base.DftInputGenerator.SetBaseRecipe | src/dftinpgen/base.py:121-123 | stores the value unchecked; no other field changes |
| Base.DftInputGenerator.SetCustomSettFile | src/dftinpgen/base.py:129-131 | stores the value unchecked; no other field changes |
| Base.DftInputGenerator.SetCustomSettDict | src/dftinpgen/base.py:137-139 | stores the value unchecked, None included; no other field changes |
| Base.DftInputGenerator.SetWriteLocation | src/dftinpgen/base.py:145-150 | None stores the working directory, anything else is stored verbatim; no other field changes |
| Base.DftInputGenerator.SetOverwriteFiles | src/dftinpgen/base.py:156-158 | stores the value unchecked, None included; no other field changes |
| Base.ReadCrystalStructure | src/dftinpgen/base.py:109-115 | a string is passed on as the path to read; any other argument raises TypeError before any read |
| GpawSpec.Update | src/dftinputgen/gpaw/gpaw.py:47-48 | `dict.update`: keys are the union, the update's values win, other keys keep theirs |
| GpawSpec.Resolve | src/dftinputgen/gpaw/gpaw.py:39-49 | succeeds iff the recipe is absent or known and no settings file is set; unknown recipe → KeyError; any file → OSError or NameError; on success keys are recipe ∪ dict, the dict's values win, recipe-only keys keep the recipe's value |
| GpawSpec.ResolveRecipeOnly | src/dftinputgen/gpaw/gpaw.py:41-43 | a known recipe, no file, no or empty dict: the settings equal the recipe exactly |
| GpawSpec.ResolveDictOnly | src/dftinputgen/gpaw/gpaw.py:47-49 | no recipe and no file: the settings are the custom dict (empty for None) |
| GpawSpec.Projected | src/dftinputgen/gpaw/gpaw.py:63-64 | the emitted tags are allow-listed and present in the settings, and every such tag is emitted |
| GpawSpec.ParamsSnoc | src/dftinputgen/gpaw/gpaw.py:63-68 | one more tag at the end of the allow-list appends exactly its argument when the settings hold it, and nothing otherwise |
| GpawSpec.RenderParam | src/dftinputgen/gpaw/gpaw.py:65-68 | one argument: the tag, `=`, and the value text, which is the value in single quotes for a `str` and its printed form otherwise |
| GpawSpec.Params | src/dftinputgen/gpaw/gpaw.py:62-68 | one argument per emitted tag, in the same order, each rendered from that tag's own value |
| GpawSpec.Clause | src/dftinputgen/gpaw/gpaw.py:58-70 | the clause is `slab.calc = GPAW(`, a newline, the arguments joined by `,\n`, a newline and `)`; so it opens with the constructor call and closes with the parenthesis on its own line |
| GpawSpec.RenderParamRoundTrip | src/dftinputgen/gpaw/gpaw.py:65-68 | an argument reads back: before the first `=` is the tag; after it is the value, quoted exactly when the value is a `str` |
| GpawSpec.ParamsNameProjectedTags | src/dftinputgen/gpaw/gpaw.py:62-70 | reading the tags back from the argument list gives exactly the projected tags in order, each followed by its own value |
| GpawSpec.ProjectedAppend | src/dftinputgen/gpaw/gpaw.py:63-64 | projection distributes over concatenated allow-lists, so allow-list order is kept |
| GpawSpec.ProjectedSingleton | src/dftinputgen/gpaw/gpaw.py:64 | a single tag is emitted exactly when the settings hold it |
| GpawSpec.ProjectedNoDuplicates | src/dftinputgen/gpaw/gpaw.py:63-64 | an allow-list without repeats emits each tag at most once |
| GpawSpec.ParamsIgnoreOtherKeys | src/dftinputgen/gpaw/gpaw.py:56-70 | settings that agree on the allow-list give the same arguments and clause: keys outside it never show |
| GpawSpec.Script | src/dftinputgen/gpaw/gpaw.py:100-137 | renders iff `calculation` is `relax`, `bulk_opt` or `bulk_opt_hcp`; missing → KeyError; any other value → UnboundLocalError on `define_relax_fn` |
| GpawSpec.ScriptLayout | src/dftinputgen/gpaw/gpaw.py:111-135 | a rendered script is header, trajectory read, routine of its type, clause and trailing call, joined by newlines |
| GpawSpec.ScriptEndsWithCall | src/dftinputgen/gpaw/gpaw.py:111-135 | a rendered script ends with `\nrelax(slab)` for relax and `\nbulk_opt(slab)` for both bulk types |
| GpawSpec.ScriptNotBlank | src/dftinputgen/gpaw/gpaw.py:140-142 | a rendered script is never blank, so the empty-content guard cannot fire after a successful render |
| GpawSpec.HcpRendersAsBulkOpt | src/dftinputgen/gpaw/gpaw.py:113-135 | `bulk_opt_hcp` and `bulk_opt` give identical text for otherwise equal settings when `calculation` is not an allow-listed parameter |
| GpawSpec.ScriptIgnoresOtherKeys | src/dftinputgen/gpaw/gpaw.py:90-137 | the script depends only on `calculation` and the allow-listed keys |
| GpawSpec.Render | src/dftinputgen/gpaw/gpaw.py:90-137 | resolve, then dispatch: renders iff resolution succeeds and the resolved `calculation` is one of the three recognised types; a resolution error is passed on; a missing `calculation` raises KeyError |
| GpawSpec.RenderFailsWithSettingsFile | src/dftinputgen/gpaw/gpaw.py:44-46 | while a settings file is configured no script is ever produced |
| GpawSpec.DefaultInputFilename | src/dftinputgen/gpaw/gpaw.py:52-54 | no recipe gives `gpaw_in.py`; every name ends in `_in.py` |
| GpawSpec.DefaultFilenameRoundTrip | src/dftinputgen/gpaw/gpaw.py:52-54 | stripping `_in.py` from a recipe's default name gives back the recipe |
| GpawSpec.DefaultFilenameInjective | src/dftinputgen/gpaw/gpaw.py:52-54 | distinct recipes get distinct default names |
| GpawSpec.DefaultFilenameGpawCollides | src/dftinputgen/gpaw/gpaw.py:52-54 | the recipe `gpaw` gets the same name as no recipe |
| GpawSpec.WritePlan | src/dftinputgen/gpaw/gpaw.py:139-150 | writes exactly when rendering succeeds, the text is not blank, and location and name are given; errors in the order render, empty, location, name |
| GpawSpec.WriteInputFilesFailsOnlyOnRender | src/dftinputgen/gpaw/gpaw.py:152-156 | with the stored location and the default name, writing fails exactly when resolving or rendering fails, with that error |
| Gpaw.GpawInputGenerator.constructor | src/dftinputgen/gpaw/gpaw.py:17-32 | the generator holds the given configuration, catalog and allow-list |
| Gpaw.GpawInputGenerator.Init | src/dftinputgen/gpaw/gpaw.py:20-32 | delegates to the base constructor: TypeError exactly for a non-Atoms structure; otherwise fresh objects in the base constructor's state |
| Gpaw.GpawInputGenerator.DftPackage | src/dftinputgen/gpaw/gpaw.py:34-36 | the package name is the constant `GPAW` |
| Gpaw.GpawInputGenerator.CalculationSettings | src/dftinputgen/gpaw/gpaw.py:39-49 | the successive updates compute `Resolve` of the current fields, recomputed on each call |
| Gpaw.GpawInputGenerator.CalcObjAsStr | src/dftinputgen/gpaw/gpaw.py:56-70 | the loop over the allow-list builds `Params`, so the result is the resolution's error or the clause of the resolved settings |
| Gpaw.GpawInputGenerator.GpawInputAsStr | src/dftinputgen/gpaw/gpaw.py:73-137 | the dispatch, which resolves the settings twice, equals resolve-then-`Script` |
| Gpaw.GpawInputGenerator.WriteGpawInput | src/dftinputgen/gpaw/gpaw.py:139-150 | runs the guards of `WritePlan` on the rendered text before any file is opened |
| Gpaw.GpawInputGenerator.WriteInputFiles | src/dftinputgen/gpaw/gpaw.py:152-156 | fails exactly when resolving or rendering fails; otherwise writes the script to the stored location under the default name |
| GpawIntended.ResolveIntended | src/dftinputgen/gpaw/gpaw.py:44-46 | corrected line 46: succeeds iff the recipe is known and the file, if any, opens and yields settings; unknown recipe → KeyError, unopenable file → OSError, a file that opens but yields no settings → ValueError; dict beats file beats recipe, key by key |
| GpawIntended.SettingsFileDefect | src/dftinputgen/gpaw/gpaw.py:44-46 | a file that opens makes the code as written fail with NameError; corrected, it succeeds when the file yields settings and fails with ValueError when it does not |
| GpawIntended.ResolveIntendedAgreesOnUnopenableFile | src/dftinputgen/gpaw/gpaw.py:44-45 | a file that cannot be opened fails with the same OSError as written and corrected |
| GpawIntended.ResolveIntendedAgreesWithoutFile | src/dftinputgen/gpaw/gpaw.py:41-49 | without a file, the corrected resolution equals the code as written |
| GpawIntended.ScriptIntended | src/dftinputgen/gpaw/gpaw.py:136-137 | corrected fallback: renders iff `calculation` is present, and equals the as-written script wherever that renders |
| GpawIntended.FallbackEndsWithTotalEnergy | src/dftinputgen/gpaw/gpaw.py:136-137 | the corrected fallback ends with `slab.get_total_energy()` |
| GpawIntended.FallbackDefect | src/dftinputgen/gpaw/gpaw.py:136-137 | any unrecognised calculation type makes the code as written fail with UnboundLocalError, while the corrected script renders |
| GpawCases.RelaxParams | src/dftinputgen/gpaw/gpaw.py:62-68 | for the relax settings and the fixture's tag order, the arguments are `h=0.18`, `kpts={'size': [6, 6, 1]}`, `xc='PBE'`, and `calculation` is left out |
| GpawCases.RelaxArguments | src/dftinputgen/gpaw/gpaw.py:70 | those arguments joined by `,\n` |
| GpawCases.RelaxClause | src/dftinputgen/gpaw/gpaw.py:70 | the full clause: `slab.calc = GPAW(`, the arguments, `)`, on separate lines |
| GpawCases.MissingCalculationFails | src/dftinputgen/gpaw/gpaw.py:100 | settings without `calculation` raise KeyError |
| GpawCases.BulkOptFilename | src/dftinputgen/gpaw/gpaw.py:52-54 | the recipe `bulk_opt` writes to `bulk_opt_in.py`; no recipe writes to `gpaw_in.py` |

## Left out

- `get_kpoint_grid_from_spacing` (base.py:160-167) is left out. It is floating-point linear algebra (matrix inverse, norms, ceiling).
- File I/O is left out. `open` is reduced to the set of paths it succeeds on. Parsing the settings file is not modelled, because the code as written fails before parsing. The corrected resolution takes, as a map, the settings each parseable file adds. A file that opens but does not parse, or whose top level `dict.update` refuses, is one error kind, ValueError. Python raises `json.JSONDecodeError` (a ValueError) or a TypeError there. The write itself is not modelled: `write_gpaw_input` returns the request (location, name, text) it would carry out.
- The import-time loaders of `GPAW_TAGS` and `GPAW_BASE_RECIPES` are left out. They scan the file system; here both are given values. The recipe values the tests pin for `bulk_opt` live in JSON files that are not part of this model.
- Python's `str()` of numbers, dicts and lists is not modelled. A non-`str` value carries its printed text. A value whose type is a strict subclass of `str` is `NonStr` and renders unquoted, as `type(v) is str` decides at gpaw.py:65. At dispatch this differs from Python: a `str` subclass equal to `'relax'` (or `'bulk_opt'`, `'bulk_opt_hcp'`) takes that branch at gpaw.py:101-113, while `NonStr("relax")` does not equal `Str("relax")` and reaches the fallback.
- `ase.Atoms` is an identity handle. `io.read` is not modelled: `read_crystal_structure` returns the path it would read.
- `os.getcwd()` is a parameter (`cwd`).
- Python's dynamic typing is narrowed. Setters take the types the documentation names: strings or None, a dict or None, a bool or None. The recipe name is a string. `**kwargs` is dropped, since the base constructor ignores it.
- The abstract-base-class machinery and the abstract properties (base.py:169-181) are left out. The one concrete generator is modelled directly.
- The command-line wrapper in `src/dftinpgen/demo/pwx.py` and `setup.py` are not part of this model.
- Base.DftInputGenerator.SetCustomSettDict: Python stores the caller's dict object itself (base.py:89, base.py:139), and the getter hands out that same object. So an in-place change such as `d['xc'] = 'PBE'`, made through the caller's reference or through `gig.custom_sett_dict`, shows in the next `calculation_settings` without any setter call. The model holds the dict as a map value, so it can express such a change only as a new call to the setter. Aliasing is not modelled. Likewise gpaw.py:43 copies the recipe only shallowly, so nested values in the result are shared with `GPAW_BASE_RECIPES`.
- `overwrite_files` is stored but nothing in the GPAW writer reads it. Opening with `'w'` always overwrites.
- Base.DftInputGenerator.SetCrystalStructure: the TypeError records the expected type (`ase.Atoms`), not the message text. That text includes the found type's name.
- Base.ReadCrystalStructure: the TypeError records the expected type (`str`), not the message text with the found type.
- Base.DftInputGenerator.Init: the same message simplification applies to its TypeError.

## Findings

| source | as written | input that shows it | evidently intended | confidence | as-written member | corrected member |
|---|---|---|---|---|---|---|
| src/dftinputgen/gpaw/gpaw.py:46 | calls the undefined name `calc_sett_update`, so a configured settings file always raises NameError (OSError if it cannot be opened) | `custom_sett_file` naming any readable JSON file | `calc_sett.update(json.load(fr))`: the file's settings overlay the recipe and are overlaid by the dict | high; not executed | GpawIntended.SettingsFileDefect | GpawIntended.ResolveIntended |
| src/dftinputgen/gpaw/gpaw.py:137 | reads `define_relax_fn`, bound only in the `relax` branch, and the bare name `calc_obj_as_str`, so every other calculation type raises UnboundLocalError | settings `{"calculation": "scf"}` | the fallback line with the routine text in scope and `self.calc_obj_as_str`: a script ending in `slab.get_total_energy()`; the corrected script keeps the `relax` definition, which it never calls (dropping it fits the comment at line 136 equally well) | high; not executed | GpawIntended.FallbackDefect | GpawIntended.ScriptIntended |

The generator class keeps the behaviour as written, because it models the
repository as it is. The corrected definitions agree with the code as
written wherever the latter succeeds (`ResolveIntendedAgreesWithoutFile`,
and the third ensures of `ScriptIntended`).
