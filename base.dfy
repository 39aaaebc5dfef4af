/** The configuration object every input generator inherits
    (src/dftinpgen/base.py): six backing fields written by a constructor and
    by property setters, with the defaults and the one type guard the
    setters apply. The process's working directory (`os.getcwd()`) is a
    parameter of the members that consult it. */
module Base {
  import opened Runtime

  /** The type `crystal_structure` must have. */
  const AtomsTypeName: string := "ase.Atoms"

  /** The type `read_crystal_structure` accepts. */
  const StrTypeName: string := "str"

  class DftInputGenerator {
    var crystalStructure: Atoms
    var baseRecipe: Option<string>
    var customSettFile: Option<string>
    var customSettDict: Option<Settings>
    var writeLocation: string
    var overwriteFiles: Option<bool>

    /** The state `__init__` leaves behind for the given keyword arguments
        once the structure has passed its type guard. */
    ghost predicate Configured(structure: Atoms, baseRecipe: Option<string>, customSettFile: Option<string>,
                               customSettDict: Option<Settings>, writeLocation: Option<string>,
                               overwriteFiles: Option<bool>, cwd: string)
      reads this
    {
      && this.crystalStructure == structure
      && this.baseRecipe == baseRecipe
      && this.customSettFile == customSettFile
      && this.customSettDict == (if customSettDict.None? then Some(map[]) else customSettDict)
      && this.writeLocation == (if writeLocation.None? then cwd else writeLocation.value)
      && this.overwriteFiles == (if overwriteFiles.None? then Some(true) else overwriteFiles)
    }

    /** `__init__` from the point where the structure setter has accepted
        its argument: each field gets its initial value and then its setter,
        except that the dict and the overwrite flag are only passed to their
        setters when the argument is not None. */
    constructor (structure: Atoms, baseRecipe: Option<string>, customSettFile: Option<string>,
                 customSettDict: Option<Settings>, writeLocation: Option<string>,
                 overwriteFiles: Option<bool>, cwd: string)
      ensures Configured(structure, baseRecipe, customSettFile, customSettDict, writeLocation, overwriteFiles, cwd)
    {
      this.crystalStructure := structure;
      this.baseRecipe := None;
      this.customSettFile := None;
      this.customSettDict := Some(map[]);
      this.writeLocation := cwd;  // stands for the None the setter below replaces at once
      this.overwriteFiles := Some(true);
      new;
      SetBaseRecipe(baseRecipe);
      SetCustomSettFile(customSettFile);
      if customSettDict.Some? {
        SetCustomSettDict(customSettDict);
      }
      SetWriteLocation(writeLocation, cwd);
      if overwriteFiles.Some? {
        SetOverwriteFiles(overwriteFiles);
      }
    }

    /** `__init__` (base.py:78-96), as a subclass's constructor runs it: the
        structure setter runs first and raises
        TypeError for anything that is not an `ase.Atoms`, the default None
        included, in which case no generator exists. */
    static method Init(structure: PyObject, baseRecipe: Option<string>, customSettFile: Option<string>,
                       customSettDict: Option<Settings>, writeLocation: Option<string>,
                       overwriteFiles: Option<bool>, cwd: string)
      returns (r: Result<DftInputGenerator>)
      ensures r.Success? <==> IsAtoms(structure)
      ensures r.Failure? ==> r.error == TypeError(AtomsTypeName)
      ensures r.Success? ==> fresh(r.value)
      ensures r.Success? ==>
                r.value.Configured(structure.atoms, baseRecipe, customSettFile, customSettDict,
                                   writeLocation, overwriteFiles, cwd)
    {
      if !IsAtoms(structure) {
        return Failure(TypeError(AtomsTypeName));
      }
      var g := new DftInputGenerator(structure.atoms, baseRecipe, customSettFile, customSettDict,
                                     writeLocation, overwriteFiles, cwd);
      return Success(g);
    }

    /** The `crystal_structure` setter: a non-Atoms value raises TypeError and
        leaves the stored structure as it was. */
    method SetCrystalStructure(structure: PyObject) returns (outcome: Outcome)
      modifies this`crystalStructure
      ensures outcome.Pass? <==> IsAtoms(structure)
      ensures outcome.Fail? ==> outcome.error == TypeError(AtomsTypeName)
      ensures crystalStructure == if IsAtoms(structure) then structure.atoms else old(crystalStructure)
    {
      if !IsAtoms(structure) {
        return Fail(TypeError(AtomsTypeName));
      }
      crystalStructure := structure.atoms;
      return Pass;
    }

    /** The `base_recipe` setter: stores its argument unchecked. */
    method SetBaseRecipe(recipe: Option<string>)
      modifies this`baseRecipe
      ensures baseRecipe == recipe
    {
      baseRecipe := recipe;
    }

    /** The `custom_sett_file` setter: stores its argument unchecked. */
    method SetCustomSettFile(path: Option<string>)
      modifies this`customSettFile
      ensures customSettFile == path
    {
      customSettFile := path;
    }

    /** The `custom_sett_dict` setter: stores its argument unchecked, None included. */
    method SetCustomSettDict(settings: Option<Settings>)
      modifies this`customSettDict
      ensures customSettDict == settings
    {
      customSettDict := settings;
    }

    /** The `write_location` setter: None means the current working directory. */
    method SetWriteLocation(location: Option<string>, cwd: string)
      modifies this`writeLocation
      ensures writeLocation == if location.None? then cwd else location.value
    {
      if location.None? {
        writeLocation := cwd;
      } else {
        writeLocation := location.value;
      }
    }

    /** The `overwrite_files` setter: stores its argument unchecked, None included. */
    method SetOverwriteFiles(overwrite: Option<bool>)
      modifies this`overwriteFiles
      ensures overwriteFiles == overwrite
    {
      overwriteFiles := overwrite;
    }
  }

  /** `read_crystal_structure`: a string argument is handed on to the
      structure reader as a path (`Success(path)`); anything else raises
      TypeError before any read is attempted. */
  function ReadCrystalStructure(source: PyObject): (r: Result<string>)
    ensures r.Success? <==> source.PyStr?
    ensures r.Success? ==> r.value == source.s
    ensures r.Failure? ==> r.error == TypeError(StrTypeName)
  {
    match source
    case PyStr(path) => Success(path)
    case _ => Failure(TypeError(StrTypeName))
  }
}
