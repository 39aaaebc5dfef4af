/** The GPAW input generator object (src/dftinputgen/gpaw/gpaw.py). It
    inherits its configuration from the base generator; here it holds that
    configuration object, together with the recipe catalog and the
    parameter allow-list the module loads at import time. Its properties
    are methods that read the configuration afresh on every call, each
    proved to compute what the matching function of GpawSpec specifies. */
module Gpaw {
  import opened Runtime
  import opened Base
  import opened GpawSpec

  class GpawInputGenerator {
    /** The state inherited from `DftInputGenerator`. */
    const config: DftInputGenerator
    /** `GPAW_BASE_RECIPES` */
    const baseRecipes: map<string, Settings>
    /** `GPAW_TAGS['parameters']` */
    const parameterTags: seq<string>

    constructor (config: DftInputGenerator, baseRecipes: map<string, Settings>, parameterTags: seq<string>)
      ensures this.config == config && this.baseRecipes == baseRecipes && this.parameterTags == parameterTags
    {
      this.config := config;
      this.baseRecipes := baseRecipes;
      this.parameterTags := parameterTags;
    }

    /** `GPAWInputGenerator(...)`: delegates to the base constructor, so it
        fails with TypeError unless it is given an `ase.Atoms`. */
    static method Init(baseRecipes: map<string, Settings>, parameterTags: seq<string>, structure: PyObject,
                       baseRecipe: Option<string>, customSettFile: Option<string>, customSettDict: Option<Settings>,
                       writeLocation: Option<string>, overwriteFiles: Option<bool>, cwd: string)
      returns (r: Result<GpawInputGenerator>)
      ensures r.Success? <==> IsAtoms(structure)
      ensures r.Failure? ==> r.error == TypeError(AtomsTypeName)
      ensures r.Success? ==> fresh(r.value) && fresh(r.value.config)
      ensures r.Success? ==> r.value.baseRecipes == baseRecipes && r.value.parameterTags == parameterTags
      ensures r.Success? ==>
                r.value.config.Configured(structure.atoms, baseRecipe, customSettFile, customSettDict,
                                          writeLocation, overwriteFiles, cwd)
    {
      var base := DftInputGenerator.Init(structure, baseRecipe, customSettFile, customSettDict,
                                         writeLocation, overwriteFiles, cwd);
      if base.Failure? {
        return Failure(base.error);
      }
      var g := new GpawInputGenerator(base.value, baseRecipes, parameterTags);
      return Success(g);
    }

    /** The `dft_package` property: the name of the DFT code the generator
        writes for. */
    function DftPackage(): (r: string)
      ensures r == "GPAW"
    {
      "GPAW"
    }

    /** The `calculation_settings` property: starts from an empty dict and
        updates it with each configured layer in turn. */
    method CalculationSettings(openable: set<string>) returns (r: Result<Settings>)
      ensures r == Resolve(baseRecipes, openable, config.baseRecipe, config.customSettFile, config.customSettDict)
    {
      var calcSett: Settings := map[];
      if config.baseRecipe.Some? {
        if config.baseRecipe.value !in baseRecipes {
          return Failure(KeyError(config.baseRecipe.value));
        }
        calcSett := Update(calcSett, baseRecipes[config.baseRecipe.value]);
      }
      if config.customSettFile.Some? {
        if config.customSettFile.value !in openable {
          return Failure(OSError(config.customSettFile.value));
        }
        return Failure(NameError(UndefinedUpdateName));
      }
      if config.customSettDict.Some? {
        calcSett := Update(calcSett, config.customSettDict.value);
      }
      return Success(calcSett);
    }

    /** The `calc_obj_as_str` property: walks the allow-list in order and
        appends one argument per tag the settings hold. */
    method CalcObjAsStr(openable: set<string>) returns (r: Result<string>)
      ensures r == match Resolve(baseRecipes, openable, config.baseRecipe, config.customSettFile, config.customSettDict)
                   case Failure(e) => Failure(e)
                   case Success(sett) => Success(Clause(parameterTags, sett))
    {
      var resolved := CalculationSettings(openable);
      if resolved.Failure? {
        return Failure(resolved.error);
      }
      var calcSett := resolved.value;
      var params: seq<string> := [];
      var i := 0;
      while i < |parameterTags|
        invariant 0 <= i <= |parameterTags|
        invariant params == Params(parameterTags[..i], calcSett)
      {
        var p := parameterTags[i];
        assert parameterTags[..i + 1] == parameterTags[..i] + [p];
        ParamsSnoc(parameterTags[..i], p, calcSett);
        if p in calcSett {
          match calcSett[p]
          case Str(s) => params := params + [p + "='" + s + "'"];
          case NonStr(printed) => params := params + [p + "=" + printed];
        }
        i := i + 1;
      }
      assert parameterTags[..i] == parameterTags;
      var clause := Join("\n", [CalcTop, Join(",\n", params), ")"]);
      assert clause == Clause(parameterTags, calcSett);
      return Success(clause);
    }

    /** The `gpaw_input_as_str` property: resolves the settings, dispatches on
        `calculation`, and in the two recognised branches asks for the
        calculator clause, which resolves the settings a second time. */
    method GpawInputAsStr(openable: set<string>) returns (r: Result<string>)
      ensures r == Render(baseRecipes, parameterTags, openable, config.baseRecipe, config.customSettFile, config.customSettDict)
    {
      var resolved := CalculationSettings(openable);
      if resolved.Failure? {
        return Failure(resolved.error);
      }
      var calcSett := resolved.value;
      if CalculationKey !in calcSett {
        return Failure(KeyError(CalculationKey));
      }
      var calcType := calcSett[CalculationKey];
      if calcType == Str("relax") {
        var clause := CalcObjAsStr(openable);
        assert clause == Success(Clause(parameterTags, calcSett));
        return Success(Join("\n", [Header, ReadInitTraj, DefineRelaxFn, clause.value, RelaxCall]));
      } else if calcType == Str("bulk_opt") || calcType == Str("bulk_opt_hcp") {
        var clause := CalcObjAsStr(openable);
        assert clause == Success(Clause(parameterTags, calcSett));
        return Success(Join("\n", [Header, ReadInitTraj, DefineBulkOptFn, clause.value, BulkOptCall]));
      }
      return Failure(UnboundLocalError(UnboundRoutineName));
    }

    /** `write_gpaw_input` up to the point where it opens the file: the
        request it would carry out, or the error it raises first. */
    method WriteGpawInput(openable: set<string>, location: Option<string>, filename: Option<string>)
      returns (r: Result<WriteRequest>)
      ensures r == WritePlan(Render(baseRecipes, parameterTags, openable, config.baseRecipe, config.customSettFile,
                                    config.customSettDict), location, filename)
    {
      var content := GpawInputAsStr(openable);
      if content.Failure? {
        return Failure(content.error);
      }
      if IsBlank(content.value) {
        return Failure(InputGeneratorError(NothingToWriteMessage));
      }
      if location.None? {
        return Failure(InputGeneratorError(NoLocationMessage));
      }
      if filename.None? {
        return Failure(InputGeneratorError(NoFilenameMessage));
      }
      return Success(WriteRequest(location.value, filename.value, content.value));
    }

    /** `write_input_files`: writes to the stored location under the default
        file name, so it fails only when resolving or rendering fails. */
    method WriteInputFiles(openable: set<string>) returns (r: Result<WriteRequest>)
      ensures var rendered := Render(baseRecipes, parameterTags, openable, config.baseRecipe,
                                     config.customSettFile, config.customSettDict);
              && (r.Success? <==> rendered.Success?)
              && (r.Failure? ==> r.error == rendered.error)
              && (r.Success? ==>
                    r.value == WriteRequest(config.writeLocation, DefaultInputFilename(config.baseRecipe), rendered.value))
    {
      r := WriteGpawInput(openable, Some(config.writeLocation), Some(DefaultInputFilename(config.baseRecipe)));
      WriteInputFilesFailsOnlyOnRender(baseRecipes, parameterTags, openable, config.baseRecipe,
                                       config.customSettFile, config.customSettDict, config.writeLocation);
    }
  }
}
