/** Corrected readings of the two places where src/dftinputgen/gpaw/gpaw.py
    cannot run as written, each set beside the behaviour as written
    (GpawSpec.Resolve, GpawSpec.Script): line 46 calls an undefined
    `calc_sett_update` where `calc_sett.update` is meant, and line 137
    reads the branch-local `define_relax_fn` and the bare name
    `calc_obj_as_str` where the hoisted routine text and
    `self.calc_obj_as_str` are meant. The generator object follows the code
    as written; these definitions record what the code was meant to do. */
module GpawIntended {
  import opened Runtime
  import opened GpawSpec

  /** The settings file, if any, opens and yields settings. */
  predicate FileKnown(openable: set<string>, settingsFiles: map<string, Settings>, customSettFile: Option<string>) {
    customSettFile.None? || (customSettFile.value in openable && customSettFile.value in settingsFiles)
  }

  /** The file layer: the file's top-level settings, or nothing. */
  function FileLayer(openable: set<string>, settingsFiles: map<string, Settings>, customSettFile: Option<string>): Settings
    requires FileKnown(openable, settingsFiles, customSettFile)
  {
    if customSettFile.Some? then settingsFiles[customSettFile.value] else map[]
  }

  /** `calculation_settings` with line 46 as `calc_sett.update(json.load(fr))`.
      A configured path outside `openable` fails with OSError at `open`.
      `settingsFiles` maps every path whose text `json.load` parses into
      something `dict.update` accepts to the settings it adds; a path that
      opens but is missing there (malformed JSON, or a top level
      `dict.update` refuses) fails with ValueError. Top-level keys only: a
      nested mapping in a later layer replaces the earlier one whole. */
  function ResolveIntended(recipes: map<string, Settings>, openable: set<string>, settingsFiles: map<string, Settings>,
                           baseRecipe: Option<string>, customSettFile: Option<string>,
                           customSettDict: Option<Settings>): (r: Result<Settings>)
    ensures r.Success? <==> RecipeKnown(recipes, baseRecipe) && FileKnown(openable, settingsFiles, customSettFile)
    ensures !RecipeKnown(recipes, baseRecipe) ==> r == Failure(KeyError(baseRecipe.value))
    ensures RecipeKnown(recipes, baseRecipe) && customSettFile.Some? && customSettFile.value !in openable ==>
              r == Failure(OSError(customSettFile.value))
    ensures RecipeKnown(recipes, baseRecipe) && customSettFile.Some? && customSettFile.value in openable
            && customSettFile.value !in settingsFiles ==>
              r == Failure(ValueError(customSettFile.value))
    ensures r.Success? ==>
              forall k :: k in r.value <==>
                            k in RecipeLayer(recipes, baseRecipe) || k in FileLayer(openable, settingsFiles, customSettFile)
                            || (customSettDict.Some? && k in customSettDict.value)
    ensures r.Success? && customSettDict.Some? ==>
              forall k :: k in customSettDict.value ==> r.value[k] == customSettDict.value[k]
    ensures r.Success? ==>
              forall k :: k in FileLayer(openable, settingsFiles, customSettFile)
                            && (customSettDict.None? || k !in customSettDict.value) ==>
                            r.value[k] == FileLayer(openable, settingsFiles, customSettFile)[k]
    ensures r.Success? ==>
              forall k :: k in RecipeLayer(recipes, baseRecipe) && k !in FileLayer(openable, settingsFiles, customSettFile)
                            && (customSettDict.None? || k !in customSettDict.value) ==>
                            r.value[k] == RecipeLayer(recipes, baseRecipe)[k]
  {
    if !RecipeKnown(recipes, baseRecipe) then Failure(KeyError(baseRecipe.value))
    else if customSettFile.Some? && customSettFile.value !in openable then Failure(OSError(customSettFile.value))
    else if customSettFile.Some? && customSettFile.value !in settingsFiles then Failure(ValueError(customSettFile.value))
    else
      var calcSett := Update(Update(map[], RecipeLayer(recipes, baseRecipe)), FileLayer(openable, settingsFiles, customSettFile));
      if customSettDict.Some? then Success(Update(calcSett, customSettDict.value)) else Success(calcSett)
  }

  /** Line 46 as written: a settings file that opens, parses or not, makes
      resolution fail with NameError; corrected, a file that parses
      succeeds and one that does not fails with ValueError. */
  lemma SettingsFileDefect(recipes: map<string, Settings>, openable: set<string>, settingsFiles: map<string, Settings>,
                           baseRecipe: Option<string>, path: string, customSettDict: Option<Settings>)
    requires RecipeKnown(recipes, baseRecipe) && path in openable
    ensures Resolve(recipes, openable, baseRecipe, Some(path), customSettDict) == Failure(NameError(UndefinedUpdateName))
    ensures path in settingsFiles ==>
              ResolveIntended(recipes, openable, settingsFiles, baseRecipe, Some(path), customSettDict).Success?
    ensures path !in settingsFiles ==>
              ResolveIntended(recipes, openable, settingsFiles, baseRecipe, Some(path), customSettDict)
                == Failure(ValueError(path))
  {
  }

  /** A file that cannot be opened fails with the same OSError either way. */
  lemma ResolveIntendedAgreesOnUnopenableFile(recipes: map<string, Settings>, openable: set<string>,
                                               settingsFiles: map<string, Settings>, baseRecipe: Option<string>,
                                               path: string, customSettDict: Option<Settings>)
    requires path !in openable
    ensures ResolveIntended(recipes, openable, settingsFiles, baseRecipe, Some(path), customSettDict)
              == Resolve(recipes, openable, baseRecipe, Some(path), customSettDict)
  {
  }

  /** Without a settings file the correction changes nothing. */
  lemma ResolveIntendedAgreesWithoutFile(recipes: map<string, Settings>, openable: set<string>,
                                         settingsFiles: map<string, Settings>,
                                         baseRecipe: Option<string>, customSettDict: Option<Settings>)
    ensures ResolveIntended(recipes, openable, settingsFiles, baseRecipe, None, customSettDict)
              == Resolve(recipes, openable, baseRecipe, None, customSettDict)
  {
    var r1 := ResolveIntended(recipes, openable, settingsFiles, baseRecipe, None, customSettDict);
    var r2 := Resolve(recipes, openable, baseRecipe, None, customSettDict);
    if r1.Success? {
      assert r1.value == r2.value;
    }
  }

  /** `gpaw_input_as_str` with line 137 as meant: any calculation type other
      than the three recognised ones renders the total-energy script. */
  function ScriptIntended(tags: seq<string>, sett: Settings): (r: Result<string>)
    ensures r.Success? <==> CalculationKey in sett
    ensures CalculationKey !in sett ==> r == Failure(KeyError(CalculationKey))
    ensures Script(tags, sett).Success? ==> r == Script(tags, sett)
  {
    if CalculationKey in sett && !Dispatched(sett[CalculationKey]) then
      Success(Join("\n", [Header, ReadInitTraj, DefineRelaxFn, Clause(tags, sett), TotalEnergyCall]))
    else
      Script(tags, sett)
  }

  /** The corrected fallback builds the calculator and ends by asking for the
      total energy of the static structure. */
  lemma FallbackEndsWithTotalEnergy(tags: seq<string>, sett: Settings)
    requires CalculationKey in sett && !Dispatched(sett[CalculationKey])
    ensures ScriptIntended(tags, sett).Success?
    ensures EndsWith(ScriptIntended(tags, sett).value, "\n" + TotalEnergyCall)
  {
    JoinFiveEndsWith("\n", Header, ReadInitTraj, DefineRelaxFn, Clause(tags, sett), TotalEnergyCall);
  }

  /** Line 137 as written: every calculation type outside the three
      recognised ones fails, where the corrected script renders. */
  lemma FallbackDefect(tags: seq<string>, sett: Settings)
    requires CalculationKey in sett && !Dispatched(sett[CalculationKey])
    ensures Script(tags, sett) == Failure(UnboundLocalError(UnboundRoutineName))
    ensures ScriptIntended(tags, sett).Success?
  {
  }
}
