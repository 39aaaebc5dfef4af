/** Concrete cases of the GPAW generator's behaviour: the calculator clause
    for a custom relaxation, the default file name of the
    `bulk_opt` recipe, and the failure on a missing calculation type. The
    allow-list used below is ordered as the arguments of the repository's
    relaxation fixture. */
module GpawCases {
  import opened Runtime
  import opened GpawSpec

  const FixtureTags: seq<string> := ["h", "kpts", "occupations", "poissonsolver", "xc"]

  /** `{"calculation": "relax", "xc": "PBE", "h": 0.18, "kpts": {"size": [6, 6, 1]}}` */
  const RelaxSettings: Settings :=
    map["calculation" := Str("relax"), "xc" := Str("PBE"), "h" := NonStr("0.18"),
        "kpts" := NonStr("{'size': [6, 6, 1]}")]

  /** Each allow-listed entry of those settings, rendered as an argument. */
  lemma RelaxRenderedArguments()
    ensures RenderParam("h", RelaxSettings["h"]) == "h=0.18"
    ensures RenderParam("kpts", RelaxSettings["kpts"]) == "kpts={'size': [6, 6, 1]}"
    ensures RenderParam("xc", RelaxSettings["xc"]) == "xc='PBE'"
  {
  }

  /** The first two allow-listed tags give the `h` and `kpts` arguments. */
  lemma RelaxParamsFirstTwo()
    ensures Params(FixtureTags[..2], RelaxSettings) == ["h=0.18", "kpts={'size': [6, 6, 1]}"]
  {
    RelaxRenderedArguments();
    ParamsSnoc([], "h", RelaxSettings);
    ParamsSnoc(["h"], "kpts", RelaxSettings);
    assert FixtureTags[..2] == [] + ["h"] + ["kpts"];
  }

  /** The settings set neither `occupations` nor `poissonsolver`. */
  lemma RelaxUnsetTags()
    ensures "occupations" !in RelaxSettings && "poissonsolver" !in RelaxSettings
  {
  }

  /** `occupations` and `poissonsolver` are not set, so they add nothing. */
  lemma RelaxParamsBeforeXc()
    ensures Params(FixtureTags[..4], RelaxSettings) == ["h=0.18", "kpts={'size': [6, 6, 1]}"]
  {
    RelaxParamsFirstTwo();
    RelaxUnsetTags();
    ParamsSnoc(FixtureTags[..2], "occupations", RelaxSettings);
    ParamsSnoc(FixtureTags[..3], "poissonsolver", RelaxSettings);
    assert FixtureTags[..3] == FixtureTags[..2] + ["occupations"];
    assert FixtureTags[..4] == FixtureTags[..3] + ["poissonsolver"];
  }

  /** The arguments of that clause: only allow-listed tags, in allow-list
      order; `xc` is quoted, the others are printed as they are, and
      `calculation` is left out. */
  lemma RelaxParams()
    ensures Params(FixtureTags, RelaxSettings) == ["h=0.18", "kpts={'size': [6, 6, 1]}", "xc='PBE'"]
  {
    RelaxParamsBeforeXc();
    RelaxRenderedArguments();
    ParamsSnoc(FixtureTags[..4], "xc", RelaxSettings);
    assert FixtureTags == FixtureTags[..4] + ["xc"];
  }

  /** Those arguments joined one per line, separated by commas. */
  lemma RelaxArguments()
    ensures Join(",\n", Params(FixtureTags, RelaxSettings)) ==
              "h=0.18" + ",\n" + "kpts={'size': [6, 6, 1]}" + ",\n" + "xc='PBE'"
  {
    RelaxParams();
    JoinThree(",\n", "h=0.18", "kpts={'size': [6, 6, 1]}", "xc='PBE'");
  }

  /** The calculator clause of the relaxation: the arguments on their own
      lines between the opening `slab.calc = GPAW(` and the closing parenthesis. */
  lemma RelaxClause()
    ensures Clause(FixtureTags, RelaxSettings) ==
              "slab.calc = GPAW(" + "\n" + ("h=0.18" + ",\n" + "kpts={'size': [6, 6, 1]}" + ",\n" + "xc='PBE'") + "\n" + ")"
  {
    RelaxArguments();
    JoinThree("\n", CalcTop, "h=0.18" + ",\n" + "kpts={'size': [6, 6, 1]}" + ",\n" + "xc='PBE'", ")");
  }

  /** Settings without `calculation` produce no script at all. */
  lemma MissingCalculationFails()
    ensures Script(FixtureTags, map["xc" := Str("PBE")]) == Failure(KeyError("calculation"))
  {
  }

  /** The `bulk_opt` recipe writes to `bulk_opt_in.py`, no recipe to `gpaw_in.py`. */
  lemma BulkOptFilename()
    ensures DefaultInputFilename(Some("bulk_opt")) == "bulk_opt_in.py"
    ensures DefaultInputFilename(None) == "gpaw_in.py"
  {
  }
}
